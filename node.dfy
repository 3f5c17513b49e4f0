/**
 * The scene-graph `Node`: a mesh holder with render attributes that a node
 * without its own value inherits from its parent, a list of children shared
 * by shallow copies, a bounding box kept enclosing the vertices and the
 * children, and `flatten`, which turns a tree into one level of leaves.
 *
 * A bounding box is a pair of corners; the node transform is taken as the
 * identity when the box is read.
 */
module Nodes {
  import opened Results
  import opened LinearAlgebra

  datatype RenderMode = Solid | Wireframe | Transparent | Outline

  datatype RenderPrimitive = Lines | Triangles

  /** An RGBA colour. */
  datatype Colour = Colour(r: real, g: real, b: real, a: real)

  /** `Colour.black()`. */
  function Black(): Colour { Colour(0.0, 0.0, 0.0, 1.0) }

  /** `BoundingBox(max, min)`. */
  datatype Box = Box(max: Vector3, min: Vector3)

  /** The parts of a mesh a node takes over. */
  datatype Mesh = Mesh(vertices: seq<Vector3>, boundingBox: Box, colour: Colour)

  /** The exceptions the node operations can raise. */
  datatype NodeError =
    | MissingBoundingBox  // a child's `bounding_box` is `None`
    | NoVertices          // the reduction over an empty vertex array

  /** `outer` contains `inner`, corner by corner. */
  predicate Encloses(outer: Box, inner: Box)
  {
    LessEq(outer.min, inner.min) && LessEq(inner.max, outer.max)
  }

  /** The point `v` lies in the box `b`. */
  predicate ContainsPoint(b: Box, v: Vector3)
  {
    LessEq(b.min, v) && LessEq(v, b.max)
  }

  /** The box of `np.maximum` of the maxima and `np.minimum` of the minima. */
  function Merge(a: Box, b: Box): Box
  {
    Box(Maximum(a.max, b.max), Minimum(a.min, b.min))
  }

  /** The merged box encloses both of its parts, and any box that encloses both encloses it. */
  lemma MergeIsLeastEnclosing(a: Box, b: Box, c: Box)
    ensures Encloses(Merge(a, b), a) && Encloses(Merge(a, b), b)
    ensures Encloses(c, a) && Encloses(c, b) <==> Encloses(c, Merge(a, b))
  {
  }

  lemma EnclosesTransitive(a: Box, b: Box, c: Box)
    requires Encloses(a, b) && Encloses(b, c)
    ensures Encloses(a, c)
  {
  }

  /** `BoundingBox.fromPoints(points)`: the component-wise extremes of non-empty `points`. */
  function PointsBox(points: seq<Vector3>): Box
    requires |points| > 0
  {
    if |points| == 1 then Box(points[0], points[0])
    else Merge(Box(points[0], points[0]), PointsBox(points[1..]))
  }

  /** The box of some points contains every one of them, and is inside any box that contains them all. */
  lemma {:induction false} PointsBoxIsLeast(points: seq<Vector3>, c: Box)
    requires |points| > 0
    ensures forall i :: 0 <= i < |points| ==> ContainsPoint(PointsBox(points), points[i])
    ensures (forall i :: 0 <= i < |points| ==> ContainsPoint(c, points[i])) <==> Encloses(c, PointsBox(points))
  {
    var p := Box(points[0], points[0]);
    if |points| > 1 {
      var rest := PointsBox(points[1..]);
      PointsBoxIsLeast(points[1..], c);
      MergeIsLeastEnclosing(p, rest, c);
      forall i | 0 <= i < |points|
        ensures ContainsPoint(PointsBox(points), points[i])
      {
        if i > 0 {
          assert points[i] == points[1..][i - 1];
        }
      }
      if forall i :: 0 <= i < |points| ==> ContainsPoint(c, points[i]) {
        forall i | 0 <= i < |points| - 1
          ensures ContainsPoint(c, points[1..][i])
        {
          assert points[1..][i] == points[i + 1];
        }
      }
      if Encloses(c, PointsBox(points)) {
        forall i | 0 <= i < |points|
          ensures ContainsPoint(c, points[i])
        {
          if i > 0 {
            assert points[i] == points[1..][i - 1];
          }
        }
      }
    }
  }

  /**
   * The loop of the `vertices` setter: every child box merged into `acc` in
   * order, failing at the first child without a box.
   */
  function GrowAll(acc: Box, boxes: seq<Option<Box>>): Result<Box, NodeError>
    decreases |boxes|
  {
    if |boxes| == 0 then Ok(acc)
    else if boxes[0].None? then Err(MissingBoundingBox)
    else GrowAll(Merge(boxes[0].value, acc), boxes[1..])
  }

  /**
   * Growing fails exactly when some child has no box; otherwise the grown box
   * encloses the start and every child box, and lies inside any box that does.
   */
  lemma {:induction false} GrowAllIsLeast(acc: Box, boxes: seq<Option<Box>>, c: Box)
    ensures GrowAll(acc, boxes).Err? <==> exists i :: 0 <= i < |boxes| && boxes[i].None?
    ensures GrowAll(acc, boxes).Err? ==> GrowAll(acc, boxes).error == MissingBoundingBox
    ensures GrowAll(acc, boxes).Ok? ==>
              Encloses(GrowAll(acc, boxes).value, acc) &&
              (forall i :: 0 <= i < |boxes| ==> Encloses(GrowAll(acc, boxes).value, boxes[i].value))
    ensures GrowAll(acc, boxes).Ok? ==>
              (Encloses(c, acc) && (forall i :: 0 <= i < |boxes| ==> Encloses(c, boxes[i].value)) <==>
               Encloses(c, GrowAll(acc, boxes).value))
    decreases |boxes|
  {
    if |boxes| > 0 {
      var rest := boxes[1..];
      if boxes[0].Some? {
        var next := Merge(boxes[0].value, acc);
        GrowAllIsLeast(next, rest, c);
        MergeIsLeastEnclosing(boxes[0].value, acc, c);
        if GrowAll(acc, boxes).Ok? {
          var g := GrowAll(acc, boxes).value;
          MergeIsLeastEnclosing(boxes[0].value, acc, g);
          forall i | 0 <= i < |boxes|
            ensures Encloses(g, boxes[i].value)
          {
            if i > 0 {
              assert boxes[i] == rest[i - 1];
            }
          }
          if Encloses(c, acc) && (forall i :: 0 <= i < |boxes| ==> Encloses(c, boxes[i].value)) {
            forall i | 0 <= i < |rest|
              ensures Encloses(c, rest[i].value)
            {
              assert rest[i] == boxes[i + 1];
            }
          }
          if Encloses(c, g) {
            EnclosesTransitive(c, g, next);
            forall i | 0 <= i < |boxes|
              ensures Encloses(c, boxes[i].value)
            {
              if i > 0 {
                assert boxes[i] == rest[i - 1];
              }
            }
          }
        } else {
          var k :| 0 <= k < |rest| && rest[k].None?;
          assert boxes[k + 1].None?;
        }
      }
    }
  }

  /** The box the `vertices` setter computes: the vertices' box grown by the children's boxes. */
  function VerticesBox(points: seq<Vector3>, boxes: seq<Option<Box>>): Result<Box, NodeError>
  {
    if |points| == 0 then Err(NoVertices) else GrowAll(PointsBox(points), boxes)
  }

  /**
   * The `vertices` setter succeeds exactly when there are vertices and every
   * child has a box, and then its box encloses every vertex and every child box.
   */
  lemma VerticesBoxEncloses(points: seq<Vector3>, boxes: seq<Option<Box>>)
    ensures VerticesBox(points, boxes).Ok? <==>
              |points| > 0 && forall i :: 0 <= i < |boxes| ==> boxes[i].Some?
    ensures VerticesBox(points, boxes).Ok? ==>
              (forall i :: 0 <= i < |points| ==> ContainsPoint(VerticesBox(points, boxes).value, points[i])) &&
              (forall i :: 0 <= i < |boxes| ==> Encloses(VerticesBox(points, boxes).value, boxes[i].value))
  {
    if |points| > 0 {
      var start := PointsBox(points);
      GrowAllIsLeast(start, boxes, start);
      if VerticesBox(points, boxes).Ok? {
        var g := VerticesBox(points, boxes).value;
        PointsBoxIsLeast(points, g);
        forall i | 0 <= i < |points|
          ensures ContainsPoint(g, points[i])
        {
          assert ContainsPoint(start, points[i]);
        }
      }
    }
  }

  /** `addChild`'s new box: the child's box, merged with the node's own when it has one. */
  function Extend(box: Option<Box>, child: Box): (r: Box)
    ensures Encloses(r, child)
    ensures box.Some? ==> Encloses(r, box.value)
  {
    if box.None? then child else Merge(box.value, child)
  }

  /** `Matrix44.fromTranslation(a) @ Matrix44.fromTranslation(b)` translates by `a + b`. */
  lemma TranslationsCompose(a: Vector3, b: Vector3)
    ensures MatMul44(FromTranslation(a), FromTranslation(b)) == FromTranslation(Add(a, b))
  {
    var p := MatMul44(FromTranslation(a), FromTranslation(b));
    var q := FromTranslation(Add(a, b));
    forall i | 0 <= i < 4
      ensures p[i] == q[i]
    {
      forall j | 0 <= j < 4
        ensures p[i][j] == q[i][j]
      {
      }
    }
  }

  /** The Python list object held in `children`; shallow copies share it. */
  class NodeList {
    var items: seq<Node>

    constructor ()
      ensures items == []
    {
      items := [];
    }
  }

  /** The boxes of `nodes`, in order. */
  function BoxesOf(nodes: seq<Node>): (r: seq<Option<Box>>)
    reads nodes`boundingBox
    ensures |r| == |nodes|
    ensures forall i :: 0 <= i < |nodes| ==> r[i] == nodes[i].boundingBox
  {
    if |nodes| == 0 then [] else [nodes[0].boundingBox] + BoxesOf(nodes[1..])
  }

  /**
   * `chain` is the path of `parent` links from `chain[0]` up to a root: the
   * parent chain a getter walks, which the source leaves implicit.
   */
  ghost predicate IsAncestry(chain: seq<Node>)
    reads set n | n in chain
  {
    && |chain| > 0
    && (forall i :: 0 <= i < |chain| - 1 ==> chain[i].parent == chain[i + 1])
    && chain[|chain| - 1].parent == null
  }

  class Node {
    var vertices: seq<Vector3>
    /** `_bounding_box`; read back unchanged, the transform being taken as the identity. */
    var boundingBox: Option<Box>
    var colour: Option<Colour>
    var renderMode: Option<RenderMode>
    var renderPrimitive: RenderPrimitive
    var transform: Matrix44
    var parent: Node?
    var visible: Option<bool>
    var selected: bool
    const children: NodeList

    /** `Node()`: no mesh. */
    constructor ()
      ensures vertices == [] && boundingBox == None && colour == Some(Black())
      ensures renderMode == Some(Solid) && renderPrimitive == Triangles && transform == Identity44()
      ensures parent == null && visible == Some(true) && !selected
      ensures fresh(children) && children.items == []
    {
      vertices := [];
      boundingBox := None;
      colour := Some(Black());
      renderMode := Some(Solid);
      renderPrimitive := Triangles;
      transform := Identity44();
      parent := null;
      visible := Some(true);
      selected := false;
      children := new NodeList();
    }

    /** `Node(mesh)`: the mesh's vertices, box and colour. */
    constructor FromMesh(mesh: Mesh)
      ensures vertices == mesh.vertices && boundingBox == Some(mesh.boundingBox) && colour == Some(mesh.colour)
      ensures renderMode == Some(Solid) && renderPrimitive == Triangles && transform == Identity44()
      ensures parent == null && visible == Some(true) && !selected
      ensures fresh(children) && children.items == []
    {
      vertices := mesh.vertices;
      boundingBox := Some(mesh.boundingBox);
      colour := Some(mesh.colour);
      renderMode := Some(Solid);
      renderPrimitive := Triangles;
      transform := Identity44();
      parent := null;
      visible := Some(true);
      selected := false;
      children := new NodeList();
    }

    /**
     * `copy(transform)`: a shallow copy sharing the vertices, the children
     * list and the parent, with `transform` in place of the source's when given.
     */
    constructor Copy(source: Node, transform: Option<Matrix44>)
      ensures vertices == source.vertices && children == source.children && parent == source.parent
      ensures boundingBox == source.boundingBox && colour == source.colour && renderMode == source.renderMode
      ensures renderPrimitive == source.renderPrimitive && visible == source.visible
      ensures selected == source.selected
      ensures this.transform == (if transform.Some? then transform.value else source.transform)
    {
      vertices := source.vertices;
      boundingBox := source.boundingBox;
      colour := source.colour;
      renderMode := source.renderMode;
      renderPrimitive := source.renderPrimitive;
      this.transform := if transform.Some? then transform.value else source.transform;
      parent := source.parent;
      visible := source.visible;
      selected := source.selected;
      children := source.children;
    }

    /**
     * The `colour` getter: the node's own colour, or, when it has none and
     * has a parent, the parent's. It is the first colour set along the parent
     * chain, and `None` when no node on the chain has one.
     */
    function InheritedColour(ghost chain: seq<Node>): (r: Option<Colour>)
      requires IsAncestry(chain) && chain[0] == this
      reads set n | n in chain
      ensures r.Some? <==> exists i :: 0 <= i < |chain| && chain[i].colour.Some?
      ensures forall i :: (0 <= i < |chain| && chain[i].colour.Some? &&
                           (forall j :: 0 <= j < i ==> chain[j].colour.None?)) ==> r == chain[i].colour
      decreases |chain|
    {
      if colour.None? && parent != null then
        var rest := chain[1..];
        assert rest[0] == parent;
        assert forall k :: 0 <= k < |rest| ==> rest[k] == chain[k + 1];
        parent.InheritedColour(rest)
      else
        assert |chain| > 1 ==> chain[0].parent == chain[1];
        colour
    }

    /** The `visible` getter: the first visibility set along the parent chain. */
    function InheritedVisible(ghost chain: seq<Node>): (r: Option<bool>)
      requires IsAncestry(chain) && chain[0] == this
      reads set n | n in chain
      ensures r.Some? <==> exists i :: 0 <= i < |chain| && chain[i].visible.Some?
      ensures forall i :: (0 <= i < |chain| && chain[i].visible.Some? &&
                           (forall j :: 0 <= j < i ==> chain[j].visible.None?)) ==> r == chain[i].visible
      decreases |chain|
    {
      if visible.None? && parent != null then
        var rest := chain[1..];
        assert rest[0] == parent;
        assert forall k :: 0 <= k < |rest| ==> rest[k] == chain[k + 1];
        parent.InheritedVisible(rest)
      else
        assert |chain| > 1 ==> chain[0].parent == chain[1];
        visible
    }

    /** The `render_mode` getter: the first render mode set along the parent chain. */
    function InheritedRenderMode(ghost chain: seq<Node>): (r: Option<RenderMode>)
      requires IsAncestry(chain) && chain[0] == this
      reads set n | n in chain
      ensures r.Some? <==> exists i :: 0 <= i < |chain| && chain[i].renderMode.Some?
      ensures forall i :: (0 <= i < |chain| && chain[i].renderMode.Some? &&
                           (forall j :: 0 <= j < i ==> chain[j].renderMode.None?)) ==> r == chain[i].renderMode
      decreases |chain|
    {
      if renderMode.None? && parent != null then
        var rest := chain[1..];
        assert rest[0] == parent;
        assert forall k :: 0 <= k < |rest| ==> rest[k] == chain[k + 1];
        parent.InheritedRenderMode(rest)
      else
        assert |chain| > 1 ==> chain[0].parent == chain[1];
        renderMode
    }

    /** `isEmpty`: no children and no vertices. */
    predicate IsEmpty()
      reads this, children
    {
      |children.items| == 0 && |vertices| == 0
    }

    /**
     * `addChild`: an empty child is skipped; otherwise the child gets this
     * node as parent and is appended, and the box grows to take in the
     * child's box. A child without a box raises after the append.
     */
    method AddChild(child: Node) returns (r: Outcome<NodeError>)
      modifies child`parent, children`items, this`boundingBox
      ensures old(child.IsEmpty()) ==>
                r == Pass && child.parent == old(child.parent) && children.items == old(children.items) &&
                boundingBox == old(boundingBox)
      ensures !old(child.IsEmpty()) ==> child.parent == this && children.items == old(children.items) + [child]
      ensures !old(child.IsEmpty()) ==> (r == Pass <==> old(child.boundingBox).Some?)
      ensures r.Fail? ==> r.error == MissingBoundingBox && boundingBox == old(boundingBox)
      ensures !old(child.IsEmpty()) && r.Pass? ==>
                boundingBox == Some(Extend(old(boundingBox), old(child.boundingBox).value)) &&
                Encloses(boundingBox.value, old(child.boundingBox).value) &&
                (old(boundingBox).Some? ==> Encloses(boundingBox.value, old(boundingBox).value))
    {
      if child.IsEmpty() {
        return Pass;
      }
      var childBox := child.boundingBox;
      child.parent := this;
      children.items := children.items + [child];
      if childBox.None? {
        return Fail(MissingBoundingBox);
      }
      boundingBox := Some(Extend(boundingBox, childBox.value));
      return Pass;
    }

    /**
     * The `vertices` setter: the vertices are replaced, then the box is
     * recomputed from them and the children's boxes; an empty array or a
     * child without a box raises with the old box left in place.
     */
    method SetVertices(value: seq<Vector3>) returns (r: Outcome<NodeError>)
      modifies this`vertices, this`boundingBox
      ensures vertices == value
      ensures var grown := VerticesBox(value, old(BoxesOf(children.items)));
              && (r.Pass? <==> grown.Ok?)
              && (r.Pass? ==> boundingBox == Some(grown.value))
              && (r.Fail? ==> r.error == grown.error && boundingBox == old(boundingBox))
    {
      ghost var boxes := BoxesOf(children.items);
      vertices := value;
      if |value| == 0 {
        return Fail(NoVertices);
      }
      var box := PointsBox(value);
      var i := 0;
      while i < |children.items|
        invariant 0 <= i <= |children.items|
        invariant boxes == BoxesOf(children.items)
        invariant GrowAll(box, boxes[i..]) == VerticesBox(value, boxes)
      {
        var childBox := children.items[i].boundingBox;
        assert boxes[i..][0] == childBox && boxes[i..][1..] == boxes[i + 1..];
        if childBox.None? {
          return Fail(MissingBoundingBox);
        }
        box := Merge(childBox.value, box);
        i := i + 1;
      }
      boundingBox := Some(box);
      return Pass;
    }

    /** `translate`: an empty node keeps its transform; otherwise `transform @= fromTranslation(offset)`. */
    method Translate(offset: Vector3)
      modifies this`transform
      ensures old(IsEmpty()) ==> transform == old(transform)
      ensures !old(IsEmpty()) ==> transform == MatMul44(old(transform), FromTranslation(offset))
    {
      if IsEmpty() {
        return;
      }
      transform := MatMul44(transform, FromTranslation(offset));
    }

    /**
     * `flatten`: a new node with this node's box whose children are, in
     * order, the non-empty leaf children moved over with their parent
     * cleared, the flattened children of every child that has children, and
     * last a copy of this node when it has vertices. `t` is the tree below
     * this node as it stands on entry; that it exists says the tree is
     * acyclic, without which the source recurses forever. Setting the copy's
     * vertices raises when one of its children has no box; the error then
     * propagates. Only `parent` fields of the tree's nodes change.
     */
    method Flatten(ghost t: Tree, ghost nodes: set<Node>, ghost lists: set<NodeList>) returns (r: Result<Node, NodeError>)
      requires Snapshot(t, nodes, lists) && t.node == this
      modifies nodes`parent
      ensures forall n :: n in nodes ==> n.parent == old(n.parent) || n.parent == null
      ensures r.Ok? <==> CopiesBoxed(FlatEntries(t))
      ensures r.Err? ==> r.error == MissingBoundingBox
      ensures r.Ok? ==> fresh(r.value) && fresh(r.value.children) && r.value.boundingBox == t.box
      ensures r.Ok? ==> Collected(r.value.children.items, FlatEntries(t), nodes) && Cleared(FlatEntries(t), nodes)
      ensures r.Ok? ==> r.value.vertices == [] && r.value.colour == Some(Black()) && r.value.renderMode == Some(Solid)
      ensures r.Ok? ==> r.value.renderPrimitive == Triangles && r.value.transform == Identity44()
      ensures r.Ok? ==> r.value.parent == null && r.value.visible == Some(true) && !r.value.selected
      decreases t, 1
    {
      hide *;
      RootFacts(t, nodes, lists);
      NothingCollected(t, nodes);
      var result := new Node();
      result.boundingBox := boundingBox;
      var list := result.children;
      var i := 0;
      while i < |children.items|
        invariant 0 <= i <= |children.items| == |t.kids|
        invariant fresh(result) && fresh(list) && list == result.children && result.boundingBox == t.box
        invariant result.vertices == [] && result.colour == Some(Black()) && result.renderMode == Some(Solid)
        invariant result.renderPrimitive == Triangles && result.transform == Identity44()
        invariant result.parent == null && result.visible == Some(true) && !result.selected
        invariant Snapshot(t, nodes, lists)
        invariant forall n :: n in nodes ==> n.parent == old(n.parent) || n.parent == null
        invariant Collected(list.items, PrefixEntries(t, i), nodes) && Cleared(PrefixEntries(t, i), nodes)
      {
        var ok := FlattenChild(list, i, t, nodes, lists);
        if !ok {
          PrefixCopiesBoxed(t, i + 1);
          return Err(MissingBoundingBox);
        }
        i := i + 1;
      }
      var ok := FlattenSelf(list, t, nodes, lists);
      if !ok {
        return Err(MissingBoundingBox);
      }
      return Ok(result);
    }

    /**
     * The copy `flatten` appends: `copy()` of this node with its vertices
     * set again, which recomputes its box from the shared children.
     */
    method CopyWithBox() returns (copy: Node, r: Outcome<NodeError>)
      ensures fresh(copy)
      ensures var box := VerticesBox(vertices, BoxesOf(children.items));
              && (r.Pass? <==> box.Ok?)
              && (r.Pass? ==> copy.boundingBox == Some(box.value))
      ensures copy.vertices == vertices && copy.children == children
      ensures copy.colour == colour && copy.renderMode == renderMode
      ensures copy.visible == visible && copy.selected == selected
      ensures copy.transform == transform && copy.renderPrimitive == renderPrimitive
    {
      copy := new Node.Copy(this, None);
      r := copy.SetVertices(vertices);
    }

    /** The end of `flatten`: a node with vertices appends a copy of itself with its vertices set again. */
    method FlattenSelf(list: NodeList, ghost t: Tree, ghost nodes: set<Node>, ghost lists: set<NodeList>)
      returns (ok: bool)
      requires Snapshot(t, nodes, lists) && t.node == this && list !in lists
      requires Collected(list.items, PrefixEntries(t, |t.kids|), nodes) && Cleared(PrefixEntries(t, |t.kids|), nodes)
      modifies list`items
      ensures ok <==> CopiesBoxed(FlatEntries(t))
      ensures ok ==> Collected(list.items, FlatEntries(t), nodes) && Cleared(FlatEntries(t), nodes)
    {
      hide *;
      RootFacts(t, nodes, lists);
      SelfEntryFacts(t);
      ghost var collected := PrefixEntries(t, |t.kids|);
      ghost var box := VerticesBox(vertices, KidBoxes(t.kids));
      CollectedBoxed(list.items, collected, nodes);
      CopiesBoxedConcat(collected, SelfEntry(t));
      if |vertices| == 0 {
        return true;
      }
      var copy, outcome := CopyWithBox();
      if outcome.Fail? {
        return false;
      }
      CopyCollected(copy, this, box, nodes);
      ConcatCollected(list.items, collected, [copy], SelfEntry(t), nodes);
      ConcatCleared(collected, SelfEntry(t), nodes);
      list.items := list.items + [copy];
      return true;
    }

    /** One turn of the loop in `flatten`: what the `i`-th child contributes, appended to `list`. */
    method FlattenChild(list: NodeList, i: nat, ghost t: Tree, ghost nodes: set<Node>, ghost lists: set<NodeList>)
      returns (ok: bool)
      requires Snapshot(t, nodes, lists) && t.node == this && i < |t.kids| && list !in lists
      requires Collected(list.items, PrefixEntries(t, i), nodes) && Cleared(PrefixEntries(t, i), nodes)
      modifies nodes`parent, list`items
      ensures forall n :: n in nodes ==> n.parent == old(n.parent) || n.parent == null
      ensures ok <==> CopiesBoxed(PrefixEntries(t, i + 1))
      ensures ok ==> Collected(list.items, PrefixEntries(t, i + 1), nodes) && Cleared(PrefixEntries(t, i + 1), nodes)
      decreases t, 0
    {
      hide FlatEntries, PrefixEntries, KidEntries, SelfEntry, Snapshot, Matches, CopiesBoxed, CopiesOutside;
      hide CopiesMade, Collected, VerticesBox, GrowAll, PointsBox, KidBoxes, BoxesOf, IsEmpty;
      ChildFacts(t, i, nodes, lists);
      KidEntryFacts(t, i);
      var child := children.items[i];
      ghost var kid := t.kids[i];
      ghost var before := PrefixEntries(t, i);
      CollectedBoxed(list.items, before, nodes);
      if |child.children.items| > 0 {
        var sub := child.Flatten(kid, nodes, lists);
        CopiesBoxedConcat(before, FlatEntries(kid));
        if sub.Err? {
          return false;
        }
        ConcatCollected(list.items, before, sub.value.children.items, FlatEntries(kid), nodes);
        ConcatCleared(before, FlatEntries(kid), nodes);
        list.items := list.items + sub.value.children.items;
      } else if !child.IsEmpty() {
        child.parent := null;
        MovedCollected(child, nodes);
        ConcatCollected(list.items, before, [child], [Moved(child)], nodes);
        ConcatCleared(before, [Moved(child)], nodes);
        CopiesBoxedConcat(before, [Moved(child)]);
        list.items := list.items + [child];
      } else {
        EmptyConcat(before);
      }
      return true;
    }
  }

  /** One child of a flattened node, as `flatten` produces it. */
  datatype Entry =
    | Moved(node: Node)                                // a non-empty leaf moved over with its parent cleared
    | CopyOf(node: Node, box: Result<Box, NodeError>)  // `node.copy()` with its vertices set again

  /**
   * The part of a node tree `flatten` looks at, as it stands on entry:
   * each node with its vertices, its box and the trees of its children.
   */
  datatype Tree = Tree(node: Node, vertices: seq<Vector3>, box: Option<Box>, kids: seq<Tree>)

  /**
   * `t` is the tree below `t.node` in the current heap, whose nodes are in
   * `nodes` and whose children lists are in `lists`.
   */
  ghost predicate Snapshot(t: Tree, nodes: set<Node>, lists: set<NodeList>)
    reads nodes`vertices, nodes`boundingBox, lists`items
    decreases t
  {
    && t.node in nodes && t.node.children in lists
    && t.node.vertices == t.vertices
    && t.node.boundingBox == t.box
    && |t.node.children.items| == |t.kids|
    && forall i :: 0 <= i < |t.kids| ==>
         t.kids[i].node == t.node.children.items[i] && Snapshot(t.kids[i], nodes, lists)
  }

  /** The boxes of a tree's children. */
  function KidBoxes(kids: seq<Tree>): (r: seq<Option<Box>>)
    ensures |r| == |kids|
    ensures forall i :: 0 <= i < |kids| ==> r[i] == kids[i].box
  {
    seq(|kids|, i requires 0 <= i < |kids| => kids[i].box)
  }

  /** The children's boxes in the heap are the ones the tree recorded. */
  lemma KidBoxesOf(t: Tree, nodes: set<Node>, lists: set<NodeList>)
    requires Snapshot(t, nodes, lists)
    ensures BoxesOf(t.node.children.items) == KidBoxes(t.kids)
  {
  }

  /** What the end of `flatten` relies on about the root of `t` in the heap. */
  lemma RootFacts(t: Tree, nodes: set<Node>, lists: set<NodeList>)
    requires Snapshot(t, nodes, lists)
    ensures t.node in nodes && t.node.vertices == t.vertices && t.node.boundingBox == t.box
    ensures |t.node.children.items| == |t.kids|
    ensures BoxesOf(t.node.children.items) == KidBoxes(t.kids)
  {
    KidBoxesOf(t, nodes, lists);
  }

  /** The entries of `flatten` end with the copy, boxed when its box could be computed. */
  lemma SelfEntryFacts(t: Tree)
    ensures FlatEntries(t) == PrefixEntries(t, |t.kids|) + SelfEntry(t)
    ensures |t.vertices| == 0 ==> FlatEntries(t) == PrefixEntries(t, |t.kids|) && CopiesBoxed(SelfEntry(t))
    ensures |t.vertices| > 0 ==> SelfEntry(t) == [CopyOf(t.node, VerticesBox(t.vertices, KidBoxes(t.kids)))]
    ensures |t.vertices| > 0 ==> (CopiesBoxed(SelfEntry(t)) <==> VerticesBox(t.vertices, KidBoxes(t.kids)).Ok?)
  {
    if |t.vertices| > 0 {
      assert SelfEntry(t)[0].box == VerticesBox(t.vertices, KidBoxes(t.kids));
    }
  }

  /** What one turn of the loop in `flatten` relies on about the `i`-th child in the heap. */
  lemma ChildFacts(t: Tree, i: nat, nodes: set<Node>, lists: set<NodeList>)
    requires Snapshot(t, nodes, lists) && i < |t.kids|
    ensures |t.node.children.items| == |t.kids|
    ensures t.kids[i].node == t.node.children.items[i] && Snapshot(t.kids[i], nodes, lists)
    ensures t.kids[i].node in nodes
    ensures |t.kids[i].node.children.items| == |t.kids[i].kids| && t.kids[i].node.vertices == t.kids[i].vertices
    ensures t.kids[i].node.IsEmpty() <==> |t.kids[i].kids| == 0 && |t.kids[i].vertices| == 0
  {
  }

  /** What the `i`-th child contributes to the entries of `flatten`. */
  lemma KidEntryFacts(t: Tree, i: nat)
    requires i < |t.kids|
    ensures PrefixEntries(t, i + 1) == PrefixEntries(t, i) + KidEntries(t.kids[i])
    ensures |t.kids[i].kids| > 0 ==> KidEntries(t.kids[i]) == FlatEntries(t.kids[i])
    ensures |t.kids[i].kids| == 0 && |t.kids[i].vertices| > 0 ==> KidEntries(t.kids[i]) == [Moved(t.kids[i].node)]
    ensures |t.kids[i].kids| == 0 && |t.kids[i].vertices| == 0 ==> KidEntries(t.kids[i]) == []
  {
  }

  /** Before the loop of `flatten`, nothing is collected. */
  lemma NothingCollected(t: Tree, nodes: set<Node>)
    ensures PrefixEntries(t, 0) == [] && Collected([], [], nodes) && Cleared([], nodes)
  {
  }

  /** Appending nothing keeps the entries and their copies' boxes. */
  lemma EmptyConcat(e: seq<Entry>)
    ensures e + [] == e
  {
  }

  /** The children of `flatten()` on the root of `t`. */
  function FlatEntries(t: Tree): seq<Entry>
    decreases t, 1
  {
    PrefixEntries(t, |t.kids|) + SelfEntry(t)
  }

  /** What the loop of `flatten` has collected from the first `i` children. */
  function PrefixEntries(t: Tree, i: nat): seq<Entry>
    requires i <= |t.kids|
    decreases t, 0, i
  {
    if i == 0 then [] else PrefixEntries(t, i - 1) + KidEntries(t.kids[i - 1])
  }

  /** What one child contributes: its flattened children, itself when a non-empty leaf, or nothing. */
  function KidEntries(kid: Tree): seq<Entry>
    decreases kid, 2
  {
    if |kid.kids| > 0 then FlatEntries(kid)
    else if |kid.vertices| > 0 then [Moved(kid.node)]
    else []
  }

  /** The copy `flatten` appends last, when the node has vertices. */
  function SelfEntry(t: Tree): seq<Entry>
  {
    if |t.vertices| > 0 then [CopyOf(t.node, VerticesBox(t.vertices, KidBoxes(t.kids)))] else []
  }

  /** The moved entries are exactly the nodes themselves. */
  ghost predicate Matches(items: seq<Node>, entries: seq<Entry>)
  {
    |items| == |entries| && forall k :: 0 <= k < |items| && entries[k].Moved? ==> items[k] == entries[k].node
  }

  /** Every moved node is one of `nodes` and has lost its parent. */
  ghost predicate Cleared(entries: seq<Entry>, nodes: set<Node>)
    reads nodes`parent
  {
    forall k :: 0 <= k < |entries| && entries[k].Moved? ==> entries[k].node in nodes && entries[k].node.parent == null
  }

  /** Every copy's box could be computed. */
  predicate CopiesBoxed(entries: seq<Entry>)
  {
    forall k :: 0 <= k < |entries| && entries[k].CopyOf? ==> entries[k].box.Ok?
  }

  /** Every copy is a node outside the tree. */
  ghost predicate CopiesOutside(items: seq<Node>, entries: seq<Entry>, nodes: set<Node>)
    requires |items| == |entries|
  {
    forall k :: 0 <= k < |items| && entries[k].CopyOf? ==> items[k] !in nodes
  }

  /**
   * Every copy shares its source's vertices and children list, has its
   * attributes and transform, and has the box its vertices give.
   */
  ghost predicate CopiesMade(items: seq<Node>, entries: seq<Entry>, nodes: set<Node>)
    requires |items| == |entries| && forall k :: 0 <= k < |entries| ==> entries[k].node in nodes
    reads items`vertices, items`boundingBox, items`colour, items`renderMode, items`visible
    reads items`selected, items`transform, items`renderPrimitive
    reads nodes`vertices, nodes`colour, nodes`renderMode, nodes`visible, nodes`selected
    reads nodes`transform, nodes`renderPrimitive
  {
    forall k :: 0 <= k < |items| && entries[k].CopyOf? ==>
      && items[k].vertices == entries[k].node.vertices
      && items[k].children == entries[k].node.children
      && items[k].colour == entries[k].node.colour
      && items[k].renderMode == entries[k].node.renderMode
      && items[k].visible == entries[k].node.visible
      && items[k].selected == entries[k].node.selected
      && items[k].transform == entries[k].node.transform
      && items[k].renderPrimitive == entries[k].node.renderPrimitive
      && entries[k].box.Ok? && items[k].boundingBox == Some(entries[k].box.value)
  }

  /**
   * `items` are the nodes `flatten` makes for `entries`: the moved nodes
   * themselves, and copies that are new nodes. Every entry names one of `nodes`.
   */
  ghost predicate Collected(items: seq<Node>, entries: seq<Entry>, nodes: set<Node>)
    reads items`vertices, items`boundingBox, items`colour, items`renderMode, items`visible
    reads items`selected, items`transform, items`renderPrimitive
    reads nodes`vertices, nodes`colour, nodes`renderMode, nodes`visible, nodes`selected
    reads nodes`transform, nodes`renderPrimitive
  {
    && Matches(items, entries)
    && (forall k :: 0 <= k < |entries| ==> entries[k].node in nodes)
    && CopiesOutside(items, entries, nodes)
    && CopiesMade(items, entries, nodes)
  }

  /** Collected copies have their boxes. */
  lemma CollectedBoxed(items: seq<Node>, entries: seq<Entry>, nodes: set<Node>)
    requires Collected(items, entries, nodes)
    ensures CopiesBoxed(entries)
  {
  }

  /** A leaf moved over with its parent cleared is collected. */
  lemma MovedCollected(node: Node, nodes: set<Node>)
    requires node in nodes && node.parent == null
    ensures Collected([node], [Moved(node)], nodes) && Cleared([Moved(node)], nodes)
    ensures CopiesBoxed([Moved(node)])
  {
  }

  /** A copy of `source` outside the tree with the attributes and box of the entry is collected. */
  lemma CopyCollected(copy: Node, source: Node, box: Result<Box, NodeError>, nodes: set<Node>)
    requires source in nodes && copy !in nodes && box.Ok? && copy.boundingBox == Some(box.value)
    requires copy.vertices == source.vertices && copy.children == source.children
    requires copy.colour == source.colour && copy.renderMode == source.renderMode
    requires copy.visible == source.visible && copy.selected == source.selected
    requires copy.transform == source.transform && copy.renderPrimitive == source.renderPrimitive
    ensures Collected([copy], [CopyOf(source, box)], nodes) && Cleared([CopyOf(source, box)], nodes)
  {
  }

  /** Every copy in a concatenation is boxed exactly when every copy in each part is. */
  lemma CopiesBoxedConcat(a: seq<Entry>, b: seq<Entry>)
    ensures CopiesBoxed(a + b) <==> CopiesBoxed(a) && CopiesBoxed(b)
  {
    assert forall k :: 0 <= k < |a| ==> (a + b)[k] == a[k];
    if CopiesBoxed(a + b) {
      forall k | 0 <= k < |b| && b[k].CopyOf?
        ensures b[k].box.Ok?
      {
        assert (a + b)[|a| + k] == b[k];
      }
    }
  }

  /** When every copy `flatten` makes is boxed, so is every copy made from the first `i` children. */
  lemma {:induction false} PrefixCopiesBoxed(t: Tree, i: nat)
    requires i <= |t.kids|
    ensures CopiesBoxed(FlatEntries(t)) ==> CopiesBoxed(PrefixEntries(t, i))
    decreases |t.kids| - i
  {
    CopiesBoxedConcat(PrefixEntries(t, |t.kids|), SelfEntry(t));
    if i < |t.kids| {
      PrefixCopiesBoxed(t, i + 1);
      CopiesBoxedConcat(PrefixEntries(t, i), KidEntries(t.kids[i]));
    }
  }

  /** Collected lists concatenate. */
  lemma ConcatCollected(a: seq<Node>, ea: seq<Entry>, b: seq<Node>, eb: seq<Entry>, nodes: set<Node>)
    requires Collected(a, ea, nodes) && Collected(b, eb, nodes)
    ensures Collected(a + b, ea + eb, nodes)
  {
    forall k | 0 <= k < |b|
      ensures (a + b)[|a| + k] == b[k] && (ea + eb)[|a| + k] == eb[k]
    {
    }
    assert forall k :: 0 <= k < |a| ==> (a + b)[k] == a[k] && (ea + eb)[k] == ea[k];
  }

  /** Cleared entries concatenate. */
  lemma ConcatCleared(ea: seq<Entry>, eb: seq<Entry>, nodes: set<Node>)
    requires Cleared(ea, nodes) && Cleared(eb, nodes)
    ensures Cleared(ea + eb, nodes)
  {
    forall k | 0 <= k < |ea + eb| && (ea + eb)[k].Moved?
      ensures (ea + eb)[k].node.parent == null
    {
      if k >= |ea| {
        assert (ea + eb)[k] == eb[k - |ea|];
      } else {
        assert (ea + eb)[k] == ea[k];
      }
    }
  }
}
