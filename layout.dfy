/** The ER diagram's dynamic handle layout: every edge gets one handle on
    the side of its source node that faces the target and one on the
    opposite side of the target node; the handles on each side of a node
    are then spread evenly, ordered by the centre of the node at their
    other end so that lines leaving one side do not cross. */
module Layout {
  import opened Wrappers

  datatype Position = Top | Bottom | Left | Right

  datatype HandleType = Source | Target

  /** One dynamic handle; `offset` is a percentage along its side. */
  datatype Handle = Handle(id: string, kind: HandleType, position: Position,
                           offset: real, connectedX: real, connectedY: real)

  /** A diagram node; `width`/`height` are absent until the renderer has
      measured the node. `handles` is the node's `dynamicHandles` list. */
  datatype Node = Node(id: string, x: real, y: real,
                       width: Option<real>, height: Option<real>,
                       handles: seq<Handle>)

  datatype Edge = Edge(id: string, source: string, target: string,
                       sourceHandle: Option<string>, targetHandle: Option<string>)

  const DefaultWidth: real := 250.0
  const DefaultHeight: real := 200.0
  const InitialOffset: real := 50.0

  function CenterX(n: Node): real {
    n.x + n.width.GetOr(DefaultWidth) / 2.0
  }

  function CenterY(n: Node): real {
    n.y + n.height.GetOr(DefaultHeight) / 2.0
  }

  function Abs(r: real): real {
    if r < 0.0 then -r else r
  }

  function Opposite(p: Position): Position {
    match p
    case Top => Bottom
    case Bottom => Top
    case Left => Right
    case Right => Left
  }

  /** The sides of the source and of the target for a target centre lying
      (dx, dy) away from the source centre: horizontal when the horizontal
      distance dominates, and always facing each other. */
  function Sides(dx: real, dy: real): (r: (Position, Position))
    ensures r.1 == Opposite(r.0)
    ensures (r.0 == Left || r.0 == Right) <==> Abs(dx) > Abs(dy)
    ensures r.0 == Right <==> Abs(dx) > Abs(dy) && dx > 0.0
    ensures r.0 == Bottom <==> Abs(dx) <= Abs(dy) && dy > 0.0
  {
    if Abs(dx) > Abs(dy) then
      if dx > 0.0 then (Right, Left) else (Left, Right)
    else
      if dy > 0.0 then (Bottom, Top) else (Top, Bottom)
  }

  /** The node a lookup by id finds: a map built from the node list keeps
      the last node with a given id. */
  function NodeIndex(nodes: seq<Node>, id: string): (r: Option<nat>)
    ensures r.Some? ==> r.value < |nodes| && nodes[r.value].id == id
    ensures r.Some? ==> forall j :: r.value < j < |nodes| ==> nodes[j].id != id
    ensures r.None? <==> forall j :: 0 <= j < |nodes| ==> nodes[j].id != id
  {
    if nodes == [] then None
    else if nodes[|nodes| - 1].id == id then Some(|nodes| - 1)
    else NodeIndex(nodes[..|nodes| - 1], id)
  }

  function SourceHandleId(e: Edge): string {
    "s-" + e.source + "-" + e.target + "-" + e.id
  }

  function TargetHandleId(e: Edge): string {
    "t-" + e.target + "-" + e.source + "-" + e.id
  }

  /** What one edge contributes: the node indices of its two ends and the
      handle each of them receives. */
  datatype Link = Link(src: nat, sourceHandle: Handle, tgt: nat, targetHandle: Handle)

  /** The handles of an edge from node `s` (at index `si`) to node `t`
      (at index `ti`), computed from the two centres. */
  function LinkBetween(e: Edge, si: nat, s: Node, ti: nat, t: Node): Link {
    var sx, sy := CenterX(s), CenterY(s);
    var tx, ty := CenterX(t), CenterY(t);
    var sides := Sides(tx - sx, ty - sy);
    Link(si, Handle(SourceHandleId(e), Source, sides.0, InitialOffset, tx, ty),
         ti, Handle(TargetHandleId(e), Target, sides.1, InitialOffset, sx, sy))
  }

  /** The handles depend on the nodes' geometry, not on the handles they hold. */
  lemma LinkBetweenGeometry(e: Edge, si: nat, s: Node, s': Node, ti: nat, t: Node, t': Node)
    requires s' == s.(handles := s'.handles) && t' == t.(handles := t'.handles)
    ensures LinkBetween(e, si, s', ti, t') == LinkBetween(e, si, s, ti, t)
  {
    assert CenterX(s') == CenterX(s) && CenterY(s') == CenterY(s);
    assert CenterX(t') == CenterX(t) && CenterY(t') == CenterY(t);
  }

  function LinkOf(nodes: seq<Node>, e: Edge): (r: Option<Link>)
    ensures r.Some? <==> NodeIndex(nodes, e.source).Some? && NodeIndex(nodes, e.target).Some?
    ensures r.Some? ==> r.value.src < |nodes| && r.value.tgt < |nodes|
  {
    var si := NodeIndex(nodes, e.source);
    var ti := NodeIndex(nodes, e.target);
    if si.None? || ti.None? then None
    else Some(LinkBetween(e, si.value, nodes[si.value], ti.value, nodes[ti.value]))
  }

  /** Both ends of a linked edge get a handle: the source one faces the
      target, sits on the side opposite the target's one, and remembers the
      target's centre, and vice versa; an edge with a missing end gets none. */
  lemma LinkFacts(nodes: seq<Node>, e: Edge)
    ensures LinkOf(nodes, e).None? <==>
              (forall j :: 0 <= j < |nodes| ==> nodes[j].id != e.source) ||
              (forall j :: 0 <= j < |nodes| ==> nodes[j].id != e.target)
    ensures LinkOf(nodes, e).Some? ==>
              var l := LinkOf(nodes, e).value;
              && nodes[l.src].id == e.source && nodes[l.tgt].id == e.target
              && l.sourceHandle.id == SourceHandleId(e) && l.sourceHandle.kind == Source
              && l.targetHandle.id == TargetHandleId(e) && l.targetHandle.kind == Target
              && l.targetHandle.position == Opposite(l.sourceHandle.position)
              && l.sourceHandle.connectedX == CenterX(nodes[l.tgt])
              && l.sourceHandle.connectedY == CenterY(nodes[l.tgt])
              && l.targetHandle.connectedX == CenterX(nodes[l.src])
              && l.targetHandle.connectedY == CenterY(nodes[l.src])
  {
  }

  /** The handles one edge pushes onto node `i`: the source handle first,
      then the target one (both, for an edge from a node to itself). */
  function HandlesFor(nodes: seq<Node>, e: Edge, i: nat): seq<Handle> {
    match LinkOf(nodes, e)
    case None => []
    case Some(l) =>
      (if l.src == i then [l.sourceHandle] else []) + (if l.tgt == i then [l.targetHandle] else [])
  }

  /** The handles node `i` holds once the given edges are processed in order. */
  function Pushed(nodes: seq<Node>, edges: seq<Edge>, i: nat): seq<Handle>
    decreases |edges|
  {
    if edges == [] then []
    else Pushed(nodes, edges[..|edges| - 1], i) + HandlesFor(nodes, edges[|edges| - 1], i)
  }

  /** The edge as returned: a linked edge names its two new handles, any
      other edge is passed through unchanged. */
  function LinkedEdge(nodes: seq<Node>, e: Edge): Edge {
    if LinkOf(nodes, e).None? then e
    else e.(sourceHandle := Some(SourceHandleId(e)), targetHandle := Some(TargetHandleId(e)))
  }

  lemma PushedStep(nodes: seq<Node>, edges: seq<Edge>, k: nat, i: nat)
    requires k < |edges|
    ensures Pushed(nodes, edges[..k + 1], i) == Pushed(nodes, edges[..k], i) + HandlesFor(nodes, edges[k], i)
  {
    assert edges[..k + 1][..k] == edges[..k];
  }

  /** Every handle of the edges' own ends is among the node's handles. */
  lemma {:induction false} PushedContains(nodes: seq<Node>, edges: seq<Edge>, j: nat, i: nat)
    requires j < |edges|
    ensures forall h :: h in HandlesFor(nodes, edges[j], i) ==> h in Pushed(nodes, edges, i)
    decreases |edges|
  {
    if j < |edges| - 1 {
      PushedContains(nodes, edges[..|edges| - 1], j, i);
    }
  }

  /** Conversely every handle a node holds was put there by one of the edges. */
  lemma {:induction false} PushedOrigin(nodes: seq<Node>, edges: seq<Edge>, i: nat)
    ensures forall h :: h in Pushed(nodes, edges, i) ==>
              exists j :: 0 <= j < |edges| && h in HandlesFor(nodes, edges[j], i)
    decreases |edges|
  {
    if edges != [] {
      var init := edges[..|edges| - 1];
      PushedOrigin(nodes, init, i);
      forall h | h in Pushed(nodes, edges, i)
        ensures exists j :: 0 <= j < |edges| && h in HandlesFor(nodes, edges[j], i)
      {
        if h in Pushed(nodes, init, i) {
          var j :| 0 <= j < |init| && h in HandlesFor(nodes, init[j], i);
          assert edges[j] == init[j];
        } else {
          assert h in HandlesFor(nodes, edges[|edges| - 1], i);
        }
      }
    }
  }

  /** How many edges have both ends present. */
  function LinkedCount(nodes: seq<Node>, edges: seq<Edge>): nat
    decreases |edges|
  {
    if edges == [] then 0
    else LinkedCount(nodes, edges[..|edges| - 1]) + (if LinkOf(nodes, edges[|edges| - 1]).Some? then 1 else 0)
  }

  function Sum(xs: seq<nat>): nat {
    if xs == [] then 0 else Sum(xs[..|xs| - 1]) + xs[|xs| - 1]
  }

  lemma {:induction false} SumAdd(a: seq<nat>, b: seq<nat>, c: seq<nat>)
    requires |a| == |b| == |c|
    requires forall i :: 0 <= i < |c| ==> c[i] == a[i] + b[i]
    ensures Sum(c) == Sum(a) + Sum(b)
  {
    if c != [] {
      var n := |c| - 1;
      SumAdd(a[..n], b[..n], c[..n]);
    }
  }

  lemma {:induction false} SumZero(xs: seq<nat>)
    requires forall i :: 0 <= i < |xs| ==> xs[i] == 0
    ensures Sum(xs) == 0
  {
    if xs != [] {
      SumZero(xs[..|xs| - 1]);
    }
  }

  /** One in place `p` of `n` and zero elsewhere sums to one when `p` is in range. */
  lemma {:induction false} SumIndicator(xs: seq<nat>, p: nat)
    requires forall i :: 0 <= i < |xs| ==> xs[i] == if i == p then 1 else 0
    ensures Sum(xs) == if p < |xs| then 1 else 0
  {
    if xs != [] {
      SumIndicator(xs[..|xs| - 1], p);
    }
  }

  /** How many handles each node holds after the given edges. */
  function HandleCounts(nodes: seq<Node>, edges: seq<Edge>): (r: seq<nat>)
    ensures |r| == |nodes|
  {
    seq(|nodes|, i requires 0 <= i < |nodes| => |Pushed(nodes, edges, i)|)
  }

  /** How many handles one edge gives each node. */
  function EdgeCounts(nodes: seq<Node>, e: Edge): (r: seq<nat>)
    ensures |r| == |nodes|
  {
    seq(|nodes|, i requires 0 <= i < |nodes| => |HandlesFor(nodes, e, i)|)
  }

  lemma EdgeCountsSum(nodes: seq<Node>, e: Edge)
    ensures Sum(EdgeCounts(nodes, e)) == if LinkOf(nodes, e).Some? then 2 else 0
  {
    var c := EdgeCounts(nodes, e);
    if LinkOf(nodes, e).Some? {
      var l := LinkOf(nodes, e).value;
      var a := seq(|nodes|, i requires 0 <= i < |nodes| => if i == l.src then 1 else 0);
      var b := seq(|nodes|, i requires 0 <= i < |nodes| => if i == l.tgt then 1 else 0);
      forall i | 0 <= i < |nodes|
        ensures c[i] == a[i] + b[i]
      {
        HandlesForLink(nodes, e, i);
      }
      SumAdd(a, b, c);
      SumIndicator(a, l.src);
      SumIndicator(b, l.tgt);
    } else {
      SumZero(c);
    }
  }

  /** Each edge with both ends present adds exactly two handles to the
      diagram, one at each end, and every other edge adds none. */
  lemma {:induction false} HandleTotalCount(nodes: seq<Node>, edges: seq<Edge>)
    ensures Sum(HandleCounts(nodes, edges)) == 2 * LinkedCount(nodes, edges)
    decreases |edges|
  {
    if edges == [] {
      SumZero(HandleCounts(nodes, edges));
    } else {
      var init, e := edges[..|edges| - 1], edges[|edges| - 1];
      HandleTotalCount(nodes, init);
      assert edges == init + [e];
      forall i | 0 <= i < |nodes|
        ensures HandleCounts(nodes, edges)[i] == HandleCounts(nodes, init)[i] + EdgeCounts(nodes, e)[i]
      {
        PushedSnoc(nodes, init, e, i);
      }
      SumAdd(HandleCounts(nodes, init), EdgeCounts(nodes, e), HandleCounts(nodes, edges));
      EdgeCountsSum(nodes, e);
    }
  }

  lemma PushedSnoc(nodes: seq<Node>, init: seq<Edge>, e: Edge, i: nat)
    ensures |Pushed(nodes, init + [e], i)| == |Pushed(nodes, init, i)| + |HandlesFor(nodes, e, i)|
  {
    assert (init + [e])[..|init|] == init;
  }

  // ---- Spreading the handles of one node ----

  /** The coordinate a side's handles are ordered by: the other end's
      vertical centre on the left and right sides, its horizontal centre on
      the top and bottom sides. */
  function Key(h: Handle): real {
    if h.position == Left || h.position == Right then h.connectedY else h.connectedX
  }

  /** Handle `a` precedes handle `b` after the stable sort by key: a smaller
      key, or an equal key and an earlier place in the list. */
  predicate Before(hs: seq<Handle>, a: nat, b: nat)
    requires a < |hs| && b < |hs|
  {
    Key(hs[a]) < Key(hs[b]) || (Key(hs[a]) == Key(hs[b]) && a < b)
  }

  predicate Indices(hs: seq<Handle>, g: seq<nat>) {
    forall k :: 0 <= k < |g| ==> g[k] < |hs|
  }

  predicate Distinct(g: seq<nat>) {
    forall k, k' :: 0 <= k < k' < |g| ==> g[k] != g[k']
  }

  /** The handles on side `p`, as indices into the node's list, in list order. */
  function Group(hs: seq<Handle>, p: Position): (g: seq<nat>)
    ensures forall k :: 0 <= k < |g| ==> g[k] < |hs| && hs[g[k]].position == p
    ensures forall j :: 0 <= j < |hs| && hs[j].position == p ==> j in g
    ensures forall k, k' :: 0 <= k < k' < |g| ==> g[k] < g[k']
  {
    if hs == [] then []
    else
      var g := Group(hs[..|hs| - 1], p);
      if hs[|hs| - 1].position == p then g + [|hs| - 1] else g
  }

  function InsertBy(hs: seq<Handle>, x: nat, s: seq<nat>): (r: seq<nat>)
    requires x < |hs| && Indices(hs, s)
    ensures multiset(r) == multiset(s) + multiset{x}
    ensures Indices(hs, r)
  {
    if s == [] || !Before(hs, s[0], x) then [x] + s
    else
      assert s == [s[0]] + s[1..];
      [s[0]] + InsertBy(hs, x, s[1..])
  }

  /** The library's stable sort of a group by key, as an insertion sort. */
  function SortGroup(hs: seq<Handle>, g: seq<nat>): (r: seq<nat>)
    requires Indices(hs, g)
    ensures multiset(r) == multiset(g)
    ensures Indices(hs, r)
  {
    if g == [] then []
    else
      assert g == [g[0]] + g[1..];
      InsertBy(hs, g[0], SortGroup(hs, g[1..]))
  }

  predicate SortedBy(hs: seq<Handle>, s: seq<nat>)
    requires Indices(hs, s)
  {
    forall k, k' :: 0 <= k < k' < |s| ==> Before(hs, s[k], s[k'])
  }

  lemma {:induction false} InsertSorted(hs: seq<Handle>, x: nat, s: seq<nat>)
    requires x < |hs| && Indices(hs, s) && SortedBy(hs, s) && x !in s
    ensures SortedBy(hs, InsertBy(hs, x, s))
  {
    if s != [] && Before(hs, s[0], x) {
      var t := s[1..];
      assert x !in t;
      InsertSorted(hs, x, t);
      var r := InsertBy(hs, x, t);
      forall y | y in r
        ensures Before(hs, s[0], y)
      {
        assert y in multiset(r);
        if y != x {
          assert y in t;
          var k :| 0 <= k < |t| && t[k] == y;
          assert s[k + 1] == y;
        }
      }
      forall k, k' | 0 <= k < k' < |[s[0]] + r|
        ensures Before(hs, ([s[0]] + r)[k], ([s[0]] + r)[k'])
      {
        if k == 0 {
          assert ([s[0]] + r)[k'] == r[k' - 1];
        }
      }
    }
  }

  /** The sorted group is ordered by `Before` and is a permutation of the group. */
  lemma {:induction false} SortGroupSorted(hs: seq<Handle>, g: seq<nat>)
    requires Indices(hs, g) && Distinct(g)
    ensures SortedBy(hs, SortGroup(hs, g))
    ensures multiset(SortGroup(hs, g)) == multiset(g)
  {
    if g != [] {
      var t := g[1..];
      assert Distinct(t) by {
        forall k, k' | 0 <= k < k' < |t|
          ensures t[k] != t[k']
        {
          assert t[k] == g[k + 1] && t[k'] == g[k' + 1];
        }
      }
      SortGroupSorted(hs, t);
      assert g[0] !in t by {
        forall k | 0 <= k < |t|
          ensures t[k] != g[0]
        {
          assert t[k] == g[k + 1];
        }
      }
      assert g[0] !in multiset(SortGroup(hs, t));
      InsertSorted(hs, g[0], SortGroup(hs, t));
    }
  }

  /** The handles of side `p` in the order they are laid out. */
  function SideOrder(hs: seq<Handle>, p: Position): (r: seq<nat>)
    ensures Indices(hs, r)
  {
    SortGroup(hs, Group(hs, p))
  }

  lemma SideOrderFacts(hs: seq<Handle>, p: Position)
    ensures SortedBy(hs, SideOrder(hs, p))
    ensures forall j :: 0 <= j < |hs| ==> (j in SideOrder(hs, p) <==> hs[j].position == p)
  {
    var g := Group(hs, p);
    SortGroupSorted(hs, g);
    forall j | 0 <= j < |hs|
      ensures j in SideOrder(hs, p) <==> hs[j].position == p
    {
      assert j in SideOrder(hs, p) <==> j in multiset(g);
    }
  }

  /** A sequence ordered by a strict order holds no value twice. */
  lemma SortedDistinct(hs: seq<Handle>, s: seq<nat>)
    requires Indices(hs, s) && SortedBy(hs, s)
    ensures Distinct(s)
  {
    forall k, k' | 0 <= k < k' < |s|
      ensures s[k] != s[k']
    {
      assert Before(hs, s[k], s[k']);
    }
  }

  /** Where `x` stands in `s`. */
  function IndexIn(s: seq<nat>, x: nat): (k: nat)
    requires x in s
    ensures k < |s| && s[k] == x
  {
    if s[0] == x then 0 else 1 + IndexIn(s[1..], x)
  }

  lemma IndexInDistinct(s: seq<nat>, k: nat)
    requires k < |s| && Distinct(s)
    ensures IndexIn(s, s[k]) == k
  {
    var i := IndexIn(s, s[k]);
    assert s[i] == s[k];
  }

  /** The offset, in percent along the side, of the `i`-th of `k` handles:
      the side is cut into `k + 1` equal steps. */
  function Offset(i: nat, k: nat): real {
    100.0 / (k + 1) as real * (i + 1) as real
  }

  lemma OffsetBounds(i: nat, k: nat)
    requires i < k
    ensures 0.0 < Offset(i, k) < 100.0
  {
    var step := 100.0 / (k + 1) as real;
    assert step * (k + 1) as real == 100.0;
    assert step > 0.0;
    assert step * (i + 1) as real < step * (k + 1) as real;
  }

  lemma OffsetIncreasing(i: nat, i': nat, k: nat)
    requires i < i'
    ensures Offset(i, k) < Offset(i', k)
  {
    var step := 100.0 / (k + 1) as real;
    assert step > 0.0;
    assert step * (i + 1) as real < step * (i' + 1) as real;
  }

  /** The final offset of handle `j`. */
  function OffsetOf(hs: seq<Handle>, j: nat): real
    requires j < |hs|
  {
    var g := SideOrder(hs, hs[j].position);
    SideOrderFacts(hs, hs[j].position);
    Offset(IndexIn(g, j), |g|)
  }

  /** The handles once spread: each keeps everything but its offset. */
  function Distributed(hs: seq<Handle>): (r: seq<Handle>)
    ensures |r| == |hs|
  {
    seq(|hs|, j requires 0 <= j < |hs| => hs[j].(offset := OffsetOf(hs, j)))
  }

  /** Every spread offset lies strictly inside its side. */
  lemma DistributedInside(hs: seq<Handle>, j: nat)
    requires j < |hs|
    ensures 0.0 < Distributed(hs)[j].offset < 100.0
    ensures Distributed(hs)[j] == hs[j].(offset := Distributed(hs)[j].offset)
  {
    var g := SideOrder(hs, hs[j].position);
    SideOrderFacts(hs, hs[j].position);
    OffsetBounds(IndexIn(g, j), |g|);
  }

  /** On one side the `i`-th handle of the sorted order sits at the `i`-th
      of the evenly spaced offsets. */
  lemma DistributedSpread(hs: seq<Handle>, p: Position, i: nat)
    requires i < |SideOrder(hs, p)|
    ensures Distributed(hs)[SideOrder(hs, p)[i]].offset == Offset(i, |SideOrder(hs, p)|)
  {
    var g := SideOrder(hs, p);
    SideOrderFacts(hs, p);
    SortedDistinct(hs, g);
    IndexInDistinct(g, i);
  }

  /** On one side, handle `a` sits before handle `b` exactly when the end
      of `a` is further up (left and right sides) or further left (top and
      bottom sides), ties keeping list order: lines leaving a side do not
      cross. */
  lemma DistributedOrder(hs: seq<Handle>, a: nat, b: nat)
    requires a < |hs| && b < |hs| && a != b && hs[a].position == hs[b].position
    ensures Distributed(hs)[a].offset < Distributed(hs)[b].offset <==> Before(hs, a, b)
  {
    var p := hs[a].position;
    var g := SideOrder(hs, p);
    SideOrderFacts(hs, p);
    var ia, ib := IndexIn(g, a), IndexIn(g, b);
    if ia < ib {
      OffsetIncreasing(ia, ib, |g|);
      assert Before(hs, g[ia], g[ib]);
    } else {
      assert ib < ia;
      OffsetIncreasing(ib, ia, |g|);
      assert Before(hs, g[ib], g[ia]);
    }
  }

  // ---- The layout pass ----

  /** The sides in the order the per-node pass visits them. */
  const SideList: seq<Position> := [Top, Bottom, Left, Right]

  /** Sorts every handle of a node into the group of its side. */
  method GroupBySide(hs: seq<Handle>) returns (groups: map<Position, seq<nat>>)
    ensures forall p :: p in groups && groups[p] == Group(hs, p)
  {
    groups := map[Top := [], Bottom := [], Left := [], Right := []];
    assert hs[..0] == [];
    forall p: Position
      ensures p in groups
    {
      match p
      case Top => case Bottom => case Left => case Right =>
    }
    for j := 0 to |hs|
      invariant forall p :: p in groups && groups[p] == Group(hs[..j], p)
    {
      assert hs[..j + 1][..j] == hs[..j];
      var p := hs[j].position;
      groups := groups[p := groups[p] + [j]];
    }
    assert hs[..|hs|] == hs;
  }

  /** Writes the evenly spaced offsets onto a sorted group, in its order. */
  method AssignOffsets(hs: seq<Handle>, g: seq<nat>) returns (out: seq<Handle>)
    requires Indices(hs, g) && Distinct(g)
    ensures |out| == |hs|
    ensures forall k :: 0 <= k < |g| ==> out[g[k]] == hs[g[k]].(offset := Offset(k, |g|))
    ensures forall j :: 0 <= j < |hs| && j !in g ==> out[j] == hs[j]
  {
    var step := 100.0 / (|g| + 1) as real;
    out := hs;
    for i := 0 to |g|
      invariant |out| == |hs|
      invariant forall k :: 0 <= k < i ==> out[g[k]] == hs[g[k]].(offset := Offset(k, |g|))
      invariant forall j :: 0 <= j < |hs| && j !in g[..i] ==> out[j] == hs[j]
    {
      assert g[..i + 1] == g[..i] + [g[i]];
      out := out[g[i] := out[g[i]].(offset := step * (i + 1) as real)];
    }
    assert g[..|g|] == g;
  }

  /** Spreading side `SideList[s]` over handles whose earlier sides are
      already spread leaves the first `s + 1` sides spread. */
  lemma SideSpread(hs: seq<Handle>, s: nat, before: seq<Handle>, out: seq<Handle>)
    requires s < |SideList| && |before| == |hs| && |out| == |hs|
    requires forall j :: 0 <= j < |hs| ==>
               before[j] == if hs[j].position in SideList[..s] then Distributed(hs)[j] else hs[j]
    requires forall k :: 0 <= k < |SideOrder(hs, SideList[s])| ==>
               out[SideOrder(hs, SideList[s])[k]]
                 == before[SideOrder(hs, SideList[s])[k]].(offset := Offset(k, |SideOrder(hs, SideList[s])|))
    requires forall j :: 0 <= j < |hs| && j !in SideOrder(hs, SideList[s]) ==> out[j] == before[j]
    ensures forall j :: 0 <= j < |hs| ==>
              out[j] == if hs[j].position in SideList[..s + 1] then Distributed(hs)[j] else hs[j]
  {
    var p := SideList[s];
    var sorted := SideOrder(hs, p);
    SideOrderFacts(hs, p);
    assert SideList[..s + 1] == SideList[..s] + [p];
    forall j | 0 <= j < |hs|
      ensures out[j] == if hs[j].position in SideList[..s + 1] then Distributed(hs)[j] else hs[j]
    {
      if hs[j].position == p {
        var k := IndexIn(sorted, j);
        assert out[j] == before[j].(offset := Offset(k, |sorted|));
      }
    }
  }

  /** Spreads the handles of one node along its four sides. */
  method DistributeHandles(hs: seq<Handle>) returns (out: seq<Handle>)
    ensures out == Distributed(hs)
  {
    var groups := GroupBySide(hs);
    out := hs;
    for s := 0 to |SideList|
      invariant |out| == |hs|
      invariant forall j :: 0 <= j < |hs| ==>
                  out[j] == if hs[j].position in SideList[..s] then Distributed(hs)[j] else hs[j]
    {
      var p := SideList[s];
      var group := groups[p];
      SideOrderFacts(hs, p);
      if |group| > 0 {
        var sorted := SortGroup(hs, group);
        SortedDistinct(hs, sorted);
        var before := out;
        out := AssignOffsets(out, sorted);
        SideSpread(hs, s, before, out);
      } else {
        assert SideList[..s + 1] == SideList[..s] + [p];
      }
    }
    forall q: Position
      ensures q in SideList
    {
      assert q == SideList[0] || q == SideList[1] || q == SideList[2] || q == SideList[3];
    }
    assert SideList[..|SideList|] == SideList;
  }

  /** The nodes as returned: each keeps its fields and holds the spread
      handles of the edges that end at it. */
  function LayoutNodes(nodes: seq<Node>, edges: seq<Edge>): (r: seq<Node>)
    ensures |r| == |nodes|
  {
    seq(|nodes|, i requires 0 <= i < |nodes| => nodes[i].(handles := Distributed(Pushed(nodes, edges, i))))
  }

  /** The edges as returned. */
  function LayoutEdges(nodes: seq<Node>, edges: seq<Edge>): (r: seq<Edge>)
    ensures |r| == |edges|
  {
    seq(|edges|, j requires 0 <= j < |edges| => LinkedEdge(nodes, edges[j]))
  }

  /** The copied nodes after one more edge: a linked edge appends its
      source handle to its source node, then its target handle to its
      target node. */
  function Step(nodes: seq<Node>, cur: seq<Node>, e: Edge): (r: seq<Node>)
    requires |cur| == |nodes|
    ensures |r| == |nodes|
  {
    match LinkOf(nodes, e)
    case None => cur
    case Some(l) =>
      var c := cur[l.src := cur[l.src].(handles := cur[l.src].handles + [l.sourceHandle])];
      c[l.tgt := c[l.tgt].(handles := c[l.tgt].handles + [l.targetHandle])]
  }

  /** One more edge appends to each node exactly the handles it gives it. */
  lemma StepAt(nodes: seq<Node>, cur: seq<Node>, e: Edge, i: nat)
    requires |cur| == |nodes| && i < |nodes|
    ensures Step(nodes, cur, e)[i] == cur[i].(handles := cur[i].handles + HandlesFor(nodes, e, i))
  {
    if LinkOf(nodes, e).Some? {
      var l := LinkOf(nodes, e).value;
      HandlesForLink(nodes, e, i);
      var c := cur[l.src := cur[l.src].(handles := cur[l.src].handles + [l.sourceHandle])];
      assert c[i] == cur[i].(handles := cur[i].handles + (if l.src == i then [l.sourceHandle] else []));
    }
  }

  /** The copied nodes once the given edges are processed. */
  ghost function PushedNodes(nodes: seq<Node>, es: seq<Edge>): (r: seq<Node>)
    ensures |r| == |nodes|
  {
    seq(|nodes|, i requires 0 <= i < |nodes| => nodes[i].(handles := Pushed(nodes, es, i)))
  }

  /** The copied edges once the first `k` are processed. */
  ghost function EdgesUpTo(nodes: seq<Node>, edges: seq<Edge>, k: nat): (r: seq<Edge>)
    requires k <= |edges|
    ensures |r| == |edges|
  {
    seq(|edges|, j requires 0 <= j < |edges| => if j < k then LinkedEdge(nodes, edges[j]) else edges[j])
  }

  lemma StepPushed(nodes: seq<Node>, edges: seq<Edge>, k: nat)
    requires k < |edges|
    ensures Step(nodes, PushedNodes(nodes, edges[..k]), edges[k]) == PushedNodes(nodes, edges[..k + 1])
  {
    var cur := PushedNodes(nodes, edges[..k]);
    forall i | 0 <= i < |nodes|
      ensures Step(nodes, cur, edges[k])[i] == PushedNodes(nodes, edges[..k + 1])[i]
    {
      PushedStep(nodes, edges, k, i);
      StepAt(nodes, cur, edges[k], i);
    }
  }

  lemma EdgesStep(nodes: seq<Node>, edges: seq<Edge>, k: nat)
    requires k < |edges|
    ensures EdgesUpTo(nodes, edges, k)[k := LinkedEdge(nodes, edges[k])] == EdgesUpTo(nodes, edges, k + 1)
  {
  }

  /** Handles edge `k`: when both its ends are found, pushes a handle onto
      each and names them on the edge. */
  method LinkEdge(nodes: seq<Node>, k: nat, nextNodes: array<Node>, nextEdges: array<Edge>)
    requires nextNodes.Length == |nodes| && k < nextEdges.Length
    requires forall i :: 0 <= i < |nodes| ==> nextNodes[i] == nodes[i].(handles := nextNodes[i].handles)
    modifies nextNodes, nextEdges
    ensures nextNodes[..] == Step(nodes, old(nextNodes[..]), old(nextEdges[k]))
    ensures nextEdges[..] == old(nextEdges[..])[k := LinkedEdge(nodes, old(nextEdges[k]))]
  {
    var edge := nextEdges[k];
    // the id lookup: node ids are those of the input and never change
    var sourceIndex := NodeIndex(nodes, edge.source);
    var targetIndex := NodeIndex(nodes, edge.target);
    if sourceIndex.Some? && targetIndex.Some? {
      var si, ti := sourceIndex.value, targetIndex.value;
      var sourceNode, targetNode := nextNodes[si], nextNodes[ti];
      var sx, sy := CenterX(sourceNode), CenterY(sourceNode);
      var tx, ty := CenterX(targetNode), CenterY(targetNode);
      var sides := Sides(tx - sx, ty - sy);
      var sourceHandleId, targetHandleId := SourceHandleId(edge), TargetHandleId(edge);
      var sourceHandle := Handle(sourceHandleId, Source, sides.0, InitialOffset, tx, ty);
      var targetHandle := Handle(targetHandleId, Target, sides.1, InitialOffset, sx, sy);
      assert Link(si, sourceHandle, ti, targetHandle) == LinkBetween(edge, si, sourceNode, ti, targetNode);
      LinkBetweenGeometry(edge, si, nodes[si], sourceNode, ti, nodes[ti], targetNode);
      nextNodes[si] := sourceNode.(handles := sourceNode.handles + [sourceHandle]);
      var targetNow := nextNodes[ti];
      nextNodes[ti] := targetNow.(handles := targetNow.handles + [targetHandle]);
      nextEdges[k] := edge.(sourceHandle := Some(sourceHandleId), targetHandle := Some(targetHandleId));
    }
  }

  lemma HandlesForLink(nodes: seq<Node>, e: Edge, i: nat)
    requires LinkOf(nodes, e).Some?
    ensures HandlesFor(nodes, e, i)
            == (if LinkOf(nodes, e).value.src == i then [LinkOf(nodes, e).value.sourceHandle] else [])
               + (if LinkOf(nodes, e).value.tgt == i then [LinkOf(nodes, e).value.targetHandle] else [])
  {
  }

  /** Spreads the handles of every node in place. */
  method DistributeAll(nextNodes: array<Node>)
    modifies nextNodes
    ensures forall i :: 0 <= i < nextNodes.Length ==>
              nextNodes[i] == old(nextNodes[i]).(handles := Distributed(old(nextNodes[i]).handles))
  {
    ghost var before := nextNodes[..];
    for i := 0 to nextNodes.Length
      invariant forall i' :: 0 <= i' < i ==> nextNodes[i'] == before[i'].(handles := Distributed(before[i'].handles))
      invariant forall i' :: i <= i' < nextNodes.Length ==> nextNodes[i'] == before[i']
    {
      var hs := DistributeHandles(nextNodes[i].handles);
      nextNodes[i] := nextNodes[i].(handles := hs);
    }
  }

  /** The edge pass on fresh copies: the nodes start with no handles and
      each edge in turn adds its handles and names them. */
  method LinkAll(nodes: seq<Node>, edges: seq<Edge>) returns (nextNodes: array<Node>, nextEdges: array<Edge>)
    ensures fresh(nextNodes) && fresh(nextEdges)
    ensures nextNodes[..] == PushedNodes(nodes, edges)
    ensures nextEdges[..] == LayoutEdges(nodes, edges)
  {
    nextNodes := new Node[|nodes|](i requires 0 <= i < |nodes| => nodes[i].(handles := []));
    nextEdges := new Edge[|edges|](j requires 0 <= j < |edges| => edges[j]);
    assert nextNodes[..] == PushedNodes(nodes, edges[..0]);
    assert nextEdges[..] == EdgesUpTo(nodes, edges, 0);
    for k := 0 to |edges|
      invariant nextNodes[..] == PushedNodes(nodes, edges[..k])
      invariant nextEdges[..] == EdgesUpTo(nodes, edges, k)
    {
      StepPushed(nodes, edges, k);
      EdgesStep(nodes, edges, k);
      LinkEdge(nodes, k, nextNodes, nextEdges);
    }
    assert edges[..|edges|] == edges;
  }

  /** Computes the dynamic handles of every node and the handle names of
      every edge on fresh copies, leaving the given lists alone. */
  method CalculateDynamicLayout(nodes: seq<Node>, edges: seq<Edge>)
      returns (nextNodes: array<Node>, nextEdges: array<Edge>)
    ensures fresh(nextNodes) && fresh(nextEdges)
    ensures nextNodes[..] == LayoutNodes(nodes, edges)
    ensures nextEdges[..] == LayoutEdges(nodes, edges)
  {
    nextNodes, nextEdges := LinkAll(nodes, edges);
    DistributeAll(nextNodes);
  }

  // ---- What the layout guarantees ----

  /** An edge whose ends are both found names, as its source and target
      handle, a handle of the right kind on its source node and on its
      target node; an edge with a missing end is returned as given. */
  lemma EdgeHandlesExist(nodes: seq<Node>, edges: seq<Edge>, j: nat)
    requires j < |edges|
    ensures LinkOf(nodes, edges[j]).None? ==> LayoutEdges(nodes, edges)[j] == edges[j]
    ensures LinkOf(nodes, edges[j]).Some? ==>
              var l := LinkOf(nodes, edges[j]).value;
              var e := LayoutEdges(nodes, edges)[j];
              && e.sourceHandle == Some(SourceHandleId(edges[j]))
              && e.targetHandle == Some(TargetHandleId(edges[j]))
              && (exists h :: h in LayoutNodes(nodes, edges)[l.src].handles
                             && h.id == SourceHandleId(edges[j]) && h.kind == Source)
              && (exists h :: h in LayoutNodes(nodes, edges)[l.tgt].handles
                             && h.id == TargetHandleId(edges[j]) && h.kind == Target)
  {
    if LinkOf(nodes, edges[j]).Some? {
      var l := LinkOf(nodes, edges[j]).value;
      HandlesForLink(nodes, edges[j], l.src);
      HandlesForLink(nodes, edges[j], l.tgt);
      PushedContains(nodes, edges, j, l.src);
      PushedContains(nodes, edges, j, l.tgt);
      var ps, pt := Pushed(nodes, edges, l.src), Pushed(nodes, edges, l.tgt);
      assert l.sourceHandle in ps && l.targetHandle in pt;
      var a :| 0 <= a < |ps| && ps[a] == l.sourceHandle;
      var b :| 0 <= b < |pt| && pt[b] == l.targetHandle;
      assert Distributed(ps)[a] in LayoutNodes(nodes, edges)[l.src].handles;
      assert Distributed(pt)[b] in LayoutNodes(nodes, edges)[l.tgt].handles;
    }
  }

  /** Every handle a node ends up with belongs to an edge that ends at that
      node: a source handle to an edge leaving it, a target handle to an
      edge entering it; nothing from the input's old handles survives. */
  lemma NodeHandlesFromEdges(nodes: seq<Node>, edges: seq<Edge>, i: nat, h: Handle)
    requires i < |nodes| && h in LayoutNodes(nodes, edges)[i].handles
    ensures exists j :: 0 <= j < |edges| && LinkOf(nodes, edges[j]).Some? &&
              ((h.kind == Source && h.id == SourceHandleId(edges[j]) && LinkOf(nodes, edges[j]).value.src == i) ||
               (h.kind == Target && h.id == TargetHandleId(edges[j]) && LinkOf(nodes, edges[j]).value.tgt == i))
  {
    var hs := Pushed(nodes, edges, i);
    var out := Distributed(hs);
    assert LayoutNodes(nodes, edges)[i].handles == out;
    var a :| 0 <= a < |out| && out[a] == h;
    DistributedInside(hs, a);
    assert h.kind == hs[a].kind && h.id == hs[a].id;
    PushedOrigin(nodes, edges, i);
    assert hs[a] in hs;
    var j :| 0 <= j < |edges| && hs[a] in HandlesFor(nodes, edges[j], i);
    HandleOfEdge(nodes, edges[j], i, hs[a]);
  }

  lemma HandleOfEdge(nodes: seq<Node>, e: Edge, i: nat, x: Handle)
    requires x in HandlesFor(nodes, e, i)
    ensures LinkOf(nodes, e).Some?
    ensures (x.kind == Source && x.id == SourceHandleId(e) && LinkOf(nodes, e).value.src == i) ||
            (x.kind == Target && x.id == TargetHandleId(e) && LinkOf(nodes, e).value.tgt == i)
  {
    HandlesForLink(nodes, e, i);
  }
}
