/** Cells of the S2 quadtree, and direct grouping of points by cell: what the stepwise aggregation of
    MapAggregator is measured against.  The geometry of the sphere stays symbolic. */
module MapCells {
  const MAX_LEVEL: nat := 18
  const MIN_LEVEL: nat := 2
  const LEAF_LEVEL: nat := 30
  const MIN_REP_TO_AGGR: nat := 10
  const WEIGHT_DIFF_THRESHOLD: nat := 8

  type Digit = d: nat | d < 4

  datatype Cell = Cell(face: nat, path: seq<Digit>) {
    function Level(): nat { |path| }

    function Parent(level: nat): Cell
      requires level <= Level()
    {
      Cell(face, path[..level])
    }

    function Child(i: Digit): Cell { Cell(face, path + [i]) }

    function ChildPosition(level: nat): Digit
      requires 1 <= level <= Level()
    {
      path[level - 1]
    }
  }

  type LeafCell = c: Cell | c.Level() == 30 witness Cell(0, seq(30, _ => 0))

  /** A point on the map: the leaf cell stands for its latitude and longitude. */
  datatype MapResult = MapResult(leaf: LeafCell, count: int, reportId: int, team: int, own: bool)

  /** A pin as the term that computes it: the centre of a cell, or the planar centroid of three pins. */
  datatype Pin = Center(cell: Cell) | Centroid(a: Pin, b: Pin, c: Pin)

  /** The cell of a level that a point lies in. */
  function Home(r: MapResult, level: nat): (c: Cell)
    requires level <= LEAF_LEVEL
    ensures c.Level() == level
  {
    r.leaf.Parent(level)
  }

  lemma HomeNests(r: MapResult, level: nat)
    requires level < LEAF_LEVEL
    ensures Home(r, level + 1).Level() == level + 1
    ensures Home(r, level + 1).Parent(level) == Home(r, level)
  {
    assert r.leaf.path[..level + 1][..level] == r.leaf.path[..level];
  }

  lemma ChildOfParent(c: Cell, level: nat)
    requires c.Level() == level + 1
    ensures c.Parent(level).Child(c.ChildPosition(level + 1)) == c
  {
    assert c.path == c.path[..level] + [c.path[level]];
  }

  /** The added points whose cell of the given level is one of `cells`, in the order they were added. */
  ghost function Within(added: seq<MapResult>, level: nat, cells: set<Cell>): seq<MapResult>
    requires level <= LEAF_LEVEL
  {
    if added == [] then []
    else
      var last := added[|added| - 1];
      Within(added[..|added| - 1], level, cells) + (if Home(last, level) in cells then [last] else [])
  }

  ghost function Below(added: seq<MapResult>, c: Cell): seq<MapResult>
    requires c.Level() <= LEAF_LEVEL
  {
    Within(added, c.Level(), {c})
  }

  ghost function CellsAt(added: seq<MapResult>, level: nat): set<Cell>
    requires level <= LEAF_LEVEL
  {
    set r | r in added :: Home(r, level)
  }

  lemma {:induction false} WithinAdd(added: seq<MapResult>, level: nat, cells: set<Cell>, c: Cell)
    requires level <= LEAF_LEVEL && c !in cells
    ensures var w := Within(added, level, cells + {c});
            var u := Within(added, level, cells);
            var v := Within(added, level, {c});
            multiset(w) == multiset(u) + multiset(v) && |w| == |u| + |v|
  {
    if added != [] { WithinAdd(added[..|added| - 1], level, cells, c); }
  }

  /** Two ways of choosing cells that agree on every point choose the same points. */
  lemma {:induction false} WithinSame(added: seq<MapResult>, l: nat, cells: set<Cell>, m: nat, others: set<Cell>)
    requires l <= LEAF_LEVEL && m <= LEAF_LEVEL
    requires forall r | r in added :: Home(r, l) in cells <==> Home(r, m) in others
    ensures Within(added, l, cells) == Within(added, m, others)
  {
    if added != [] { WithinSame(added[..|added| - 1], l, cells, m, others); }
  }

  lemma {:induction false} WithinAll(added: seq<MapResult>, level: nat, cells: set<Cell>)
    requires level <= LEAF_LEVEL
    requires forall r | r in added :: Home(r, level) in cells
    ensures Within(added, level, cells) == added
  {
    if added != [] {
      var n := |added| - 1;
      assert added == added[..n] + [added[n]] && added[n] in added;
      assert forall r | r in added[..n] :: r in added;
      WithinAll(added[..n], level, cells);
    }
  }

  lemma {:induction false} WithinSound(added: seq<MapResult>, level: nat, cells: set<Cell>)
    requires level <= LEAF_LEVEL
    ensures forall r :: r in Within(added, level, cells) <==> r in added && Home(r, level) in cells
  {
    if added != [] {
      var n := |added| - 1;
      WithinSound(added[..n], level, cells);
      assert added == added[..n] + [added[n]];
    }
  }

  /** Exactly the cells that some added point lies in have points below them. */
  lemma Occupied(added: seq<MapResult>, c: Cell)
    requires c.Level() <= LEAF_LEVEL
    ensures c in CellsAt(added, c.Level()) <==> Below(added, c) != []
  {
    WithinSound(added, c.Level(), {c});
    var below := Below(added, c);
    if below != [] {
      assert below[0] in below && Home(below[0], c.Level()) == c;
    }
    if c in CellsAt(added, c.Level()) {
      var r :| r in added && Home(r, c.Level()) == c;
      assert r in below;
    }
  }

  lemma BelowAppend(added: seq<MapResult>, r: MapResult, c: Cell)
    requires c.Level() <= LEAF_LEVEL
    ensures Below(added + [r], c) == Below(added, c) + (if Home(r, c.Level()) == c then [r] else [])
  {
    assert (added + [r])[..|added|] == added;
  }

  ghost function ChildrenIn(cells: set<Cell>, p: Cell): set<Cell> {
    set c | c in cells && c.Level() == p.Level() + 1 && c.Parent(p.Level()) == p
  }

  /** Grouping by children and then by parent is grouping by parent. */
  lemma Regroup(added: seq<MapResult>, p: Cell)
    requires p.Level() < LEAF_LEVEL
    ensures Within(added, p.Level() + 1, ChildrenIn(CellsAt(added, p.Level() + 1), p)) == Below(added, p)
  {
    var kids := ChildrenIn(CellsAt(added, p.Level() + 1), p);
    forall r | r in added
      ensures Home(r, p.Level() + 1) in kids <==> Home(r, p.Level()) in {p}
    {
      HomeNests(r, p.Level());
    }
    WithinSame(added, p.Level() + 1, kids, p.Level(), {p});
  }

  // ---------------------------------------------------------------- pins

  datatype Weighted = Weighted(cnt: int, pin: Pin)

  function MaxWeight(children: seq<Weighted>): int {
    if children == [] then 0
    else
      var last := children[|children| - 1].cnt;
      var before := MaxWeight(children[..|children| - 1]);
      if before < last then last else before
  }

  predicate AllPositive(children: seq<Weighted>) { forall i | 0 <= i < |children| :: children[i].cnt > 0 }

  /** The pins of the children within a factor of the heaviest one. */
  function Kept(children: seq<Weighted>, max: int): seq<Pin>
    requires AllPositive(children)
  {
    if children == [] then []
    else
      var last := children[|children| - 1];
      Kept(children[..|children| - 1], max) + (if max / last.cnt < WEIGHT_DIFF_THRESHOLD then [last.pin] else [])
  }

  function Placed(cell: Cell, pins: seq<Pin>): Pin {
    match |pins|
    case 1 => pins[0]
    case 2 => Centroid(pins[0], pins[0], pins[1])
    case 3 => Centroid(pins[0], pins[1], pins[2])
    case _ => Center(cell)
  }

  lemma {:induction false} MaxWeightIsReached(children: seq<Weighted>)
    requires AllPositive(children)
    ensures forall i | 0 <= i < |children| :: children[i].cnt <= MaxWeight(children)
    ensures children != [] ==> exists i :: 0 <= i < |children| && children[i].cnt == MaxWeight(children)
  {
    if children != [] {
      var n := |children| - 1;
      MaxWeightIsReached(children[..n]);
      assert children[n].cnt > 0 && (n == 0 ==> children[..n] == []);
      if MaxWeight(children) != children[n].cnt {
        var i :| 0 <= i < n && children[..n][i].cnt == MaxWeight(children[..n]);
        assert children[i].cnt == MaxWeight(children[..n]);
      }
    }
  }

  lemma {:induction false} KeptContains(children: seq<Weighted>, max: int, i: nat)
    requires AllPositive(children) && i < |children| && max / children[i].cnt < WEIGHT_DIFF_THRESHOLD
    ensures children[i].pin in Kept(children, max)
  {
    if i < |children| - 1 {
      assert children[..|children| - 1][i] == children[i];
      KeptContains(children[..|children| - 1], max, i);
    }
  }

  lemma KeptPush(ws: seq<Weighted>, w: Weighted, max: int)
    requires AllPositive(ws) && w.cnt > 0
    ensures AllPositive(ws + [w])
    ensures Kept(ws + [w], max) ==
            Kept(ws, max) + (if max / w.cnt < WEIGHT_DIFF_THRESHOLD then [w.pin] else [])
  {
    assert (ws + [w])[..|ws|] == ws;
  }

  lemma {:induction false} KeptAtMost(children: seq<Weighted>, max: int)
    requires AllPositive(children)
    ensures |Kept(children, max)| <= |children|
  {
    if children != [] { KeptAtMost(children[..|children| - 1], max); }
  }

  /** Of one to four children with points, one to four pins are kept, and a heaviest child's is one of
      them: no weight divides by zero and the last fallback of the centroid is never taken. */
  lemma HeaviestIsKept(children: seq<Weighted>)
    requires AllPositive(children) && 1 <= |children| <= 4
    ensures 1 <= |Kept(children, MaxWeight(children))| <= 4
    ensures forall i | 0 <= i < |children| && children[i].cnt == MaxWeight(children) ::
              children[i].pin in Kept(children, MaxWeight(children))
  {
    var max := MaxWeight(children);
    MaxWeightIsReached(children);
    forall i | 0 <= i < |children| && children[i].cnt == max
      ensures children[i].pin in Kept(children, max)
    {
      assert max / children[i].cnt == 1;
      KeptContains(children, max, i);
    }
    KeptAtMost(children, max);
  }

  /** The children of a cell below level 18 that hold points, by position, up to position `n`. */
  ghost function ChildWeights(added: seq<MapResult>, c: Cell, n: nat): (ws: seq<Weighted>)
    requires c.Level() < MAX_LEVEL && n <= 4
    ensures AllPositive(ws) && |ws| <= n
    decreases MAX_LEVEL - c.Level(), n
  {
    if n == 0 then []
    else
      var child := c.Child(n - 1);
      var below := Below(added, child);
      ChildWeights(added, c, n - 1) + (if below == [] then [] else [Weighted(|below|, PinOf(added, child))])
  }

  /** The pin of a cell, from the points alone. */
  ghost function PinOf(added: seq<MapResult>, c: Cell): Pin
    requires c.Level() <= MAX_LEVEL
    decreases MAX_LEVEL - c.Level(), 5
  {
    if c.Level() == MAX_LEVEL then Center(c)
    else
      var children := ChildWeights(added, c, 4);
      Placed(c, Kept(children, MaxWeight(children)))
  }

  lemma {:induction false} ChildCounted(added: seq<MapResult>, c: Cell, i: Digit, n: nat)
    requires c.Level() < MAX_LEVEL && i < n <= 4 && Below(added, c.Child(i)) != []
    ensures ChildWeights(added, c, n) != []
  {
    if i < n - 1 { ChildCounted(added, c, i, n - 1); }
  }

  /** Every cell with points is placed from one to four pins, its heaviest child's among them: no weight is
      zero and the final fallback of the centroid is unreachable. */
  lemma PlacedFromHeaviest(added: seq<MapResult>, c: Cell)
    requires c.Level() < MAX_LEVEL && Below(added, c) != []
    ensures var children := ChildWeights(added, c, 4);
            var max := MaxWeight(children);
            && AllPositive(children) && max > 0
            && 1 <= |Kept(children, max)| <= 4
            && forall i | 0 <= i < |children| && children[i].cnt == max :: children[i].pin in Kept(children, max)
  {
    var below := Below(added, c);
    WithinSound(added, c.Level(), {c});
    var r := below[0];
    assert r in below && r in added && Home(r, c.Level()) == c;
    var child := Home(r, c.Level() + 1);
    HomeNests(r, c.Level());
    ChildOfParent(child, c.Level());
    Occupied(added, child);
    ChildCounted(added, c, child.ChildPosition(c.Level() + 1), 4);
    var children := ChildWeights(added, c, 4);
    MaxWeightIsReached(children);
    HeaviestIsKept(children);
  }
}
