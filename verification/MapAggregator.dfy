/** The hierarchical map aggregator: level by level, in place, over Go maps whose iteration order is
    arbitrary. */
module MapAggregator {
  import opened MapCells

  /** `containment[i]` says that the child cell at position i holds points. */
  datatype Unit = Unit(cnt: int, containment: seq<bool>, pin: Pin, origRes: seq<MapResult>)

  function Weights(units: seq<Unit>): seq<Weighted> {
    if units == [] then []
    else Weights(units[..|units| - 1]) + [Weighted(units[|units| - 1].cnt, units[|units| - 1].pin)]
  }

  /** What a unit's count and raw points must be: all points below its cell while they are few, else none. */
  ghost predicate Counts(u: Unit, below: seq<MapResult>) {
    && u.cnt == |below|
    && multiset(u.origRes) == (if u.cnt <= MIN_REP_TO_AGGR then multiset(below) else multiset{})
  }

  ghost predicate CountsAt(added: seq<MapResult>, level: nat, aggrs: map<Cell, Unit>)
    requires level <= MAX_LEVEL
  {
    && aggrs.Keys == CellsAt(added, level)
    && (forall c | c in aggrs :: c.Level() == level && Counts(aggrs[c], Below(added, c)))
  }

  ghost predicate PinsAt(added: seq<MapResult>, level: nat, aggrs: map<Cell, Unit>)
    requires level <= MAX_LEVEL
  {
    forall c | c in aggrs && c.Level() == level :: aggrs[c].pin == PinOf(added, c)
  }

  /** The units of a level, exactly as direct grouping gives them. */
  ghost predicate UnitsAt(added: seq<MapResult>, level: nat, aggrs: map<Cell, Unit>)
    requires level <= MAX_LEVEL
  {
    CountsAt(added, level, aggrs) && PinsAt(added, level, aggrs)
  }

  /** The points of every level 18 cell, in the order they were added. */
  ghost predicate Grouped(added: seq<MapResult>, points: map<Cell, seq<MapResult>>)
  {
    && points.Keys == CellsAt(added, MAX_LEVEL)
    && forall c | c in points :: c.Level() == MAX_LEVEL && points[c] == Below(added, c)
  }

  lemma GroupedAdd(added: seq<MapResult>, points: map<Cell, seq<MapResult>>, r: MapResult)
    requires Grouped(added, points)
    ensures var home := Home(r, MAX_LEVEL);
            Grouped(added + [r], points[home := (if home in points then points[home] else []) + [r]])
  {
    var home := Home(r, MAX_LEVEL);
    var after := points[home := (if home in points then points[home] else []) + [r]];
    Occupied(added, home);
    assert CellsAt(added + [r], MAX_LEVEL) == CellsAt(added, MAX_LEVEL) + {home};
    forall c | c in after
      ensures c.Level() == MAX_LEVEL && after[c] == Below(added + [r], c)
    {
      BelowAppend(added, r, c);
    }
  }

  ghost predicate MarksChildren(u: Unit, p: Cell, cells: set<Cell>) {
    |u.containment| == 4 && forall i: Digit :: u.containment[i] <==> p.Child(i) in cells
  }

  /** A unit of the next level built from those children of `p` that are in `seen`; its pin is set later. */
  ghost predicate Partial(added: seq<MapResult>, p: Cell, seen: set<Cell>, u: Unit)
    requires p.Level() < MAX_LEVEL
  {
    && Counts(u, Within(added, p.Level() + 1, ChildrenIn(seen, p)))
    && MarksChildren(u, p, seen)
  }

  ghost predicate Merged(added: seq<MapResult>, lv: nat, seen: set<Cell>, next: map<Cell, Unit>)
    requires lv < MAX_LEVEL
    requires forall c | c in seen :: c.Level() == lv + 1
  {
    && next.Keys == (set c | c in seen :: c.Parent(lv))
    && forall p | p in next :: p.Level() == lv && Partial(added, p, seen, next[p])
  }

  /** `CellBaseLevel`: the finest level whose cells cover the viewport fewer than 16 times over; the areas
      are parameters. */
  method CellBaseLevel(vpArea: real, cellArea: nat -> real) returns (level: nat)
    requires forall lv :: cellArea(lv) > 0.0
    ensures MIN_LEVEL <= level <= MAX_LEVEL
    ensures forall lv | level < lv <= MAX_LEVEL :: vpArea / cellArea(lv) >= 16.0
    ensures level == MIN_LEVEL || vpArea / cellArea(level) < 16.0
  {
    var lv := MAX_LEVEL;
    while lv >= MIN_LEVEL
      invariant MIN_LEVEL - 1 <= lv <= MAX_LEVEL
      invariant forall finer | lv < finer <= MAX_LEVEL :: vpArea / cellArea(finer) >= 16.0
    {
      if vpArea / cellArea(lv) < 16.0 { return lv; }
      lv := lv - 1;
    }
    return MIN_LEVEL;
  }

  /** What one more child adds to the children of `p`. */
  lemma JoinsChildren(p: Cell, seen: set<Cell>, c: Cell)
    requires p.Level() < MAX_LEVEL && c.Level() == p.Level() + 1
    ensures if c.Parent(p.Level()) == p then ChildrenIn(seen + {c}, p) == ChildrenIn(seen, p) + {c}
            else ChildrenIn(seen + {c}, p) == ChildrenIn(seen, p)
  {
  }

  lemma JoinsMarks(p: Cell, seen: set<Cell>, c: Cell)
    requires p.Level() < MAX_LEVEL && c.Level() == p.Level() + 1
    ensures forall i: Digit :: p.Child(i) in seen + {c} <==>
              p.Child(i) in seen || (c.Parent(p.Level()) == p && c.ChildPosition(p.Level() + 1) == i)
  {
    if c.Parent(p.Level()) == p {
      ChildOfParent(c, p.Level());
    } else {
      forall i: Digit
        ensures p.Child(i) != c
      {
        assert p.Child(i).path[..p.Level()] == p.path;
      }
    }
  }

  /** One child's unit joins the unit of its parent. */
  lemma Joins(added: seq<MapResult>, p: Cell, seen: set<Cell>, c: Cell)
    requires p.Level() < MAX_LEVEL && c.Level() == p.Level() + 1 && c !in seen
    ensures var level := p.Level() + 1;
            var before := Within(added, level, ChildrenIn(seen, p));
            var after := Within(added, level, ChildrenIn(seen + {c}, p));
            if c.Parent(p.Level()) == p then
              multiset(after) == multiset(before) + multiset(Below(added, c))
              && |after| == |before| + |Below(added, c)|
            else after == before
    ensures forall i: Digit :: p.Child(i) in seen + {c} <==>
              p.Child(i) in seen || (c.Parent(p.Level()) == p && c.ChildPosition(p.Level() + 1) == i)
  {
    JoinsChildren(p, seen, c);
    JoinsMarks(p, seen, c);
    if c.Parent(p.Level()) == p {
      WithinAdd(added, p.Level() + 1, ChildrenIn(seen, p), c);
    }
  }

  lemma FirstChild(added: seq<MapResult>, p: Cell, seen: set<Cell>, c: Cell, unit: Unit, pin: Pin)
    requires p.Level() < MAX_LEVEL && c.Level() == p.Level() + 1 && c !in seen
    requires c.Parent(p.Level()) == p && ChildrenIn(seen, p) == {} && Counts(unit, Below(added, c))
    ensures Partial(added, p, seen + {c},
                    Unit(unit.cnt, [false, false, false, false][c.ChildPosition(c.Level()) := true], pin, unit.origRes))
  {
    assert ChildrenIn(seen + {c}, p) == {c};
    forall i: Digit
      ensures p.Child(i) in seen + {c} <==> c.ChildPosition(c.Level()) == i
    {
      assert p.Child(i).path[..p.Level()] == p.path;
      assert p.Child(i) in seen ==> p.Child(i) in ChildrenIn(seen, p);
      Joins(added, p, seen, c);
    }
  }

  lemma NextChild(added: seq<MapResult>, p: Cell, seen: set<Cell>, c: Cell, eu: Unit, unit: Unit)
    requires p.Level() < MAX_LEVEL && c.Level() == p.Level() + 1 && c !in seen
    requires c.Parent(p.Level()) == p && Partial(added, p, seen, eu) && Counts(unit, Below(added, c))
    ensures Partial(added, p, seen + {c},
                    Unit(eu.cnt + unit.cnt, eu.containment[c.ChildPosition(c.Level()) := true], eu.pin,
                         if eu.cnt + unit.cnt <= MIN_REP_TO_AGGR then eu.origRes + unit.origRes else []))
  {
    Joins(added, p, seen, c);
  }

  /** The parent's unit after one more child. */
  function Joined(next: map<Cell, Unit>, p: Cell, i: Digit, unit: Unit): Unit
    requires p in next ==> |next[p].containment| == 4
  {
    if p !in next then Unit(unit.cnt, [false, false, false, false][i := true], unit.pin, unit.origRes)
    else
      var eu := next[p];
      Unit(eu.cnt + unit.cnt, eu.containment[i := true], eu.pin,
           if eu.cnt + unit.cnt <= MIN_REP_TO_AGGR then eu.origRes + unit.origRes else [])
  }

  /** A parent that the child does not belong to stays as it is. */
  lemma OtherParent(added: seq<MapResult>, q: Cell, seen: set<Cell>, u: Unit, c: Cell)
    requires q.Level() < MAX_LEVEL && c.Level() == q.Level() + 1 && c !in seen && c.Parent(q.Level()) != q
    requires Partial(added, q, seen, u)
    ensures Partial(added, q, seen + {c}, u)
  {
    Joins(added, q, seen, c);
  }

  lemma OwnParent(added: seq<MapResult>, lv: nat, seen: set<Cell>, next: map<Cell, Unit>, c: Cell, unit: Unit)
    requires lv < MAX_LEVEL && c.Level() == lv + 1 && c !in seen
    requires forall d | d in seen :: d.Level() == lv + 1
    requires Merged(added, lv, seen, next) && Counts(unit, Below(added, c))
    ensures var p := c.Parent(lv);
            && (p in next ==> |next[p].containment| == 4)
            && Partial(added, p, seen + {c}, Joined(next, p, c.ChildPosition(lv + 1), unit))
  {
    var p := c.Parent(lv);
    if p in next {
      assert Partial(added, p, seen, next[p]);
      NextChild(added, p, seen, c, next[p], unit);
    } else {
      assert forall d | d in seen :: d.Parent(lv) in next;
      FirstChild(added, p, seen, c, unit, unit.pin);
    }
  }

  lemma MergedStep(added: seq<MapResult>, lv: nat, seen: set<Cell>, next: map<Cell, Unit>, c: Cell, unit: Unit)
    requires lv < MAX_LEVEL && c.Level() == lv + 1 && c !in seen
    requires forall d | d in seen :: d.Level() == lv + 1
    requires Merged(added, lv, seen, next) && Counts(unit, Below(added, c))
    ensures var p := c.Parent(lv);
            && (p in next ==> |next[p].containment| == 4)
            && Merged(added, lv, seen + {c}, next[p := Joined(next, p, c.ChildPosition(lv + 1), unit)])
  {
    var p := c.Parent(lv);
    OwnParent(added, lv, seen, next, c, unit);
    var after := next[p := Joined(next, p, c.ChildPosition(lv + 1), unit)];
    forall q | q in after
      ensures q.Level() == lv && Partial(added, q, seen + {c}, after[q])
    {
      if q != p { OtherParent(added, q, seen, next[q], c); }
    }
    assert after.Keys == (set d | d in seen + {c} :: d.Parent(lv));
  }

  /** The parents of a level's cells are the next level's cells. */
  lemma ParentsOf(added: seq<MapResult>, lv: nat)
    requires lv < MAX_LEVEL
    requires forall c | c in CellsAt(added, lv + 1) :: c.Level() == lv + 1
    ensures (set c | c in CellsAt(added, lv + 1) :: c.Parent(lv)) == CellsAt(added, lv)
  {
    var parents := set c | c in CellsAt(added, lv + 1) :: c.Parent(lv);
    forall r | r in added
      ensures Home(r, lv) in parents
    {
      HomeNests(r, lv);
      assert Home(r, lv + 1) in CellsAt(added, lv + 1);
    }
    forall c | c in CellsAt(added, lv + 1)
      ensures c.Parent(lv) in CellsAt(added, lv)
    {
      var r :| r in added && Home(r, lv + 1) == c;
      HomeNests(r, lv);
    }
  }

  lemma MergedCounts(added: seq<MapResult>, lv: nat, merged: map<Cell, Unit>, p: Cell)
    requires lv < MAX_LEVEL && p in merged
    requires forall c | c in CellsAt(added, lv + 1) :: c.Level() == lv + 1
    requires Merged(added, lv, CellsAt(added, lv + 1), merged)
    ensures p.Level() == lv && Counts(merged[p], Below(added, p)) && MarksChildren(merged[p], p, CellsAt(added, lv + 1))
  {
    assert Partial(added, p, CellsAt(added, lv + 1), merged[p]);
    Regroup(added, p);
  }

  /** Every parent's unit marks the children that have units. */
  lemma MergedMarks(added: seq<MapResult>, lv: nat, cells: set<Cell>, merged: map<Cell, Unit>)
    requires lv < MAX_LEVEL && (forall c | c in cells :: c.Level() == lv + 1) && Merged(added, lv, cells, merged)
    ensures forall p | p in merged :: p.Level() == lv && MarksChildren(merged[p], p, cells)
  {
    forall p | p in merged
      ensures p.Level() == lv && MarksChildren(merged[p], p, cells)
    {
      assert Partial(added, p, cells, merged[p]);
    }
  }

  /** Once all children have joined and the pins are set, the parents' units are those of direct grouping. */
  lemma MergedUnits(added: seq<MapResult>, lv: nat, merged: map<Cell, Unit>, next: map<Cell, Unit>)
    requires lv < MAX_LEVEL
    requires forall c | c in CellsAt(added, lv + 1) :: c.Level() == lv + 1
    requires Merged(added, lv, CellsAt(added, lv + 1), merged)
    requires next.Keys == merged.Keys && forall p | p in merged :: next[p] == merged[p].(pin := PinOf(added, p))
    ensures UnitsAt(added, lv, next)
  {
    forall p | p in next
      ensures p.Level() == lv && Counts(next[p], Below(added, p)) && next[p].pin == PinOf(added, p)
    {
      assert next[p] == merged[p].(pin := PinOf(added, p));
      MergedCounts(added, lv, merged, p);
    }
    ParentsOf(added, lv);
  }

  // ---------------------------------------------------------------- output

  /** An entry of the result: a point as it was added, or the marker of a large cell. */
  datatype Output = Raw(point: MapResult) | Cluster(pin: Pin, cnt: int)

  function Raws(points: seq<MapResult>): seq<Output> {
    if points == [] then [] else Raws(points[..|points| - 1]) + [Raw(points[|points| - 1])]
  }

  function CountOf(o: Output): int { match o case Raw(p) => p.count case Cluster(_, n) => n }

  predicate AllOnes(points: seq<MapResult>) { forall p | p in points :: p.count == 1 }

  function CountSum(r: seq<Output>): int {
    if r == [] then 0 else CountSum(r[..|r| - 1]) + CountOf(r[|r| - 1])
  }

  method UnitOutput(unit: Unit) returns (out: seq<Output>)
    ensures out == if unit.cnt <= MIN_REP_TO_AGGR then Raws(unit.origRes) else [Cluster(unit.pin, unit.cnt)]
  {
    if unit.cnt > MIN_REP_TO_AGGR { return [Cluster(unit.pin, unit.cnt)]; }
    out := [];
    for i := 0 to |unit.origRes|
      invariant out == Raws(unit.origRes[..i])
    {
      out := out + [Raw(unit.origRes[i])];
      assert unit.origRes[..i + 1][..i] == unit.origRes[..i];
    }
    assert unit.origRes[..|unit.origRes|] == unit.origRes;
  }

  ghost predicate Large(added: seq<MapResult>, c: Cell)
    requires c.Level() <= MAX_LEVEL
  {
    |Below(added, c)| > MIN_REP_TO_AGGR
  }

  ghost function Marked(added: seq<MapResult>, cells: set<Cell>, pin: Pin, n: int): set<Cell>
    requires forall c | c in cells :: c.Level() <= MAX_LEVEL
  {
    set c | c in cells && Large(added, c) && PinOf(added, c) == pin && |Below(added, c)| == n
  }

  /** How often an entry stands in the result for some cells of a level. */
  ghost function Multiplicity(added: seq<MapResult>, level: nat, cells: set<Cell>, o: Output): nat
    requires level <= MAX_LEVEL
    requires forall c | c in cells :: c.Level() == level
  {
    match o
    case Raw(p) =>
      var home := Home(p, level);
      if home in cells && !Large(added, home) then multiset(added)[p] else 0
    case Cluster(pin, n) => |Marked(added, cells, pin, n)|
  }

  /** `r` is, as a multiset, the result for some cells of a level. */
  ghost predicate Lists(added: seq<MapResult>, level: nat, cells: set<Cell>, r: seq<Output>)
    requires level <= MAX_LEVEL
    requires forall c | c in cells :: c.Level() == level
  {
    forall o :: multiset(r)[o] == Multiplicity(added, level, cells, o)
  }

  /** The loop of `ToArray` after the cells in `seen`. */
  ghost predicate Written(added: seq<MapResult>, level: nat, seen: set<Cell>, r: seq<Output>)
    requires level <= MAX_LEVEL
  {
    && (forall c | c in seen :: c.Level() == level)
    && Lists(added, level, seen, r)
    && (AllOnes(added) ==> CountSum(r) == |Within(added, level, seen)|)
  }

  lemma {:induction false} WithinNone(added: seq<MapResult>, level: nat)
    requires level <= MAX_LEVEL
    ensures Within(added, level, {}) == []
  {
    if added != [] { WithinNone(added[..|added| - 1], level); }
  }

  lemma NoneSeen(added: seq<MapResult>, level: nat)
    requires level <= MAX_LEVEL
    ensures Written(added, level, {}, [])
  {
    WithinNone(added, level);
    forall o
      ensures Multiplicity(added, level, {}, o) == 0
    {
      if o.Cluster? { assert Marked(added, {}, o.pin, o.cnt) == {}; }
    }
  }

  lemma {:induction false} RawsCount(points: seq<MapResult>, o: Output)
    ensures multiset(Raws(points))[o] == if o.Raw? then multiset(points)[o.point] else 0
  {
    if points != [] {
      var n := |points| - 1;
      RawsCount(points[..n], o);
      assert points == points[..n] + [points[n]];
    }
  }

  lemma {:induction false} BelowCount(added: seq<MapResult>, c: Cell, p: MapResult)
    requires c.Level() <= MAX_LEVEL
    ensures multiset(Below(added, c))[p] == if Home(p, c.Level()) == c then multiset(added)[p] else 0
  {
    if added != [] {
      var n := |added| - 1;
      BelowCount(added[..n], c, p);
      assert added == added[..n] + [added[n]];
    }
  }

  lemma {:induction false} CountSumAppend(r: seq<Output>, s: seq<Output>)
    ensures CountSum(r + s) == CountSum(r) + CountSum(s)
  {
    if s == [] {
      assert r + s == r;
    } else {
      assert (r + s)[..|r + s| - 1] == r + s[..|s| - 1];
      CountSumAppend(r, s[..|s| - 1]);
    }
  }

  lemma {:induction false} RawsSum(points: seq<MapResult>)
    requires forall p | p in points :: p.count == 1
    ensures CountSum(Raws(points)) == |points|
  {
    if points != [] { RawsSum(points[..|points| - 1]); }
  }

  /** The output of one more cell adds exactly that cell's share. */
  lemma OneMore(added: seq<MapResult>, level: nat, seen: set<Cell>, c: Cell, unit: Unit, out: seq<Output>,
                r: seq<Output>)
    requires level <= MAX_LEVEL && c.Level() == level && c !in seen && Written(added, level, seen, r)
    requires Counts(unit, Below(added, c)) && unit.pin == PinOf(added, c)
    requires out == if unit.cnt <= MIN_REP_TO_AGGR then Raws(unit.origRes) else [Cluster(unit.pin, unit.cnt)]
    ensures Written(added, level, seen + {c}, r + out)
  {
    WithinAdd(added, level, seen, c);
    forall o
      ensures multiset(r + out)[o] == Multiplicity(added, level, seen + {c}, o)
    {
      MultiplicityAdd(added, level, seen, c, unit, out, o);
    }
    CountSumAppend(r, out);
    if AllOnes(added) { OutputSum(added, level, c, unit, out); }
  }

  lemma OutputSum(added: seq<MapResult>, level: nat, c: Cell, unit: Unit, out: seq<Output>)
    requires level <= MAX_LEVEL && c.Level() == level && AllOnes(added) && Counts(unit, Below(added, c))
    requires out == if unit.cnt <= MIN_REP_TO_AGGR then Raws(unit.origRes) else [Cluster(unit.pin, unit.cnt)]
    ensures CountSum(out) == |Below(added, c)|
  {
    if unit.cnt <= MIN_REP_TO_AGGR {
      WithinSound(added, level, {c});
      forall p | p in unit.origRes
        ensures p.count == 1
      {
        assert p in multiset(Below(added, c));
      }
      RawsSum(unit.origRes);
      assert |unit.origRes| == |multiset(unit.origRes)| == |multiset(Below(added, c))|;
    } else {
      assert out[..0] == [] && CountSum(out[..0]) == 0;
    }
  }

  lemma OutputCount(unit: Unit, out: seq<Output>, o: Output)
    requires out == if unit.cnt <= MIN_REP_TO_AGGR then Raws(unit.origRes) else [Cluster(unit.pin, unit.cnt)]
    ensures multiset(out)[o] ==
              match o
              case Raw(p) => (if unit.cnt <= MIN_REP_TO_AGGR then multiset(unit.origRes)[p] else 0)
              case Cluster(pin, n) => if n == unit.cnt && n > MIN_REP_TO_AGGR && pin == unit.pin then 1 else 0
  {
    RawsCount(unit.origRes, o);
  }

  lemma MarkedAdd(added: seq<MapResult>, seen: set<Cell>, c: Cell, pin: Pin, n: int)
    requires c !in seen && forall d | d in seen + {c} :: d.Level() <= MAX_LEVEL
    ensures |Marked(added, seen + {c}, pin, n)| == |Marked(added, seen, pin, n)|
              + (if Large(added, c) && PinOf(added, c) == pin && |Below(added, c)| == n then 1 else 0)
  {
    if Large(added, c) && PinOf(added, c) == pin && |Below(added, c)| == n {
      assert Marked(added, seen + {c}, pin, n) == Marked(added, seen, pin, n) + {c};
    } else {
      assert Marked(added, seen + {c}, pin, n) == Marked(added, seen, pin, n);
    }
  }

  lemma MultiplicityAdd(added: seq<MapResult>, level: nat, seen: set<Cell>, c: Cell, unit: Unit, out: seq<Output>,
                        o: Output)
    requires level <= MAX_LEVEL && c.Level() == level && c !in seen
    requires forall d | d in seen :: d.Level() == level
    requires Counts(unit, Below(added, c)) && unit.pin == PinOf(added, c)
    requires out == if unit.cnt <= MIN_REP_TO_AGGR then Raws(unit.origRes) else [Cluster(unit.pin, unit.cnt)]
    ensures Multiplicity(added, level, seen + {c}, o) == Multiplicity(added, level, seen, o) + multiset(out)[o]
  {
    OutputCount(unit, out, o);
    match o
    case Raw(p) => BelowCount(added, c, p);
    case Cluster(pin, n) => MarkedAdd(added, seen, c, pin, n);
  }

  // ---------------------------------------------------------------- independence of the order of points

  lemma SameBelow(added: seq<MapResult>, other: seq<MapResult>, c: Cell)
    requires multiset(added) == multiset(other) && c.Level() <= MAX_LEVEL
    ensures |Below(added, c)| == |Below(other, c)|
  {
    forall p
      ensures multiset(Below(added, c))[p] == multiset(Below(other, c))[p]
    {
      BelowCount(added, c, p);
      BelowCount(other, c, p);
    }
    assert multiset(Below(added, c)) == multiset(Below(other, c));
    assert |Below(added, c)| == |multiset(Below(added, c))|;
  }

  lemma {:induction false} SamePin(added: seq<MapResult>, other: seq<MapResult>, c: Cell)
    requires multiset(added) == multiset(other) && c.Level() <= MAX_LEVEL
    ensures PinOf(added, c) == PinOf(other, c)
    decreases MAX_LEVEL - c.Level(), 5
  {
    if c.Level() < MAX_LEVEL { SameWeights(added, other, c, 4); }
  }

  lemma {:induction false} SameWeights(added: seq<MapResult>, other: seq<MapResult>, c: Cell, n: nat)
    requires multiset(added) == multiset(other) && c.Level() < MAX_LEVEL && n <= 4
    ensures ChildWeights(added, c, n) == ChildWeights(other, c, n)
    decreases MAX_LEVEL - c.Level(), n
  {
    if n > 0 {
      SameWeights(added, other, c, n - 1);
      SameBelow(added, other, c.Child(n - 1));
      SamePin(added, other, c.Child(n - 1));
    }
  }

  /** The result depends on the points as a multiset only: neither the order of the points nor that of the
      maps matters. */
  lemma ResultIgnoresOrder(added: seq<MapResult>, other: seq<MapResult>, level: nat, o: Output)
    requires multiset(added) == multiset(other) && level <= MAX_LEVEL
    ensures CellsAt(added, level) == CellsAt(other, level)
    ensures Multiplicity(added, level, CellsAt(added, level), o) == Multiplicity(other, level, CellsAt(other, level), o)
  {
    SameCells(added, other, level);
    var cells := CellsAt(added, level);
    match o
    case Raw(p) => SameBelow(added, other, Home(p, level));
    case Cluster(pin, n) =>
      forall c | c in cells
        ensures |Below(added, c)| == |Below(other, c)| && PinOf(added, c) == PinOf(other, c)
      {
        SameBelow(added, other, c);
        SamePin(added, other, c);
      }
      assert Marked(added, cells, pin, n) == Marked(other, cells, pin, n);
  }

  lemma SameCells(added: seq<MapResult>, other: seq<MapResult>, level: nat)
    requires multiset(added) == multiset(other) && level <= MAX_LEVEL
    ensures CellsAt(added, level) == CellsAt(other, level)
  {
    assert forall r :: r in added <==> r in multiset(added);
    assert forall r :: r in other <==> r in multiset(other);
  }

  /** No point is lost or repeated: a point appears as often as it was added if its cell is small, and is
      counted in its cell's cluster otherwise. */
  lemma PointsAppearOnce(added: seq<MapResult>, level: nat, p: MapResult)
    requires level <= MAX_LEVEL && p in added
    ensures var c := Home(p, level);
            if Large(added, c)
            then Multiplicity(added, level, CellsAt(added, level), Raw(p)) == 0
              && Multiplicity(added, level, CellsAt(added, level), Cluster(PinOf(added, c), |Below(added, c)|)) >= 1
            else Multiplicity(added, level, CellsAt(added, level), Raw(p)) == multiset(added)[p]
  {
    var c := Home(p, level);
    assert c in CellsAt(added, level);
    if Large(added, c) {
      assert c in Marked(added, CellsAt(added, level), PinOf(added, c), |Below(added, c)|);
    }
  }

  /** Nothing else is listed: only points that were added, and only clusters of occupied cells with more than ten. */
  lemma NothingElseIsListed(added: seq<MapResult>, level: nat, o: Output)
    requires level <= MAX_LEVEL && Multiplicity(added, level, CellsAt(added, level), o) > 0
    ensures o.Raw? ==> o.point in added && |Below(added, Home(o.point, level))| <= 10
    ensures o.Cluster? ==>
              exists c :: c in CellsAt(added, level) && o.pin == PinOf(added, c) && o.cnt == |Below(added, c)| > 10
  {
    if o.Cluster? {
      var c :| c in Marked(added, CellsAt(added, level), o.pin, o.cnt);
    }
  }

  method Listed(ghost added: seq<MapResult>, ghost level: nat, aggrs: map<Cell, Unit>) returns (r: seq<Output>)
    requires level <= MAX_LEVEL && UnitsAt(added, level, aggrs)
    ensures Lists(added, level, aggrs.Keys, r)
    ensures AllOnes(added) ==> CountSum(r) == |added|
  {
    r := [];
    var rest := aggrs.Keys;
    ghost var seen := {};
    NoneSeen(added, level);
    while rest != {}
      invariant rest <= aggrs.Keys && seen == aggrs.Keys - rest
      invariant Written(added, level, seen, r)
    {
      var cell :| cell in rest;
      var out := UnitOutput(aggrs[cell]);
      OneMore(added, level, seen, cell, aggrs[cell], out, r);
      r := r + out;
      rest := rest - {cell};
      seen := seen + {cell};
    }
    assert seen == aggrs.Keys;
    WithinAll(added, level, seen);
  }

  lemma BaseUnits(added: seq<MapResult>, points: map<Cell, seq<MapResult>>, aggrs: map<Cell, Unit>)
    requires Grouped(added, points) && aggrs.Keys == points.Keys
    requires forall c | c in aggrs :: Counts(aggrs[c], points[c]) && aggrs[c].pin == Center(c)
    ensures UnitsAt(added, MAX_LEVEL, aggrs)
  {
  }

  class Aggregator {
    const level: nat
    var points: map<Cell, seq<MapResult>>
    var aggrs: map<Cell, Unit>
    ghost var added: seq<MapResult>

    ghost predicate Valid()
      reads this
    {
      && MIN_LEVEL <= level <= MAX_LEVEL
      && Grouped(added, points)
    }

    constructor (level: nat)
      requires MIN_LEVEL <= level <= MAX_LEVEL
      ensures Valid() && added == [] && aggrs == map[] && this.level == level
    {
      this.level := level;
      points, aggrs, added := map[], map[], [];
    }

    method AddPoint(r: MapResult)
      requires Valid()
      modifies this
      ensures Valid() && added == old(added) + [r] && aggrs == old(aggrs)
    {
      GroupedAdd(added, points, r);
      var home := Home(r, MAX_LEVEL);
      if home !in points {
        points := points[home := []];
      }
      points := points[home := points[home] + [r]];
      added := added + [r];
    }

    /** Builds the base level from the points, then goes up to `level`. */
    method Aggregate()
      requires Valid() && aggrs == map[]
      modifies this`aggrs
      ensures UnitsAt(added, level, aggrs)
    {
      var rest := points.Keys;
      while rest != {}
        invariant rest <= points.Keys && aggrs.Keys == points.Keys - rest
        invariant forall c | c in aggrs :: Counts(aggrs[c], points[c]) && aggrs[c].pin == Center(c)
      {
        var cell :| cell in rest;
        var pts := points[cell];
        var unit := Unit(|pts|, [true, true, true, true], Center(cell), []);
        if |pts| <= MIN_REP_TO_AGGR {
          unit := unit.(origRes := pts);
        }
        assert Counts(unit, pts);
        aggrs := aggrs[cell := unit];
        rest := rest - {cell};
      }
      BaseUnits(added, points, aggrs);
      AggrStep(MAX_LEVEL - 1);
    }

    method AggrStep(lv: nat)
      requires MIN_LEVEL <= level && lv < MAX_LEVEL && level <= lv + 1 && UnitsAt(added, lv + 1, aggrs)
      modifies this`aggrs
      ensures UnitsAt(added, level, aggrs)
      decreases lv
    {
      if lv < level { return; }
      aggrs := ParentUnits(lv);
      AggrStep(lv - 1);
    }

    method ParentUnits(lv: nat) returns (next: map<Cell, Unit>)
      requires lv < MAX_LEVEL && UnitsAt(added, lv + 1, aggrs)
      ensures UnitsAt(added, lv, next)
    {
      var merged := NextUnits(lv);
      MergedMarks(added, lv, aggrs.Keys, merged);
      next := WithPins(lv, merged);
      MergedUnits(added, lv, merged, next);
    }

    /** Sums the units of level `lv + 1` into their parents, in any order. */
    method NextUnits(lv: nat) returns (next: map<Cell, Unit>)
      requires lv < MAX_LEVEL && CountsAt(added, lv + 1, aggrs)
      ensures Merged(added, lv, aggrs.Keys, next)
    {
      next := map[];
      var rest := aggrs.Keys;
      ghost var seen := {};
      while rest != {}
        invariant rest <= aggrs.Keys && seen == aggrs.Keys - rest
        invariant Merged(added, lv, seen, next)
      {
        var cell :| cell in rest;
        MergedStep(added, lv, seen, next, cell, aggrs[cell]);
        next := Join(next, cell.Parent(lv), cell.ChildPosition(lv + 1), aggrs[cell]);
        rest := rest - {cell};
        seen := seen + {cell};
      }
      assert seen == aggrs.Keys;
    }

    static method Join(before: map<Cell, Unit>, p: Cell, position: Digit, unit: Unit) returns (next: map<Cell, Unit>)
      requires p in before ==> |before[p].containment| == 4
      ensures next == before[p := Joined(before, p, position, unit)]
    {
      next := before;
      if p !in next {
        next := next[p := Unit(unit.cnt, [false, false, false, false], unit.pin, unit.origRes)];
      } else {
        var eu := next[p];
        next := next[p := Unit(eu.cnt + unit.cnt, eu.containment, eu.pin, [])];
        if eu.cnt + unit.cnt <= MIN_REP_TO_AGGR {
          next := next[p := next[p].(origRes := eu.origRes + unit.origRes)];
        }
      }
      next := next[p := next[p].(containment := next[p].containment[position := true])];
    }

    /** Every parent's pin is placed from its children's units, found through the containment bits. */
    method WithPins(lv: nat, partial: map<Cell, Unit>) returns (next: map<Cell, Unit>)
      requires lv < MAX_LEVEL && UnitsAt(added, lv + 1, aggrs)
      requires forall p | p in partial :: p.Level() == lv && MarksChildren(partial[p], p, aggrs.Keys)
      ensures next.Keys == partial.Keys
      ensures forall p | p in partial :: next[p] == partial[p].(pin := PinOf(added, p))
    {
      next := partial;
      var rest := partial.Keys;
      while rest != {}
        invariant rest <= partial.Keys && next.Keys == partial.Keys
        invariant forall p | p in partial :: next[p] == if p in rest then partial[p] else Pinned(partial[p], p)
      {
        var pCell :| pCell in rest;
        var pin := NextPin(pCell, next[pCell]);
        next := next[pCell := next[pCell].(pin := pin)];
        rest := rest - {pCell};
      }
    }

    ghost function Pinned(unit: Unit, p: Cell): Unit
      requires p.Level() <= MAX_LEVEL
      reads this`added
    {
      unit.(pin := PinOf(added, p))
    }

    /** The units of a cell's children: every containment bit finds its child. */
    method Children(pCell: Cell, pUnit: Unit) returns (chAggrs: seq<Unit>)
      requires pCell.Level() < MAX_LEVEL && UnitsAt(added, pCell.Level() + 1, aggrs)
      requires MarksChildren(pUnit, pCell, aggrs.Keys)
      ensures Weights(chAggrs) == ChildWeights(added, pCell, 4)
    {
      chAggrs := [];
      for i: int := 0 to 4
        invariant Weights(chAggrs) == ChildWeights(added, pCell, i)
      {
        chAggrs := AddChild(pCell, pUnit, i, chAggrs);
      }
    }

    method AddChild(pCell: Cell, pUnit: Unit, i: Digit, chAggrs: seq<Unit>) returns (r: seq<Unit>)
      requires pCell.Level() < MAX_LEVEL && UnitsAt(added, pCell.Level() + 1, aggrs)
      requires MarksChildren(pUnit, pCell, aggrs.Keys) && Weights(chAggrs) == ChildWeights(added, pCell, i)
      ensures Weights(r) == ChildWeights(added, pCell, i + 1)
    {
      r := chAggrs;
      var chCell := pCell.Child(i);
      NextWeight(added, aggrs, pCell, i);
      if pUnit.containment[i] {
        if chCell in aggrs {
          WeightsPush(chAggrs, aggrs[chCell]);
          r := r + [aggrs[chCell]];
        }
      }
    }

    /** One entry per point of a small cell, one cluster per large one, in any order. */
    method ToArray() returns (r: seq<Output>)
      requires Valid() && aggrs == map[]
      modifies this`aggrs
      ensures UnitsAt(added, level, aggrs)
      ensures Lists(added, level, CellsAt(added, level), r)
      ensures AllOnes(added) ==> CountSum(r) == |added|
    {
      Aggregate();
      r := Listed(added, level, aggrs);
    }

    method NextPin(pCell: Cell, pUnit: Unit) returns (pin: Pin)
      requires pCell.Level() < MAX_LEVEL && UnitsAt(added, pCell.Level() + 1, aggrs)
      requires MarksChildren(pUnit, pCell, aggrs.Keys)
      ensures pin == PinOf(added, pCell)
    {
      var chAggrs := Children(pCell, pUnit);
      pin := ComputeCentroid(pCell, chAggrs);
    }
  }

  method ComputeCentroid(pCell: Cell, chAggrs: seq<Unit>) returns (pin: Pin)
    requires AllPositive(Weights(chAggrs))
    ensures pin == Placed(pCell, Kept(Weights(chAggrs), MaxWeight(Weights(chAggrs))))
  {
    var maxWeight := 0;
    for i := 0 to |chAggrs|
      invariant maxWeight == MaxWeight(Weights(chAggrs[..i]))
    {
      WeightsStep(chAggrs, i);
      if maxWeight < chAggrs[i].cnt { maxWeight := chAggrs[i].cnt; }
    }
    assert chAggrs[..|chAggrs|] == chAggrs;
    var fChPins := KeptPins(chAggrs, maxWeight);
    match |fChPins| {
      case 1 => return fChPins[0];
      case 2 => return Centroid(fChPins[0], fChPins[0], fChPins[1]);
      case 3 => return Centroid(fChPins[0], fChPins[1], fChPins[2]);
      case 4 => return Center(pCell);
      case _ => return Center(pCell);
    }
  }

  method KeptPins(chAggrs: seq<Unit>, maxWeight: int) returns (fChPins: seq<Pin>)
    requires AllPositive(Weights(chAggrs))
    ensures fChPins == Kept(Weights(chAggrs), maxWeight)
  {
    fChPins := [];
    assert chAggrs[..|chAggrs|] == chAggrs;
    for i := 0 to |chAggrs|
      invariant AllPositive(Weights(chAggrs[..i]))
      invariant fChPins == Kept(Weights(chAggrs[..i]), maxWeight)
    {
      WeightsStep(chAggrs, i);
      PositiveAt(chAggrs, i);
      KeptPush(Weights(chAggrs[..i]), Weighted(chAggrs[i].cnt, chAggrs[i].pin), maxWeight);
      if maxWeight / chAggrs[i].cnt < WEIGHT_DIFF_THRESHOLD { fChPins := fChPins + [chAggrs[i].pin]; }
    }
  }

  lemma PositiveAt(units: seq<Unit>, i: nat)
    requires AllPositive(Weights(units)) && i < |units|
    ensures units[i].cnt > 0
  {
    WeightsAt(units);
    assert Weights(units)[i].cnt > 0;
  }

  lemma WeightsPush(units: seq<Unit>, unit: Unit)
    ensures Weights(units + [unit]) == Weights(units) + [Weighted(unit.cnt, unit.pin)]
  {
    assert (units + [unit])[..|units|] == units;
  }

  /** A child weighs in exactly if it has a unit. */
  lemma NextWeight(added: seq<MapResult>, aggrs: map<Cell, Unit>, p: Cell, i: Digit)
    requires p.Level() < MAX_LEVEL && UnitsAt(added, p.Level() + 1, aggrs)
    ensures var c := p.Child(i);
            ChildWeights(added, p, i + 1) ==
            ChildWeights(added, p, i) + (if c in aggrs then [Weighted(aggrs[c].cnt, aggrs[c].pin)] else [])
  {
    var c := p.Child(i);
    Occupied(added, c);
    assert c in aggrs <==> Below(added, c) != [];
    if c in aggrs { assert aggrs[c].cnt == |Below(added, c)| && aggrs[c].pin == PinOf(added, c); }
  }

  lemma WeightsStep(units: seq<Unit>, i: nat)
    requires i < |units|
    ensures Weights(units[..i + 1]) == Weights(units[..i]) + [Weighted(units[i].cnt, units[i].pin)]
    ensures Weights(units[..i + 1])[..|Weights(units[..i + 1])| - 1] == Weights(units[..i])
  {
    assert units[..i + 1][..i] == units[..i];
  }

  lemma {:induction false} WeightsAt(units: seq<Unit>)
    ensures |Weights(units)| == |units|
    ensures forall i | 0 <= i < |units| :: Weights(units)[i] == Weighted(units[i].cnt, units[i].pin)
  {
    if units != [] { WeightsAt(units[..|units| - 1]); }
  }
}
