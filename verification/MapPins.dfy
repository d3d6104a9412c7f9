/** Where the pin of a cell lies, told from the points below its children alone. */
module MapPins {
  import opened MapCells

  ghost function Load(added: seq<MapResult>, c: Cell, i: Digit): nat
    requires c.Level() < MAX_LEVEL
  {
    |Below(added, c.Child(i))|
  }

  /** The child has points, and no child has eight times as many. */
  ghost predicate Heavy(added: seq<MapResult>, c: Cell, i: Digit)
    requires c.Level() < MAX_LEVEL
  {
    Load(added, c, i) > 0 && forall j: Digit :: Load(added, c, j) < 8 * Load(added, c, i)
  }

  ghost function ChildPin(added: seq<MapResult>, c: Cell, i: Digit): Pin
    requires c.Level() < MAX_LEVEL
  {
    PinOf(added, c.Child(i))
  }

  // ---------------------------------------------------------------- weights

  /** The children that have points, by position, from a load and a pin for each position. */
  function Counted(loads: seq<nat>, pins: seq<Pin>): (ws: seq<Weighted>)
    requires |loads| == |pins|
    ensures AllPositive(ws)
  {
    if loads == [] then []
    else
      var n := |loads| - 1;
      Counted(loads[..n], pins[..n]) + (if loads[n] > 0 then [Weighted(loads[n], pins[n])] else [])
  }

  predicate Heaviest(loads: seq<nat>, max: int) {
    && 0 <= max && (forall i | 0 <= i < |loads| :: loads[i] <= max)
    && (max == 0 || max in loads)
  }

  lemma CountedNext(loads: seq<nat>, pins: seq<Pin>, n: nat)
    requires |loads| == |pins| == n + 1
    ensures Counted(loads, pins) ==
            if loads[n] > 0 then Counted(loads[..n], pins[..n]) + [Weighted(loads[n], pins[n])]
            else Counted(loads[..n], pins[..n])
  {
  }

  lemma {:induction false} MaxIsHeaviest(loads: seq<nat>, pins: seq<Pin>)
    requires |loads| == |pins|
    ensures Heaviest(loads, MaxWeight(Counted(loads, pins)))
  {
    if loads != [] {
      var n := |loads| - 1;
      var before := Counted(loads[..n], pins[..n]);
      MaxIsHeaviest(loads[..n], pins[..n]);
      CountedNext(loads, pins, n);
      HeaviestNext(loads, n, MaxWeight(before));
      if loads[n] > 0 { MaxPush(before, Weighted(loads[n], pins[n])); }
    }
  }

  lemma HeaviestNext(loads: seq<nat>, n: nat, max: int)
    requires |loads| == n + 1 && Heaviest(loads[..n], max)
    ensures Heaviest(loads, if max < loads[n] then loads[n] else max)
  {
    assert loads == loads[..n] + [loads[n]];
  }

  lemma MaxPush(ws: seq<Weighted>, w: Weighted)
    ensures MaxWeight(ws + [w]) == if MaxWeight(ws) < w.cnt then w.cnt else MaxWeight(ws)
  {
    assert (ws + [w])[..|ws|] == ws;
  }

  predicate Outweighed(loads: seq<nat>, load: nat) { exists other :: other in loads && other >= 8 * load }

  /** A pin is kept exactly if no child has eight times as many points. */
  lemma KeptUnlessOutweighed(loads: seq<nat>, max: int, load: nat)
    requires Heaviest(loads, max) && load in loads && load > 0
    ensures max / load < WEIGHT_DIFF_THRESHOLD <==> !Outweighed(loads, load)
  {
    assert max / load < 8 <==> max < 8 * load;
  }

  function If(chosen: bool, pin: Pin): seq<Pin> { if chosen then [pin] else [] }

  predicate IsHeavy(all: seq<nat>, load: nat) { load > 0 && !Outweighed(all, load) }

  /** The pins of those children, by position. */
  function HeavyPins(all: seq<nat>, loads: seq<nat>, pins: seq<Pin>): seq<Pin>
    requires |loads| == |pins|
  {
    if loads == [] then []
    else
      var n := |loads| - 1;
      HeavyPins(all, loads[..n], pins[..n]) + If(IsHeavy(all, loads[n]), pins[n])
  }

  lemma {:induction false} KeptAreHeavy(all: seq<nat>, loads: seq<nat>, pins: seq<Pin>, max: int)
    requires |loads| == |pins| && Heaviest(all, max) && loads <= all
    ensures Kept(Counted(loads, pins), max) == HeavyPins(all, loads, pins)
  {
    if loads != [] {
      var n := |loads| - 1;
      KeptAreHeavy(all, loads[..n], pins[..n], max);
      CountedNext(loads, pins, n);
      if loads[n] > 0 { KeptNext(all, Counted(loads[..n], pins[..n]), loads[n], pins[n], max); }
    }
  }

  lemma KeptNext(loads: seq<nat>, before: seq<Weighted>, load: nat, pin: Pin, max: int)
    requires AllPositive(before) && Heaviest(loads, max) && load in loads && load > 0
    ensures AllPositive(before + [Weighted(load, pin)])
    ensures Kept(before + [Weighted(load, pin)], max) ==
            Kept(before, max) + (if Outweighed(loads, load) then [] else [pin])
  {
    KeptUnlessOutweighed(loads, max, load);
    KeptPush(before, Weighted(load, pin), max);
  }

  ghost function Loads(added: seq<MapResult>, c: Cell, n: nat): (loads: seq<nat>)
    requires c.Level() < MAX_LEVEL && n <= 4
    ensures |loads| == n && forall i: Digit | i < n :: loads[i] == Load(added, c, i)
  {
    seq(n, i requires 0 <= i < n => Load(added, c, i))
  }

  ghost function Pins(added: seq<MapResult>, c: Cell, n: nat): (pins: seq<Pin>)
    requires c.Level() < MAX_LEVEL && n <= 4
    ensures |pins| == n && forall i: Digit | i < n :: pins[i] == ChildPin(added, c, i)
  {
    seq(n, i requires 0 <= i < n => ChildPin(added, c, i))
  }

  lemma {:induction false} CountedChildren(added: seq<MapResult>, c: Cell, n: nat)
    requires c.Level() < MAX_LEVEL && n <= 4
    ensures ChildWeights(added, c, n) == Counted(Loads(added, c, n), Pins(added, c, n))
  {
    if n > 0 {
      CountedChildren(added, c, n - 1);
      assert Loads(added, c, n)[..n - 1] == Loads(added, c, n - 1);
      assert Pins(added, c, n)[..n - 1] == Pins(added, c, n - 1);
    }
  }

  // ---------------------------------------------------------------- the four cases

  lemma HeavyNext(all: seq<nat>, loads: seq<nat>, pins: seq<Pin>, load: nat, pin: Pin)
    requires |loads| == |pins|
    ensures HeavyPins(all, loads + [load], pins + [pin]) == HeavyPins(all, loads, pins) + If(IsHeavy(all, load), pin)
  {
    assert (loads + [load])[..|loads|] == loads && (pins + [pin])[..|loads|] == pins;
  }

  /** The pins of four children, chosen or not. */
  function Chosen(h: seq<bool>, p: seq<Pin>): seq<Pin>
    requires |h| == |p| == 4
  {
    If(h[0], p[0]) + If(h[1], p[1]) + If(h[2], p[2]) + If(h[3], p[3])
  }

  lemma FourPins(all: seq<nat>, a: nat, b: nat, c: nat, d: nat, p: Pin, q: Pin, r: Pin, s: Pin)
    ensures HeavyPins(all, [a, b, c, d], [p, q, r, s]) ==
            Chosen([IsHeavy(all, a), IsHeavy(all, b), IsHeavy(all, c), IsHeavy(all, d)], [p, q, r, s])
  {
    HeavyNext(all, [], [], a, p);
    HeavyNext(all, [a], [p], b, q);
    HeavyNext(all, [a, b], [p, q], c, r);
    HeavyNext(all, [a, b, c], [p, q, r], d, s);
    assert [a, b, c] + [d] == [a, b, c, d] && [p, q, r] + [s] == [p, q, r, s];
    assert [a, b] + [c] == [a, b, c] && [p, q] + [r] == [p, q, r];
    assert [a] + [b] == [a, b] && [p] + [q] == [p, q];
    assert [] + [a] == [a] && [] + [p] == [p];
    assert HeavyPins(all, [a], [p]) == If(IsHeavy(all, a), p);
  }

  lemma HeavyUnlessOutweighed(added: seq<MapResult>, c: Cell, i: Digit)
    requires c.Level() < MAX_LEVEL
    ensures Heavy(added, c, i) <==> IsHeavy(Loads(added, c, 4), Load(added, c, i))
  {
    var loads := Loads(added, c, 4);
    if j: Digit :| Load(added, c, j) >= 8 * Load(added, c, i) {
      assert loads[j] in loads;
    }
    if other :| other in loads && other >= 8 * Load(added, c, i) {
      var j: nat :| j < |loads| && loads[j] == other;
      var d: Digit := j;
      assert Load(added, c, d) == other;
    }
  }

  ghost function AreHeavy(added: seq<MapResult>, c: Cell): (h: seq<bool>)
    requires c.Level() < MAX_LEVEL
    ensures |h| == 4 && forall d: Digit :: h[d] == Heavy(added, c, d)
  {
    [Heavy(added, c, 0), Heavy(added, c, 1), Heavy(added, c, 2), Heavy(added, c, 3)]
  }

  lemma HeavyChildren(added: seq<MapResult>, c: Cell)
    requires c.Level() < MAX_LEVEL
    ensures HeavyPins(Loads(added, c, 4), Loads(added, c, 4), Pins(added, c, 4)) ==
            Chosen(AreHeavy(added, c), Pins(added, c, 4))
  {
    var loads, pins := Loads(added, c, 4), Pins(added, c, 4);
    assert loads == [loads[0], loads[1], loads[2], loads[3]] && pins == [pins[0], pins[1], pins[2], pins[3]];
    FourPins(loads, loads[0], loads[1], loads[2], loads[3], pins[0], pins[1], pins[2], pins[3]);
    HeavyUnlessOutweighed(added, c, 0);
    HeavyUnlessOutweighed(added, c, 1);
    HeavyUnlessOutweighed(added, c, 2);
    HeavyUnlessOutweighed(added, c, 3);
  }

  /** The pin follows from the pins of the heavy children. */
  lemma PinFromHeavy(added: seq<MapResult>, c: Cell)
    requires c.Level() < MAX_LEVEL
    ensures PinOf(added, c) == Placed(c, Chosen(AreHeavy(added, c), Pins(added, c, 4)))
  {
    var loads, pins := Loads(added, c, 4), Pins(added, c, 4);
    CountedChildren(added, c, 4);
    MaxIsHeaviest(loads, pins);
    KeptAreHeavy(loads, loads, pins, MaxWeight(Counted(loads, pins)));
    HeavyChildren(added, c);
  }

  lemma OneChosen(c: Cell, h: seq<bool>, p: seq<Pin>, i: Digit)
    requires |h| == |p| == 4 && forall d: nat | d < 4 :: h[d] <==> d == i
    ensures Placed(c, Chosen(h, p)) == p[i]
  {
    assert Chosen(h, p) == [p[i]];
  }

  lemma TwoChosen(c: Cell, h: seq<bool>, p: seq<Pin>, i: Digit, j: Digit)
    requires |h| == |p| == 4 && i < j && forall d: nat | d < 4 :: h[d] <==> d == i || d == j
    ensures Placed(c, Chosen(h, p)) == Centroid(p[i], p[i], p[j])
  {
    assert Chosen(h, p) == [p[i], p[j]];
  }

  lemma ThreeChosen(c: Cell, h: seq<bool>, p: seq<Pin>, i: Digit, j: Digit, k: Digit)
    requires |h| == |p| == 4 && i < j < k && forall d: nat | d < 4 :: h[d] <==> d == i || d == j || d == k
    ensures Placed(c, Chosen(h, p)) == Centroid(p[i], p[j], p[k])
  {
    assert Chosen(h, p) == [p[i], p[j], p[k]];
  }

  lemma HeavyAt(added: seq<MapResult>, c: Cell, n: nat)
    requires c.Level() < MAX_LEVEL && n < 4
    ensures AreHeavy(added, c)[n] == Heavy(added, c, n as Digit)
  {
  }

  /** With one heavy child the pin is that child's. */
  lemma OneHeavy(added: seq<MapResult>, c: Cell, i: Digit)
    requires c.Level() < MAX_LEVEL && forall d: Digit :: Heavy(added, c, d) <==> d == i
    ensures PinOf(added, c) == ChildPin(added, c, i)
  {
    PinFromHeavy(added, c);
    forall n: nat | n < 4
      ensures AreHeavy(added, c)[n] <==> n == i
    {
      HeavyAt(added, c, n);
    }
    OneChosen(c, AreHeavy(added, c), Pins(added, c, 4), i);
  }

  /** With two it is the centroid that counts the first one twice. */
  lemma TwoHeavy(added: seq<MapResult>, c: Cell, i: Digit, j: Digit)
    requires c.Level() < MAX_LEVEL && i < j && forall d: Digit :: Heavy(added, c, d) <==> d == i || d == j
    ensures PinOf(added, c) == Centroid(ChildPin(added, c, i), ChildPin(added, c, i), ChildPin(added, c, j))
  {
    PinFromHeavy(added, c);
    forall n: nat | n < 4
      ensures AreHeavy(added, c)[n] <==> n == i || n == j
    {
      HeavyAt(added, c, n);
    }
    TwoChosen(c, AreHeavy(added, c), Pins(added, c, 4), i, j);
  }

  /** With three it is their centroid. */
  lemma ThreeHeavy(added: seq<MapResult>, c: Cell, i: Digit, j: Digit, k: Digit)
    requires c.Level() < MAX_LEVEL && i < j < k
    requires forall d: Digit :: Heavy(added, c, d) <==> d == i || d == j || d == k
    ensures PinOf(added, c) == Centroid(ChildPin(added, c, i), ChildPin(added, c, j), ChildPin(added, c, k))
  {
    PinFromHeavy(added, c);
    forall n: nat | n < 4
      ensures AreHeavy(added, c)[n] <==> n == i || n == j || n == k
    {
      HeavyAt(added, c, n);
    }
    ThreeChosen(c, AreHeavy(added, c), Pins(added, c, 4), i, j, k);
  }

  /** With four it is the centre of the cell. */
  lemma AllHeavy(added: seq<MapResult>, c: Cell)
    requires c.Level() < MAX_LEVEL && forall d: Digit :: Heavy(added, c, d)
    ensures PinOf(added, c) == Center(c)
  {
    PinFromHeavy(added, c);
  }

  /** A cell with points has a heavy child. */
  lemma SomeHeavy(added: seq<MapResult>, c: Cell)
    requires c.Level() < MAX_LEVEL && Below(added, c) != []
    ensures exists i: Digit :: Heavy(added, c, i)
  {
    PlacedFromHeaviest(added, c);
    var loads := Loads(added, c, 4);
    var max := MaxWeight(ChildWeights(added, c, 4));
    CountedChildren(added, c, 4);
    MaxIsHeaviest(loads, Pins(added, c, 4));
    assert max in loads;
    var i: nat :| i < |loads| && loads[i] == max;
    var d: Digit := i;
    HeavyUnlessOutweighed(added, c, d);
  }

  // ---------------------------------------------------------------- points in one place

  lemma OnlyChild(added: seq<MapResult>, c: Cell, i: Digit)
    requires c.Level() < MAX_LEVEL && Load(added, c, i) > 0 && forall j: Digit | j != i :: Load(added, c, j) == 0
    ensures PinOf(added, c) == ChildPin(added, c, i)
  {
    forall d: Digit
      ensures Heavy(added, c, d) <==> d == i
    {
    }
    OneHeavy(added, c, i);
  }

  /** However coarse the level: if all points below a cell lie in one cell of level 18, the pin is the centre of
      that cell. */
  lemma {:induction false} OneCell(added: seq<MapResult>, c: Cell, home: Cell)
    requires c.Level() <= MAX_LEVEL && Below(added, c) != []
    requires forall r | r in added && Home(r, c.Level()) == c :: Home(r, MAX_LEVEL) == home
    ensures PinOf(added, c) == Center(home)
    decreases MAX_LEVEL - c.Level()
  {
    var below := Below(added, c);
    WithinSound(added, c.Level(), {c});
    var r := below[0];
    assert r in below;
    if c.Level() < MAX_LEVEL {
      var i := Step(added, c, home, r);
      OnlyChild(added, c, i);
      forall q | q in added && Home(q, c.Level() + 1) == c.Child(i)
        ensures Home(q, MAX_LEVEL) == home
      {
        HomeNests(q, c.Level());
        ParentOfChild(c, i);
      }
      OneCell(added, c.Child(i), home);
    }
  }

  lemma ParentOfChild(c: Cell, i: Digit)
    ensures c.Child(i).Level() == c.Level() + 1 && c.Child(i).Parent(c.Level()) == c
  {
  }

  /** All points of a cell that lie in one cell of level 18 lie in one child. */
  lemma Step(added: seq<MapResult>, c: Cell, home: Cell, r: MapResult) returns (i: Digit)
    requires c.Level() < MAX_LEVEL && r in added && Home(r, c.Level()) == c
    requires forall q | q in added && Home(q, c.Level()) == c :: Home(q, MAX_LEVEL) == home
    ensures Load(added, c, i) > 0 && forall j: Digit | j != i :: Load(added, c, j) == 0
  {
    var child := Home(r, c.Level() + 1);
    i := child.ChildPosition(c.Level() + 1);
    HomeNests(r, c.Level());
    ChildOfParent(child, c.Level());
    Occupied(added, c.Child(i));
    forall j: Digit | j != i
      ensures Load(added, c, j) == 0
    {
      Occupied(added, c.Child(j));
      if Load(added, c, j) > 0 {
        var q :| q in added && Home(q, c.Level() + 1) == c.Child(j);
        HomeNests(q, c.Level());
        ParentOfChild(c, j);
        SameHome(q, r, c.Level() + 1);
        ChildrenDiffer(c, i, j);
      }
    }
  }

  lemma ChildrenDiffer(c: Cell, i: Digit, j: Digit)
    ensures c.Child(i) == c.Child(j) ==> i == j
  {
    assert c.Child(i).path[c.Level()] == i && c.Child(j).path[c.Level()] == j;
  }

  lemma SameHome(q: MapResult, r: MapResult, level: nat)
    requires level <= MAX_LEVEL && Home(q, MAX_LEVEL) == Home(r, MAX_LEVEL)
    ensures Home(q, level) == Home(r, level)
  {
    assert q.leaf.path[..level] == Home(q, MAX_LEVEL).path[..level];
    assert r.leaf.path[..level] == Home(r, MAX_LEVEL).path[..level];
  }
}
