/** Materialised per-brand counters: absolute on the first run, incremental and bounded above afterwards.
    Counters and watermark are written by separate statements. */
module BrandCounts {
  import opened Wrappers
  import opened ReportCounts

  /** `last` is the process's watermark, `stored` the one in `counters_state`; 0 stands for none. */
  datatype World = World(rows: seq<Row>, counts: map<string, Totals>, last: int, stored: int)

  datatype Calls = Calls(connect: bool, maxSeq: bool, load: bool, exec: bool, persist: bool)

  predicate CountsForBrand(r: Row) { r.brand.Some? && Selected(r, r.brand) }

  /** The brands of the groups of a scan. */
  function Brands(rows: seq<Row>, lo: int, hi: Option<int>): set<string> {
    set r | r in rows && CountsForBrand(r) && lo < r.id && (hi.Some? ==> r.id <= hi.value) :: r.brand.value
  }

  function Get(counts: map<string, Totals>, b: string): Totals { if b in counts then counts[b] else ZERO }

  /** INSERT ... ON DUPLICATE KEY UPDATE total = VALUES(total) */
  function Recomputed(counts: map<string, Totals>, rows: seq<Row>): map<string, Totals> {
    counts + map b | b in Brands(rows, -1, None) :: Scan(rows, Some(b), -1, None)
  }

  /** INSERT ... ON DUPLICATE KEY UPDATE total = total + VALUES(total) */
  function Incremented(counts: map<string, Totals>, rows: seq<Row>, lo: int, hi: int): map<string, Totals> {
    counts + map b | b in Brands(rows, lo, Some(hi)) :: Plus(Get(counts, b), Scan(rows, Some(b), lo, Some(hi)))
  }

  function Watermarked(w: World, counts: map<string, Totals>, last: int, calls: Calls): World {
    w.(counts := counts, last := last, stored := if calls.persist then last else w.stored)
  }

  /** One run of the updater; `late` are the rows committed after MAX(seq) was read. */
  function Updated(w: World, calls: Calls, late: seq<Row>): World {
    var maxSeq := MaxSeq(w.rows);
    var u := w.(rows := w.rows + late);
    if !calls.connect || !calls.maxSeq || maxSeq <= 0 then u
    else
      var v := if u.last == 0 && calls.load && u.stored > 0 then u.(last := u.stored) else u;
      if v.last <= 0 then
        if calls.exec then Watermarked(v, Recomputed(v.counts, v.rows), maxSeq, calls) else v
      else if maxSeq <= v.last || !calls.exec then v
      else Watermarked(v, Incremented(v.counts, v.rows, v.last, maxSeq), maxSeq, calls)
  }

  // ---------------------------------------------------------------- the invariant

  ghost predicate CountedUpTo(w: World, last: int) {
    forall b :: Get(w.counts, b) == Tally(w.rows, Some(b), -1, last)
  }

  /** Counters exist only for brands with a row that counts. */
  ghost predicate BrandsKnown(w: World) {
    forall b | b in w.counts :: exists r :: r in w.rows && r.brand == Some(b) && CountsForBrand(r)
  }

  /** With a watermark, in memory or stored, every brand's counters are a recount up to it. */
  ghost predicate Consistent(w: World) {
    && Numbered(w.rows) && w.last >= 0 && w.stored >= 0
    && BrandsKnown(w)
    && (w.last > 0 ==> CountedUpTo(w, w.last))
    && (w.last == 0 && w.stored > 0 ==> CountedUpTo(w, w.stored))
  }

  /** The watermark that the counters belong to; 0 stands for none. */
  function Mark(w: World): int { if w.last > 0 then w.last else w.stored }

  /** The rows add nothing to any brand's reports up to the watermark. */
  ghost predicate PrefixStays(w: World, more: seq<Row>) {
    Numbered(more) && forall b: string :: AddsNothing(w.rows, more, Some(b), -1, Mark(w))
  }

  predicate ScanIsClean(rows: seq<Row>, late: seq<Row>) {
    forall r | r in late && CountsForBrand(r) :: r.id <= MaxSeq(rows)
  }

  lemma AppendKeeps(w: World, more: seq<Row>)
    requires Consistent(w) && Numbered(more)
    ensures Consistent(w.(rows := w.rows + more)) <==> PrefixStays(w, more)
  {
    var mark := Mark(w);
    forall b
      ensures Tally(w.rows + more, Some(b), -1, mark) == Tally(w.rows, Some(b), -1, mark) <==>
              AddsNothing(w.rows, more, Some(b), -1, mark)
    {
      TallyAppend(w.rows, more, Some(b), -1, mark);
    }
    NumberedAppend(w.rows, more);
    if mark > 0 {
      assert CountedUpTo(w, mark);
    }
  }

  lemma NumberedAppend(rows: seq<Row>, more: seq<Row>)
    requires Numbered(rows) && Numbered(more)
    ensures Numbered(rows + more)
  {
  }

  /** The absolute counts are right, also for brands that an earlier process left behind. */
  lemma RecomputedCounts(w: World, max: int)
    requires BrandsKnown(w)
    requires Numbered(w.rows) && forall r | r in w.rows && CountsForBrand(r) :: r.id <= max
    ensures CountedUpTo(w.(counts := Recomputed(w.counts, w.rows)), max)
  {
    forall b
      ensures Get(Recomputed(w.counts, w.rows), b) == Tally(w.rows, Some(b), -1, max)
    {
      if b in Brands(w.rows, -1, None) {
        ScanIsTally(w.rows, Some(b), -1, max, None);
      } else {
        TallyEmpty(w.rows, Some(b), -1, max);
      }
    }
  }

  lemma IncrementedBrand(counts: map<string, Totals>, rows: seq<Row>, lo: int, hi: int, b: string)
    requires -1 <= lo <= hi
    ensures Get(Incremented(counts, rows, lo, hi), b) == Plus(Get(counts, b), Tally(rows, Some(b), lo, hi))
  {
    if b in Brands(rows, lo, Some(hi)) {
      ScanIsTally(rows, Some(b), lo, hi, Some(hi));
    } else {
      TallyEmpty(rows, Some(b), lo, hi);
    }
  }

  lemma PlusCancels(a: Totals, b: Totals, c: Totals)
    ensures Plus(a, c) == Plus(b, c) <==> a == b
  {
  }

  /** The additive upsert moves a recount up to one watermark to the next, and nothing else. */
  lemma IncrementedCounts(w: World, lo: int, hi: int)
    requires -1 <= lo <= hi
    ensures CountedUpTo(w.(counts := Incremented(w.counts, w.rows, lo, hi)), hi) <==> CountedUpTo(w, lo)
  {
    var after := Incremented(w.counts, w.rows, lo, hi);
    forall b
      ensures Get(after, b) == Tally(w.rows, Some(b), -1, hi) <==> Get(w.counts, b) == Tally(w.rows, Some(b), -1, lo)
    {
      IncrementedBrand(w.counts, w.rows, lo, hi, b);
      TallySplit(w.rows, Some(b), -1, lo, hi);
      PlusCancels(Get(w.counts, b), Tally(w.rows, Some(b), -1, lo), Tally(w.rows, Some(b), lo, hi));
    }
  }

  /** The update scans without an upper bound: there is no watermark, in memory or loaded. */
  predicate ScansAll(w: World, calls: Calls) {
    && calls.connect && calls.maxSeq && MaxSeq(w.rows) > 0 && calls.exec
    && w.last == 0 && (w.stored == 0 || !calls.load)
  }

  /** Counters that cover everything are a recount up to `max` exactly if nothing that counts is above it. */
  lemma NothingAboveExactlyWhen(w: World, max: int, top: int)
    requires -1 <= max <= top && CountedUpTo(w, top) && forall r | r in w.rows :: r.id <= top
    ensures CountedUpTo(w, max) <==> forall r | r in w.rows && CountsForBrand(r) :: r.id <= max
  {
    forall b
      ensures Get(w.counts, b) == Tally(w.rows, Some(b), -1, max) <==>
              forall r | r in w.rows && Selected(r, Some(b)) :: r.id <= max
    {
      SameTallyExactlyWhen(w.rows, b, max, top);
    }
    if r :| r in w.rows && CountsForBrand(r) && r.id > max {
      assert Selected(r, Some(r.brand.value));
    }
  }

  /** After the unbounded scan the counters are a recount up to the new watermark exactly if it saw no row that
      counts above the MAX(seq) read before. */
  lemma FirstScanExactlyWhenClean(w: World, calls: Calls, late: seq<Row>)
    requires Consistent(w) && Numbered(late) && ScansAll(w, calls)
    ensures CountedUpTo(Updated(w, calls, late), MaxSeq(w.rows)) <==> ScanIsClean(w.rows, late)
  {
    var u := w.(rows := w.rows + late);
    NumberedAppend(w.rows, late);
    MaxSeqGrows(w.rows, late);
    RecomputedCounts(u, MaxSeq(u.rows));
    NothingAboveExactlyWhen(Updated(w, calls, late), MaxSeq(w.rows), MaxSeq(u.rows));
  }

  /** An unbounded scan is clean; otherwise the late rows leave the reports up to the watermark alone: the
      incremental scan is bounded by the MAX(seq) it read. */
  ghost predicate IsHarmlessUpdate(w: World, calls: Calls, late: seq<Row>) {
    if ScansAll(w, calls) then ScanIsClean(w.rows, late) else PrefixStays(w, late)
  }

  /** An update keeps the counters consistent, whichever calls fail, exactly if it is harmless. */
  lemma UpdateKeeps(w: World, calls: Calls, late: seq<Row>)
    requires Consistent(w) && Numbered(late)
    ensures Consistent(Updated(w, calls, late)) <==> IsHarmlessUpdate(w, calls, late)
  {
    if ScansAll(w, calls) {
      NumberedAppend(w.rows, late);
      FirstScanExactlyWhenClean(w, calls, late);
    } else {
      AppendKeeps(w, late);
      BoundedUpdateKeeps(w, calls, late);
    }
  }

  /** The world after the stored watermark has been looked up. */
  function LookedUp(w: World, calls: Calls): World {
    if w.last == 0 && calls.load && w.stored > 0 then w.(last := w.stored) else w
  }

  lemma LookUpKeeps(w: World, calls: Calls)
    requires Numbered(w.rows) && w.last >= 0 && w.stored >= 0
    ensures Consistent(LookedUp(w, calls)) <==> Consistent(w)
  {
    assert CountedUpTo(w.(last := w.stored), w.stored) <==> CountedUpTo(w, w.stored);
  }

  lemma IncrementKeeps(w: World, max: int, calls: Calls)
    requires Numbered(w.rows) && BrandsKnown(w) && 0 < w.last < max && w.stored >= 0
    ensures Consistent(Watermarked(w, Incremented(w.counts, w.rows, w.last, max), max, calls)) <==> Consistent(w)
  {
    var after := w.(counts := Incremented(w.counts, w.rows, w.last, max));
    IncrementedCounts(w, w.last, max);
    var u := Watermarked(w, after.counts, max, calls);
    assert CountedUpTo(u, max) <==> CountedUpTo(after, max);
    forall b | b in u.counts
      ensures exists r :: r in u.rows && r.brand == Some(b) && CountsForBrand(r)
    {
      if b !in w.counts { assert b in Brands(w.rows, w.last, Some(max)); }
    }
  }

  lemma BoundedUpdateKeeps(w: World, calls: Calls, late: seq<Row>)
    requires Consistent(w) && Numbered(late) && !ScansAll(w, calls)
    ensures Consistent(Updated(w, calls, late)) <==> Consistent(w.(rows := w.rows + late))
  {
    NumberedAppend(w.rows, late);
    var u, max := w.(rows := w.rows + late), MaxSeq(w.rows);
    assert forall r | r in w.rows :: r in u.rows;
    LookUpKeeps(u, calls);
    var v := LookedUp(u, calls);
    if 0 < v.last < max { IncrementKeeps(v, max, calls); }
  }

  lemma SameTallyExactlyWhen(rows: seq<Row>, b: string, lo: int, hi: int)
    requires -1 <= lo <= hi
    ensures Tally(rows, Some(b), -1, lo) == Tally(rows, Some(b), -1, hi) <==>
              forall r | r in rows && Selected(r, Some(b)) :: !(lo < r.id <= hi)
  {
    TallySplit(rows, Some(b), -1, lo, hi);
    if r :| r in rows && Selected(r, Some(b)) && lo < r.id <= hi {
      assert r.id in Seqs(rows, Some(b), None, lo, hi);
    } else {
      TallyEmpty(rows, Some(b), lo, hi);
    }
  }

  /** A restart while the stored watermark lags is safe exactly when no brand has a row in between. */
  lemma RestartSafeExactlyWhen(w: World)
    requires Consistent(w) && 0 < w.stored <= w.last
    ensures Consistent(w.(last := 0)) <==> forall r | r in w.rows && CountsForBrand(r) :: !(w.stored < r.id <= w.last)
  {
    forall b
      ensures Get(w.counts, b) == Tally(w.rows, Some(b), -1, w.stored) <==>
                forall r | r in w.rows && Selected(r, Some(b)) :: !(w.stored < r.id <= w.last)
    {
      SameTallyExactlyWhen(w.rows, b, w.stored, w.last);
    }
    if r :| r in w.rows && CountsForBrand(r) && w.stored < r.id <= w.last {
      assert Selected(r, Some(r.brand.value));
      assert Get(w.counts, r.brand.value) != Tally(w.rows, Some(r.brand.value), -1, w.stored);
    }
  }

  // ---------------------------------------------------------------- runs

  datatype Event = Append(rows: seq<Row>) | Update(calls: Calls, late: seq<Row>) | Restart

  function After(w: World, e: Event): World {
    match e
    case Append(rows) => w.(rows := w.rows + rows)
    case Update(calls, late) => Updated(w, calls, late)
    case Restart => w.(last := 0)
  }

  /** All rows have seqs. */
  predicate HasSeqs(e: Event) { (e.Append? ==> Numbered(e.rows)) && (e.Update? ==> Numbered(e.late)) }

  predicate IsRun(events: seq<Event>) { events == [] || (HasSeqs(events[0]) && IsRun(events[1..])) }

  ghost function AfterAll(w: World, events: seq<Event>): World
    decreases |events|
  {
    if events == [] then w else AfterAll(After(w, events[0]), events[1..])
  }

  ghost predicate IsHarmless(w: World, e: Event) {
    match e
    case Append(rows) => PrefixStays(w, rows)
    case Update(calls, late) => IsHarmlessUpdate(w, calls, late)
    case Restart =>
      0 < w.stored < w.last ==> forall r | r in w.rows && CountsForBrand(r) :: !(w.stored < r.id <= w.last)
  }

  ghost predicate AllHarmless(w: World, events: seq<Event>)
    decreases |events|
  {
    events != [] ==> IsHarmless(w, events[0]) && AllHarmless(After(w, events[0]), events[1..])
  }

  ghost predicate StaysConsistent(w: World, events: seq<Event>)
    decreases |events|
  {
    Consistent(w) && (events != [] ==> StaysConsistent(After(w, events[0]), events[1..]))
  }

  /** The stored watermark is not ahead of the process's, and neither is ahead of the rows. */
  predicate Ordered(w: World) {
    0 <= w.stored <= MaxSeq(w.rows) && 0 <= w.last <= MaxSeq(w.rows) && (w.last > 0 ==> w.stored <= w.last)
  }

  lemma {:induction false} MaxSeqGrows(rows: seq<Row>, more: seq<Row>)
    ensures MaxSeq(rows) <= MaxSeq(rows + more)
  {
    if more == [] {
      assert rows + more == rows;
    } else {
      assert (rows + more)[..|rows + more| - 1] == rows + more[..|more| - 1];
      MaxSeqGrows(rows, more[..|more| - 1]);
    }
  }

  lemma OrderedUpdate(w: World, calls: Calls, late: seq<Row>)
    requires Ordered(w)
    ensures Ordered(Updated(w, calls, late))
  {
    MaxSeqGrows(w.rows, late);
  }

  lemma OrderedKeeps(w: World, e: Event)
    requires Ordered(w)
    ensures Ordered(After(w, e))
  {
    match e {
      case Append(rows) => MaxSeqGrows(w.rows, rows);
      case Update(calls, late) => OrderedUpdate(w, calls, late);
      case Restart =>
    }
  }

  lemma RestartKeeps(w: World)
    requires Consistent(w) && Ordered(w)
    ensures Consistent(w.(last := 0)) <==> IsHarmless(w, Restart)
  {
    if 0 < w.stored <= w.last { RestartSafeExactlyWhen(w); }
  }

  /** Over every run of appends, updates with any failures, and restarts or crashes at any point (a crash between
      the two statements is an update whose persist fails, followed by a restart): each brand's counters are a
      recount up to the watermark all the time exactly if every event is harmless. */
  lemma {:induction false} BrandCountsAreRecounts(w: World, events: seq<Event>)
    requires Consistent(w) && Ordered(w) && IsRun(events)
    ensures StaysConsistent(w, events) <==> AllHarmless(w, events)
    ensures AllHarmless(w, events) ==> Consistent(AfterAll(w, events))
    decreases |events|
  {
    if events != [] {
      var next := After(w, events[0]);
      OrderedKeeps(w, events[0]);
      match events[0] {
        case Append(rows) => AppendKeeps(w, rows);
        case Update(calls, late) => UpdateKeeps(w, calls, late);
        case Restart => RestartKeeps(w);
      }
      if Consistent(next) { BrandCountsAreRecounts(next, events[1..]); }
    }
  }

  /** In particular from the first start on, with any rows. */
  lemma BrandCountsAreRecountsFromStart(rows: seq<Row>, events: seq<Event>)
    requires Numbered(rows) && IsRun(events)
    ensures StaysConsistent(World(rows, map[], 0, 0), events) <==> AllHarmless(World(rows, map[], 0, 0), events)
    ensures AllHarmless(World(rows, map[], 0, 0), events) ==> Consistent(AfterAll(World(rows, map[], 0, 0), events))
  {
    BrandCountsAreRecounts(World(rows, map[], 0, 0), events);
  }

  // ---------------------------------------------------------------- progress

  /** Whatever fails: the watermark reaches the newest seq exactly if the queries and the upsert succeed, or it
      was, or was found stored, there already. */
  lemma ReachesNewestExactlyWhen(w: World, calls: Calls, late: seq<Row>)
    requires Ordered(w) && MaxSeq(w.rows) > 0
    ensures Updated(w, calls, late).last == MaxSeq(w.rows) <==>
              || w.last == MaxSeq(w.rows)
              || (calls.connect && calls.maxSeq && (calls.exec || LookedUp(w, calls).last == MaxSeq(w.rows)))
  {
  }

  /** From a watermark, in memory or loaded, an update adds to each brand exactly its reports above the watermark up
      to the newest seq, and stores that seq. */
  lemma AddsWhatIsNew(w: World, calls: Calls, late: seq<Row>)
    requires calls.connect && calls.maxSeq && calls.exec && 0 < LookedUp(w, calls).last < MaxSeq(w.rows)
    ensures var u, mark := Updated(w, calls, late), LookedUp(w, calls).last;
            && u.last == MaxSeq(w.rows) && u.stored == (if calls.persist then u.last else w.stored)
            && forall b :: Get(u.counts, b) ==
                           Plus(Get(w.counts, b), Tally(w.rows + late, Some(b), mark, MaxSeq(w.rows)))
  {
    var mark := LookedUp(w, calls).last;
    forall b
      ensures Get(Incremented(w.counts, w.rows + late, mark, MaxSeq(w.rows)), b) ==
              Plus(Get(w.counts, b), Tally(w.rows + late, Some(b), mark, MaxSeq(w.rows)))
    {
      IncrementedBrand(w.counts, w.rows + late, mark, MaxSeq(w.rows), b);
    }
  }

  /** An unfailing update counts every report up to the newest. */
  lemma UpdateCatchesUp(w: World)
    requires Consistent(w) && Ordered(w) && MaxSeq(w.rows) > 0
    ensures var u := Updated(w, ALL_WELL, []);
            u.rows == w.rows && u.last == MaxSeq(w.rows) && CountedUpTo(u, MaxSeq(w.rows))
    ensures w.last < MaxSeq(w.rows) ==> Updated(w, ALL_WELL, []).stored == MaxSeq(w.rows)
  {
    assert w.rows + [] == w.rows;
    NothingLate(w);
    UpdateKeeps(w, ALL_WELL, []);
    ReachesNewestExactlyWhen(w, ALL_WELL, []);
  }

  lemma NothingLate(w: World)
    ensures IsHarmlessUpdate(w, ALL_WELL, [])
  {
  }

  lemma {:induction false} OrderedRun(w: World, events: seq<Event>)
    requires Ordered(w)
    ensures Ordered(AfterAll(w, events))
    decreases |events|
  {
    if events != [] {
      OrderedKeeps(w, events[0]);
      OrderedRun(After(w, events[0]), events[1..]);
    }
  }

  /** So it does after every harmless run from the first start, also right after another start. */
  lemma CatchesUpAfterRun(rows: seq<Row>, events: seq<Event>)
    requires Numbered(rows) && IsRun(events) && AllHarmless(World(rows, map[], 0, 0), events)
    requires MaxSeq(AfterAll(World(rows, map[], 0, 0), events).rows) > 0
    ensures var s := AfterAll(World(rows, map[], 0, 0), events);
            var u := Updated(s, ALL_WELL, []);
            u.last == MaxSeq(s.rows) && CountedUpTo(u, u.last)
    ensures var s := AfterAll(World(rows, map[], 0, 0), events);
            var u := Updated(After(s, Restart), ALL_WELL, []);
            IsHarmless(s, Restart) ==> u.last == MaxSeq(s.rows) && CountedUpTo(u, u.last)
  {
    var s := AfterAll(World(rows, map[], 0, 0), events);
    BrandCountsAreRecountsFromStart(rows, events);
    OrderedRun(World(rows, map[], 0, 0), events);
    UpdateCatchesUp(s);
    if IsHarmless(s, Restart) {
      RestartKeeps(s);
      UpdateCatchesUp(After(s, Restart));
    }
  }

  const ALL_WELL := Calls(true, true, true, true, true)
  const NOT_STORED := Calls(true, true, true, true, false)

  /** A harmful restart from the first start: after a count of one row has been stored, another row of the brand is
      counted, but the watermark cannot be stored, and the process is started again. */
  lemma LaggingRestartHappens(first: Row, second: Row, es: seq<Event>)
    requires IsLaggingRun(first, second, es)
    ensures !AllHarmless(World([first], map[], 0, 0), es) && !StaysConsistent(World([first], map[], 0, 0), es)
  {
    LaggingRunHarms(first, second, es);
    LaggingRunHasSeqs(first, second, es);
    BrandCountsAreRecountsFromStart([first], es);
  }

  predicate IsLaggingRun(first: Row, second: Row, es: seq<Event>) {
    && CountsForBrand(first) && CountsForBrand(second) && 1 <= first.id < second.id
    && |es| == 4 && es[0] == Update(ALL_WELL, []) && es[1] == Append([second])
    && es[2] == Update(NOT_STORED, []) && es[3] == Restart
  }

  lemma LaggingRunHasSeqs(first: Row, second: Row, es: seq<Event>)
    requires IsLaggingRun(first, second, es)
    ensures IsRun(es)
  {
    assert IsRun(es[4..]) && IsRun(es[3..]) && IsRun(es[2..]) && IsRun(es[1..]);
  }

  lemma LaggingRunHarms(first: Row, second: Row, es: seq<Event>)
    requires IsLaggingRun(first, second, es)
    ensures !AllHarmless(World([first], map[], 0, 0), es)
  {
    var w0 := World([first], map[], 0, 0);
    FirstUpdate(w0, first);
    var w1 := After(w0, es[0]);
    var w2 := After(w1, es[1]);
    SecondUpdate(w2, first, second);
    HarmfulRestart(Updated(w2, NOT_STORED, []), second);
    FourthHarms(w0, es);
  }

  lemma FirstUpdate(w: World, first: Row)
    requires w == World([first], map[], 0, 0) && first.id >= 1
    ensures var u := Updated(w, ALL_WELL, []); u.rows == [first] && u.last == first.id && u.stored == first.id
  {
    assert [first] + [] == [first] && MaxSeq([first]) == first.id;
  }

  lemma SecondUpdate(w: World, first: Row, second: Row)
    requires w.rows == [first] + [second] && w.last == first.id && w.stored == first.id && 1 <= first.id < second.id
    ensures var u := Updated(w, NOT_STORED, []);
            u.rows == [first] + [second] && u.last == second.id && u.stored == first.id
  {
    var both := [first] + [second];
    assert both[..1] == [first] && MaxSeq(both) == second.id && both + [] == both;
  }

  lemma HarmfulRestart(w: World, r: Row)
    requires r in w.rows && CountsForBrand(r) && 0 < w.stored < r.id <= w.last
    ensures !IsHarmless(w, Restart)
  {
  }

  lemma FourthHarms(w: World, es: seq<Event>)
    requires |es| == 4 && !IsHarmless(After(After(After(w, es[0]), es[1]), es[2]), es[3])
    ensures !AllHarmless(w, es)
  {
    assert es[1..][1..] == es[2..];
    HarmsLater(After(After(w, es[0]), es[1]), es[2..]);
    HarmsLater(After(w, es[0]), es[1..]);
    HarmsLater(w, es);
  }

  lemma HarmsLater(w: World, es: seq<Event>)
    requires |es| > 1
    requires !IsHarmless(After(w, es[0]), es[1]) || !AllHarmless(After(w, es[0]), es[1..])
    ensures !AllHarmless(w, es)
  {
  }

  // ---------------------------------------------------------------- the process

  class Updater {
    var rows: seq<Row>
    var counts: map<string, Totals>
    var state: int
    var brandCountsLastSeq: int

    constructor (rows: seq<Row>)
      ensures View() == World(rows, map[], 0, 0)
    {
      this.rows, counts, state, brandCountsLastSeq := rows, map[], 0, 0;
    }

    function View(): World
      reads this
    {
      World(rows, counts, brandCountsLastSeq, state)
    }

    method UpdateBrandReportCounts(calls: Calls, late: seq<Row>)
      modifies this
      ensures View() == Updated(old(View()), calls, late)
    {
      if !calls.connect || !calls.maxSeq {
        rows := rows + late;
        return;
      }
      var maxSeq := MaxSeq(rows);
      rows := rows + late;
      if maxSeq <= 0 { return; }
      if brandCountsLastSeq == 0 {
        if calls.load && state > 0 { brandCountsLastSeq := state; }
      }
      if brandCountsLastSeq <= 0 {
        if !calls.exec { return; }
        FullRecomputeBrandReportCounts();
        brandCountsLastSeq := maxSeq;
        if calls.persist { state := brandCountsLastSeq; }
        return;
      }
      if maxSeq <= brandCountsLastSeq { return; }
      if !calls.exec { return; }
      IncrementalUpdateBrandReportCounts(brandCountsLastSeq, maxSeq);
      brandCountsLastSeq := maxSeq;
      if calls.persist { state := brandCountsLastSeq; }
    }

    method FullRecomputeBrandReportCounts()
      modifies this`counts
      ensures counts == Recomputed(old(counts), rows)
    {
      counts := Recomputed(counts, rows);
    }

    method IncrementalUpdateBrandReportCounts(lastSeq: int, maxSeq: int)
      modifies this`counts
      ensures counts == Incremented(old(counts), rows, lastSeq, maxSeq)
    {
      counts := Incremented(counts, rows, lastSeq, maxSeq);
    }
  }
}
