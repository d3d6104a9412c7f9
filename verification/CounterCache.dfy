/** The cached report counters: a watermark, an incremental scan above it, and a stored row that survives
    restarts. */
module CounterCache {
  import opened Wrappers
  import opened ReportCounts

  /** The row of `report_counts_total`. */
  datatype Stored = Stored(totals: Totals, last: int)

  datatype Cache = Cache(totals: Totals, last: int, initialized: bool)

  const EMPTY := Cache(ZERO, 0, false)

  /** The tables and the process's cache. */
  datatype World = World(rows: seq<Row>, stored: Option<Stored>, cache: Cache)

  /** Which of an update's database calls succeed. */
  datatype Calls = Calls(connect: bool, maxSeq: bool, load: bool, scan: bool, persist: bool)

  // ---------------------------------------------------------------- the update, on values

  function Loadable(w: World, calls: Calls): bool {
    calls.load && w.stored.Some? && w.stored.value.last > 0
  }

  function Loaded(w: World, calls: Calls): World {
    if !w.cache.initialized && Loadable(w, calls)
    then w.(cache := Cache(w.stored.value.totals, w.stored.value.last, true))
    else w
  }

  function Persisted(w: World, calls: Calls): World {
    if calls.persist then w.(stored := Some(Stored(w.cache.totals, w.cache.last))) else w
  }

  /** One run of the updater; `late` are the rows committed after MAX(seq) was read. */
  function Updated(w: World, calls: Calls, late: seq<Row>): World {
    if !calls.connect || !calls.maxSeq then w.(rows := w.rows + late)
    else
      var maxSeq := MaxSeq(w.rows);
      var u := Loaded(w, calls).(rows := w.rows + late);
      if !u.cache.initialized then
        var v := if calls.scan then u.(cache := Cache(Scan(u.rows, None, -1, None), maxSeq, true)) else u;
        Persisted(v, calls)
      else if maxSeq <= u.cache.last then u
      else
        var v := if calls.scan
                 then u.(cache := Cache(Plus(u.cache.totals, Scan(u.rows, None, u.cache.last, None)), maxSeq, true))
                 else u;
        Persisted(v, calls)
  }

  // ---------------------------------------------------------------- the invariant

  function Recount(rows: seq<Row>, last: int): Totals { Tally(rows, None, -1, last) }

  /** The cache, and the stored row, are each a correct recount up to their own watermark. */
  ghost predicate Consistent(w: World) {
    && Numbered(w.rows)
    && w.cache.last >= 0 && (!w.cache.initialized ==> w.cache == EMPTY)
    && w.cache.totals == Recount(w.rows, w.cache.last)
    && (w.stored.Some? ==> w.stored.value.last >= 0 && w.stored.value.totals == Recount(w.rows, w.stored.value.last))
  }

  /** The rows add nothing to the reports up to the watermarks, for instance because all are above them. */
  predicate PrefixStays(w: World, more: seq<Row>) {
    && Numbered(more) && AddsNothing(w.rows, more, None, -1, w.cache.last)
    && (w.stored.Some? ==> AddsNothing(w.rows, more, None, -1, w.stored.value.last))
  }

  /** The scan sees no valid row above the MAX(seq) that was read before it. */
  predicate ScanIsClean(rows: seq<Row>, late: seq<Row>) {
    forall r | r in late && r.valid :: r.id <= MaxSeq(rows)
  }

  lemma AppendKeeps(w: World, more: seq<Row>)
    requires Consistent(w) && Numbered(more)
    ensures Consistent(w.(rows := w.rows + more)) <==> PrefixStays(w, more)
  {
    TallyAppend(w.rows, more, None, -1, w.cache.last);
    if w.stored.Some? { TallyAppend(w.rows, more, None, -1, w.stored.value.last); }
  }

  lemma LoadKeeps(w: World, calls: Calls)
    requires Consistent(w)
    ensures Consistent(Loaded(w, calls))
  {
  }

  /** A scan to the top overshoots the MAX(seq) read earlier by exactly the valid rows committed above it since. */
  lemma Overshoot(rows: seq<Row>, late: seq<Row>)
    requires Numbered(rows + late)
    ensures var all := rows + late;
            && MaxSeq(rows) <= MaxSeq(all)
            && Recount(all, MaxSeq(all)) ==
               Plus(Recount(all, MaxSeq(rows)), Tally(all, None, MaxSeq(rows), MaxSeq(all)))
            && (if ScanIsClean(rows, late) then Tally(all, None, MaxSeq(rows), MaxSeq(all)) == ZERO
                else Tally(all, None, MaxSeq(rows), MaxSeq(all)).total > 0 && MaxSeq(all) > MaxSeq(rows))
  {
    MaxSeqGrows(rows, late);
    TallySplit(rows + late, None, -1, MaxSeq(rows), MaxSeq(rows + late));
    RowsBetween(rows, late, MaxSeq(rows), MaxSeq(rows + late));
  }

  lemma RowsBetween(rows: seq<Row>, late: seq<Row>, max: int, top: int)
    requires forall r | r in rows :: r.id <= max
    requires forall r | r in rows + late :: r.id <= top
    ensures if forall r | r in late && r.valid :: r.id <= max then Tally(rows + late, None, max, top) == ZERO
            else Tally(rows + late, None, max, top).total > 0 && top > max
  {
    if forall r | r in late && r.valid :: r.id <= max {
      TallyEmpty(rows + late, None, max, top);
    } else {
      var r :| r in late && r.valid && r.id > max;
      assert r in rows + late;
      assert r.id in Seqs(rows + late, None, None, max, top);
    }
  }

  lemma MaxSeqGrows(rows: seq<Row>, more: seq<Row>)
    requires Numbered(rows + more)
    ensures MaxSeq(rows) <= MaxSeq(rows + more)
  {
    if MaxSeq(rows) > 0 {
      assert Numbered(rows) by { assert forall r | r in rows :: r in rows + more; }
      var r :| r in rows && r.id == MaxSeq(rows);
      assert r in rows + more;
    }
  }

  predicate Scans(w: World, calls: Calls) {
    && calls.connect && calls.maxSeq && calls.scan
    && (!Loaded(w, calls).cache.initialized || MaxSeq(w.rows) > Loaded(w, calls).cache.last)
  }

  /** The watermark that a scan starts from. */
  function From(w: World, calls: Calls): int {
    if Loaded(w, calls).cache.initialized then Loaded(w, calls).cache.last else -1
  }

  /** What an unbounded scan sees above the MAX(seq) read before. */
  function Extra(rows: seq<Row>, late: seq<Row>): Totals {
    Tally(rows + late, None, MaxSeq(rows), MaxSeq(rows + late))
  }

  /** That is exactly what the late rows added below the watermark that the scan started from. */
  predicate Balanced(rows: seq<Row>, late: seq<Row>, from: int) {
    Plus(Recount(rows, from), Extra(rows, late)) == Recount(rows + late, from)
  }

  /** If they added nothing there, the scan has to be clean. */
  lemma BalancedExactlyWhenClean(rows: seq<Row>, late: seq<Row>, from: int)
    requires Numbered(rows + late) && AddsNothing(rows, late, None, -1, from)
    ensures Balanced(rows, late, from) <==> ScanIsClean(rows, late)
  {
    TallyAppend(rows, late, None, -1, from);
    Overshoot(rows, late);
    PlusZero(Recount(rows, from), Extra(rows, late));
  }

  lemma PlusZero(a: Totals, b: Totals)
    ensures Plus(a, b) == a <==> b == ZERO
  {
  }

  lemma NumberedAppend(rows: seq<Row>, more: seq<Row>)
    requires Numbered(rows) && Numbered(more)
    ensures Numbered(rows + more)
  {
  }

  /** What a successful scan makes of the cache. */
  lemma ScannedCache(w: World, calls: Calls, late: seq<Row>)
    requires Scans(w, calls)
    ensures var u, c, all := Updated(w, calls, late), Loaded(w, calls).cache, w.rows + late;
            && u.rows == all
            && u.cache == Cache(if c.initialized then Plus(c.totals, Scan(all, None, c.last, None))
                                else Scan(all, None, -1, None), MaxSeq(w.rows), true)
  {
  }

  /** The cache that a scan adds to holds a recount up to where the scan starts. */
  lemma CountedSoFar(w: World, calls: Calls)
    requires Consistent(w) && Scans(w, calls)
    ensures var c, from := Loaded(w, calls).cache, From(w, calls);
            && -1 <= from <= MaxSeq(w.rows)
            && Recount(w.rows, from) == (if c.initialized then c.totals else ZERO)
  {
    LoadKeeps(w, calls);
    TallyEmpty(w.rows, None, -1, -1);
  }

  lemma ScanToTop(rows: seq<Row>, from: int)
    ensures Scan(rows, None, from, None) == Tally(rows, None, from, MaxSeq(rows))
  {
    ScanIsTally(rows, None, from, MaxSeq(rows), None);
  }

  lemma ScannedFrom(w: World, calls: Calls, late: seq<Row>)
    requires Scans(w, calls)
    ensures var u, c, all := Updated(w, calls, late), Loaded(w, calls).cache, w.rows + late;
            && u.rows == all && u.cache.last == MaxSeq(w.rows) && u.cache.initialized
            && u.cache.totals == Plus(if c.initialized then c.totals else ZERO, Scan(all, None, From(w, calls), None))
  {
    ScannedCache(w, calls, late);
    FromZero(Scan(w.rows + late, None, From(w, calls), None));
  }

  lemma FromZero(t: Totals)
    ensures Plus(ZERO, t) == t
  {
  }

  lemma ScannedTotals(w: World, calls: Calls, late: seq<Row>)
    requires Consistent(w) && Numbered(late) && Scans(w, calls)
    ensures var u, all, from := Updated(w, calls, late), w.rows + late, From(w, calls);
            && u.rows == all && u.cache.last == MaxSeq(w.rows) && u.cache.initialized
            && -1 <= from <= MaxSeq(w.rows) <= MaxSeq(all)
            && u.cache.totals == Plus(Recount(w.rows, from), Tally(all, None, from, MaxSeq(all)))
  {
    MaxSeqAppend(w.rows, late);
    CountedSoFar(w, calls);
    ScannedFrom(w, calls, late);
    ScanToTop(w.rows + late, From(w, calls));
  }

  lemma MaxSeqAppend(rows: seq<Row>, more: seq<Row>)
    requires Numbered(rows) && Numbered(more)
    ensures MaxSeq(rows) <= MaxSeq(rows + more)
  {
    NumberedAppend(rows, more);
    MaxSeqGrows(rows, more);
  }

  /** Counting from `from` to `top` instead of to `max`. */
  lemma OffBy(all: seq<Row>, before: Totals, from: int, max: int, top: int)
    requires -1 <= from <= max <= top
    ensures var scanned := Plus(before, Tally(all, None, from, top));
            && (scanned == Tally(all, None, -1, max) <==>
                Plus(before, Tally(all, None, max, top)) == Tally(all, None, -1, from))
            && (scanned == Tally(all, None, -1, top) <==> before == Tally(all, None, -1, from))
  {
    TallySplit(all, None, -1, from, max);
    TallySplit(all, None, from, max, top);
    TallySplit(all, None, -1, from, top);
  }

  /** A successful scan leaves the totals equal to a recount up to the new watermark exactly when what it saw above
      the MAX(seq) read before is what was added below; when nothing was added there, exactly when it saw no valid
      row above. */
  lemma ScanExactlyWhenClean(w: World, calls: Calls, late: seq<Row>)
    requires Consistent(w) && Numbered(late) && Scans(w, calls)
    ensures var u := Updated(w, calls, late);
            && u.cache.last == MaxSeq(w.rows)
            && (u.cache.totals == Recount(u.rows, u.cache.last) <==> Balanced(w.rows, late, From(w, calls)))
            && (AddsNothing(w.rows, late, None, -1, From(w, calls)) ==>
                  (u.cache.totals == Recount(u.rows, u.cache.last) <==> ScanIsClean(w.rows, late)))
  {
    ScannedTotals(w, calls, late);
    OffBy(w.rows + late, Recount(w.rows, From(w, calls)), From(w, calls), MaxSeq(w.rows), MaxSeq(w.rows + late));
    NumberedAppend(w.rows, late);
    if AddsNothing(w.rows, late, None, -1, From(w, calls)) {
      BalancedExactlyWhenClean(w.rows, late, From(w, calls));
    }
  }

  const ALL_WELL := Calls(true, true, true, true, true)

  /** What a scan saw above, the next successful update counts a second time; so the error stays. */
  lemma DirtyScanOvercounts(w: World, calls: Calls, late: seq<Row>)
    requires Consistent(w) && Numbered(late) && Scans(w, calls)
    ensures var v := Updated(Updated(w, calls, late), ALL_WELL, []);
            && v.rows == w.rows + late && v.cache.last == MaxSeq(v.rows)
            && (v.cache.totals == Recount(v.rows, v.cache.last) <==> Balanced(w.rows, late, From(w, calls)))
            && (AddsNothing(w.rows, late, None, -1, From(w, calls)) ==>
                  v.cache.totals == Plus(Recount(v.rows, v.cache.last), Extra(w.rows, late)))
  {
    var u, all, from := Updated(w, calls, late), w.rows + late, From(w, calls);
    ScannedTotals(w, calls, late);
    ScannedTwice(u, Recount(w.rows, from), from);
    TallyAppend(w.rows, late, None, -1, from);
    TwiceOff(all, Recount(w.rows, from), from, MaxSeq(w.rows), MaxSeq(all));
  }

  lemma TwiceOff(all: seq<Row>, before: Totals, from: int, max: int, top: int)
    requires -1 <= from <= max <= top
    ensures var twice := Plus(Plus(before, Tally(all, None, from, top)), Tally(all, None, max, top));
            && (twice == Tally(all, None, -1, top) <==>
                Plus(before, Tally(all, None, max, top)) == Tally(all, None, -1, from))
            && (before == Tally(all, None, -1, from) ==>
                  twice == Plus(Tally(all, None, -1, top), Tally(all, None, max, top)))
  {
    TallySplit(all, None, -1, from, top);
  }

  lemma ScannedTwice(u: World, before: Totals, from: int)
    requires u.cache.initialized && u.cache.last <= MaxSeq(u.rows)
    requires u.cache.totals == Plus(before, Tally(u.rows, None, from, MaxSeq(u.rows)))
    ensures var v, top := Updated(u, ALL_WELL, []), MaxSeq(u.rows);
            && v.rows == u.rows && v.cache.last == top
            && v.cache.totals ==
               Plus(Plus(before, Tally(u.rows, None, from, top)), Tally(u.rows, None, u.cache.last, top))
  {
    assert u.rows + [] == u.rows;
    if u.cache.last < MaxSeq(u.rows) {
      ScannedCache(u, ALL_WELL, []);
      ScanIsTally(u.rows, None, u.cache.last, MaxSeq(u.rows), None);
    } else {
      TallyEmpty(u.rows, None, u.cache.last, MaxSeq(u.rows));
    }
  }

  /** The cache that an update starts from. */
  function Current(w: World, calls: Calls): Cache {
    if calls.connect && calls.maxSeq then Loaded(w, calls).cache else w.cache
  }

  /** The update writes the stored row. */
  predicate Writes(w: World, calls: Calls) {
    && calls.connect && calls.maxSeq && calls.persist
    && (!Loaded(w, calls).cache.initialized || MaxSeq(w.rows) > Loaded(w, calls).cache.last)
  }

  /** A scan counts neither too much nor too little; otherwise the late rows leave the reports up to the cache's
      watermark alone, and in any case those up to the stored one, if it is not written anew. */
  predicate IsHarmlessUpdate(w: World, calls: Calls, late: seq<Row>) {
    && (if Scans(w, calls) then Balanced(w.rows, late, From(w, calls))
        else AddsNothing(w.rows, late, None, -1, Current(w, calls).last))
    && (w.stored.Some? && !Writes(w, calls) ==> AddsNothing(w.rows, late, None, -1, w.stored.value.last))
  }

  /** Without a scan the totals stay those of the cache that the update starts from. */
  lemma UnscannedCache(w: World, calls: Calls, late: seq<Row>)
    requires !Scans(w, calls)
    ensures var u := Updated(w, calls, late);
            && u.rows == w.rows + late && u.cache == Current(w, calls)
            && u.stored == if Writes(w, calls) then Some(Stored(u.cache.totals, u.cache.last)) else w.stored
  {
  }

  lemma ScannedStored(w: World, calls: Calls, late: seq<Row>)
    requires Scans(w, calls)
    ensures var u := Updated(w, calls, late);
            && u.rows == w.rows + late && u.cache.last == MaxSeq(w.rows) && u.cache.initialized
            && u.stored == if Writes(w, calls) then Some(Stored(u.cache.totals, u.cache.last)) else w.stored
  {
  }

  /** An update keeps the cache and the stored row consistent, whichever calls fail, exactly if it is harmless. */
  lemma UpdateKeeps(w: World, calls: Calls, late: seq<Row>)
    requires Consistent(w) && Numbered(late)
    ensures Consistent(Updated(w, calls, late)) <==> IsHarmlessUpdate(w, calls, late)
  {
    NumberedAppend(w.rows, late);
    if w.stored.Some? { TallyAppend(w.rows, late, None, -1, w.stored.value.last); }
    if Scans(w, calls) {
      ScannedKeeps(w, calls, late);
    } else {
      LoadKeeps(w, calls);
      UnscannedCache(w, calls, late);
      TallyAppend(w.rows, late, None, -1, Current(w, calls).last);
    }
  }

  /** What consistency comes to after a scan, of any two worlds. */
  lemma ConsistentAfterScan(w: World, late: seq<Row>, u: World, writes: bool)
    requires Consistent(w) && Numbered(u.rows) && u.rows == w.rows + late
    requires u.cache.initialized && u.cache.last >= 0
    requires u.stored == if writes then Some(Stored(u.cache.totals, u.cache.last)) else w.stored
    ensures Consistent(u) <==>
            && u.cache.totals == Recount(u.rows, u.cache.last)
            && (w.stored.Some? && !writes ==> AddsNothing(w.rows, late, None, -1, w.stored.value.last))
  {
    if w.stored.Some? { TallyAppend(w.rows, late, None, -1, w.stored.value.last); }
  }

  lemma ScannedKeeps(w: World, calls: Calls, late: seq<Row>)
    requires Consistent(w) && Numbered(late) && Scans(w, calls)
    ensures Consistent(Updated(w, calls, late)) <==> IsHarmlessUpdate(w, calls, late)
  {
    NumberedAppend(w.rows, late);
    ScannedStored(w, calls, late);
    ScanExactlyWhenClean(w, calls, late);
    ConsistentAfterScan(w, late, Updated(w, calls, late), Writes(w, calls));
  }

  /** A restart forgets the cache and nothing else. */
  lemma RestartKeeps(w: World)
    requires Consistent(w)
    ensures Consistent(w.(cache := EMPTY))
  {
    TallyEmpty(w.rows, None, -1, 0);
  }

  // ---------------------------------------------------------------- runs

  datatype Event = Append(rows: seq<Row>) | Update(calls: Calls, late: seq<Row>) | Restart

  function After(w: World, e: Event): World {
    match e
    case Append(rows) => w.(rows := w.rows + rows)
    case Update(calls, late) => Updated(w, calls, late)
    case Restart => w.(cache := EMPTY)
  }

  /** All rows have seqs. */
  predicate HasSeqs(e: Event) { (e.Append? ==> Numbered(e.rows)) && (e.Update? ==> Numbered(e.late)) }

  predicate IsRun(events: seq<Event>) { events == [] || (HasSeqs(events[0]) && IsRun(events[1..])) }

  ghost function AfterAll(w: World, events: seq<Event>): World
    decreases |events|
  {
    if events == [] then w else AfterAll(After(w, events[0]), events[1..])
  }

  predicate IsHarmless(w: World, e: Event) {
    match e
    case Append(rows) => PrefixStays(w, rows)
    case Update(calls, late) => IsHarmlessUpdate(w, calls, late)
    case Restart => true
  }

  ghost predicate AllHarmless(w: World, events: seq<Event>)
    decreases |events|
  {
    events != [] ==> IsHarmless(w, events[0]) && AllHarmless(After(w, events[0]), events[1..])
  }

  ghost predicate StaysConsistent(w: World, events: seq<Event>)
    decreases |events|
  {
    Consistent(w) && (events != [] ==> StaysConsistent(After(w, events[0]), events[1..]))
  }

  /** Over every run of appends, updates with any failures, and restarts or crashes (a crash before the upsert is
      an update whose persist fails, followed by a restart): cache and stored row are recounts up to their own
      watermarks all the time exactly if every event is harmless. */
  lemma {:induction false} CountsAreRecounts(w: World, events: seq<Event>)
    requires Consistent(w) && IsRun(events)
    ensures StaysConsistent(w, events) <==> AllHarmless(w, events)
    ensures AllHarmless(w, events) ==> Consistent(AfterAll(w, events))
    decreases |events|
  {
    if events != [] {
      var next := After(w, events[0]);
      match events[0] {
        case Append(rows) => AppendKeeps(w, rows);
        case Update(calls, late) => UpdateKeeps(w, calls, late);
        case Restart => RestartKeeps(w);
      }
      if Consistent(next) { CountsAreRecounts(next, events[1..]); }
    }
  }

  // ---------------------------------------------------------------- the stored watermark

  function Mark(w: World): int { if w.stored.Some? then w.stored.value.last else 0 }

  /** No watermark is ahead of the rows, and the stored one is not ahead of the cache's. */
  ghost predicate Ordered(w: World) {
    && Numbered(w.rows) && 0 <= Mark(w) <= MaxSeq(w.rows)
    && (if w.cache.initialized then Mark(w) <= w.cache.last <= MaxSeq(w.rows) else w.cache == EMPTY)
  }

  lemma OrderedAppend(w: World, more: seq<Row>)
    requires Ordered(w) && Numbered(more)
    ensures Ordered(w.(rows := w.rows + more))
  {
    assert forall r | r in w.rows + more :: r in w.rows || r in more;
    MaxSeqGrows(w.rows, more);
  }

  /** What an update does to the watermarks. */
  lemma UpdatedMarks(w: World, calls: Calls, late: seq<Row>)
    ensures var u, c := Updated(w, calls, late), Current(w, calls);
            && u.rows == w.rows + late
            && u.cache.last == (if Scans(w, calls) then MaxSeq(w.rows) else c.last)
            && u.cache.initialized == (Scans(w, calls) || c.initialized)
            && (!u.cache.initialized ==> u.cache == w.cache)
            && Mark(u) == (if Writes(w, calls) then u.cache.last else Mark(w))
            && (u.stored.Some? && Writes(w, calls) ==> u.stored == Some(Stored(u.cache.totals, u.cache.last)))
  {
  }

  lemma OrderedUpdate(w: World, calls: Calls, late: seq<Row>)
    requires Ordered(w) && Numbered(late)
    ensures Ordered(Updated(w, calls, late))
  {
    NumberedAppend(w.rows, late);
    MaxSeqGrows(w.rows, late);
    UpdatedMarks(w, calls, late);
  }

  /** This holds at the first start and after every event. */
  lemma OrderedKeeps(w: World, e: Event)
    requires Ordered(w) && (e.Append? ==> Numbered(e.rows)) && (e.Update? ==> Numbered(e.late))
    ensures Ordered(After(w, e))
  {
    match e {
      case Append(rows) => OrderedAppend(w, rows);
      case Update(calls, late) => OrderedUpdate(w, calls, late);
      case Restart =>
    }
  }

  lemma {:induction false} RunStaysOrdered(w: World, events: seq<Event>)
    requires Ordered(w) && IsRun(events)
    ensures Ordered(AfterAll(w, events))
    decreases |events|
  {
    if events != [] {
      OrderedKeeps(w, events[0]);
      RunStaysOrdered(After(w, events[0]), events[1..]);
    }
  }

  /** In particular from the first start on, with any rows. */
  lemma CountsAreRecountsFromStart(rows: seq<Row>, events: seq<Event>)
    requires Numbered(rows) && IsRun(events)
    ensures StaysConsistent(World(rows, None, EMPTY), events) <==> AllHarmless(World(rows, None, EMPTY), events)
    ensures AllHarmless(World(rows, None, EMPTY), events) ==> Consistent(AfterAll(World(rows, None, EMPTY), events))
    ensures Ordered(AfterAll(World(rows, None, EMPTY), events))
  {
    TallyEmpty(rows, None, -1, 0);
    RunStaysOrdered(World(rows, None, EMPTY), events);
    CountsAreRecounts(World(rows, None, EMPTY), events);
  }

  /** The stored watermark goes back, to 0 and with counters of 0, exactly if a fresh process cannot load the
      stored row, cannot scan either, and still writes. */
  lemma StoredGoesBackExactlyWhen(w: World, calls: Calls, late: seq<Row>)
    requires Ordered(w) && Numbered(late)
    ensures var u := Updated(w, calls, late);
            && (Mark(u) < Mark(w) <==>
                && calls.connect && calls.maxSeq && !w.cache.initialized && Mark(w) > 0
                && !calls.load && !calls.scan && calls.persist)
            && (Mark(u) < Mark(w) ==> u.stored == Some(Stored(ZERO, 0)))
  {
    MaxSeqGrows(w.rows, late);
  }

  // ---------------------------------------------------------------- how it goes wrong

  /** A dirty scan from the first start: one valid row is committed while the table is scanned for the first time. */
  lemma DirtyScanHappens(r: Row)
    requires r.valid && r.id >= 1
    ensures !StaysConsistent(World([], None, EMPTY), [Update(ALL_WELL, [r])])
  {
    var w := World([], None, EMPTY);
    FirstIsHarmful(w, r);
    HarmsFirst(w, Update(ALL_WELL, [r]), [Update(ALL_WELL, [r])]);
    CountsAreRecountsFromStart([], [Update(ALL_WELL, [r])]);
  }

  lemma FirstIsHarmful(w: World, r: Row)
    requires w.rows == [] && w.stored.None? && w.cache == EMPTY && r.valid && r.id >= 1
    ensures !IsHarmlessUpdate(w, ALL_WELL, [r])
  {
    NumberedAppend([], [r]);
    BalancedExactlyWhenClean([], [r], -1);
    assert r in [r];
  }

  lemma HarmsFirst(w: World, e: Event, es: seq<Event>)
    requires es != [] && es[0] == e && !IsHarmless(w, e)
    ensures !AllHarmless(w, es)
  {
  }

  /** The stored row of zeros from the first start: a count is stored, the process is started again, and can then
      neither load the row nor scan. */
  lemma StoredZerosHappen(r: Row)
    requires r.valid && r.id >= 1
    ensures var bad := Calls(true, true, false, false, true);
            var w := AfterAll(World([r], None, EMPTY), [Update(ALL_WELL, []), Restart, Update(bad, [])]);
            w.stored == Some(Stored(ZERO, 0)) && Recount(w.rows, MaxSeq(w.rows)).total > 0
  {
    var bad := Calls(true, true, false, false, true);
    var w0 := World([r], None, EMPTY);
    var w1 := Updated(w0, ALL_WELL, []);
    var w2 := w1.(cache := EMPTY);
    assert [r] + [] == [r] && MaxSeq([r]) == r.id;
    assert w2.rows == [r] && Mark(w2) == r.id;
    StoredGoesBackExactlyWhen(w2, bad, []);
    assert r.id in Seqs([r], None, None, -1, r.id);
    var es := [Update(ALL_WELL, []), Restart, Update(bad, [])];
    assert es[1..] == [Restart, Update(bad, [])] && es[1..][1..] == [Update(bad, [])] && es[1..][1..][1..] == [];
    assert AfterAll(w2, [Update(bad, [])]) == Updated(w2, bad, []);
    assert AfterAll(w0, es) == AfterAll(w1, es[1..]) == AfterAll(w2, es[1..][1..]);
  }

  /** An unfailing update brings the cache up to the newest seq, and the stored row with it unless one of the two was
      there already. */
  lemma UpdateCatchesUp(w: World)
    requires Consistent(w) && Ordered(w)
    ensures var u, max := Updated(w, ALL_WELL, []), MaxSeq(w.rows);
            && Consistent(u) && u.rows == w.rows && u.cache == Cache(Recount(w.rows, max), max, true)
            && (w.cache.last < max && (w.stored.Some? ==> w.stored.value.last < max) ==>
                  u.stored == Some(Stored(Recount(w.rows, max), max)))
  {
    assert w.rows + [] == w.rows;
    NothingLate(w);
    UpdateKeeps(w, ALL_WELL, []);
    if Scans(w, ALL_WELL) { ScannedCache(w, ALL_WELL, []); }
  }

  lemma NothingLate(w: World)
    requires Numbered(w.rows)
    ensures IsHarmlessUpdate(w, ALL_WELL, [])
  {
    NumberedAppend(w.rows, []);
    BalancedExactlyWhenClean(w.rows, [], From(w, ALL_WELL));
  }

  // ---------------------------------------------------------------- the process

  class Database {
    var rows: seq<Row>
    var stored: Option<Stored>

    constructor (rows: seq<Row>)
      ensures this.rows == rows && stored.None?
    {
      this.rows, stored := rows, None;
    }
  }

  /** `reportCountCache`, updated under its lock. */
  class ReportCountCache {
    var totalReports: int
    var physicalCount: int
    var digitalCount: int
    var lastCountedSeq: int
    var initialized: bool
    const db: Database

    constructor (db: Database)
      ensures this.db == db && View() == World(db.rows, db.stored, EMPTY)
    {
      this.db := db;
      totalReports, physicalCount, digitalCount, lastCountedSeq, initialized := 0, 0, 0, 0, false;
    }

    function View(): World
      reads this, db
    {
      World(db.rows, db.stored, Cache(Totals(totalReports, physicalCount, digitalCount), lastCountedSeq, initialized))
    }

    method UpdateCounterCache(calls: Calls, late: seq<Row>)
      modifies this, db
      ensures View() == Updated(old(View()), calls, late)
    {
      if !calls.connect || !calls.maxSeq {
        db.rows := db.rows + late;
        return;
      }
      var maxSeq := MaxSeq(db.rows);
      db.rows := db.rows + late;
      if !initialized {
        var loaded := TryLoadCounterCacheFromDB(calls);
        if !loaded {
          FullUpdateCounterCache(calls, maxSeq);
          PersistCounterCacheToDB(calls);
          return;
        }
      }
      if maxSeq <= lastCountedSeq { return; }
      IncrementalUpdateCounterCache(calls, lastCountedSeq, maxSeq);
      PersistCounterCacheToDB(calls);
    }

    method TryLoadCounterCacheFromDB(calls: Calls) returns (loaded: bool)
      requires !initialized
      modifies this
      ensures loaded == Loadable(old(View()), calls)
      ensures View() == Loaded(old(View()), calls)
    {
      if !calls.load || db.stored.None? { return false; }
      var row := db.stored.value;
      if row.last <= 0 { return false; }
      totalReports, physicalCount, digitalCount := row.totals.total, row.totals.physical, row.totals.digital;
      lastCountedSeq, initialized := row.last, true;
      return true;
    }

    method FullUpdateCounterCache(calls: Calls, maxSeq: int)
      modifies this
      ensures View() == if calls.scan then old(View()).(cache := Cache(Scan(db.rows, None, -1, None), maxSeq, true))
                        else old(View())
    {
      if !calls.scan { return; }
      var t := Scan(db.rows, None, -1, None);
      totalReports, physicalCount, digitalCount := t.total, t.physical, t.digital;
      lastCountedSeq, initialized := maxSeq, true;
    }

    method IncrementalUpdateCounterCache(calls: Calls, lastSeq: int, maxSeq: int)
      modifies this
      ensures View() == if calls.scan
                        then old(View()).(cache := Cache(Plus(old(View()).cache.totals,
                                                              Scan(db.rows, None, lastSeq, None)),
                                                         maxSeq, old(initialized)))
                        else old(View())
    {
      if !calls.scan { return; }
      var t := Scan(db.rows, None, lastSeq, None);
      totalReports := totalReports + t.total;
      physicalCount := physicalCount + t.physical;
      digitalCount := digitalCount + t.digital;
      lastCountedSeq := maxSeq;
    }

    method PersistCounterCacheToDB(calls: Calls)
      modifies db
      ensures View() == Persisted(old(View()), calls)
    {
      if calls.persist {
        db.stored := Some(Stored(Totals(totalReports, physicalCount, digitalCount), lastCountedSeq));
      }
    }

    /** `db.GetValidReportsCounts`: the stored row if it can be read, else three grouped counts. */
    method GetValidReportsCounts(readable: bool) returns (t: Totals)
      requires Consistent(View())
      ensures readable && db.stored.Some? ==> t == Recount(db.rows, db.stored.value.last)
      ensures !(readable && db.stored.Some?) ==> t == Recount(db.rows, MaxSeq(db.rows))
    {
      if readable && db.stored.Some? { return db.stored.value.totals; }
      return Tally(db.rows, None, -1, MaxSeq(db.rows));
    }
  }
}
