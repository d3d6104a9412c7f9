/** The two cached leaderboard views under concurrent readers and refreshers.  A step is one critical section
    of the cache's lock, one query, or something outside the calls. */
module LeaderboardCache {
  datatype Row = Row(id: string, title: string, score: real)

  /** The teams view is one answer; the top-scores view is cut to the number of rows asked for. */
  datatype Kind = Teams | TopScores

  const TTL: nat := 120
  const DEFAULT_TOP_SCORES: nat := 7

  /** What was read when the tables had their `version`-th content. */
  datatype Snapshot = Snapshot(rows: seq<Row>, version: nat)

  datatype Cache = Cache(value: Snapshot, lastLoaded: nat, loaded: bool, refreshing: bool)

  datatype Result = Ok(value: Snapshot) | Failed

  /** Where a call stands.  `Fetching` and `Releasing` are inside the refresh that holds the flag, as is `Storing`. */
  datatype Phase =
    | Entering
    | Spawned
    | Refreshing
    | Fetching
    | Storing(value: Snapshot)
    | Releasing(result: Result)
    | FetchingAlone
    | Returned(result: Result)

  datatype Call = Call(count: nat, phase: Phase)

  /** `history[v]` is the full ranking in version `v` of the tables. */
  datatype State = State(history: seq<seq<Row>>, time: nat, cache: Cache, calls: seq<Call>)

  datatype Step =
    | Write(rows: seq<Row>)
    | Tick
    | Begin(count: int)
    | Read(call: nat)
    | Connect(call: nat, ok: bool)
    | TryRefresh(call: nat)
    | Fetch(call: nat, ok: bool)
    | Store(call: nat)
    | Release(call: nat)
    | FetchAlone(call: nat, ok: bool)

  // ---------------------------------------------------------------- steps

  function Cut(kind: Kind, value: Snapshot, count: nat): Snapshot {
    if kind.TopScores? && count < |value.rows| then value.(rows := value.rows[..count]) else value
  }

  function Query(kind: Kind, history: seq<seq<Row>>, count: nat): Snapshot
    requires history != []
  {
    Cut(kind, Snapshot(history[|history| - 1], |history| - 1), count)
  }

  predicate Fresh(kind: Kind, s: State, count: nat) {
    && s.cache.loaded && s.time - s.cache.lastLoaded < TTL
    && (kind.TopScores? ==> |s.cache.value.rows| >= count)
  }

  predicate HasStale(kind: Kind, cache: Cache, count: nat) {
    cache.loaded && (kind.TopScores? ==> Cut(kind, cache.value, count).rows != [])
  }

  function With(s: State, call: nat, phase: Phase): State
    requires call < |s.calls|
  {
    s.(calls := s.calls[call := s.calls[call].(phase := phase)])
  }

  predicate At(s: State, call: nat, phase: Phase) { call < |s.calls| && s.calls[call].phase == phase }

  predicate Enabled(s: State, step: Step) {
    match step
    case Write(_) => true
    case Tick => true
    case Begin(_) => true
    case Read(c) => At(s, c, Entering)
    case Connect(c, _) => At(s, c, Spawned)
    case TryRefresh(c) => At(s, c, Refreshing)
    case Fetch(c, _) => At(s, c, Fetching) && s.history != []
    case Store(c) => c < |s.calls| && s.calls[c].phase.Storing?
    case Release(c) => c < |s.calls| && s.calls[c].phase.Releasing?
    case FetchAlone(c, _) => At(s, c, FetchingAlone) && s.history != []
  }

  /** The read under the shared lock: a fresh value, a stale one with a refresh in the background, or none. */
  function AfterRead(kind: Kind, s: State, c: nat): State
    requires c < |s.calls|
  {
    var count := s.calls[c].count;
    var value := Returned(Ok(Cut(kind, s.cache.value, count)));
    if Fresh(kind, s, count) then With(s, c, value)
    else if HasStale(kind, s.cache, count) then
      var t := With(s, c, value);
      if s.cache.refreshing then t else t.(calls := t.calls + [Call(count, Spawned)])
    else With(s, c, Refreshing)
  }

  function AfterTryRefresh(kind: Kind, s: State, c: nat): State
    requires c < |s.calls|
  {
    var count := s.calls[c].count;
    if !s.cache.refreshing then With(s, c, Fetching).(cache := s.cache.(refreshing := true))
    else if HasStale(kind, s.cache, count) then With(s, c, Returned(Ok(Cut(kind, s.cache.value, count))))
    else With(s, c, FetchingAlone)
  }

  function Apply(kind: Kind, s: State, step: Step): State
    requires Enabled(s, step)
  {
    match step
    case Write(rows) => s.(history := s.history + [rows])
    case Tick => s.(time := s.time + 1)
    case Begin(n) => s.(calls := s.calls + [Call(if n <= 0 then DEFAULT_TOP_SCORES else n, Entering)])
    case Read(c) => AfterRead(kind, s, c)
    case Connect(c, ok) => With(s, c, if ok then Refreshing else Returned(Failed))
    case TryRefresh(c) => AfterTryRefresh(kind, s, c)
    case Fetch(c, ok) =>
      With(s, c, if ok then Storing(Query(kind, s.history, s.calls[c].count)) else Releasing(Failed))
    case Store(c) =>
      var value := s.calls[c].phase.value;
      With(s, c, Releasing(Ok(value))).(cache := Cache(value, s.time, true, s.cache.refreshing))
    case Release(c) =>
      With(s, c, Returned(s.calls[c].phase.result)).(cache := s.cache.(refreshing := false))
    case FetchAlone(c, ok) =>
      With(s, c, Returned(if ok then Ok(Query(kind, s.history, s.calls[c].count)) else Failed))
  }

  ghost predicate IsInitial(s: State) {
    s.history != [] && s.calls == [] && !s.cache.loaded && !s.cache.refreshing
  }

  ghost predicate IsRun(kind: Kind, s: State, steps: seq<Step>)
    decreases |steps|
  {
    steps == [] || (Enabled(s, steps[0]) && IsRun(kind, Apply(kind, s, steps[0]), steps[1..]))
  }

  function After(kind: Kind, s: State, steps: seq<Step>): State
    requires IsRun(kind, s, steps)
    decreases |steps|
  {
    if steps == [] then s else After(kind, Apply(kind, s, steps[0]), steps[1..])
  }

  ghost predicate Reachable(kind: Kind, s: State) {
    exists from, steps :: IsInitial(from) && IsRun(kind, from, steps) && After(kind, from, steps) == s
  }

  // ---------------------------------------------------------------- invariant

  predicate HoldsFlag(phase: Phase) { phase.Fetching? || phase.Storing? || phase.Releasing? }

  ghost predicate HoldsAt(s: State, call: int) { 0 <= call < |s.calls| && HoldsFlag(s.calls[call].phase) }

  /** The flag is up exactly while a refresh is under way, and there is one at most. */
  ghost predicate OneRefresh(s: State) {
    && (s.cache.refreshing ==> exists c :: HoldsAt(s, c))
    && (forall c | HoldsAt(s, c) :: s.cache.refreshing)
    && (forall c, d | HoldsAt(s, c) && HoldsAt(s, d) :: c == d)
  }

  /** What the query gave in that version, or the front part of it; nothing only if there was nothing. */
  ghost predicate IsFrom(kind: Kind, history: seq<seq<Row>>, value: Snapshot) {
    && value.version < |history|
    && (kind.Teams? ==> value.rows == history[value.version])
    && value.rows <= history[value.version]
    && (value.rows == [] ==> history[value.version] == [])
  }

  ghost predicate IsAnswer(kind: Kind, history: seq<seq<Row>>, value: Snapshot, count: nat) {
    IsFrom(kind, history, value) && (kind.TopScores? ==> |value.rows| <= count)
  }

  ghost predicate CallOk(kind: Kind, s: State, call: Call) {
    && call.count > 0
    && match call.phase
       case Storing(value) =>
         IsAnswer(kind, s.history, value, call.count) && (s.cache.loaded ==> s.cache.value.version <= value.version)
       case Releasing(result) => result.Ok? ==> IsAnswer(kind, s.history, result.value, call.count)
       case Returned(result) => result.Ok? ==> IsAnswer(kind, s.history, result.value, call.count)
       case _ => true
  }

  ghost predicate CallsOk(kind: Kind, s: State) { forall c | 0 <= c < |s.calls| :: CallOk(kind, s, s.calls[c]) }

  ghost predicate CacheOk(kind: Kind, s: State) {
    s.history != [] && (s.cache.loaded ==> IsFrom(kind, s.history, s.cache.value))
  }

  ghost predicate Inv(kind: Kind, s: State) { OneRefresh(s) && CacheOk(kind, s) && CallsOk(kind, s) }

  /** The call that a step is a step of. */
  function Mover(step: Step): int {
    match step
    case Read(c) => c
    case Connect(c, _) => c
    case TryRefresh(c) => c
    case Fetch(c, _) => c
    case Store(c) => c
    case Release(c) => c
    case FetchAlone(c, _) => c
    case _ => -1
  }

  /** A step leaves the other calls alone, and one that it adds holds nothing. */
  lemma OthersStay(kind: Kind, s: State, step: Step)
    requires Enabled(s, step)
    ensures var t := Apply(kind, s, step);
            && |s.calls| <= |t.calls|
            && (forall c | 0 <= c < |s.calls| && c != Mover(step) :: t.calls[c] == s.calls[c])
            && (forall c | |s.calls| <= c < |t.calls| :: t.calls[c].count > 0 || Mover(step) >= 0)
            && (forall c | |s.calls| <= c < |t.calls| :: t.calls[c].phase.Entering? || t.calls[c].phase.Spawned?)
  {
  }

  lemma FlagStep(kind: Kind, s: State, step: Step)
    requires Enabled(s, step) && OneRefresh(s)
    ensures OneRefresh(Apply(kind, s, step))
  {
    var t, m := Apply(kind, s, step), Mover(step);
    OthersStay(kind, s, step);
    assert forall c | c != m :: HoldsAt(t, c) <==> HoldsAt(s, c);
    if step.TryRefresh? && !s.cache.refreshing {
      assert HoldsAt(t, m);
    } else if step.Release? {
      assert HoldsAt(s, m) && !HoldsAt(t, m);
    } else {
      assert HoldsAt(t, m) <==> HoldsAt(s, m);
    }
  }

  lemma CacheStep(kind: Kind, s: State, step: Step)
    requires Enabled(s, step) && CacheOk(kind, s) && CallsOk(kind, s)
    ensures CacheOk(kind, Apply(kind, s, step))
  {
  }

  /** Facts about versions stay true as versions are added. */
  lemma HistoryGrows(kind: Kind, s: State, step: Step)
    requires Enabled(s, step)
    ensures s.history <= Apply(kind, s, step).history
  {
  }

  lemma CutIsAnswer(kind: Kind, history: seq<seq<Row>>, value: Snapshot, count: nat)
    requires IsFrom(kind, history, value) && count > 0
    ensures IsAnswer(kind, history, Cut(kind, value, count), count)
  {
  }

  lemma MoverOk(kind: Kind, s: State, step: Step)
    requires Enabled(s, step) && Inv(kind, s) && Mover(step) >= 0
    ensures CallOk(kind, Apply(kind, s, step), Apply(kind, s, step).calls[Mover(step)])
  {
    var count := s.calls[Mover(step)].count;
    if s.cache.loaded { CutIsAnswer(kind, s.history, s.cache.value, count); }
    var last := |s.history| - 1;
    CutIsAnswer(kind, s.history, Snapshot(s.history[last], last), count);
  }

  lemma OtherOk(kind: Kind, s: State, step: Step, c: nat)
    requires Enabled(s, step) && Inv(kind, s) && c < |s.calls| && c != Mover(step)
    ensures CallOk(kind, Apply(kind, s, step), s.calls[c])
  {
    HistoryGrows(kind, s, step);
    if step.Store? && s.calls[c].phase.Storing? {
      assert HoldsAt(s, c) && HoldsAt(s, step.call);
      assert false;
    }
  }

  lemma CallsStep(kind: Kind, s: State, step: Step)
    requires Enabled(s, step) && Inv(kind, s)
    ensures CallsOk(kind, Apply(kind, s, step))
  {
    var t := Apply(kind, s, step);
    OthersStay(kind, s, step);
    forall c | 0 <= c < |t.calls|
      ensures CallOk(kind, t, t.calls[c])
    {
      if c == Mover(step) {
        MoverOk(kind, s, step);
      } else if c < |s.calls| {
        OtherOk(kind, s, step, c);
      }
    }
  }

  lemma InvStep(kind: Kind, s: State, step: Step)
    requires Inv(kind, s) && Enabled(s, step)
    ensures Inv(kind, Apply(kind, s, step))
  {
    FlagStep(kind, s, step);
    CacheStep(kind, s, step);
    CallsStep(kind, s, step);
  }

  lemma {:induction false} InvRun(kind: Kind, s: State, steps: seq<Step>)
    requires Inv(kind, s) && IsRun(kind, s, steps)
    ensures Inv(kind, After(kind, s, steps))
    decreases |steps|
  {
    if steps != [] {
      InvStep(kind, s, steps[0]);
      InvRun(kind, Apply(kind, s, steps[0]), steps[1..]);
    }
  }

  lemma ReachableInv(kind: Kind, s: State)
    requires Reachable(kind, s)
    ensures Inv(kind, s)
  {
    var from, steps :| IsInitial(from) && IsRun(kind, from, steps) && After(kind, from, steps) == s;
    InvRun(kind, from, steps);
  }

  // ---------------------------------------------------------------- main results

  /** At most one refresh holds the flag, and the flag is up exactly while one does. */
  lemma AtMostOneRefresh(kind: Kind, s: State)
    requires Reachable(kind, s)
    ensures s.cache.refreshing <==> exists c :: HoldsAt(s, c)
    ensures forall c, d | HoldsAt(s, c) && HoldsAt(s, d) :: c == d
  {
    ReachableInv(kind, s);
  }

  /** Steps of its own that a call has still to take, at most. */
  function Left(phase: Phase): nat {
    match phase
    case Entering => 5
    case Spawned => 5
    case Refreshing => 4
    case Fetching => 3
    case Storing(_) => 2
    case Releasing(_) => 1
    case FetchingAlone => 1
    case Returned(_) => 0
  }

  /** The next step of a call; a query or a connection may fail. */
  function Next(s: State, c: nat, ok: bool): Step
    requires c < |s.calls| && !s.calls[c].phase.Returned?
  {
    match s.calls[c].phase
    case Entering => Read(c)
    case Spawned => Connect(c, ok)
    case Refreshing => TryRefresh(c)
    case Fetching => Fetch(c, ok)
    case Storing(_) => Store(c)
    case Releasing(_) => Release(c)
    case FetchingAlone => FetchAlone(c, ok)
  }

  /** No call ever waits, each of its steps brings it closer to its return, and others do not set it back. */
  lemma CallsReturn(kind: Kind, s: State, c: nat, ok: bool, other: Step)
    requires Reachable(kind, s) && c < |s.calls|
    ensures s.calls[c].phase.Returned? ||
            (Enabled(s, Next(s, c, ok)) &&
             Left(Apply(kind, s, Next(s, c, ok)).calls[c].phase) < Left(s.calls[c].phase))
    ensures Enabled(s, other) && Mover(other) != c ==> Apply(kind, s, other).calls[c] == s.calls[c]
  {
    ReachableInv(kind, s);
    if !s.calls[c].phase.Returned? { NextBringsCloser(kind, s, c, ok); }
    if Enabled(s, other) { OthersStay(kind, s, other); }
  }

  lemma NextBringsCloser(kind: Kind, s: State, c: nat, ok: bool)
    requires s.history != [] && c < |s.calls| && !s.calls[c].phase.Returned?
    ensures Enabled(s, Next(s, c, ok))
    ensures Left(Apply(kind, s, Next(s, c, ok)).calls[c].phase) < Left(s.calls[c].phase)
  {
  }

  /** The holder gives the flag back before it returns, whatever its query came to, and nobody else does. */
  lemma FlagIsGivenBack(kind: Kind, s: State, step: Step, c: nat)
    requires Reachable(kind, s) && HoldsAt(s, c) && Enabled(s, step)
    ensures var t := Apply(kind, s, step);
            if Mover(step) != c then t.cache.refreshing && t.calls[c] == s.calls[c]
            else if step.Release? then !t.cache.refreshing && t.calls[c].phase.Returned?
            else HoldsAt(t, c) && (step == Fetch(c, false) ==> t.calls[c].phase == Releasing(Failed))
  {
    ReachableInv(kind, s);
    OthersStay(kind, s, step);
    assert Mover(step) >= 0 && Mover(step) != c ==> !HoldsAt(s, Mover(step));
  }

  /** A refresh holds the flag, or a call is on its way to one. */
  ghost predicate RefreshComing(s: State) {
    s.cache.refreshing || exists c :: 0 <= c < |s.calls| && (s.calls[c].phase.Spawned? || s.calls[c].phase.Refreshing?)
  }

  /** A read that finds the value too old, too short or missing never leaves it at that: a refresh is under way
      or about to start. What it returns at once is otherwise younger than the time limit. */
  lemma OldValuesAreRefreshed(kind: Kind, s: State, c: nat)
    requires Reachable(kind, s) && Enabled(s, Read(c))
    ensures var t := Apply(kind, s, Read(c));
            && ((s.cache.loaded && s.time - s.cache.lastLoaded < TTL) || RefreshComing(t))
            && (kind.TopScores? && |s.cache.value.rows| < s.calls[c].count ==> RefreshComing(t))
            && (t.calls[c].phase.Returned? ==> s.cache.loaded)
  {
    var t := Apply(kind, s, Read(c));
    if !Fresh(kind, s, s.calls[c].count) && !s.cache.refreshing {
      var next := if HasStale(kind, s.cache, s.calls[c].count) then |s.calls| else c;
      assert t.calls[next].phase.Spawned? || t.calls[next].phase.Refreshing?;
    }
  }

  /** A call that returns without an error returns what some version of the tables gives, cut to the rows it
      asked for, and an empty list only if the tables had none: never a value that was not loaded. */
  lemma AnswersAreLoaded(kind: Kind, s: State, c: nat)
    requires Reachable(kind, s) && c < |s.calls|
    requires s.calls[c].phase.Returned? && s.calls[c].phase.result.Ok?
    ensures var value := s.calls[c].phase.result.value;
            && value.version < |s.history|
            && (if kind.Teams? then value.rows == s.history[value.version]
                else value.rows <= s.history[value.version] && |value.rows| <= s.calls[c].count)
            && (value.rows == [] ==> s.history[value.version] == [])
  {
    ReachableInv(kind, s);
  }

  /** A cached snapshot is never replaced by one queried earlier, and is what the tables held back then. */
  lemma CacheNeverGoesBack(kind: Kind, s: State, step: Step)
    requires Reachable(kind, s) && Enabled(s, step) && s.cache.loaded
    ensures var t := Apply(kind, s, step);
            && t.cache.loaded
            && s.cache.value.version <= t.cache.value.version < |t.history|
            && t.cache.value.rows <= t.history[t.cache.value.version]
  {
    ReachableInv(kind, s);
    CacheStep(kind, s, step);
  }

  // ---------------------------------------------------------------- how long the answers are

  /** The whole ranking, or at least the first `k` rows of it. */
  ghost predicate Full(history: seq<seq<Row>>, value: Snapshot, k: nat) {
    value.version < |history| && (|value.rows| >= k || value.rows == history[value.version])
  }

  ghost predicate CallFull(history: seq<seq<Row>>, call: Call, k: nat) {
    match call.phase
    case Storing(value) => Full(history, value, k)
    case Releasing(result) => result.Ok? ==> Full(history, result.value, k)
    case Returned(result) => result.Ok? ==> Full(history, result.value, k)
    case _ => true
  }

  ghost predicate AllAsk(s: State, k: nat) { forall c | 0 <= c < |s.calls| :: s.calls[c].count >= k }

  ghost predicate AllFull(s: State, k: nat) {
    && s.history != [] && (s.cache.loaded ==> Full(s.history, s.cache.value, k))
    && forall c | 0 <= c < |s.calls| :: CallFull(s.history, s.calls[c], k)
  }

  lemma CutIsFull(kind: Kind, history: seq<seq<Row>>, value: Snapshot, count: nat, k: nat)
    requires Full(history, value, k) && count >= k
    ensures Full(history, Cut(kind, value, count), k)
  {
  }

  lemma CountsStay(kind: Kind, s: State, step: Step, k: nat)
    requires Enabled(s, step) && AllAsk(Apply(kind, s, step), k)
    ensures AllAsk(s, k)
  {
    var t := Apply(kind, s, step);
    forall c | 0 <= c < |s.calls|
      ensures s.calls[c].count == t.calls[c].count
    {
    }
  }

  lemma FullStep(kind: Kind, s: State, step: Step, k: nat)
    requires Enabled(s, step) && AllAsk(s, k) && AllFull(s, k)
    ensures AllFull(Apply(kind, s, step), k)
  {
    var t, m, last := Apply(kind, s, step), Mover(step), |s.history| - 1;
    OthersStay(kind, s, step);
    HistoryGrows(kind, s, step);
    if m >= 0 {
      var count := s.calls[m].count;
      CutIsFull(kind, s.history, Snapshot(s.history[last], last), count, k);
      if s.cache.loaded { CutIsFull(kind, s.history, s.cache.value, count, k); }
      assert CallFull(t.history, t.calls[m], k);
    }
  }

  lemma {:induction false} FullRun(kind: Kind, s: State, steps: seq<Step>, k: nat)
    requires IsRun(kind, s, steps) && AllFull(s, k) && AllAsk(After(kind, s, steps), k)
    ensures AllFull(After(kind, s, steps), k) && AllAsk(s, k)
    decreases |steps|
  {
    if steps != [] {
      var t := Apply(kind, s, steps[0]);
      AskedBefore(kind, t, steps[1..], k);
      CountsStay(kind, s, steps[0], k);
      FullStep(kind, s, steps[0], k);
      FullRun(kind, t, steps[1..], k);
    }
  }

  lemma {:induction false} AskedBefore(kind: Kind, s: State, steps: seq<Step>, k: nat)
    requires IsRun(kind, s, steps) && AllAsk(After(kind, s, steps), k)
    ensures AllAsk(s, k)
    decreases |steps|
  {
    if steps != [] {
      AskedBefore(kind, Apply(kind, s, steps[0]), steps[1..], k);
      CountsStay(kind, s, steps[0], k);
    }
  }

  /** While all calls ask for at least `k` rows, each answer without an error has `k` rows or all there were.
      The handlers all ask for the same number, so they get just what a query of some version gives. */
  lemma AnswersAreFull(kind: Kind, s: State, c: nat, k: nat)
    requires Reachable(kind, s) && AllAsk(s, k)
    requires c < |s.calls| && s.calls[c].phase.Returned? && s.calls[c].phase.result.Ok?
    ensures var value := s.calls[c].phase.result.value;
            && Full(s.history, value, k)
            && (s.calls[c].count == k ==> value == Cut(kind, Snapshot(s.history[value.version], value.version), k))
  {
    var from, steps :| IsInitial(from) && IsRun(kind, from, steps) && After(kind, from, steps) == s;
    FullRun(kind, from, steps, k);
    assert CallFull(s.history, s.calls[c], k);
    AnswersAreLoaded(kind, s, c);
  }

  /** Calls that ask for fewer rows cut others short: whenever a ranking is longer than `a`, a call for more than
      `a` rows can get `a` of them, after a call for `a` has loaded the cache. */
  lemma AnswerCanBeShort(ranking: seq<Row>, a: nat, b: nat)
    requires 0 < a < b && a < |ranking|
    ensures exists s :: && Reachable(TopScores, s) && s.history == [ranking] && |s.calls| == 3
                        && s.calls[1] == Call(b, Returned(Ok(Snapshot(ranking[..a], 0))))
  {
    var got := Snapshot(ranking[..a], 0);
    var stored := State([ranking], 0, Cache(got, 0, true, false), [Call(a, Returned(Ok(got)))]);
    var asked := stored.(calls := stored.calls + [Call(b, Entering)]);
    var end := stored.(calls := stored.calls + [Call(b, Returned(Ok(got))), Call(b, Spawned)]);
    assert Cut(TopScores, got, b) == got;
    assert Apply(TopScores, asked, Read(1)).calls == end.calls;
    Then(asked, Read(1), [], end);
    Then(stored, Begin(b), [Read(1)], asked);
    FirstCall(ranking, a, [Begin(b), Read(1)]);
  }

  /** A call for `a` rows loads the cache. */
  lemma FirstCall(ranking: seq<Row>, a: nat, more: seq<Step>)
    requires 0 < a < |ranking|
    requires IsRun(TopScores, State([ranking], 0, Cache(Snapshot(ranking[..a], 0), 0, true, false),
                                    [Call(a, Returned(Ok(Snapshot(ranking[..a], 0))))]), more)
    ensures exists from, steps :: && IsInitial(from) && IsRun(TopScores, from, steps)
              && After(TopScores, from, steps) ==
                 After(TopScores, State([ranking], 0, Cache(Snapshot(ranking[..a], 0), 0, true, false),
                                        [Call(a, Returned(Ok(Snapshot(ranking[..a], 0))))]), more)
  {
    var got := Snapshot(ranking[..a], 0);
    var s := State([ranking], 0, Cache(Snapshot([], 0), 0, false, false), []);
    var up := s.cache.(refreshing := true);
    var s1 := s.(calls := [Call(a, Entering)]);
    var s2 := s.(calls := [Call(a, Refreshing)]);
    var s3 := s.(calls := [Call(a, Fetching)], cache := up);
    var s4 := s.(calls := [Call(a, Storing(got))], cache := up);
    var s5 := s.(calls := [Call(a, Releasing(Ok(got)))], cache := Cache(got, 0, true, true));
    var s6 := s.(calls := [Call(a, Returned(Ok(got)))], cache := Cache(got, 0, true, false));
    assert Query(TopScores, s.history, a) == got;
    Then(s5, Release(0), more, s6);
    Then(s4, Store(0), [Release(0)] + more, s5);
    Then(s3, Fetch(0, true), [Store(0)] + ([Release(0)] + more), s4);
    Then(s2, TryRefresh(0), [Fetch(0, true)] + ([Store(0)] + ([Release(0)] + more)), s3);
    Then(s1, Read(0), [TryRefresh(0)] + ([Fetch(0, true)] + ([Store(0)] + ([Release(0)] + more))), s2);
    Then(s, Begin(a), [Read(0)] + ([TryRefresh(0)] + ([Fetch(0, true)] + ([Store(0)] + ([Release(0)] + more)))), s1);
  }

  lemma Then(s: State, step: Step, more: seq<Step>, t: State)
    requires Enabled(s, step) && Apply(TopScores, s, step) == t && IsRun(TopScores, t, more)
    ensures IsRun(TopScores, s, [step] + more) && After(TopScores, s, [step] + more) == After(TopScores, t, more)
  {
    assert ([step] + more)[1..] == more;
  }
}
