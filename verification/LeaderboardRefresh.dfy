/** What a refresh brings: the newest ranking, into the cache and to its caller. */
module LeaderboardRefresh {
  import opened LeaderboardCache

  /** The tables' present content, or the front of it that a call for top scores asked for. */
  ghost predicate IsNewest(kind: Kind, s: State, value: Snapshot, count: nat) {
    s.history != [] &&
    var all := s.history[|s.history| - 1];
    && value.version == |s.history| - 1
    && value.rows <= all
    && |value.rows| == if kind.TopScores? && count < |all| then count else |all|
  }

  lemma QueryIsNewest(kind: Kind, s: State, count: nat)
    requires s.history != []
    ensures IsNewest(kind, s, Query(kind, s.history, count), count)
  {
  }

  // ---------------------------------------------------------------- a refresh by itself

  function RefreshSteps(c: nat): seq<Step> { [TryRefresh(c), Fetch(c, true), Store(c), Release(c)] }

  /** Nothing but the cache and the call differs, the flag is down, and both hold the newest ranking. */
  ghost predicate Refreshed(kind: Kind, s: State, c: nat, t: State) {
    && c < |s.calls| && |t.calls| == |s.calls| && t.history == s.history && t.time == s.time
    && t.cache.loaded && !t.cache.refreshing && t.cache.lastLoaded == s.time
    && IsNewest(kind, s, t.cache.value, s.calls[c].count)
    && t.calls[c] == Call(s.calls[c].count, Returned(Ok(t.cache.value)))
    && forall d | 0 <= d < |s.calls| && d != c :: t.calls[d] == s.calls[d]
  }

  lemma Then(kind: Kind, s: State, step: Step, more: seq<Step>, t: State)
    requires Enabled(s, step) && Apply(kind, s, step) == t && IsRun(kind, t, more)
    ensures IsRun(kind, s, [step] + more) && After(kind, s, [step] + more) == After(kind, t, more)
  {
    assert ([step] + more)[1..] == more;
  }

  /** From any state with the flag down, a refresh whose query succeeds loads the newest ranking and returns it. */
  lemma RefreshLoads(kind: Kind, s: State, c: nat)
    requires s.history != [] && At(s, c, Refreshing) && !s.cache.refreshing
    ensures IsRun(kind, s, RefreshSteps(c))
    ensures Refreshed(kind, s, c, After(kind, s, RefreshSteps(c)))
  {
    var s1 := Apply(kind, s, TryRefresh(c));
    var s2 := Apply(kind, s1, Fetch(c, true));
    var s3 := Apply(kind, s2, Store(c));
    var s4 := Apply(kind, s3, Release(c));
    QueryIsNewest(kind, s, s.calls[c].count);
    assert Refreshed(kind, s, c, s4);
    Then(kind, s3, Release(c), [], s4);
    Then(kind, s2, Store(c), [Release(c)], s3);
    Then(kind, s1, Fetch(c, true), [Store(c)] + [Release(c)], s2);
    Then(kind, s, TryRefresh(c), [Fetch(c, true)] + ([Store(c)] + [Release(c)]), s1);
    assert RefreshSteps(c) == [TryRefresh(c)] + ([Fetch(c, true)] + ([Store(c)] + [Release(c)]));
  }

  /** What a read finds usable although it is old: anything for the teams, any row for the top scores. */
  ghost predicate Usable(kind: Kind, s: State) {
    s.cache.loaded && (kind.TopScores? ==> s.cache.value.rows != [])
  }

  /** Young, and long enough. */
  ghost predicate Young(kind: Kind, s: State, count: nat) {
    s.cache.loaded && s.time - s.cache.lastLoaded < 120 && (kind.TopScores? ==> |s.cache.value.rows| >= count)
  }

  /** What the cache gives a call for `count` rows. */
  ghost predicate IsCached(kind: Kind, s: State, value: Snapshot, count: nat) {
    && value.version == s.cache.value.version && value.rows <= s.cache.value.rows
    && |value.rows| == if kind.TopScores? && count < |s.cache.value.rows| then count else |s.cache.value.rows|
  }

  /** A read answers from the cache at once exactly if the value is usable or young, and starts a call in the
      background exactly if the value is usable, not young, and no refresh is under way; the cache stays as it is. */
  lemma ReadAnswers(kind: Kind, s: State, c: nat)
    requires Reachable(kind, s) && At(s, c, Entering)
    ensures var t, count := Apply(kind, s, Read(c)), s.calls[c].count;
            && t.cache == s.cache && t.history == s.history && t.time == s.time
            && (if Usable(kind, s) || Young(kind, s, count)
                then t.calls[c].phase.Returned? && t.calls[c].phase.result.Ok?
                     && IsCached(kind, s, t.calls[c].phase.result.value, count)
                else t.calls[c].phase.Refreshing?)
            && |t.calls| ==
               |s.calls| + (if Usable(kind, s) && !Young(kind, s, count) && !s.cache.refreshing then 1 else 0)
            && (|t.calls| > |s.calls| ==> t.calls[|s.calls|] == Call(count, Spawned))
  {
    ReachableInv(kind, s);
    assert CallOk(kind, s, s.calls[c]);
  }

  /** A stale read returns the old value and starts a call that, connected, puts the newest ranking in its place. */
  lemma StaleReadRefreshes(kind: Kind, s: State, c: nat)
    requires Reachable(kind, s) && At(s, c, Entering)
    requires Usable(kind, s) && !Young(kind, s, s.calls[c].count) && !s.cache.refreshing
    ensures var n, steps := |s.calls|, [Read(c), Connect(|s.calls|, true)] + RefreshSteps(|s.calls|);
            && IsRun(kind, s, steps)
            && var t := After(kind, s, steps);
               && |t.calls| == n + 1 && t.history == s.history
               && t.cache.loaded && !t.cache.refreshing && t.cache.lastLoaded == s.time
               && IsNewest(kind, s, t.cache.value, s.calls[c].count)
               && t.calls[c].phase.Returned? && t.calls[c].phase.result.Ok?
               && IsCached(kind, s, t.calls[c].phase.result.value, s.calls[c].count)
  {
    var n := |s.calls|;
    ReachableInv(kind, s);
    ReadAnswers(kind, s, c);
    var s1 := Apply(kind, s, Read(c));
    var s2 := Apply(kind, s1, Connect(n, true));
    RefreshLoads(kind, s2, n);
    Then(kind, s1, Connect(n, true), RefreshSteps(n), s2);
    Then(kind, s, Read(c), [Connect(n, true)] + RefreshSteps(n), s1);
    assert [Read(c), Connect(n, true)] + RefreshSteps(n) == [Read(c)] + ([Connect(n, true)] + RefreshSteps(n));
  }

  /** With nothing usable and no refresh under way, the read itself refreshes and returns the newest ranking. */
  lemma EmptyReadRefreshes(kind: Kind, s: State, c: nat)
    requires Reachable(kind, s) && At(s, c, Entering)
    requires !Usable(kind, s) && !Young(kind, s, s.calls[c].count) && !s.cache.refreshing
    ensures IsRun(kind, s, [Read(c)] + RefreshSteps(c))
    ensures Refreshed(kind, s, c, After(kind, s, [Read(c)] + RefreshSteps(c)))
  {
    ReachableInv(kind, s);
    ReadAnswers(kind, s, c);
    var s1 := Apply(kind, s, Read(c));
    RefreshLoads(kind, s1, c);
    Then(kind, s, Read(c), RefreshSteps(c), s1);
    assert Refreshed(kind, s, c, After(kind, s1, RefreshSteps(c)));
  }

  /** While another call refreshes, a call answers from a usable cache, or else with the newest ranking, which it
      does not store. */
  lemma WhileRefreshing(kind: Kind, s: State, c: nat)
    requires Reachable(kind, s) && At(s, c, Refreshing) && s.cache.refreshing
    ensures var t, count := Apply(kind, s, TryRefresh(c)), s.calls[c].count;
            t.cache == s.cache &&
            if Usable(kind, s)
            then t.calls[c].phase.Returned? && t.calls[c].phase.result.Ok?
                 && IsCached(kind, s, t.calls[c].phase.result.value, count)
            else
              && Enabled(t, FetchAlone(c, true))
              && var u := Apply(kind, t, FetchAlone(c, true));
                 && u.cache == s.cache && u.calls[c].phase.Returned? && u.calls[c].phase.result.Ok?
                 && IsNewest(kind, s, u.calls[c].phase.result.value, count)
  {
    ReachableInv(kind, s);
    assert CallOk(kind, s, s.calls[c]);
  }

  // ---------------------------------------------------------------- among other calls

  /** The refresh of call `c`, begun at version `v` and time `t0`, is still to query, or what it queried is newer, and
      once stored, so is all that is cached later. */
  ghost predicate Brings(s: State, c: nat, v: nat, t0: nat) {
    && c < |s.calls| && v < |s.history| && t0 <= s.time
    && match s.calls[c].phase
       case Fetching => true
       case Storing(value) => v <= value.version
       case Releasing(result) => result.Ok? ==> HasBrought(s, result.value, v, t0)
       case Returned(result) => result.Ok? ==> HasBrought(s, result.value, v, t0)
       case _ => false
  }

  ghost predicate HasBrought(s: State, value: Snapshot, v: nat, t0: nat) {
    v <= value.version && s.cache.loaded && v <= s.cache.value.version && t0 <= s.cache.lastLoaded
  }

  lemma BringsStep(kind: Kind, s: State, step: Step, c: nat, v: nat, t0: nat)
    requires Inv(kind, s) && Brings(s, c, v, t0) && Enabled(s, step)
    ensures Brings(Apply(kind, s, step), c, v, t0)
  {
    OthersStay(kind, s, step);
    HistoryGrows(kind, s, step);
    if step.Store? { assert CallOk(kind, s, s.calls[step.call]); }
  }

  lemma {:induction false} BringsRun(kind: Kind, s: State, steps: seq<Step>, c: nat, v: nat, t0: nat)
    requires Inv(kind, s) && Brings(s, c, v, t0) && IsRun(kind, s, steps)
    ensures Brings(After(kind, s, steps), c, v, t0)
    decreases |steps|
  {
    if steps != [] {
      BringsStep(kind, s, steps[0], c, v, t0);
      InvStep(kind, s, steps[0]);
      BringsRun(kind, Apply(kind, s, steps[0]), steps[1..], c, v, t0);
    }
  }

  /** Whatever else happens before, in between and afterwards: once a refresh that raised the flag has returned
      without an error, its answer and the cache are at least as new as the tables were when it began. */
  lemma RefreshIsSeen(kind: Kind, s: State, c: nat, steps: seq<Step>)
    requires Reachable(kind, s) && At(s, c, Refreshing) && !s.cache.refreshing
    requires IsRun(kind, Apply(kind, s, TryRefresh(c)), steps)
    ensures var t := After(kind, Apply(kind, s, TryRefresh(c)), steps);
            c < |t.calls| &&
            (t.calls[c].phase.Returned? && t.calls[c].phase.result.Ok? ==>
               && |s.history| - 1 <= t.calls[c].phase.result.value.version
               && t.cache.loaded && |s.history| - 1 <= t.cache.value.version && s.time <= t.cache.lastLoaded)
  {
    ReachableInv(kind, s);
    InvStep(kind, s, TryRefresh(c));
    BringsRun(kind, Apply(kind, s, TryRefresh(c)), steps, c, |s.history| - 1, s.time);
  }
}
