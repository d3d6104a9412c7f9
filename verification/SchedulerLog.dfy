/** What the log of the scheduler tells about each turn, failed or not, and how its periods follow on each other. */
module SchedulerLog {
  import opened Wrappers
  import opened Scheduler

  /** The row names the subscription, its whole period and, unless the query failed, the number of reports. */
  predicate Tells(row: LogRow, sub: Subscription, turn: Turn) {
    && row.id == sub.id && row.start == sub.Since() && row.end == turn.periodEnd
    && row.count == (if turn.fate.QueryFails? then 0 else |turn.rows|)
    && (row.sent <==> turn.fate.Sends?)
  }

  /** A turn adds its row and, only if it is sent, its mail; a failed one writes nothing else. */
  lemma TurnIsLogged(b: Books, sub: Subscription, turn: Turn)
    requires turn.logged
    ensures var c := AfterTurn(b, sub, turn);
            && |c.log| == |b.log| + 1 && c.log[..|b.log|] == b.log && Tells(c.log[|b.log|], sub, turn)
            && |c.mails| == |b.mails| + (if turn.fate.Sends? then 1 else 0) && b.mails <= c.mails
            && (!turn.fate.Sends? ==> c.subs == b.subs)
  {
  }

  /** `log` has one more row than `before` for each turn, in order. */
  ghost predicate TellAll(before: seq<LogRow>, log: seq<LogRow>, subs: seq<Subscription>, turns: seq<Turn>)
    requires |subs| == |turns|
  {
    && |log| == |before| + |subs| && log[..|before|] == before
    && forall i | 0 <= i < |subs| :: Tells(log[|before| + i], subs[i], turns[i])
  }

  lemma OneMoreRow(before: seq<LogRow>, log: seq<LogRow>, row: LogRow, subs: seq<Subscription>, turns: seq<Turn>,
                   n: nat)
    requires |subs| == |turns| == n + 1
    requires TellAll(before, log, subs[..n], turns[..n]) && Tells(row, subs[n], turns[n])
    ensures TellAll(before, log + [row], subs, turns)
  {
    var all := log + [row];
    assert all[..|before|] == log[..|before|];
    forall i | 0 <= i < n + 1
      ensures Tells(all[|before| + i], subs[i], turns[i])
    {
      assert all[|before| + i] == if i < n then log[|before| + i] else row;
      if i < n { assert subs[..n][i] == subs[i] && turns[..n][i] == turns[i]; }
    }
  }

  /** A run's rows are its turns. */
  lemma {:induction false} RunIsLogged(b: Books, subs: seq<Subscription>, turns: seq<Turn>)
    requires |subs| == |turns| && forall t | t in turns :: t.logged
    ensures TellAll(b.log, AfterTurns(b, subs, turns).log, subs, turns)
  {
    if subs != [] {
      var n := |subs| - 1;
      assert turns[n] in turns;
      RunIsLogged(b, subs[..n], turns[..n]);
      var d := AfterTurns(b, subs[..n], turns[..n]);
      var c := AfterTurn(d, subs[n], turns[n]);
      TurnIsLogged(d, subs[n], turns[n]);
      assert c.log == d.log + [c.log[|d.log|]];
      OneMoreRow(b.log, d.log, c.log[|d.log|], subs, turns, n);
    }
  }

  // ---------------------------------------------------------------- the chain of logged periods

  /** Where the next period of a subscription starts, by the log: where the last one ended if that was sent, and
      where it started if not. */
  function NextStart(log: seq<LogRow>, id: nat, createdAt: nat): nat {
    if log == [] then createdAt
    else
      var last := log[|log| - 1];
      if last.id != id then NextStart(log[..|log| - 1], id, createdAt) else if last.sent then last.end else last.start
  }

  predicate PeriodsFollow(log: seq<LogRow>, id: nat, createdAt: nat) {
    log == [] ||
    (&& PeriodsFollow(log[..|log| - 1], id, createdAt)
     && (log[|log| - 1].id == id ==> log[|log| - 1].start == NextStart(log[..|log| - 1], id, createdAt)))
  }

  ghost predicate InStep(b: Books, id: nat) {
    && id in b.subs && b.subs[id].id == id
    && PeriodsFollow(b.log, id, b.subs[id].createdAt)
    && b.subs[id].Since() == NextStart(b.log, id, b.subs[id].createdAt)
  }

  /** Every turn is logged, and `last_report_at` is written after every mail. */
  predicate Recorded(turn: Turn) { turn.logged && turn.fate != Sends(false) }

  ghost predicate AllRecorded(e: Event) { e.Run? ==> forall t | t in e.turns :: Recorded(t) }

  lemma TurnKeepsStep(b: Books, sub: Subscription, turn: Turn, id: nat)
    requires InStep(b, id) && sub.id in b.subs && b.subs[sub.id] == sub && Recorded(turn)
    ensures InStep(AfterTurn(b, sub, turn), id)
  {
    TurnIsLogged(b, sub, turn);
  }

  lemma {:induction false} RunKeepsStep(b: Books, subs: seq<Subscription>, turns: seq<Turn>, n: nat, id: nat)
    requires InStep(b, id) && AreActive(b.subs, subs) && |subs| == |turns| && n <= |subs|
    requires forall t | t in turns :: Recorded(t)
    ensures InStep(AfterTurns(b, subs[..n], turns[..n]), id)
  {
    if n > 0 {
      var m := n - 1;
      RunKeepsStep(b, subs, turns, m, id);
      ListedAsStored(b, subs, turns, m);
      assert subs[..n][..m] == subs[..m] && turns[..n][..m] == turns[..m];
      TurnKeepsStep(AfterTurns(b, subs[..m], turns[..m]), subs[m], turns[m], id);
    }
  }

  ghost predicate LogKnown(b: Books) { forall row | row in b.log :: row.id in b.subs }

  lemma {:induction false} RunLogKnown(b: Books, subs: seq<Subscription>, turns: seq<Turn>)
    requires |subs| == |turns| && LogKnown(b) && forall sub | sub in subs :: sub.id in b.subs
    ensures LogKnown(AfterTurns(b, subs, turns))
  {
    if subs != [] {
      var n := |subs| - 1;
      RunLogKnown(b, subs[..n], turns[..n]);
      OnlySubscribeAdds(b, subs[..n], turns[..n], subs[n].id);
      assert subs[n] in subs;
    }
  }

  lemma {:induction false} NoRowsYet(log: seq<LogRow>, id: nat, createdAt: nat)
    requires forall row | row in log :: row.id != id
    ensures PeriodsFollow(log, id, createdAt) && NextStart(log, id, createdAt) == createdAt
  {
    if log != [] { NoRowsYet(log[..|log| - 1], id, createdAt); }
  }

  lemma EventKeepsStep(world: set<Report>, b: Books, e: Event, id: nat)
    requires CanHappen(world, b, e) && LogKnown(b) && AllRecorded(e) && (id in b.subs ==> InStep(b, id))
    ensures LogKnown(Happened(b, e))
    ensures id in Happened(b, e).subs ==> InStep(Happened(b, e), id)
  {
    if e.Run? && e.list.Some? {
      var subs, turns := e.list.value, e.turns;
      assert forall sub | sub in subs :: sub.id in b.subs;
      assert subs[..|subs|] == subs && turns[..|subs|] == turns;
      RunLogKnown(b, subs, turns);
      OnlySubscribeAdds(b, subs, turns, id);
      if id in b.subs { RunKeepsStep(b, subs, turns, |subs|, id); }
    } else if e.Subscribe? && e.id == id {
      NoRowsYet(b.log, id, b.clock);
    }
  }

  lemma {:induction false} HistoryKeepsStep(world: set<Report>, b: Books, es: seq<Event>, id: nat)
    requires IsHistory(world, b, es) && LogKnown(b) && (id in b.subs ==> InStep(b, id))
    requires forall e | e in es :: AllRecorded(e)
    ensures id in AfterAll(world, b, es).subs ==> InStep(AfterAll(world, b, es), id)
    decreases |es|
  {
    if es != [] {
      assert es[0] in es && forall e | e in es[1..] :: e in es;
      EventKeepsStep(world, b, es[0], id);
      HistoryKeepsStep(world, Happened(b, es[0]), es[1..], id);
    }
  }

  predicate IsRowOf(log: seq<LogRow>, i: int, id: nat) { 0 <= i < |log| && log[i].id == id }

  lemma NoneBetween(log: seq<LogRow>, n: nat, i: int, k: int, id: nat)
    requires n <= |log| && k <= n && forall j | i < j < k :: !IsRowOf(log, j, id)
    ensures forall j | i < j < k :: !IsRowOf(log[..n], j, id)
  {
    forall j | i < j < k
      ensures !IsRowOf(log[..n], j, id)
    {
      assert !IsRowOf(log, j, id);
    }
  }

  lemma {:induction false} NextRowStarts(log: seq<LogRow>, id: nat, createdAt: nat, i: nat, k: nat)
    requires PeriodsFollow(log, id, createdAt) && i < k && IsRowOf(log, i, id) && IsRowOf(log, k, id)
    requires forall j | i < j < k :: !IsRowOf(log, j, id)
    ensures log[k].start == if log[i].sent then log[i].end else log[i].start
  {
    var n := |log| - 1;
    if k < n {
      NoneBetween(log, n, i, k, id);
      NextRowStarts(log[..n], id, createdAt, i, k);
    } else {
      NoneBetween(log, n, i, n, id);
      LastRowDecides(log[..n], id, createdAt, i);
    }
  }

  lemma {:induction false} LastRowDecides(log: seq<LogRow>, id: nat, createdAt: nat, i: nat)
    requires IsRowOf(log, i, id) && forall j | i < j < |log| :: !IsRowOf(log, j, id)
    ensures NextStart(log, id, createdAt) == if log[i].sent then log[i].end else log[i].start
  {
    var n := |log| - 1;
    if i < n {
      NoneBetween(log, n, i, n, id);
      assert !IsRowOf(log, n, id);
      LastRowDecides(log[..n], id, createdAt, i);
    }
  }

  /** Over every history in which all turns are recorded: the next period of a subscription starts where its last one
      ended if that was sent, and where it started if it failed, whatever failed; and the next one to come does so. */
  lemma FailedPeriodsAreRetried(world: set<Report>, start: Books, es: seq<Event>, id: nat, i: nat, k: nat)
    requires IsStart(start) && IsHistory(world, start, es) && forall e | e in es :: AllRecorded(e)
    requires var b := AfterAll(world, start, es);
             id in b.subs && i < k <= |b.log| && IsRowOf(b.log, i, id) && forall j | i < j < k :: !IsRowOf(b.log, j, id)
    ensures var b := AfterAll(world, start, es);
            var next := if b.log[i].sent then b.log[i].end else b.log[i].start;
            if k == |b.log| then b.subs[id].Since() == next else IsRowOf(b.log, k, id) ==> b.log[k].start == next
  {
    var b := AfterAll(world, start, es);
    HistoryKeepsStep(world, start, es, id);
    var createdAt := b.subs[id].createdAt;
    if k == |b.log| {
      LastRowDecides(b.log, id, createdAt, i);
    } else if IsRowOf(b.log, k, id) {
      NextRowStarts(b.log, id, createdAt, i, k);
    }
  }
}
