/** The report windows of detail subscriptions: a scheduler run queries, mails and records, for each active
    subscription, the reports since the last one that was mailed. */
module Scheduler {
  import opened Wrappers

  const MAX_ROWS: nat := 10000

  /** A report with its timestamp, the time from which the query sees it (its analysis may come later), and
      the areas that the query finds it in. */
  datatype Report = Report(seqNo: nat, ts: nat, visibleAt: nat, areas: set<nat>)

  datatype Subscription = Subscription(id: nat, area: nat, createdAt: nat, lastReportAt: Option<nat>, active: bool) {
    function Since(): nat { if lastReportAt.Some? then lastReportAt.value else createdAt }
  }

  datatype LogRow = LogRow(id: nat, count: nat, start: nat, end: nat, sent: bool)

  /** A report that was mailed: its period, when the query ran, and the rows in it. */
  datatype Mail = Mail(id: nat, area: nat, start: nat, end: nat, queriedAt: nat, rows: seq<Report>)

  /** The two tables that the scheduler writes, the mails it has sent, and the time. */
  datatype Books = Books(subs: map<nat, Subscription>, log: seq<LogRow>, mails: seq<Mail>, clock: nat)

  /** What one subscription's turn comes to; `updated` says whether `last_report_at` could be written. */
  datatype Fate = QueryFails | PdfFails | SendFails | Sends(updated: bool)

  datatype Turn = Turn(periodEnd: nat, queriedAt: nat, rows: seq<Report>, fate: Fate, logged: bool)

  // ---------------------------------------------------------------- the query

  ghost predicate Matches(world: set<Report>, area: nat, since: nat, time: nat, r: Report) {
    r in world && area in r.areas && r.ts > since && r.visibleAt <= time
  }

  /** The newest matching reports, at most 10000 of them. */
  ghost predicate IsResult(world: set<Report>, area: nat, since: nat, time: nat, rows: seq<Report>) {
    && (forall r | r in rows :: Matches(world, area, since, time, r))
    && (forall i, j | 0 <= i < j < |rows| :: rows[i] != rows[j] && rows[i].ts >= rows[j].ts)
    && |rows| <= MAX_ROWS
    && (forall r | Matches(world, area, since, time, r) && r !in rows ::
          |rows| == MAX_ROWS && forall q | q in rows :: q.ts >= r.ts)
  }

  // ---------------------------------------------------------------- a turn, as a function

  function Logged(b: Books, turn: Turn, row: LogRow): Books {
    if turn.logged then b.(log := b.log + [row]) else b
  }

  /** The turn of `sub`, as it was when the run began. */
  function AfterTurn(b: Books, sub: Subscription, turn: Turn): Books {
    var b := b.(clock := turn.queriedAt);
    var since := sub.Since();
    match turn.fate
    case QueryFails => Logged(b, turn, LogRow(sub.id, 0, since, turn.periodEnd, false))
    case PdfFails => Logged(b, turn, LogRow(sub.id, |turn.rows|, since, turn.periodEnd, false))
    case SendFails => Logged(b, turn, LogRow(sub.id, |turn.rows|, since, turn.periodEnd, false))
    case Sends(updated) =>
      var b := b.(mails := b.mails + [Mail(sub.id, sub.area, since, turn.periodEnd, turn.queriedAt, turn.rows)]);
      var b := if updated && sub.id in b.subs
        then b.(subs := b.subs[sub.id := b.subs[sub.id].(lastReportAt := Some(turn.periodEnd))])
        else b;
      Logged(b, turn, LogRow(sub.id, |turn.rows|, since, turn.periodEnd, true))
  }

  function AfterTurns(b: Books, subs: seq<Subscription>, turns: seq<Turn>): Books
    requires |subs| == |turns|
  {
    if subs == [] then b
    else
      var n := |subs| - 1;
      AfterTurn(AfterTurns(b, subs[..n], turns[..n]), subs[n], turns[n])
  }

  /** Time does not run backwards during a turn, and the query's result is right. */
  ghost predicate IsTurn(world: set<Report>, clock: nat, sub: Subscription, turn: Turn) {
    && clock <= turn.periodEnd <= turn.queriedAt
    && (!turn.fate.QueryFails? ==> IsResult(world, sub.area, sub.Since(), turn.queriedAt, turn.rows))
  }

  function ClockAfter(clock: nat, turns: seq<Turn>): nat {
    if turns == [] then clock else turns[|turns| - 1].queriedAt
  }

  ghost predicate AreTurns(world: set<Report>, clock: nat, subs: seq<Subscription>, turns: seq<Turn>) {
    && |turns| == |subs|
    && forall i | 0 <= i < |subs| :: IsTurn(world, ClockAfter(clock, turns[..i]), subs[i], turns[i])
  }

  /** Each active subscription, once. */
  ghost predicate AreActive(subs: map<nat, Subscription>, list: seq<Subscription>) {
    && (forall i | 0 <= i < |list| :: list[i].id in subs && subs[list[i].id] == list[i] && list[i].active)
    && (forall i, j | 0 <= i < j < |list| :: list[i].id != list[j].id)
    && (forall id | id in subs && subs[id].active :: subs[id] in list)
  }

  function SentIn(turns: seq<Turn>): nat {
    if turns == [] then 0 else SentIn(turns[..|turns| - 1]) + (if turns[|turns| - 1].fate.Sends? then 1 else 0)
  }

  class ReportScheduler {
    var subs: map<nat, Subscription>
    var log: seq<LogRow>
    var mails: seq<Mail>
    var clock: nat

    function Now(): Books reads this { Books(subs, log, mails, clock) }

    /** One run: `list` is what the query for active subscriptions gives, unless it fails. */
    method ProcessAllSubscriptions(list: Option<seq<Subscription>>, turns: seq<Turn>)
      returns (sent: nat, failed: nat)
      requires list.Some? ==> |turns| == |list.value|
      modifies this
      ensures Now() == if list.None? then old(Now()) else AfterTurns(old(Now()), list.value, turns)
      ensures if list.None? then sent == failed == 0 else sent == SentIn(turns) && sent + failed == |turns|
    {
      sent, failed := 0, 0;
      if list.None? || |list.value| == 0 { return; }
      ghost var start := Now();
      for i := 0 to |list.value|
        invariant sent == SentIn(turns[..i]) && sent + failed == i
        invariant Now() == AfterTurns(start, list.value[..i], turns[..i])
      {
        assert list.value[..i + 1][..i] == list.value[..i] && turns[..i + 1][..i] == turns[..i];
        var sub, turn := list.value[i], turns[i];
        var since := sub.createdAt;
        if sub.lastReportAt.Some? { since := sub.lastReportAt.value; }
        clock := turn.queriedAt;
        if turn.fate.QueryFails? {
          LogSubscriptionReport(turn, LogRow(sub.id, 0, since, turn.periodEnd, false));
          failed := failed + 1;
        } else if !turn.fate.Sends? {
          LogSubscriptionReport(turn, LogRow(sub.id, |turn.rows|, since, turn.periodEnd, false));
          failed := failed + 1;
        } else {
          mails := mails + [Mail(sub.id, sub.area, since, turn.periodEnd, turn.queriedAt, turn.rows)];
          if turn.fate.updated && sub.id in subs {
            subs := subs[sub.id := subs[sub.id].(lastReportAt := Some(turn.periodEnd))];
          }
          LogSubscriptionReport(turn, LogRow(sub.id, |turn.rows|, since, turn.periodEnd, true));
          sent := sent + 1;
        }
      }
      assert list.value[..|list.value|] == list.value && turns[..|list.value|] == turns;
    }

    /** A row that cannot be written is dropped. */
    method LogSubscriptionReport(turn: Turn, row: LogRow)
      modifies this
      ensures Now() == Logged(old(Now()), turn, row)
    {
      if turn.logged { log := log + [row]; }
    }
  }

  // ---------------------------------------------------------------- invariant of a subscription

  ghost predicate MailedTo(mails: seq<Mail>, id: nat, r: Report) {
    exists m :: m in mails && m.id == id && r in m.rows
  }

  /** Below the row limit, so that nothing was cut off. */
  ghost predicate Uncut(mails: seq<Mail>, id: nat) { forall m | m in mails && m.id == id :: |m.rows| < MAX_ROWS }

  /** Every report of the area that was visible from its timestamp is mailed up to `Since()`. */
  ghost predicate Covered(world: set<Report>, b: Books, id: nat) {
    && id in b.subs && b.subs[id].id == id && b.subs[id].createdAt <= b.subs[id].Since() <= b.clock
    && (Uncut(b.mails, id) ==>
          forall r | r in world && b.subs[id].area in r.areas && r.visibleAt <= r.ts &&
                     b.subs[id].createdAt < r.ts <= b.subs[id].Since() :: MailedTo(b.mails, id, r))
  }

  lemma OwnTurnCovers(world: set<Report>, b: Books, turn: Turn, id: nat)
    requires Covered(world, b, id) && IsTurn(world, b.clock, b.subs[id], turn)
    ensures Covered(world, AfterTurn(b, b.subs[id], turn), id)
  {
    var c := AfterTurn(b, b.subs[id], turn);
    var sub := b.subs[id];
    if turn.fate.Sends? && Uncut(c.mails, id) {
      var mail := c.mails[|b.mails|];
      assert mail in c.mails;
      assert forall m | m in b.mails :: m in c.mails;
      forall r | r in world && sub.area in r.areas && r.visibleAt <= r.ts && sub.createdAt < r.ts <= c.subs[id].Since()
        ensures MailedTo(c.mails, id, r)
      {
        if r.ts > sub.Since() {
          assert Matches(world, sub.area, sub.Since(), turn.queriedAt, r);
        }
      }
    }
  }

  lemma OtherTurnCovers(world: set<Report>, b: Books, sub: Subscription, turn: Turn, id: nat)
    requires Covered(world, b, id) && sub.id != id && b.clock <= turn.periodEnd <= turn.queriedAt
    ensures Covered(world, AfterTurn(b, sub, turn), id)
    ensures AfterTurn(b, sub, turn).subs[id] == b.subs[id]
  {
    var c := AfterTurn(b, sub, turn);
    assert forall m | m in b.mails :: m in c.mails;
  }

  // ---------------------------------------------------------------- the chain of periods

  /** Where the last mailed period of a subscription ends. */
  function EndOf(mails: seq<Mail>, id: nat, createdAt: nat): nat {
    if mails == [] then createdAt
    else if mails[|mails| - 1].id == id then mails[|mails| - 1].end
    else EndOf(mails[..|mails| - 1], id, createdAt)
  }

  ghost predicate Queried(mails: seq<Mail>, id: nat, time: nat) {
    forall m | m in mails && m.id == id :: m.queriedAt <= time
  }

  /** Each period starts where the last one ended, and holds what its query gave, later than the last query. */
  ghost predicate Chain(world: set<Report>, mails: seq<Mail>, id: nat, area: nat, createdAt: nat) {
    mails == [] ||
    var before, last := mails[..|mails| - 1], mails[|mails| - 1];
    && Chain(world, before, id, area, createdAt)
    && (last.id == id ==>
          && last.start == EndOf(before, id, createdAt) <= last.end <= last.queriedAt
          && IsResult(world, area, last.start, last.queriedAt, last.rows)
          && Queried(before, id, last.end))
  }

  ghost predicate Linked(world: set<Report>, b: Books, id: nat) {
    && id in b.subs
    && var sub := b.subs[id];
       && sub.Since() == EndOf(b.mails, id, sub.createdAt)
       && Chain(world, b.mails, id, sub.area, sub.createdAt)
       && Queried(b.mails, id, b.clock)
  }

  lemma {:induction false} NoMailsYet(world: set<Report>, mails: seq<Mail>, id: nat, area: nat, createdAt: nat)
    requires forall m | m in mails :: m.id != id
    ensures Chain(world, mails, id, area, createdAt) && EndOf(mails, id, createdAt) == createdAt
  {
    if mails != [] { NoMailsYet(world, mails[..|mails| - 1], id, area, createdAt); }
  }

  lemma OwnTurnLinks(world: set<Report>, b: Books, turn: Turn, id: nat)
    requires Covered(world, b, id) && Linked(world, b, id)
    requires IsTurn(world, b.clock, b.subs[id], turn) && turn.fate != Sends(false)
    ensures Linked(world, AfterTurn(b, b.subs[id], turn), id)
  {
    var c := AfterTurn(b, b.subs[id], turn);
    if turn.fate.Sends? {
      assert c.mails[..|b.mails|] == b.mails;
    }
  }

  lemma OtherTurnLinks(world: set<Report>, b: Books, sub: Subscription, turn: Turn, id: nat)
    requires Linked(world, b, id) && sub.id != id && b.clock <= turn.periodEnd <= turn.queriedAt
    ensures Linked(world, AfterTurn(b, sub, turn), id)
  {
    var c := AfterTurn(b, sub, turn);
    if turn.fate.Sends? {
      assert c.mails[..|b.mails|] == b.mails;
    }
  }

  lemma {:induction false} ChainEnds(world: set<Report>, mails: seq<Mail>, id: nat, area: nat, createdAt: nat, m: Mail)
    requires Chain(world, mails, id, area, createdAt)
    ensures createdAt <= EndOf(mails, id, createdAt)
    ensures m in mails && m.id == id ==> createdAt <= m.start <= m.end <= EndOf(mails, id, createdAt)
  {
    if mails != [] {
      ChainEnds(world, mails[..|mails| - 1], id, area, createdAt, m);
      assert mails == mails[..|mails| - 1] + [mails[|mails| - 1]];
    }
  }

  predicate Spans(mails: seq<Mail>, i: int, id: nat, time: nat) {
    0 <= i < |mails| && mails[i].id == id && mails[i].start < time <= mails[i].end
  }

  /** The mailed periods cover the time since the subscription without a gap and without an overlap. */
  lemma {:induction false} OnePeriodSpans(world: set<Report>, mails: seq<Mail>, id: nat, area: nat, createdAt: nat,
                                          time: nat)
    returns (i: nat)
    requires Chain(world, mails, id, area, createdAt) && createdAt < time <= EndOf(mails, id, createdAt)
    ensures Spans(mails, i, id, time) && forall j | Spans(mails, j, id, time) :: j == i
  {
    var n := |mails| - 1;
    var before := mails[..n];
    if mails[n].id == id && mails[n].start < time {
      i := n;
      forall j | Spans(mails, j, id, time)
        ensures j == n
      {
        if j < n {
          assert before[j] in before;
          ChainEnds(world, before, id, area, createdAt, before[j]);
          assert false;
        }
      }
    } else {
      i := OnePeriodSpans(world, before, id, area, createdAt, time);
      assert forall j | Spans(mails, j, id, time) :: Spans(before, j, id, time);
    }
  }

  lemma {:induction false} MailedIfSeenInTime(world: set<Report>, mails: seq<Mail>, id: nat, area: nat, createdAt: nat,
                                              r: Report, i: nat)
    requires Chain(world, mails, id, area, createdAt) && Uncut(mails, id) && Spans(mails, i, id, r.ts)
    requires r in world && area in r.areas
    ensures MailedTo(mails, id, r) <==> r.visibleAt <= mails[i].queriedAt
  {
    var n := |mails| - 1;
    var before, last := mails[..n], mails[n];
    assert mails == before + [last] && mails[i] in mails && last in mails;
    assert MailedTo(mails, id, r) <==> MailedTo(before, id, r) || (last.id == id && r in last.rows);
    if i < n {
      assert before[i] in before;
      ChainEnds(world, before, id, area, createdAt, before[i]);
      MailedIfSeenInTime(world, before, id, area, createdAt, r, i);
    } else if r.visibleAt <= last.queriedAt {
      assert Matches(world, area, last.start, last.queriedAt, r);
    } else if MailedTo(before, id, r) {
      SeenBefore(world, before, id, area, createdAt, r);
    }
  }

  /** What was mailed was visible to the query that found it. */
  lemma {:induction false} SeenBefore(world: set<Report>, mails: seq<Mail>, id: nat, area: nat, createdAt: nat,
                                      r: Report)
    requires Chain(world, mails, id, area, createdAt) && MailedTo(mails, id, r)
    ensures exists m :: m in mails && m.id == id && r.visibleAt <= m.queriedAt
  {
    var n := |mails| - 1;
    var before, last := mails[..n], mails[n];
    assert mails == before + [last];
    if last.id == id && r in last.rows {
      assert last in mails;
    } else {
      SeenBefore(world, before, id, area, createdAt, r);
    }
  }

  predicate IsMailTo(mails: seq<Mail>, i: int, id: nat) { 0 <= i < |mails| && mails[i].id == id }

  /** Mails of one subscription in the order they were sent. */
  lemma {:induction false} ChainOrder(world: set<Report>, mails: seq<Mail>, id: nat, area: nat, createdAt: nat, j: nat,
                                      k: nat)
    requires Chain(world, mails, id, area, createdAt) && j < k && IsMailTo(mails, j, id) && IsMailTo(mails, k, id)
    ensures mails[j].end <= mails[k].start && mails[j].queriedAt <= mails[k].end
  {
    var n := |mails| - 1;
    var before := mails[..n];
    if k < n {
      ChainOrder(world, before, id, area, createdAt, j, k);
    } else {
      assert before[j] in before;
      ChainEnds(world, before, id, area, createdAt, before[j]);
    }
  }

  lemma {:induction false} ChainRows(world: set<Report>, mails: seq<Mail>, id: nat, area: nat, createdAt: nat, j: nat)
    requires Chain(world, mails, id, area, createdAt) && IsMailTo(mails, j, id)
    ensures mails[j].start <= mails[j].end
    ensures IsResult(world, area, mails[j].start, mails[j].queriedAt, mails[j].rows)
  {
    if j < |mails| - 1 { ChainRows(world, mails[..|mails| - 1], id, area, createdAt, j); }
  }

  /** The mail right before another one of the same subscription. */
  ghost predicate IsPrevious(mails: seq<Mail>, j: int, i: int, id: nat) {
    j < i && IsMailTo(mails, j, id) && forall k | j < k < i :: !IsMailTo(mails, k, id)
  }

  /** Another mail than the one whose period spans the report's time has the report in it exactly if its period
      ended before but its query still saw the report; that is the mail right before. */
  lemma MailedAgainExactlyWhen(world: set<Report>, mails: seq<Mail>, id: nat, area: nat, createdAt: nat, r: Report,
                               i: nat, j: nat)
    requires Chain(world, mails, id, area, createdAt) && Uncut(mails, id) && Spans(mails, i, id, r.ts)
    requires r in world && area in r.areas && IsMailTo(mails, j, id) && j != i
    ensures r in mails[j].rows <==> mails[j].end < r.ts && r.visibleAt <= mails[j].queriedAt
    ensures r in mails[j].rows && r.ts <= r.visibleAt ==> IsPrevious(mails, j, i, id)
  {
    ChainRows(world, mails, id, area, createdAt, j);
    assert mails[j] in mails;
    if j < i {
      ChainOrder(world, mails, id, area, createdAt, j, i);
    } else {
      ChainOrder(world, mails, id, area, createdAt, i, j);
    }
    if mails[j].end < r.ts && r.visibleAt <= mails[j].queriedAt {
      assert Matches(world, area, mails[j].start, mails[j].queriedAt, r);
    }
    if r in mails[j].rows && r.ts <= r.visibleAt {
      forall k | j < k < i
        ensures !IsMailTo(mails, k, id)
      {
        if IsMailTo(mails, k, id) {
          ChainOrder(world, mails, id, area, createdAt, j, k);
          ChainOrder(world, mails, id, area, createdAt, k, i);
        }
      }
    }
  }

  // ---------------------------------------------------------------- runs

  datatype Event =
    | Pass
    | Subscribe(id: nat, area: nat)
    | SetActive(id: nat, active: bool)
    | Run(list: Option<seq<Subscription>>, turns: seq<Turn>)

  ghost predicate CanHappen(world: set<Report>, b: Books, e: Event) {
    match e
    case Pass => true
    case Subscribe(id, _) => id !in b.subs
    case SetActive(id, _) => id in b.subs
    case Run(list, turns) =>
      list.Some? ==> AreActive(b.subs, list.value) && AreTurns(world, b.clock, list.value, turns)
  }

  function Happened(b: Books, e: Event): Books
    requires e.SetActive? ==> e.id in b.subs
    requires e.Run? && e.list.Some? ==> |e.list.value| == |e.turns|
  {
    match e
    case Pass => b.(clock := b.clock + 1)
    case Subscribe(id, area) => b.(subs := b.subs[id := Subscription(id, area, b.clock, None, true)])
    case SetActive(id, active) => b.(subs := b.subs[id := b.subs[id].(active := active)])
    case Run(list, turns) => if list.None? then b else AfterTurns(b, list.value, turns)
  }

  ghost predicate IsHistory(world: set<Report>, b: Books, es: seq<Event>)
    decreases |es|
  {
    es == [] || (CanHappen(world, b, es[0]) && IsHistory(world, Happened(b, es[0]), es[1..]))
  }

  function AfterAll(world: set<Report>, b: Books, es: seq<Event>): Books
    requires IsHistory(world, b, es)
    decreases |es|
  {
    if es == [] then b else AfterAll(world, Happened(b, es[0]), es[1..])
  }

  ghost predicate IsStart(b: Books) { b.subs == map[] && b.log == [] && b.mails == [] }

  // ---------------------------------------------------------------- every report is mailed

  lemma {:induction false} OthersKeep(b: Books, subs: seq<Subscription>, turns: seq<Turn>, id: nat)
    requires |subs| == |turns| && id in b.subs && forall sub | sub in subs :: sub.id != id
    ensures var c := AfterTurns(b, subs, turns); id in c.subs && c.subs[id] == b.subs[id]
  {
    if subs != [] {
      var n := |subs| - 1;
      assert subs[n] in subs;
      OthersKeep(b, subs[..n], turns[..n], id);
    }
  }

  lemma {:induction false} RunClock(b: Books, subs: seq<Subscription>, turns: seq<Turn>)
    requires |subs| == |turns|
    ensures AfterTurns(b, subs, turns).clock == ClockAfter(b.clock, turns)
  {
  }

  /** At its turn a subscription is as it was when the run began. */
  lemma ListedAsStored(b: Books, subs: seq<Subscription>, turns: seq<Turn>, n: nat)
    requires AreActive(b.subs, subs) && |subs| == |turns| && n < |subs|
    ensures var c := AfterTurns(b, subs[..n], turns[..n]);
            subs[n].id in c.subs && c.subs[subs[n].id] == subs[n]
  {
    OthersKeep(b, subs[..n], turns[..n], subs[n].id);
  }

  /** No turn is mailed without `last_report_at` being written. */
  ghost predicate AllWritten(turns: seq<Turn>) { forall i | 0 <= i < |turns| :: turns[i].fate != Sends(false) }

  ghost predicate Written(e: Event) { e.Run? ==> AllWritten(e.turns) }

  ghost predicate Kept(world: set<Report>, b: Books, id: nat, exact: bool) {
    Covered(world, b, id) && (exact ==> Linked(world, b, id))
  }

  lemma {:induction false} RunKeeps(world: set<Report>, b: Books, subs: seq<Subscription>, turns: seq<Turn>, n: nat,
                                    id: nat, exact: bool)
    requires Kept(world, b, id, exact) && AreActive(b.subs, subs) && AreTurns(world, b.clock, subs, turns)
    requires n <= |subs| && (exact ==> AllWritten(turns))
    ensures Kept(world, AfterTurns(b, subs[..n], turns[..n]), id, exact)
  {
    if n > 0 {
      var m := n - 1;
      RunKeeps(world, b, subs, turns, m, id, exact);
      TurnIsProper(world, b, subs, turns, m);
      var c := AfterTurns(b, subs[..m], turns[..m]);
      TurnKeeps(world, c, subs[m], turns[m], id, exact);
    }
  }

  /** Each turn of a run is one of a stored subscription, and is taken at its time. */
  lemma TurnIsProper(world: set<Report>, b: Books, subs: seq<Subscription>, turns: seq<Turn>, m: nat)
    requires AreActive(b.subs, subs) && AreTurns(world, b.clock, subs, turns) && m < |subs|
    ensures var c := AfterTurns(b, subs[..m], turns[..m]);
            && subs[m].id in c.subs && c.subs[subs[m].id] == subs[m] && IsTurn(world, c.clock, subs[m], turns[m])
            && AfterTurns(b, subs[..m + 1], turns[..m + 1]) == AfterTurn(c, subs[m], turns[m])
  {
    ListedAsStored(b, subs, turns, m);
    RunClock(b, subs[..m], turns[..m]);
    assert subs[..m + 1][..m] == subs[..m] && turns[..m + 1][..m] == turns[..m];
  }

  lemma TurnKeeps(world: set<Report>, b: Books, sub: Subscription, turn: Turn, id: nat, exact: bool)
    requires Kept(world, b, id, exact) && sub.id in b.subs && b.subs[sub.id] == sub
    requires IsTurn(world, b.clock, sub, turn) && (exact ==> turn.fate != Sends(false))
    ensures Kept(world, AfterTurn(b, sub, turn), id, exact)
  {
    if sub.id == id {
      OwnTurnCovers(world, b, turn, id);
      if exact { OwnTurnLinks(world, b, turn, id); }
    } else {
      OtherTurnCovers(world, b, sub, turn, id);
      if exact { OtherTurnLinks(world, b, sub, turn, id); }
    }
  }

  /** Mails go to subscriptions that exist. */
  ghost predicate MailsKnown(b: Books) { forall m | m in b.mails :: m.id in b.subs }

  lemma {:induction false} RunMailsKnown(b: Books, subs: seq<Subscription>, turns: seq<Turn>)
    requires |subs| == |turns| && MailsKnown(b) && forall sub | sub in subs :: sub.id in b.subs
    ensures MailsKnown(AfterTurns(b, subs, turns))
  {
    if subs != [] {
      var n := |subs| - 1;
      RunMailsKnown(b, subs[..n], turns[..n]);
      OnlySubscribeAdds(b, subs[..n], turns[..n], subs[n].id);
      assert subs[n] in subs;
    }
  }

  lemma EventMailsKnown(world: set<Report>, b: Books, e: Event)
    requires CanHappen(world, b, e) && MailsKnown(b)
    ensures MailsKnown(Happened(b, e))
  {
    if e.Run? && e.list.Some? {
      assert forall sub | sub in e.list.value :: sub.id in b.subs;
      RunMailsKnown(b, e.list.value, e.turns);
    }
  }

  lemma EventKeeps(world: set<Report>, b: Books, e: Event, id: nat, exact: bool)
    requires CanHappen(world, b, e) && MailsKnown(b) && (id in b.subs ==> Kept(world, b, id, exact))
    requires id in Happened(b, e).subs && (exact ==> Written(e))
    ensures Kept(world, Happened(b, e), id, exact)
  {
    if e.Run? && e.list.Some? {
      var n := |e.list.value|;
      assert e.list.value[..n] == e.list.value && e.turns[..n] == e.turns;
      OnlySubscribeAdds(b, e.list.value, e.turns, id);
      RunKeeps(world, b, e.list.value, e.turns, n, id, exact);
    } else if e.Subscribe? && e.id == id {
      NoMailsYet(world, b.mails, id, e.area, b.clock);
    }
  }

  lemma {:induction false} OnlySubscribeAdds(b: Books, subs: seq<Subscription>, turns: seq<Turn>, id: nat)
    requires |subs| == |turns|
    ensures id in AfterTurns(b, subs, turns).subs <==> id in b.subs
  {
    if subs != [] { OnlySubscribeAdds(b, subs[..|subs| - 1], turns[..|subs| - 1], id); }
  }

  ghost predicate AllEventsWritten(es: seq<Event>) { forall i | 0 <= i < |es| :: Written(es[i]) }

  lemma {:induction false} HistoryKeeps(world: set<Report>, b: Books, es: seq<Event>, id: nat, exact: bool)
    requires IsHistory(world, b, es) && MailsKnown(b) && (id in b.subs ==> Kept(world, b, id, exact))
    requires exact ==> AllEventsWritten(es)
    ensures id in AfterAll(world, b, es).subs ==> Kept(world, AfterAll(world, b, es), id, exact)
    decreases |es|
  {
    if es != [] {
      var c := Happened(b, es[0]);
      EventMailsKnown(world, b, es[0]);
      if id in c.subs { EventKeeps(world, b, es[0], id, exact); }
      HistoryKeeps(world, c, es[1..], id, exact);
    }
  }

  /** Over every history, whatever fails in it and even if `last_report_at` cannot be written: a report that is
      visible from its timestamp on, later than the subscription and not later than its last mailed period,
      has been mailed, as long as no mail was as long as the row limit. */
  lemma NoReportIsMissed(world: set<Report>, start: Books, es: seq<Event>, id: nat, r: Report)
    requires IsStart(start) && IsHistory(world, start, es)
    requires var b := AfterAll(world, start, es);
             && id in b.subs && Uncut(b.mails, id)
             && r in world && b.subs[id].area in r.areas && r.visibleAt <= r.ts
             && b.subs[id].createdAt < r.ts <= b.subs[id].Since()
    ensures MailedTo(AfterAll(world, start, es).mails, id, r)
  {
    HistoryKeeps(world, start, es, id, false);
  }

  /** When every mailed turn could write `last_report_at`: each time since the subscription lies in exactly one
      mailed period, and a report of that time was mailed exactly if the query of that period could see it. */
  lemma MailedExactlyWhen(world: set<Report>, start: Books, es: seq<Event>, id: nat, r: Report) returns (i: nat)
    requires IsStart(start) && IsHistory(world, start, es) && AllEventsWritten(es)
    requires var b := AfterAll(world, start, es);
             && id in b.subs && Uncut(b.mails, id)
             && r in world && b.subs[id].area in r.areas && b.subs[id].createdAt < r.ts <= b.subs[id].Since()
    ensures var mails := AfterAll(world, start, es).mails;
            && Spans(mails, i, id, r.ts) && (forall j | Spans(mails, j, id, r.ts) :: j == i)
            && (MailedTo(mails, id, r) <==> r.visibleAt <= mails[i].queriedAt)
  {
    var b := AfterAll(world, start, es);
    HistoryKeeps(world, start, es, id, true);
    var sub := b.subs[id];
    i := OnePeriodSpans(world, b.mails, id, sub.area, sub.createdAt, r.ts);
    MailedIfSeenInTime(world, b.mails, id, sub.area, sub.createdAt, r, i);
  }

  /** Under the same conditions, for a report that is not visible before its time: it is mailed at most twice, in the
      mail whose period spans its time and in the one right before, the latter exactly if it came in between the
      end of that period and the query. */
  lemma MailedAtMostTwice(world: set<Report>, start: Books, es: seq<Event>, id: nat, r: Report) returns (i: nat)
    requires IsStart(start) && IsHistory(world, start, es) && AllEventsWritten(es)
    requires var b := AfterAll(world, start, es);
             && id in b.subs && Uncut(b.mails, id)
             && r in world && b.subs[id].area in r.areas && b.subs[id].createdAt < r.ts <= b.subs[id].Since()
             && r.ts <= r.visibleAt
    ensures var mails := AfterAll(world, start, es).mails;
            && Spans(mails, i, id, r.ts)
            && forall j | IsMailTo(mails, j, id) && j != i ::
                 && (r in mails[j].rows <==> mails[j].end < r.ts && r.visibleAt <= mails[j].queriedAt)
                 && (r in mails[j].rows ==> IsPrevious(mails, j, i, id))
  {
    var b := AfterAll(world, start, es);
    HistoryKeeps(world, start, es, id, true);
    i := MailedExactlyWhen(world, start, es, id, r);
    forall j: int | IsMailTo(b.mails, j, id) && j != i
      ensures r in b.mails[j].rows <==> b.mails[j].end < r.ts && r.visibleAt <= b.mails[j].queriedAt
      ensures r in b.mails[j].rows ==> IsPrevious(b.mails, j, i, id)
    {
      MailedAgainExactlyWhen(world, b.mails, id, b.subs[id].area, b.subs[id].createdAt, r, i, j);
    }
  }

  // ---------------------------------------------------------------- reports that are lost

  /** The report's time is in a mailed period, and it was not mailed. */
  ghost predicate Passed(b: Books, id: nat, r: Report) {
    && id in b.subs && b.subs[id].id == id && r.ts <= b.subs[id].Since() <= b.clock
    && !MailedTo(b.mails, id, r)
  }

  lemma TurnPasses(world: set<Report>, b: Books, sub: Subscription, turn: Turn, id: nat, r: Report)
    requires Passed(b, id, r) && IsTurn(world, b.clock, sub, turn)
    requires sub.id in b.subs && b.subs[sub.id] == sub
    ensures Passed(AfterTurn(b, sub, turn), id, r)
  {
    var c := AfterTurn(b, sub, turn);
    if m :| m in c.mails && m !in b.mails {
      assert m.id == id ==> r !in m.rows;
    }
  }

  lemma {:induction false} TurnsPass(world: set<Report>, b: Books, subs: seq<Subscription>, turns: seq<Turn>, n: nat,
                                     id: nat, r: Report)
    requires Passed(b, id, r) && AreActive(b.subs, subs) && AreTurns(world, b.clock, subs, turns) && n <= |subs|
    ensures Passed(AfterTurns(b, subs[..n], turns[..n]), id, r)
  {
    if n > 0 {
      var m := n - 1;
      TurnsPass(world, b, subs, turns, m, id, r);
      TurnIsProper(world, b, subs, turns, m);
      TurnPasses(world, AfterTurns(b, subs[..m], turns[..m]), subs[m], turns[m], id, r);
    }
  }

  /** A report that was passed over is never mailed, whatever happens afterwards. */
  lemma {:induction false} PassedForGood(world: set<Report>, b: Books, es: seq<Event>, id: nat, r: Report)
    requires Passed(b, id, r) && IsHistory(world, b, es)
    ensures Passed(AfterAll(world, b, es), id, r)
    decreases |es|
  {
    if es != [] {
      if es[0].Run? && es[0].list.Some? {
        var subs, turns := es[0].list.value, es[0].turns;
        assert subs[..|subs|] == subs && turns[..|subs|] == turns;
        TurnsPass(world, b, subs, turns, |subs|, id, r);
      }
      PassedForGood(world, Happened(b, es[0]), es[1..], id, r);
    }
  }

  const LATE := Report(0, 1, 9, {0})
  const FIRST := Subscription(0, 0, 0, None, true)
  const EARLY_TURN := Turn(2, 2, [], Sends(true), true)

  /** Such a report: it has the time 1 and becomes visible at time 9, after a run at time 2. No history that begins
      like that mails it. */
  lemma LateReportIsLost(more: seq<Event>)
    requires var begin := Books(map[0 := FIRST.(lastReportAt := Some(2))], [LogRow(0, 0, 0, 2, true)],
                                [Mail(0, 0, 0, 2, 2, [])], 2);
             IsHistory({LATE}, begin, more)
    ensures var start := Books(map[], [], [], 0);
            var es := [Subscribe(0, 0), Run(Some([FIRST]), [EARLY_TURN])] + more;
            && IsStart(start) && IsHistory({LATE}, start, es)
            && Passed(AfterAll({LATE}, start, es), 0, LATE)
  {
    var start := Books(map[], [], [], 0);
    var b1 := Books(map[0 := FIRST], [], [], 0);
    var b2 := Books(map[0 := FIRST.(lastReportAt := Some(2))], [LogRow(0, 0, 0, 2, true)],
                    [Mail(0, 0, 0, 2, 2, [])], 2);
    var run := Run(Some([FIRST]), [EARLY_TURN]);
    EarlyRun(b1, b2);
    assert Happened(start, Subscribe(0, 0)) == b1;
    var es := [Subscribe(0, 0), run] + more;
    assert es[1..] == [run] + more && es[1..][1..] == more;
    PassedForGood({LATE}, b2, more, 0, LATE);
  }

  lemma EarlyRun(b1: Books, b2: Books)
    requires b1 == Books(map[0 := FIRST], [], [], 0)
    requires b2 == Books(map[0 := FIRST.(lastReportAt := Some(2))], [LogRow(0, 0, 0, 2, true)],
                         [Mail(0, 0, 0, 2, 2, [])], 2)
    ensures CanHappen({LATE}, b1, Run(Some([FIRST]), [EARLY_TURN]))
    ensures Happened(b1, Run(Some([FIRST]), [EARLY_TURN])) == b2
    ensures Passed(b2, 0, LATE)
  {
    assert [FIRST][..0] == [] && [EARLY_TURN][..0] == [];
    assert AfterTurns(b1, [FIRST][..0], [EARLY_TURN][..0]) == b1;
    assert FIRST in [FIRST];
    assert forall r | r in {LATE} :: !Matches({LATE}, 0, 0, 2, r);
  }

  /** A failed turn never moves the start of the next period; a successful one moves it to its own end. */
  lemma {:induction false} FailuresNeverAdvance(b: Books, subs: seq<Subscription>, turns: seq<Turn>, i: nat)
    requires AreActive(b.subs, subs) && |subs| == |turns| && i < |subs|
    ensures var c := AfterTurns(b, subs, turns);
            && subs[i].id in c.subs
            && c.subs[subs[i].id] ==
               if turns[i].fate == Sends(true) then subs[i].(lastReportAt := Some(turns[i].periodEnd)) else subs[i]
  {
    var n := |subs|;
    assert subs[..n] == subs && turns[..n] == turns;
    AdvanceUpTo(b, subs, turns, i, n);
  }

  lemma {:induction false} AdvanceUpTo(b: Books, subs: seq<Subscription>, turns: seq<Turn>, i: nat, n: nat)
    requires AreActive(b.subs, subs) && |subs| == |turns| && i < n <= |subs|
    ensures var c := AfterTurns(b, subs[..n], turns[..n]);
            && subs[i].id in c.subs
            && c.subs[subs[i].id] ==
               if turns[i].fate == Sends(true) then subs[i].(lastReportAt := Some(turns[i].periodEnd)) else subs[i]
  {
    var m := n - 1;
    assert subs[..n][..m] == subs[..m] && turns[..n][..m] == turns[..m];
    if i == m {
      ListedAsStored(b, subs, turns, m);
    } else {
      AdvanceUpTo(b, subs, turns, i, m);
      assert subs[m].id != subs[i].id;
    }
  }

  // ---------------------------------------------------------------- the log

  function RowOf(m: Mail): LogRow { LogRow(m.id, |m.rows|, m.start, m.end, true) }

  function SentRows(log: seq<LogRow>): seq<LogRow> {
    if log == [] then []
    else SentRows(log[..|log| - 1]) + (if log[|log| - 1].sent then [log[|log| - 1]] else [])
  }

  function MailRows(mails: seq<Mail>): seq<LogRow> {
    if mails == [] then [] else MailRows(mails[..|mails| - 1]) + [RowOf(mails[|mails| - 1])]
  }

  /** The rows marked as sent are the mails, one for one and in order. */
  ghost predicate LogAgrees(b: Books) { SentRows(b.log) == MailRows(b.mails) }

  lemma TurnLogs(b: Books, sub: Subscription, turn: Turn)
    requires LogAgrees(b) && turn.logged
    ensures var c := AfterTurn(b, sub, turn);
            && LogAgrees(c) && |c.log| == |b.log| + 1 && b.log <= c.log
            && c.log[|b.log|].id == sub.id && (c.log[|b.log|].sent <==> turn.fate.Sends?)
  {
    var c := AfterTurn(b, sub, turn);
    assert c.log[..|b.log|] == b.log;
    if turn.fate.Sends? {
      assert c.mails[..|b.mails|] == b.mails;
    }
  }

  /** If every row can be written, a run adds one row for each active subscription, and the rows marked as sent
      tell exactly which mails went out, with their periods and sizes. */
  lemma {:induction false} RunLogs(b: Books, subs: seq<Subscription>, turns: seq<Turn>)
    requires |subs| == |turns| && LogAgrees(b) && forall t | t in turns :: t.logged
    ensures var c := AfterTurns(b, subs, turns); LogAgrees(c) && |c.log| == |b.log| + |subs| && b.log <= c.log
  {
    if subs != [] {
      var n := |subs| - 1;
      assert turns[n] in turns;
      RunLogs(b, subs[..n], turns[..n]);
      TurnLogs(AfterTurns(b, subs[..n], turns[..n]), subs[n], turns[n]);
    }
  }

  /** So the log agrees with the mails over every history in which it can be written. */
  lemma {:induction false} LogTellsTheMails(world: set<Report>, b: Books, es: seq<Event>)
    requires IsHistory(world, b, es) && LogAgrees(b)
    requires forall e | e in es :: e.Run? ==> forall t | t in e.turns :: t.logged
    ensures LogAgrees(AfterAll(world, b, es))
    decreases |es|
  {
    if es != [] {
      assert es[0] in es && forall e | e in es[1..] :: e in es;
      if es[0].Run? && es[0].list.Some? { RunLogs(b, es[0].list.value, es[0].turns); }
      LogTellsTheMails(world, Happened(b, es[0]), es[1..]);
    }
  }
}
