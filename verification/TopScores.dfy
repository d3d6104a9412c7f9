/** The top-scores response: the cached rows with their places, followed by the user's own rank if the user is
    not among them. */
module TopScores {
  import opened Wrappers
  import opened LeaderboardCache

  datatype Record = Record(place: nat, title: string, score: real, isYou: bool)

  // ---------------------------------------------------------------- the queries

  function Ahead(users: seq<Row>, score: real): nat {
    if users == [] then 0
    else Ahead(users[..|users| - 1], score) + (if users[|users| - 1].score > score then 1 else 0)
  }

  function Find(users: seq<Row>, id: string): (r: Option<Row>)
    ensures r.Some? ==> r.value in users && r.value.id == id
    ensures r.None? ==> forall u | u in users :: u.id != id
  {
    if users == [] then None
    else if users[0].id == id then Some(users[0])
    else
      assert users == [users[0]] + users[1..];
      Find(users[1..], id)
  }

  function PlaceOf(ahead: nat, topCount: nat): nat { if ahead < topCount then topCount + 1 else ahead + 1 }

  /** The rank of a user who is taken not to be among the first `topCount`. */
  function SelfRank(users: seq<Row>, userID: string, topCount: nat): Option<Record> {
    match Find(users, userID)
    case None => None
    case Some(you) =>
      var ahead := Ahead(users, you.score);
      Some(Record(PlaceOf(ahead, topCount), you.title, you.score, true))
  }

  // ---------------------------------------------------------------- the cache of own ranks

  class SelfRankCache {
    var entries: map<string, (Record, nat)>

    constructor ()
      ensures entries == map[]
    {
      entries := map[];
    }

    /** A rank less than two minutes old, or else the one that the query gives, which is kept. */
    method GetSelfRankCached(users: seq<Row>, queryFails: bool, userID: string, topCount: nat, now: nat)
      returns (r: Option<Record>)
      modifies this
      ensures var hit := userID in old(entries) && now - old(entries)[userID].1 < TTL;
              && r == (if hit then Some(old(entries)[userID].0)
                       else if queryFails then None
                       else SelfRank(users, userID, topCount))
              && entries == (if hit || r.None? then old(entries) else old(entries)[userID := (r.value, now)])
      ensures old(Behind(entries, topCount)) ==>
                Behind(entries, topCount) && (r.Some? ==> r.value.place > topCount && r.value.isYou)
    {
      if userID in entries && now - entries[userID].1 < TTL {
        return Some(entries[userID].0);
      }
      r := if queryFails then None else SelfRank(users, userID, topCount);
      if r.Some? {
        entries := entries[userID := (r.value, now)];
      }
    }
  }

  ghost predicate Behind(entries: map<string, (Record, nat)>, topCount: nat) {
    forall id | id in entries :: entries[id].0.place > topCount && entries[id].0.isYou
  }

  // ---------------------------------------------------------------- the response

  predicate Lists(snapshot: seq<Row>, id: string) { exists i | 0 <= i < |snapshot| :: snapshot[i].id == id }

  function Placed(snapshot: seq<Row>, userID: string, i: nat): Record
    requires i < |snapshot|
  {
    Record(i + 1, snapshot[i].title, snapshot[i].score, snapshot[i].id == userID)
  }

  ghost predicate IsResponse(records: seq<Record>, snapshot: seq<Row>, userID: string, you: Option<Record>) {
    && |snapshot| <= |records|
    && (forall i | 0 <= i < |snapshot| :: records[i] == Placed(snapshot, userID, i))
    && records[|snapshot|..] == (if !Lists(snapshot, userID) && userID != "" && you.Some? then [you.value] else [])
  }

  /** `you` is what the cache of own ranks gives. */
  method BuildTopScoresResponse(snapshot: seq<Row>, userID: string, you: Option<Record>) returns (records: seq<Record>)
    ensures IsResponse(records, snapshot, userID, you)
  {
    records := [];
    var hasYou := false;
    for idx := 0 to |snapshot|
      invariant |records| == idx && hasYou == Lists(snapshot[..idx], userID)
      invariant forall i | 0 <= i < idx :: records[i] == Placed(snapshot, userID, i)
    {
      var item := snapshot[idx];
      var isYou := item.id == userID;
      if isYou {
        hasYou := true;
        assert snapshot[..idx + 1][idx].id == userID;
      }
      assert forall i | 0 <= i < idx :: snapshot[..idx + 1][i] == snapshot[..idx][i];
      records := records + [Record(idx + 1, item.title, item.score, isYou)];
    }
    assert snapshot[..|snapshot|] == snapshot;
    if !hasYou && userID != "" && you.Some? {
      records := records + [you.value];
    }
  }

  // ---------------------------------------------------------------- places

  ghost predicate UniqueIds(users: seq<Row>) { forall i, j | 0 <= i < j < |users| :: users[i].id != users[j].id }

  ghost predicate IsSorted(ranking: seq<Row>) {
    forall i, j | 0 <= i < j < |ranking| :: ranking[i].score >= ranking[j].score
  }

  /** An order in which the query may list the users. */
  ghost predicate IsRanking(users: seq<Row>, ranking: seq<Row>) {
    multiset(users) == multiset(ranking) && IsSorted(ranking)
  }

  lemma {:induction false} AheadAppend(a: seq<Row>, b: seq<Row>, score: real)
    ensures Ahead(a + b, score) == Ahead(a, score) + Ahead(b, score)
  {
    if b == [] {
      assert a + b == a;
    } else {
      var n := |b| - 1;
      assert (a + b)[..|a + b| - 1] == a + b[..n];
      AheadAppend(a, b[..n], score);
    }
  }

  function Without(s: seq<Row>, j: nat): seq<Row>
    requires j < |s|
  {
    s[..j] + s[j + 1..]
  }

  lemma WithoutRows(s: seq<Row>, j: nat)
    requires j < |s|
    ensures multiset(Without(s, j)) == multiset(s) - multiset{s[j]}
  {
    assert s == s[..j] + [s[j]] + s[j + 1..];
  }

  lemma WithoutAhead(s: seq<Row>, j: nat, score: real)
    requires j < |s|
    ensures Ahead(s, score) == Ahead(Without(s, j), score) + (if s[j].score > score then 1 else 0)
  {
    assert s == s[..j] + [s[j]] + s[j + 1..];
    AheadAppend(s[..j] + [s[j]], s[j + 1..], score);
    assert (s[..j] + [s[j]])[..j] == s[..j];
    AheadAppend(s[..j], s[j + 1..], score);
  }

  lemma {:induction false} AheadIgnoresOrder(a: seq<Row>, b: seq<Row>, score: real)
    requires multiset(a) == multiset(b)
    ensures Ahead(a, score) == Ahead(b, score)
    decreases |a|
  {
    if a == [] {
      assert |multiset(b)| == 0;
    } else {
      assert a[0] in multiset(a) && a[0] in multiset(b);
      var j :| 0 <= j < |b| && b[j] == a[0];
      WithoutRows(a, 0);
      WithoutRows(b, j);
      AheadIgnoresOrder(Without(a, 0), Without(b, j), score);
      WithoutAhead(a, 0, score);
      WithoutAhead(b, j, score);
    }
  }

  /** In a ranking those ahead of a score come first. */
  lemma {:induction false} AheadComeFirst(ranking: seq<Row>, score: real, i: nat)
    requires IsSorted(ranking) && i < |ranking|
    ensures ranking[i].score > score <==> i < Ahead(ranking, score)
    ensures Ahead(ranking, score) <= |ranking|
    decreases |ranking|
  {
    var n := |ranking| - 1;
    if n > 0 {
      AheadComeFirst(ranking[..n], score, if i < n then i else n - 1);
      assert IsSorted(ranking[..n]);
    } else {
      assert ranking[..0] == [];
    }
  }

  function First(s: seq<Row>, n: nat): seq<Row> { if n < |s| then s[..n] else s }

  lemma MoreAreListed(s: seq<Row>, id: string, n: nat, m: nat)
    requires m <= n && Lists(First(s, m), id)
    ensures Lists(First(s, n), id)
  {
    var i :| 0 <= i < |First(s, m)| && First(s, m)[i].id == id;
    assert First(s, n)[i] == First(s, m)[i];
  }

  /** The place reported for row `u` is within the rows of the same score. */
  lemma PlaceIsTied(ranking: seq<Row>, u: nat, topCount: nat)
    requires IsSorted(ranking) && topCount <= u < |ranking|
    ensures var p := PlaceOf(Ahead(ranking, ranking[u].score), topCount) - 1;
            topCount <= p < |ranking| && ranking[p].score == ranking[u].score
  {
    var ahead := Ahead(ranking, ranking[u].score);
    var p := PlaceOf(ahead, topCount) - 1;
    AheadComeFirst(ranking, ranking[u].score, u);
    AheadComeFirst(ranking, ranking[u].score, p);
  }

  /** There is an own record exactly for a user of the table, and it shows that user's title and score. */
  lemma OwnRecordExactlyWhen(users: seq<Row>, userID: string, topCount: nat)
    ensures SelfRank(users, userID, topCount).Some? <==> exists u :: u in users && u.id == userID
    ensures UniqueIds(users) ==> forall u | u in users && u.id == userID ::
              var you := SelfRank(users, userID, topCount);
              you.Some? && you.value.title == u.title && you.value.score == u.score && you.value.isYou
  {
    if Find(users, userID).Some? { assert Find(users, userID).value in users; }
  }

  /** In a ranking, the first `topCount` rows and a user who is not among them: at the place reported for the
      user, some ranking that starts with the same rows lists the user, and the record is that row's. */
  lemma OwnPlaceIsPossible(users: seq<Row>, ranking: seq<Row>, userID: string, topCount: nat)
    returns (other: seq<Row>)
    requires IsRanking(users, ranking) && Find(users, userID).Some? && !Lists(First(ranking, topCount), userID)
    ensures IsRanking(users, other) && First(other, topCount) == First(ranking, topCount)
    ensures var place := SelfRank(users, userID, topCount).value.place;
            && topCount < place <= |other| && other[place - 1].id == userID
            && SelfRank(users, userID, topCount).value == Placed(other, userID, place - 1)
  {
    var you := Find(users, userID).value;
    assert you in multiset(users) && you in multiset(ranking);
    var u :| 0 <= u < |ranking| && ranking[u] == you;
    if u < topCount {
      assert First(ranking, u + 1)[u].id == userID;
      MoreAreListed(ranking, userID, topCount, u + 1);
      assert false;
    }
    AheadIgnoresOrder(users, ranking, you.score);
    PlaceIsTied(ranking, u, topCount);
    var p := PlaceOf(Ahead(users, you.score), topCount) - 1;
    other := ranking[u := ranking[p]][p := ranking[u]];
    SwapRows(ranking, u, p);
  }

  lemma SwapRows(s: seq<Row>, i: nat, j: nat)
    requires i < |s| && j < |s| && s[i].score == s[j].score && IsSorted(s)
    ensures var t := s[i := s[j]][j := s[i]]; multiset(t) == multiset(s) && IsSorted(t)
  {
  }

  /** The places in a response rise, at most one row is the user's own, and the user's own row comes last with
      a place beyond all others when the user is not on the list. */
  lemma PlacesRise(records: seq<Record>, snapshot: seq<Row>, userID: string, you: Option<Record>, topCount: nat)
    requires IsResponse(records, snapshot, userID, you) && UniqueIds(snapshot) && |snapshot| <= topCount
    requires you.Some? ==> you.value.place > topCount && you.value.isYou
    ensures forall i, j | 0 <= i < j < |records| :: records[i].place < records[j].place
    ensures forall i, j | 0 <= i < |records| && 0 <= j < |records| && records[i].isYou && records[j].isYou :: i == j
    ensures (exists r :: r in records && r.isYou) <==> Lists(snapshot, userID) || (userID != "" && you.Some?)
  {
    var n := |snapshot|;
    assert forall i | n <= i < |records| :: records[i] == records[n..][i - n];
    if Lists(snapshot, userID) {
      var i :| 0 <= i < n && snapshot[i].id == userID;
      assert records[i] in records && records[i].isYou;
    } else if userID != "" && you.Some? {
      assert records[n..][0] in records;
    }
  }
}
