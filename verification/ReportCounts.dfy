/** Counting reports: the recounts that the caches stand for, and the single grouped scan that computes
    three of them at once. */
module ReportCounts {
  import opened Wrappers

  /** A row of `report_analysis`; `visible` is the visibility joined in from `report_raw`. */
  datatype Row = Row(id: int, valid: bool, classification: string, language: string, brand: Option<string>,
                     visible: bool)

  datatype Totals = Totals(total: int, physical: int, digital: int)

  const ZERO := Totals(0, 0, 0)
  const PHYSICAL := "physical"
  const DIGITAL := "digital"

  function Plus(a: Totals, b: Totals): Totals {
    Totals(a.total + b.total, a.physical + b.physical, a.digital + b.digital)
  }

  /** A valid row; with a brand, also one that counts for it. */
  predicate Selected(r: Row, brand: Option<string>) {
    && r.valid
    && (brand.Some? ==> r.language == "en" && r.brand == brand && brand.value != "" && r.visible)
  }

  predicate InClass(r: Row, class': Option<string>) { class'.Some? ==> r.classification == class'.value }

  /** The distinct seqs in (lo, hi] with a selected row of the class. */
  function Seqs(rows: seq<Row>, brand: Option<string>, class': Option<string>, lo: int, hi: int): set<int> {
    set r | r in rows && Selected(r, brand) && InClass(r, class') && lo < r.id <= hi :: r.id
  }

  /** Three separate counts of distinct seqs. */
  function Tally(rows: seq<Row>, brand: Option<string>, lo: int, hi: int): Totals {
    Totals(|Seqs(rows, brand, None, lo, hi)|, |Seqs(rows, brand, Some(PHYSICAL), lo, hi)|,
           |Seqs(rows, brand, Some(DIGITAL), lo, hi)|)
  }

  /** All rows carry a seq from an auto-increment column. */
  predicate Numbered(rows: seq<Row>) { forall r | r in rows :: r.id >= 1 }

  /** COALESCE(MAX(seq), 0) */
  function MaxSeq(rows: seq<Row>): (max: int)
    ensures max >= 0
    ensures forall r | r in rows :: r.id <= max
    ensures Numbered(rows) ==> max == 0 || exists r :: r in rows && r.id == max
  {
    if rows == [] then 0
    else
      var last := rows[|rows| - 1];
      var before := MaxSeq(rows[..|rows| - 1]);
      if last.id > before then last.id else before
  }

  // ---------------------------------------------------------------- the grouped scan

  /** One group of GROUP BY seq: the two MAX(CASE ...) columns. */
  datatype Group = Group(id: int, physical: bool, digital: bool)

  predicate Has(g: Group, class': Option<string>) {
    match class'
    case None => true
    case Some(c) => if c == PHYSICAL then g.physical else c == DIGITAL && g.digital
  }

  function Put(gs: seq<Group>, r: Row): seq<Group> {
    if gs == [] then [Group(r.id, r.classification == PHYSICAL, r.classification == DIGITAL)]
    else
      var last := gs[|gs| - 1];
      if last.id == r.id
      then gs[..|gs| - 1] + [Group(r.id, last.physical || r.classification == PHYSICAL,
                                   last.digital || r.classification == DIGITAL)]
      else Put(gs[..|gs| - 1], r) + [last]
  }

  /** The groups of the rows with seq > lo, and seq <= hi if there is an upper bound. */
  function Grouped(rows: seq<Row>, brand: Option<string>, lo: int, hi: Option<int>): seq<Group> {
    if rows == [] then []
    else
      var last := rows[|rows| - 1];
      var gs := Grouped(rows[..|rows| - 1], brand, lo, hi);
      if Selected(last, brand) && lo < last.id && (hi.Some? ==> last.id <= hi.value) then Put(gs, last) else gs
  }

  function Sum(gs: seq<Group>, class': Option<string>): int {
    if gs == [] then 0 else Sum(gs[..|gs| - 1], class') + (if Has(gs[|gs| - 1], class') then 1 else 0)
  }

  function Scan(rows: seq<Row>, brand: Option<string>, lo: int, hi: Option<int>): Totals {
    var gs := Grouped(rows, brand, lo, hi);
    Totals(|gs|, Sum(gs, Some(PHYSICAL)), Sum(gs, Some(DIGITAL)))
  }

  predicate Distinct(gs: seq<Group>) { forall i, j | 0 <= i < j < |gs| :: gs[i].id != gs[j].id }

  function IdsWith(gs: seq<Group>, class': Option<string>): set<int> { set g | g in gs && Has(g, class') :: g.id }

  predicate IsColumn(class': Option<string>) { class'.Some? ==> class'.value == PHYSICAL || class'.value == DIGITAL }

  lemma {:induction false} PutIds(gs: seq<Group>, r: Row, class': Option<string>)
    requires IsColumn(class')
    ensures IdsWith(Put(gs, r), class') == IdsWith(gs, class') + (if InClass(r, class') then {r.id} else {})
  {
    if gs != [] {
      var n := |gs| - 1;
      assert gs == gs[..n] + [gs[n]];
      SplitIds(gs[..n], gs[n], class');
      if gs[n].id == r.id {
        SplitIds(gs[..n], Put(gs, r)[n], class');
      } else {
        PutIds(gs[..n], r, class');
        SplitIds(Put(gs[..n], r), gs[n], class');
      }
    }
  }

  lemma NotAmong(gs: seq<Group>, g: Group)
    requires Distinct(gs)
    ensures Distinct(gs + [g]) <==> g.id !in IdsWith(gs, None)
  {
    if g.id in IdsWith(gs, None) {
      var h :| h in gs && h.id == g.id;
      var j :| 0 <= j < |gs| && gs[j] == h;
      assert (gs + [g])[j].id == (gs + [g])[|gs|].id;
    } else {
      forall i | 0 <= i < |gs|
        ensures gs[i].id != g.id
      {
        assert gs[i] in gs && Has(gs[i], None);
      }
    }
  }

  lemma {:induction false} PutKeeps(gs: seq<Group>, r: Row)
    requires Distinct(gs)
    ensures Distinct(Put(gs, r))
  {
    if gs != [] {
      var n := |gs| - 1;
      assert gs == gs[..n] + [gs[n]];
      NotAmong(gs[..n], gs[n]);
      if gs[n].id == r.id {
        NotAmong(gs[..n], Put(gs, r)[n]);
      } else {
        PutKeeps(gs[..n], r);
        PutIds(gs[..n], r, None);
        NotAmong(Put(gs[..n], r), gs[n]);
      }
    }
  }

  lemma SplitIds(gs: seq<Group>, g: Group, class': Option<string>)
    ensures IdsWith(gs + [g], class') == IdsWith(gs, class') + (if Has(g, class') then {g.id} else {})
  {
    forall x: Group
      ensures x in gs + [g] <==> x in gs || x == g
    {
    }
  }

  lemma {:induction false} SumIsSize(gs: seq<Group>, class': Option<string>)
    requires Distinct(gs)
    ensures Sum(gs, class') == |IdsWith(gs, class')|
  {
    if gs != [] {
      var n := |gs| - 1;
      SumIsSize(gs[..n], class');
      assert gs == gs[..n] + [gs[n]];
      SplitIds(gs[..n], gs[n], class');
      assert gs[n].id !in IdsWith(gs[..n], class');
    }
  }

  lemma {:induction false} SumAll(gs: seq<Group>)
    ensures Sum(gs, None) == |gs|
  {
    if gs != [] { SumAll(gs[..|gs| - 1]); }
  }

  lemma {:induction false} GroupedIds(rows: seq<Row>, brand: Option<string>, class': Option<string>, lo: int,
                                      hi: int, bound: Option<int>)
    requires IsColumn(class')
    requires if bound.Some? then bound.value == hi else forall r | r in rows && Selected(r, brand) :: r.id <= hi
    ensures Distinct(Grouped(rows, brand, lo, bound))
    ensures IdsWith(Grouped(rows, brand, lo, bound), class') == Seqs(rows, brand, class', lo, hi)
  {
    if rows == [] {
      assert Seqs(rows, brand, class', lo, hi) == {};
    } else {
      var n := |rows| - 1;
      var last := rows[n];
      assert rows == rows[..n] + [last];
      GroupedIds(rows[..n], brand, class', lo, hi, bound);
      var before := Seqs(rows[..n], brand, class', lo, hi);
      assert Seqs(rows, brand, class', lo, hi)
          == before + (if Selected(last, brand) && InClass(last, class') && lo < last.id <= hi then {last.id} else {});
      PutKeeps(Grouped(rows[..n], brand, lo, bound), last);
      PutIds(Grouped(rows[..n], brand, lo, bound), last, class');
    }
  }

  /** The single scan with MAX(CASE ...) per seq returns what the three separate counts return, for every
      table; an unbounded scan counts up to any bound that no selected row exceeds. */
  lemma ScanIsTally(rows: seq<Row>, brand: Option<string>, lo: int, hi: int, bound: Option<int>)
    requires if bound.Some? then bound.value == hi else forall r | r in rows && Selected(r, brand) :: r.id <= hi
    ensures Scan(rows, brand, lo, bound) == Tally(rows, brand, lo, hi)
  {
    var gs := Grouped(rows, brand, lo, bound);
    GroupedIds(rows, brand, None, lo, hi, bound);
    GroupedIds(rows, brand, Some(PHYSICAL), lo, hi, bound);
    GroupedIds(rows, brand, Some(DIGITAL), lo, hi, bound);
    SumAll(gs);
    SumIsSize(gs, None);
    SumIsSize(gs, Some(PHYSICAL));
    SumIsSize(gs, Some(DIGITAL));
  }

  // ---------------------------------------------------------------- laws of recounting

  lemma SeqsSplit(rows: seq<Row>, brand: Option<string>, class': Option<string>, lo: int, mid: int, hi: int)
    requires lo <= mid <= hi
    ensures |Seqs(rows, brand, class', lo, hi)| ==
            |Seqs(rows, brand, class', lo, mid)| + |Seqs(rows, brand, class', mid, hi)|
  {
    assert Seqs(rows, brand, class', lo, hi) == Seqs(rows, brand, class', lo, mid) + Seqs(rows, brand, class', mid, hi);
  }

  /** Recounts add up over adjacent ranges of seqs. */
  lemma TallySplit(rows: seq<Row>, brand: Option<string>, lo: int, mid: int, hi: int)
    requires lo <= mid <= hi
    ensures Tally(rows, brand, lo, hi) == Plus(Tally(rows, brand, lo, mid), Tally(rows, brand, mid, hi))
  {
    SeqsSplit(rows, brand, None, lo, mid, hi);
    SeqsSplit(rows, brand, Some(PHYSICAL), lo, mid, hi);
    SeqsSplit(rows, brand, Some(DIGITAL), lo, mid, hi);
  }

  /** The selected rows of `more` in (lo, hi] belong to reports that are counted already, in their classes too. */
  predicate AddsNothing(rows: seq<Row>, more: seq<Row>, brand: Option<string>, lo: int, hi: int) {
    forall r | r in more && Selected(r, brand) && lo < r.id <= hi ::
      && r.id in Seqs(rows, brand, None, lo, hi)
      && (r.classification == PHYSICAL ==> r.id in Seqs(rows, brand, Some(PHYSICAL), lo, hi))
      && (r.classification == DIGITAL ==> r.id in Seqs(rows, brand, Some(DIGITAL), lo, hi))
  }

  predicate ClassAddsNothing(rows: seq<Row>, more: seq<Row>, brand: Option<string>, class': Option<string>, lo: int,
                             hi: int)
  {
    forall r | r in more && Selected(r, brand) && InClass(r, class') && lo < r.id <= hi ::
      r.id in Seqs(rows, brand, class', lo, hi)
  }

  lemma SeqsAppend(rows: seq<Row>, more: seq<Row>, brand: Option<string>, class': Option<string>, lo: int, hi: int)
    ensures |Seqs(rows, brand, class', lo, hi)| <= |Seqs(rows + more, brand, class', lo, hi)|
    ensures |Seqs(rows + more, brand, class', lo, hi)| == |Seqs(rows, brand, class', lo, hi)| <==>
            ClassAddsNothing(rows, more, brand, class', lo, hi)
  {
    var before, after := Seqs(rows, brand, class', lo, hi), Seqs(rows + more, brand, class', lo, hi);
    assert before <= after;
    assert after == before + (after - before);
    if ClassAddsNothing(rows, more, brand, class', lo, hi) {
      assert after == before;
    } else {
      var r :| r in more && Selected(r, brand) && InClass(r, class') && lo < r.id <= hi && r.id !in before;
      assert r in rows + more && r.id in after - before;
    }
  }

  /** More rows leave a recount as it is exactly if they add nothing to it. */
  lemma TallyAppend(rows: seq<Row>, more: seq<Row>, brand: Option<string>, lo: int, hi: int)
    ensures Tally(rows + more, brand, lo, hi) == Tally(rows, brand, lo, hi) <==>
            AddsNothing(rows, more, brand, lo, hi)
  {
    SeqsAppend(rows, more, brand, None, lo, hi);
    SeqsAppend(rows, more, brand, Some(PHYSICAL), lo, hi);
    SeqsAppend(rows, more, brand, Some(DIGITAL), lo, hi);
  }

  /** An invalid row counts for nothing; for a brand neither does a row that is not in English, not visible or not
      of that brand. */
  lemma LeavesAlone(rows: seq<Row>, r: Row, brand: Option<string>, lo: int, hi: int)
    requires !r.valid || (brand.Some? && (r.language != "en" || !r.visible || r.brand != brand || brand == Some("")))
    ensures Tally(rows + [r], brand, lo, hi) == Tally(rows, brand, lo, hi)
  {
    TallyAppend(rows, [r], brand, lo, hi);
  }

  /** The first row of a report in the range counts once, and once in its class: without a brand whatever its
      language, visibility and brand. */
  lemma CountsOnce(rows: seq<Row>, r: Row, brand: Option<string>, lo: int, hi: int)
    requires r.valid && lo < r.id <= hi && forall q | q in rows :: q.id != r.id
    requires brand.Some? ==> r.language == "en" && r.visible && r.brand == brand && brand != Some("")
    ensures var t := Tally(rows, brand, lo, hi);
            Tally(rows + [r], brand, lo, hi) ==
            Totals(t.total + 1, t.physical + (if r.classification == "physical" then 1 else 0),
                   t.digital + (if r.classification == "digital" then 1 else 0))
  {
    SeqsAdd(rows, r, brand, None, lo, hi);
    SeqsAdd(rows, r, brand, Some(PHYSICAL), lo, hi);
    SeqsAdd(rows, r, brand, Some(DIGITAL), lo, hi);
  }

  lemma SeqsAdd(rows: seq<Row>, r: Row, brand: Option<string>, class': Option<string>, lo: int, hi: int)
    requires Selected(r, brand) && lo < r.id <= hi && forall q | q in rows :: q.id != r.id
    ensures |Seqs(rows + [r], brand, class', lo, hi)| ==
            |Seqs(rows, brand, class', lo, hi)| + (if InClass(r, class') then 1 else 0)
  {
    var before := Seqs(rows, brand, class', lo, hi);
    assert Seqs(rows + [r], brand, class', lo, hi) == before + (if InClass(r, class') then {r.id} else {});
    assert r.id !in before;
  }

  lemma TallyEmpty(rows: seq<Row>, brand: Option<string>, lo: int, hi: int)
    requires forall r | r in rows && Selected(r, brand) :: !(lo < r.id <= hi)
    ensures Tally(rows, brand, lo, hi) == ZERO
  {
    assert Seqs(rows, brand, None, lo, hi) == {};
    assert Seqs(rows, brand, Some(PHYSICAL), lo, hi) == {};
    assert Seqs(rows, brand, Some(DIGITAL), lo, hi) == {};
  }

  /** When every valid row has one of the two classes, the total lies between the larger class and their sum. */
  lemma TotalBetween(rows: seq<Row>, lo: int, hi: int)
    requires forall r | r in rows && r.valid :: r.classification == PHYSICAL || r.classification == DIGITAL
    ensures var t := Tally(rows, None, lo, hi);
            t.physical <= t.total && t.digital <= t.total && t.total <= t.physical + t.digital
  {
    var all := Seqs(rows, None, None, lo, hi);
    var p := Seqs(rows, None, Some(PHYSICAL), lo, hi);
    var d := Seqs(rows, None, Some(DIGITAL), lo, hi);
    assert all == p + d;
    assert all == p + (all - p) && all == d + (all - d);
    assert p + d == p + (d - p) && d == (d - p) + (d * p);
  }
}
