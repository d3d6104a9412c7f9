/** The two services' brand-name normalisers.  Strings are sequences of characters and case folding covers
    ASCII. */
module BrandNames {
  import opened Text

  // ---------------------------------------------------------------- the string calls

  /** `strings.ReplaceAll(s, c, "")` for a single character. */
  function RemoveChar(s: string, c: char): string {
    if s == "" then ""
    else if s[0] == c then RemoveChar(s[1..], c)
    else [s[0]] + RemoveChar(s[1..], c)
  }

  predicate StartsAnd(s: string) { |s| >= 3 && s[0] == 'a' && s[1] == 'n' && s[2] == 'd' }

  /** `strings.ReplaceAll(s, "and", "")`: from left to right, what is removed does not join up again. */
  function RemoveAnd(s: string): string {
    if s == "" then ""
    else if StartsAnd(s) then RemoveAnd(s[3..])
    else [s[0]] + RemoveAnd(s[1..])
  }

  /** `strings.Join(strings.Fields(s), "")` */
  function DropSpaces(s: string): string {
    if s == "" then ""
    else if IsSpace(s[0]) then DropSpaces(s[1..])
    else [s[0]] + DropSpaces(s[1..])
  }

  // ---------------------------------------------------------------- the normalisers

  const APOSTROPHE := '\''
  const QUOTE := '\U{2019}'

  /** The characters that the customer service removes, in its order. */
  function CustomerStripped(s: string): string {
    var s := RemoveChar(s, '-');
    var s := RemoveChar(s, '_');
    var s := RemoveChar(s, '.');
    var s := RemoveChar(s, ',');
    var s := RemoveChar(s, APOSTROPHE);
    var s := RemoveChar(s, QUOTE);
    RemoveChar(s, '&')
  }

  function CustomerName(brand: string): string {
    if brand == "" then "" else DropSpaces(RemoveAnd(CustomerStripped(Lower(brand))))
  }

  /** The brand dashboard leaves apostrophes alone. */
  function DashboardStripped(s: string): string {
    var s := RemoveChar(s, '-');
    var s := RemoveChar(s, '_');
    var s := RemoveChar(s, '.');
    var s := RemoveChar(s, ',');
    RemoveChar(s, '&')
  }

  function DashboardName(brand: string): string { DropSpaces(RemoveAnd(DashboardStripped(Lower(brand)))) }

  // ---------------------------------------------------------------- what they remove

  predicate IsDashboardMark(c: char) { c == '-' || c == '_' || c == '.' || c == ',' || c == '&' }

  predicate IsCustomerMark(c: char) { IsDashboardMark(c) || c == APOSTROPHE || c == QUOTE }

  lemma {:induction false} RemoveCharKeeps(s: string, c: char)
    ensures |RemoveChar(s, c)| <= |s| && forall d :: d in RemoveChar(s, c) <==> d in s && d != c
    ensures c !in s ==> RemoveChar(s, c) == s
  {
    if s != "" {
      assert s == [s[0]] + s[1..];
      RemoveCharKeeps(s[1..], c);
    }
  }

  lemma {:induction false} RemoveCharsSwap(s: string, c: char, d: char)
    ensures RemoveChar(RemoveChar(s, c), d) == RemoveChar(RemoveChar(s, d), c)
  {
    if s != "" {
      assert ([s[0]] + RemoveChar(s[1..], c))[1..] == RemoveChar(s[1..], c);
      assert ([s[0]] + RemoveChar(s[1..], d))[1..] == RemoveChar(s[1..], d);
      RemoveCharsSwap(s[1..], c, d);
    }
  }

  lemma DashboardKeeps(s: string)
    ensures |DashboardStripped(s)| <= |s| && forall d :: d in DashboardStripped(s) <==> d in s && !IsDashboardMark(d)
    ensures (forall d | d in s :: !IsDashboardMark(d)) ==> DashboardStripped(s) == s
  {
    var s1 := RemoveChar(s, '-');
    var s2 := RemoveChar(s1, '_');
    var s3 := RemoveChar(s2, '.');
    var s4 := RemoveChar(s3, ',');
    RemoveCharKeeps(s, '-');
    RemoveCharKeeps(s1, '_');
    RemoveCharKeeps(s2, '.');
    RemoveCharKeeps(s3, ',');
    RemoveCharKeeps(s4, '&');
  }

  lemma CustomerAsDashboard(s: string)
    ensures CustomerStripped(s) == RemoveChar(RemoveChar(DashboardStripped(s), APOSTROPHE), QUOTE)
  {
    var s4 := RemoveChar(RemoveChar(RemoveChar(RemoveChar(s, '-'), '_'), '.'), ',');
    RemoveCharsSwap(RemoveChar(s4, APOSTROPHE), QUOTE, '&');
    RemoveCharsSwap(s4, APOSTROPHE, '&');
  }

  lemma CustomerKeeps(s: string)
    ensures |CustomerStripped(s)| <= |s| && forall d :: d in CustomerStripped(s) <==> d in s && !IsCustomerMark(d)
    ensures (forall d | d in s :: !IsCustomerMark(d)) ==> CustomerStripped(s) == s
  {
    CustomerAsDashboard(s);
    DashboardKeeps(s);
    RemoveCharKeeps(DashboardStripped(s), APOSTROPHE);
    RemoveCharKeeps(RemoveChar(DashboardStripped(s), APOSTROPHE), QUOTE);
  }

  /** Only `a`, `n` and `d` can go missing. */
  lemma {:induction false} RemoveAndKeeps(s: string)
    ensures |RemoveAnd(s)| <= |s| && forall c | c in RemoveAnd(s) :: c in s
    ensures forall c | c in s && c !in "and" :: c in RemoveAnd(s)
  {
    if s != "" {
      if StartsAnd(s) {
        assert s == "and" + s[3..];
        RemoveAndKeeps(s[3..]);
      } else {
        assert s == [s[0]] + s[1..];
        RemoveAndKeeps(s[1..]);
      }
    }
  }

  lemma {:induction false} DropSpacesKeeps(s: string)
    ensures |DropSpaces(s)| <= |s| && forall c :: c in DropSpaces(s) <==> c in s && !IsSpace(c)
    ensures (forall c | c in s :: !IsSpace(c)) ==> DropSpaces(s) == s
  {
    if s != "" {
      assert s == [s[0]] + s[1..];
      DropSpacesKeeps(s[1..]);
    }
  }

  /** Every place where `and` starts, removed or not. */
  ghost predicate HasAnd(s: string) { exists i | 0 <= i <= |s| :: StartsAnd(s[i..]) }

  lemma HasAndLater(s: string)
    requires s != "" && !StartsAnd(s)
    ensures HasAnd(s) <==> HasAnd(s[1..])
  {
    if HasAnd(s) {
      var i :| 0 <= i <= |s| && StartsAnd(s[i..]);
      assert s[0..] == s;
      assert s[i..] == s[1..][i - 1..];
    }
    if HasAnd(s[1..]) {
      var i :| 0 <= i <= |s[1..]| && StartsAnd(s[1..][i..]);
      assert s[i + 1..] == s[1..][i..];
    }
  }

  lemma {:induction false} RemoveAndFixed(s: string)
    ensures HasAnd(s) ==> |RemoveAnd(s)| <= |s| - 3
    ensures !HasAnd(s) ==> RemoveAnd(s) == s
  {
    if s != "" {
      if StartsAnd(s) {
        RemoveAndKeeps(s[3..]);
        assert s[0..] == s;
      } else {
        HasAndLater(s);
        RemoveAndFixed(s[1..]);
      }
    }
  }

  // ---------------------------------------------------------------- main results

  /** Folded, with neither marks nor spaces left. */
  ghost predicate IsBare(s: string) { forall c | c in s :: LowerChar(c) == c && !IsCustomerMark(c) && !IsSpace(c) }

  lemma CustomerShape(brand: string)
    ensures IsBare(CustomerName(brand)) && |CustomerName(brand)| <= |brand|
  {
    var s := CustomerStripped(Lower(brand));
    CustomerKeeps(Lower(brand));
    RemoveAndKeeps(s);
    DropSpacesKeeps(RemoveAnd(s));
    assert forall c | c in Lower(brand) :: LowerChar(c) == c;
  }

  lemma LowerIsFixed(s: string)
    requires forall c | c in s :: LowerChar(c) == c
    ensures Lower(s) == s
  {
    assert forall i | 0 <= i < |s| :: s[i] in s;
  }

  lemma StrippedIsFixed(s: string)
    ensures CustomerStripped(Lower(CustomerStripped(Lower(s)))) == CustomerStripped(Lower(s))
  {
    var t := CustomerStripped(Lower(s));
    assert forall c | c in Lower(s) :: LowerChar(c) == c;
    CustomerKeeps(Lower(s));
    LowerIsFixed(t);
    CustomerKeeps(t);
  }

  /** Case and marks never matter: without them the name is the same. */
  lemma CaseAndMarksDoNotMatter(brand: string)
    ensures CustomerName(CustomerStripped(Lower(brand))) == CustomerName(brand)
  {
    StrippedIsFixed(brand);
    if brand == "" {
      assert CustomerStripped("") == "";
    }
  }

  lemma OfBare(s: string)
    requires IsBare(s)
    ensures CustomerName(s) == RemoveAnd(s)
  {
    LowerIsFixed(s);
    CustomerKeeps(s);
    RemoveAndKeeps(s);
    DropSpacesKeeps(RemoveAnd(s));
  }

  /** A normalised name is a fixed point exactly if no `and` is left in it. */
  lemma IdempotentExactlyWhen(brand: string)
    ensures CustomerName(CustomerName(brand)) == CustomerName(brand) <==> !HasAnd(CustomerName(brand))
  {
    CustomerShape(brand);
    OfBare(CustomerName(brand));
    RemoveAndFixed(CustomerName(brand));
  }

  // ---------------------------------------------------------------- the same on the input

  predicate AndAt(s: string, i: int) { 0 <= i <= |s| - 3 && s[i] == 'a' && s[i + 1] == 'n' && s[i + 2] == 'd' }

  /** A space, or a letter of an `and`. */
  predicate Goes(s: string, i: nat)
    requires i < |s|
  {
    IsSpace(s[i]) || AndAt(s, i) || AndAt(s, i - 1) || AndAt(s, i - 2)
  }

  predicate AllGo(s: string, from: nat, to: nat)
    requires to <= |s|
  {
    forall i | from <= i < to :: Goes(s, i)
  }

  function Rest(s: string, i: nat): string
    requires i <= |s|
    decreases |s| - i
  {
    if i == |s| then "" else if Goes(s, i) then Rest(s, i + 1) else [s[i]] + Rest(s, i + 1)
  }

  /** What is removed are exactly the spaces and the letters of all `and`s. */
  lemma {:induction false} RestIsName(s: string, i: nat)
    requires i <= |s| && !AndAt(s, i - 1) && !AndAt(s, i - 2)
    ensures DropSpaces(RemoveAnd(s[i..])) == Rest(s, i)
    decreases |s| - i
  {
    if i < |s| {
      if AndAt(s, i) {
        assert s[i..][3..] == s[i + 3..];
        assert Rest(s, i) == Rest(s, i + 1) == Rest(s, i + 2) == Rest(s, i + 3);
        RestIsName(s, i + 3);
      } else {
        assert s[i..][1..] == s[i + 1..];
        var later := RemoveAnd(s[i + 1..]);
        assert ([s[i]] + later)[1..] == later;
        RestIsName(s, i + 1);
      }
    }
  }

  /** The string without these characters. */
  function Without(s: string, marks: set<char>): string {
    if s == "" then "" else (if s[0] in marks then "" else [s[0]]) + Without(s[1..], marks)
  }

  lemma {:induction false} RemoveOneMore(s: string, marks: set<char>, c: char)
    ensures RemoveChar(Without(s, marks), c) == Without(s, marks + {c})
  {
    if s != "" {
      RemoveOneMore(s[1..], marks, c);
      var rest := Without(s[1..], marks);
      assert s[0] !in marks ==> ([s[0]] + rest)[1..] == rest;
      assert "" + rest == rest;
    }
  }

  lemma {:induction false} WithoutNone(s: string)
    ensures Without(s, {}) == s
  {
    if s != "" { WithoutNone(s[1..]); }
  }

  lemma {:induction false} StrippedIsWithout(s: string)
    ensures CustomerStripped(s) == Without(s, {'-', '_', '.', ',', '\'', '\U{2019}', '&'})
  {
    WithoutNone(s);
    RemoveOneMore(s, {}, '-');
    RemoveOneMore(s, {} + {'-'}, '_');
    RemoveOneMore(s, {} + {'-'} + {'_'}, '.');
    RemoveOneMore(s, {} + {'-'} + {'_'} + {'.'}, ',');
    RemoveOneMore(s, {} + {'-'} + {'_'} + {'.'} + {','}, '\'');
    RemoveOneMore(s, {} + {'-'} + {'_'} + {'.'} + {','} + {'\''}, '\U{2019}');
    RemoveOneMore(s, {} + {'-'} + {'_'} + {'.'} + {','} + {'\''} + {'\U{2019}'}, '&');
    assert {} + {'-'} + {'_'} + {'.'} + {','} + {'\''} + {'\U{2019}'} + {'&'}
        == {'-', '_', '.', ',', '\'', '\U{2019}', '&'};
  }

  /** The name of a brand is its lower-case letters without the seven marks, then without the spaces and all `and`s
      of what is left, in order. */
  lemma NameIsRest(brand: string)
    ensures CustomerName(brand) == Rest(Without(Lower(brand), {'-', '_', '.', ',', '\'', '\U{2019}', '&'}), 0)
  {
    StrippedIsWithout(Lower(brand));
    var s := CustomerStripped(Lower(brand));
    assert s[0..] == s;
    RestIsName(s, 0);
    if brand == "" { assert CustomerStripped("") == ""; }
  }

  /** The next character that stays. */
  function NextKept(s: string, i: nat): (j: nat)
    requires i <= |s|
    ensures i <= j <= |s| && AllGo(s, i, j) && (j < |s| ==> !Goes(s, j))
    ensures Rest(s, i) == if j < |s| then [s[j]] + Rest(s, j + 1) else ""
    decreases |s| - i
  {
    if i == |s| then i else if Goes(s, i) then NextKept(s, i + 1) else i
  }

  /** An `a`, an `n` and a `d` that stay, with nothing between them that stays. */
  predicate IsTriple(s: string, i: nat, j: nat, k: nat) {
    && i < j < k < |s| && s[i] == 'a' && s[j] == 'n' && s[k] == 'd'
    && !Goes(s, i) && !Goes(s, j) && !Goes(s, k) && AllGo(s, i + 1, j) && AllGo(s, j + 1, k)
  }

  ghost predicate JoinsUp(s: string, from: nat) { exists i, j, k :: from <= i && IsTriple(s, i, j, k) }

  ghost predicate TripleAt(s: string, i: nat) { exists j, k :: IsTriple(s, i, j, k) }

  lemma {:induction false} RestHead(s: string, i: nat, j: nat)
    requires i <= j < |s| && AllGo(s, i, j) && !Goes(s, j)
    ensures Rest(s, i) == [s[j]] + Rest(s, j + 1)
    decreases j - i
  {
    if i < j { RestHead(s, i + 1, j); }
  }

  lemma ThreeLetters(t: string, u: string, v: string, w: string)
    requires t == ['a'] + u && u == ['n'] + v && v == ['d'] + w
    ensures StartsAnd(t)
  {
  }

  lemma TripleStarts(s: string, i: nat, j: nat, k: nat)
    requires IsTriple(s, i, j, k)
    ensures StartsAnd(Rest(s, i))
  {
    RestHead(s, i, i);
    RestHead(s, i + 1, j);
    RestHead(s, j + 1, k);
    ThreeLetters(Rest(s, i), Rest(s, i + 1), Rest(s, j + 1), Rest(s, k + 1));
  }

  lemma StartsTriple(s: string, i: nat)
    requires i < |s| && !Goes(s, i) && StartsAnd(Rest(s, i))
    ensures TripleAt(s, i)
  {
    RestHead(s, i, i);
    Tail(s[i], Rest(s, i + 1));
    var j := NextKept(s, i + 1);
    Tail(s[j], Rest(s, j + 1));
    var k := NextKept(s, j + 1);
    assert IsTriple(s, i, j, k);
  }

  lemma Tail(c: char, t: string)
    ensures ([c] + t)[0] == c && ([c] + t)[1..] == t && |[c] + t| == 1 + |t|
    ensures forall i | 0 <= i < |t| :: ([c] + t)[i + 1] == t[i]
  {
  }

  lemma {:induction false} HasAndExactlyWhen(s: string, i: nat)
    requires i <= |s|
    ensures HasAnd(Rest(s, i)) <==> JoinsUp(s, i)
    decreases |s| - i
  {
    if i < |s| {
      HasAndExactlyWhen(s, i + 1);
      if !Goes(s, i) {
        if TripleAt(s, i) {
          var j: nat, k: nat :| IsTriple(s, i, j, k);
          TripleStarts(s, i, j, k);
        }
        if StartsAnd(Rest(s, i)) { StartsTriple(s, i); }
        assert Rest(s, i)[1..] == Rest(s, i + 1) && Rest(s, i)[0..] == Rest(s, i);
        if !StartsAnd(Rest(s, i)) { HasAndLater(Rest(s, i)); }
      }
      assert JoinsUp(s, i) <==> JoinsUp(s, i + 1) || TripleAt(s, i);
    }
  }

  /** Normalising twice equals normalising once exactly if, in the folded input without marks, no `a`, `n` and
      `d` that are not letters of an `and` stand in this order with nothing between them but spaces and `and`s. */
  lemma IdempotentExactlyWhenApart(brand: string)
    ensures CustomerName(CustomerName(brand)) == CustomerName(brand) <==> !JoinsUp(CustomerStripped(Lower(brand)), 0)
  {
    var s := CustomerStripped(Lower(brand));
    IdempotentExactlyWhen(brand);
    assert s[0..] == s;
    RestIsName(s, 0);
    HasAndExactlyWhen(s, 0);
    if brand == "" { assert CustomerStripped("") == ""; }
  }

  /** `and` can come about by the removal of the space in it. */
  lemma NotIdempotent()
    ensures CustomerName(CustomerName("A nd")) != CustomerName("A nd")
  {
    var brand, folded, once := "A nd", "a nd", "and";
    assert Lower(brand) == folded by { LowerOfName(); }
    assert DropSpaces(RemoveAnd(folded)) == once by { SpacedAnd(); }
    assert RemoveAnd(once) != once by { WholeAnd(); }
    assert IsUnmarked(folded) by { SpacedAndIsUnmarked(); }
    assert IsBare(once) by { AndIsBare(); }
    Twice(brand, folded, once);
  }

  ghost predicate IsUnmarked(s: string) { forall c | c in s :: !IsCustomerMark(c) }

  lemma SpacedAndIsUnmarked()
    ensures IsUnmarked("a nd")
  {
  }

  lemma AndIsBare()
    ensures IsBare("and")
  {
  }

  lemma Twice(brand: string, folded: string, once: string)
    requires brand != "" && Lower(brand) == folded && IsUnmarked(folded) && IsBare(once)
    requires DropSpaces(RemoveAnd(folded)) == once && RemoveAnd(once) != once
    ensures CustomerName(CustomerName(brand)) != CustomerName(brand)
  {
    CustomerKeeps(folded);
    OfBare(once);
  }

  lemma LowerOfName()
    ensures Lower("A nd") == "a nd"
  {
  }

  lemma WholeAnd()
    ensures RemoveAnd("and") == ""
  {
    assert StartsAnd("and");
    assert "and"[3..] == "";
  }

  lemma SpacedAnd()
    ensures DropSpaces(RemoveAnd("a nd")) == "and"
  {
    assert RemoveAnd("d") == ['d'] + RemoveAnd("");
    assert RemoveAnd("nd") == ['n'] + RemoveAnd("d");
    assert RemoveAnd(" nd") == [' '] + RemoveAnd("nd");
    assert RemoveAnd("a nd") == ['a'] + RemoveAnd(" nd");
    assert DropSpaces("d") == ['d'] + DropSpaces("");
    assert DropSpaces("nd") == ['n'] + DropSpaces("d");
    assert DropSpaces(" nd") == DropSpaces("nd");
    assert DropSpaces("a nd") == ['a'] + DropSpaces(" nd");
  }

  function Repeated(brand: string, times: nat): string {
    if times == 0 then brand else CustomerName(Repeated(brand, times - 1))
  }

  /** Normalising again and again reaches a fixed point: after |brand| / 3 + 1 calls nothing changes. */
  lemma FixedPointReached(brand: string)
    ensures var end := Repeated(brand, |brand| / 3 + 1); CustomerName(end) == end
  {
    var end := Repeated(brand, |brand| / 3 + 1);
    RunsShorten(brand, |brand| / 3 + 1);
    OfBare(end);
    RemoveAndFixed(end);
  }

  lemma {:induction false} RunsShorten(brand: string, times: nat)
    requires times >= 1
    ensures var end := Repeated(brand, times);
            IsBare(end) && (CustomerName(end) == end || |end| <= |brand| - 3 * (times - 1))
  {
    if times == 1 {
      assert Repeated(brand, 0) == brand;
      CustomerShape(brand);
    } else {
      var last := Repeated(brand, times - 1);
      RunsShorten(brand, times - 1);
      OfBare(last);
      CustomerShape(last);
      RemoveAndFixed(last);
    }
  }

  /** The two services give a brand the same name exactly if it has no apostrophe. */
  lemma SameNameExactlyWhen(brand: string)
    ensures CustomerName(brand) == DashboardName(brand) <==> APOSTROPHE !in brand && QUOTE !in brand
  {
    if APOSTROPHE in brand {
      MarkStays(brand, APOSTROPHE);
    } else if QUOTE in brand {
      MarkStays(brand, QUOTE);
    } else {
      var s := Lower(brand);
      CustomerAsDashboard(s);
      DashboardKeeps(s);
      assert APOSTROPHE !in s && QUOTE !in s;
      RemoveCharKeeps(DashboardStripped(s), APOSTROPHE);
      RemoveCharKeeps(DashboardStripped(s), QUOTE);
    }
  }

  lemma MarkStays(brand: string, c: char)
    requires c in brand && (c == APOSTROPHE || c == QUOTE)
    ensures c in DashboardName(brand) && c !in CustomerName(brand)
  {
    LowerKeeps(brand, c);
    DashboardStays(Lower(brand), c);
    CustomerShape(brand);
  }

  lemma DashboardStays(s: string, c: char)
    requires c in s && !IsDashboardMark(c) && !IsSpace(c) && c !in "and"
    ensures c in DropSpaces(RemoveAnd(DashboardStripped(s)))
  {
    DashboardKeeps(s);
    RemoveAndKeeps(DashboardStripped(s));
    DropSpacesKeeps(RemoveAnd(DashboardStripped(s)));
  }

  lemma LowerKeeps(s: string, c: char)
    requires c in s && LowerChar(c) == c
    ensures c in Lower(s)
  {
    var i :| 0 <= i < |s| && s[i] == c;
    assert Lower(s)[i] == c;
  }
}
