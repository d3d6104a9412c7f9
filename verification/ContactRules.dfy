/** Which candidates are kept as contact addresses, told from the characters alone. */
module ContactRules {
  import opened Wrappers
  import opened Text
  import opened Contacts

  predicate OccursAt(part: string, s: string, i: int) { 0 <= i <= |s| - |part| && s[i..i + |part|] == part }

  ghost predicate Occurs(part: string, s: string) { exists i :: OccursAt(part, s, i) }

  ghost predicate IsPlaceholder(e: string) {
    || Occurs("test@", e) || Occurs("example@", e) || Occurs("sample@", e) || Occurs("demo@", e)
    || Occurs("noreply@", e) || Occurs("no-reply@", e) || Occurs("donotreply@", e)
    || Occurs("admin@localhost", e) || Occurs("user@localhost", e)
    || Occurs("@example.com", e) || Occurs("@test.com", e) || Occurs("@localhost", e)
  }

  predicate IsDomain(d: string) { d != "" && '.' in d && d[0] != '.' && d[|d| - 1] != '.' && '_' !in d }

  /** Exactly one `@`, between a name and a domain. */
  ghost predicate IsAddress(e: string) {
    exists name, domain ::
      e == name + "@" + domain && name != "" && '@' !in name && '@' !in domain && IsDomain(domain)
  }

  ghost predicate IsKept(e: string) {
    && IsAddress(e) && !IsPlaceholder(e) && ByteLen(e) >= 6
    && forall c | c in e :: c != ' ' && c != '<' && c != '>' && c != '{' && c != '}'
  }

  predicate AllSpaces(s: string) { forall c | c in s :: IsSpace(c) }

  /** The token without the white space around it. */
  predicate IsCore(token: string, before: string, core: string, after: string) {
    token == before + core + after && AllSpaces(before) && AllSpaces(after) && NoEdgeSpace(core)
  }

  // ---------------------------------------------------------------- trimming

  lemma {:induction false} TrimLeftSplits(s: string) returns (before: string)
    ensures s == before + TrimLeft(s) && AllSpaces(before)
  {
    if s != "" && IsSpace(s[0]) {
      before := TrimLeftSplits(s[1..]);
      before := [s[0]] + before;
    } else {
      before := "";
    }
  }

  lemma {:induction false} TrimRightSplits(s: string) returns (after: string)
    ensures s == TrimRight(s) + after && AllSpaces(after)
  {
    if s != "" && IsSpace(s[|s| - 1]) {
      after := TrimRightSplits(s[..|s| - 1]);
      after := after + [s[|s| - 1]];
    } else {
      after := "";
    }
  }

  lemma TrimIsCore(token: string) returns (before: string, after: string)
    ensures IsCore(token, before, Trim(token), after)
  {
    before := TrimLeftSplits(token);
    after := TrimRightSplits(TrimLeft(token));
    TrimShape(token);
  }

  lemma {:induction false} TrimLeftDrops(before: string, s: string)
    requires AllSpaces(before) && (s != "" ==> !IsSpace(s[0]))
    ensures TrimLeft(before + s) == s
  {
    if before == "" {
      assert before + s == s;
    } else {
      assert (before + s)[1..] == before[1..] + s;
      TrimLeftDrops(before[1..], s);
    }
  }

  lemma {:induction false} TrimRightDrops(s: string, after: string)
    requires AllSpaces(after) && (s != "" ==> !IsSpace(s[|s| - 1]))
    ensures TrimRight(s + after) == s
  {
    if after == "" {
      assert s + after == s;
    } else {
      var n := |after| - 1;
      assert (s + after)[..|s + after| - 1] == s + after[..n];
      TrimRightDrops(s, after[..n]);
    }
  }

  lemma CoreIsTrim(token: string, before: string, core: string, after: string)
    requires IsCore(token, before, core, after)
    ensures Trim(token) == core
  {
    if core == "" {
      assert token == (before + after) + "";
      TrimLeftDrops(before + after, "");
    } else {
      assert token == before + (core + after);
      TrimLeftDrops(before, core + after);
      TrimRightDrops(core, after);
    }
  }

  // ---------------------------------------------------------------- the checks

  lemma OccursLater(part: string, s: string, i: nat)
    requires s != ""
    ensures OccursAt(part, s, i + 1) <==> OccursAt(part, s[1..], i)
  {
    if i + 1 + |part| <= |s| { assert s[i + 1..i + 1 + |part|] == s[1..][i..i + |part|]; }
  }

  lemma OccursFirst(part: string, s: string)
    ensures OccursAt(part, s, 0) <==> part <= s
  {
  }

  lemma {:induction false} ContainsIsOccurs(s: string, part: string)
    ensures Contains(s, part) <==> Occurs(part, s)
  {
    OccursFirst(part, s);
    if s != "" {
      ContainsIsOccurs(s[1..], part);
      if i :| OccursAt(part, s, i) {
        if i > 0 { OccursLater(part, s, i - 1); }
      }
      if i :| OccursAt(part, s[1..], i) { OccursLater(part, s, i); }
    }
  }

  lemma {:induction false} ContainsAnyOf(s: string, parts: seq<string>)
    ensures ContainsAny(s, parts) <==> exists p :: p in parts && Occurs(p, s)
  {
    if parts != [] {
      ContainsIsOccurs(s, parts[0]);
      ContainsAnyOf(s, parts[1..]);
      assert parts == [parts[0]] + parts[1..];
    }
  }

  lemma Placeholders(e: string)
    ensures ContainsAny(e, PLACEHOLDERS) <==> IsPlaceholder(e)
  {
    ContainsAnyOf(e, PLACEHOLDERS);
    Listed(e, PLACEHOLDERS);
  }

  lemma Listed(e: string, parts: seq<string>)
    requires parts == PLACEHOLDERS
    ensures (exists p :: p in parts && Occurs(p, e)) <==> IsPlaceholder(e)
  {
    assert |parts| == 12 && parts[0] == "test@" && parts[1] == "example@" && parts[2] == "sample@";
    assert parts[3] == "demo@" && parts[4] == "noreply@" && parts[5] == "no-reply@" && parts[6] == "donotreply@";
    assert parts[7] == "admin@localhost" && parts[8] == "user@localhost";
    assert parts[9] == "@example.com" && parts[10] == "@test.com" && parts[11] == "@localhost";
  }

  lemma SplitAt(name: string, domain: string)
    requires '@' !in name && '@' !in domain
    ensures Split(name + "@" + domain, '@') == [name, domain]
  {
    SplitAppend(name, domain, '@');
    SplitOne(name, '@');
    SplitOne(domain, '@');
  }

  lemma TwoPieces(e: string)
    requires |Split(e, '@')| == 2
    ensures var parts := Split(e, '@'); e == parts[0] + "@" + parts[1] && '@' !in parts[0] && '@' !in parts[1]
  {
    SplitOne(e, '@');
    var k :| 0 <= k < |e| && e[k] == '@';
    assert e == e[..k] + "@" + e[k + 1..];
    SplitAppend(e[..k], e[k + 1..], '@');
    SplitOne(e[..k], '@');
    SplitOne(e[k + 1..], '@');
  }

  ghost predicate SplitsWell(e: string) {
    var parts := Split(e, '@');
    |parts| == 2 && parts[0] != "" && IsDomain(parts[1])
  }

  lemma AddressSplits(e: string)
    ensures SplitsWell(e) <==> IsAddress(e)
  {
    if SplitsWell(e) { TwoPieces(e); }
    if name, domain :| e == name + "@" + domain && name != "" && '@' !in name && '@' !in domain && IsDomain(domain) {
      SplitAt(name, domain);
    }
  }

  lemma ReasonableIsKept(e: string)
    requires NoEdgeSpace(e) && Lower(e) == e
    ensures IsReasonableEmail(e) <==> IsKept(e)
  {
    TrimIsFixed(e);
    Placeholders(e);
    AddressSplits(e);
  }

  // ---------------------------------------------------------------- main results

  /** A token is kept exactly if, white space around it aside and in lower case, it is an address as above, and that
      is what is kept. */
  lemma KeptExactlyWhen(token: string, e: string)
    ensures Accept(token) == Some(e) <==>
            IsKept(e) && exists before, core, after :: IsCore(token, before, core, after) && e == Lower(core)
  {
    var before, after := TrimIsCore(token);
    var core := Trim(token);
    LowerShape(core);
    ReasonableIsKept(Lower(core));
    if a, c, b :| IsCore(token, a, c, b) && e == Lower(c) { CoreIsTrim(token, a, c, b); }
  }

  lemma {:induction false} LowerTail(s: string)
    requires s != ""
    ensures Lower(s)[1..] == Lower(s[1..]) && Lower(s)[..|s| - 1] == Lower(s[..|s| - 1])
  {
  }

  lemma {:induction false} LowerTrimLeft(s: string)
    ensures TrimLeft(Lower(s)) == Lower(TrimLeft(s))
  {
    if s != "" {
      LowerTail(s);
      LowerTrimLeft(s[1..]);
    }
  }

  lemma {:induction false} LowerTrimRight(s: string)
    ensures TrimRight(Lower(s)) == Lower(TrimRight(s))
  {
    if s != "" {
      LowerTail(s);
      LowerTrimRight(s[..|s| - 1]);
    }
  }

  /** Neither upper case nor white space around a token matters. */
  lemma CaseAndSpacesDoNotMatter(token: string, other: string, before: string, after: string)
    requires Lower(token) == Lower(other) && AllSpaces(before) && AllSpaces(after)
    ensures Accept(before + token + after) == Accept(other)
  {
    LowerTrimLeft(token);
    LowerTrimRight(TrimLeft(token));
    LowerTrimLeft(other);
    LowerTrimRight(TrimLeft(other));
    SpacesDoNotMatter(token, before, after);
  }

  lemma SpacesDoNotMatter(token: string, before: string, after: string)
    requires AllSpaces(before) && AllSpaces(after)
    ensures Trim(before + token + after) == Trim(token)
  {
    var a, b := TrimIsCore(token);
    assert before + token + after == (before + a) + Trim(token) + (b + after);
    CoreIsTrim(before + token + after, before + a, Trim(token), b + after);
  }
}
