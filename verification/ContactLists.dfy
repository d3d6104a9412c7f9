/** Comma-separated candidate lists: splitting, filtering, deduplication and capping, and the merge whose result
    is stored and read again on later passes.  What is kept of a token is up to a rule. */
module ContactLists {
  import opened Wrappers
  import opened Text

  const COMMA := ','

  /** What is kept of a token, if anything. */
  type Rule = string -> Option<string>

  // ---------------------------------------------------------------- lists, as functions

  function Tokens(raws: seq<string>): seq<string> { SplitAll(raws, COMMA) }

  function Clean(rule: Rule, tokens: seq<string>): seq<string> {
    if tokens == [] then []
    else
      var email := rule(tokens[|tokens| - 1]);
      Clean(rule, tokens[..|tokens| - 1]) + (if email.Some? then [email.value] else [])
  }

  /** First occurrences only. */
  function Dedup(emails: seq<string>): seq<string> {
    if emails == [] then []
    else
      var last := emails[|emails| - 1];
      var before := Dedup(emails[..|emails| - 1]);
      if last in before then before else before + [last]
  }

  /** At most `cap` of them, and one even if the cap is zero: the cap is looked at after a push. */
  function Capped(emails: seq<string>, cap: nat): seq<string> {
    var n := if cap == 0 then 1 else cap;
    if |emails| <= n then emails else emails[..n]
  }

  function NormalizedBy(rule: Rule, raws: seq<string>, cap: nat): seq<string> {
    Capped(Dedup(Clean(rule, Tokens(raws))), cap)
  }

  function Stored(emails: seq<string>): string { Join(emails, COMMA) }

  /** The list that a pass writes back, from the stored text and the new candidates. */
  function MergedBy(rule: Rule, stored: string, found: seq<string>, cap: nat): seq<string> {
    NormalizedBy(rule, [Stored(NormalizedBy(rule, [stored], cap)), Stored(found)], cap)
  }

  // ---------------------------------------------------------------- the loops

  /** What one more token adds. */
  function Extended(rule: Rule, out: seq<string>, token: string): seq<string> {
    var email := rule(token);
    if email.Some? && email.value !in out then out + [email.value] else out
  }

  /** What the first `n` tokens give. */
  function Gathered(rule: Rule, tokens: seq<string>, n: nat): seq<string>
    requires n <= |tokens|
  {
    if n == 0 then [] else Extended(rule, Gathered(rule, tokens, n - 1), tokens[n - 1])
  }

  lemma {:induction false} GatheredIsDedup(rule: Rule, tokens: seq<string>, n: nat)
    requires n <= |tokens|
    ensures Gathered(rule, tokens, n) == Dedup(Clean(rule, tokens[..n]))
  {
    if n > 0 {
      var before := tokens[..n - 1];
      GatheredIsDedup(rule, tokens, n - 1);
      CleanStep(rule, before, tokens[n - 1]);
      PrefixStep(tokens, n);
    }
  }

  lemma PrefixStep(tokens: seq<string>, n: nat)
    requires 0 < n <= |tokens|
    ensures tokens[..n] == tokens[..n - 1] + [tokens[n - 1]]
  {
  }

  lemma CleanStep(rule: Rule, tokens: seq<string>, token: string)
    ensures Dedup(Clean(rule, tokens + [token])) == Extended(rule, Dedup(Clean(rule, tokens)), token)
  {
    assert (tokens + [token])[..|tokens|] == tokens;
    var email, cleaned := rule(token), Clean(rule, tokens);
    assert cleaned + [] == cleaned;
    if email.Some? {
      assert (cleaned + [email.value])[..|cleaned|] == cleaned;
    }
  }

  lemma {:induction false} GatheredGrows(rule: Rule, tokens: seq<string>, n: nat, m: nat)
    requires n <= m <= |tokens|
    ensures Gathered(rule, tokens, n) <= Gathered(rule, tokens, m)
  {
    if n < m { GatheredGrows(rule, tokens, n, m - 1); }
  }

  lemma {:induction false} SplitAllAppend(a: seq<string>, b: seq<string>)
    ensures SplitAll(a + b, COMMA) == SplitAll(a, COMMA) + SplitAll(b, COMMA)
  {
    if b == [] {
      assert a + b == a;
    } else {
      assert (a + b)[..|a + b| - 1] == a + b[..|b| - 1];
      SplitAllAppend(a, b[..|b| - 1]);
    }
  }

  /** Where the tokens of one raw value stand among all tokens. */
  lemma TokensAt(raws: seq<string>, i: nat)
    requires i < |raws|
    ensures AreAt(Split(raws[i], COMMA), Tokens(raws), |Tokens(raws[..i])|)
    ensures |Tokens(raws[..i + 1])| == |Tokens(raws[..i])| + |Split(raws[i], COMMA)|
  {
    assert raws[..i + 1][..i] == raws[..i];
    assert raws == raws[..i + 1] + raws[i + 1..];
    SplitAllAppend(raws[..i + 1], raws[i + 1..]);
  }

  ghost predicate AreAt(tokens: seq<string>, all: seq<string>, from: nat) {
    from + |tokens| <= |all| && forall j | 0 <= j < |tokens| :: all[from + j] == tokens[j]
  }

  /** The state of the loops after `n` tokens. */
  ghost predicate IsSoFar(rule: Rule, all: seq<string>, n: nat, seen: set<string>, out: seq<string>, cap: nat) {
    n <= |all| && out == Gathered(rule, all, n) && seen == ToSet(out) && (out == [] || |out| < cap)
  }

  /** Once the cap is reached nothing that follows changes the result. */
  lemma StopsEarly(rule: Rule, raws: seq<string>, n: nat, cap: nat)
    requires n <= |Tokens(raws)| && |Gathered(rule, Tokens(raws), n)| == if cap == 0 then 1 else cap
    ensures Gathered(rule, Tokens(raws), n) == NormalizedBy(rule, raws, cap)
  {
    var all := Tokens(raws);
    GatheredGrows(rule, all, n, |all|);
    GatheredIsDedup(rule, all, |all|);
    assert all[..|all|] == all;
  }

  /** One token later: either the cap has just been reached, or the loop goes on. */
  lemma NextToken(rule: Rule, raws: seq<string>, n: nat, seen: set<string>, emails: seq<string>, seen': set<string>,
                  emails': seq<string>, cap: nat)
    requires n < |Tokens(raws)| && IsSoFar(rule, Tokens(raws), n, seen, emails, cap)
    requires emails' == Extended(rule, emails, Tokens(raws)[n]) && seen' == ToSet(emails')
    ensures if |emails'| > |emails| && |emails'| >= cap then emails' == NormalizedBy(rule, raws, cap)
            else IsSoFar(rule, Tokens(raws), n + 1, seen', emails', cap)
  {
    assert Gathered(rule, Tokens(raws), n + 1) == emails';
    if |emails'| > |emails| && |emails'| >= cap { StopsEarly(rule, raws, n + 1, cap); }
  }

  lemma RunsOut(rule: Rule, raws: seq<string>, n: nat, seen: set<string>, out: seq<string>, cap: nat)
    requires n == |Tokens(raws)| && IsSoFar(rule, Tokens(raws), n, seen, out, cap)
    ensures out == NormalizedBy(rule, raws, cap)
  {
    GatheredIsDedup(rule, Tokens(raws), n);
    assert Tokens(raws)[..n] == Tokens(raws);
  }

  method Normalize(rule: Rule, rawValues: seq<string>, maxContacts: nat) returns (out: seq<string>)
    ensures out == NormalizedBy(rule, rawValues, maxContacts)
  {
    var seen: set<string> := {};
    out := [];
    for i := 0 to |rawValues|
      invariant IsSoFar(rule, Tokens(rawValues), |Tokens(rawValues[..i])|, seen, out, maxContacts)
    {
      TokensAt(rawValues, i);
      var full;
      seen, out, full := AddTokens(rule, Split(rawValues[i], COMMA), seen, out, maxContacts, rawValues,
                                   |Tokens(rawValues[..i])|);
      if full { return; }
    }
    assert rawValues[..|rawValues|] == rawValues;
    RunsOut(rule, rawValues, |Tokens(rawValues)|, seen, out, maxContacts);
  }

  function ToSet(emails: seq<string>): set<string> { set e | e in emails }

  /** The inner loop: the tokens of one raw value, until the cap is reached. */
  method AddTokens(rule: Rule, tokens: seq<string>, seen: set<string>, out: seq<string>, cap: nat,
                   ghost raws: seq<string>,
                   ghost from: nat)
    returns (seen': set<string>, out': seq<string>, full: bool)
    requires AreAt(tokens, Tokens(raws), from) && IsSoFar(rule, Tokens(raws), from, seen, out, cap)
    ensures if full then out' == NormalizedBy(rule, raws, cap)
            else IsSoFar(rule, Tokens(raws), from + |tokens|, seen', out', cap)
  {
    seen', out', full := seen, out, false;
    ghost var all := Tokens(raws);
    for j := 0 to |tokens|
      invariant IsSoFar(rule, all, from + j, seen', out', cap)
    {
      var email := rule(tokens[j]);
      assert Gathered(rule, all, from + j + 1) == Extended(rule, out', tokens[j]);
      if email.Some? && email.value !in seen' {
        seen' := seen' + {email.value};
        out' := out' + [email.value];
        if |out'| >= cap {
          StopsEarly(rule, raws, from + j + 1, cap);
          return seen', out', true;
        }
      }
    }
  }

  // ---------------------------------------------------------------- the area-tagged variant

  datatype Candidate = Candidate(email: string, areaId: int)

  function Emails(cs: seq<Candidate>): (es: seq<string>)
    ensures |es| == |cs| && forall i | 0 <= i < |cs| :: es[i] == cs[i].email
  {
    seq(|cs|, i requires 0 <= i < |cs| => cs[i].email)
  }

  function Texts(raws: seq<(int, string)>): (ts: seq<string>)
    ensures |ts| == |raws| && forall i | 0 <= i < |raws| :: ts[i] == raws[i].1
  {
    seq(|raws|, i requires 0 <= i < |raws| => raws[i].1)
  }

  ghost predicate FromAreas(rule: Rule, cs: seq<Candidate>, raws: seq<(int, string)>) {
    forall c | c in cs :: exists r :: r in raws && r.0 == c.areaId && c.email in Clean(rule, Split(r.1, COMMA))
  }

  /** Gives the same addresses as the untagged normalisation, each with the id of an area that lists it. */
  method NormalizeTagged(rule: Rule, rawValues: seq<(int, string)>, maxContacts: nat) returns (out: seq<Candidate>)
    ensures Emails(out) == NormalizedBy(rule, Texts(rawValues), maxContacts)
    ensures FromAreas(rule, out, rawValues)
  {
    var seen: set<string> := {};
    out := [];
    ghost var texts := Texts(rawValues);
    for i := 0 to |rawValues|
      invariant IsSoFar(rule, Tokens(texts), |Tokens(texts[..i])|, seen, Emails(out), maxContacts)
      invariant FromAreas(rule, out, rawValues)
    {
      TokensAt(texts, i);
      var full;
      seen, out, full := AddAreaTokens(rule, rawValues, i, seen, out, maxContacts, texts, |Tokens(texts[..i])|);
      if full { return; }
    }
    assert texts[..|texts|] == texts;
    RunsOut(rule, texts, |Tokens(texts)|, seen, Emails(out), maxContacts);
  }

  method AddAreaTokens(rule: Rule, raws: seq<(int, string)>, i: nat, seen: set<string>, out: seq<Candidate>, cap: nat,
                       ghost texts: seq<string>, ghost from: nat)
    returns (seen': set<string>, out': seq<Candidate>, full: bool)
    requires i < |raws| && AreAt(Split(raws[i].1, COMMA), Tokens(texts), from)
    requires IsSoFar(rule, Tokens(texts), from, seen, Emails(out), cap) && FromAreas(rule, out, raws)
    ensures FromAreas(rule, out', raws)
    ensures if full then Emails(out') == NormalizedBy(rule, texts, cap)
            else IsSoFar(rule, Tokens(texts), from + |Split(raws[i].1, COMMA)|, seen', Emails(out'), cap)
  {
    seen', out', full := AddTagged(rule, Split(raws[i].1, COMMA), raws[i].0, seen, out, cap, texts, from);
    AreasAppend(rule, out, out', raws, i);
  }

  /** Each was kept of one of the tokens, and has the id. */
  predicate AllTagged(cs: seq<Candidate>, id: int, kept: seq<string>) {
    forall c | c in cs :: c.areaId == id && c.email in kept
  }

  /** What was added to a list. */
  predicate Grew(start: seq<Candidate>, out: seq<Candidate>, id: int, kept: seq<string>) {
    start <= out && AllTagged(out[|start|..], id, kept)
  }

  lemma AreasAppend(rule: Rule, start: seq<Candidate>, out: seq<Candidate>, raws: seq<(int, string)>, i: nat)
    requires i < |raws| && FromAreas(rule, start, raws)
    requires Grew(start, out, raws[i].0, Clean(rule, Split(raws[i].1, COMMA)))
    ensures FromAreas(rule, out, raws)
  {
    assert raws[i] in raws;
    assert forall c | c in out :: c in start || c in out[|start|..];
  }

  /** The tokens of one area. */
  method AddTagged(rule: Rule, tokens: seq<string>, id: int, seen: set<string>, out: seq<Candidate>, cap: nat,
                   ghost texts: seq<string>, ghost from: nat)
    returns (seen': set<string>, out': seq<Candidate>, full: bool)
    requires AreAt(tokens, Tokens(texts), from) && IsSoFar(rule, Tokens(texts), from, seen, Emails(out), cap)
    ensures Grew(out, out', id, Clean(rule, tokens))
    ensures if full then Emails(out') == NormalizedBy(rule, texts, cap)
            else IsSoFar(rule, Tokens(texts), from + |tokens|, seen', Emails(out'), cap)
  {
    seen', out', full := seen, out, false;
    ghost var all, kept := Tokens(texts), Clean(rule, tokens);
    for j := 0 to |tokens|
      invariant IsSoFar(rule, all, from + j, seen', Emails(out'), cap) && Grew(out, out', id, kept)
    {
      var pushed;
      ghost var before, emails := seen', Emails(out');
      seen', out', pushed := AddTaggedToken(rule, tokens, j, id, seen', out', out);
      assert tokens[j] == all[from + j];
      NextToken(rule, texts, from + j, before, emails, seen', Emails(out'), cap);
      if pushed && |out'| >= cap { return seen', out', true; }
    }
  }

  method AddTaggedToken(rule: Rule, tokens: seq<string>, j: nat, id: int, seen: set<string>, out: seq<Candidate>,
                        ghost start: seq<Candidate>)
    returns (seen': set<string>, out': seq<Candidate>, pushed: bool)
    requires j < |tokens| && seen == ToSet(Emails(out)) && Grew(start, out, id, Clean(rule, tokens))
    ensures Emails(out') == Extended(rule, Emails(out), tokens[j]) && seen' == ToSet(Emails(out'))
    ensures Grew(start, out', id, Clean(rule, tokens)) && |out'| == |out| + (if pushed then 1 else 0)
  {
    seen', out', pushed := seen, out, false;
    var email := rule(tokens[j]);
    if email.Some? && email.value !in seen {
      CleanHasToken(rule, tokens, j);
      EmailsPush(out, Candidate(email.value, id));
      seen', out', pushed := seen + {email.value}, out + [Candidate(email.value, id)], true;
      assert out'[|start|..] == out[|start|..] + [Candidate(email.value, id)];
    }
  }

  lemma EmailsPush(cs: seq<Candidate>, c: Candidate)
    ensures Emails(cs + [c]) == Emails(cs) + [c.email]
  {
  }

  lemma {:induction false} CleanHasToken(rule: Rule, tokens: seq<string>, j: nat)
    requires j < |tokens| && rule(tokens[j]).Some?
    ensures rule(tokens[j]).value in Clean(rule, tokens)
  {
    if j < |tokens| - 1 {
      assert tokens[..|tokens| - 1][j] == tokens[j];
      CleanHasToken(rule, tokens[..|tokens| - 1], j);
    }
  }

  // ---------------------------------------------------------------- stability

  /** An address in the form in which it is stored. */
  predicate IsClean(rule: Rule, e: string) { rule(e) == Some(e) && COMMA !in e }

  predicate AllClean(rule: Rule, emails: seq<string>) { forall e | e in emails :: IsClean(rule, e) }

  /** A kept address is kept as it is when it is read again, and there is no empty address. */
  ghost predicate IsStable(rule: Rule) {
    rule("").None? && forall token | COMMA !in token && rule(token).Some? :: IsClean(rule, rule(token).value)
  }

  predicate Distinct(emails: seq<string>) { forall i, j | 0 <= i < j < |emails| :: emails[i] != emails[j] }

  lemma {:induction false} CleanGivesClean(rule: Rule, tokens: seq<string>)
    requires IsStable(rule) && FreeOf(tokens, COMMA)
    ensures AllClean(rule, Clean(rule, tokens))
  {
    if tokens != [] {
      var n := |tokens| - 1;
      CleanGivesClean(rule, tokens[..n]);
      assert tokens[n] in tokens;
    }
  }

  lemma {:induction false} CleanIsFixed(rule: Rule, emails: seq<string>)
    requires AllClean(rule, emails)
    ensures Clean(rule, emails) == emails
  {
    if emails != [] {
      var n := |emails| - 1;
      CleanIsFixed(rule, emails[..n]);
      assert emails == emails[..n] + [emails[n]] && emails[n] in emails;
    }
  }

  lemma {:induction false} DedupShape(emails: seq<string>)
    ensures Distinct(Dedup(emails))
    ensures forall e :: e in Dedup(emails) <==> e in emails
  {
    if emails != [] {
      var n := |emails| - 1;
      DedupShape(emails[..n]);
      assert emails == emails[..n] + [emails[n]];
    }
  }

  lemma {:induction false} DedupIsFixed(emails: seq<string>)
    requires Distinct(emails)
    ensures Dedup(emails) == emails
  {
    if emails != [] {
      var n := |emails| - 1;
      DedupIsFixed(emails[..n]);
      assert emails == emails[..n] + [emails[n]];
    }
  }

  lemma {:induction false} DedupKnown(a: seq<string>, b: seq<string>)
    ensures Dedup(a) <= Dedup(a + b)
    ensures (forall e | e in b :: e in a) ==> Dedup(a + b) == Dedup(a)
  {
    if b == [] {
      assert a + b == a;
    } else {
      var n := |b| - 1;
      assert (a + b)[..|a + b| - 1] == a + b[..n];
      DedupKnown(a, b[..n]);
      DedupShape(a);
    }
  }

  lemma {:induction false} PiecesAllFree(raws: seq<string>)
    ensures FreeOf(Tokens(raws), COMMA)
  {
    if raws != [] {
      PiecesAllFree(raws[..|raws| - 1]);
      PiecesAreFree(raws[|raws| - 1], COMMA);
    }
  }

  /** The shape of every normalised list. */
  lemma NormalizedShape(rule: Rule, raws: seq<string>, cap: nat)
    requires IsStable(rule)
    ensures var out := NormalizedBy(rule, raws, cap);
            AllClean(rule, out) && Distinct(out) && |out| <= (if cap == 0 then 1 else cap)
  {
    PiecesAllFree(raws);
    CleanGivesClean(rule, Tokens(raws));
    DedupShape(Clean(rule, Tokens(raws)));
  }

  lemma {:induction false} CleanHasExactly(rule: Rule, tokens: seq<string>, e: string)
    ensures e in Clean(rule, tokens) <==> exists token :: token in tokens && rule(token) == Some(e)
  {
    if tokens != [] {
      var n := |tokens| - 1;
      CleanHasExactly(rule, tokens[..n], e);
      assert tokens == tokens[..n] + [tokens[n]];
    }
  }

  /** What a comma-separated piece stands for is kept, and nothing else, as long as the cap is not reached; a cap keeps
      the front of the same list. */
  lemma KeptExactlyWhenFound(rule: Rule, raws: seq<string>, cap: nat, e: string)
    ensures var out := NormalizedBy(rule, raws, cap);
            && (e in out ==> exists token :: token in Tokens(raws) && rule(token) == Some(e))
            && (|out| < cap ==> (e in out <==> exists token :: token in Tokens(raws) && rule(token) == Some(e)))
    ensures forall more: nat | cap <= more :: NormalizedBy(rule, raws, cap) <= NormalizedBy(rule, raws, more)
  {
    CleanHasExactly(rule, Tokens(raws), e);
    DedupShape(Clean(rule, Tokens(raws)));
  }

  /** Storing clean addresses and reading them back loses nothing. */
  lemma ReadsBack(rule: Rule, emails: seq<string>)
    requires IsStable(rule) && AllClean(rule, emails)
    ensures Clean(rule, Split(Stored(emails), COMMA)) == emails
  {
    if emails == [] {
      assert Split("", COMMA) == [""];
      assert Clean(rule, [""][..0]) == [];
    } else {
      SplitJoin(emails, COMMA);
      CleanIsFixed(rule, emails);
    }
  }

  lemma TokensOfOne(raw: string)
    ensures Tokens([raw]) == Split(raw, COMMA)
  {
    assert [raw][..0] == [];
    assert SplitAll([raw][..0], COMMA) == [];
  }

  /** Normalising the comma-join of a normalised list with the same cap gives the same list. */
  lemma NormalizedIsStable(rule: Rule, raws: seq<string>, cap: nat)
    requires IsStable(rule)
    ensures var out := NormalizedBy(rule, raws, cap);
            NormalizedBy(rule, [Stored(out)], cap) == out
  {
    var out := NormalizedBy(rule, raws, cap);
    NormalizedShape(rule, raws, cap);
    TokensOfOne(Stored(out));
    ReadsBack(rule, out);
    DedupIsFixed(out);
  }

  lemma MergedAsDedup(rule: Rule, stored: string, found: seq<string>, cap: nat)
    requires IsStable(rule) && AllClean(rule, found)
    ensures MergedBy(rule, stored, found, cap) == Capped(Dedup(NormalizedBy(rule, [stored], cap) + found), cap)
  {
    var existing := NormalizedBy(rule, [stored], cap);
    NormalizedShape(rule, [stored], cap);
    assert [Stored(existing), Stored(found)] == [Stored(existing)] + [Stored(found)];
    SplitAllAppend([Stored(existing)], [Stored(found)]);
    TokensOfOne(Stored(existing));
    TokensOfOne(Stored(found));
    CleanAppend(rule, Split(Stored(existing), COMMA), Split(Stored(found), COMMA));
    ReadsBack(rule, existing);
    ReadsBack(rule, found);
  }

  lemma {:induction false} CleanAppend(rule: Rule, a: seq<string>, b: seq<string>)
    ensures Clean(rule, a + b) == Clean(rule, a) + Clean(rule, b)
  {
    if b == [] {
      assert a + b == a;
    } else {
      assert (a + b)[..|a + b| - 1] == a + b[..|b| - 1];
      CleanAppend(rule, a, b[..|b| - 1]);
    }
  }

  /** The merged list starts with all previously valid contacts, repeats none, respects the cap, adds only
      what was found, and adds all of it unless the cap is reached. */
  lemma MergeKeepsExisting(rule: Rule, stored: string, found: seq<string>, cap: nat)
    requires IsStable(rule) && AllClean(rule, found)
    ensures var existing := NormalizedBy(rule, [stored], cap);
            var merged := MergedBy(rule, stored, found, cap);
            var limit := if cap == 0 then 1 else cap;
            && existing <= merged && Distinct(merged) && AllClean(rule, merged) && |merged| <= limit
            && (forall e | e in merged :: e in existing || e in found)
            && (|merged| < limit ==> forall e | e in found :: e in merged)
  {
    var existing := NormalizedBy(rule, [stored], cap);
    MergedAsDedup(rule, stored, found, cap);
    NormalizedShape(rule, [stored], cap);
    NormalizedShape(rule, [Stored(existing), Stored(found)], cap);
    CappedUnion(existing, found, cap);
  }

  lemma CapKeeps(existing: seq<string>, all: seq<string>, cap: nat)
    requires existing <= all && |existing| <= (if cap == 0 then 1 else cap)
    ensures existing <= Capped(all, cap) <= all
    ensures |Capped(all, cap)| < (if cap == 0 then 1 else cap) ==> Capped(all, cap) == all
  {
  }

  lemma PrefixHas(a: seq<string>, b: seq<string>)
    requires a <= b
    ensures forall e | e in a :: e in b
  {
  }

  lemma CappedUnion(existing: seq<string>, found: seq<string>, cap: nat)
    requires Distinct(existing) && |existing| <= (if cap == 0 then 1 else cap)
    ensures var merged := Capped(Dedup(existing + found), cap);
            && existing <= merged
            && (forall e | e in merged :: e in existing || e in found)
            && (|merged| < (if cap == 0 then 1 else cap) ==> forall e | e in found :: e in merged)
  {
    DedupIsFixed(existing);
    DedupKnown(existing, found);
    DedupShape(existing + found);
    var all := Dedup(existing + found);
    CapKeeps(existing, all, cap);
    PrefixHas(Capped(all, cap), all);
  }

  /** Running the pass again with the same candidates changes nothing. */
  lemma MergeIsIdempotent(rule: Rule, stored: string, found: seq<string>, cap: nat)
    requires IsStable(rule) && AllClean(rule, found)
    ensures var merged := MergedBy(rule, stored, found, cap);
            MergedBy(rule, Stored(merged), found, cap) == merged
  {
    var existing := NormalizedBy(rule, [stored], cap);
    var merged := MergedBy(rule, stored, found, cap);
    MergeKeepsExisting(rule, stored, found, cap);
    NormalizedIsStable(rule, [Stored(existing), Stored(found)], cap);
    MergedAsDedup(rule, Stored(merged), found, cap);
    CappedAgain(merged, found, cap);
  }

  lemma CappedAgain(merged: seq<string>, found: seq<string>, cap: nat)
    requires Distinct(merged) && |merged| <= (if cap == 0 then 1 else cap)
    requires |merged| < (if cap == 0 then 1 else cap) ==> forall e | e in found :: e in merged
    ensures Capped(Dedup(merged + found), cap) == merged
  {
    DedupIsFixed(merged);
    DedupKnown(merged, found);
  }
}
