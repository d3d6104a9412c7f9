/** Contact e-mail addresses: which candidates are kept, and in which form.  Case folding covers ASCII. */
module Contacts {
  import opened Wrappers
  import opened Text
  import opened ContactLists

  // ---------------------------------------------------------------- one candidate

  function TrimLeft(s: string): string { if s != "" && IsSpace(s[0]) then TrimLeft(s[1..]) else s }

  function TrimRight(s: string): string {
    if s != "" && IsSpace(s[|s| - 1]) then TrimRight(s[..|s| - 1]) else s
  }

  function Trim(s: string): string { TrimRight(TrimLeft(s)) }

  predicate Contains(s: string, part: string) {
    part <= s || (s != "" && Contains(s[1..], part))
  }

  /** The length in bytes of the UTF-8 encoding. */
  function ByteLen(s: string): nat {
    if s == "" then 0
    else
      var n := s[0] as int;
      (if n < 0x80 then 1 else if n < 0x800 then 2 else if n < 0x10000 then 3 else 4) + ByteLen(s[1..])
  }

  const PLACEHOLDERS := [
    "test@", "example@", "sample@", "demo@", "noreply@", "no-reply@", "donotreply@", "admin@localhost",
    "user@localhost", "@example.com", "@test.com", "@localhost"]

  predicate ContainsAny(s: string, parts: seq<string>) {
    parts != [] && (Contains(s, parts[0]) || ContainsAny(s, parts[1..]))
  }

  predicate IsReasonableEmail(value: string) {
    var v := Trim(value);
    && ByteLen(v) >= 6 && ' ' !in v
    && '<' !in v && '>' !in v && '{' !in v && '}' !in v
    && !ContainsAny(Lower(v), PLACEHOLDERS)
    && var parts := Split(v, '@');
       && |parts| == 2 && parts[0] != "" && parts[1] != ""
       && var domain := parts[1];
          '_' !in domain && '.' in domain && domain[0] != '.' && domain[|domain| - 1] != '.'
  }

  /** What is kept of a token: trimmed and folded, if it is reasonable. */
  function Accept(token: string): Option<string> {
    var email := Lower(Trim(token));
    if IsReasonableEmail(email) then Some(email) else None
  }

  // ---------------------------------------------------------------- normalisation

  function Normalized(raws: seq<string>, cap: nat): seq<string> { NormalizedBy(Accept, raws, cap) }

  /** The list that a pass writes back, from the stored text and the new candidates. */
  function Merged(stored: string, found: seq<string>, cap: nat): seq<string> { MergedBy(Accept, stored, found, cap) }

  method NormalizeEmailCandidates(rawValues: seq<string>, maxContacts: nat) returns (out: seq<string>)
    ensures out == Normalized(rawValues, maxContacts)
  {
    out := Normalize(Accept, rawValues, maxContacts);
  }

  method NormalizePhysicalEmailCandidates(rawValues: seq<(int, string)>, maxContacts: nat)
    returns (out: seq<Candidate>)
    ensures Emails(out) == Normalized(Texts(rawValues), maxContacts)
    ensures FromAreas(Accept, out, rawValues)
  {
    out := NormalizeTagged(Accept, rawValues, maxContacts);
  }

  // ---------------------------------------------------------------- stability

  predicate NoEdgeSpace(s: string) { s != "" ==> !IsSpace(s[0]) && !IsSpace(s[|s| - 1]) }

  lemma {:induction false} TrimLeftShape(s: string)
    ensures TrimLeft(s) != "" ==> !IsSpace(TrimLeft(s)[0])
    ensures forall c | c in TrimLeft(s) :: c in s
  {
    if s != "" && IsSpace(s[0]) { TrimLeftShape(s[1..]); }
  }

  lemma {:induction false} TrimRightShape(s: string)
    ensures TrimRight(s) <= s
    ensures TrimRight(s) != "" ==> !IsSpace(TrimRight(s)[|TrimRight(s)| - 1])
  {
    if s != "" && IsSpace(s[|s| - 1]) { TrimRightShape(s[..|s| - 1]); }
  }

  lemma TrimShape(s: string)
    ensures NoEdgeSpace(Trim(s)) && forall c | c in Trim(s) :: c in s
  {
    TrimLeftShape(s);
    TrimRightShape(TrimLeft(s));
  }

  lemma LowerShape(s: string)
    ensures NoEdgeSpace(s) ==> NoEdgeSpace(Lower(s))
    ensures Lower(Lower(s)) == Lower(s)
    ensures COMMA !in s ==> COMMA !in Lower(s)
  {
  }

  lemma FoldedIsFixed(token: string)
    requires COMMA !in token
    ensures var e := Lower(Trim(token)); Lower(Trim(e)) == e && COMMA !in e
  {
    TrimShape(token);
    LowerShape(Trim(token));
    TrimIsFixed(Lower(Trim(token)));
  }

  lemma TrimIsFixed(s: string)
    requires NoEdgeSpace(s)
    ensures Trim(s) == s
  {
  }

  lemma AcceptIsStable()
    ensures IsStable(Accept)
  {
    assert Accept("").None?;
    forall token | COMMA !in token && Accept(token).Some?
      ensures IsClean(Accept, Accept(token).value)
    {
      FoldedIsFixed(token);
    }
  }

  /** Normalising the comma-join of a normalised list with the same cap gives the same list. */
  lemma NormalizingIsStable(raws: seq<string>, cap: nat)
    ensures var out := Normalized(raws, cap);
            Normalized([Stored(out)], cap) == out
  {
    AcceptIsStable();
    NormalizedIsStable(Accept, raws, cap);
  }

  /** The merged list starts with all previously valid contacts, repeats none, respects the cap, adds only
      what was found, and adds all of it unless the cap is reached; merging again changes nothing. */
  lemma MergingIsStable(stored: string, found: seq<string>, cap: nat)
    requires AllClean(Accept, found)
    ensures var existing := Normalized([stored], cap);
            var merged := Merged(stored, found, cap);
            var limit := if cap == 0 then 1 else cap;
            && existing <= merged && Distinct(merged) && AllClean(Accept, merged) && |merged| <= limit
            && (forall e | e in merged :: e in existing || e in found)
            && (|merged| < limit ==> forall e | e in found :: e in merged)
            && Merged(Stored(merged), found, cap) == merged
  {
    AcceptIsStable();
    MergeKeepsExisting(Accept, stored, found, cap);
    MergeIsIdempotent(Accept, stored, found, cap);
  }
}
