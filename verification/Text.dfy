/** Joining strings with a separator and splitting them again. */
module Text {
  function Join(parts: seq<string>, sep: char): string {
    if parts == [] then ""
    else if |parts| == 1 then parts[0]
    else Join(parts[..|parts| - 1], sep) + [sep] + parts[|parts| - 1]
  }

  function Split(s: string, sep: char): (pieces: seq<string>)
    ensures |pieces| >= 1
  {
    if s == "" then [""]
    else
      var rest := Split(s[1..], sep);
      if s[0] == sep then [""] + rest else [[s[0]] + rest[0]] + rest[1..]
  }

  function Flatten(groups: seq<seq<string>>): seq<string> {
    if groups == [] then [] else Flatten(groups[..|groups| - 1]) + groups[|groups| - 1]
  }

  function SplitAll(texts: seq<string>, sep: char): seq<string> {
    if texts == [] then [] else SplitAll(texts[..|texts| - 1], sep) + Split(texts[|texts| - 1], sep)
  }

  predicate FreeOf(parts: seq<string>, sep: char) { forall p | p in parts :: sep !in p }

  lemma {:induction false} SplitAppend(a: string, b: string, sep: char)
    ensures Split(a + [sep] + b, sep) == Split(a, sep) + Split(b, sep)
  {
    if a == "" {
      assert (a + [sep] + b)[1..] == b;
    } else {
      assert (a + [sep] + b)[1..] == a[1..] + [sep] + b;
      SplitAppend(a[1..], b, sep);
    }
  }

  lemma {:induction false} SplitOne(s: string, sep: char)
    ensures Split(s, sep) == [s] <==> sep !in s
    ensures sep in s ==> |Split(s, sep)| > 1
  {
    if s != "" {
      SplitOne(s[1..], sep);
      assert s == [s[0]] + s[1..];
    }
  }

  lemma {:induction false} PiecesAreFree(s: string, sep: char)
    ensures FreeOf(Split(s, sep), sep)
  {
    if s != "" { PiecesAreFree(s[1..], sep); }
  }

  lemma {:induction false} SplitJoinIsSplitAll(parts: seq<string>, sep: char)
    requires parts != []
    ensures Split(Join(parts, sep), sep) == SplitAll(parts, sep)
  {
    var n := |parts| - 1;
    if n == 0 {
      assert SplitAll(parts[..0], sep) == [];
    } else {
      SplitJoinIsSplitAll(parts[..n], sep);
      SplitAppend(Join(parts[..n], sep), parts[n], sep);
    }
  }

  lemma {:induction false} SplitAllSize(parts: seq<string>, sep: char)
    ensures |SplitAll(parts, sep)| >= |parts|
    ensures FreeOf(parts, sep) ==> SplitAll(parts, sep) == parts
    ensures !FreeOf(parts, sep) ==> |SplitAll(parts, sep)| > |parts|
  {
    if parts != [] {
      var n := |parts| - 1;
      SplitAllSize(parts[..n], sep);
      SplitOne(parts[n], sep);
      assert parts == parts[..n] + [parts[n]];
    }
  }

  /** Splitting joined parts gives them back exactly when none of them contains the separator. */
  lemma SplitJoin(parts: seq<string>, sep: char)
    requires parts != []
    ensures Split(Join(parts, sep), sep) == parts <==> FreeOf(parts, sep)
  {
    SplitJoinIsSplitAll(parts, sep);
    SplitAllSize(parts, sep);
  }

  /** The same for a sequence of joined groups. */
  lemma {:induction false} SplitJoined(texts: seq<string>, groups: seq<seq<string>>, sep: char)
    requires |texts| == |groups|
    requires forall i | 0 <= i < |texts| :: groups[i] != [] && texts[i] == Join(groups[i], sep)
    requires FreeOf(Flatten(groups), sep)
    ensures SplitAll(texts, sep) == Flatten(groups)
  {
    if texts != [] {
      var n := |texts| - 1;
      assert Flatten(groups) == Flatten(groups[..n]) + groups[n];
      SplitJoined(texts[..n], groups[..n], sep);
      SplitJoin(groups[n], sep);
    }
  }

  // ---------------------------------------------------------------- characters

  /** A character with the Unicode property White_Space. */
  predicate IsSpace(c: char) {
    var n := c as int;
    || 0x09 <= n <= 0x0d || n == 0x20 || n == 0x85 || n == 0xa0 || n == 0x1680 || 0x2000 <= n <= 0x200a
    || n == 0x2028 || n == 0x2029 || n == 0x202f || n == 0x205f || n == 0x3000
  }

  function LowerChar(c: char): char {
    if 'A' <= c <= 'Z' then (c as int + 32) as char else c
  }

  function Lower(s: string): (t: string)
    ensures |t| == |s| && forall i | 0 <= i < |s| :: t[i] == LowerChar(s[i])
  {
    if s == "" then "" else [LowerChar(s[0])] + Lower(s[1..])
  }
}
