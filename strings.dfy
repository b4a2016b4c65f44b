/**
 * String helpers with the semantics of the JavaScript built-ins the source
 * uses: `String.prototype.split` with a non-empty separator, template-string
 * interpolation of integers, and `includes`/`startsWith`.
 */
module Strings {
  import opened Wrappers

  /** `sep` occurs in `s` starting at index `i`. */
  predicate OccursAt(sep: string, s: string, i: int) {
    0 <= i && i + |sep| <= |s| && s[i..i + |sep|] == sep
  }

  /** `s.includes(sep)` */
  predicate Contains(s: string, sep: string) {
    exists i :: 0 <= i <= |s| && OccursAt(sep, s, i)
  }

  /** `s.startsWith(p)` */
  predicate StartsWith(s: string, p: string) {
    |p| <= |s| && s[..|p|] == p
  }

  /** `s.indexOf(sep, from)`, with `None` for -1. */
  function IndexOf(s: string, sep: string, from: nat): (r: Option<nat>)
    requires |sep| > 0 && from <= |s|
    ensures r.Some? ==> from <= r.value && OccursAt(sep, s, r.value)
    decreases |s| - from
  {
    if from + |sep| > |s| then None
    else if OccursAt(sep, s, from) then Some(from)
    else IndexOf(s, sep, from + 1)
  }

  /** `s.split(sep)` for a non-empty separator: the pieces between the
      successive leftmost non-overlapping occurrences of `sep`. */
  function Split(s: string, sep: string): (parts: seq<string>)
    requires |sep| > 0
    ensures |parts| >= 1
    decreases |s|
  {
    match IndexOf(s, sep, 0)
    case None => [s]
    case Some(i) => [s[..i]] + Split(s[i + |sep|..], sep)
  }

  /** `parts.join(sep)` */
  function Join(parts: seq<string>, sep: string): string {
    if |parts| == 0 then ""
    else if |parts| == 1 then parts[0]
    else parts[0] + sep + Join(parts[1..], sep)
  }

  /** Splitting and re-joining gives the original string back. */
  lemma {:induction false} JoinSplit(s: string, sep: string)
    requires |sep| > 0
    ensures Join(Split(s, sep), sep) == s
    decreases |s|
  {
    match IndexOf(s, sep, 0)
    case None =>
    case Some(i) =>
      var rest := s[i + |sep|..];
      var parts := Split(s, sep);
      assert parts[0] == s[..i] && parts[1..] == Split(rest, sep);
      JoinSplit(rest, sep);
      assert Join(parts, sep) == s[..i] + sep + Join(parts[1..], sep);
      assert s == s[..i] + sep + rest;
  }

  /** `indexOf` finds the leftmost occurrence at or after `from`: whenever
      `sep` occurs at some `j >= from`, it returns an index no later than `j`. */
  lemma {:induction false} IndexOfLeftmost(s: string, sep: string, from: nat, j: int)
    requires |sep| > 0 && from <= |s| && from <= j && OccursAt(sep, s, j)
    ensures IndexOf(s, sep, from).Some? && IndexOf(s, sep, from).value <= j
    decreases |s| - from
  {
    if !OccursAt(sep, s, from) {
      IndexOfLeftmost(s, sep, from + 1, j);
    }
  }

  /** When `indexOf` finds nothing, the separator does not occur. */
  lemma IndexOfNone(s: string, sep: string)
    requires |sep| > 0 && IndexOf(s, sep, 0).None?
    ensures !Contains(s, sep)
  {
    if Contains(s, sep) {
      var j :| 0 <= j <= |s| && OccursAt(sep, s, j);
      IndexOfLeftmost(s, sep, 0, j);
    }
  }

  /** One step of `split`: the text before the first occurrence, then the
      pieces of the text after it. */
  lemma SplitStep(s: string, sep: string, i: nat)
    requires |sep| > 0 && IndexOf(s, sep, 0) == Some(i)
    ensures Split(s, sep) == [s[..i]] + Split(s[i + |sep|..], sep)
  {
  }

  /** No piece of a split contains the separator. */
  lemma {:induction false} SplitPiecesAvoidSep(s: string, sep: string, k: nat)
    requires |sep| > 0 && k < |Split(s, sep)|
    ensures !Contains(Split(s, sep)[k], sep)
    decreases |s|
  {
    match IndexOf(s, sep, 0)
    case None =>
      assert Split(s, sep) == [s];
      IndexOfNone(s, sep);
    case Some(i) =>
      var rest := s[i + |sep|..];
      SplitStep(s, sep, i);
      if k == 0 {
        BeforeFirstAvoidsSep(s, sep, i);
      } else {
        SplitPiecesAvoidSep(rest, sep, k - 1);
        assert Split(s, sep)[k] == Split(rest, sep)[k - 1];
      }
  }

  /** The text before the first occurrence holds no occurrence. */
  lemma BeforeFirstAvoidsSep(s: string, sep: string, i: nat)
    requires |sep| > 0 && IndexOf(s, sep, 0) == Some(i)
    ensures !Contains(s[..i], sep)
  {
    var t := s[..i];
    if Contains(t, sep) {
      var j :| 0 <= j <= |t| && OccursAt(sep, t, j);
      assert t[j..j + |sep|] == s[j..j + |sep|];
      IndexOfLeftmost(s, sep, 0, j);
    }
  }

  /** A string without the separator splits into itself alone. */
  lemma SplitAbsent(s: string, sep: string)
    requires |sep| > 0 && !Contains(s, sep)
    ensures Split(s, sep) == [s]
  {
    match IndexOf(s, sep, 0)
    case None =>
    case Some(i) => assert false;
  }

  /** A string that contains the separator splits into at least two pieces. */
  lemma SplitPresent(s: string, sep: string)
    requires |sep| > 0 && Contains(s, sep)
    ensures |Split(s, sep)| >= 2
  {
    var j :| 0 <= j <= |s| && OccursAt(sep, s, j);
    var i := FirstAtOrBefore(s, sep, j);
    SplitStep(s, sep, i);
  }

  /** An occurrence of `sep` in a suffix of `s` is an occurrence in `s`,
      shifted by the suffix's start. */
  lemma OccursInSuffix(sep: string, s: string, d: nat, j: int)
    requires d <= |s|
    ensures OccursAt(sep, s[d..], j) <==> (0 <= j && OccursAt(sep, s, d + j))
  {
    if 0 <= j && d + j + |sep| <= |s| {
      assert s[d..][j..j + |sep|] == s[d + j..d + j + |sep|];
    }
  }

  /** One occurrence of `sep` and no other one: exactly two pieces, the text
      before it and the text after it. */
  lemma SplitOnce(s: string, sep: string, i: nat)
    requires |sep| > 0 && OccursAt(sep, s, i)
    requires forall j :: j != i ==> !OccursAt(sep, s, j)
    ensures Split(s, sep) == [s[..i], s[i + |sep|..]]
  {
    var rest := s[i + |sep|..];
    IndexOfLeftmost(s, sep, 0, i);
    OnlyOccurrenceLeavesRest(s, sep, i);
    SplitAbsent(rest, sep);
    SplitStep(s, sep, i);
  }

  /** After the only occurrence, the separator does not occur again. */
  lemma OnlyOccurrenceLeavesRest(s: string, sep: string, i: nat)
    requires |sep| > 0 && OccursAt(sep, s, i)
    requires forall j :: j != i ==> !OccursAt(sep, s, j)
    ensures !Contains(s[i + |sep|..], sep)
  {
    var rest := s[i + |sep|..];
    if Contains(rest, sep) {
      var j :| 0 <= j <= |rest| && OccursAt(sep, rest, j);
      OccursInSuffix(sep, s, i + |sep|, j);
    }
  }

  /** Two non-overlapping occurrences of `sep`: at least three pieces. */
  lemma SplitTwice(s: string, sep: string, i: nat, j: nat)
    requires |sep| > 0 && OccursAt(sep, s, i) && OccursAt(sep, s, j) && i + |sep| <= j
    ensures |Split(s, sep)| >= 3
  {
    var k := FirstAtOrBefore(s, sep, i);
    var rest := s[k + |sep|..];
    OccursInSuffix(sep, s, k + |sep|, j - (k + |sep|));
    assert OccursAt(sep, rest, j - (k + |sep|));
    SplitPresent(rest, sep);
    SplitStep(s, sep, k);
  }

  /** When `sep` occurs at `i`, `indexOf` finds an occurrence no later. */
  lemma FirstAtOrBefore(s: string, sep: string, i: nat) returns (k: nat)
    requires |sep| > 0 && OccursAt(sep, s, i)
    ensures IndexOf(s, sep, 0) == Some(k) && k <= i
  {
    IndexOfLeftmost(s, sep, 0, i);
    k := IndexOf(s, sep, 0).value;
  }

  /** The first piece of `s.split(";")`: the text before the first `;`. */
  lemma SplitFirstPiece(s: string, c: char)
    ensures Split(s, [c])[0] == s[..FirstIndexOr(s, c)]
  {
    var f := FirstIndexOr(s, c);
    match IndexOf(s, [c], 0)
    case None =>
      if f < |s| {
        OccursAtChar(c, s, f);
        IndexOfLeftmost(s, [c], 0, f);
      }
    case Some(i) =>
      OccursAtChar(c, s, i);
      if f < i {
        OccursAtChar(c, s, f);
        IndexOfLeftmost(s, [c], 0, f);
      }
      SplitStep(s, [c], i);
  }

  /** `c` does not occur in `s`. */
  predicate Avoids(s: string, c: char) {
    forall j :: 0 <= j < |s| ==> s[j] != c
  }

  lemma OccursAtChar(c: char, s: string, j: int)
    ensures OccursAt([c], s, j) <==> 0 <= j < |s| && s[j] == c
  {
    if 0 <= j < |s| {
      assert s[j..j + 1] == [s[j]];
    }
  }

  /** Joining pieces that do not contain `c` with `c` and splitting the
      result on `c` gives the pieces back. */
  lemma {:induction false} SplitJoinChar(parts: seq<string>, c: char)
    requires |parts| >= 1
    requires forall k :: 0 <= k < |parts| ==> Avoids(parts[k], c)
    ensures Split(Join(parts, [c]), [c]) == parts
  {
    var s := Join(parts, [c]);
    var p0 := parts[0];
    if |parts| == 1 {
      forall j | 0 <= j ensures !OccursAt([c], s, j) {
        OccursAtChar(c, s, j);
      }
      SplitAbsent(s, [c]);
    } else {
      var rest := Join(parts[1..], [c]);
      assert s == p0 + [c] + rest;
      assert OccursAt([c], s, |p0|) by { assert s[|p0|..|p0| + 1] == [c]; }
      IndexOfLeftmost(s, [c], 0, |p0|);
      var v := IndexOf(s, [c], 0).value;
      OccursAtChar(c, s, v);
      assert s[|p0| + 1..] == rest;
      assert s[..|p0|] == p0;
      SplitStep(s, [c], |p0|);
      SplitJoinChar(parts[1..], c);
      assert parts == [p0] + parts[1..];
    }
  }

  /** Index of the first `c` in `s`, or `|s|` when there is none. */
  function FirstIndexOr(s: string, c: char): (r: nat)
    ensures r <= |s|
    ensures forall j :: 0 <= j < r ==> s[j] != c
    ensures r < |s| ==> s[r] == c
  {
    if |s| == 0 then 0
    else if s[0] == c then 0
    else 1 + FirstIndexOr(s[1..], c)
  }

  /** The decimal digit for `d`. */
  function Digit(d: nat): (c: char)
    requires d < 10
    ensures '0' <= c <= '9'
  {
    "0123456789"[d]
  }

  /** `${n}` for a natural number: its decimal representation. */
  function NatToString(n: nat): (s: string)
    ensures |s| >= 1
    ensures forall k :: 0 <= k < |s| ==> '0' <= s[k] <= '9'
  {
    if n < 10 then [Digit(n)] else NatToString(n / 10) + [Digit(n % 10)]
  }

  /** `${i}` for an integer. */
  function IntToString(i: int): (s: string)
    ensures |s| >= 1
    ensures forall k :: 0 <= k < |s| ==> s[k] == '-' || '0' <= s[k] <= '9'
  {
    if i < 0 then "-" + NatToString(-i) else NatToString(i)
  }

  /** A lower-case hexadecimal digit. */
  function HexDigit(d: nat): (c: char)
    requires d < 16
  {
    "0123456789abcdef"[d]
  }

  /** How `JSON.stringify` writes one character inside a string literal. */
  function JsonEscape(c: char): string {
    if c == '"' then "\\\""
    else if c == '\\' then "\\\\"
    else if c == '\n' then "\\n"
    else if c == '\r' then "\\r"
    else if c == '\t' then "\\t"
    else if c == 8 as char then "\\b"
    else if c == 12 as char then "\\f"
    else if (c as int) < 0x20 then "\\u00" + [HexDigit(c as int / 16), HexDigit(c as int % 16)]
    else [c]
  }

  function JsonEscapeAll(s: string): string {
    if |s| == 0 then "" else JsonEscape(s[0]) + JsonEscapeAll(s[1..])
  }

  /** `JSON.stringify(s)` for a string. */
  function JsonQuote(s: string): string {
    "\"" + JsonEscapeAll(s) + "\""
  }
}
