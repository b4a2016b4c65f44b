/**
 * Percent-encoding as the browser does it: `encodeURIComponent`, and the
 * application/x-www-form-urlencoded serializer behind
 * `URLSearchParams.prototype.toString`. Both encode a character as the
 * UTF-8 bytes of its code point, each written `%XX` with upper-case hex.
 */
module UrlEncoding {

  /** The upper-case hexadecimal digit for `d`. */
  function HexUpper(d: nat): (c: char)
    requires d < 16
    ensures d < 10 ==> c as int == '0' as int + d
    ensures d >= 10 ==> c as int == 'A' as int + (d - 10)
    ensures ('0' <= c <= '9') || ('A' <= c <= 'F')
  {
    if d < 10 then (48 + d) as char else (55 + d) as char
  }

  /** The UTF-8 encoding of one Unicode scalar value. */
  function Utf8(c: char): (bytes: seq<nat>)
    ensures 1 <= |bytes| <= 4
    ensures forall i :: 0 <= i < |bytes| ==> bytes[i] < 256
  {
    var n := c as int;
    if n < 0x80 then [n]
    else if n < 0x800 then [0xC0 + n / 64, 0x80 + n % 64]
    else if n < 0x10000 then [0xE0 + n / 4096, 0x80 + (n / 64) % 64, 0x80 + n % 64]
    else [0xF0 + n / 262144, 0x80 + (n / 4096) % 64, 0x80 + (n / 64) % 64, 0x80 + n % 64]
  }

  function PercentBytes(bytes: seq<nat>): (s: string)
    requires forall i :: 0 <= i < |bytes| ==> bytes[i] < 256
    ensures |s| == 3 * |bytes|
  {
    if |bytes| == 0 then ""
    else ['%', HexUpper(bytes[0] / 16), HexUpper(bytes[0] % 16)] + PercentBytes(bytes[1..])
  }

  /** Percent-encoded bytes hold only `%` and upper-case hex digits. */
  lemma {:induction false} PercentChars(bytes: seq<nat>)
    requires forall i :: 0 <= i < |bytes| ==> bytes[i] < 256
    ensures forall k :: 0 <= k < |PercentBytes(bytes)| ==>
      PercentBytes(bytes)[k] == '%' || ('0' <= PercentBytes(bytes)[k] <= '9') || ('A' <= PercentBytes(bytes)[k] <= 'F')
  {
    if |bytes| > 0 {
      PercentChars(bytes[1..]);
      var h := ['%', HexUpper(bytes[0] / 16), HexUpper(bytes[0] % 16)];
      var r := PercentBytes(bytes[1..]);
      assert PercentBytes(bytes) == h + r;
      forall k | 0 <= k < |h + r|
        ensures (h + r)[k] == '%' || ('0' <= (h + r)[k] <= '9') || ('A' <= (h + r)[k] <= 'F')
      {
        if k >= 3 {
          assert (h + r)[k] == r[k - 3];
        }
      }
    }
  }

  predicate IsAlphaNum(c: char) {
    ('A' <= c <= 'Z') || ('a' <= c <= 'z') || ('0' <= c <= '9')
  }

  /** Characters `encodeURIComponent` leaves as they are. */
  predicate UriUnreserved(c: char) {
    IsAlphaNum(c) || c in "-_.!~*'()"
  }

  function EncodeUriChar(c: char): (s: string)
    ensures |s| >= 1
    ensures UriUnreserved(c) ==> s == [c]
    ensures !UriUnreserved(c) ==> s[0] == '%'
    ensures forall k :: 0 <= k < |s| ==> s[k] == '%' || UriUnreserved(s[k])
  {
    if UriUnreserved(c) then [c] else PercentChars(Utf8(c)); PercentBytes(Utf8(c))
  }

  /** `encodeURIComponent(s)`: the result holds only unreserved characters
      and `%`, so never `/`, and an unreserved string comes back unchanged. */
  function EncodeUriComponent(s: string): (r: string)
    ensures |r| >= |s|
    ensures forall k :: 0 <= k < |r| ==> r[k] == '%' || UriUnreserved(r[k])
    ensures (forall k :: 0 <= k < |s| ==> UriUnreserved(s[k])) ==> r == s
  {
    if |s| == 0 then "" else EncodeUriChar(s[0]) + EncodeUriComponent(s[1..])
  }

  /** `encodeURIComponent` is injective: different strings never encode
      to the same text, so the encoded text names its input. */
  lemma {:induction false} EncodeUriComponentInjective(s: string, t: string)
    requires EncodeUriComponent(s) == EncodeUriComponent(t)
    ensures s == t
    decreases |s|
  {
    if |s| > 0 && |t| > 0 {
      EncodeUriCharPrefix(s[0], t[0], EncodeUriComponent(s[1..]), EncodeUriComponent(t[1..]));
      EncodeUriComponentInjective(s[1..], t[1..]);
      assert s == [s[0]] + s[1..] && t == [t[0]] + t[1..];
    }
  }

  /** The encoding of one character is never a proper prefix of another's:
      whatever follows, equal texts start with the same character's code. */
  lemma EncodeUriCharPrefix(a: char, b: char, x: string, y: string)
    requires EncodeUriChar(a) + x == EncodeUriChar(b) + y
    ensures a == b && x == y
  {
    var s := EncodeUriChar(a) + x;
    assert s[0] == EncodeUriChar(a)[0] == EncodeUriChar(b)[0];
    if UriUnreserved(a) {
      assert UriUnreserved(b);
      assert x == s[1..] == y;
    } else {
      assert !UriUnreserved(b);
      PercentUtf8Prefix(a, b, x, y);
    }
  }

  lemma PercentUtf8Prefix(a: char, b: char, x: string, y: string)
    requires PercentBytes(Utf8(a)) + x == PercentBytes(Utf8(b)) + y
    ensures a == b && x == y
  {
    Utf8Lead(a);
    Utf8Lead(b);
    SameLeadPrefix(Utf8(a), Utf8(b), x, y);
    Utf8Injective(a, b);
  }

  /** Two byte sequences whose lead bytes give their lengths, written
      percent-encoded at the head of the same text, are the same. */
  lemma SameLeadPrefix(xs: seq<nat>, ys: seq<nat>, x: string, y: string)
    requires |xs| >= 1 && |ys| >= 1
    requires forall i :: 0 <= i < |xs| ==> xs[i] < 256
    requires forall i :: 0 <= i < |ys| ==> ys[i] < 256
    requires |xs| == Utf8Length(xs[0]) && |ys| == Utf8Length(ys[0])
    requires PercentBytes(xs) + x == PercentBytes(ys) + y
    ensures xs == ys && x == y
  {
    PercentHead(xs, ys, x, y);
    PercentBytesPrefix(xs, ys, x, y);
  }

  /** Percent-encoded bytes read back unambiguously, three characters per
      byte. */
  lemma {:induction false} PercentBytesPrefix(xs: seq<nat>, ys: seq<nat>, x: string, y: string)
    requires forall i :: 0 <= i < |xs| ==> xs[i] < 256
    requires forall i :: 0 <= i < |ys| ==> ys[i] < 256
    requires |xs| == |ys| && PercentBytes(xs) + x == PercentBytes(ys) + y
    ensures xs == ys && x == y
  {
    if |xs| > 0 {
      PercentHead(xs, ys, x, y);
      PercentBytesPrefix(xs[1..], ys[1..], x, y);
      assert xs == [xs[0]] + xs[1..] && ys == [ys[0]] + ys[1..];
    } else {
      assert PercentBytes(xs) + x == x && PercentBytes(ys) + y == y;
    }
  }

  /** The first three characters give the first byte back, and the texts
      after them are still equal. */
  lemma PercentHead(xs: seq<nat>, ys: seq<nat>, x: string, y: string)
    requires |xs| >= 1 && |ys| >= 1
    requires forall i :: 0 <= i < |xs| ==> xs[i] < 256
    requires forall i :: 0 <= i < |ys| ==> ys[i] < 256
    requires PercentBytes(xs) + x == PercentBytes(ys) + y
    ensures xs[0] == ys[0]
    ensures PercentBytes(xs[1..]) + x == PercentBytes(ys[1..]) + y
  {
    var xt, yt := PercentBytes(xs[1..]), PercentBytes(ys[1..]);
    var a, b, c, d := xs[0] / 16, xs[0] % 16, ys[0] / 16, ys[0] % 16;
    PercentUnfold(xs);
    PercentUnfold(ys);
    HexTriple(a, b, c, d, xt, yt, x, y);
  }

  /** `%` and two hex digits at the head of equal texts: the digits agree
      and so does the rest. */
  lemma HexTriple(a: nat, b: nat, c: nat, d: nat, u: string, v: string, w: string, z: string)
    requires a < 16 && b < 16 && c < 16 && d < 16
    requires (['%', HexUpper(a), HexUpper(b)] + u) + w == (['%', HexUpper(c), HexUpper(d)] + v) + z
    ensures a == c && b == d && u + w == v + z
  {
    var p, q := ['%', HexUpper(a), HexUpper(b)], ['%', HexUpper(c), HexUpper(d)];
    var s := (p + u) + w;
    assert s[1] == p[1] && s[2] == p[2];
    assert s[1] == q[1] && s[2] == q[2];
    assert s[3..] == u + w && s[3..] == v + z;
  }

  lemma PercentUnfold(xs: seq<nat>)
    requires |xs| >= 1
    requires forall i :: 0 <= i < |xs| ==> xs[i] < 256
    ensures PercentBytes(xs) == ['%', HexUpper(xs[0] / 16), HexUpper(xs[0] % 16)] + PercentBytes(xs[1..])
  {
  }

  /** Two concatenations that are equal and whose first parts have the same
      length agree part by part. */
  lemma SplitAtLength<T>(p: seq<T>, q: seq<T>, u: seq<T>, v: seq<T>)
    requires |p| == |q| && p + u == q + v
    ensures p == q && u == v
  {
    assert p == (p + u)[..|p|] && q == (q + v)[..|q|];
    assert u == (p + u)[|p|..] && v == (q + v)[|q|..];
  }

  /** The number of bytes of a UTF-8 sequence, read off its lead byte. */
  function Utf8Length(lead: nat): nat {
    if lead < 0x80 then 1 else if lead < 0xE0 then 2 else if lead < 0xF0 then 3 else 4
  }

  lemma Utf8Lead(c: char)
    ensures |Utf8(c)| == Utf8Length(Utf8(c)[0])
  {
  }

  /** Different characters have different UTF-8 encodings. */
  lemma Utf8Injective(a: char, b: char)
    requires Utf8(a) == Utf8(b)
    ensures a == b
  {
    var n, m := a as int, b as int;
    var e := Utf8(a);
    Utf8Lead(a);
    if |e| == 2 {
      assert e[0] == 0xC0 + n / 64 == 0xC0 + m / 64;
      assert e[1] == 0x80 + n % 64 == 0x80 + m % 64;
      Decode2(n, m);
    } else if |e| == 3 {
      assert e[0] == 0xE0 + n / 4096 == 0xE0 + m / 4096;
      assert e[1] == 0x80 + (n / 64) % 64 == 0x80 + (m / 64) % 64;
      assert e[2] == 0x80 + n % 64 == 0x80 + m % 64;
      Decode3(n, m);
    } else if |e| == 4 {
      assert e[0] == 0xF0 + n / 262144 == 0xF0 + m / 262144;
      assert e[1] == 0x80 + (n / 4096) % 64 == 0x80 + (m / 4096) % 64;
      assert e[2] == 0x80 + (n / 64) % 64 == 0x80 + (m / 64) % 64;
      assert e[3] == 0x80 + n % 64 == 0x80 + m % 64;
      Decode4(n, m);
    }
  }

  lemma Decode2(n: nat, m: nat)
    requires n / 64 == m / 64 && n % 64 == m % 64
    ensures n == m
  {
  }

  lemma Decode3(n: nat, m: nat)
    requires n / 4096 == m / 4096 && (n / 64) % 64 == (m / 64) % 64 && n % 64 == m % 64
    ensures n == m
  {
    assert n / 64 == 64 * (n / 4096) + (n / 64) % 64;
    assert m / 64 == 64 * (m / 4096) + (m / 64) % 64;
    Decode2(n, m);
  }

  lemma Decode4(n: nat, m: nat)
    requires n / 262144 == m / 262144 && (n / 4096) % 64 == (m / 4096) % 64
    requires (n / 64) % 64 == (m / 64) % 64 && n % 64 == m % 64
    ensures n == m
  {
    assert n / 4096 == 64 * (n / 262144) + (n / 4096) % 64;
    assert m / 4096 == 64 * (m / 262144) + (m / 4096) % 64;
    Decode3(n, m);
  }

  /** Characters the form-urlencoded serializer leaves as they are. */
  predicate FormSafe(c: char) {
    IsAlphaNum(c) || c in "*-._"
  }

  function EncodeFormChar(c: char): (s: string)
    ensures forall k :: 0 <= k < |s| ==> s[k] == '%' || s[k] == '+' || FormSafe(s[k])
  {
    if FormSafe(c) then [c] else if c == ' ' then "+" else PercentChars(Utf8(c)); PercentBytes(Utf8(c))
  }

  /** One name or value as `URLSearchParams` writes it: the result never
      holds `&` or `=`, so pairs and their halves stay apart. */
  function EncodeForm(s: string): (r: string)
    ensures forall k :: 0 <= k < |r| ==> r[k] != '&' && r[k] != '='
    ensures (forall k :: 0 <= k < |s| ==> FormSafe(s[k])) ==> r == s
  {
    if |s| == 0 then "" else EncodeFormChar(s[0]) + EncodeForm(s[1..])
  }
}
