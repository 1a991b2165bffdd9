/** UTF-8 as section 3 of RFC 3629 lays it out: text as characters, text as
    bytes, and where one character ends and the next begins. */
module Utf8 {
  import opened Wrappers
  import opened Sequences

  type Byte = b: int | 0 <= b < 256

  function EncodeChar(c: char): (b: seq<Byte>)
    ensures 1 <= |b| <= 4 && !IsContinuation(b[0]) && Width(b[0]) == |b|
    ensures forall i :: 1 <= i < |b| ==> IsContinuation(b[i])
  {
    var n := c as int;
    if n < 0x80 then [n]
    else if n < 0x800 then [0xC0 + n / 64, 0x80 + n % 64]
    else if n < 0x1_0000 then [0xE0 + n / 4096, 0x80 + n / 64 % 64, 0x80 + n % 64]
    else [0xF0 + n / 262144, 0x80 + n / 4096 % 64, 0x80 + n / 64 % 64, 0x80 + n % 64]
  }

  function Encode(s: string): seq<Byte> {
    if s == "" then [] else EncodeChar(s[0]) + Encode(s[1..])
  }

  predicate IsContinuation(b: Byte) {
    0x80 <= b < 0xC0
  }

  /** The length of the character that a first byte announces. */
  function Width(lead: Byte): nat {
    if lead < 0x80 then 1 else if lead < 0xE0 then 2 else if lead < 0xF0 then 3 else 4
  }

  /** str::is_char_boundary. */
  predicate IsCharBoundary(b: seq<Byte>, i: nat) {
    i == 0 || i == |b| || (i < |b| && !IsContinuation(b[i]))
  }

  /** char_indices().nth(k), counted from byte `i`. */
  function NthCharIndex(b: seq<Byte>, i: nat, k: nat): (r: Option<nat>)
    ensures r.Some? ==> i <= r.value < |b|
    decreases k
  {
    if i >= |b| then None
    else if k == 0 then Some(i)
    else NthCharIndex(b, i + Width(b[i]), k - 1)
  }

  /** chars().count(), from byte `i`. */
  function CountChars(b: seq<Byte>, i: nat): nat
    decreases |b| - i
  {
    if i >= |b| then 0 else 1 + CountChars(b, i + Width(b[i]))
  }

  // ----- characters and offsets -------------------------------------------

  /** The byte at which character `n` starts. */
  function Offset(s: string, n: nat): nat
    requires n <= |s|
  {
    |Encode(s[..n])|
  }

  lemma {:induction false} EncodeAppend(a: string, b: string)
    ensures Encode(a + b) == Encode(a) + Encode(b)
    decreases |a|
  {
    if a == "" {
      assert a + b == b;
    } else {
      EncodeAppend(a[1..], b);
      assert (a + b)[1..] == a[1..] + b;
      Regroup(EncodeChar(a[0]), Encode(a[1..]), Encode(b));
    }
  }

  lemma EncodeSnoc(s: string, c: char)
    ensures Encode(s + [c]) == Encode(s) + EncodeChar(c)
  {
    EncodeAppend(s, [c]);
    assert [c][1..] == "";
  }

  /** The encoding around character `n`. */
  lemma AroundChar(s: string, n: nat)
    requires n < |s|
    ensures Offset(s, n + 1) == Offset(s, n) + |EncodeChar(s[n])| <= |Encode(s)|
    ensures Encode(s)[Offset(s, n)..Offset(s, n + 1)] == EncodeChar(s[n])
    ensures Encode(s)[Offset(s, n)] == EncodeChar(s[n])[0]
  {
    assert s[..n + 1] == s[..n] + [s[n]] && s == s[..n + 1] + s[n + 1..];
    EncodeSnoc(s[..n], s[n]);
    EncodeAppend(s[..n + 1], s[n + 1..]);
  }

  lemma OffsetEnds(s: string)
    ensures Offset(s, 0) == 0 && Offset(s, |s|) == |Encode(s)|
  {
    assert s[..|s|] == s;
  }

  lemma {:induction false} OffsetsGrow(s: string, m: nat, n: nat)
    requires m <= n <= |s|
    ensures Offset(s, m) + (n - m) <= Offset(s, n) <= |Encode(s)|
    decreases n - m
  {
    if m < n {
      AroundChar(s, n - 1);
      OffsetsGrow(s, m, n - 1);
    } else {
      assert s == s[..n] + s[n..];
      EncodeAppend(s[..n], s[n..]);
    }
  }

  /** The bytes up to a character's start are the encoding of what precedes it. */
  lemma CutAtOffset(s: string, n: nat)
    requires n <= |s|
    ensures Offset(s, n) <= |Encode(s)| && Encode(s)[..Offset(s, n)] == Encode(s[..n])
  {
    assert s == s[..n] + s[n..];
    EncodeAppend(s[..n], s[n..]);
  }

  /** Every byte belongs to one character. */
  lemma {:induction false} CharAtByte(s: string, i: nat) returns (n: nat)
    requires i < |Encode(s)|
    ensures n < |s| && Offset(s, n) <= i < Offset(s, n + 1)
    decreases |s|
  {
    var before := s[..|s| - 1];
    assert s == before + [s[|s| - 1]];
    EncodeSnoc(before, s[|s| - 1]);
    if i < |Encode(before)| {
      n := CharAtByte(before, i);
      assert before[..n] == s[..n] && before[..n + 1] == s[..n + 1];
    } else {
      n := |s| - 1;
      assert s[..n + 1] == s;
    }
  }

  /** A byte index is a character boundary exactly when some number of whole
      characters ends there. */
  lemma BoundaryIff(s: string, i: nat)
    requires i <= |Encode(s)|
    ensures IsCharBoundary(Encode(s), i) <==> exists n: nat :: n <= |s| && i == Offset(s, n)
  {
    OffsetEnds(s);
    if i < |Encode(s)| {
      var n := CharAtByte(s, i);
      AroundChar(s, n);
      var start := Offset(s, n);
      assert Encode(s)[i] == Encode(s)[start..Offset(s, n + 1)][i - start] == EncodeChar(s[n])[i - start];
      forall m: nat | m <= |s| && i == Offset(s, m) ensures i == start {
        OnlyStart(s, n, m);
      }
    } else {
      assert i == Offset(s, |s|);
    }
  }

  /** Between two neighbouring starts there is no other. */
  lemma OnlyStart(s: string, n: nat, m: nat)
    requires n < |s| && m <= |s| && Offset(s, n) <= Offset(s, m) < Offset(s, n + 1)
    ensures m == n
  {
    if m < n { OffsetsGrow(s, m, n); }
    if m > n { OffsetsGrow(s, n + 1, m); }
  }

  /** char_indices gives the starts of the characters, in order. */
  lemma {:induction false} NthCharIndexIs(s: string, n: nat, k: nat)
    requires n <= |s|
    ensures NthCharIndex(Encode(s), Offset(s, n), k) == if n + k < |s| then Some(Offset(s, n + k)) else None
    decreases k
  {
    OffsetEnds(s);
    if n < |s| {
      AroundChar(s, n);
      if k > 0 { NthCharIndexIs(s, n + 1, k - 1); }
    }
  }

  lemma {:induction false} CountCharsIs(s: string, n: nat)
    requires n <= |s|
    ensures CountChars(Encode(s), Offset(s, n)) == |s| - n
    decreases |s| - n
  {
    OffsetEnds(s);
    if n < |s| {
      AroundChar(s, n);
      CountCharsIs(s, n + 1);
    }
  }

  // ----- decoding ---------------------------------------------------------

  function CodePoint(b: seq<Byte>): int
    requires 1 <= |b| <= 4
  {
    if |b| == 1 then b[0]
    else if |b| == 2 then (b[0] as int - 0xC0) * 64 + (b[1] as int - 0x80)
    else if |b| == 3 then (b[0] as int - 0xE0) * 4096 + (b[1] as int - 0x80) * 64 + (b[2] as int - 0x80)
    else (b[0] as int - 0xF0) * 262144 + (b[1] as int - 0x80) * 4096 + (b[2] as int - 0x80) * 64 + (b[3] as int - 0x80)
  }

  lemma CharRoundTrip(c: char)
    ensures CodePoint(EncodeChar(c)) == c as int
  {
    var n := c as int;
    assert n / 4096 == n / 64 / 64 && n / 262144 == n / 64 / 64 / 64;
  }

  /** Different texts have different bytes. */
  lemma {:induction false} EncodeIsInjective(s: string, t: string)
    requires Encode(s) == Encode(t)
    ensures s == t
    decreases |s|
  {
    if s != "" && t != "" {
      var a, b := EncodeChar(s[0]), EncodeChar(t[0]);
      assert Encode(s)[0] == a[0] && Encode(t)[0] == b[0];
      assert a == Encode(s)[..|a|] && b == Encode(t)[..|b|];
      CharRoundTrip(s[0]);
      CharRoundTrip(t[0]);
      assert Encode(s[1..]) == Encode(s)[|a|..] && Encode(t[1..]) == Encode(t)[|b|..];
      EncodeIsInjective(s[1..], t[1..]);
      assert s == [s[0]] + s[1..] && t == [t[0]] + t[1..];
    }
  }
}
