/** The port of a session where daemons listen on TCP: a 32-bit string hash
    folded into the dynamic range. */
module PortHash {
  const TWO31 := 0x8000_0000
  const TWO32 := 0x1_0000_0000

  type I32 = x: int | -0x8000_0000 <= x < 0x8000_0000
  type U16 = x: int | 0 <= x < 0x1_0000

  /** Two's complement: the 32-bit value congruent to `x`. */
  function Wrap(x: int): (r: I32)
    ensures (x - r) % TWO32 == 0
  {
    (x + TWO31) % TWO32 - TWO31
  }

  function ShiftLeft5(x: I32): I32 { Wrap(x * 32) }

  function WrappingSub(x: I32, y: I32): I32 { Wrap(x - y) }

  function WrappingAdd(x: I32, y: I32): I32 { Wrap(x + y) }

  /** i32::unsigned_abs, which is 2^31 for the most negative value. */
  function UnsignedAbs(x: I32): (r: nat)
    ensures r <= TWO31 && (r as int == x || r as int == -(x as int))
  {
    if x < 0 then -(x as int) else x
  }

  // ----- the polynomial ---------------------------------------------------

  function Power31(n: nat): nat {
    if n == 0 then 1 else 31 * Power31(n - 1)
  }

  /** The characters of `s` as the coefficients of a polynomial at 31, highest first. */
  function Polynomial(s: string): nat {
    if s == "" then 0 else s[0] as int * Power31(|s| - 1) + Polynomial(s[1..])
  }

  lemma {:induction false} PolynomialSnoc(s: string, c: char)
    ensures Polynomial(s + [c]) == 31 * Polynomial(s) + c as int
    decreases |s|
  {
    if s == "" {
      assert (s + [c])[1..] == "" && Power31(0) == 1;
    } else {
      PolynomialSnoc(s[1..], c);
      assert (s + [c])[1..] == s[1..] + [c];
      Distributes(s[0] as int, Power31(|s| - 1), Polynomial(s[1..]), c as int);
    }
  }

  lemma Distributes(a: int, p: int, q: int, c: int)
    ensures a * (31 * p) + (31 * q + c) == 31 * (a * p + q) + c
  {
  }

  // ----- congruence -------------------------------------------------------

  predicate Congruent(x: int, y: int) {
    (x - y) % TWO32 == 0
  }

  lemma CongruentCombines(x: int, y: int, a: int, c: int)
    requires Congruent(x, y)
    ensures Congruent(a * x + c, a * y + c)
  {
    var k := (x - y) / TWO32;
    assert x - y == k * TWO32;
    assert a * x - a * y == a * (x - y) == (a * k) * TWO32;
    MultipleIsZero(a * k);
  }

  lemma CongruentShifts(x: int, y: int, c: int)
    requires Congruent(x, y)
    ensures Congruent(x + c, y + c)
  {
    assert (x + c) - (y + c) == x - y;
  }

  lemma MultipleIsZero(k: int)
    ensures (k * TWO32) % TWO32 == 0
  {
  }

  lemma CongruentChains(x: int, y: int, z: int)
    requires Congruent(x, y) && Congruent(y, z)
    ensures Congruent(x, z)
  {
  }

  /** There is one 32-bit value in each class. */
  lemma WrapIsUnique(x: int, r: I32)
    requires Congruent(x, r)
    ensures Wrap(x) == r
  {
  }

  /** One round of the loop: whatever the intermediate results wrap to, the hash
      moves to 31 times its value plus the character. */
  lemma Round(hash: I32, exact: int, c: I32)
    requires Congruent(exact, hash)
    ensures Congruent(31 * exact + c, WrappingAdd(WrappingSub(ShiftLeft5(hash), hash), c))
  {
    var shifted := ShiftLeft5(hash);
    var scaled := WrappingSub(shifted, hash);
    CongruentCombines(exact, hash, 31, c);
    CongruentShifts(32 * hash, shifted, c - hash);
    CongruentShifts(shifted - hash, scaled, c);
    CongruentChains(31 * hash + c, shifted - hash + c, scaled + c);
    CongruentChains(31 * hash + c, scaled + c, WrappingAdd(scaled, c));
    CongruentChains(31 * exact + c, 31 * hash + c, WrappingAdd(scaled, c));
  }

  lemma OneMoreChar(session: string, n: nat, hash: I32)
    requires n < |session| && Congruent(Polynomial(session[..n]), hash)
    ensures Congruent(Polynomial(session[..n + 1]),
                      WrappingAdd(WrappingSub(ShiftLeft5(hash), hash), session[n] as int))
  {
    assert session[..n + 1] == session[..n] + [session[n]];
    PolynomialSnoc(session[..n], session[n]);
    Round(hash, Polynomial(session[..n]), session[n] as int);
  }

  lemma PortInRange(hash: I32)
    ensures 49152 <= 49152 + UnsignedAbs(hash) % 16383 <= 65534
  {
  }

  /** get_port_for_session. The hash is the polynomial reduced to 32 bits, and the
      port, for every hash down to the most negative, stays in 49152..65534. */
  method GetPortForSession(session: string) returns (port: U16)
    ensures port == 49152 + UnsignedAbs(Wrap(Polynomial(session))) % 16383
    ensures 49152 <= port <= 65534
  {
    var hash: I32 := 0;
    for n := 0 to |session|
      invariant Congruent(Polynomial(session[..n]), hash)
    {
      OneMoreChar(session, n, hash);
      hash := WrappingAdd(WrappingSub(ShiftLeft5(hash), hash), session[n] as int);
    }
    assert session[..|session|] == session;
    WrapIsUnique(Polynomial(session), hash);
    PortInRange(hash);
    port := 49152 + UnsignedAbs(hash) % 16383;
  }
}
