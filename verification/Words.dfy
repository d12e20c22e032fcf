/** Fixed-width machine words, modular distances and little-endian fields. */
module Words {

  const TWO31: int := 0x8000_0000
  const TWO32: int := 0x1_0000_0000
  const TWO63: int := 0x8000_0000_0000_0000
  const TWO64: int := 0x1_0000_0000_0000_0000

  type byte = x: int | 0 <= x < 256
  type u16 = x: int | 0 <= x < 0x1_0000
  type u32 = x: int | 0 <= x < 0x1_0000_0000
  type u64 = x: int | 0 <= x < 0x1_0000_0000_0000_0000
  type i8 = x: int | -128 <= x < 128
  type i16 = x: int | -0x8000 <= x < 0x8000

  /** Unsigned 32-bit addition with wrap-around. */
  function Add32(a: u32, b: u32): u32 { (a + b) % 0x1_0000_0000 }

  /** Unsigned 32-bit subtraction with wrap-around. */
  function Sub32(a: u32, b: u32): u32 { (a - b) % 0x1_0000_0000 }

  lemma MulAtLeast(k: int, m: int)
    requires 1 <= k && 0 < m
    ensures k * m >= m
  {
    assert (k - 1) * m >= 0;
  }

  lemma Regroup(a: int, b: int, c: int, m: int)
    ensures a * (b * m) + c * m == (a * b + c) * m
  {
    assert a * (b * m) == (a * b) * m;
  }

  lemma Decompose(a: int, m: int) returns (q: int, r: int)
    requires 0 < m
    ensures q == a / m && r == a % m && a == q * m + r && 0 <= r < m
  {
    q, r := a / m, a % m;
  }

  /** Quotient and remainder are determined by the equation they satisfy. */
  lemma DivisionUnique(q: int, r: int, q': int, r': int, m: int)
    requires 0 <= r < m && 0 <= r' < m
    requires q * m + r == q' * m + r'
    ensures q == q' && r == r'
  {
    assert (q - q') * m == r' - r;
    if q > q' {
      MulAtLeast(q - q', m);
    } else if q < q' {
      MulAtLeast(q' - q, m);
    }
  }

  lemma ModIs(a: int, q: int, r: int, m: int)
    requires 0 <= r < m
    requires a == q * m + r
    ensures a % m == r && a / m == q
  {
    var q', r' := Decompose(a, m);
    DivisionUnique(q, r, q', r', m);
  }

  /** The remainder of a by m, reached by subtraction: how a free-running cursor maps to a
      physical index or to its low word. Equal to a % m, and never unfolded into division. */
  function Wrap(a: nat, m: nat): (r: nat)
    requires 0 < m
    ensures r < m
    decreases a
  {
    if a < m then a else Wrap(a - m, m)
  }

  lemma WrapIsMod(a: nat, m: nat)
    requires 0 < m
    ensures Wrap(a, m) == a % m
    decreases a
  {
    if a < m {
      ModIs(a, 0, a, m);
    } else {
      WrapIsMod(a - m, m);
      var q, r := Decompose(a - m, m);
      ModIs(a, q + 1, r, m);
    }
  }

  /** Two numbers closer than m with equal remainders are equal. */
  lemma WrapInjective(a: nat, b: nat, m: nat)
    requires 0 < m && a <= b < a + m && Wrap(a, m) == Wrap(b, m)
    ensures a == b
  {
    WrapIsMod(a, m);
    WrapIsMod(b, m);
    var qa, ra := Decompose(a, m);
    var qb, rb := Decompose(b, m);
    assert (qb - qa) * m == b - a;
    if qb > qa {
      MulAtLeast(qb - qa, m);
    } else if qb < qa {
      MulAtLeast(qa - qb, m);
    }
  }

  lemma Carry(q: int, m: int)
    ensures (q + 1) * m == q * m + m
  {
  }

  lemma Borrow(q: int, m: int)
    ensures (q - 1) * m == q * m - m
  {
  }

  /** A wrapped position moved by at most m needs at most one correction. */
  lemma WrapMove(a: nat, k: int, m: nat)
    requires 0 < m && 0 <= m + k && k <= m && 0 <= a + k
    ensures Wrap(a + k, m) ==
            if Wrap(a, m) + k < 0 then Wrap(a, m) + k + m
            else if Wrap(a, m) + k >= m then Wrap(a, m) + k - m
            else Wrap(a, m) + k
  {
    hide Wrap;
    WrapIsMod(a, m);
    WrapIsMod(a + k, m);
    var q, r := Decompose(a, m);
    if r + k < 0 {
      Borrow(q, m);
      ModIs(a + k, q - 1, r + k + m, m);
    } else if r + k >= m {
      Carry(q, m);
      ModIs(a + k, q + 1, r + k - m, m);
    } else {
      ModIs(a + k, q, r + k, m);
    }
  }

  /** A 32-bit distance is the true one while the cursors are less than 2^32 apart. */
  lemma Distance32(a: nat, b: nat)
    requires b <= a < b + TWO32
    ensures Sub32(Wrap(a, TWO32), Wrap(b, TWO32)) == a - b
  {
    WrapIsMod(a, TWO32);
    WrapIsMod(b, TWO32);
  }

  /** A 16-bit word read as two's complement. */
  function Signed16(v: u16): i16 { if v < 0x8000 then v else v - 0x1_0000 }

  function Zeros(n: nat): (z: seq<byte>)
    ensures |z| == n && forall i :: 0 <= i < n ==> z[i] == 0
  {
    seq(n, _ => 0)
  }

  function Wr16(v: u16): (p: seq<byte>)
    ensures |p| == 2 && Rd16(p) == v
  {
    [v % 256, v / 256]
  }

  function Rd16(p: seq<byte>): u16
    requires |p| == 2
  {
    (p[0] as int) + 256 * (p[1] as int)
  }

  function Wr32(v: u32): (p: seq<byte>)
    ensures |p| == 4 && Rd32(p) == v
  {
    Wr16(v % 0x1_0000) + Wr16(v / 0x1_0000)
  }

  function Rd32(p: seq<byte>): u32
    requires |p| == 4
  {
    (p[0] as int) + 256 * (p[1] as int) + 0x1_0000 * (p[2] as int) + 0x100_0000 * (p[3] as int)
  }

  // ------------------------------------------------------------------ the bits of a byte

  predicate Bit(b: nat, i: nat) { if i == 0 then b % 2 == 1 else Bit(b / 2, i - 1) }

  /** The number has at most n bits. */
  predicate BitsWithin(b: nat, n: nat) { if n == 0 then b == 0 else BitsWithin(b / 2, n - 1) }

  lemma {:induction false} SameBits(x: nat, y: nat, n: nat)
    requires BitsWithin(x, n) && BitsWithin(y, n) && forall i :: 0 <= i < n ==> Bit(x, i) == Bit(y, i)
    ensures x == y
    decreases n
  {
    if n > 0 {
      assert Bit(x, 0) == Bit(y, 0);
      forall i | 0 <= i < n - 1 ensures Bit(x / 2, i) == Bit(y / 2, i) {
        assert Bit(x, i + 1) == Bit(y, i + 1);
      }
      SameBits(x / 2, y / 2, n - 1);
    }
  }

  lemma ByteBits(b: byte)
    ensures BitsWithin(b, 8)
  {
    var h1 := b / 2;
    var h2 := h1 / 2;
    var h3 := h2 / 2;
    var h4 := h3 / 2;
    var h5 := h4 / 2;
    var h6 := h5 / 2;
    var h7 := h6 / 2;
    assert h7 < 2 && h7 / 2 == 0;
    assert BitsWithin(h7, 1) && BitsWithin(h6, 2) && BitsWithin(h5, 3) && BitsWithin(h4, 4) && BitsWithin(h3, 5) && BitsWithin(h2, 6) && BitsWithin(h1, 7);
  }
}
