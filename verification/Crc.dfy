/** The two checksums of the firmware: the reflected CRC-32 of audio blocks, transfers and profiles,
    and the CRC-16 of bulk frames. */
module Crc {
  import opened Words

  /** `n` rounds of the reflected CRC-32 register. */
  function Rounds32(crc: bv32, n: nat): bv32
    decreases n
  {
    if n == 0 then crc
    else Rounds32(Round32(crc), n - 1)
  }

  function Round32(crc: bv32): bv32 { (crc >> 1) ^ (0xEDB8_8320 & (0 - (crc & 1))) }

  /** The register after a run of bytes. */
  function Update32(crc: bv32, data: seq<byte>): bv32
    decreases data
  {
    if data == [] then crc else Update32(Byte32(crc, data[0]), data[1..])
  }

  function Bits(b: byte): bv8 {
    (if Bit(b, 7) then 0x80 else 0) | (if Bit(b, 6) then 0x40 else 0) | (if Bit(b, 5) then 0x20 else 0)
    | (if Bit(b, 4) then 0x10 else 0) | (if Bit(b, 3) then 0x08 else 0) | (if Bit(b, 2) then 0x04 else 0)
    | (if Bit(b, 1) then 0x02 else 0) | (if Bit(b, 0) then 0x01 else 0)
  }

  /** The bits of a byte where they enter the register: at its lower or its upper end. */
  function Wide32(b: byte): bv32 { Bits(b) as bv32 }
  function Wide16(b: byte): bv16 { (Bits(b) as bv16) << 8 }

  function Xor32(x: bv32, y: bv32): bv32 { x ^ y }
  function Xor16(x: bv16, y: bv16): bv16 { x ^ y }

  function Byte32(crc: bv32, b: byte): bv32 {
    Rounds32(Xor32(crc, Wide32(b)), 8)
  }

  /** The final inversion. */
  function Finish(crc: bv32): u32 { Xor32(crc, 0xFFFF_FFFF) as int }

  function Crc32(data: seq<byte>): u32 { Finish(Update32(0xFFFF_FFFF, data)) }

  /** Feeding two runs one after the other is feeding their concatenation. */
  lemma {:induction false} UpdateConcat(crc: bv32, a: seq<byte>, b: seq<byte>)
    ensures Update32(crc, a + b) == Update32(Update32(crc, a), b)
    decreases a
  {
    hide Byte32;
    if a == [] {
      assert a + b == b;
    } else {
      assert (a + b)[1..] == a[1..] + b;
      UpdateConcat(Byte32(crc, a[0]), a[1..], b);
    }
  }

  /** The bit loop. */
  method Shift32(crc0: bv32) returns (crc: bv32)
    ensures crc == Rounds32(crc0, 8)
  {
    crc := crc0;
    for bit := 0 to 8
      invariant Rounds32(crc, 8 - bit) == Rounds32(crc0, 8)
    {
      var mask: bv32 := 0 - (crc & 1);
      var next := (crc >> 1) ^ (0xEDB8_8320 & mask);
      assert next == Round32(crc);
      hide Round32;
      crc := next;
    }
  }

  /** The byte and bit loops of the firmware compute that register. */
  method Crc32Update(crc0: bv32, data: seq<byte>) returns (crc: bv32)
    ensures crc == Update32(crc0, data)
  {
    hide Rounds32, Xor32;
    crc := crc0;
    for i := 0 to |data|
      invariant Update32(crc, data[i..]) == Update32(crc0, data)
    {
      UpdateFirst(crc, data, i);
      crc := Shift32(Xor32(crc, Wide32(data[i])));
    }
  }

  lemma UpdateFirst(crc: bv32, data: seq<byte>, i: nat)
    requires i < |data|
    ensures Update32(crc, data[i..]) == Update32(Byte32(crc, data[i]), data[i + 1..])
  {
    hide Byte32;
    assert data[i..][1..] == data[i + 1..];
  }

  /** A checksum over two runs, as it is taken over a header and a payload kept apart. */
  method Crc32OfPair(a: seq<byte>, b: seq<byte>) returns (crc: u32)
    ensures crc == Crc32(a + b)
  {
    hide Update32, Finish;
    var c := Crc32Update(0xFFFF_FFFF, a);
    c := Crc32Update(c, b);
    UpdateConcat(0xFFFF_FFFF, a, b);
    crc := Finish(c);
  }

  /** `n` rounds of the CRC-16 register, most significant bit first. */
  function Rounds16(crc: bv16, n: nat): bv16
    decreases n
  {
    if n == 0 then crc
    else Rounds16(Round16(crc), n - 1)
  }

  function Round16(crc: bv16): bv16 { if crc & 0x8000 != 0 then (crc << 1) ^ 0x1021 else crc << 1 }

  function Update16(crc: bv16, data: seq<byte>): bv16
    decreases data
  {
    if data == [] then crc else Update16(Byte16(crc, data[0]), data[1..])
  }

  function Byte16(crc: bv16, b: byte): bv16 {
    Rounds16(Xor16(crc, Wide16(b)), 8)
  }

  function Crc16(data: seq<byte>): u16 {
    Update16(0xFFFF, data) as int
  }

  method Shift16(crc0: bv16) returns (crc: bv16)
    ensures crc == Rounds16(crc0, 8)
  {
    crc := crc0;
    for bit := 0 to 8
      invariant Rounds16(crc, 8 - bit) == Rounds16(crc0, 8)
    {
      var shifted := crc << 1;
      var next := if crc & 0x8000 != 0 then shifted ^ 0x1021 else shifted;
      assert next == Round16(crc);
      hide Round16;
      crc := next;
    }
  }

  method BulkCrc16(data: seq<byte>) returns (crc: bv16)
    ensures crc as int == Crc16(data)
  {
    hide Rounds16, Xor16;
    crc := 0xFFFF;
    for i := 0 to |data|
      invariant Update16(crc, data[i..]) == Update16(0xFFFF, data)
    {
      UpdateFirst16(crc, data, i);
      crc := Shift16(Xor16(crc, Wide16(data[i])));
    }
  }

  lemma UpdateFirst16(crc: bv16, data: seq<byte>, i: nat)
    requires i < |data|
    ensures Update16(crc, data[i..]) == Update16(Byte16(crc, data[i]), data[i + 1..])
  {
    hide Byte16;
    assert data[i..][1..] == data[i + 1..];
  }

  // ------------------------------------------------------------------ what a checksum sees

  lemma Round32Injective(x: bv32, y: bv32)
    requires Round32(x) == Round32(y)
    ensures x == y
  {
  }

  lemma {:induction false} Rounds32Injective(x: bv32, y: bv32, n: nat)
    requires Rounds32(x, n) == Rounds32(y, n)
    ensures x == y
    decreases n
  {
    hide Round32;
    if n > 0 {
      Rounds32Injective(Round32(x), Round32(y), n - 1);
      Round32Injective(x, y);
    }
  }

  lemma XorLeft32(c: bv32, x: bv32, y: bv32)
    requires Xor32(c, x) == Xor32(c, y)
    ensures x == y
  {
    assert c ^ (c ^ x) == x && c ^ (c ^ y) == y;
  }

  lemma XorRight32(c: bv32, x: bv32, y: bv32)
    requires Xor32(x, c) == Xor32(y, c)
    ensures x == y
  {
    assert (x ^ c) ^ c == x && (y ^ c) ^ c == y;
  }

  lemma XorLeft16(c: bv16, x: bv16, y: bv16)
    requires Xor16(c, x) == Xor16(c, y)
    ensures x == y
  {
    assert c ^ (c ^ x) == x && c ^ (c ^ y) == y;
  }

  lemma XorRight16(c: bv16, x: bv16, y: bv16)
    requires Xor16(x, c) == Xor16(y, c)
    ensures x == y
  {
    assert (x ^ c) ^ c == x && (y ^ c) ^ c == y;
  }

  lemma BitsAgree(x: byte, y: byte)
    requires Bits(x) == Bits(y)
    ensures Bit(x, 7) == Bit(y, 7) && Bit(x, 6) == Bit(y, 6) && Bit(x, 5) == Bit(y, 5) && Bit(x, 4) == Bit(y, 4)
    ensures Bit(x, 3) == Bit(y, 3) && Bit(x, 2) == Bit(y, 2) && Bit(x, 1) == Bit(y, 1) && Bit(x, 0) == Bit(y, 0)
  {
    hide Bit;
  }

  lemma WideInjective(x: byte, y: byte)
    requires Wide32(x) == Wide32(y) || Wide16(x) == Wide16(y)
    ensures x == y
  {
    hide Bits, Bit;
    NarrowAgain(Bits(x), Bits(y));
    BitsAgree(x, y);
    ByteBits(x);
    ByteBits(y);
    hide BitsWithin;
    SameBits(x, y, 8);
  }

  lemma NarrowAgain(a: bv8, b: bv8)
    ensures a as bv32 == b as bv32 || (a as bv16) << 8 == (b as bv16) << 8 ==> a == b
  {
  }

  lemma Byte32KeepsRegister(c: bv32, d: bv32, x: byte)
    requires Byte32(c, x) == Byte32(d, x)
    ensures c == d
  {
    hide Rounds32, Wide32, Xor32;
    Rounds32Injective(Xor32(c, Wide32(x)), Xor32(d, Wide32(x)), 8);
    XorRight32(Wide32(x), c, d);
  }

  lemma Byte32KeepsByte(c: bv32, x: byte, y: byte)
    requires Byte32(c, x) == Byte32(c, y)
    ensures x == y
  {
    hide Rounds32, Wide32, Xor32;
    Rounds32Injective(Xor32(c, Wide32(x)), Xor32(c, Wide32(y)), 8);
    XorLeft32(c, Wide32(x), Wide32(y));
    WideInjective(x, y);
  }

  lemma {:induction false} Update32Injective(x: bv32, y: bv32, data: seq<byte>)
    requires Update32(x, data) == Update32(y, data)
    ensures x == y
    decreases data
  {
    hide Byte32;
    if data != [] {
      Update32Injective(Byte32(x, data[0]), Byte32(y, data[0]), data[1..]);
      Byte32KeepsRegister(x, y, data[0]);
    }
  }

  lemma FinishInjective(x: bv32, y: bv32)
    requires Finish(x) == Finish(y)
    ensures x == y
  {
    hide Xor32;
    var a, b := Xor32(x, 0xFFFF_FFFF), Xor32(y, 0xFFFF_FFFF);
    assert (a as int) as bv32 == a && (b as int) as bv32 == b;
    XorRight32(0xFFFF_FFFF, x, y);
  }

  lemma Update32Around(before: seq<byte>, x: byte, after: seq<byte>)
    ensures Update32(0xFFFF_FFFF, before + [x] + after) == Update32(Byte32(Update32(0xFFFF_FFFF, before), x), after)
  {
    hide Byte32;
    UpdateConcat(0xFFFF_FFFF, before + [x], after);
    UpdateConcat(0xFFFF_FFFF, before, [x]);
    assert [x][1..] == [];
  }

  /** Whatever surrounds it, a single byte changed in any way changes the CRC-32. */
  lemma {:induction false} OneByteIsSeen32(before: seq<byte>, x: byte, y: byte, after: seq<byte>)
    ensures Crc32(before + [x] + after) == Crc32(before + [y] + after) ==> x == y
  {
    hide Byte32, Update32, Finish;
    if Crc32(before + [x] + after) == Crc32(before + [y] + after) {
      var c := Update32(0xFFFF_FFFF, before);
      FinishInjective(Update32(0xFFFF_FFFF, before + [x] + after), Update32(0xFFFF_FFFF, before + [y] + after));
      Update32Around(before, x, after);
      Update32Around(before, y, after);
      Update32Injective(Byte32(c, x), Byte32(c, y), after);
      Byte32KeepsByte(c, x, y);
    }
  }

  function Top16(x: bv16): bv16 { x & 0x8000 }
  function Shifted16(x: bv16): bv16 { x << 1 }
  function Reduced16(x: bv16): bv16 { (x << 1) ^ 0x1021 }

  lemma Round16Parts(x: bv16)
    ensures Top16(x) == 0 || Top16(x) == 0x8000
    ensures Round16(x) == if Top16(x) != 0 then Reduced16(x) else Shifted16(x)
  {
  }

  /** The polynomial is odd: a reduced register is never a merely shifted one. */
  lemma ReducedIsOdd(x: bv16, y: bv16)
    ensures Reduced16(x) != Shifted16(y)
  {
  }

  lemma ReducedInjective(x: bv16, y: bv16)
    requires Reduced16(x) == Reduced16(y)
    ensures Shifted16(x) == Shifted16(y)
  {
  }

  lemma PartsInjective(x: bv16, y: bv16)
    requires Top16(x) == Top16(y) && Shifted16(x) == Shifted16(y)
    ensures x == y
  {
  }

  lemma Round16Injective(x: bv16, y: bv16)
    requires Round16(x) == Round16(y)
    ensures x == y
  {
    hide Round16, Top16, Reduced16, Shifted16;
    Round16Parts(x);
    Round16Parts(y);
    ReducedIsOdd(x, y);
    ReducedIsOdd(y, x);
    if Reduced16(x) == Reduced16(y) { ReducedInjective(x, y); }
    PartsInjective(x, y);
  }

  lemma {:induction false} Rounds16Injective(x: bv16, y: bv16, n: nat)
    requires Rounds16(x, n) == Rounds16(y, n)
    ensures x == y
    decreases n
  {
    hide Round16;
    if n > 0 {
      Rounds16Injective(Round16(x), Round16(y), n - 1);
      Round16Injective(x, y);
    }
  }

  lemma Byte16KeepsRegister(c: bv16, d: bv16, x: byte)
    requires Byte16(c, x) == Byte16(d, x)
    ensures c == d
  {
    hide Rounds16, Wide16, Xor16;
    Rounds16Injective(Xor16(c, Wide16(x)), Xor16(d, Wide16(x)), 8);
    XorRight16(Wide16(x), c, d);
  }

  lemma Byte16KeepsByte(c: bv16, x: byte, y: byte)
    requires Byte16(c, x) == Byte16(c, y)
    ensures x == y
  {
    hide Rounds16, Wide16, Xor16;
    Rounds16Injective(Xor16(c, Wide16(x)), Xor16(c, Wide16(y)), 8);
    XorLeft16(c, Wide16(x), Wide16(y));
    WideInjective(x, y);
  }

  lemma {:induction false} Update16Injective(x: bv16, y: bv16, data: seq<byte>)
    requires Update16(x, data) == Update16(y, data)
    ensures x == y
    decreases data
  {
    hide Byte16;
    if data != [] {
      Update16Injective(Byte16(x, data[0]), Byte16(y, data[0]), data[1..]);
      Byte16KeepsRegister(x, y, data[0]);
    }
  }

  lemma {:induction false} Update16Concat(crc: bv16, a: seq<byte>, b: seq<byte>)
    ensures Update16(crc, a + b) == Update16(Update16(crc, a), b)
    decreases a
  {
    hide Byte16;
    if a == [] {
      assert a + b == b;
    } else {
      assert (a + b)[1..] == a[1..] + b;
      Update16Concat(Byte16(crc, a[0]), a[1..], b);
    }
  }

  lemma Update16Around(before: seq<byte>, x: byte, after: seq<byte>)
    ensures Update16(0xFFFF, before + [x] + after) == Update16(Byte16(Update16(0xFFFF, before), x), after)
  {
    hide Byte16;
    Update16Concat(0xFFFF, before + [x], after);
    Update16Concat(0xFFFF, before, [x]);
    assert [x][1..] == [];
  }

  lemma Crc16Injective(a: seq<byte>, b: seq<byte>)
    requires Crc16(a) == Crc16(b)
    ensures Update16(0xFFFF, a) == Update16(0xFFFF, b)
  {
    hide Update16;
    var x, y := Update16(0xFFFF, a), Update16(0xFFFF, b);
    assert (x as int) as bv16 == x && (y as int) as bv16 == y;
  }

  /** Whatever surrounds it, a single byte changed in any way changes the CRC-16. */
  lemma {:induction false} OneByteIsSeen16(before: seq<byte>, x: byte, y: byte, after: seq<byte>)
    ensures Crc16(before + [x] + after) == Crc16(before + [y] + after) ==> x == y
  {
    hide Byte16, Update16, Crc16;
    if Crc16(before + [x] + after) == Crc16(before + [y] + after) {
      var c := Update16(0xFFFF, before);
      Crc16Injective(before + [x] + after, before + [y] + after);
      Update16Around(before, x, after);
      Update16Around(before, y, after);
      Update16Injective(Byte16(c, x), Byte16(c, y), after);
      Byte16KeepsByte(c, x, y);
    }
  }

  // ------------------------------------------------------------------ the published check values

  const DIGITS: seq<byte> := [0x31, 0x32, 0x33, 0x34, 0x35, 0x36, 0x37, 0x38, 0x39]

  lemma DigitBits()
    ensures Bits(0x31) == 0x31 && Bits(0x32) == 0x32 && Bits(0x33) == 0x33 && Bits(0x34) == 0x34 && Bits(0x35) == 0x35
    ensures Bits(0x36) == 0x36 && Bits(0x37) == 0x37 && Bits(0x38) == 0x38 && Bits(0x39) == 0x39
  {
  }

  lemma Digits32()
    ensures Byte32(0xFFFF_FFFF, 0x31) == 0x7C23_1048
    ensures Byte32(0x7C23_1048, 0x32) == 0xB0AC_BB32
    ensures Byte32(0xB0AC_BB32, 0x33) == 0x77B7_9C2D
    ensures Byte32(0x77B7_9C2D, 0x34) == 0x641C_1F5C
    ensures Byte32(0x641C_1F5C, 0x35) == 0x340A_C5E3
    ensures Byte32(0x340A_C5E3, 0x36) == 0xF68D_2C9E
    ensures Byte32(0xF68D_2C9E, 0x37) == 0xAFFC_9660
    ensures Byte32(0xAFFC_9660, 0x38) == 0x651F_2550
    ensures Byte32(0x651F_2550, 0x39) == 0x340B_C6D9
  {
    DigitBits();
    hide Bits;
  }

  /** The check value of CRC-32 (ISO-HDLC): the checksum of the digits 1 to 9. */
  lemma {:induction false} CheckValue32()
    ensures Crc32(DIGITS) == 0xCBF4_3926
  {
    Digits32();
    hide Byte32;
    assert DIGITS[0..] == DIGITS && DIGITS[9..] == [];
    UpdateFirst(0xFFFF_FFFF, DIGITS, 0);
    UpdateFirst(0x7C23_1048, DIGITS, 1);
    UpdateFirst(0xB0AC_BB32, DIGITS, 2);
    UpdateFirst(0x77B7_9C2D, DIGITS, 3);
    UpdateFirst(0x641C_1F5C, DIGITS, 4);
    UpdateFirst(0x340A_C5E3, DIGITS, 5);
    UpdateFirst(0xF68D_2C9E, DIGITS, 6);
    UpdateFirst(0xAFFC_9660, DIGITS, 7);
    UpdateFirst(0x651F_2550, DIGITS, 8);
  }

  lemma Digits16()
    ensures Byte16(0xFFFF, 0x31) == 0xC782
    ensures Byte16(0xC782, 0x32) == 0x3DBA
    ensures Byte16(0x3DBA, 0x33) == 0x5BCE
    ensures Byte16(0x5BCE, 0x34) == 0x5349
    ensures Byte16(0x5349, 0x35) == 0x4560
    ensures Byte16(0x4560, 0x36) == 0x2EF4
    ensures Byte16(0x2EF4, 0x37) == 0x7718
    ensures Byte16(0x7718, 0x38) == 0xA12B
    ensures Byte16(0xA12B, 0x39) == 0x29B1
  {
    DigitBits();
    hide Bits;
  }

  /** The check value of the CCITT CRC-16 that starts from all ones: the checksum of the digits 1 to 9. */
  lemma {:induction false} CheckValue16()
    ensures Crc16(DIGITS) == 0x29B1
  {
    Digits16();
    hide Byte16;
    assert DIGITS[0..] == DIGITS && DIGITS[9..] == [];
    UpdateFirst16(0xFFFF, DIGITS, 0);
    UpdateFirst16(0xC782, DIGITS, 1);
    UpdateFirst16(0x3DBA, DIGITS, 2);
    UpdateFirst16(0x5BCE, DIGITS, 3);
    UpdateFirst16(0x5349, DIGITS, 4);
    UpdateFirst16(0x4560, DIGITS, 5);
    UpdateFirst16(0x2EF4, DIGITS, 6);
    UpdateFirst16(0x7718, DIGITS, 7);
    UpdateFirst16(0xA12B, DIGITS, 8);
  }
}
