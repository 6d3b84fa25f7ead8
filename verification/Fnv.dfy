/**
 FNV-1a over 64-bit words (draft-eastlake-fnv, section 2) and the version
 identifiers built from it. Strings are handled here as their UTF-8 bytes.
 */
module Fnv {
  import opened Common

  const OFFSET_BASIS: u64 := 0xcbf2_9ce4_8422_2325
  const PRIME: u64 := 0x0000_0100_0000_01b3
  // PRIME is odd, so it has an inverse modulo 2^64.
  const PRIME_INVERSE: u64 := 0xce96_5057_aff6_957b

  type byte = x: int | 0 <= x < 256
  type Bytes = seq<byte>

  /** Bitwise exclusive or of the lowest `width` bits. */
  function Xor(a: nat, b: nat, width: nat): nat {
    if width == 0 then 0
    else 2 * Xor(a / 2, b / 2, width - 1) + (if a % 2 != b % 2 then 1 else 0)
  }

  function Pow2(n: nat): nat {
    if n == 0 then 1 else 2 * Pow2(n - 1)
  }

  function Xor8(a: byte, b: byte): byte {
    XorFits(a, b, 8);
    EightBits();
    Xor(a, b, 8)
  }

  /** `hash ^ byte`: a byte only reaches the lowest eight bits. */
  function XorByte(hash: u64, byte: byte): u64 {
    256 * (hash / 256) + Xor8(hash % 256, byte)
  }

  function Step(hash: u64, byte: byte): u64 {
    WrapU64(XorByte(hash, byte) * PRIME)
  }

  function Unstep(hash: u64, byte: byte): u64 {
    XorByte(WrapU64(hash * PRIME_INVERSE), byte)
  }

  /** The hash state after absorbing `bytes` from state `hash`. */
  function Absorb(hash: u64, bytes: Bytes): u64
    decreases |bytes|
  {
    if bytes == [] then hash else Absorb(Step(hash, bytes[0]), bytes[1..])
  }

  function Hash(bytes: Bytes): u64 {
    Absorb(OFFSET_BASIS, bytes)
  }

  method Fnv1a64(bytes: Bytes) returns (hash: u64)
    ensures hash == Hash(bytes)
  {
    hash := OFFSET_BASIS;
    for i := 0 to |bytes|
      invariant Absorb(hash, bytes[i..]) == Hash(bytes)
    {
      hash := XorByte(hash, bytes[i]);
      hash := WrapU64(hash * PRIME);
      assert bytes[i..][1..] == bytes[i + 1..];
    }
  }

  // ------------------------------------------------------------ one byte step

  function BitOf(x: nat, i: nat): nat {
    if i == 0 then x % 2 else BitOf(x / 2, i - 1)
  }

  /** The truth table: a bit is set exactly where the operands' bits differ. */
  lemma {:induction false} XorBits(a: nat, b: nat, width: nat, i: nat)
    requires i < width
    ensures BitOf(Xor(a, b, width), i) == if BitOf(a, i) != BitOf(b, i) then 1 else 0
  {
    var high, bit := Xor(a / 2, b / 2, width - 1), if a % 2 != b % 2 then 1 else 0;
    assert (2 * high + bit) / 2 == high && (2 * high + bit) % 2 == bit;
    if i > 0 {
      XorBits(a / 2, b / 2, width - 1, i - 1);
    }
  }

  lemma {:induction false} XorFits(a: nat, b: nat, width: nat)
    ensures Xor(a, b, width) < Pow2(width)
  {
    if width != 0 {
      XorFits(a / 2, b / 2, width - 1);
    }
  }

  lemma EightBits()
    ensures Pow2(8) == 256
  {
    assert Pow2(4) == 16;
    assert Pow2(6) == 64;
  }

  lemma {:induction false} XorUndo(a: nat, b: nat, width: nat)
    requires a < Pow2(width)
    ensures Xor(Xor(a, b, width), b, width) == a
  {
    if width != 0 {
      var high, bit := Xor(a / 2, b / 2, width - 1), if a % 2 != b % 2 then 1 else 0;
      XorUndo(a / 2, b / 2, width - 1);
      assert Xor(a, b, width) == 2 * high + bit;
      assert (2 * high + bit) / 2 == high && (2 * high + bit) % 2 == bit;
      assert Xor(2 * high + bit, b, width) == 2 * (a / 2) + (if bit != b % 2 then 1 else 0);
    }
  }

  lemma SplitByte(high: nat, low: byte)
    ensures (256 * high + low) / 256 == high && (256 * high + low) % 256 == low
  {
  }

  lemma Xor8Undo(low: byte, byte: byte)
    ensures Xor8(Xor8(low, byte), byte) == low
  {
    XorFits(low, byte, 8);
    EightBits();
    XorUndo(low, byte, 8);
  }

  lemma XorByteIs(high: nat, low: byte, byte: byte)
    requires 256 * high + low < U64_LIMIT
    ensures XorByte(256 * high + low, byte) == 256 * high + Xor8(low, byte)
  {
    SplitByte(high, low);
  }

  lemma XorByteUndo(hash: u64, byte: byte)
    ensures XorByte(XorByte(hash, byte), byte) == hash
  {
    XorByteIs(hash / 256, Xor8(hash % 256, byte), byte);
    Xor8Undo(hash % 256, byte);
  }

  lemma TimesDifference(p: int, q: int, b: int)
    ensures (p - q) * b == p * b - q * b
  {
  }

  lemma TimesTimes(p: int, q: int, r: int)
    ensures p * q * r == p * (q * r)
  {
  }

  /** Multiplying what is left of `x * a` by an inverse of `a` gives `x` and a multiple of the modulus. */
  lemma Cancel(x: int, a: int, b: int, k: int, m: int)
    requires a * b == m * U64_LIMIT + 1
    ensures (x * a - k * U64_LIMIT) * b == x + (x * m - k * b) * U64_LIMIT
  {
    TimesDifference(x * a, k * U64_LIMIT, b);
    TimesTimes(x, a, b);
    assert x * (m * U64_LIMIT + 1) == x * m * U64_LIMIT + x;
  }

  lemma CancelWrapped(x: u64, a: int, b: int, k: int, m: int, w: int)
    requires w == x * a - k * U64_LIMIT && a * b == m * U64_LIMIT + 1
    ensures WrapU64(w * b) == x
  {
    Cancel(x, a, b, k, m);
    ModShift(x, x * m - k * b);
  }

  lemma MulUndo(x: u64, a: u64, b: u64)
    requires (a * b) % U64_LIMIT == 1
    ensures WrapU64(WrapU64(x * a) * b) == x
  {
    var p, q := x * a, a * b;
    assert WrapU64(p) == p - p / U64_LIMIT * U64_LIMIT;
    assert q == q / U64_LIMIT * U64_LIMIT + 1;
    CancelWrapped(x, a, b, p / U64_LIMIT, q / U64_LIMIT, WrapU64(p));
  }

  /** Every byte step permutes the 64-bit states: `Unstep` undoes it from both sides. */
  lemma StepIsBijection(hash: u64, byte: byte)
    ensures Unstep(Step(hash, byte), byte) == hash
    ensures Step(Unstep(hash, byte), byte) == hash
  {
    MulUndo(XorByte(hash, byte), PRIME, PRIME_INVERSE);
    XorByteUndo(hash, byte);
    MulUndo(hash, PRIME_INVERSE, PRIME);
    XorByteUndo(WrapU64(hash * PRIME_INVERSE), byte);
  }

  lemma {:induction false} XorSeparates(x: nat, a: nat, b: nat, width: nat)
    requires a < Pow2(width) && b < Pow2(width)
    requires Xor(x, a, width) == Xor(x, b, width)
    ensures a == b
  {
    if width != 0 {
      XorSeparates(x / 2, a / 2, b / 2, width - 1);
    }
  }

  lemma XorByteSeparates(hash: u64, a: byte, b: byte)
    requires a != b
    ensures XorByte(hash, a) != XorByte(hash, b)
  {
    EightBits();
    if XorByte(hash, a) == XorByte(hash, b) {
      XorSeparates(hash % 256, a, b, 8);
    }
  }

  lemma StepSeparatesBytes(hash: u64, a: byte, b: byte)
    requires a != b
    ensures Step(hash, a) != Step(hash, b)
  {
    XorByteSeparates(hash, a, b);
    assert WrapU64(Step(hash, a) * PRIME_INVERSE) == XorByte(hash, a) by {
      MulUndo(XorByte(hash, a), PRIME, PRIME_INVERSE);
    }
    assert WrapU64(Step(hash, b) * PRIME_INVERSE) == XorByte(hash, b) by {
      MulUndo(XorByte(hash, b), PRIME, PRIME_INVERSE);
    }
  }

  // ------------------------------------------------------------ whole inputs

  lemma StepValue(hash: u64, byte: byte, low: byte, k: nat, next: u64)
    requires Xor(hash % 256, byte, 8) == low
    requires (hash - hash % 256 + low) * PRIME == k * U64_LIMIT + next
    ensures Step(hash, byte) == next
  {
    assert 256 * (hash / 256) + low == hash - hash % 256 + low;
    ModShift(next, k);
  }

  lemma LetterBits()
    ensures Xor(0x25, 0x61, 8) == 0x44
  {
    assert Xor(1, 3, 3) == 2;
    assert Xor(4, 12, 5) == 8;
    assert Xor(18, 48, 7) == 34;
  }

  lemma AbsorbOne(hash: u64, b: byte)
    ensures Absorb(hash, [b]) == Step(hash, b)
  {
    assert [b][1..] == [];
    assert Absorb(Step(hash, b), []) == Step(hash, b);
  }

  lemma KnownStep(basis: u64, letter: byte)
    requires basis == 0xcbf29ce484222325 && letter == 0x61
    ensures Step(basis, letter) == 0xaf63dc4c8601ec8c
  {
    LetterBits();
    assert Xor(basis % 256, letter, 8) == 0x44;
    StepValue(basis, letter, 0x44, 875948729822, 0xaf63dc4c8601ec8c);
  }

  /** Published values of the hash: of the empty text and of the letter "a". */
  lemma KnownHashes(letter: byte)
    requires letter == 0x61
    ensures Hash([]) == 0xcbf29ce484222325
    ensures Hash([letter]) == 0xaf63dc4c8601ec8c
  {
    AbsorbOne(OFFSET_BASIS, letter);
    KnownStep(OFFSET_BASIS, letter);
  }

  /** Hashing a concatenation continues from the hash of the first part. */
  lemma {:induction false} AbsorbConcat(hash: u64, first: Bytes, second: Bytes)
    ensures Absorb(hash, first + second) == Absorb(Absorb(hash, first), second)
    decreases |first|
  {
    if first == [] {
      assert first + second == second;
    } else {
      assert (first + second)[1..] == first[1..] + second;
      AbsorbConcat(Step(hash, first[0]), first[1..], second);
    }
  }

  /** Absorbing the same bytes never merges two states. */
  lemma {:induction false} AbsorbInjective(h1: u64, h2: u64, bytes: Bytes)
    ensures Absorb(h1, bytes) == Absorb(h2, bytes) <==> h1 == h2
    decreases |bytes|
  {
    if bytes != [] {
      AbsorbInjective(Step(h1, bytes[0]), Step(h2, bytes[0]), bytes[1..]);
      StepIsBijection(h1, bytes[0]);
      StepIsBijection(h2, bytes[0]);
    }
  }

  /** A shared suffix neither creates nor hides a collision. */
  lemma CollisionsComeFromPrefixes(p: Bytes, q: Bytes, suffix: Bytes)
    ensures Hash(p + suffix) == Hash(q + suffix) <==> Hash(p) == Hash(q)
  {
    AbsorbConcat(OFFSET_BASIS, p, suffix);
    AbsorbConcat(OFFSET_BASIS, q, suffix);
    AbsorbInjective(Hash(p), Hash(q), suffix);
  }

  /** The two texts agree everywhere except at position `i`. */
  predicate DifferOnlyAt(x: Bytes, y: Bytes, i: nat) {
    && |x| == |y| && i < |x| && x[i] != y[i]
    && forall j :: 0 <= j < |x| && j != i ==> x[j] == y[j]
  }

  /** Two texts of equal length that differ in exactly one byte never collide. */
  lemma OneByteChangesHash(x: Bytes, y: Bytes, i: nat)
    requires DifferOnlyAt(x, y, i)
    ensures Hash(x) != Hash(y)
  {
    var prefix, suffix := x[..i], x[i + 1..];
    assert x == (prefix + [x[i]]) + suffix;
    assert y == (prefix + [y[i]]) + suffix;
    CollisionsComeFromPrefixes(prefix + [x[i]], prefix + [y[i]], suffix);
    AbsorbConcat(OFFSET_BASIS, prefix, [x[i]]);
    AbsorbConcat(OFFSET_BASIS, prefix, [y[i]]);
    StepSeparatesBytes(Hash(prefix), x[i], y[i]);
    assert [x[i]][1..] == [] && [y[i]][1..] == [];
  }

  // ---------------------------------------------------------------- versions

  const HEX_DIGITS: string := "0123456789abcdef"

  function Pow16(n: nat): nat {
    if n == 0 then 1 else 16 * Pow16(n - 1)
  }

  /** The lowest `width` hexadecimal digits of `x`, most significant first. */
  function Hex(x: nat, width: nat): (s: string)
    ensures |s| == width
  {
    if width == 0 then "" else Hex(x / 16, width - 1) + [HEX_DIGITS[x % 16]]
  }

  /** Rust's `{:016x}`. */
  function Hex16(x: u64): string {
    Hex(x, 16)
  }

  predicate IsHexDigit(c: char) {
    '0' <= c <= '9' || 'a' <= c <= 'f'
  }

  function HexDigitValue(c: char): nat
    requires IsHexDigit(c)
  {
    if c <= '9' then c as int - '0' as int else c as int - 'a' as int + 10
  }

  predicate AllHex(s: string) {
    forall i :: 0 <= i < |s| ==> IsHexDigit(s[i])
  }

  /** The number a text of hexadecimal digits stands for. */
  function HexValue(s: string): nat
    requires AllHex(s)
  {
    if s == "" then 0 else HexValue(s[..|s| - 1]) * 16 + HexDigitValue(s[|s| - 1])
  }

  lemma OneMoreHexDigit(s: string, c: char)
    requires AllHex(s) && IsHexDigit(c)
    ensures AllHex(s + [c]) && HexValue(s + [c]) == HexValue(s) * 16 + HexDigitValue(c)
  {
    assert (s + [c])[..|s|] == s;
  }

  lemma HexDigitOf(d: nat)
    requires d < 16
    ensures IsHexDigit(HEX_DIGITS[d]) && HexDigitValue(HEX_DIGITS[d]) == d
  {
  }

  /** The digits read back as the number. */
  lemma {:induction false} HexReadsBack(x: nat, width: nat)
    requires x < Pow16(width)
    ensures AllHex(Hex(x, width)) && HexValue(Hex(x, width)) == x
  {
    if width != 0 {
      HexReadsBack(x / 16, width - 1);
      HexDigitOf(x % 16);
      OneMoreHexDigit(Hex(x / 16, width - 1), HEX_DIGITS[x % 16]);
    }
  }

  lemma Hex16ReadsBack(x: u64)
    ensures AllHex(Hex16(x)) && HexValue(Hex16(x)) == x
  {
    assert Pow16(4) == 0x1_0000;
    assert Pow16(8) == 0x1_0000_0000;
    assert Pow16(12) == 0x1_0000_0000_0000;
    assert Pow16(16) == U64_LIMIT;
    HexReadsBack(x, 16);
  }

  lemma Hex16Injective(x: u64, y: u64)
    requires Hex16(x) == Hex16(y)
    ensures x == y
  {
    Hex16ReadsBack(x);
    Hex16ReadsBack(y);
  }

  /** `config_source_version`. */
  function ConfigSourceVersion(contents: Bytes): string {
    "source-" + Hex16(Hash(contents))
  }

  /** Versions collide exactly when the hashes do: formatting loses nothing. */
  lemma SourceVersionsEqualIffHashesEqual(x: Bytes, y: Bytes)
    ensures ConfigSourceVersion(x) == ConfigSourceVersion(y) <==> Hash(x) == Hash(y)
  {
    if ConfigSourceVersion(x) == ConfigSourceVersion(y) {
      assert Hex16(Hash(x)) == ConfigSourceVersion(x)[7..];
      assert Hex16(Hash(y)) == ConfigSourceVersion(y)[7..];
      Hex16Injective(Hash(x), Hash(y));
    }
  }

  /** A one-byte edit of a control file is always announced under a new version. */
  lemma OneByteEditChangesSourceVersion(x: Bytes, y: Bytes, i: nat)
    requires DifferOnlyAt(x, y, i)
    ensures ConfigSourceVersion(x) != ConfigSourceVersion(y)
  {
    OneByteChangesHash(x, y, i);
    SourceVersionsEqualIffHashesEqual(x, y);
  }
}
