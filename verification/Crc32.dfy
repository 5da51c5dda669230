/**
  CRC-32 as the boot-image tool computes it: a table of the remainders of all
  byte values, and a loop over the buffer that is unrolled eight times.

  The reference is the shift register of section 8 of RFC 1952, fed one bit at a
  time, least significant bit of each byte first. A 32-bit word is its sequence of
  bits, least significant first.
*/
module Crc32 {
  import opened Common

  type Bits = seq<bool>
  type Word = w: Bits | |w| == 32 witness [false, false, false, false, false, false, false, false, false, false, false, false, false, false, false, false,
            false, false, false, false, false, false, false, false, false, false, false, false, false, false, false, false]
  function Zero(): Word { seq(32, i => false) }

  function Ones(): Word { seq(32, i => true) }

  /** Exponents of the terms of the polynomial, without x^32. */
  const TERMS: seq<int> := [0, 1, 2, 4, 5, 7, 8, 10, 11, 12, 16, 22, 23, 26]

  /** The exclusive-or pattern: the lowest power is the most significant bit. */
  function Poly(): Word { seq(32, i => 31 - i in TERMS) }

  // ----- machine operations

  function Xor(a: Word, b: Word): Word {
    seq(32, i requires 0 <= i < 32 => a[i] != b[i])
  }

  /** Logical shift right. */
  function ShiftRight(a: Word, k: nat): Word
    requires k <= 32
  {
    seq(32, i requires 0 <= i < 32 => i + k < 32 && a[i + k])
  }

  /** The low bits of an integer. */
  function BitsOf(n: nat, k: nat): (b: Bits)
    ensures |b| == k
  {
    if k == 0 then [] else [n % 2 == 1] + BitsOf(n / 2, k - 1)
  }

  function ValueOf(b: Bits): nat {
    if b == [] then 0 else (if b[0] then 1 else 0) + 2 * ValueOf(b[1..])
  }

  /** A byte as a word. */
  function WordOf(b: Bits): Word
    requires |b| <= 32
  {
    seq(32, i requires 0 <= i < 32 => i < |b| && b[i])
  }

  function Power2(k: nat): nat { if k == 0 then 1 else 2 * Power2(k - 1) }

  lemma {:induction false} BitsOfValue(b: Bits)
    ensures BitsOf(ValueOf(b), |b|) == b && ValueOf(b) < Power2(|b|)
  {
    if b != [] {
      BitsOfValue(b[1..]);
      assert b == [b[0]] + b[1..];
      var v := ValueOf(b[1..]);
      assert ValueOf(b) / 2 == v && ValueOf(b) % 2 == if b[0] then 1 else 0;
    }
  }

  // ----- the reference

  /** One shift of the register: the bit that falls out decides whether the polynomial is added. */
  function Shift(c: Word): Word {
    Xor(ShiftRight(c, 1), if c[0] then Poly() else Zero())
  }

  /** Register after feeding message bits one by one. */
  function FeedBits(c: Word, bits: Bits): Word
    decreases |bits|
  {
    if bits == [] then c
    else FeedBits(Shift(c[0 := c[0] != bits[0]]), bits[1..])
  }

  /** Register after feeding a whole message. */
  function Feed(c: Word, s: seq<Byte>): Word {
    if s == [] then c else FeedBits(Feed(c, s[..|s| - 1]), BitsOf(s[|s| - 1], 8))
  }

  /** The checksum: the register starts and ends complemented. */
  function Checksum(crc: Word, s: seq<Byte>): Word {
    Xor(Feed(Xor(crc, Ones()), s), Ones())
  }

  // ----- why a table works

  function ShiftN(c: Word, n: nat): Word
    decreases n
  {
    if n == 0 then c else ShiftN(Shift(c), n - 1)
  }

  /** The shift is linear over exclusive-or. */
  lemma ShiftLinear(a: Word, b: Word)
    ensures Shift(Xor(a, b)) == Xor(Shift(a), Shift(b))
  {
    var x, y := Shift(Xor(a, b)), Xor(Shift(a), Shift(b));
    forall i | 0 <= i < 32 ensures x[i] == y[i] {
    }
  }

  lemma {:induction false} ShiftNLinear(a: Word, b: Word, n: nat)
    ensures ShiftN(Xor(a, b), n) == Xor(ShiftN(a, n), ShiftN(b, n))
    decreases n
  {
    if n > 0 {
      ShiftLinear(a, b);
      ShiftNLinear(Shift(a), Shift(b), n - 1);
    }
  }

  /** A register whose low bits are clear only shifts. */
  lemma {:induction false} ShiftNHigh(c: Word, n: nat)
    requires n <= 32 && forall i :: 0 <= i < n ==> !c[i]
    ensures ShiftN(c, n) == ShiftRight(c, n)
    decreases n
  {
    if n > 0 {
      var d := Shift(c);
      assert d == ShiftRight(c, 1);
      ShiftNHigh(d, n - 1);
      assert forall i :: 0 <= i < 32 ==> ShiftRight(d, n - 1)[i] == ShiftRight(c, n)[i];
    }
    assert ShiftRight(c, 0) == c;
  }

  /** Feeding bits one at a time is adding them all to the low end and then shifting. */
  lemma {:induction false} FeedBitsAtOnce(c: Word, bits: Bits)
    requires |bits| <= 32
    ensures FeedBits(c, bits) == ShiftN(Xor(c, WordOf(bits)), |bits|)
    decreases |bits|
  {
    if bits == [] {
      assert Xor(c, WordOf(bits)) == c;
    } else {
      var d := Shift(c[0 := c[0] != bits[0]]);
      FeedBitsAtOnce(d, bits[1..]);
      FirstBit(c, bits, d);
    }
  }

  /** Adding the first bit and shifting leaves the other bits to be added. */
  lemma FirstBit(c: Word, bits: Bits, d: Word)
    requires 0 < |bits| <= 32 && d == Shift(c[0 := c[0] != bits[0]])
    ensures Shift(Xor(c, WordOf(bits))) == Xor(d, WordOf(bits[1..]))
  {
    var x, y := Shift(Xor(c, WordOf(bits))), Xor(d, WordOf(bits[1..]));
    forall i | 0 <= i < 32 ensures x[i] == y[i] {
    }
  }

  /** What the table holds for a byte. */
  function Entry(b: Bits): Word
    requires |b| <= 32
  {
    ShiftN(WordOf(b), |b|)
  }

  /** Shifting out n bits is one look-up of those bits: the identity behind the table. */
  lemma {:induction false} TableStep(x: Word, n: nat)
    requires n <= 32
    ensures ShiftN(x, n) == Xor(Entry(x[..n]), ShiftRight(x, n))
  {
    var lo := WordOf(x[..n]);
    var hi: Word := seq(32, i requires 0 <= i < 32 => i >= n && x[i]);
    assert x == Xor(lo, hi);
    ShiftNLinear(lo, hi, n);
    ShiftNHigh(hi, n);
    assert ShiftRight(hi, n) == ShiftRight(x, n);
  }

  /** The program's step: index by the low bits of register and data, then shift the register. */
  lemma {:induction false} ByteStep(c: Word, b: Bits)
    requires |b| <= 32
    ensures FeedBits(c, b) == Xor(Entry(Xor(c, WordOf(b))[..|b|]), ShiftRight(c, |b|))
  {
    FeedBitsAtOnce(c, b);
    TableStep(Xor(c, WordOf(b)), |b|);
    DataShiftedOut(c, b);
  }

  /** The data bits are gone after the shift. */
  lemma DataShiftedOut(c: Word, b: Bits)
    requires |b| <= 32
    ensures ShiftRight(Xor(c, WordOf(b)), |b|) == ShiftRight(c, |b|)
  {
    var x, y := ShiftRight(Xor(c, WordOf(b)), |b|), ShiftRight(c, |b|);
    forall i | 0 <= i < 32 ensures x[i] == y[i] {
    }
  }

  lemma {:induction false} FeedConcat(c: Word, s: seq<Byte>, t: seq<Byte>)
    ensures Feed(c, s + t) == Feed(Feed(c, s), t)
    decreases |t|
  {
    if t == [] {
      assert s + t == s;
    } else {
      assert (s + t)[..|s + t| - 1] == s + t[..|t| - 1];
      FeedConcat(c, s, t[..|t| - 1]);
    }
  }

  /** A checksum can be continued: the parts of a message may be summed one after another. */
  lemma ChecksumConcat(crc: Word, s: seq<Byte>, t: seq<Byte>)
    ensures Checksum(Checksum(crc, s), t) == Checksum(crc, s + t)
  {
    FeedConcat(Xor(crc, Ones()), s, t);
    var r := Feed(Xor(crc, Ones()), s);
    assert Xor(Xor(r, Ones()), Ones()) == r;
  }

  // ----- the program

  /** `c` is the table entry for byte `n`. */
  ghost predicate IsEntry(n: nat, c: Word) {
    (forall w :: Unfold(Goals, w) ==> c == Entry(BitsOf(n, 8))) == true
  }

  ghost predicate IsTable(table: seq<Word>) {
    |table| == 256 && forall n :: 0 <= n < 256 ==> IsEntry(n, table[n])
  }

  /** `r` is the register after the first `k` bytes. */
  ghost predicate Fed(c0: Word, buf: seq<Byte>, k: nat, r: Word) {
    (k <= |buf| && forall w :: Unfold(Goals, w) ==> r == Feed(c0, buf[..k])) == true
  }

  method MakePattern() returns (poly: Word)
    ensures poly == Poly()
  {
    poly := Zero();
    for n := 0 to |TERMS|
      invariant forall i :: 0 <= i < 32 ==> (poly[i] <==> 31 - i in TERMS[..n])
    {
      poly := poly[31 - TERMS[n] := true];
      assert TERMS[..n + 1] == TERMS[..n] + [TERMS[n]];
    }
    assert TERMS[..|TERMS|] == TERMS;
  }

  method MakeEntry(b: Bits, poly: Word) returns (c: Word)
    requires |b| <= 32 && poly == Poly()
    ensures c == Entry(b)
  {
    c := WordOf(b);
    ghost var e := Entry(b);
    for k := 0 to |b|
      invariant ShiftN(c, |b| - k) == e
    {
      assert ShiftN(c, |b| - k) == ShiftN(Shift(c), |b| - k - 1);
      c := ShiftOnce(c, poly);
    }
  }

  method ShiftOnce(c: Word, poly: Word) returns (r: Word)
    requires poly == Poly()
    ensures r == Shift(c)
  {
    r := Xor(ShiftRight(c, 1), if c[0] then poly else Zero());
  }

  method MakeByteEntry(n: nat, poly: Word) returns (c: Word)
    requires poly == Poly()
    ensures IsEntry(n, c)
  {
    c := MakeEntry(BitsOf(n, 8), poly);
  }

  method MakeTable() returns (table: seq<Word>)
    ensures IsTable(table)
  {
    var poly := MakePattern();
    table := [];
    for n := 0 to 256
      invariant |table| == n && forall m :: 0 <= m < n ==> IsEntry(m, table[m])
    {
      var c := MakeByteEntry(n, poly);
      table := table + [c];
    }
  }

  /** The step that the loop body repeats. */
  method Do1(table: seq<Word>, crc: Word, b: Byte) returns (r: Word)
    requires IsTable(table)
    ensures r == FeedBits(crc, BitsOf(b, 8))
  {
    assert Unfold(Goals, true);
    var x := Xor(crc, WordOf(BitsOf(b, 8)))[..8];
    BitsOfValue(x);
    assert Power2(8) == 256;
    r := Xor(table[ValueOf(x)], ShiftRight(crc, 8));
    ByteStep(crc, BitsOf(b, 8));
  }

  lemma {:induction false} FeedStep(c: Word, s: seq<Byte>, k: nat)
    requires k < |s|
    ensures Feed(c, s[..k + 1]) == FeedBits(Feed(c, s[..k]), BitsOf(s[k], 8))
  {
    assert s[..k + 1][..k] == s[..k];
  }

  /** The next byte of the buffer. */
  method DoNext(table: seq<Word>, crc: Word, ghost c0: Word, buf: seq<Byte>, k: nat) returns (r: Word)
    requires IsTable(table) && k < |buf| && Fed(c0, buf, k, crc)
    ensures Fed(c0, buf, k + 1, r)
  {
    r := Do1(table, crc, buf[k]);
    FedOne(c0, buf, k, crc, r);
  }

  lemma {:induction false} FedOne(c0: Word, buf: seq<Byte>, k: nat, crc: Word, r: Word)
    requires k < |buf| && Fed(c0, buf, k, crc) && r == FeedBits(crc, BitsOf(buf[k], 8))
    ensures Fed(c0, buf, k + 1, r)
  {
    assert Unfold(Goals, true);
    FeedStep(c0, buf, k);
  }

  method Do8(table: seq<Word>, crc: Word, ghost c0: Word, buf: seq<Byte>, k: nat) returns (r: Word)
    requires IsTable(table) && k + 8 <= |buf| && Fed(c0, buf, k, crc)
    ensures Fed(c0, buf, k + 8, r)
  {
    r := crc;
    for i := 0 to 8
      invariant Fed(c0, buf, k + i, r)
    {
      r := DoNext(table, r, c0, buf, k + i);
    }
  }

  /** The loop over whole groups of eight bytes. */
  method Groups(table: seq<Word>, c0: Word, buf: seq<Byte>) returns (r: Word, k: nat)
    requires IsTable(table)
    ensures k <= |buf| < k + 8 && Fed(c0, buf, k, r)
  {
    r, k := c0, 0;
    while |buf| - k >= 8
      invariant 0 <= k <= |buf| && Fed(c0, buf, k, r)
    {
      r := Do8(table, r, c0, buf, k);
      k := k + 8;
    }
  }

  /** The loop over the bytes that are left. */
  method Rest(table: seq<Word>, crc: Word, ghost c0: Word, buf: seq<Byte>, k0: nat) returns (r: Word)
    requires IsTable(table) && k0 <= |buf| && Fed(c0, buf, k0, crc)
    ensures Fed(c0, buf, |buf|, r)
  {
    r := crc;
    var k := k0;
    while k < |buf|
      invariant k0 <= k <= |buf| && Fed(c0, buf, k, r)
    {
      r := DoNext(table, r, c0, buf, k);
      k := k + 1;
    }
  }

  /** The program: the checksum by table, eight bytes at a time. */
  method Compute(crc: Word, buf: seq<Byte>) returns (r: Word)
    ensures r == Checksum(crc, buf)
  {
    var table := MakeTable();
    var c := Xor(crc, Ones());
    var k;
    r, k := Groups(table, c, buf);
    r := Rest(table, r, c, buf, k);
    AllFed(c, buf, r);
    r := Xor(r, Ones());
  }

  lemma {:induction false} AllFed(c0: Word, buf: seq<Byte>, r: Word)
    requires Fed(c0, buf, |buf|, r)
    ensures r == Feed(c0, buf)
  {
    assert Unfold(Goals, true);
    assert buf[..|buf|] == buf;
  }

  // ----- known values

  /** Bit `k` of a hexadecimal digit. */
  function DigitBit(n: nat, k: nat): bool {
    (if k == 0 then n else if k == 1 then n / 2 else if k == 2 then n / 4 else n / 8) % 2 == 1
  }

  /** The word with these hexadecimal digits, the most significant one first. */
  function Hex(d: seq<nat>): Word
    requires |d| == 8
  {
    seq(32, i requires 0 <= i < 32 => DigitBit(d[7 - i / 4], i % 4))
  }

  /** The pattern is EDB88320. */
  lemma PolyHex()
    ensures Poly() == Hex([14, 13, 11, 8, 8, 3, 2, 0])
  {
    PolyBits();
    PolyDigits();
  }

  lemma PolyBits()
    ensures Poly() == [false, false, false, false, false, true, false, false, true, true, false, false, false, false, false, true,
                       false, false, false, true, true, true, false, true, true, false, true, true, false, true, true, true]
  {
  }

  lemma PolyDigits()
    ensures Hex([14, 13, 11, 8, 8, 3, 2, 0]) == [false, false, false, false, false, true, false, false, true, true, false, false, false, false, false, true,
                       false, false, false, true, true, true, false, true, true, false, true, true, false, true, true, true]
  {
  }

  /** A single bit that falls out last leaves the pattern. */
  lemma EntryOfLast(b: Bits)
    requires b == [false, false, false, false, false, false, false, true]
    ensures Entry(b) == Poly()
  {
    var w, one := WordOf(b), ShiftRight(WordOf(b), 7);
    ShiftNHigh(w, 7);
    ShiftNSplit(w, 7, 1);
    assert ShiftN(w, 8) == ShiftN(one, 1) == Shift(one);
    assert ShiftRight(one, 1) == Zero();
  }

  lemma {:induction false} ShiftNSplit(c: Word, m: nat, n: nat)
    ensures ShiftN(c, m + n) == ShiftN(ShiftN(c, m), n)
    decreases m
  {
    if m > 0 { ShiftNSplit(Shift(c), m - 1, n); }
  }

  lemma BitsOf7F()
    ensures BitsOf(0x7f, 8) == [true, true, true, true, true, true, true, false]
  {
  }

  lemma IndexOf7F(bits: Bits)
    requires bits == [true, true, true, true, true, true, true, false]
    ensures Xor(Ones(), WordOf(bits))[..8] == [false, false, false, false, false, false, false, true]
  {
  }

  lemma {:induction false} FeedOne(c: Word, b: Byte)
    ensures Feed(c, [b]) == FeedBits(c, BitsOf(b, 8))
  {
    assert [b][..0] == [];
  }

  lemma FeedOf7F()
    ensures Feed(Ones(), [0x7f]) == Xor(Poly(), ShiftRight(Ones(), 8))
  {
    var bits := BitsOf(0x7f, 8);
    BitsOf7F();
    IndexOf7F(bits);
    FeedOne(Ones(), 0x7f);
    ByteStep(Ones(), bits);
    EntryOfLast(Xor(Ones(), WordOf(bits))[..8]);
  }

  /** The checksum of the single byte 7F is 12B88320. */
  lemma ChecksumOf7F()
    ensures Checksum(Zero(), [0x7f]) == Hex([1, 2, 11, 8, 8, 3, 2, 0])
  {
    assert Xor(Zero(), Ones()) == Ones();
    FeedOf7F();
    PolyBits();
    KnownXor(Poly());
  }

  lemma KnownXor(p: Word)
    requires p == [false, false, false, false, false, true, false, false, true, true, false, false, false, false, false, true,
                       false, false, false, true, true, true, false, true, true, false, true, true, false, true, true, true]
    ensures Xor(Xor(p, ShiftRight(Ones(), 8)), Ones()) == Hex([1, 2, 11, 8, 8, 3, 2, 0])
  {
  }
}
