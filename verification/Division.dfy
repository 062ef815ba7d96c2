/** The checksum of the log as IEEE 802.3 defines it (clause 3.2.9): complement the
    first 32 bits of the message, append 32 zero bits, divide by the generator
    polynomial, and complement the remainder. Bits travel low bit of each byte
    first. */
module Division {
  import opened Bytes
  import opened OctetWords
  import opened Checksum

  const DEGREE: nat := 32

  /** The coefficients of the generator polynomial below its leading term, from
      x^31 down to x^0. */
  function Generator(): (g: seq<bool>)
    ensures |g| == DEGREE
  {
    seq(DEGREE, i => 31 - i in {26, 23, 22, 16, 12, 11, 10, 8, 7, 5, 4, 2, 1, 0})
  }

  function Zeros(): (z: seq<bool>)
    ensures |z| == DEGREE
  {
    seq(DEGREE, _ => false)
  }

  function Ones(): (z: seq<bool>)
    ensures |z| == DEGREE
  {
    seq(DEGREE, _ => true)
  }

  /** `m` with `r` added to its leading bits. */
  function Over(r: seq<bool>, m: seq<bool>): (d: seq<bool>)
    requires |r| <= |m|
    ensures |d| == |m|
  {
    seq(|m|, i requires 0 <= i < |m| => if i < |r| then r[i] != m[i] else m[i])
  }

  /** One step of long division: drop the leading term, subtracting the generator
      if it was present. */
  function DivideOnce(d: seq<bool>): (r: seq<bool>)
    requires |d| > DEGREE
    ensures |r| == |d| - 1
  {
    if d[0] then Over(Generator(), d[1..]) else d[1..]
  }

  function Remainder(d: seq<bool>): (r: seq<bool>)
    requires |d| >= DEGREE
    ensures |r| == DEGREE
    decreases |d|
  {
    if |d| == DEGREE then d else Remainder(DivideOnce(d))
  }

  // ---- The bits of a register and of a message ----

  function BitsOf(c: bv32, n: nat): (bits: seq<bool>)
    ensures |bits| == n
    decreases n
  {
    if n == 0 then [] else [Odd(c)] + BitsOf(Down(c), n - 1)
  }

  function MessageBits(os: seq<bv8>): seq<bool> {
    if os == [] then [] else BitsOf(Word(os[0]), OCTET) + MessageBits(os[1..])
  }

  lemma OverCons(a: bool, x: seq<bool>, b: bool, y: seq<bool>)
    requires |x| <= |y|
    ensures Over([a] + x, [b] + y) == [a != b] + Over(x, y)
  {
  }

  lemma {:induction false} BitsOfXor(x: bv32, y: bv32, n: nat)
    ensures BitsOf(Xor(x, y), n) == Over(BitsOf(x, n), BitsOf(y, n))
    decreases n
  {
    if n > 0 {
      OddOfXor(x, y);
      DownOfXor(x, y);
      BitsOfXor(Down(x), Down(y), n - 1);
      OverCons(Odd(x), BitsOf(Down(x), n - 1), Odd(y), BitsOf(Down(y), n - 1));
    }
  }

  lemma {:induction false} BitsOfTop(c: bv32, n: nat)
    requires Downs(c, n) == 0
    ensures BitsOf(c, n + 1) == BitsOf(c, n) + [false]
    decreases n
  {
    if n > 0 {
      BitsOfTop(Down(c), n - 1);
    }
  }

  lemma EightDowns(c: bv32)
    ensures Downs(c, OCTET) == Down8(c)
  {
  }

  lemma {:induction false} DownsAdd(x: bv32, m: nat, n: nat)
    ensures Downs(x, m + n) == Downs(Downs(x, m), n)
    decreases m
  {
    if m > 0 {
      DownsAdd(Down(x), m - 1, n);
    }
  }

  /** After 32 shifts nothing is left. */
  lemma ShiftsOut(c: bv32)
    ensures Downs(c, DEGREE) == 0
  {
    EightDowns(c);
    EightDowns(Down8(c));
    EightDowns(Down8(Down8(c)));
    EightDowns(Down8(Down8(Down8(c))));
    DownsAdd(c, 8, 8);
    DownsAdd(c, 16, 8);
    DownsAdd(c, 24, 8);
  }

  /** A register shifted down, as bits. */
  lemma BitsOfDown(c: bv32)
    ensures BitsOf(Down(c), DEGREE) == BitsOf(c, DEGREE)[1..] + [false]
  {
    ShiftsOut(c);
    BitsOfTop(Down(c), DEGREE - 1);
  }

  lemma {:induction false} BitsOfAdd(c: bv32, m: nat, n: nat)
    ensures BitsOf(c, m + n) == BitsOf(c, m) + BitsOf(Downs(c, m), n)
    decreases m
  {
    if m > 0 {
      BitsOfAdd(Down(c), m - 1, n);
    }
  }

  lemma EightBits(c: bv32, n: nat)
    ensures BitsOf(c, OCTET + n) == BitsOf(c, OCTET) + BitsOf(Down8(c), n)
  {
    BitsOfAdd(c, OCTET, n);
    EightDowns(c);
  }

  lemma FirstByte()
    ensures BitsOf(0xEDB88320, OCTET) == [false, false, false, false, false, true, false, false]
  {
    assert BitsOf(0xEDB88320, 8) == [false, false, false, false, false, true, false, false];
  }

  lemma SecondByte()
    ensures BitsOf(0xEDB883, OCTET) == [true, true, false, false, false, false, false, true]
  {
  }

  lemma ThirdByte()
    ensures BitsOf(0xEDB8, OCTET) == [false, false, false, true, true, true, false, true]
  {
  }

  lemma FourthByte()
    ensures BitsOf(0xED, OCTET) == [true, false, true, true, false, true, true, true]
  {
  }

  /** The constant of the code is the generator, read low bit first. */
  lemma GeneratorBits()
    ensures BitsOf(0xEDB88320, DEGREE) == Generator()
  {
    var c: bv32 := 0xEDB88320;
    EightBits(c, 24);
    EightBits(Down8(c), 16);
    EightBits(Down8(Down8(c)), 8);
    FirstByte();
    SecondByte();
    ThirdByte();
    FourthByte();
  }

  // ---- The register is the running dividend's leading bits ----

  lemma OverOver(a: seq<bool>, b: seq<bool>, m: seq<bool>)
    requires |a| == |b| <= |m|
    ensures Over(a, Over(b, m)) == Over(Over(a, b), m)
  {
  }

  lemma OverTail(r: seq<bool>, m: seq<bool>)
    requires 0 < |r| < |m|
    ensures Over(r, m)[1..] == Over(r[1..] + [false], m[1..])
  {
  }

  function Bit(b: bool): bv32 { if b then 1 else 0 }

  /** The register after one message bit. */
  function AbsorbBit(c: bv32, bit: bool): bv32 { Step(Xor(c, Bit(bit))) }

  function AbsorbBits(c: bv32, bits: seq<bool>): bv32
    decreases |bits|
  {
    if bits == [] then c else AbsorbBits(AbsorbBit(c, bits[0]), bits[1..])
  }

  lemma BitOnlyTouchesLow(c: bv32, bit: bool)
    ensures var x := Xor(c, Bit(bit)); Odd(x) == (Odd(c) != bit) && Down(x) == Down(c)
  {
  }

  /** The register after a bit is the leading bits of the dividend after a division step. */
  lemma AbsorbBitBits(c: bv32, bit: bool)
    ensures var half := BitsOf(c, DEGREE)[1..] + [false];
            BitsOf(AbsorbBit(c, bit), DEGREE) == if Odd(c) != bit then Over(Generator(), half) else half
  {
    BitOnlyTouchesLow(c, bit);
    BitsOfDown(c);
    BitsOfXor(0xEDB88320, Down(c), DEGREE);
    GeneratorBits();
  }

  lemma StepDivides(c: bv32, bits: seq<bool>)
    requires bits != []
    ensures DivideOnce(Over(BitsOf(c, DEGREE), bits + Zeros()))
         == Over(BitsOf(AbsorbBit(c, bits[0]), DEGREE), bits[1..] + Zeros())
  {
    var r := BitsOf(c, DEGREE);
    var half := r[1..] + [false];
    assert (bits + Zeros())[1..] == bits[1..] + Zeros();
    OverTail(r, bits + Zeros());
    OverOver(Generator(), half, bits[1..] + Zeros());
    AbsorbBitBits(c, bits[0]);
    assert r[0] == Odd(c);
  }

  /** The register after a message is the remainder of the message, the starting
      register added to its leading bits. */
  lemma {:induction false} RegisterIsRemainder(c: bv32, bits: seq<bool>)
    ensures Remainder(Over(BitsOf(c, DEGREE), bits + Zeros())) == BitsOf(AbsorbBits(c, bits), DEGREE)
    decreases |bits|
  {
    if bits == [] {
      assert Over(BitsOf(c, DEGREE), bits + Zeros()) == BitsOf(c, DEGREE);
    } else {
      StepDivides(c, bits);
      RegisterIsRemainder(AbsorbBit(c, bits[0]), bits[1..]);
    }
  }

  // ---- An octet is absorbed all at once ----

  function Even(w: bv32): bv32 { w & 0xFFFFFFFE }

  lemma LowBitSplits(w: bv32)
    ensures Xor(Bit(Odd(w)), Even(w)) == w
  {
  }

  lemma EvenShifts(w: bv32)
    ensures Step(Even(w)) == Down(w)
  {
  }

  lemma {:induction false} BitsAtOnce(c: bv32, w: bv32, n: nat)
    requires Downs(w, n) == 0
    ensures AbsorbBits(c, BitsOf(w, n)) == Steps(Xor(c, w), n)
    decreases n
  {
    if n == 0 {
      XorWithZero(c);
    } else {
      var x := Xor(c, Bit(Odd(w)));
      LowBitSplits(w);
      XorAssociates(c, Bit(Odd(w)), Even(w));
      EvenShifts(w);
      StepIsLinear(x, Even(w));
      BitsAtOnce(Step(x), Down(w), n - 1);
    }
  }

  lemma XorWithZero(c: bv32)
    ensures Xor(c, 0) == c
  {
  }

  lemma OctetIsNarrow(o: bv8)
    ensures Downs(Word(o), OCTET) == 0
  {
  }

  lemma {:induction false} AbsorbBitsAppend(c: bv32, a: seq<bool>, b: seq<bool>)
    ensures AbsorbBits(c, a + b) == AbsorbBits(AbsorbBits(c, a), b)
    decreases |a|
  {
    if a == [] {
      assert a + b == b;
    } else {
      assert (a + b)[1..] == a[1..] + b;
      AbsorbBitsAppend(AbsorbBit(c, a[0]), a[1..], b);
    }
  }

  lemma {:induction false} AbsorbIsBitwise(c: bv32, os: seq<bv8>)
    ensures Absorb(c, os) == AbsorbBits(c, MessageBits(os))
    decreases |os|
  {
    if os != [] {
      OctetIsNarrow(os[0]);
      BitsAtOnce(c, Word(os[0]), OCTET);
      AbsorbBitsAppend(c, BitsOf(Word(os[0]), OCTET), MessageBits(os[1..]));
      AbsorbIsBitwise(AbsorbOctet(c, os[0]), os[1..]);
    }
  }

  lemma OnesByte(c: bv32)
    requires LowByte(c) == 0xFF
    ensures BitsOf(c, OCTET) == [true, true, true, true, true, true, true, true]
  {
  }

  lemma OnesAreOnes()
    ensures BitsOf(ALL_ONES, DEGREE) == Ones()
  {
    var c: bv32 := 0xFFFFFFFF;
    EightBits(c, 24);
    EightBits(Down8(c), 16);
    EightBits(Down8(Down8(c)), 8);
    OnesByte(c);
    OnesByte(Down8(c));
    OnesByte(Down8(Down8(c)));
    OnesByte(Down8(Down8(Down8(c))));
  }

  /** `crc32` is the complemented remainder of the message with its first 32 bits
      complemented, for every byte string. */
  lemma ChecksumIsDivision(data: seq<byte>)
    ensures BitsOf(Crc32(data), DEGREE)
         == Over(Ones(), Remainder(Over(Ones(), MessageBits(Octets(data)) + Zeros())))
  {
    var os := Octets(data);
    var c := Absorb(ALL_ONES, os);
    OnesAreOnes();
    AbsorbIsBitwise(ALL_ONES, os);
    RegisterIsRemainder(ALL_ONES, MessageBits(os));
    BitsOfXor(c, ALL_ONES, DEGREE);
    OverCommutes(BitsOf(c, DEGREE), Ones());
  }

  lemma OverCommutes(a: seq<bool>, b: seq<bool>)
    requires |a| == |b|
    ensures Over(a, b) == Over(b, a)
  {
  }
}
