/** The CRC-32 of the log (`engine/src/wal/checksum.rs`): the table-driven loop,
    the one-bit register it stands for, and polynomial division over bits.

    Bit operations have names here so that the solver can reason about them by
    their laws instead of expanding words into bits. */
module Checksum {
  import opened Bytes
  import opened OctetWords

  const ALL_ONES: bv32 := 0xFFFFFFFF

  /** Bits in an octet. */
  const OCTET: nat := 8

  // ---- The one-bit register ----

  function Xor(x: bv32, y: bv32): bv32 { x ^ y }

  function Down(x: bv32): bv32 { x >> 1 }

  predicate Odd(x: bv32) { x & 1 != 0 }

  function Reduce(odd: bool, half: bv32): bv32 { if odd then Xor(0xEDB88320, half) else half }

  /** One bit of reflected division: shift out the low bit, and subtract the
      polynomial if it was set. */
  function Step(c: bv32): bv32 { Reduce(Odd(c), Down(c)) }

  function Steps(c: bv32, n: nat): bv32
    decreases n
  {
    if n == 0 then c else Steps(Step(c), n - 1)
  }

  function Word(o: bv8): bv32 { o as bv32 }

  function AbsorbOctet(c: bv32, o: bv8): bv32 { Steps(Xor(c, Word(o)), OCTET) }

  /** The register after absorbing `os`, an octet at a time, low bit first. */
  function Absorb(c: bv32, os: seq<bv8>): bv32
    decreases |os|
  {
    if os == [] then c else Absorb(AbsorbOctet(c, os[0]), os[1..])
  }

  function Crc32(data: seq<byte>): bv32 {
    Xor(Absorb(ALL_ONES, Octets(data)), ALL_ONES)
  }

  // ---- The step is linear over XOR and loses nothing ----

  lemma OddOfXor(x: bv32, y: bv32)
    ensures Odd(Xor(x, y)) == (Odd(x) != Odd(y))
  {
  }

  lemma DownOfXor(x: bv32, y: bv32)
    ensures Down(Xor(x, y)) == Xor(Down(x), Down(y))
  {
  }

  lemma BothReduce(a: bv32, b: bv32)
    ensures Reduce(false, Xor(a, b)) == Xor(Reduce(true, a), Reduce(true, b))
  {
  }

  lemma LeftReduces(a: bv32, b: bv32)
    ensures Reduce(true, Xor(a, b)) == Xor(Reduce(true, a), Reduce(false, b))
  {
  }

  lemma RightReduces(a: bv32, b: bv32)
    ensures Reduce(true, Xor(a, b)) == Xor(Reduce(false, a), Reduce(true, b))
  {
  }

  lemma ReduceOfXor(o: bool, p: bool, a: bv32, b: bv32)
    ensures Reduce(o != p, Xor(a, b)) == Xor(Reduce(o, a), Reduce(p, b))
  {
    if o && p {
      BothReduce(a, b);
    } else if o {
      LeftReduces(a, b);
    } else if p {
      RightReduces(a, b);
    }
  }

  lemma StepIsLinear(x: bv32, y: bv32)
    ensures Step(Xor(x, y)) == Xor(Step(x), Step(y))
  {
    OddOfXor(x, y);
    DownOfXor(x, y);
    ReduceOfXor(Odd(x), Odd(y), Down(x), Down(y));
  }

  lemma {:induction false} StepsAreLinear(x: bv32, y: bv32, n: nat)
    ensures Steps(Xor(x, y), n) == Xor(Steps(x, n), Steps(y, n))
    decreases n
  {
    if n > 0 {
      StepIsLinear(x, y);
      StepsAreLinear(Step(x), Step(y), n - 1);
    }
  }

  lemma StepIsInjective(x: bv32, y: bv32)
    requires Step(x) == Step(y)
    ensures x == y
  {
  }

  lemma {:induction false} StepsAreInjective(x: bv32, y: bv32, n: nat)
    requires Steps(x, n) == Steps(y, n)
    ensures x == y
    decreases n
  {
    if n > 0 {
      StepsAreInjective(Step(x), Step(y), n - 1);
      StepIsInjective(x, y);
    }
  }

  lemma {:induction false} StepsAdd(c: bv32, m: nat, n: nat)
    ensures Steps(c, m + n) == Steps(Steps(c, m), n)
    decreases m
  {
    if m > 0 {
      StepsAdd(Step(c), m - 1, n);
    }
  }

  // ---- A byte at a time ----

  function LowByte(x: bv32): bv32 { x & 0xFF }

  function HighBytes(x: bv32): bv32 { x & 0xFFFFFF00 }

  function Down8(x: bv32): bv32 { x >> 8 }

  function Downs(x: bv32, n: nat): bv32
    decreases n
  {
    if n == 0 then x else Downs(Down(x), n - 1)
  }

  predicate LowBitsClear(x: bv32, n: nat)
    decreases n
  {
    n == 0 || (!Odd(x) && LowBitsClear(Down(x), n - 1))
  }

  lemma {:induction false} ClearBitsOnlyShift(x: bv32, n: nat)
    requires LowBitsClear(x, n)
    ensures Steps(x, n) == Downs(x, n)
    decreases n
  {
    if n > 0 {
      assert Step(x) == Down(x);
      ClearBitsOnlyShift(Down(x), n - 1);
    }
  }

  lemma Unroll(y: bv32, y1: bv32, y2: bv32, y3: bv32, y4: bv32, y5: bv32, y6: bv32, y7: bv32, y8: bv32)
    requires y1 == Down(y) && y2 == Down(y1) && y3 == Down(y2) && y4 == Down(y3)
    requires y5 == Down(y4) && y6 == Down(y5) && y7 == Down(y6) && y8 == Down(y7)
    requires !Odd(y) && !Odd(y1) && !Odd(y2) && !Odd(y3) && !Odd(y4) && !Odd(y5) && !Odd(y6) && !Odd(y7)
    ensures LowBitsClear(y, 8) && Downs(y, 8) == y8
  {
    assert LowBitsClear(y7, 1) && Downs(y7, 1) == y8;
    assert LowBitsClear(y6, 2) && Downs(y6, 2) == y8;
    assert LowBitsClear(y5, 3) && Downs(y5, 3) == y8;
    assert LowBitsClear(y4, 4) && Downs(y4, 4) == y8;
    assert LowBitsClear(y3, 5) && Downs(y3, 5) == y8;
    assert LowBitsClear(y2, 6) && Downs(y2, 6) == y8;
    assert LowBitsClear(y1, 7) && Downs(y1, 7) == y8;
  }

  lemma HighBytesAreClear(x: bv32)
    ensures LowBitsClear(HighBytes(x), OCTET) && Downs(HighBytes(x), OCTET) == Down8(x)
  {
    Unroll(x & 0xFFFFFF00, (x >> 1) & 0x7FFFFF80, (x >> 2) & 0x3FFFFFC0, (x >> 3) & 0x1FFFFFE0, (x >> 4) & 0x0FFFFFF0,
           (x >> 5) & 0x07FFFFF8, (x >> 6) & 0x03FFFFFC, (x >> 7) & 0x01FFFFFE, x >> 8);
  }

  lemma Halves(x: bv32)
    ensures Xor(LowByte(x), HighBytes(x)) == x
  {
  }

  lemma OctetStaysLow(c: bv32, o: bv8)
    ensures Down8(Xor(c, Word(o))) == Down8(c)
  {
  }

  /** Why one table lookup does eight steps. */
  lemma LookupIsEightSteps(c: bv32, o: bv8)
    ensures AbsorbOctet(c, o) == Xor(Steps(LowByte(Xor(c, Word(o))), OCTET), Down8(c))
  {
    var x := Xor(c, Word(o));
    Halves(x);
    StepsAreLinear(LowByte(x), HighBytes(x), OCTET);
    HighBytesAreClear(x);
    ClearBitsOnlyShift(HighBytes(x), OCTET);
    OctetStaysLow(c, o);
  }

  // ---- The two loops ----

  /** The table entry the source reads, as an index. */
  function LowOctet(x: bv32): (o: bv8)
    ensures Word(o) == LowByte(x)
  {
    (x & 0xFF) as bv8
  }

  /** What the table holds at `k`. */
  function Entry(k: byte): bv32 { Steps(Word(Octet(k)), OCTET) }

  lemma EntryOf(o: bv8)
    ensures Entry(o as int) == Steps(Word(o), OCTET)
  {
    OctetOfValue(o);
  }

  /** The first `n` entries are in place. */
  predicate Filled(table: seq<bv32>, n: nat) {
    n <= 256 && n <= |table| && forall k: byte :: k < n ==> table[k] == Entry(k)
  }

  lemma FillsOneMore(before: seq<bv32>, after: seq<bv32>, n: nat)
    requires Filled(before, n) && n < 256 && n < |before| && after == before[n := Entry(n)]
    ensures Filled(after, n + 1)
  {
  }

  /** `crc32_table`. */
  method Crc32Table() returns (table: array<bv32>)
    ensures fresh(table) && table.Length == 256 && Filled(table[..], 256)
  {
    table := new bv32[256](_ => 0);
    for i := 0 to 256
      invariant Filled(table[..], i)
    {
      ghost var before := table[..];
      table[i] := TableEntry(i);
      FillsOneMore(before, table[..], i);
    }
  }

  /** The inner loop of `crc32_table`. */
  method TableEntry(i: byte) returns (crc: bv32)
    ensures crc == Entry(i)
  {
    crc := Word(Octet(i));
    for k := 0 to 8
      invariant Steps(crc, 8 - k) == Entry(i)
    {
      if crc & 1 != 0 {
        crc := 0xEDB88320 ^ (crc >> 1);
      } else {
        crc := crc >> 1;
      }
    }
  }

  lemma AbsorbNext(c: bv32, os: seq<bv8>, n: nat)
    requires n < |os|
    ensures Absorb(c, os[n..]) == Absorb(AbsorbOctet(c, os[n]), os[n + 1..])
  {
    assert os[n..][0] == os[n] && os[n..][1..] == os[n + 1..];
  }

  /** One turn of the loop: `entry` is what the table holds for the next octet. */
  lemma LookupAbsorbs(c: bv32, os: seq<bv8>, n: nat, entry: bv32)
    requires n < |os| && entry == Entry(LowOctet(Xor(c, Word(os[n]))) as int)
    ensures Absorb(c, os[n..]) == Absorb(Xor(entry, Down8(c)), os[n + 1..])
  {
    LookupIsEightSteps(c, os[n]);
    EntryOf(LowOctet(Xor(c, Word(os[n]))));
    AbsorbNext(c, os, n);
  }

  /** `crc32`: the table-driven loop computes the bit-at-a-time checksum. */
  method ComputeCrc32(data: seq<byte>) returns (r: bv32)
    ensures r == Crc32(data)
  {
    var table := Crc32Table();
    var os := Octets(data);
    var crc: bv32 := 0xFFFFFFFF;
    for n := 0 to |os|
      invariant Filled(table[..], 256)
      invariant Absorb(crc, os[n..]) == Absorb(ALL_ONES, os)
    {
      var k: byte := LowOctet(Xor(crc, Word(os[n]))) as int;
      LookupAbsorbs(crc, os, n, table[..][k]);
      crc := Xor(table[k], Down8(crc));
    }
    r := Xor(crc, 0xFFFFFFFF);
  }

  // ---- Short bursts are detected ----

  lemma {:induction false} AbsorbAppend(c: bv32, a: seq<bv8>, b: seq<bv8>)
    ensures Absorb(c, a + b) == Absorb(Absorb(c, a), b)
    decreases |a|
  {
    if a == [] {
      assert a + b == b;
    } else {
      assert (a + b)[1..] == a[1..] + b;
      AbsorbAppend(AbsorbOctet(c, a[0]), a[1..], b);
    }
  }

  lemma XorIsInjective(x: bv32, y: bv32, z: bv32)
    requires Xor(x, z) == Xor(y, z)
    ensures x == y
  {
  }

  /** Different registers stay different, whatever follows. */
  lemma {:induction false} AbsorbIsInjective(c: bv32, d: bv32, os: seq<bv8>)
    requires Absorb(c, os) == Absorb(d, os)
    ensures c == d
    decreases |os|
  {
    if os != [] {
      AbsorbIsInjective(AbsorbOctet(c, os[0]), AbsorbOctet(d, os[0]), os[1..]);
      AbsorbOctetIsInjective(c, d, os[0]);
    }
  }

  lemma AbsorbOctetIsInjective(c: bv32, d: bv32, o: bv8)
    requires AbsorbOctet(c, o) == AbsorbOctet(d, o)
    ensures c == d
  {
    StepsAreInjective(Xor(c, Word(o)), Xor(d, Word(o)), OCTET);
    XorIsInjective(c, d, Word(o));
  }

  /** An octet moved up by `k` octets. */
  function Raise(o: bv8, k: nat): bv32
    requires k < 4
  {
    if k == 0 then Word(o) else if k == 1 then Word(o) << 8 else if k == 2 then Word(o) << 16 else Word(o) << 24
  }

  lemma RaisedIsHigh(o: bv8, k: nat)
    requires 0 < k < 4
    ensures HighBytes(Raise(o, k)) == Raise(o, k) && Down8(Raise(o, k)) == Raise(o, k - 1)
  {
  }

  lemma {:induction false} StepsLower(o: bv8, k: nat)
    requires k < 4
    ensures Steps(Raise(o, k), 8 * k) == Word(o)
  {
    if k > 0 {
      RaisedIsHigh(o, k);
      HighBytesAreClear(Raise(o, k));
      ClearBitsOnlyShift(Raise(o, k), OCTET);
      StepsAdd(Raise(o, k), 8, 8 * (k - 1));
      StepsLower(o, k - 1);
    }
  }

  /** An octet absorbed after `k` octets could have been added, raised, before them. */
  lemma AbsorbEarly(x: bv32, o: bv8, k: nat)
    requires k < 4
    ensures AbsorbOctet(Steps(x, 8 * k), o) == Steps(Xor(x, Raise(o, k)), 8 * k + 8)
  {
    var n := 8 * k;
    StepsLower(o, k);
    StepsAreLinear(x, Raise(o, k), n);
    StepsAdd(Xor(x, Raise(o, k)), n, OCTET);
  }

  /** Four octets as one little-endian word. */
  function LittleEndian(o: bv8, p: bv8, q: bv8, r: bv8): bv32 {
    Xor(Raise(o, 0), Xor(Raise(p, 1), Xor(Raise(q, 2), Raise(r, 3))))
  }

  lemma XorAssociates(x: bv32, y: bv32, z: bv32)
    ensures Xor(x, Xor(y, z)) == Xor(Xor(x, y), z)
  {
  }

  /** Absorbing four octets is adding one word and stepping. */
  lemma AbsorbFour(c: bv32, o: bv8, p: bv8, q: bv8, r: bv8)
    ensures Absorb(c, [o, p, q, r]) == Steps(Xor(c, LittleEndian(o, p, q, r)), 32)
  {
    var x0 := Xor(c, Raise(o, 0));
    var x1 := Xor(x0, Raise(p, 1));
    AbsorbEarly(x0, p, 1);
    AbsorbEarly(x1, q, 2);
    AbsorbEarly(Xor(x1, Raise(q, 2)), r, 3);
    AbsorbListed(c, o, p, q, r);
    XorAssociates(c, Raise(o, 0), Xor(Raise(p, 1), Xor(Raise(q, 2), Raise(r, 3))));
    XorAssociates(x0, Raise(p, 1), Xor(Raise(q, 2), Raise(r, 3)));
    XorAssociates(x1, Raise(q, 2), Raise(r, 3));
  }

  lemma AbsorbListed(c: bv32, o: bv8, p: bv8, q: bv8, r: bv8)
    ensures Absorb(c, [o, p, q, r]) == AbsorbOctet(AbsorbOctet(AbsorbOctet(AbsorbOctet(c, o), p), q), r)
  {
    AbsorbAppend(c, [o, p, q], [r]);
    AbsorbAppend(c, [o, p], [q]);
    AbsorbAppend(c, [o], [p]);
    assert [o, p, q] + [r] == [o, p, q, r] && [o, p] + [q] == [o, p, q] && [o] + [p] == [o, p];
  }

  lemma LittleEndianSplits(o: bv8, p: bv8, q: bv8, r: bv8)
    ensures var w := LittleEndian(o, p, q, r);
            Quarter(w, 3) == o && Quarter(w, 2) == p && Quarter(w, 1) == q && Quarter(w, 0) == r
  {
  }

  lemma XorLeftIsInjective(x: bv32, y: bv32, z: bv32)
    requires Xor(z, x) == Xor(z, y)
    ensures x == y
  {
  }

  lemma FourAreDetected(c: bv32, v: seq<bv8>, w: seq<bv8>)
    requires |v| == |w| == 4 && Absorb(c, v) == Absorb(c, w)
    ensures v == w
  {
    assert v == [v[0], v[1], v[2], v[3]] && w == [w[0], w[1], w[2], w[3]];
    AbsorbFour(c, v[0], v[1], v[2], v[3]);
    AbsorbFour(c, w[0], w[1], w[2], w[3]);
    var v', w' := LittleEndian(v[0], v[1], v[2], v[3]), LittleEndian(w[0], w[1], w[2], w[3]);
    StepsAreInjective(Xor(c, v'), Xor(c, w'), 32);
    XorLeftIsInjective(v', w', c);
    LittleEndianSplits(v[0], v[1], v[2], v[3]);
    LittleEndianSplits(w[0], w[1], w[2], w[3]);
  }

  /** Fewer than four octets, by padding both sides alike. */
  lemma WindowIsDetected(c: bv32, v: seq<bv8>, w: seq<bv8>)
    requires |v| == |w| <= 4 && Absorb(c, v) == Absorb(c, w)
    ensures v == w
  {
    var zeros: seq<bv8> := seq(4 - |v|, _ => 0);
    AbsorbAppend(c, v, zeros);
    AbsorbAppend(c, w, zeros);
    FourAreDetected(c, v + zeros, w + zeros);
    assert v == (v + zeros)[..|v|] && w == (w + zeros)[..|v|];
  }

  lemma SurroundedIsDetected(before: seq<bv8>, v: seq<bv8>, w: seq<bv8>, after: seq<bv8>)
    requires |v| == |w| <= 4
    requires Absorb(ALL_ONES, before + v + after) == Absorb(ALL_ONES, before + w + after)
    ensures v == w
  {
    AbsorbAppend(ALL_ONES, before + v, after);
    AbsorbAppend(ALL_ONES, before + w, after);
    AbsorbAppend(ALL_ONES, before, v);
    AbsorbAppend(ALL_ONES, before, w);
    var c := Absorb(ALL_ONES, before);
    AbsorbIsInjective(Absorb(c, v), Absorb(c, w), after);
    WindowIsDetected(c, v, w);
  }

  lemma OctetBurstIsDetected(x: seq<bv8>, y: seq<bv8>, lo: nat, hi: nat)
    requires lo <= hi <= |x| == |y| && hi <= lo + 4 && x[..lo] == y[..lo] && x[hi..] == y[hi..]
    requires Absorb(ALL_ONES, x) == Absorb(ALL_ONES, y)
    ensures x == y
  {
    assert x == x[..lo] + x[lo..hi] + x[hi..];
    assert y == x[..lo] + y[lo..hi] + x[hi..];
    SurroundedIsDetected(x[..lo], x[lo..hi], y[lo..hi], x[hi..]);
  }

  /** Data of equal length that differ only within four consecutive bytes never
      share a checksum. */
  lemma BurstIsDetected(a: seq<byte>, b: seq<byte>, i: nat)
    requires |a| == |b| && a != b
    requires forall j :: 0 <= j < |a| && !(i <= j < i + 4) ==> a[j] == b[j]
    ensures Crc32(a) != Crc32(b)
  {
    if Crc32(a) == Crc32(b) {
      var lo := if i < |a| then i else |a|;
      var hi := if i + 4 < |a| then i + 4 else |a|;
      XorIsInjective(Absorb(ALL_ONES, Octets(a)), Absorb(ALL_ONES, Octets(b)), ALL_ONES);
      OctetBurstIsDetected(Octets(a), Octets(b), lo, hi);
      OctetsAreInjective(a, b);
    }
  }

  // ---- The checksum as four stored bytes ----

  function Quarter(c: bv32, k: nat): bv8
    requires k < 4
  {
    if k == 0 then ((c >> 24) & 0xFF) as bv8
    else if k == 1 then ((c >> 16) & 0xFF) as bv8
    else if k == 2 then ((c >> 8) & 0xFF) as bv8
    else (c & 0xFF) as bv8
  }

  /** `u32::to_be_bytes`, on a word of bits. */
  function ChecksumBytes(c: bv32): (s: seq<byte>)
    ensures |s| == 4
  {
    Values([Quarter(c, 0), Quarter(c, 1), Quarter(c, 2), Quarter(c, 3)])
  }

  function Join(a: bv8, b: bv8, c: bv8, d: bv8): bv32 {
    (Word(a) << 24) | (Word(b) << 16) | (Word(c) << 8) | Word(d)
  }

  /** `u32::from_be_bytes`. */
  function ReadChecksum(s: seq<byte>): bv32
    requires |s| == 4
  {
    var os := Octets(s);
    Join(os[0], os[1], os[2], os[3])
  }

  lemma QuartersJoin(c: bv32)
    ensures Join(Quarter(c, 0), Quarter(c, 1), Quarter(c, 2), Quarter(c, 3)) == c
  {
  }

  lemma JoinSplits(a: bv8, b: bv8, c: bv8, d: bv8)
    ensures var j := Join(a, b, c, d);
            Quarter(j, 0) == a && Quarter(j, 1) == b && Quarter(j, 2) == c && Quarter(j, 3) == d
  {
  }

  lemma ChecksumRoundTrip(c: bv32)
    ensures ReadChecksum(ChecksumBytes(c)) == c
  {
    var os := [Quarter(c, 0), Quarter(c, 1), Quarter(c, 2), Quarter(c, 3)];
    OctetsOfValues(os);
    QuartersJoin(c);
  }

  lemma ReadChecksumRoundTrip(s: seq<byte>)
    requires |s| == 4
    ensures ChecksumBytes(ReadChecksum(s)) == s
  {
    var os := Octets(s);
    JoinSplits(os[0], os[1], os[2], os[3]);
    assert os == [os[0], os[1], os[2], os[3]];
    ValuesOfOctets(s);
  }
}
