/** Bytes and big-endian integers, shared by the transport and the write-ahead log. */
module Bytes {

  type byte = x: int | 0 <= x < 256

  /** The source's `u32`: every operation that could leave this range says what
      it does there. */
  type u32 = x: int | 0 <= x < 0x1_0000_0000

  type u16 = x: int | 0 <= x < 0x1_0000

  datatype Option<+T> = None | Some(value: T)

  /** `u32::to_be_bytes`. */
  function BE32(n: u32): (s: seq<byte>)
    ensures |s| == 4
  {
    [n / 0x100_0000, n / 0x1_0000 % 256, n / 256 % 256, n % 256]
  }

  /** `u32::from_be_bytes`. */
  function FromBE32(s: seq<byte>): u32
    requires |s| == 4
  {
    (s[0] as int) * 0x100_0000 + (s[1] as int) * 0x1_0000 + (s[2] as int) * 256 + s[3] as int
  }

  /** `u16::to_be_bytes` and its inverse. */
  function BE16(n: u16): (s: seq<byte>)
    ensures |s| == 2
  {
    [n / 256, n % 256]
  }

  function FromBE16(s: seq<byte>): u16
    requires |s| == 2
  {
    (s[0] as int) * 256 + s[1] as int
  }

  lemma BE32RoundTrip(n: u32)
    ensures FromBE32(BE32(n)) == n
  {
    assert n / 0x100_0000 == n / 0x1_0000 / 256;
    assert n / 0x1_0000 == n / 256 / 256;
  }

  lemma FromBE32RoundTrip(s: seq<byte>)
    requires |s| == 4
    ensures BE32(FromBE32(s)) == s
  {
    var n := FromBE32(s);
    assert n / 256 == (s[0] as int) * 0x1_0000 + (s[1] as int) * 256 + s[2] as int;
    assert n / 0x1_0000 == (s[0] as int) * 256 + s[1] as int;
    assert n / 0x100_0000 == s[0];
  }

  lemma BE16RoundTrip(n: u16)
    ensures FromBE16(BE16(n)) == n
  {
  }

  lemma FromBE16RoundTrip(s: seq<byte>)
    requires |s| == 2
    ensures BE16(FromBE16(s)) == s
  {
  }

  /** The digits of `n` to base 256, the most significant first. */
  function Bytes4(n: u32): seq<byte> { [n / 16_777_216, n / 65_536 % 256, n / 256 % 256, n % 256] }

  lemma BE32IsBytes4(n: u32)
    ensures BE32(n) == Bytes4(n)
  {
  }

  lemma ConcatAssociates<T>(a: seq<T>, b: seq<T>, c: seq<T>)
    ensures (a + b) + c == a + (b + c)
  {
  }
}
