/** Well-formed UTF-8, as `String::from_utf8` checks it. */
module Utf8 {
  import opened Bytes

  predicate Tail(b: byte) { 0x80 <= b <= 0xBF }

  /** The number of bytes of the character `s` starts with, 0 when it starts
      with none. The ranges are those of section 4 of RFC 3629. */
  function CharLength(s: seq<byte>): (n: nat)
    ensures n <= |s|
  {
    if |s| >= 1 && s[0] <= 0x7F then 1
    else if |s| >= 2 && 0xC2 <= s[0] <= 0xDF && Tail(s[1]) then 2
    else if |s| >= 3 && Tail(s[2]) &&
            ((s[0] == 0xE0 && 0xA0 <= s[1] <= 0xBF)
             || (s[0] == 0xED && 0x80 <= s[1] <= 0x9F)
             || ((0xE1 <= s[0] <= 0xEC || 0xEE <= s[0] <= 0xEF) && Tail(s[1]))) then 3
    else if |s| >= 4 && Tail(s[2]) && Tail(s[3]) &&
            ((s[0] == 0xF0 && 0x90 <= s[1] <= 0xBF)
             || (s[0] == 0xF4 && 0x80 <= s[1] <= 0x8F)
             || (0xF1 <= s[0] <= 0xF3 && Tail(s[1]))) then 4
    else 0
  }

  predicate Valid(s: seq<byte>) {
    s == [] || (CharLength(s) > 0 && Valid(s[CharLength(s)..]))
  }

  /** The source's `String`: its bytes, known to be well-formed. */
  type Text = s: seq<byte> | Valid(s) witness []

  // ---- Section 3 of RFC 3629, the other way round ----

  /** A Unicode character number, surrogates excluded. */
  type Char = c: int | 0 <= c < 0xD800 || 0xE000 <= c < 0x11_0000

  /** A character as octets: its bits, six to each octet after the first. */
  function Octets(c: Char): (s: seq<byte>)
    ensures 1 <= |s| <= 4
  {
    if c < 0x80 then [c]
    else if c < 0x800 then [0xC0 + c / 64, 0x80 + c % 64]
    else if c < 0x1_0000 then [0xE0 + c / 4096, 0x80 + c / 64 % 64, 0x80 + c % 64]
    else [0xF0 + c / 262_144, 0x80 + c / 4096 % 64, 0x80 + c / 64 % 64, 0x80 + c % 64]
  }

  function Encode(cs: seq<Char>): seq<byte> {
    if cs == [] then [] else Octets(cs[0]) + Encode(cs[1..])
  }

  lemma CharIsRead(c: Char, rest: seq<byte>)
    ensures CharLength(Octets(c) + rest) == |Octets(c)|
  {
  }

  lemma TwoDigits(a: nat, b: nat) returns (n: nat)
    requires b < 64
    ensures n == 64 * a + b && n / 64 == a && n % 64 == b
  {
    n := 64 * a + b;
  }

  lemma ThreeDigits(a: nat, b: nat, c: nat) returns (n: nat)
    requires b < 64 && c < 64
    ensures n == 4096 * a + 64 * b + c && n / 4096 == a && n / 64 % 64 == b && n % 64 == c
  {
    var m := TwoDigits(a, b);
    n := TwoDigits(m, c);
  }

  lemma FourDigits(a: nat, b: nat, c: nat, d: nat) returns (n: nat)
    requires b < 64 && c < 64 && d < 64
    ensures n == 262_144 * a + 4096 * b + 64 * c + d
    ensures n / 262_144 == a && n / 4096 % 64 == b && n / 64 % 64 == c && n % 64 == d
  {
    var m := ThreeDigits(a, b, c);
    n := TwoDigits(m, d);
    assert n / 4096 == m / 64 && n / 262_144 == m / 4096;
  }

  /** The character a number of octets stands for. */
  lemma CharWasWritten(s: seq<byte>) returns (c: Char)
    requires CharLength(s) > 0
    ensures Octets(c) == s[..CharLength(s)]
  {
    var n := CharLength(s);
    if n == 1 {
      c := s[0];
      assert s[..1] == [s[0]];
    } else if n == 2 {
      c := TwoDigits(s[0] as int - 0xC0, s[1] as int - 0x80);
      assert s[..2] == [s[0], s[1]];
    } else if n == 3 {
      c := ThreeOctets(s);
    } else {
      c := FourOctets(s);
    }
  }

  lemma ThreeOctets(s: seq<byte>) returns (c: Char)
    requires CharLength(s) == 3
    ensures Octets(c) == s[..3]
  {
    c := ThreeDigits(s[0] as int - 0xE0, s[1] as int - 0x80, s[2] as int - 0x80);
    assert 0x800 <= c < 0x1_0000;
    assert s[..3] == [s[0], s[1], s[2]];
  }

  lemma FourOctets(s: seq<byte>) returns (c: Char)
    requires CharLength(s) == 4
    ensures Octets(c) == s[..4]
  {
    c := FourDigits(s[0] as int - 0xF0, s[1] as int - 0x80, s[2] as int - 0x80, s[3] as int - 0x80);
    assert 0x1_0000 <= c < 0x11_0000;
    assert s[..4] == [s[0], s[1], s[2], s[3]];
  }

  lemma {:induction false} EncodedIsValid(cs: seq<Char>)
    ensures Valid(Encode(cs))
  {
    if cs != [] {
      CharIsRead(cs[0], Encode(cs[1..]));
      EncodedIsValid(cs[1..]);
      assert Encode(cs)[|Octets(cs[0])|..] == Encode(cs[1..]);
    }
  }

  lemma {:induction false} ValidWasEncoded(s: seq<byte>) returns (cs: seq<Char>)
    requires Valid(s)
    ensures Encode(cs) == s
  {
    if s == [] {
      cs := [];
    } else {
      var c := CharWasWritten(s);
      var later := ValidWasEncoded(s[CharLength(s)..]);
      cs := [c] + later;
    }
  }

  /** Exactly the encodings of character sequences are valid. */
  lemma ValidExactly(s: seq<byte>)
    ensures Valid(s) <==> exists cs :: Encode(cs) == s
  {
    if Valid(s) {
      var cs := ValidWasEncoded(s);
    }
    if cs :| Encode(cs) == s {
      EncodedIsValid(cs);
    }
  }
}
