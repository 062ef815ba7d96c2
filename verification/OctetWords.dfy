/** Bytes as eight-bit words. */
module OctetWords {
  import opened Bytes

  lemma Successor(o: bv8)
    requires o as int < 255
    ensures (o + 1) as int == o as int + 1
  {
  }

  /** The word whose value is `b`. Counting up to it keeps the solver clear of its
      conversion from integers to words. */
  function Octet(b: byte): (o: bv8)
    ensures o as int == b
  {
    if b == 0 then 0
    else
      var o := Octet(b - 1);
      Successor(o);
      o + 1
  }

  function Octets(data: seq<byte>): (os: seq<bv8>)
    ensures |os| == |data|
  {
    seq(|data|, i requires 0 <= i < |data| => Octet(data[i]))
  }

  lemma SameValue(o: bv8, p: bv8)
    requires o as int == p as int
    ensures o == p
  {
  }

  lemma OctetOfValue(o: bv8)
    ensures Octet(o as int) == o
  {
    SameValue(Octet(o as int), o);
  }

  /** Words as bytes. */
  function Values(os: seq<bv8>): (data: seq<byte>)
    ensures |data| == |os|
  {
    seq(|os|, i requires 0 <= i < |os| => os[i] as int)
  }

  lemma OctetsOfValues(os: seq<bv8>)
    ensures Octets(Values(os)) == os
  {
    forall i | 0 <= i < |os|
      ensures Octets(Values(os))[i] == os[i]
    {
      OctetOfValue(os[i]);
    }
  }

  lemma ValuesOfOctets(data: seq<byte>)
    ensures Values(Octets(data)) == data
  {
  }

  lemma OctetsAreInjective(a: seq<byte>, b: seq<byte>)
    requires Octets(a) == Octets(b)
    ensures a == b
  {
    ValuesOfOctets(a);
    ValuesOfOctets(b);
  }
}
