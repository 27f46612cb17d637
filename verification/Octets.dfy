/** Bytes, messages and sequences of messages. */
module Octets {

  datatype Option<+T> = None | Some(value: T)

  type Byte = x: int | 0 <= x < 256
  type Bytes = seq<Byte>

  /** The bytes held by a sequence of messages. */
  function Size(ms: seq<Bytes>): nat {
    if ms == [] then 0 else |ms[0]| + Size(ms[1..])
  }

  lemma SizeOfOne(m: Bytes)
    ensures Size([m]) == |m|
  {
    var none: seq<Bytes> := [];
    assert Size(none) == 0 && [m][1..] == none;
  }

  lemma {:induction false} SizeAppends(ms: seq<Bytes>, ns: seq<Bytes>)
    ensures Size(ms + ns) == Size(ms) + Size(ns)
  {
    if ms == [] {
      assert ms + ns == ns;
    } else {
      SizeAppends(ms[1..], ns);
      assert (ms + ns)[1..] == ms[1..] + ns;
    }
  }

  /** The messages one after another, as one string of bytes. */
  function Flat(ms: seq<Bytes>): Bytes {
    if ms == [] then [] else ms[0] + Flat(ms[1..])
  }

  lemma FlatOfOne(m: Bytes)
    ensures Flat([m]) == m
  {
    var none: seq<Bytes> := [];
    assert Flat(none) == [] && [m][1..] == none;
  }

  lemma {:induction false} FlatAppends(ms: seq<Bytes>, ns: seq<Bytes>)
    ensures Flat(ms + ns) == Flat(ms) + Flat(ns)
  {
    if ms == [] {
      assert ms + ns == ns;
    } else {
      FlatAppends(ms[1..], ns);
      assert (ms + ns)[1..] == ms[1..] + ns && (ms + ns)[0] == ms[0];
      assert ms[0] + (Flat(ms[1..]) + Flat(ns)) == (ms[0] + Flat(ms[1..])) + Flat(ns);
    }
  }

  /** The length of the longest message. */
  function Longest(ms: seq<Bytes>): nat {
    if ms == [] then 0
    else
      var n, last := Longest(ms[..|ms| - 1]), |ms[|ms| - 1]|;
      if n < last then last else n
  }

  lemma {:induction false} LongestGrows(ms: seq<Bytes>, m: Bytes)
    ensures Longest(ms) <= Longest(ms + [m])
    ensures |m| <= Longest(ms + [m])
  {
    assert (ms + [m])[..|ms|] == ms;
  }
}
