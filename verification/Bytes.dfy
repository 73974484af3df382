/** Bytes, big-endian integers and byte-string order: the vocabulary of the wire
    format, of node identifiers and of the record nonces. */
module Bytes {

  type Byte = b: int | 0 <= b < 256

  function Zeros(n: nat): (z: seq<Byte>)
    ensures |z| == n
  {
    seq(n, _ => 0)
  }

  /** 256 to the power n: the number of values n bytes can hold. */
  function Pow256(n: nat): (p: nat)
    ensures p > 0
  {
    if n == 0 then 1 else 256 * Pow256(n - 1)
  }

  /** The n low-order bytes of v, most significant first. */
  function BigEndian(v: nat, n: nat): (bs: seq<Byte>)
    ensures |bs| == n
  {
    if n == 0 then [] else BigEndian(v / 256, n - 1) + [v % 256]
  }

  /** The number a big-endian byte string stands for. */
  function Value(bs: seq<Byte>): (v: nat)
    ensures v < Pow256(|bs|)
  {
    if bs == [] then 0 else Value(bs[..|bs| - 1]) * 256 + bs[|bs| - 1]
  }

  lemma ValueOfOneMore(bs: seq<Byte>, b: Byte)
    ensures Value(bs + [b]) == Value(bs) * 256 + b
  {
    assert (bs + [b])[..|bs|] == bs;
  }

  lemma LastByte(v: nat, n: nat)
    requires n > 0 && v < Pow256(n)
    ensures v / 256 < Pow256(n - 1) && v / 256 * 256 + v % 256 == v
  {}

  lemma {:induction false} ValueOfBigEndian(v: nat, n: nat)
    requires v < Pow256(n)
    ensures Value(BigEndian(v, n)) == v
  {
    if n > 0 {
      LastByte(v, n);
      ValueOfBigEndian(v / 256, n - 1);
      ValueOfOneMore(BigEndian(v / 256, n - 1), v % 256);
    }
  }

  lemma {:induction false} BigEndianOfValue(bs: seq<Byte>)
    ensures BigEndian(Value(bs), |bs|) == bs
  {
    if bs != [] {
      var front := bs[..|bs| - 1];
      assert Value(bs) / 256 == Value(front) && Value(bs) % 256 == bs[|bs| - 1];
      BigEndianOfValue(front);
    }
  }

  // ------------------------------------------------------------------
  // Order: identifiers and public keys are compared with memcmp.
  // ------------------------------------------------------------------

  /** memcmp(a, b) < 0 on two byte strings of the same length. */
  predicate LexLess(a: seq<Byte>, b: seq<Byte>)
    requires |a| == |b|
  {
    a != [] && (a[0] < b[0] || (a[0] == b[0] && LexLess(a[1..], b[1..])))
  }

  /** memcmp orders the byte strings of one length totally and strictly. */
  lemma {:induction false} LexTotal(a: seq<Byte>, b: seq<Byte>)
    requires |a| == |b|
    ensures LexLess(a, b) && LexLess(b, a) ==> false
    ensures a != b ==> LexLess(a, b) || LexLess(b, a)
    ensures a == b ==> !LexLess(a, b)
  {
    if a != [] {
      LexTotal(a[1..], b[1..]);
      assert a == [a[0]] + a[1..] && b == [b[0]] + b[1..];
    }
  }

  /** memcmp seen from the last byte. */
  lemma {:induction false} LexLessAtEnd(a: seq<Byte>, b: seq<Byte>)
    requires |a| == |b| > 0
    ensures var n := |a| - 1;
            LexLess(a, b) <==> LexLess(a[..n], b[..n]) || (a[..n] == b[..n] && a[n] < b[n])
  {
    var n := |a| - 1;
    if n > 0 {
      LexLessAtEnd(a[1..], b[1..]);
      assert a[1..][..n - 1] == a[..n][1..] && b[1..][..n - 1] == b[..n][1..];
      assert a[..n] == [a[0]] + a[..n][1..] && b[..n] == [b[0]] + b[..n][1..];
    }
  }

  /** memcmp orders byte strings of one length as it does the numbers they stand for. */
  lemma {:induction false} LexIsNumeric(a: seq<Byte>, b: seq<Byte>)
    requires |a| == |b|
    ensures LexLess(a, b) <==> Value(a) < Value(b)
    ensures a == b <==> Value(a) == Value(b)
  {
    BigEndianOfValue(a);
    BigEndianOfValue(b);
    if a != [] {
      var n := |a| - 1;
      LexLessAtEnd(a, b);
      LexIsNumeric(a[..n], b[..n]);
    }
  }
}
