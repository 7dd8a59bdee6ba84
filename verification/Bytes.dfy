/** Bytes and the big-endian naturals they spell (Go's big.Int SetBytes and Bytes). */
module Bytes {
  type Byte = x: int | 0 <= x < 256

  /** The natural number a byte string spells, most significant byte first. */
  function FromBytes(bs: seq<Byte>): nat {
    if bs == [] then 0 else FromBytes(bs[..|bs| - 1]) * 256 + bs[|bs| - 1]
  }

  /** The shortest byte string that spells n; zero is the empty string. */
  function ToBytes(n: nat): seq<Byte> {
    if n == 0 then [] else ToBytes(n / 256) + [n % 256]
  }

  /** 256 to the power k: the first number k bytes cannot spell. */
  function Capacity(k: nat): (c: nat)
    ensures c > 0
  {
    if k == 0 then 1 else 256 * Capacity(k - 1)
  }

  ghost predicate NoLeadingZero(bs: seq<Byte>) {
    bs != [] ==> bs[0] != 0
  }

  lemma {:induction false} ToThenFrom(n: nat)
    ensures FromBytes(ToBytes(n)) == n
    ensures NoLeadingZero(ToBytes(n))
    ensures n > 0 ==> ToBytes(n) != []
  {
    if n > 0 {
      ToThenFrom(n / 256);
      assert ToBytes(n)[..|ToBytes(n)| - 1] == ToBytes(n / 256);
    }
  }

  lemma {:induction false} FromThenTo(bs: seq<Byte>)
    requires NoLeadingZero(bs)
    ensures ToBytes(FromBytes(bs)) == bs
  {
    if bs != [] {
      var init, last := bs[..|bs| - 1], bs[|bs| - 1];
      FromThenTo(init);
      if init != [] { PositiveWhenLeading(init); }
      assert bs == init + [last];
    }
  }

  lemma {:induction false} PositiveWhenLeading(bs: seq<Byte>)
    requires bs != [] && bs[0] != 0
    ensures FromBytes(bs) > 0
  {
    if |bs| > 1 { PositiveWhenLeading(bs[..|bs| - 1]); }
  }

  lemma {:induction false} LeadingZeroIsSilent(bs: seq<Byte>)
    ensures FromBytes([0] + bs) == FromBytes(bs)
  {
    if bs == [] {
      assert [0] + bs == [0];
      assert FromBytes([0]) == FromBytes([]) * 256 + 0;
    } else {
      LeadingZeroIsSilent(bs[..|bs| - 1]);
      assert ([0] + bs)[..|bs|] == [0] + bs[..|bs| - 1];
    }
  }

  lemma {:induction false} BelowCapacity(bs: seq<Byte>)
    ensures FromBytes(bs) < Capacity(|bs|)
  {
    if bs != [] { BelowCapacity(bs[..|bs| - 1]); }
  }

  /** Stripping leading zeros never lengthens, so a k-byte value needs at most k bytes. */
  lemma {:induction false} ShortestFits(bs: seq<Byte>)
    ensures |ToBytes(FromBytes(bs))| <= |bs|
  {
    if bs != [] { ShortestFits(bs[..|bs| - 1]); }
  }

  lemma {:induction false} BytesWithin(n: nat, k: nat)
    requires n < Capacity(k)
    ensures |ToBytes(n)| <= k
  {
    if n > 0 { BytesWithin(n / 256, k - 1); }
  }

  /** At one width, a byte string is determined by the number it spells. */
  lemma {:induction false} FixedWidthInjective(a: seq<Byte>, b: seq<Byte>)
    requires |a| == |b| && FromBytes(a) == FromBytes(b)
    ensures a == b
  {
    if a != [] {
      FixedWidthInjective(a[..|a| - 1], b[..|b| - 1]);
      assert a == a[..|a| - 1] + [a[|a| - 1]];
      assert b == b[..|b| - 1] + [b[|b| - 1]];
    }
  }

  lemma {:induction false} Snoc(bs: seq<Byte>, b: Byte)
    ensures FromBytes(bs + [b]) == FromBytes(bs) * 256 + b
  {
    assert (bs + [b])[..|bs|] == bs;
  }
}
