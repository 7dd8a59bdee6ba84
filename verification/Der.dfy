/**
 DER as Go's encoding/asn1 reads and writes it, for the one shape the signer uses:
 SEQUENCE { INTEGER r, INTEGER s } (Ecdsa-Sig-Value, section 2.2.3 of RFC 3279).
 Lengths follow ITU-T X.690 sections 8.1.3 and 10.1, integers section 8.3.
 */
module Der {
  import opened Wrappers
  import opened Bytes

  const SEQUENCE_TAG: Byte := 0x30
  const INTEGER_TAG: Byte := 0x02

  /** The reader gives up once a length it has accumulated reaches 2^23 with bytes still to come. */
  const LENGTH_STEP_LIMIT: nat := 0x80_0000
  /** So no length of 2^31 or more is ever read. */
  const LENGTH_LIMIT: nat := 0x8000_0000

  // ---- Writing ----

  lemma {:induction false} LengthBytesFew(n: nat)
    requires n < LENGTH_LIMIT
    ensures |ToBytes(n)| <= 4
  {
    assert Capacity(4) == 256 * (256 * (256 * (256 * Capacity(0))));
    BytesWithin(n, 4);
  }

  /** Short form below 128, otherwise the long form on the fewest bytes. */
  function LengthBytes(n: nat): seq<Byte>
    requires n < LENGTH_LIMIT
  {
    if n < 128 then [n] else LengthBytesFew(n); [128 + |ToBytes(n)|] + ToBytes(n)
  }

  function Tlv(tag: Byte, content: seq<Byte>): seq<Byte>
    requires |content| < LENGTH_LIMIT
  {
    [tag] + LengthBytes(|content|) + content
  }

  /** The contents octets of a non-negative INTEGER: a zero pad byte when the top bit is set. */
  function IntegerContent(n: nat): seq<Byte> {
    if n == 0 then [0]
    else if ToBytes(n) != [] && ToBytes(n)[0] >= 128 then [0] + ToBytes(n)
    else ToBytes(n)
  }

  /** Two INTEGERs one after the other, with whatever follows them. */
  function Body(r: nat, s: nat, extra: seq<Byte>): seq<Byte>
    requires |IntegerContent(r)| < LENGTH_LIMIT && |IntegerContent(s)| < LENGTH_LIMIT
  {
    Tlv(INTEGER_TAG, IntegerContent(r)) + Tlv(INTEGER_TAG, IntegerContent(s)) + extra
  }

  ghost predicate Encodable(r: nat, s: nat, extra: seq<Byte>) {
    && |IntegerContent(r)| < LENGTH_LIMIT
    && |IntegerContent(s)| < LENGTH_LIMIT
    && |Body(r, s, extra)| < LENGTH_LIMIT
  }

  /** asn1.Marshal of the signature struct. */
  function Marshal(r: nat, s: nat): seq<Byte>
    requires Encodable(r, s, [])
  {
    Tlv(SEQUENCE_TAG, Body(r, s, []))
  }

  // ---- Reading ----

  /** The k length bytes of the long form, on top of what has been accumulated. */
  function LongLength(bs: seq<Byte>, k: nat, acc: nat): Option<(nat, seq<Byte>)> {
    if k == 0 then Some((acc, bs))
    else if bs == [] || acc >= LENGTH_STEP_LIMIT || acc * 256 + bs[0] == 0 then None
    else LongLength(bs[1..], k - 1, acc * 256 + bs[0])
  }

  /** A length, and what follows it; indefinite and non-minimal lengths are refused. */
  function ParseLength(bs: seq<Byte>): Option<(nat, seq<Byte>)> {
    if bs == [] || bs[0] == 128 then None
    else if bs[0] < 128 then Some((bs[0], bs[1..]))
    else
      match LongLength(bs[1..], bs[0] - 128, 0)
      case None => None
      case Some((n, rest)) => if n < 128 then None else Some((n, rest))
  }

  /** One element with the given single-byte tag: its contents, and what follows it. */
  function ParseTlv(tag: Byte, bs: seq<Byte>): Option<(seq<Byte>, seq<Byte>)> {
    if bs == [] || bs[0] != tag then None
    else
      match ParseLength(bs[1..])
      case None => None
      case Some((n, rest)) => if n > |rest| then None else Some((rest[..n], rest[n..]))
  }

  /** checkInteger: not empty, and no redundant leading byte of either sign. */
  predicate MinimalInteger(c: seq<Byte>) {
    && c != []
    && (|c| > 1 ==> !(c[0] == 0 && c[1] < 128) && !(c[0] == 255 && c[1] >= 128))
  }

  /** Two's complement. */
  function IntegerValue(c: seq<Byte>): int
    requires c != []
  {
    if c[0] >= 128 then FromBytes(c) - Capacity(|c|) else FromBytes(c)
  }

  function ParseInteger(bs: seq<Byte>): Option<(int, seq<Byte>)> {
    match ParseTlv(INTEGER_TAG, bs)
    case None => None
    case Some((c, rest)) => if MinimalInteger(c) then Some((IntegerValue(c), rest)) else None
  }

  /** What asn1.Unmarshal finds: the two integers, and the bytes after s inside the SEQUENCE. */
  datatype Signature = Signature(r: int, s: int, extra: seq<Byte>)

  /** asn1.Unmarshal: extra bytes inside the SEQUENCE are tolerated, bytes after it are the rest. */
  function Unmarshal(bs: seq<Byte>): Option<(Signature, seq<Byte>)> {
    match ParseTlv(SEQUENCE_TAG, bs)
    case None => None
    case Some((body, rest)) =>
      match ParseInteger(body)
      case None => None
      case Some((r, afterR)) =>
        match ParseInteger(afterR)
        case None => None
        case Some((s, extra)) => Some((Signature(r, s, extra), rest))
  }

  // ---- Reading and writing agree, in both directions ----

  lemma {:induction false} LongLengthSound(pre: seq<Byte>, bs: seq<Byte>, k: nat, acc: nat)
    requires NoLeadingZero(pre) && FromBytes(pre) == acc < LENGTH_LIMIT
    requires LongLength(bs, k, acc).Some?
    ensures k <= |bs| && NoLeadingZero(pre + bs[..k]) && FromBytes(pre + bs[..k]) < LENGTH_LIMIT
    ensures LongLength(bs, k, acc) == Some((FromBytes(pre + bs[..k]), bs[k..]))
    decreases k
  {
    if k == 0 {
      assert pre + bs[..0] == pre;
    } else {
      var b := bs[0];
      Snoc(pre, b);
      if pre == [] { assert acc == 0; }
      LongLengthSound(pre + [b], bs[1..], k - 1, acc * 256 + b);
      assert pre + [b] + bs[1..][..k - 1] == pre + bs[..k];
    }
  }

  lemma {:induction false} PrefixBelow(pre: seq<Byte>, more: seq<Byte>)
    ensures FromBytes(pre) <= FromBytes(pre + more)
    ensures more != [] ==> FromBytes(pre) * 256 <= FromBytes(pre + more)
  {
    if more == [] {
      assert pre + more == pre;
    } else {
      PrefixBelow(pre, more[..|more| - 1]);
      assert pre + more == pre + more[..|more| - 1] + [more[|more| - 1]];
      Snoc(pre + more[..|more| - 1], more[|more| - 1]);
    }
  }

  lemma {:induction false} LongLengthComplete(pre: seq<Byte>, bs: seq<Byte>, k: nat)
    requires k <= |bs| && NoLeadingZero(pre + bs[..k]) && FromBytes(pre + bs[..k]) < LENGTH_LIMIT
    ensures LongLength(bs, k, FromBytes(pre)) == Some((FromBytes(pre + bs[..k]), bs[k..]))
    decreases k
  {
    if k == 0 {
      assert pre + bs[..0] == pre;
    } else {
      assert pre + [bs[0]] + bs[1..][..k - 1] == pre + bs[..k];
      PrefixBelow(pre, bs[..k]);
      Snoc(pre, bs[0]);
      assert (pre + [bs[0]])[0] == (pre + bs[..k])[0];
      PositiveWhenLeading(pre + [bs[0]]);
      LongLengthComplete(pre + [bs[0]], bs[1..], k - 1);
    }
  }

  lemma ParseLengthSound(bs: seq<Byte>)
    requires ParseLength(bs).Some?
    ensures var (n, rest) := ParseLength(bs).value; n < LENGTH_LIMIT && bs == LengthBytes(n) + rest
  {
    var (n, rest) := ParseLength(bs).value;
    if bs[0] >= 128 {
      var k := bs[0] - 128;
      LongLengthSound([], bs[1..], k, 0);
      assert [] + bs[1..][..k] == bs[1..][..k];
      FromThenTo(bs[1..][..k]);
      assert bs == [bs[0]] + bs[1..][..k] + rest;
    }
  }

  lemma ParseLengthComplete(n: nat, rest: seq<Byte>)
    requires n < LENGTH_LIMIT
    ensures ParseLength(LengthBytes(n) + rest) == Some((n, rest))
  {
    var bs := LengthBytes(n) + rest;
    if n >= 128 {
      LengthBytesFew(n);
      LongFormComplete(n, rest);
      assert bs[1..] == ToBytes(n) + rest;
    }
  }

  lemma {:induction false} LongFormComplete(n: nat, rest: seq<Byte>)
    requires 128 <= n < LENGTH_LIMIT
    ensures ToBytes(n) != [] && LongLength(ToBytes(n) + rest, |ToBytes(n)|, 0) == Some((n, rest))
  {
    ToThenFrom(n);
    var l := ToBytes(n);
    assert (l + rest)[..|l|] == l && [] + l == l && (l + rest)[|l|..] == rest;
    LongLengthComplete([], l + rest, |l|);
  }

  lemma ParseTlvSound(tag: Byte, bs: seq<Byte>)
    requires ParseTlv(tag, bs).Some?
    ensures var (c, rest) := ParseTlv(tag, bs).value; |c| < LENGTH_LIMIT && bs == Tlv(tag, c) + rest
  {
    ParseLengthSound(bs[1..]);
    var (n, tail) := ParseLength(bs[1..]).value;
    var (c, rest) := (tail[..n], tail[n..]);
    assert tail == c + rest;
    assert bs == [bs[0]] + bs[1..];
    Regroup([tag], LengthBytes(n), c + rest);
    Regroup([tag] + LengthBytes(n), c, rest);
  }

  lemma ParseTlvComplete(tag: Byte, c: seq<Byte>, rest: seq<Byte>)
    requires |c| < LENGTH_LIMIT
    ensures ParseTlv(tag, Tlv(tag, c) + rest) == Some((c, rest))
  {
    var bs := Tlv(tag, c) + rest;
    assert bs[1..] == LengthBytes(|c|) + (c + rest);
    ParseLengthComplete(|c|, c + rest);
    assert (c + rest)[..|c|] == c && (c + rest)[|c|..] == rest;
  }

  /** The minimal contents of a positive INTEGER are exactly what the writer produces for its value. */
  lemma PositiveContentSound(c: seq<Byte>)
    requires MinimalInteger(c) && IntegerValue(c) > 0
    ensures c == IntegerContent(IntegerValue(c))
  {
    BelowCapacity(c);
    if c[0] == 0 {
      assert c == [0] + c[1..];
      LeadingZeroIsSilent(c[1..]);
      FromThenTo(c[1..]);
    } else {
      FromThenTo(c);
    }
  }

  lemma PositiveContentComplete(n: nat)
    requires n > 0
    ensures MinimalInteger(IntegerContent(n)) && IntegerValue(IntegerContent(n)) == n
  {
    ToThenFrom(n);
    LeadingZeroIsSilent(ToBytes(n));
  }

  lemma ParseIntegerSound(bs: seq<Byte>)
    requires ParseInteger(bs).Some? && ParseInteger(bs).value.0 > 0
    ensures
      var (n, rest) := ParseInteger(bs).value;
      && |IntegerContent(n)| < LENGTH_LIMIT
      && bs == Tlv(INTEGER_TAG, IntegerContent(n)) + rest
  {
    ParseTlvSound(INTEGER_TAG, bs);
    PositiveContentSound(ParseTlv(INTEGER_TAG, bs).value.0);
  }

  lemma ParseIntegerComplete(n: nat, rest: seq<Byte>)
    requires n > 0 && |IntegerContent(n)| < LENGTH_LIMIT
    ensures ParseInteger(Tlv(INTEGER_TAG, IntegerContent(n)) + rest) == Some((n, rest))
  {
    ParseTlvComplete(INTEGER_TAG, IntegerContent(n), rest);
    PositiveContentComplete(n);
  }

  lemma Regroup(a: seq<Byte>, b: seq<Byte>, c: seq<Byte>)
    ensures a + b + c == a + (b + c)
  {
  }

  /** The reader accepts nothing but two positive INTEGERs the writer would have written, then anything. */
  lemma UnmarshalSound(bs: seq<Byte>)
    requires Unmarshal(bs).Some? && Unmarshal(bs).value.0.r > 0 && Unmarshal(bs).value.0.s > 0
    ensures
      var (sig, rest) := Unmarshal(bs).value;
      && Encodable(sig.r, sig.s, sig.extra)
      && bs == Tlv(SEQUENCE_TAG, Body(sig.r, sig.s, sig.extra)) + rest
  {
    ParseTlvSound(SEQUENCE_TAG, bs);
    var body := ParseTlv(SEQUENCE_TAG, bs).value.0;
    ParseIntegerSound(body);
    var (r, afterR) := ParseInteger(body).value;
    ParseIntegerSound(afterR);
    var (s, extra) := ParseInteger(afterR).value;
    Regroup(Tlv(INTEGER_TAG, IntegerContent(r)), Tlv(INTEGER_TAG, IntegerContent(s)), extra);
  }

  /** And it accepts every such string, finding exactly r, s and what follows. */
  lemma UnmarshalComplete(r: nat, s: nat, extra: seq<Byte>, rest: seq<Byte>)
    requires r > 0 && s > 0 && Encodable(r, s, extra)
    ensures Unmarshal(Tlv(SEQUENCE_TAG, Body(r, s, extra)) + rest) == Some((Signature(r, s, extra), rest))
  {
    var first, second := Tlv(INTEGER_TAG, IntegerContent(r)), Tlv(INTEGER_TAG, IntegerContent(s));
    Regroup(first, second, extra);
    ParseTlvComplete(SEQUENCE_TAG, Body(r, s, extra), rest);
    ParseIntegerComplete(r, second + extra);
    ParseIntegerComplete(s, extra);
  }

  // ---- The octets, spelled out ----

  /** Length octets, form by form: the short form, or the long form on as few octets as will do. */
  function LengthOctets(n: nat): seq<Byte>
    requires n < 0x8000_0000
  {
    if n < 0x80 then [n]
    else if n < 0x100 then [0x81, n]
    else if n < 0x1_0000 then [0x82, n / 0x100, n % 0x100]
    else if n < 0x100_0000 then [0x83, n / 0x1_0000, n / 0x100 % 0x100, n % 0x100]
    else [0x84, n / 0x100_0000, n / 0x1_0000 % 0x100, n / 0x100 % 0x100, n % 0x100]
  }

  lemma LengthIsOctets(n: nat)
    requires n < LENGTH_LIMIT
    ensures LengthBytes(n) == LengthOctets(n)
  {
    if n >= 0x80 {
      var (n1, n2, n3) := (n / 0x100, n / 0x1_0000, n / 0x100_0000);
      assert n1 / 0x100 == n2 && n2 / 0x100 == n3 && n3 / 0x100 == 0;
      assert ToBytes(n) == ToBytes(n1) + [n % 0x100];
      assert n1 > 0 ==> ToBytes(n1) == ToBytes(n2) + [n1 % 0x100];
      assert n2 > 0 ==> ToBytes(n2) == ToBytes(n3) + [n2 % 0x100];
      assert n3 > 0 ==> ToBytes(n3) == ToBytes(0) + [n3 % 0x100];
    }
  }

  /** The contents octets of a positive INTEGER: the top bit clear, and a zero in front only where it must be. */
  predicate PositiveInteger(c: seq<Byte>) {
    c != [] && c[0] < 0x80 && (c[0] == 0 ==> |c| > 1 && c[1] >= 0x80)
  }

  lemma {:induction false} PositiveExactly(c: seq<Byte>)
    ensures PositiveInteger(c) <==> MinimalInteger(c) && IntegerValue(c) > 0
    ensures PositiveInteger(c) ==> IntegerValue(c) == FromBytes(c)
  {
    if c != [] && c[0] != 0 {
      PositiveWhenLeading(c);
      BelowCapacity(c);
    } else if |c| == 1 {
      assert c == [0] + [];
      LeadingZeroIsSilent([]);
    } else if |c| > 1 && c[1] != 0 {
      assert c == [0] + c[1..];
      LeadingZeroIsSilent(c[1..]);
      PositiveWhenLeading(c[1..]);
    }
  }

  /** The contents of the SEQUENCE: the INTEGER with contents c, the INTEGER with contents d, and what follows. */
  function Contents(c: seq<Byte>, d: seq<Byte>, extra: seq<Byte>): seq<Byte>
    requires |c| < 0x8000_0000 && |d| < 0x8000_0000
  {
    [0x02] + LengthOctets(|c|) + c + [0x02] + LengthOctets(|d|) + d + extra
  }

  /** A SEQUENCE of the positive INTEGER c and the positive INTEGER d, what follows d inside, and what follows it. */
  ghost predicate Octets(bs: seq<Byte>, c: seq<Byte>, d: seq<Byte>, extra: seq<Byte>, rest: seq<Byte>) {
    && PositiveInteger(c) && PositiveInteger(d) && |c| < 0x8000_0000 && |d| < 0x8000_0000
    && |Contents(c, d, extra)| < 0x8000_0000
    && bs == [0x30] + LengthOctets(|Contents(c, d, extra)|) + Contents(c, d, extra) + rest
  }

  lemma {:induction false} BodyIsContents(c: seq<Byte>, d: seq<Byte>, extra: seq<Byte>)
    requires PositiveInteger(c) && PositiveInteger(d) && |c| < LENGTH_LIMIT && |d| < LENGTH_LIMIT
    ensures FromBytes(c) > 0 && FromBytes(d) > 0
    ensures IntegerContent(FromBytes(c)) == c && IntegerContent(FromBytes(d)) == d
    ensures Body(FromBytes(c), FromBytes(d), extra) == Contents(c, d, extra)
  {
    PositiveExactly(c);
    PositiveExactly(d);
    PositiveContentSound(c);
    PositiveContentSound(d);
    LengthIsOctets(|c|);
    LengthIsOctets(|d|);
    var second := [0x02] + LengthOctets(|d|) + d;
    assert [0x02] + LengthOctets(|c|) + c + second == [0x02] + LengthOctets(|c|) + c + [0x02] + LengthOctets(|d|) + d;
  }

  lemma PositiveIsContent(n: nat)
    requires n > 0
    ensures PositiveInteger(IntegerContent(n)) && FromBytes(IntegerContent(n)) == n
  {
    PositiveContentComplete(n);
    PositiveExactly(IntegerContent(n));
  }

  /**
   The reader, octet by octet: it finds the positive r and s, in that order, exactly in the strings
   that are 30, a length, 02, a length, the minimal contents of r, 02, a length and the minimal
   contents of s, with whatever follows them inside and outside.
   */
  lemma {:induction false} UnmarshalExactly(bs: seq<Byte>, r: nat, s: nat, extra: seq<Byte>, rest: seq<Byte>)
    requires r > 0 && s > 0
    ensures Unmarshal(bs) == Some((Signature(r, s, extra), rest))
      <==> exists c, d :: Octets(bs, c, d, extra, rest) && FromBytes(c) == r && FromBytes(d) == s
  {
    if Unmarshal(bs) == Some((Signature(r, s, extra), rest)) {
      UnmarshalSound(bs);
      var (c, d) := (IntegerContent(r), IntegerContent(s));
      PositiveIsContent(r);
      PositiveIsContent(s);
      BodyIsContents(c, d, extra);
      LengthIsOctets(|Contents(c, d, extra)|);
      assert Octets(bs, c, d, extra, rest);
    }
    forall c, d | Octets(bs, c, d, extra, rest) && FromBytes(c) == r && FromBytes(d) == s
      ensures Unmarshal(bs) == Some((Signature(r, s, extra), rest))
    {
      BodyIsContents(c, d, extra);
      LengthIsOctets(|Contents(c, d, extra)|);
      UnmarshalComplete(r, s, extra, rest);
    }
  }
}
