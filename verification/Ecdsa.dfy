/**
 The signature-encoding boundary (signing/ecdsa.go): a value is passed through as DER,
 converted from the fixed-width r‖s form of IEEE P1363, or refused.
 */
module Ecdsa {
  import opened Wrappers
  import opened Bytes
  import opened Der
  import Base64

  datatype Normalized =
    | Passed(der: seq<Byte>)     // already DER
    | Converted(der: seq<Byte>)  // was P1363
    | Refused

  predicate P1363Width(n: nat) {
    n == 64 || n == 96 || n == 132
  }

  /** The pass-through test: one complete SEQUENCE of two positive INTEGERs, extra bytes inside allowed. */
  function AsDer(raw: seq<Byte>): Option<Signature> {
    if raw == [] || raw[0] != SEQUENCE_TAG then None
    else
      match Unmarshal(raw)
      case None => None
      case Some((sig, rest)) => if rest == [] && sig.r > 0 && sig.s > 0 then Some(sig) else None
  }

  lemma {:induction false} HalfFits(half: seq<Byte>)
    requires |half| <= 66
    ensures 1 <= |IntegerContent(FromBytes(half))| <= |half| + 1
    ensures |half| == 0 ==> IntegerContent(FromBytes(half)) == [0]
  {
    ShortestFits(half);
    ToThenFrom(FromBytes(half));
  }

  lemma {:induction false} HalvesEncodable(r: seq<Byte>, s: seq<Byte>)
    requires 1 <= |r| == |s| <= 66
    ensures Encodable(FromBytes(r), FromBytes(s), [])
    ensures 6 <= |Body(FromBytes(r), FromBytes(s), [])| <= 2 * |r| + 6
  {
    HalfFits(r);
    HalfFits(s);
  }

  /** normalizeToDER. */
  function Normalize(raw: seq<Byte>): Normalized {
    if AsDer(raw).Some? then Passed(raw)
    else if P1363Width(|raw|) then
      var r, s := raw[..|raw| / 2], raw[|raw| / 2..];
      if FromBytes(r) == 0 || FromBytes(s) == 0 then Refused
      else HalvesEncodable(r, s); Converted(Marshal(FromBytes(r), FromBytes(s)))
    else Refused
  }

  /** The pair (r, s) a value stands for, in whichever of the two encodings it is read. */
  function Meaning(raw: seq<Byte>): Option<(int, int)> {
    match AsDer(raw)
    case Some(sig) => Some((sig.r, sig.s))
    case None =>
      if P1363Width(|raw|) then Some((FromBytes(raw[..|raw| / 2]), FromBytes(raw[|raw| / 2..]))) else None
  }

  lemma AsDerShape(raw: seq<Byte>)
    requires AsDer(raw).Some?
    ensures
      var sig := AsDer(raw).value;
      Encodable(sig.r, sig.s, sig.extra) && raw == Tlv(SEQUENCE_TAG, Body(sig.r, sig.s, sig.extra))
  {
    UnmarshalSound(raw);
    var (sig, rest) := Unmarshal(raw).value;
    assert Tlv(SEQUENCE_TAG, Body(sig.r, sig.s, sig.extra)) + [] == Tlv(SEQUENCE_TAG, Body(sig.r, sig.s, sig.extra));
  }

  lemma ShapeAsDer(r: nat, s: nat, extra: seq<Byte>)
    requires r > 0 && s > 0 && Encodable(r, s, extra)
    ensures AsDer(Tlv(SEQUENCE_TAG, Body(r, s, extra))) == Some(Signature(r, s, extra))
  {
    var raw := Tlv(SEQUENCE_TAG, Body(r, s, extra));
    assert raw + [] == raw;
    UnmarshalComplete(r, s, extra, []);
  }

  /** Below 256 bytes of contents the header is two bytes, or three when the long form is due. */
  lemma SmallHeader(body: seq<Byte>)
    requires |body| < 256
    ensures Tlv(SEQUENCE_TAG, body) == (if |body| < 128 then [0x30, |body|] else [0x30, 0x81, |body|]) + body
  {
    if |body| >= 128 {
      assert ToBytes(|body|) == ToBytes(0) + [|body|];
    }
  }

  lemma ConvertedForm(raw: seq<Byte>, r: nat, s: nat)
    requires Normalize(raw).Converted?
    requires r == FromBytes(raw[..|raw| / 2]) && s == FromBytes(raw[|raw| / 2..])
    ensures r > 0 && s > 0 && Encodable(r, s, []) && Normalize(raw).der == Marshal(r, s)
    ensures P1363Width(|raw|) && 6 <= |Body(r, s, [])| <= |raw| + 6
  {
    ConvertedHalves(raw);
    HalvesForm(raw, r, s);
    ConvertedValue(raw, r, s);
  }

  lemma HalvesForm(raw: seq<Byte>, r: nat, s: nat)
    requires P1363Width(|raw|) && r == FromBytes(raw[..|raw| / 2]) && s == FromBytes(raw[|raw| / 2..])
    ensures Encodable(r, s, []) && 6 <= |Body(r, s, [])| <= |raw| + 6
  {
    HalvesEncodable(raw[..|raw| / 2], raw[|raw| / 2..]);
  }

  lemma ConvertedValue(raw: seq<Byte>, r: nat, s: nat)
    requires Normalize(raw).Converted? && Encodable(r, s, [])
    requires r == FromBytes(raw[..|raw| / 2]) && s == FromBytes(raw[|raw| / 2..])
    ensures Normalize(raw).der == Marshal(r, s)
  {
  }

  lemma ConvertedHalves(raw: seq<Byte>)
    requires Normalize(raw).Converted?
    ensures P1363Width(|raw|) && FromBytes(raw[..|raw| / 2]) > 0 && FromBytes(raw[|raw| / 2..]) > 0
  {
  }

  /** What was converted reads back as the two halves. */
  lemma ConvertedReads(raw: seq<Byte>)
    requires Normalize(raw).Converted?
    ensures AsDer(Normalize(raw).der) == Some(Signature(FromBytes(raw[..|raw| / 2]), FromBytes(raw[|raw| / 2..]), []))
  {
    var r, s := FromBytes(raw[..|raw| / 2]), FromBytes(raw[|raw| / 2..]);
    ConvertedForm(raw, r, s);
    ShapeAsDer(r, s, []);
  }

  lemma HalvesDetermine(a: seq<Byte>, b: seq<Byte>, h: nat)
    requires |a| == |b| && h <= |a| && FromBytes(a[..h]) == FromBytes(b[..h]) && FromBytes(a[h..]) == FromBytes(b[h..])
    ensures a == b
  {
    FixedWidthInjective(a[..h], b[..h]);
    FixedWidthInjective(a[h..], b[h..]);
    assert a == a[..h] + a[h..] && b == b[..h] + b[h..];
  }

  lemma OnlyEncoding(r: nat, s: nat)
    requires r > 0 && s > 0 && Encodable(r, s, [])
    ensures forall other {:trigger AsDer(other)} :: AsDer(other) == Some(Signature(r, s, [])) <==>
      other == Marshal(r, s)
  {
    ShapeAsDer(r, s, []);
    forall other | AsDer(other) == Some(Signature(r, s, [])) ensures other == Marshal(r, s) {
      AsDerShape(other);
    }
  }

  // ---- The converted octets, spelled out ----

  /** The half without its leading zeros, and one zero put back exactly when the top bit would otherwise be set. */
  ghost predicate Stripped(half: seq<Byte>, c: seq<Byte>) {
    exists z :: StrippedAt(half, c, z)
  }

  /** The first byte of the half that is not zero is the z-th. */
  ghost predicate StrippedAt(half: seq<Byte>, c: seq<Byte>, z: int) {
    && 0 <= z < |half| && half[z] != 0 && (forall i :: 0 <= i < z ==> half[i] == 0)
    && c == (if half[z] >= 0x80 then [0x00] else []) + half[z..]
  }

  /** 30, the length of what follows, 02, the length of c, c, 02, the length of d, d; nothing else. */
  ghost predicate Spelled(der: seq<Byte>, c: seq<Byte>, d: seq<Byte>) {
    var n := |c| + |d| + 4;
    && n < 0x100
    && der == (if n < 0x80 then [0x30, n] else [0x30, 0x81, n]) + [0x02, |c|] + c + [0x02, |d|] + d
  }

  lemma {:induction false} ContentIsStripped(half: seq<Byte>)
    requires FromBytes(half) > 0
    ensures Stripped(half, IntegerContent(FromBytes(half)))
  {
    if half[0] == 0 {
      assert half == [0] + half[1..];
      LeadingZeroIsSilent(half[1..]);
      ContentIsStripped(half[1..]);
      ZeroAhead(half, IntegerContent(FromBytes(half)));
    } else {
      NothingToStrip(half);
    }
  }

  lemma {:induction false} NothingToStrip(half: seq<Byte>)
    requires half != [] && half[0] != 0
    ensures StrippedAt(half, IntegerContent(FromBytes(half)), 0)
  {
    FromThenTo(half);
    PositiveWhenLeading(half);
    assert half[0..] == half;
  }

  lemma ZeroAhead(half: seq<Byte>, c: seq<Byte>)
    requires half != [] && half[0] == 0 && Stripped(half[1..], c)
    ensures Stripped(half, c)
  {
    var z :| StrippedAt(half[1..], c, z);
    assert half[1..][z..] == half[z + 1..] && half[1..][z] == half[z + 1];
    forall i | 0 < i < z + 1 ensures half[i] == 0 { assert half[1..][i - 1] == 0; }
    assert StrippedAt(half, c, z + 1);
  }

  lemma SmallElement(c: seq<Byte>)
    requires |c| < 0x80
    ensures Tlv(INTEGER_TAG, c) == [0x02, |c|] + c
  {
  }

  lemma MarshalIsSpelled(r: nat, s: nat)
    requires Encodable(r, s, []) && |IntegerContent(r)| < 0x80 && |IntegerContent(s)| < 0x80
    requires |Body(r, s, [])| < 0x100
    ensures Spelled(Marshal(r, s), IntegerContent(r), IntegerContent(s))
  {
    var (c, d) := (IntegerContent(r), IntegerContent(s));
    SmallElement(c);
    SmallElement(d);
    SmallHeader(Body(r, s, []));
    assert Body(r, s, []) == [0x02, |c|] + c + ([0x02, |d|] + d);
  }

  /**
   The converted output, octet by octet: a SEQUENCE of two INTEGERs, the first half of the input and
   then the second, each without its leading zeros and with one put back when its top bit is set.
   */
  lemma {:induction false} ConvertedOctets(raw: seq<Byte>)
    requires Normalize(raw).Converted?
    ensures exists c, d ::
      Stripped(raw[..|raw| / 2], c) && Stripped(raw[|raw| / 2..], d) && Spelled(Normalize(raw).der, c, d)
  {
    var (first, second) := (raw[..|raw| / 2], raw[|raw| / 2..]);
    ConvertedForm(raw, FromBytes(first), FromBytes(second));
    HalfFits(first);
    HalfFits(second);
    ContentIsStripped(first);
    ContentIsStripped(second);
    MarshalIsSpelled(FromBytes(first), FromBytes(second));
  }

  /** 31 zeros and then the given byte, twice: a P-256 value with one significant byte in each half. */
  function OneByteHalves(r: Byte, s: Byte): seq<Byte> {
    seq(64, i => if i == 31 then r else if i == 63 then s else 0)
  }

  /** r = 1 and s = 2 in that order, and r = 0x80 with its pad byte. */
  lemma ConvertedExamples()
    ensures Normalize(OneByteHalves(1, 2)) == Converted([0x30, 0x06, 0x02, 0x01, 0x01, 0x02, 0x01, 0x02])
    ensures Normalize(OneByteHalves(0x80, 2)) == Converted([0x30, 0x07, 0x02, 0x02, 0x00, 0x80, 0x02, 0x01, 0x02])
  {
    OneByteConverts(1, 2, [1], [2]);
    OneByteConverts(0x80, 2, [0, 0x80], [2]);
    SpelledShort([1], [2], Normalize(OneByteHalves(1, 2)).der);
    SpelledShort([0, 0x80], [2], Normalize(OneByteHalves(0x80, 2)).der);
  }

  lemma SpelledShort(c: seq<Byte>, d: seq<Byte>, der: seq<Byte>)
    requires Spelled(der, c, d) && |d| == 1 && 1 <= |c| <= 2
    ensures der == if |c| == 1 then [0x30, 0x06, 0x02, 0x01, c[0], 0x02, 0x01, d[0]]
                   else [0x30, 0x07, 0x02, 0x02, c[0], c[1], 0x02, 0x01, d[0]]
  {
  }

  lemma LastByteStripped(half: seq<Byte>, b: Byte, c: seq<Byte>)
    requires |half| == 32 && b > 0 && half[31] == b && (forall i :: 0 <= i < 31 ==> half[i] == 0)
    requires Stripped(half, c)
    ensures c == if b >= 0x80 then [0, b] else [b]
  {
    var z :| StrippedAt(half, c, z);
    assert z == 31 && half[31..] == [b];
  }

  lemma {:induction false} OneByteConverts(r: Byte, s: Byte, c: seq<Byte>, d: seq<Byte>)
    requires r > 0 && s > 0 && c == (if r >= 0x80 then [0, r] else [r]) && d == (if s >= 0x80 then [0, s] else [s])
    ensures Normalize(OneByteHalves(r, s)).Converted? && Spelled(Normalize(OneByteHalves(r, s)).der, c, d)
  {
    var raw := OneByteHalves(r, s);
    OneByteIsConverted(r, s);
    ConvertedOctets(raw);
    var c', d' :| Stripped(raw[..|raw| / 2], c') && Stripped(raw[|raw| / 2..], d')
      && Spelled(Normalize(raw).der, c', d');
    OneByteIsLast(r, s);
    LastByteStripped(raw[..32], r, c');
    LastByteStripped(raw[32..], s, d');
  }

  lemma OneByteIsLast(r: Byte, s: Byte)
    ensures
      var raw := OneByteHalves(r, s);
      && |raw| == 64 && raw[..32][31] == r && raw[32..][31] == s
      && (forall i :: 0 <= i < 31 ==> raw[..32][i] == 0) && (forall i :: 0 <= i < 31 ==> raw[32..][i] == 0)
  {
  }

  lemma OneByteIsConverted(r: Byte, s: Byte)
    requires r > 0 && s > 0
    ensures Normalize(OneByteHalves(r, s)).Converted?
  {
    var raw := OneByteHalves(r, s);
    assert raw[0] == 0 && raw[..32][31] == r && raw[32..][31] == s;
    ZeroExactly(raw[..32]);
    ZeroExactly(raw[32..]);
  }

  /**
   Conversion is exact: the output spells the two halves in their order, and it, and no other string,
   reads as DER for precisely the two halves with nothing left over.
   */
  lemma {:induction false} ConversionIsExact(raw: seq<Byte>)
    requires Normalize(raw).Converted?
    ensures exists c, d ::
      Stripped(raw[..|raw| / 2], c) && Stripped(raw[|raw| / 2..], d) && Spelled(Normalize(raw).der, c, d)
    ensures forall other {:trigger AsDer(other)} ::
      AsDer(other) == Some(Signature(FromBytes(raw[..|raw| / 2]), FromBytes(raw[|raw| / 2..]), []))
      <==> other == Normalize(raw).der
  {
    var r, s := FromBytes(raw[..|raw| / 2]), FromBytes(raw[|raw| / 2..]);
    ConvertedForm(raw, r, s);
    OnlyEncoding(r, s);
    ConvertedOctets(raw);
  }

  /**
   Converted outputs are 8..72, 8..104 or 8..141 bytes, by width. The long form appears exactly
   when the contents exceed 127 bytes, which only P-521 can force.
   */
  lemma {:induction false} ConvertedSize(raw: seq<Byte>)
    requires Normalize(raw).Converted?
    ensures
      var der := Normalize(raw).der;
      && 8 <= |der| <= (if |raw| == 132 then 141 else |raw| + 8)
      && (|der| <= 129 ==> der[..2] == [0x30, |der| - 2])
      && (|der| > 129 ==> |raw| == 132 && der[..3] == [0x30, 0x81, |der| - 3])
  {
    var r, s := FromBytes(raw[..|raw| / 2]), FromBytes(raw[|raw| / 2..]);
    ConvertedForm(raw, r, s);
    HeaderStarts(Body(r, s, []));
  }

  lemma HeaderStarts(body: seq<Byte>)
    requires |body| < 256
    ensures
      var der := Tlv(SEQUENCE_TAG, body);
      if |body| < 128 then |der| == |body| + 2 && der[..2] == [0x30, |body|]
      else |der| == |body| + 3 && der[..3] == [0x30, 0x81, |body|]
  {
    SmallHeader(body);
  }

  /** No two values of one width convert to the same DER. */
  lemma {:induction false} ConversionIsInjective(a: seq<Byte>, b: seq<Byte>)
    requires |a| == |b| && Normalize(a).Converted? && Normalize(b).Converted?
    requires Normalize(a).der == Normalize(b).der
    ensures a == b
  {
    ConvertedReads(a);
    ConvertedReads(b);
    HalvesDetermine(a, b, |a| / 2);
  }

  /** The only header a DER signature filling one P1363 width can carry. */
  function OverlapHeader(width: nat): seq<Byte>
    requires P1363Width(width)
  {
    if width == 64 then [0x30, 0x3E] else if width == 96 then [0x30, 0x5E] else [0x30, 0x81, 0x81]
  }

  ghost predicate TwoPositiveIntegers(bs: seq<Byte>) {
    exists c, d, extra :: IntegersThen(bs, c, d, extra)
  }

  ghost predicate IntegersThen(bs: seq<Byte>, c: seq<Byte>, d: seq<Byte>, extra: seq<Byte>) {
    && PositiveInteger(c) && PositiveInteger(d) && |c| < 0x8000_0000 && |d| < 0x8000_0000
    && bs == Contents(c, d, extra)
  }

  lemma HeaderForced(body: seq<Byte>)
    requires |body| < LENGTH_LIMIT && P1363Width(|Tlv(SEQUENCE_TAG, body)|)
    ensures var w := |Tlv(SEQUENCE_TAG, body)|; |body| == w - |OverlapHeader(w)|
    ensures Tlv(SEQUENCE_TAG, body) == OverlapHeader(|Tlv(SEQUENCE_TAG, body)|) + body
  {
    assert |body| < 256;
    SmallHeader(body);
  }

  /**
   Where the two encodings overlap, exactly: a value of P1363 width is read as DER if and only if
   it starts with the one possible header and two minimal positive INTEGERs follow. Every other
   one is converted when both halves are non-zero, and refused otherwise.
   */
  lemma {:induction false} OverlapIsExact(raw: seq<Byte>)
    requires P1363Width(|raw|)
    ensures
      var h := |OverlapHeader(|raw|)|;
      var half := |raw| / 2;
      var readAsDer := raw[..h] == OverlapHeader(|raw|) && TwoPositiveIntegers(raw[h..]);
      && (Normalize(raw).Passed? <==> readAsDer)
      && (Normalize(raw).Converted? <==> !readAsDer && FromBytes(raw[..half]) != 0 && FromBytes(raw[half..]) != 0)
  {
    var h := |OverlapHeader(|raw|)|;
    assert raw == raw[..h] + raw[h..];
    if AsDer(raw).Some? {
      AsDerShape(raw);
      var sig := AsDer(raw).value;
      HeaderForced(Body(sig.r, sig.s, sig.extra));
      assert raw[h..] == Body(sig.r, sig.s, sig.extra);
      var (c, d) := (IntegerContent(sig.r), IntegerContent(sig.s));
      PositiveIsContent(sig.r);
      PositiveIsContent(sig.s);
      BodyIsContents(c, d, sig.extra);
      assert IntegersThen(raw[h..], c, d, sig.extra);
    }
    if raw[..h] == OverlapHeader(|raw|) && TwoPositiveIntegers(raw[h..]) {
      var c, d, extra :| IntegersThen(raw[h..], c, d, extra);
      BodyIsContents(c, d, extra);
      SmallHeader(raw[h..]);
      ShapeAsDer(FromBytes(c), FromBytes(d), extra);
    }
  }

  /** Whatever comes out goes back in unchanged as DER, and r and s survive. */
  lemma {:induction false} NormalizeIsIdempotent(raw: seq<Byte>)
    requires !Normalize(raw).Refused?
    ensures Normalize(Normalize(raw).der) == Passed(Normalize(raw).der)
    ensures Meaning(raw).Some? && Meaning(Normalize(raw).der) == Meaning(raw)
  {
    if Normalize(raw).Converted? {
      ConversionIsExact(raw);
      assert AsDer(Normalize(raw).der).Some?;
    }
  }

  /** The value is an encoding of two positive INTEGERs, whatever bytes follow them inside. */
  ghost predicate IsEncoding(raw: seq<Byte>) {
    exists c, d, extra :: Octets(raw, c, d, extra, [])
  }

  ghost predicate HasNonZero(bs: seq<Byte>) {
    exists i :: 0 <= i < |bs| && bs[i] != 0
  }

  lemma {:induction false} ZeroExactly(bs: seq<Byte>)
    ensures FromBytes(bs) != 0 <==> HasNonZero(bs)
  {
    if bs != [] {
      var (init, last) := (bs[..|bs| - 1], bs[|bs| - 1]);
      ZeroExactly(init);
      if HasNonZero(init) { var i :| 0 <= i < |init| && init[i] != 0; assert bs[i] != 0; }
      if HasNonZero(bs) && last == 0 { var i :| 0 <= i < |bs| && bs[i] != 0; assert init[i] != 0; }
    }
  }

  lemma IsEncodingExactly(raw: seq<Byte>)
    ensures AsDer(raw).Some? <==> IsEncoding(raw)
  {
    if AsDer(raw).Some? {
      var sig := AsDer(raw).value;
      UnmarshalExactly(raw, sig.r, sig.s, sig.extra, []);
    }
    if IsEncoding(raw) {
      var c, d, extra :| Octets(raw, c, d, extra, []);
      BodyIsContents(c, d, extra);
      UnmarshalExactly(raw, FromBytes(c), FromBytes(d), extra, []);
    }
  }

  /**
   Passed through unchanged exactly when the value is an encoding of two positive INTEGERs, and
   refused exactly when it is neither that nor 64, 96 or 132 bytes with a non-zero byte in each half.
   */
  lemma {:induction false} RefusedExactly(raw: seq<Byte>)
    ensures
      var half := |raw| / 2;
      Normalize(raw).Refused? <==>
        !IsEncoding(raw) && !(|raw| in {64, 96, 132} && HasNonZero(raw[..half]) && HasNonZero(raw[half..]))
    ensures Normalize(raw).Passed? <==> IsEncoding(raw)
    ensures Normalize(raw).Passed? ==> Normalize(raw).der == raw
  {
    IsEncodingExactly(raw);
    ZeroExactly(raw[..|raw| / 2]);
    ZeroExactly(raw[|raw| / 2..]);
  }

  /**
   The comment at signing/ecdsa.go:50 says a passed-through value round-trips exactly. It does if
   and only if nothing follows s inside the SEQUENCE.
   */
  lemma {:induction false} PassedIsCanonicalIff(raw: seq<Byte>)
    requires Normalize(raw).Passed?
    ensures
      var sig := AsDer(raw).value;
      (Encodable(sig.r, sig.s, []) && raw == Marshal(sig.r, sig.s)) <==> sig.extra == []
    ensures AsDer(raw).value.extra == [] <==> exists c, d :: Octets(raw, c, d, [], [])
  {
    AsDerShape(raw);
    var sig := AsDer(raw).value;
    if Encodable(sig.r, sig.s, []) && raw == Marshal(sig.r, sig.s) {
      ShapeAsDer(sig.r, sig.s, []);
    }
    UnmarshalExactly(raw, sig.r, sig.s, sig.extra, []);
    forall c, d | Octets(raw, c, d, [], []) ensures sig.extra == [] {
      BodyIsContents(c, d, []);
      UnmarshalExactly(raw, FromBytes(c), FromBytes(d), [], []);
    }
  }

  lemma PassedNeedNotBeCanonical()
    ensures
      var raw := [0x30, 0x07, 0x02, 0x01, 0x01, 0x02, 0x01, 0x01, 0x00];
      Normalize(raw).Passed? && AsDer(raw) == Some(Signature(1, 1, [0x00]))
  {
    var raw: seq<Byte> := [0x30, 0x07, 0x02, 0x01, 0x01, 0x02, 0x01, 0x01, 0x00];
    assert ToBytes(1) == ToBytes(0) + [1];
    assert IntegerContent(1) == [1];
    assert Tlv(INTEGER_TAG, [1]) == [2, 1, 1];
    assert Body(1, 1, [0]) == [2, 1, 1, 2, 1, 1, 0];
    assert Body(1, 1, []) == [2, 1, 1, 2, 1, 1];
    assert raw == Tlv(SEQUENCE_TAG, Body(1, 1, [0]));
    ShapeAsDer(1, 1, [0]);
  }

  // ---- The base64 wrapper ----

  /** NormalizeSignatureToDER: the base64 DER and whether it was P1363; None is the bad-encoding error. */
  function NormalizeText(text: string): Option<(string, bool)> {
    match Base64.Decode(text)
    case None => None
    case Some(raw) =>
      match Normalize(raw)
      case Passed(der) => Some((Base64.Encode(der), false))
      case Converted(der) => Some((Base64.Encode(der), true))
      case Refused => None
  }

  /** On text that encodes a value, the wrapper does to the text what normalizing does to the value. */
  lemma {:induction false} NormalizeEncoded(raw: seq<Byte>)
    ensures NormalizeText(Base64.Encode(raw)) ==
      match Normalize(raw)
      case Passed(der) => Some((Base64.Encode(der), false))
      case Converted(der) => Some((Base64.Encode(der), true))
      case Refused => None
  {
    Base64.RoundTrip(raw);
  }

  /** Only what a text decodes to matters, so line breaks and unused bits do not; other text is refused. */
  lemma {:induction false} NormalizeTextByValue(text: string)
    ensures match Base64.Decode(text)
            case None => NormalizeText(text).None?
            case Some(raw) => NormalizeText(text) == NormalizeText(Base64.Encode(raw))
  {
    if Base64.Decode(text).Some? { Base64.RoundTrip(Base64.Decode(text).value); }
  }

  /** Text that came out is a fixed point, character for character, and still means the same r and s. */
  lemma {:induction false} NormalizeTextIsIdempotent(text: string)
    requires NormalizeText(text).Some?
    ensures
      var out := NormalizeText(text).value.0;
      && NormalizeText(out) == Some((out, false))
      && Base64.Decode(out).Some?
      && Meaning(Base64.Decode(out).value) == Meaning(Base64.Decode(text).value)
  {
    var raw := Base64.Decode(text).value;
    NormalizeIsIdempotent(raw);
    Base64.RoundTrip(Normalize(raw).der);
  }
}
