/**
 Standard base64 (section 4 of RFC 4648) as Go's StdEncoding reads and writes it:
 carriage returns and line feeds are skipped wherever they stand, and the bits a
 padded quantum does not use are ignored.
 */
module Base64 {
  import opened Wrappers
  import opened Bytes

  type Sextet = x: int | 0 <= x < 64

  function Letter(i: Sextet): char {
    if i < 26 then ('A' as int + i) as char
    else if i < 52 then ('a' as int + i - 26) as char
    else if i < 62 then ('0' as int + i - 52) as char
    else if i == 62 then '+' else '/'
  }

  function Value(c: char): Option<Sextet> {
    if 'A' <= c <= 'Z' then Some(c as int - 'A' as int)
    else if 'a' <= c <= 'z' then Some(c as int - 'a' as int + 26)
    else if '0' <= c <= '9' then Some(c as int - '0' as int + 52)
    else if c == '+' then Some(62)
    else if c == '/' then Some(63)
    else None
  }

  function Quantum(a: Byte, b: Byte, c: Byte): string {
    [Letter(a / 4), Letter(a % 4 * 16 + b / 16), Letter(b % 16 * 4 + c / 64), Letter(c % 64)]
  }

  function Encode(bs: seq<Byte>): string {
    if bs == [] then ""
    else if |bs| == 1 then Quantum(bs[0], 0, 0)[..2] + "=="
    else if |bs| == 2 then Quantum(bs[0], bs[1], 0)[..3] + "="
    else Quantum(bs[0], bs[1], bs[2]) + Encode(bs[3..])
  }

  function SkipBreaks(s: string): string {
    if s == "" then ""
    else if s[0] == '\r' || s[0] == '\n' then SkipBreaks(s[1..])
    else [s[0]] + SkipBreaks(s[1..])
  }

  /** The bytes of a string without line breaks; None when it is not base64. */
  function DecodeQuanta(s: string): Option<seq<Byte>> {
    if s == "" then Some([])
    else if |s| < 4 then None
    else
      var w, x, y, z := Value(s[0]), Value(s[1]), Value(s[2]), Value(s[3]);
      if w.None? || x.None? then None
      else
        var first := w.value * 4 + x.value / 16;
        if s[2..] == "==" then Some([first])
        else if y.None? then None
        else
          var second := x.value % 16 * 16 + y.value / 4;
          if s[3..] == "=" then Some([first, second])
          else if z.None? then None
          else
            match DecodeQuanta(s[4..])
            case None => None
            case Some(rest) => Some([first, second, y.value % 4 * 64 + z.value] + rest)
  }

  function Decode(s: string): Option<seq<Byte>> {
    DecodeQuanta(SkipBreaks(s))
  }

  predicate Plain(c: char) {
    Value(c).Some? || c == '='
  }

  lemma {:induction false} PlainIsKept(s: string)
    requires forall i :: 0 <= i < |s| ==> Plain(s[i])
    ensures SkipBreaks(s) == s
  {
    if s != "" {
      PlainIsKept(s[1..]);
      assert Plain(s[0]);
    }
  }

  lemma {:induction false} EncodeIsPlain(bs: seq<Byte>)
    ensures forall i :: 0 <= i < |Encode(bs)| ==> Plain(Encode(bs)[i])
  {
    if |bs| >= 3 { EncodeIsPlain(bs[3..]); }
  }

  lemma LetterHasValue(i: Sextet)
    ensures Value(Letter(i)) == Some(i) && Letter(i) != '='
  {
  }

  lemma QuantumValues(a: Byte, b: Byte, c: Byte)
    ensures
      var q := Quantum(a, b, c);
      var (w, x, y, z) := (a / 4, a % 4 * 16 + b / 16, b % 16 * 4 + c / 64, c % 64);
      && Value(q[0]) == Some(w) && Value(q[1]) == Some(x) && Value(q[2]) == Some(y) && Value(q[3]) == Some(z)
      && q[2] != '=' && q[3] != '='
      && w * 4 + x / 16 == a && x % 16 * 16 + y / 4 == b && y % 4 * 64 + z == c
  {
    LetterHasValue(a / 4);
    LetterHasValue(a % 4 * 16 + b / 16);
    LetterHasValue(b % 16 * 4 + c / 64);
    LetterHasValue(c % 64);
  }

  /** Four letters that are not padding, read with what follows them. */
  lemma {:induction false} ReadsQuantum(s: string, w: Sextet, x: Sextet, y: Sextet, z: Sextet, rest: seq<Byte>)
    requires |s| >= 4 && Value(s[0]) == Some(w) && Value(s[1]) == Some(x) && Value(s[2]) == Some(y)
      && Value(s[3]) == Some(z)
    requires s[2] != '=' && s[3] != '=' && DecodeQuanta(s[4..]) == Some(rest)
    ensures DecodeQuanta(s) == Some([w * 4 + x / 16, x % 16 * 16 + y / 4, y % 4 * 64 + z] + rest)
  {
    assert s[2..][0] == s[2] && s[3..][0] == s[3];
  }

  lemma {:induction false} FullQuantum(a: Byte, b: Byte, c: Byte, tail: string, rest: seq<Byte>)
    requires DecodeQuanta(tail) == Some(rest)
    ensures DecodeQuanta(Quantum(a, b, c) + tail) == Some([a, b, c] + rest)
  {
    var (q, s) := (Quantum(a, b, c), Quantum(a, b, c) + tail);
    QuantumValues(a, b, c);
    assert s[4..] == tail && s[0] == q[0] && s[1] == q[1] && s[2] == q[2] && s[3] == q[3];
    ReadsQuantum(s, a / 4, a % 4 * 16 + b / 16, b % 16 * 4 + c / 64, c % 64, rest);
  }

  lemma PaddedQuantum(a: Byte, b: Byte)
    ensures DecodeQuanta(Quantum(a, 0, 0)[..2] + "==") == Some([a])
    ensures DecodeQuanta(Quantum(a, b, 0)[..3] + "=") == Some([a, b])
  {
    QuantumValues(a, 0, 0);
    QuantumValues(a, b, 0);
    var s, t := Quantum(a, 0, 0)[..2] + "==", Quantum(a, b, 0)[..3] + "=";
    assert s[2..] == "==" && t[3..] == "=" && t[2..][0] == t[2];
  }

  lemma {:induction false} DecodeEncodedQuanta(bs: seq<Byte>)
    ensures DecodeQuanta(Encode(bs)) == Some(bs)
  {
    if |bs| < 3 {
      DecodeLastQuantum(bs);
    } else {
      DecodeEncodedQuanta(bs[3..]);
      DecodeFirstQuantum(bs[0], bs[1], bs[2], bs[3..]);
      assert bs == [bs[0], bs[1], bs[2]] + bs[3..];
    }
  }

  lemma {:induction false} DecodeLastQuantum(bs: seq<Byte>)
    requires |bs| < 3
    ensures DecodeQuanta(Encode(bs)) == Some(bs)
  {
    if |bs| == 1 {
      PaddedQuantum(bs[0], 0);
      assert bs == [bs[0]];
    } else if |bs| == 2 {
      PaddedQuantum(bs[0], bs[1]);
      assert bs == [bs[0], bs[1]];
    }
  }

  lemma {:induction false} DecodeFirstQuantum(a: Byte, b: Byte, c: Byte, rest: seq<Byte>)
    requires DecodeQuanta(Encode(rest)) == Some(rest)
    ensures DecodeQuanta(Encode([a, b, c] + rest)) == Some([a, b, c] + rest)
  {
    EncodeFirstQuantum(a, b, c, rest);
    FullQuantum(a, b, c, Encode(rest), rest);
  }

  /** Encoding goes on quantum by quantum. */
  lemma {:induction false} EncodeFirstQuantum(a: Byte, b: Byte, c: Byte, rest: seq<Byte>)
    ensures Encode([a, b, c] + rest) == Quantum(a, b, c) + Encode(rest)
  {
    assert ([a, b, c] + rest)[3..] == rest;
  }

  /** What is encoded is decoded to the same bytes. */
  lemma {:induction false} RoundTrip(bs: seq<Byte>)
    ensures Decode(Encode(bs)) == Some(bs)
  {
    EncodeIsPlain(bs);
    PlainIsKept(Encode(bs));
    DecodeEncodedQuanta(bs);
  }

  // ---- The encoding, spelled out ----

  const UPPER := "ABCDEFGHIJKLMNOPQRSTUVWXYZ"
  const LOWER := "abcdefghijklmnopqrstuvwxyz"
  const DIGITS := "0123456789"
  const ALPHABET := UPPER + LOWER + DIGITS + "+/"

  lemma LetterIsStandard(i: Sextet)
    ensures |ALPHABET| == 64 && Letter(i) == ALPHABET[i]
  {
    assert |UPPER| == |LOWER| == 26 && |DIGITS| == 10;
    if i < 26 {
      assert ALPHABET[i] == UPPER[i] == ('A' as int + i) as char;
    } else if i < 52 {
      assert ALPHABET[i] == LOWER[i - 26] == ('a' as int + (i - 26)) as char;
    } else if i < 62 {
      assert ALPHABET[i] == DIGITS[i - 52];
    }
  }

  lemma ValueHasLetter(c: char, i: Sextet)
    requires Value(c) == Some(i)
    ensures Letter(i) == c
  {
  }

  /** The alphabet of table 1 of RFC 4648, both ways. */
  lemma AlphabetIsStandard(i: Sextet, c: char)
    ensures |ALPHABET| == 64 && Letter(i) == ALPHABET[i]
    ensures Value(c) == Some(i) <==> c == ALPHABET[i]
    ensures Value(c).Some? <==> c in ALPHABET
  {
    LetterIsStandard(i);
    LetterHasValue(i);
    if Value(c).Some? {
      ValueHasLetter(c, Value(c).value);
      LetterIsStandard(Value(c).value);
    }
    if c in ALPHABET {
      var k: nat :| k < |ALPHABET| && ALPHABET[k] == c;
      LetterIsStandard(k);
      LetterHasValue(k);
    }
  }

  /** A quantum is the three bytes' 24 bits, six at a time, most significant first. */
  lemma QuantumIsBits(a: Byte, b: Byte, c: Byte)
    ensures
      var q := Quantum(a, b, c);
      && |q| == 4 && Value(q[0]).Some? && Value(q[1]).Some? && Value(q[2]).Some? && Value(q[3]).Some?
      && ((Value(q[0]).value * 64 + Value(q[1]).value) * 64 + Value(q[2]).value) * 64 + Value(q[3]).value
         == (a * 256 + b) * 256 + c
  {
    QuantumValues(a, b, c);
  }

  /** Test vectors of section 10 of RFC 4648: "f", "fo", "foo" and "foob". */
  lemma StandardVectors()
    ensures Encode([0x66]) == "Zg==" && Encode([0x66, 0x6F]) == "Zm8=" && Encode([0x66, 0x6F, 0x6F]) == "Zm9v"
    ensures Encode([0x66, 0x6F, 0x6F, 0x62]) == "Zm9vYg=="
  {
    assert Encode([0x66, 0x6F, 0x6F]) == Quantum(0x66, 0x6F, 0x6F) + Encode([]);
    EncodeFirstQuantum(0x66, 0x6F, 0x6F, [0x62]);
    assert [0x66, 0x6F, 0x6F] + [0x62] == [0x66, 0x6F, 0x6F, 0x62];
  }

  /** A carriage return or line feed anywhere makes no difference to what a text decodes to. */
  lemma {:induction false} BreaksAreIgnored(s: string, b: char, t: string)
    requires b == '\r' || b == '\n'
    ensures Decode(s + [b] + t) == Decode(s + t)
  {
    SkipsBreak(s, b, t);
  }

  lemma {:induction false} SkipsBreak(s: string, b: char, t: string)
    requires b == '\r' || b == '\n'
    ensures SkipBreaks(s + [b] + t) == SkipBreaks(s + t)
  {
    if s == "" {
      assert s + [b] + t == [b] + t && s + t == t && ([b] + t)[1..] == t;
    } else {
      SkipsBreak(s[1..], b, t);
      assert (s + [b] + t)[1..] == s[1..] + [b] + t && (s + t)[1..] == s[1..] + t;
    }
  }

  /** Whole quanta of letters of the alphabet, the last one perhaps padded with one or two equals signs. */
  ghost predicate Padded(s: string) {
    && |s| % 4 == 0
    && (s != "" ==>
          && (forall i :: 0 <= i < |s| - 2 ==> Value(s[i]).Some?)
          && (Value(s[|s| - 2]).Some? || (s[|s| - 2] == '=' && s[|s| - 1] == '='))
          && (Value(s[|s| - 1]).Some? || s[|s| - 1] == '='))
  }

  /** Text without line breaks is base64 exactly when it is quanta of letters, the last perhaps padded. */
  lemma {:induction false} DecodableIff(s: string)
    ensures DecodeQuanta(s).Some? <==> Padded(s)
  {
    if |s| == 4 {
      assert s[2..] == [s[2], s[3]] && s[3..] == [s[3]];
    } else if |s| > 4 {
      DecodableIff(s[4..]);
      FirstQuantumDecodes(s);
      PaddedTail(s);
    }
  }

  lemma {:induction false} FirstQuantumDecodes(s: string)
    requires |s| > 4
    ensures DecodeQuanta(s).Some? <==>
      Value(s[0]).Some? && Value(s[1]).Some? && Value(s[2]).Some? && Value(s[3]).Some? && DecodeQuanta(s[4..]).Some?
  {
    assert |s[2..]| > 2 && |s[3..]| > 1;
  }

  lemma PaddedTail(s: string)
    requires |s| > 4
    ensures Padded(s) <==>
      Value(s[0]).Some? && Value(s[1]).Some? && Value(s[2]).Some? && Value(s[3]).Some? && Padded(s[4..])
  {
    var t := s[4..];
    assert |s| == |t| + 4;
    if |t| % 4 == 0 {
      assert t[|t| - 2] == s[|s| - 2] && t[|t| - 1] == s[|s| - 1];
      assert forall i :: 0 <= i < |t| - 2 ==> t[i] == s[i + 4];
      assert forall i :: 4 <= i < |s| - 2 ==> s[i] == t[i - 4];
    }
  }

  /** The bits a padded quantum does not use may be anything. */
  lemma TrailingBitsAreIgnored(a: char, w: Sextet, b: char, x: Sextet, c: char, y: Sextet)
    requires Value(a) == Some(w) && Value(b) == Some(x) && Value(c) == Some(y)
    ensures DecodeQuanta([a, b, '=', '=']) == Some([w * 4 + x / 16])
    ensures DecodeQuanta([a, b, c, '=']) == Some([w * 4 + x / 16, x % 16 * 16 + y / 4])
  {
    var s, t := [a, b, '=', '='], [a, b, c, '='];
    assert s[2..] == "==" && t[3..] == "=" && t[2..][0] == t[2];
  }
}
