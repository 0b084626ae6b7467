/** The base64 check of the request validator: an alphabet pattern test followed by
    "decode, re-encode, compare". The decoder is the lenient one a Node.js Buffer uses
    (padding ignored, a trailing partial group decoded as far as it goes, leftover bits
    dropped); the encoder is the padded encoding of section 4 of RFC 4648. The main result
    is that the check accepts exactly the canonical encodings (sections 3.5 and 4). */
module Base64 {

  type Byte = x: int | 0 <= x < 256
  type Sextet = x: int | 0 <= x < 64

  /** The 64-character alphabet of section 4 of RFC 4648 (Table 1). */
  predicate IsAlphabetChar(c: char)
  {
    ('A' <= c <= 'Z') || ('a' <= c <= 'z') || ('0' <= c <= '9') || c == '+' || c == '/'
  }

  function ValueOf(c: char): (v: Sextet)
    requires IsAlphabetChar(c)
  {
    if 'A' <= c <= 'Z' then c as int - 'A' as int
    else if 'a' <= c <= 'z' then c as int - 'a' as int + 26
    else if '0' <= c <= '9' then c as int - '0' as int + 52
    else if c == '+' then 62
    else 63
  }

  function CharOf(v: Sextet): (c: char)
    ensures IsAlphabetChar(c) && ValueOf(c) == v
  {
    if v < 26 then ('A' as int + v) as char
    else if v < 52 then ('a' as int + v - 26) as char
    else if v < 62 then ('0' as int + v - 52) as char
    else if v == 62 then '+'
    else '/'
  }

  lemma CharOfValueOf(c: char)
    requires IsAlphabetChar(c)
    ensures CharOf(ValueOf(c)) == c
  {
  }

  predicate AllAlphabet(s: string)
  {
    forall i :: 0 <= i < |s| ==> IsAlphabetChar(s[i])
  }

  /** The longest prefix of `s` made of alphabet characters. */
  function AlphabetPrefix(s: string): (p: string)
    ensures |p| <= |s| && p == s[..|p|]
    ensures AllAlphabet(p)
    ensures |p| < |s| ==> !IsAlphabetChar(s[|p|])
  {
    if |s| == 0 || !IsAlphabetChar(s[0]) then "" else [s[0]] + AlphabetPrefix(s[1..])
  }

  /** `/^[A-Za-z0-9+/]*={0,2}$/.test(s)`: since `=` is not in the alphabet, the starred
      part is the longest alphabet prefix and the rest must be at most two `=`. */
  predicate MatchesPattern(s: string)
  {
    var k := |AlphabetPrefix(s)|;
    |s| - k <= 2 && forall i :: k <= i < |s| ==> s[i] == '='
  }

  function Sextets(p: string): (v: seq<Sextet>)
    requires AllAlphabet(p)
    ensures |v| == |p| && forall i :: 0 <= i < |p| ==> v[i] == ValueOf(p[i])
  {
    seq(|p|, i requires 0 <= i < |p| => ValueOf(p[i]))
  }

  // The bit-slicing of one quantum: three bytes are four sextets.
  function Byte0(v0: Sextet, v1: Sextet): Byte { (v0 as int) * 4 + (v1 as int) / 16 }
  function Byte1(v1: Sextet, v2: Sextet): Byte { ((v1 as int) % 16) * 16 + (v2 as int) / 4 }
  function Byte2(v2: Sextet, v3: Sextet): Byte { ((v2 as int) % 4) * 64 + (v3 as int) }
  function Sextet0(b0: Byte): Sextet { (b0 as int) / 4 }
  function Sextet1(b0: Byte, b1: Byte): Sextet { ((b0 as int) % 4) * 16 + (b1 as int) / 16 }
  function Sextet2(b1: Byte, b2: Byte): Sextet { ((b1 as int) % 16) * 4 + (b2 as int) / 64 }
  function Sextet3(b2: Byte): Sextet { (b2 as int) % 64 }

  /** Groups of four sextets give three bytes; a trailing group of three gives two bytes,
      of two gives one byte, of one gives nothing. */
  function DecodeSextets(v: seq<Sextet>): (b: seq<Byte>)
    decreases |v|
  {
    if |v| < 2 then []
    else if |v| == 2 then [Byte0(v[0], v[1])]
    else if |v| == 3 then [Byte0(v[0], v[1]), Byte1(v[1], v[2])]
    else [Byte0(v[0], v[1]), Byte1(v[1], v[2]), Byte2(v[2], v[3])] + DecodeSextets(v[4..])
  }

  /** `Buffer.from(s, 'base64')` for a string that passed the pattern test. */
  function Decode(s: string): seq<Byte>
  {
    DecodeSextets(Sextets(AlphabetPrefix(s)))
  }

  /** `buffer.toString('base64')`: the padded encoding of section 4 of RFC 4648. */
  function Encode(b: seq<Byte>): (s: string)
    ensures |s| % 4 == 0
    ensures |b| > 0 ==> |s| > 0
    decreases |b|
  {
    if |b| == 0 then ""
    else if |b| == 1 then [CharOf(Sextet0(b[0])), CharOf(Sextet1(b[0], 0)), '=', '=']
    else if |b| == 2 then [CharOf(Sextet0(b[0])), CharOf(Sextet1(b[0], b[1])), CharOf(Sextet2(b[1], 0)), '=']
    else Quantum(b[0], b[1], b[2]) + Encode(b[3..])
  }

  function Quantum(b0: Byte, b1: Byte, b2: Byte): (q: string)
    ensures |q| == 4
  {
    [CharOf(Sextet0(b0)), CharOf(Sextet1(b0, b1)), CharOf(Sextet2(b1, b2)), CharOf(Sextet3(b2))]
  }

  /** isValidBase64: the pattern test, then the decode/re-encode round trip. */
  predicate IsValidBase64(s: string)
  {
    MatchesPattern(s) && Encode(Decode(s)) == s
  }

  // ---------------------------------------------------------------------------------
  // Canonical encodings (sections 3.5 and 4 of RFC 4648): whole quanta of four
  // characters, padding only in the last one, and the bits the padding leaves over zero.

  predicate FullQuantum(q: string)
  {
    |q| == 4 && AllAlphabet(q)
  }

  predicate FinalQuantum(q: string)
  {
    && |q| == 4 && IsAlphabetChar(q[0]) && IsAlphabetChar(q[1])
    && ( (IsAlphabetChar(q[2]) && IsAlphabetChar(q[3]))
      || (IsAlphabetChar(q[2]) && q[3] == '=' && ValueOf(q[2]) % 4 == 0)
      || (q[2] == '=' && q[3] == '=' && ValueOf(q[1]) % 16 == 0))
  }

  predicate Canonical(s: string)
    decreases |s|
  {
    if |s| == 0 then true
    else if |s| == 4 then FinalQuantum(s)
    else |s| > 4 && FullQuantum(s[..4]) && Canonical(s[4..])
  }

  // ---------------------------------------------------------------------------------
  // Arithmetic of one quantum

  lemma SextetsBytesSextets(v0: Sextet, v1: Sextet, v2: Sextet, v3: Sextet)
    ensures var b0, b1, b2 := Byte0(v0, v1), Byte1(v1, v2), Byte2(v2, v3);
      && Sextet0(b0) == v0 && Sextet1(b0, b1) == v1 && Sextet2(b1, b2) == v2 && Sextet3(b2) == v3
  {
  }

  lemma BytesSextetsBytes(b0: Byte, b1: Byte, b2: Byte)
    ensures var v0, v1, v2, v3 := Sextet0(b0), Sextet1(b0, b1), Sextet2(b1, b2), Sextet3(b2);
      && Byte0(v0, v1) == b0 && Byte1(v1, v2) == b1 && Byte2(v2, v3) == b2
  {
  }

  /** Zero pad bits: the last sextet before one `=` is a multiple of 4. */
  lemma OnePadArith(v1: Sextet, v2: Sextet)
    requires v2 % 4 == 0
    ensures Sextet2(Byte1(v1, v2), 0) == v2
  {
    var b1 := Byte1(v1, v2);
    assert b1 % 16 == v2 / 4;
  }

  /** Zero pad bits: the last sextet before `==` is a multiple of 16. */
  lemma TwoPadArith(v0: Sextet, v1: Sextet)
    requires v1 % 16 == 0
    ensures Sextet1(Byte0(v0, v1), 0) == v1
  {
    var b0 := Byte0(v0, v1);
    assert b0 % 4 == v1 / 16;
  }

  // ---------------------------------------------------------------------------------
  // Structure lemmas

  lemma PrefixCons(c: char, r: string)
    requires IsAlphabetChar(c)
    ensures AlphabetPrefix([c] + r) == [c] + AlphabetPrefix(r)
  {
    assert ([c] + r)[0] == c && ([c] + r)[1..] == r;
  }

  lemma {:induction false} PrefixAppend(a: string, t: string)
    requires AllAlphabet(a)
    ensures AlphabetPrefix(a + t) == a + AlphabetPrefix(t)
    decreases |a|
  {
    if |a| > 0 {
      var r := a[1..] + t;
      assert a + t == [a[0]] + r;
      PrefixCons(a[0], r);
      PrefixAppend(a[1..], t);
      assert [a[0]] + (a[1..] + AlphabetPrefix(t)) == a + AlphabetPrefix(t);
    } else {
      assert a + t == t;
    }
  }

  lemma NoAlphabetPrefix(t: string)
    requires |t| > 0 && t[0] == '='
    ensures AlphabetPrefix(t) == ""
  {
  }

  /** Decoding a full quantum followed by more text. */
  lemma DecodeQuantumAppend(q: string, t: string)
    requires FullQuantum(q)
    ensures var v := Sextets(q);
      Decode(q + t) == [Byte0(v[0], v[1]), Byte1(v[1], v[2]), Byte2(v[2], v[3])] + Decode(t)
  {
    PrefixAppend(q, t);
    var p := AlphabetPrefix(t);
    assert Sextets(q + p) == Sextets(q) + Sextets(p);
    assert (Sextets(q) + Sextets(p))[4..] == Sextets(p);
  }

  /** Decoding a final quantum with one or two pad characters. */
  lemma DecodePadded(s: string)
    requires |s| == 4 && IsAlphabetChar(s[0]) && IsAlphabetChar(s[1])
    requires s[3] == '=' && (s[2] == '=' || IsAlphabetChar(s[2]))
    ensures s[2] == '=' ==> Decode(s) == [Byte0(ValueOf(s[0]), ValueOf(s[1]))]
    ensures s[2] != '=' ==>
      Decode(s) == [Byte0(ValueOf(s[0]), ValueOf(s[1])), Byte1(ValueOf(s[1]), ValueOf(s[2]))]
  {
    if s[2] == '=' {
      assert s == s[..2] + s[2..];
      PrefixAppend(s[..2], s[2..]);
      NoAlphabetPrefix(s[2..]);
    } else {
      assert s == s[..3] + s[3..];
      PrefixAppend(s[..3], s[3..]);
      NoAlphabetPrefix(s[3..]);
    }
  }

  lemma EncodeAppendQuantum(x: seq<Byte>, y: seq<Byte>)
    requires |x| == 3
    ensures Encode(x + y) == Quantum(x[0], x[1], x[2]) + Encode(y)
  {
    assert (x + y)[3..] == y;
  }

  /** Every encoding is canonical. */
  lemma {:induction false} EncodeIsCanonical(b: seq<Byte>)
    ensures Canonical(Encode(b))
    decreases |b|
  {
    if |b| == 1 {
      assert ValueOf(CharOf(Sextet1(b[0], 0))) % 16 == 0;
    } else if |b| == 2 {
      assert ValueOf(CharOf(Sextet2(b[1], 0))) % 4 == 0;
    } else if |b| >= 3 {
      var s, q, e := Encode(b), Quantum(b[0], b[1], b[2]), Encode(b[3..]);
      assert s == q + e;
      EncodeIsCanonical(b[3..]);
      if |e| == 0 {
        assert s == q;
      } else {
        assert s[..4] == q && s[4..] == e;
      }
    }
  }

  lemma DecodeEncodeOne(b0: Byte)
    ensures Decode(Encode([b0])) == [b0]
  {
    var s := Encode([b0]);
    var v0, v1 := Sextet0(b0), Sextet1(b0, 0);
    assert s == [CharOf(v0), CharOf(v1), '=', '='];
    DecodePadded(s);
    assert ValueOf(s[0]) == v0 && ValueOf(s[1]) == v1;
    BytesSextetsBytes(b0, 0, 0);
  }

  lemma DecodeEncodeTwo(b0: Byte, b1: Byte)
    ensures Decode(Encode([b0, b1])) == [b0, b1]
  {
    var s := Encode([b0, b1]);
    var v0, v1, v2 := Sextet0(b0), Sextet1(b0, b1), Sextet2(b1, 0);
    assert s == [CharOf(v0), CharOf(v1), CharOf(v2), '='];
    DecodePadded(s);
    assert ValueOf(s[0]) == v0 && ValueOf(s[1]) == v1 && ValueOf(s[2]) == v2;
    BytesSextetsBytes(b0, b1, 0);
  }

  /** Decoding undoes encoding. */
  lemma {:induction false} DecodeEncode(b: seq<Byte>)
    ensures Decode(Encode(b)) == b
    decreases |b|
  {
    if |b| == 1 {
      DecodeEncodeOne(b[0]);
    } else if |b| == 2 {
      DecodeEncodeTwo(b[0], b[1]);
    } else if |b| >= 3 {
      DecodeEncode(b[3..]);
      DecodeEncodeQuantum(b);
    }
  }

  /** One step of the round trip: the first three bytes come back from their quantum. */
  lemma DecodeEncodeQuantum(b: seq<Byte>)
    requires |b| >= 3 && Decode(Encode(b[3..])) == b[3..]
    ensures Decode(Encode(b)) == b
  {
    var q, e := Quantum(b[0], b[1], b[2]), Encode(b[3..]);
    assert Encode(b) == q + e;
    QuantumSextets(b[0], b[1], b[2]);
    DecodeQuantumAppend(q, e);
    BytesSextetsBytes(b[0], b[1], b[2]);
    SplitThree(b);
  }

  lemma SplitThree(b: seq<Byte>)
    requires |b| >= 3
    ensures b == [b[0], b[1], b[2]] + b[3..]
  {
  }

  /** A quantum is four alphabet characters whose values are the bytes' sextets. */
  lemma QuantumSextets(b0: Byte, b1: Byte, b2: Byte)
    ensures FullQuantum(Quantum(b0, b1, b2))
    ensures Sextets(Quantum(b0, b1, b2)) == [Sextet0(b0), Sextet1(b0, b1), Sextet2(b1, b2), Sextet3(b2)]
  {
    var q := Quantum(b0, b1, b2);
    assert forall i :: 0 <= i < 4 ==> IsAlphabetChar(q[i]);
  }

  lemma QuantumOfSextets(q: string)
    requires FullQuantum(q)
    ensures var v := Sextets(q);
      Quantum(Byte0(v[0], v[1]), Byte1(v[1], v[2]), Byte2(v[2], v[3])) == q
  {
    var v := Sextets(q);
    SextetsBytesSextets(v[0], v[1], v[2], v[3]);
    CharOfValueOf(q[0]);
    CharOfValueOf(q[1]);
    CharOfValueOf(q[2]);
    CharOfValueOf(q[3]);
  }

  lemma FullQuantumReencodes(s: string)
    requires FullQuantum(s)
    ensures Encode(Decode(s)) == s
  {
    assert s + "" == s;
    DecodeQuantumAppend(s, "");
    QuantumOfSextets(s);
    EncodeAppendQuantum(Decode(s), []);
  }

  lemma EncodeTwoBytesOfSextets(v0: Sextet, v1: Sextet, v2: Sextet)
    requires v2 % 4 == 0
    ensures Encode([Byte0(v0, v1), Byte1(v1, v2)]) == [CharOf(v0), CharOf(v1), CharOf(v2), '=']
  {
    SextetsBytesSextets(v0, v1, v2, 0);
    OnePadArith(v1, v2);
  }

  lemma EncodeOneByteOfSextets(v0: Sextet, v1: Sextet)
    requires v1 % 16 == 0
    ensures Encode([Byte0(v0, v1)]) == [CharOf(v0), CharOf(v1), '=', '=']
  {
    SextetsBytesSextets(v0, v1, 0, 0);
    TwoPadArith(v0, v1);
  }

  lemma OnePadReencodes(s: string)
    requires |s| == 4 && IsAlphabetChar(s[0]) && IsAlphabetChar(s[1]) && IsAlphabetChar(s[2])
    requires s[3] == '=' && ValueOf(s[2]) % 4 == 0
    ensures Encode(Decode(s)) == s
  {
    DecodePadded(s);
    EncodeTwoBytesOfSextets(ValueOf(s[0]), ValueOf(s[1]), ValueOf(s[2]));
    CharOfValueOf(s[0]);
    CharOfValueOf(s[1]);
    CharOfValueOf(s[2]);
  }

  lemma TwoPadReencodes(s: string)
    requires |s| == 4 && IsAlphabetChar(s[0]) && IsAlphabetChar(s[1])
    requires s[2] == '=' && s[3] == '=' && ValueOf(s[1]) % 16 == 0
    ensures Encode(Decode(s)) == s
  {
    DecodePadded(s);
    EncodeOneByteOfSextets(ValueOf(s[0]), ValueOf(s[1]));
    CharOfValueOf(s[0]);
    CharOfValueOf(s[1]);
  }

  /** Re-encoding a final quantum gives it back. */
  lemma FinalQuantumReencodes(s: string)
    requires FinalQuantum(s)
    ensures Encode(Decode(s)) == s
  {
    if AllAlphabet(s) {
      FullQuantumReencodes(s);
    } else if IsAlphabetChar(s[2]) {
      OnePadReencodes(s);
    } else {
      TwoPadReencodes(s);
    }
  }

  /** Re-encoding a canonical string gives it back. */
  lemma {:induction false} CanonicalReencodes(s: string)
    requires Canonical(s)
    ensures Encode(Decode(s)) == s
    decreases |s|
  {
    if |s| == 4 {
      FinalQuantumReencodes(s);
    } else if |s| > 4 {
      var q, t := s[..4], s[4..];
      assert s == q + t;
      DecodeQuantumAppend(q, t);
      var v := Sextets(q);
      var x: seq<Byte> := [Byte0(v[0], v[1]), Byte1(v[1], v[2]), Byte2(v[2], v[3])];
      EncodeAppendQuantum(x, Decode(t));
      QuantumOfSextets(q);
      CanonicalReencodes(t);
    }
  }

  /** A canonical string passes the pattern test. */
  lemma {:induction false} CanonicalMatchesPattern(s: string)
    requires Canonical(s)
    ensures MatchesPattern(s)
    decreases |s|
  {
    if |s| == 4 {
      if AllAlphabet(s) {
        PrefixAppend(s, "");
        assert s + "" == s;
      } else if IsAlphabetChar(s[2]) {
        assert s == s[..3] + s[3..];
        PrefixAppend(s[..3], s[3..]);
        NoAlphabetPrefix(s[3..]);
      } else {
        assert s == s[..2] + s[2..];
        PrefixAppend(s[..2], s[2..]);
        NoAlphabetPrefix(s[2..]);
      }
    } else if |s| > 4 {
      var q, t := s[..4], s[4..];
      assert s == q + t;
      PrefixAppend(q, t);
      CanonicalMatchesPattern(t);
      var k := |AlphabetPrefix(t)|;
      assert forall i :: 4 + k <= i < |s| ==> s[i] == t[i - 4];
    }
  }

  /** The validator accepts exactly the canonical padded encodings. */
  lemma ValidIffCanonical(s: string)
    ensures IsValidBase64(s) <==> Canonical(s)
  {
    if IsValidBase64(s) {
      EncodeIsCanonical(Decode(s));
    }
    if Canonical(s) {
      CanonicalReencodes(s);
      CanonicalMatchesPattern(s);
    }
  }

  /** Every accepted string is a whole number of four-character quanta. */
  lemma ValidLengthIsMultipleOfFour(s: string)
    requires IsValidBase64(s)
    ensures |s| % 4 == 0
  {
  }

  /** Every encoder output is accepted and decodes to the bytes it encodes. */
  lemma EncodingsAreAccepted(b: seq<Byte>)
    ensures IsValidBase64(Encode(b))
    ensures Decode(Encode(b)) == b
  {
    EncodeIsCanonical(b);
    ValidIffCanonical(Encode(b));
    DecodeEncode(b);
  }

  /** "QQ==" (the byte 0x41) is accepted; "QR==" leaves a non-zero pad bit and "QQ" lacks
      its padding, so both are refused. */
  lemma PaddingExamples()
    ensures IsValidBase64("QQ==")
    ensures !IsValidBase64("QR==")
    ensures !IsValidBase64("QQ")
  {
    ValidIffCanonical("QQ==");
    ValidIffCanonical("QR==");
    ValidIffCanonical("QQ");
    assert ValueOf('Q') == 16;
    assert ValueOf('R') == 17;
  }
}
