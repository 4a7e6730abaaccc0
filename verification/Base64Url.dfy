/** `_b64url_uint` (signer.py:27-29): Base64urlUInt of section 2 of RFC 7518, over the URL-safe
    alphabet of section 5 of RFC 4648. */
module Base64Url {
  import opened Options

  type Octet = x: int | 0 <= x < 256
  type Sextet = x: int | 0 <= x < 64

  function BitLength(v: nat): nat {
    if v == 0 then 0 else 1 + BitLength(v / 2)
  }

  /** `to_bytes(length, "big")`; it raises when the value does not fit. */
  function ToBytes(v: nat, length: nat): Option<seq<Octet>> {
    if length == 0 then (if v == 0 then Some([]) else None)
    else
      var high := ToBytes(v / 256, length - 1);
      if high.None? then None else Some(high.value + [v % 256])
  }

  function Symbol(x: Sextet): char {
    if x < 26 then ('A' as int + x) as char
    else if x < 52 then ('a' as int + x - 26) as char
    else if x < 62 then ('0' as int + x - 52) as char
    else if x == 62 then '-' else '_'
  }

  // The four sextets of three octets.
  function Bits1(a: Octet): Sextet { a / 4 }

  function Bits2(a: Octet, b: Octet): Sextet { a % 4 * 16 + b / 16 }

  function Bits3(b: Octet, c: Octet): Sextet { b % 16 * 4 + c / 64 }

  function Bits4(c: Octet): Sextet { c % 64 }

  /** `urlsafe_b64encode`, padding included. */
  function Encode(b: seq<Octet>): string {
    if b == [] then ""
    else if |b| == 1 then [Symbol(Bits1(b[0])), Symbol(Bits2(b[0], 0)), '=', '=']
    else if |b| == 2 then
      [Symbol(Bits1(b[0])), Symbol(Bits2(b[0], b[1])), Symbol(Bits3(b[1], 0)), '=']
    else
      [Symbol(Bits1(b[0])), Symbol(Bits2(b[0], b[1])), Symbol(Bits3(b[1], b[2])), Symbol(Bits4(b[2]))]
      + Encode(b[3..])
  }

  /** `rstrip(b"=")`. */
  function StripPadding(s: string): string {
    if s != "" && s[|s| - 1] == '=' then StripPadding(s[..|s| - 1]) else s
  }

  function Base64UrlUint(v: nat): Option<string> {
    var octets := ToBytes(v, (BitLength(v) + 7) / 8);
    if octets.None? then None else Some(StripPadding(Encode(octets.value)))
  }

  // --- An independent decoder -------------------------------------------------

  function Value(c: char): Option<Sextet> {
    if 'A' <= c <= 'Z' then Some(c as int - 'A' as int)
    else if 'a' <= c <= 'z' then Some(c as int - 'a' as int + 26)
    else if '0' <= c <= '9' then Some(c as int - '0' as int + 52)
    else if c == '-' then Some(62)
    else if c == '_' then Some(63)
    else None
  }

  function Values(s: string): Option<seq<Sextet>> {
    if s == "" then Some([])
    else
      var x, rest := Value(s[0]), Values(s[1..]);
      if x.None? || rest.None? then None else Some([x.value] + rest.value)
  }

  function First(a: Sextet, b: Sextet): Octet {
    a * 4 + b / 16
  }

  function Second(b: Sextet, c: Sextet): Octet {
    b % 16 * 16 + c / 4
  }

  function Third(c: Sextet, d: Sextet): Octet {
    c % 4 * 64 + d
  }

  /** Whole octets out of a run of sextets; a lone sextet is malformed. */
  function Octets(x: seq<Sextet>): Option<seq<Octet>> {
    if x == [] then Some([])
    else if |x| == 1 then None
    else if |x| == 2 then Some([First(x[0], x[1])])
    else if |x| == 3 then Some([First(x[0], x[1]), Second(x[1], x[2])])
    else
      var rest := Octets(x[4..]);
      if rest.None? then None
      else Some([First(x[0], x[1]), Second(x[1], x[2]), Third(x[2], x[3])] + rest.value)
  }

  function Decode(s: string): Option<seq<Octet>> {
    var x := Values(s);
    if x.None? then None else Octets(x.value)
  }

  function FromBytes(b: seq<Octet>): nat {
    if b == [] then 0 else FromBytes(b[..|b| - 1]) * 256 + b[|b| - 1]
  }

  // --- Octets -----------------------------------------------------------------

  function ByteLength(v: nat): nat {
    if v == 0 then 0 else 1 + ByteLength(v / 256)
  }

  lemma EightBits(v: nat)
    requires v >= 256
    ensures BitLength(v) == 8 + BitLength(v / 256)
  {
    var a := v / 2;
    var b := a / 2;
    var c := b / 2;
    var d := c / 2;
    var e := d / 2;
    var f := e / 2;
    var g := f / 2;
    assert g / 2 == v / 256;
    assert BitLength(v) == 1 + BitLength(a);
    assert BitLength(a) == 1 + BitLength(b);
    assert BitLength(b) == 1 + BitLength(c);
    assert BitLength(c) == 1 + BitLength(d);
    assert BitLength(d) == 1 + BitLength(e);
    assert BitLength(e) == 1 + BitLength(f);
    assert BitLength(f) == 1 + BitLength(g);
    assert BitLength(g) == 1 + BitLength(g / 2);
  }

  lemma {:induction false} SmallBitLength(v: nat, k: nat, bound: nat)
    requires bound == Power2(k) && v < bound
    ensures BitLength(v) <= k
    decreases k
  {
    if v != 0 {
      SmallBitLength(v / 2, k - 1, Power2(k - 1));
    }
  }

  function Power2(k: nat): nat {
    if k == 0 then 1 else 2 * Power2(k - 1)
  }

  /** The length Python computes from the bit length is the number of octets. */
  lemma {:induction false} LengthIsByteLength(v: nat)
    ensures (BitLength(v) + 7) / 8 == ByteLength(v)
  {
    if v >= 256 {
      EightBits(v);
      LengthIsByteLength(v / 256);
    } else if v > 0 {
      assert Power2(8) == 256;
      SmallBitLength(v, 8, 256);
      assert v / 256 == 0;
    }
  }

  lemma AppendOctet(high: seq<Octet>, x: Octet)
    ensures FromBytes(high + [x]) == FromBytes(high) * 256 + x
  {
    assert (high + [x])[..|high|] == high;
  }

  /** `b` is the big-endian octets of `v`, none of them to spare. */
  predicate Denotes(b: seq<Octet>, v: nat) {
    FromBytes(b) == v && |b| == ByteLength(v) && (v > 0 ==> b != [] && b[0] != 0)
  }

  lemma OneOctetMore(high: seq<Octet>, q: nat, x: Octet)
    requires Denotes(high, q) && q * 256 + x > 0
    ensures Denotes(high + [x], q * 256 + x)
  {
    AppendOctet(high, x);
    assert (q * 256 + x) / 256 == q;
  }

  /** Big-endian octets: they denote the value, and there is no leading zero. */
  lemma {:induction false} BytesDenote(v: nat)
    ensures var b := ToBytes(v, ByteLength(v)); b.Some? && Denotes(b.value, v)
  {
    if v > 0 {
      var q, x: Octet := v / 256, v % 256;
      BytesDenote(q);
      assert ToBytes(v, ByteLength(v)) == Some(ToBytes(q, ByteLength(q)).value + [x]);
      OneOctetMore(ToBytes(q, ByteLength(q)).value, q, x);
      assert v == q * 256 + x;
    }
  }

  /** No shorter string of octets denotes the same value. */
  lemma {:induction false} NoShorterOctets(b: seq<Octet>)
    ensures ByteLength(FromBytes(b)) <= |b|
  {
    if b != [] {
      NoShorterOctets(b[..|b| - 1]);
      var v := FromBytes(b);
      assert v / 256 == FromBytes(b[..|b| - 1]);
    }
  }

  // --- Text -------------------------------------------------------------------

  lemma SymbolValue(x: Sextet)
    ensures Value(Symbol(x)) == Some(x) && Symbol(x) != '='
  {
  }

  /** The sextets of some octets, the last one filled with zero bits. */
  function Sextets(b: seq<Octet>): seq<Sextet> {
    if b == [] then []
    else if |b| == 1 then [Bits1(b[0]), Bits2(b[0], 0)]
    else if |b| == 2 then [Bits1(b[0]), Bits2(b[0], b[1]), Bits3(b[1], 0)]
    else [Bits1(b[0]), Bits2(b[0], b[1]), Bits3(b[1], b[2]), Bits4(b[2])] + Sextets(b[3..])
  }

  function Symbols(x: seq<Sextet>): string {
    if x == [] then "" else [Symbol(x[0])] + Symbols(x[1..])
  }

  lemma {:induction false} SymbolsOfAppend(x: seq<Sextet>, y: seq<Sextet>)
    ensures Symbols(x + y) == Symbols(x) + Symbols(y)
  {
    if x == [] {
      assert x + y == y;
    } else {
      assert (x + y)[1..] == x[1..] + y;
      SymbolsOfAppend(x[1..], y);
    }
  }

  lemma {:induction false} ValuesOfSymbols(x: seq<Sextet>)
    ensures Values(Symbols(x)) == Some(x)
    ensures forall i | 0 <= i < |Symbols(x)| :: Symbols(x)[i] != '='
  {
    if x != [] {
      SymbolValue(x[0]);
      ValuesOfSymbols(x[1..]);
      assert Symbols(x)[1..] == Symbols(x[1..]);
      assert [x[0]] + x[1..] == x;
    }
  }

  lemma BitsBack(a: Octet, b: Octet, c: Octet)
    ensures First(Bits1(a), Bits2(a, b)) == a
    ensures Second(Bits2(a, b), Bits3(b, c)) == b
    ensures Third(Bits3(b, c), Bits4(c)) == c
  {
  }

  lemma OctetsOfGroup(a: Octet, b: Octet, c: Octet, rest: seq<Sextet>, more: seq<Octet>)
    requires Octets(rest) == Some(more)
    ensures Octets([Bits1(a), Bits2(a, b), Bits3(b, c), Bits4(c)] + rest) == Some([a, b, c] + more)
  {
    var x := [Bits1(a), Bits2(a, b), Bits3(b, c), Bits4(c)] + rest;
    assert x[4..] == rest;
    BitsBack(a, b, c);
  }

  lemma SextetsGroup(b: seq<Octet>)
    requires |b| >= 3
    ensures Sextets(b) == [Bits1(b[0]), Bits2(b[0], b[1]), Bits3(b[1], b[2]), Bits4(b[2])] + Sextets(b[3..])
  {
  }

  lemma OctetsOfPair(x: Sextet, y: Sextet)
    ensures Octets([x, y]) == Some([First(x, y)])
  {
  }

  lemma OctetsOfOne(a: Octet)
    ensures Octets([Bits1(a), Bits2(a, 0)]) == Some([a])
  {
    OctetsOfPair(Bits1(a), Bits2(a, 0));
    BitsBack(a, 0, 0);
  }

  lemma OctetsOfTwo(a: Octet, b: Octet)
    ensures Octets([Bits1(a), Bits2(a, b), Bits3(b, 0)]) == Some([a, b])
  {
    BitsBack(a, b, 0);
  }

  lemma {:induction false} OctetsOfSextets(b: seq<Octet>)
    ensures Octets(Sextets(b)) == Some(b)
  {
    if |b| >= 3 {
      OctetsOfSextets(b[3..]);
      OctetsStep(b);
    } else if |b| == 2 {
      OctetsOfTwo(b[0], b[1]);
      assert [b[0], b[1]] == b;
    } else if |b| == 1 {
      OctetsOfOne(b[0]);
      assert [b[0]] == b;
    }
  }

  lemma OctetsStep(b: seq<Octet>)
    requires |b| >= 3 && Octets(Sextets(b[3..])) == Some(b[3..])
    ensures Octets(Sextets(b)) == Some(b)
  {
    SextetsGroup(b);
    OctetsOfGroup(b[0], b[1], b[2], Sextets(b[3..]), b[3..]);
    assert [b[0], b[1], b[2]] + b[3..] == b;
  }

  function Padding(b: seq<Octet>): string {
    if |b| % 3 == 1 then "==" else if |b| % 3 == 2 then "=" else ""
  }

  lemma TwoSymbols(a: Sextet, b: Sextet)
    ensures Symbols([a, b]) == [Symbol(a), Symbol(b)]
  {
    SymbolsOfAppend([a], [b]);
    assert [a] + [b] == [a, b] && [a][1..] == [] && [b][1..] == [];
  }

  lemma ThreeSymbols(a: Sextet, b: Sextet, c: Sextet)
    ensures Symbols([a, b, c]) == [Symbol(a), Symbol(b), Symbol(c)]
  {
    TwoSymbols(b, c);
    assert [a, b, c][1..] == [b, c];
  }

  lemma {:induction false} EncodeIsSymbolsAndPadding(b: seq<Octet>)
    ensures Encode(b) == Symbols(Sextets(b)) + Padding(b)
  {
    if |b| >= 3 {
      EncodeIsSymbolsAndPadding(b[3..]);
      WholeGroup(b);
    } else if |b| == 2 {
      ThreeSymbols(Bits1(b[0]), Bits2(b[0], b[1]), Bits3(b[1], 0));
    } else if |b| == 1 {
      TwoSymbols(Bits1(b[0]), Bits2(b[0], 0));
    }
  }

  lemma PaddingOfRest(b: seq<Octet>)
    requires |b| >= 3
    ensures Padding(b) == Padding(b[3..])
  {
    assert |b| % 3 == |b[3..]| % 3;
  }

  lemma EncodeGroup(b: seq<Octet>)
    requires |b| >= 3
    ensures Encode(b) ==
      [Symbol(Bits1(b[0])), Symbol(Bits2(b[0], b[1])), Symbol(Bits3(b[1], b[2])), Symbol(Bits4(b[2]))] + Encode(b[3..])
  {
  }

  lemma WholeGroup(b: seq<Octet>)
    requires |b| >= 3 && Encode(b[3..]) == Symbols(Sextets(b[3..])) + Padding(b[3..])
    ensures Encode(b) == Symbols(Sextets(b)) + Padding(b)
  {
    PaddingOfRest(b);
    EncodeGroup(b);
    SextetsGroup(b);
    Glue(Bits1(b[0]), Bits2(b[0], b[1]), Bits3(b[1], b[2]), Bits4(b[2]), Sextets(b[3..]), Padding(b[3..]));
  }

  lemma Glue(a: Sextet, b: Sextet, c: Sextet, d: Sextet, rest: seq<Sextet>, pad: string)
    ensures [Symbol(a), Symbol(b), Symbol(c), Symbol(d)] + (Symbols(rest) + pad) == Symbols([a, b, c, d] + rest) + pad
  {
    SymbolsOfAppend([a, b, c, d], rest);
    FourSymbols([a, b, c, d]);
  }

  lemma FourSymbols(x: seq<Sextet>)
    requires |x| == 4
    ensures Symbols(x) == [Symbol(x[0]), Symbol(x[1]), Symbol(x[2]), Symbol(x[3])]
  {
    assert Symbols(x) == [Symbol(x[0])] + Symbols(x[1..]);
    assert Symbols(x[1..]) == [Symbol(x[1])] + Symbols(x[1..][1..]);
    assert Symbols(x[1..][1..]) == [Symbol(x[2])] + Symbols(x[1..][1..][1..]);
    assert Symbols(x[1..][1..][1..]) == [Symbol(x[3])] + Symbols(x[1..][1..][1..][1..]);
  }

  lemma StripExactly(s: string, pad: string)
    requires pad == "" || pad == "=" || pad == "=="
    requires s == "" || s[|s| - 1] != '='
    ensures StripPadding(s + pad) == s
  {
    assert (s + "=")[..|s|] == s && (s + "==")[..|s| + 1] == s + "=";
    assert s + "" == s;
    assert StripPadding(s + "=") == StripPadding(s);
    assert StripPadding(s + "==") == StripPadding(s + "=");
  }

  /** Decoding the unpadded text gives the octets back, and no padding survives in it. */
  lemma TextRoundTrip(b: seq<Octet>)
    ensures var text := StripPadding(Encode(b));
      Decode(text) == Some(b) && (forall i | 0 <= i < |text| :: text[i] != '=' && Value(text[i]).Some?)
  {
    EncodeIsSymbolsAndPadding(b);
    ValuesOfSymbols(Sextets(b));
    StripExactly(Symbols(Sextets(b)), Padding(b));
    OctetsOfSextets(b);
    SymbolsAreSymbols(Sextets(b));
  }

  lemma {:induction false} SymbolsAreSymbols(x: seq<Sextet>)
    ensures forall i | 0 <= i < |Symbols(x)| :: Value(Symbols(x)[i]).Some?
  {
    if x != [] {
      SymbolValue(x[0]);
      SymbolsAreSymbols(x[1..]);
    }
  }

  lemma UintText(v: nat)
    requires ToBytes(v, ByteLength(v)).Some?
    ensures Base64UrlUint(v) == Some(StripPadding(Encode(ToBytes(v, ByteLength(v)).value)))
  {
    LengthIsByteLength(v);
  }

  /** Base64urlUInt: for every value the text exists and decodes to the value's minimal octets. */
  lemma UintRoundTrip(v: nat)
    ensures Base64UrlUint(v).Some?
    ensures var b := Decode(Base64UrlUint(v).value);
      && b.Some? && FromBytes(b.value) == v
      && (v > 0 ==> b.value != [] && b.value[0] != 0)
      && |b.value| == ByteLength(v)
  {
    BytesDenote(v);
    UintText(v);
    TextRoundTrip(ToBytes(v, ByteLength(v)).value);
  }

  /** The octets are as few as can denote the value. */
  lemma UintMinimal(v: nat, c: seq<Octet>)
    requires FromBytes(c) == v
    ensures Base64UrlUint(v).Some? && Decode(Base64UrlUint(v).value).Some?
    ensures |Decode(Base64UrlUint(v).value).value| <= |c|
  {
    UintRoundTrip(v);
    NoShorterOctets(c);
  }

  /** Different values never share a text. */
  lemma UintInjective(v: nat, w: nat)
    requires Base64UrlUint(v) == Base64UrlUint(w)
    ensures v == w
  {
    UintRoundTrip(v);
    UintRoundTrip(w);
  }

  /** Zero is the one value where the text is not the RFC's: section 2 of RFC 7518 asks for a
      zero octet, "AA", and the code answers the empty text. */
  lemma EmptyTextIffZero(v: nat)
    ensures Base64UrlUint(v) == Some("") <==> v == 0
  {
    UintRoundTrip(v);
    assert BitLength(0) == 0;
    assert Decode("") == Some([]);
  }

  // --- Against the standards' own examples ------------------------------------

  /** Section 10 of RFC 4648, without the padding; and two octets that need '-' and '_'. */
  lemma TestVectors()
    ensures StripPadding(Encode([102])) == "Zg"
    ensures StripPadding(Encode([102, 111])) == "Zm8"
    ensures StripPadding(Encode([102, 111, 111])) == "Zm9v"
    ensures StripPadding(Encode([251, 240])) == "-_A"
  {
    StripExactly("Zg", "==");
    StripExactly("Zm8", "=");
    StripExactly("Zm9v", "");
    StripExactly("-_A", "=");
  }

  lemma ExponentOctets()
    ensures ToBytes(65537, 3) == Some([1, 0, 1])
  {
    var none: seq<Octet> := [];
    assert none + [1] == [1] && [1] + [0] == [1, 0] && [1, 0] + [1] == [1, 0, 1];
    assert ToBytes(0, 0) == Some(none);
    assert ToBytes(1, 1) == Some([1]);
    assert ToBytes(256, 2) == Some([1, 0]);
  }

  lemma ExponentLength()
    ensures (BitLength(65537) + 7) / 8 == 3
  {
    LengthIsByteLength(65537);
    assert ByteLength(1) == 1;
    assert ByteLength(256) == 2;
  }

  lemma ThreeOctets()
    ensures StripPadding(Encode([1, 0, 1])) == "AQAB"
  {
    StripExactly("AQAB", "");
  }

  /** The public exponent 65537 is published as "AQAB" (section 6.3.1.2 of RFC 7518). */
  lemma ExponentText()
    ensures Base64UrlUint(65537) == Some("AQAB")
  {
    ExponentLength();
    ExponentOctets();
    ThreeOctets();
  }
}
