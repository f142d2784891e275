/** The text rules of manifests: lengths, name patterns, paths and Base64. */
module ManifestText {
  /** Lengths are counted in UTF-16 code units. */
  function Units(s: string): nat {
    if s == "" then 0 else Units(s[..|s| - 1]) + if s[|s| - 1] as int >= 0x10000 then 2 else 1
  }

  function Utf8Bytes(s: string): nat {
    if s == "" then 0 else
      var c := s[|s| - 1] as int;
      Utf8Bytes(s[..|s| - 1]) + if c < 0x80 then 1 else if c < 0x800 then 2 else if c < 0x10000 then 3 else 4
  }

  predicate Lower(c: char) { 'a' <= c <= 'z' }

  predicate Letter(c: char) { 'a' <= c <= 'z' || 'A' <= c <= 'Z' }

  predicate Digit(c: char) { '0' <= c <= '9' }

  /** Runs of lower-case letters and digits, joined by single hyphens. */
  predicate ValidName(s: string) {
    && s != "" && (forall c | c in s :: Lower(c) || Digit(c) || c == '-')
    && s[0] != '-' && s[|s| - 1] != '-'
    && (forall i | 0 < i < |s| :: !(s[i - 1] == '-' && s[i] == '-'))
  }

  predicate ValidVariableName(s: string) {
    && s != "" && (Letter(s[0]) || s[0] == '_')
    && (forall c | c in s :: Letter(c) || Digit(c) || c == '_')
  }

  predicate ValidSecretName(s: string) {
    && 1 <= |s| <= 128 && s != "."
    && (forall c | c in s :: Letter(c) || Digit(c) || c == '_' || c == '.' || c == '-')
    && (forall i | 0 < i < |s| :: !(s[i - 1] == '.' && s[i] == '.'))
  }

  function Split(s: string): (parts: seq<string>)
    ensures parts != []
  {
    if s == "" then [""] else
      var before := Split(s[..|s| - 1]);
      var c := s[|s| - 1];
      if c == '/' then before + [""] else before[..|before| - 1] + [before[|before| - 1] + [c]]
  }

  /** An absolute path to a file, with no step upwards. */
  predicate SafeFilePath(s: string) {
    s != "" && s[0] == '/' && s[|s| - 1] != '/' && ".." !in Split(s)
  }

  // ---- Base64 -------------------------------------------------------------------------

  function Digit64(c: char): int {
    if 'A' <= c <= 'Z' then c as int - 'A' as int
    else if 'a' <= c <= 'z' then c as int - 'a' as int + 26
    else if Digit(c) then c as int - '0' as int + 52
    else if c == '+' then 62 else if c == '/' then 63 else -1
  }

  function Unpadded(s: string): string {
    if s != "" && s[|s| - 1] == '=' then Unpadded(s[..|s| - 1]) else s
  }

  type Sextet = d: int | 0 <= d < 64

  type Byte = b: int | 0 <= b < 256

  function Byte0(a: int, b: int): Byte
    requires 0 <= a < 64 && 0 <= b < 64
  {
    a * 4 + b / 16
  }

  function Byte1(b: int, c: int): Byte
    requires 0 <= b < 64 && 0 <= c < 64
  {
    b % 16 * 16 + c / 4
  }

  function Byte2(c: int, d: int): Byte
    requires 0 <= c < 64 && 0 <= d < 64
  {
    c % 4 * 64 + d
  }

  function Digit1(x: int, y: int): Sextet
    requires 0 <= x < 256 && 0 <= y < 256
  {
    x % 4 * 16 + y / 16
  }

  function Digit2(y: int, z: int): Sextet
    requires 0 <= y < 256 && 0 <= z < 256
  {
    y % 16 * 4 + z / 64
  }

  /** A lone last digit and left-over bits are dropped. */
  function Decode(ds: seq<Sextet>): seq<Byte> {
    if |ds| >= 4 then [Byte0(ds[0], ds[1]), Byte1(ds[1], ds[2]), Byte2(ds[2], ds[3])] + Decode(ds[4..])
    else if |ds| == 3 then [Byte0(ds[0], ds[1]), Byte1(ds[1], ds[2])]
    else if |ds| == 2 then [Byte0(ds[0], ds[1])]
    else []
  }

  function Encode(bs: seq<Byte>): seq<Sextet> {
    if |bs| >= 3 then [bs[0] / 4, Digit1(bs[0], bs[1]), Digit2(bs[1], bs[2]), bs[2] % 64] + Encode(bs[3..])
    else if |bs| == 2 then [bs[0] / 4, Digit1(bs[0], bs[1]), Digit2(bs[1], 0)]
    else if |bs| == 1 then [bs[0] / 4, Digit1(bs[0], 0)]
    else []
  }

  lemma DigitsBack(a: Sextet, b: Sextet, c: Sextet, d: Sextet)
    ensures Byte0(a, b) / 4 == a && Digit1(Byte0(a, b), Byte1(b, c)) == b
    ensures Digit2(Byte1(b, c), Byte2(c, d)) == c && Byte2(c, d) % 64 == d
    ensures Digit1(Byte0(a, b), 0) == b / 16 * 16 && Digit2(Byte1(b, c), 0) == c / 4 * 4
  {
  }

  lemma BytesBack(x: Byte, y: Byte, z: Byte)
    ensures Byte0(x / 4, Digit1(x, y)) == x && Byte1(Digit1(x, y), Digit2(y, z)) == y
    ensures Byte2(Digit2(y, z), z % 64) == z
    ensures Byte1(Digit1(x, y), Digit2(y, 0)) == y && Byte0(x / 4, Digit1(x, 0)) == x
  {
  }

  predicate Digits(s: string) {
    forall c | c in s :: Digit64(c) >= 0
  }

  function Sextets(s: string): seq<Sextet>
    requires Digits(s)
  {
    seq(|s|, i requires 0 <= i < |s| => Digit64(s[i]))
  }

  /** Decoding and encoding again gives the same digits. */
  predicate ValidBase64(s: string) {
    var digits := Unpadded(s);
    && |s| - |digits| <= 2 && Digits(digits) && |s| % 4 != 1
    && Encode(Decode(Sextets(digits))) == Sextets(digits)
  }

  function DecodedBytes(s: string): nat
    requires ValidBase64(s)
  {
    |Decode(Sextets(Unpadded(s)))|
  }

  /** No lone last digit, and the bits of the last digit that belong to no byte are zero. */
  predicate Canonical(ds: seq<Sextet>) {
    && |ds| % 4 != 1
    && (|ds| % 4 == 2 ==> ds[|ds| - 1] % 16 == 0)
    && (|ds| % 4 == 3 ==> ds[|ds| - 1] % 4 == 0)
  }

  lemma CanonicalRest(ds: seq<Sextet>)
    requires |ds| >= 4
    ensures Canonical(ds) <==> Canonical(ds[4..])
  {
    assert |ds[4..]| % 4 == |ds| % 4;
  }

  lemma LastGroup(ds: seq<Sextet>)
    requires 2 <= |ds| <= 3
    ensures |ds| == 2 ==> Encode(Decode(ds)) == [ds[0], ds[1] / 16 * 16]
    ensures |ds| == 3 ==> Encode(Decode(ds)) == [ds[0], ds[1], ds[2] / 4 * 4]
  {
    DigitsBack(ds[0], ds[1], if |ds| == 3 then ds[2] else 0, 0);
  }

  lemma LowBits(d: Sextet)
    ensures d / 16 * 16 == d <==> d % 16 == 0
    ensures d / 4 * 4 == d <==> d % 4 == 0
  {
  }

  lemma CanonicalLast(ds: seq<Sextet>)
    requires 2 <= |ds| <= 3
    ensures Canonical(ds) <==> if |ds| == 2 then ds[1] % 16 == 0 else ds[2] % 4 == 0
  {
  }

  /** Lists that agree but for the last digit. */
  lemma SameButLast(ds: seq<Sextet>, back: seq<int>, last: int)
    requires 2 <= |ds| <= 3 && back == ds[..|ds| - 1] + [last]
    ensures back == ds <==> last == ds[|ds| - 1]
  {
    assert ds == ds[..|ds| - 1] + [ds[|ds| - 1]];
  }

  lemma LastGroupCanonical(ds: seq<Sextet>)
    requires 2 <= |ds| <= 3
    ensures Encode(Decode(ds)) == ds <==> Canonical(ds)
  {
    hide Encode, Decode, Canonical;
    var last := ds[|ds| - 1];
    LastGroup(ds);
    LowBits(last);
    CanonicalLast(ds);
    SameButLast(ds, Encode(Decode(ds)), if |ds| == 2 then last / 16 * 16 else last / 4 * 4);
  }

  /** Exactly the canonical digits survive decoding and encoding. */
  lemma {:induction false} OnlyCanonicalSurvives(ds: seq<Sextet>)
    ensures Encode(Decode(ds)) == ds <==> Canonical(ds)
  {
    if |ds| >= 4 {
      OnlyCanonicalSurvives(ds[4..]);
      FirstGroup(ds);
      CanonicalRest(ds);
    } else if |ds| >= 2 {
      LastGroupCanonical(ds);
    }
  }

  lemma SameStart(start: seq<Sextet>, x: seq<Sextet>, y: seq<Sextet>)
    ensures start + x == start + y <==> x == y
  {
    assert (start + x)[|start|..] == x && (start + y)[|start|..] == y;
  }

  lemma DecodeFirst(ds: seq<Sextet>)
    requires |ds| >= 4
    ensures Decode(ds) == [Byte0(ds[0], ds[1]), Byte1(ds[1], ds[2]), Byte2(ds[2], ds[3])] + Decode(ds[4..])
  {
  }

  lemma EncodeFirst(x: Byte, y: Byte, z: Byte, rest: seq<Byte>)
    ensures Encode([x, y, z] + rest) == [x / 4, Digit1(x, y), Digit2(y, z), z % 64] + Encode(rest)
  {
    assert ([x, y, z] + rest)[3..] == rest;
  }

  lemma FirstGroup(ds: seq<Sextet>)
    requires |ds| >= 4
    ensures Encode(Decode(ds)) == ds <==> Encode(Decode(ds[4..])) == ds[4..]
  {
    hide Byte0, Byte1, Byte2, Digit1, Digit2, Decode, Encode;
    var rest := Decode(ds[4..]);
    DecodeFirst(ds);
    EncodeFirst(Byte0(ds[0], ds[1]), Byte1(ds[1], ds[2]), Byte2(ds[2], ds[3]), rest);
    DigitsBack(ds[0], ds[1], ds[2], ds[3]);
    var first := [ds[0], ds[1], ds[2], ds[3]];
    assert ds == first + ds[4..];
    SameStart(first, Encode(rest), ds[4..]);
  }

  /** Bytes of any length come back from their encoding. */
  lemma {:induction false} DecodeEncode(bs: seq<Byte>)
    ensures Decode(Encode(bs)) == bs
  {
    if |bs| >= 3 {
      var ds := Encode(bs);
      assert ds[4..] == Encode(bs[3..]);
      DecodeEncode(bs[3..]);
      BytesBack(bs[0], bs[1], bs[2]);
      assert bs == [bs[0], bs[1], bs[2]] + bs[3..];
    } else if |bs| == 2 {
      BytesBack(bs[0], bs[1], 0);
    } else if |bs| == 1 {
      BytesBack(bs[0], 0, 0);
    }
  }
}
