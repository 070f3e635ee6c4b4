/**
 Archive identifiers: the URL-safe alphabet of section 5 of RFC 4648, without padding
 (section 3.2), with the canonical-encoding check of section 3.5 done by re-encoding.

 A filename is the sequence of bytes of its UTF-8 form; which byte sequences are UTF-8 is a
 parameter of the decoder, so every theorem holds for any such set.
 */
module ArchiveId {
  import opened Wrappers

  type Byte = x: int | 0 <= x < 256
  type Sextet = x: int | 0 <= x < 64

  // ---------------------------------------------------------------- the alphabet

  function CharOf(v: Sextet): char {
    if v < 26 then 'A' + v as char
    else if v < 52 then 'a' + (v - 26) as char
    else if v < 62 then '0' + (v - 52) as char
    else if v == 62 then '-' else '_'
  }

  predicate InAlphabet(c: char) {
    'A' <= c <= 'Z' || 'a' <= c <= 'z' || '0' <= c <= '9' || c == '-' || c == '_'
  }

  function ValueOf(c: char): (v: Sextet)
    requires InAlphabet(c)
    ensures CharOf(v) == c
  {
    if 'A' <= c <= 'Z' then c as int - 'A' as int
    else if 'a' <= c <= 'z' then c as int - 'a' as int + 26
    else if '0' <= c <= '9' then c as int - '0' as int + 52
    else if c == '-' then 62 else 63
  }

  lemma ValueOfCharOf(v: Sextet)
    ensures InAlphabet(CharOf(v)) && ValueOf(CharOf(v)) == v
  {
  }

  predicate AllInAlphabet(s: string) {
    forall i :: 0 <= i < |s| ==> InAlphabet(s[i])
  }

  function Chars(v: seq<Sextet>): (s: string)
    ensures |s| == |v| && AllInAlphabet(s)
  {
    seq(|v|, i requires 0 <= i < |v| => CharOf(v[i]))
  }

  function Values(s: string): (v: seq<Sextet>)
    requires AllInAlphabet(s)
    ensures |v| == |s| && Chars(v) == s
  {
    seq(|s|, i requires 0 <= i < |s| => ValueOf(s[i]))
  }

  lemma ValuesOfChars(v: seq<Sextet>)
    ensures Values(Chars(v)) == v
  {
    forall i | 0 <= i < |v| ensures Values(Chars(v))[i] == v[i] {
      ValueOfCharOf(v[i]);
    }
  }

  /** The alphabet of Table 2 of RFC 4648, in its order. */
  const Alphabet: string := UpperCase + LowerCase + Digits + "-_"

  const UpperCase: string := "ABCDEFGHIJKLMNOPQRSTUVWXYZ"
  const LowerCase: string := "abcdefghijklmnopqrstuvwxyz"
  const Digits: string := "0123456789"

  lemma AlphabetInOrder(v: Sextet)
    ensures |Alphabet| == 64 && CharOf(v) == Alphabet[v]
  {
    if v < 26 {
      UpperInOrder(v);
    } else if v < 52 {
      LowerInOrder(v - 26);
    } else if v < 62 {
      DigitInOrder(v - 52);
    }
  }

  lemma UpperInOrder(k: nat)
    requires k < 26
    ensures UpperCase[k] == 'A' + k as char
  {
  }

  lemma LowerInOrder(k: nat)
    requires k < 26
    ensures LowerCase[k] == 'a' + k as char
  {
  }

  lemma DigitInOrder(k: nat)
    requires k < 10
    ensures Digits[k] == '0' + k as char
  {
  }

  // ---------------------------------------------------------------- bytes and sextets

  function S1(a: int): int { a / 4 }
  function S2(a: int, b: int): int { a % 4 * 16 + b / 16 }
  function S3(b: int, c: int): int { b % 16 * 4 + c / 64 }
  function S4(c: int): int { c % 64 }

  function B1(v: int, w: int): int { v * 4 + w / 16 }
  function B2(w: int, x: int): int { w % 16 * 16 + x / 4 }
  function B3(x: int, y: int): int { x % 4 * 64 + y }

  /** Three bytes make four sextets; one or two left-over bytes make two or three. */
  function Sextets(b: seq<Byte>): seq<Sextet> {
    if b == [] then []
    else if |b| == 1 then [S1(b[0]), S2(b[0], 0)]
    else if |b| == 2 then [S1(b[0]), S2(b[0], b[1]), S3(b[1], 0)]
    else [S1(b[0]), S2(b[0], b[1]), S3(b[1], b[2]), S4(b[2])] + Sextets(b[3..])
  }

  /** The unused low bits of a final short group are ignored; a group of one sextet is an error. */
  function Bytes(v: seq<Sextet>): Result<seq<Byte>> {
    if v == [] then Ok([])
    else if |v| == 1 then Rejected
    else if |v| == 2 then Ok([B1(v[0], v[1])])
    else if |v| == 3 then Ok([B1(v[0], v[1]), B2(v[1], v[2])])
    else
      match Bytes(v[4..])
      case Rejected => Rejected
      case Ok(rest) => Ok([B1(v[0], v[1]), B2(v[1], v[2]), B3(v[2], v[3])] + rest)
  }

  lemma GroupRoundTrip(a: Byte, b: Byte, c: Byte)
    ensures B1(S1(a), S2(a, b)) == a && B2(S2(a, b), S3(b, c)) == b && B3(S3(b, c), S4(c)) == c
  {
  }

  lemma GroupReEncodes(v: Sextet, w: Sextet, x: Sextet, y: Sextet)
    ensures S1(B1(v, w)) == v && S2(B1(v, w), B2(w, x)) == w
    ensures S3(B2(w, x), B3(x, y)) == x && S4(B3(x, y)) == y
    ensures w % 16 == 0 <==> S2(B1(v, w), 0) == w
    ensures x % 4 == 0 <==> S3(B2(w, x), 0) == x
  {
  }

  // ---------------------------------------------------------------- Python's text form

  function Padding(n: nat): string {
    var k := n % 4;
    if k == 0 then "" else if k == 1 then "===" else if k == 2 then "==" else "="
  }

  function RStripPad(s: string): string {
    if s != "" && s[|s| - 1] == '=' then RStripPad(s[..|s| - 1]) else s
  }

  /** `urlsafe_b64encode`: the data characters, padded to whole groups of four. */
  function EncodePadded(b: seq<Byte>): string {
    Chars(Sextets(b)) + Padding(|Sextets(b)|)
  }

  /** `urlsafe_b64decode`, on data characters followed by padding. */
  function DecodePadded(s: string): Result<seq<Byte>> {
    var data := RStripPad(s);
    if |s| % 4 != 0 || !AllInAlphabet(data) then Rejected else Bytes(Values(data))
  }

  // ---------------------------------------------------------------- the archive service

  function EncodeId(name: seq<Byte>): string {
    RStripPad(EncodePadded(name))
  }

  function DecodeId(id: string, utf8: seq<Byte> -> bool): Result<seq<Byte>> {
    if id == "" || !AllInAlphabet(id) then Rejected
    else
      match DecodePadded(id + Padding(|id|))
      case Rejected => Rejected
      case Ok(name) => if utf8(name) && EncodeId(name) == id then Ok(name) else Rejected
  }

  // ---------------------------------------------------------------- round trips

  lemma {:induction false} RStripEnds(data: string, pad: string)
    requires forall i :: 0 <= i < |pad| ==> pad[i] == '='
    requires AllInAlphabet(data)
    ensures RStripPad(data + pad) == data
  {
    if pad == "" {
      assert data + pad == data;
    } else {
      assert (data + pad)[..|data + pad| - 1] == data + pad[..|pad| - 1];
      RStripEnds(data, pad[..|pad| - 1]);
    }
  }

  lemma BytesOfShortSextets(a: Byte, b: Byte)
    ensures Bytes(Sextets([a])) == Ok([a]) && Bytes(Sextets([a, b])) == Ok([a, b])
  {
    var v: seq<Sextet>, w: seq<Sextet> := [S1(a), S2(a, 0)], [S1(a), S2(a, b), S3(b, 0)];
    assert Bytes(v) == Ok([B1(v[0], v[1])]) && Bytes(w) == Ok([B1(w[0], w[1]), B2(w[1], w[2])]);
    assert B1(v[0], v[1]) == a && [B1(w[0], w[1]), B2(w[1], w[2])] == [a, b] by {
      GroupRoundTrip(a, 0, 0);
      GroupRoundTrip(a, b, 0);
    }
  }

  lemma BytesOfGroup(a: Byte, b: Byte, c: Byte, rest: seq<Sextet>)
    requires Bytes(rest).Ok?
    ensures Bytes([S1(a), S2(a, b), S3(b, c), S4(c)] + rest) == Ok([a, b, c] + Bytes(rest).value)
  {
    var v: seq<Sextet> := [S1(a), S2(a, b), S3(b, c), S4(c)];
    assert (v + rest)[4..] == rest;
    assert Bytes(v + rest) == Ok([B1(v[0], v[1]), B2(v[1], v[2]), B3(v[2], v[3])] + Bytes(rest).value);
    assert [B1(v[0], v[1]), B2(v[1], v[2]), B3(v[2], v[3])] == [a, b, c] by {
      GroupRoundTrip(a, b, c);
    }
  }

  lemma {:induction false} BytesOfSextets(b: seq<Byte>)
    ensures Bytes(Sextets(b)) == Ok(b)
  {
    if |b| >= 3 {
      BytesOfSextets(b[3..]);
      BytesOfGroup(b[0], b[1], b[2], Sextets(b[3..]));
      assert b == [b[0], b[1], b[2]] + b[3..];
    } else if b != [] {
      BytesOfShortSextets(b[0], b[|b| - 1]);
      assert b == [b[0]] || b == [b[0], b[1]];
    }
  }

  lemma EncodeIsText(name: seq<Byte>)
    ensures EncodeId(name) == Chars(Sextets(name))
  {
    RStripEnds(Chars(Sextets(name)), Padding(|Sextets(name)|));
  }

  lemma DecodeByText(id: string)
    requires AllInAlphabet(id)
    ensures DecodePadded(id + Padding(|id|)) == Bytes(Values(id))
  {
    RStripEnds(id, Padding(|id|));
    assert |id + Padding(|id|)| % 4 == 0;
  }

  /** Decoding the identifier of a nonempty filename returns that filename. */
  lemma RoundTrip(name: seq<Byte>, utf8: seq<Byte> -> bool)
    requires name != [] && utf8(name)
    ensures DecodeId(EncodeId(name), utf8) == Ok(name)
  {
    EncodeIsText(name);
    DecodeByText(Chars(Sextets(name)));
    ValuesOfChars(Sextets(name));
    BytesOfSextets(name);
  }

  /** An accepted identifier is the identifier of the filename it decodes to, so two never share one. */
  lemma AcceptedIsCanonical(id: string, other: string, utf8: seq<Byte> -> bool)
    ensures DecodeId(id, utf8).Ok? ==>
              var name := DecodeId(id, utf8).value;
              EncodeId(name) == id && utf8(name) && name != [] && (DecodeId(other, utf8) == Ok(name) ==> other == id)
  {
    if DecodeId(id, utf8).Ok? {
      EncodeIsText(DecodeId(id, utf8).value);
    }
  }

  // ---------------------------------------------------------------- exactly which identifiers are accepted

  /** The bits of the last character that carry no data are zero, and the length is one an encoder makes. */
  predicate Canonical(v: seq<Sextet>) {
    && |v| % 4 != 1
    && (|v| % 4 == 2 ==> v[|v| - 1] % 16 == 0)
    && (|v| % 4 == 3 ==> v[|v| - 1] % 4 == 0)
  }

  lemma SextetsOfGroup(a: Byte, b: Byte, c: Byte, rest: seq<Byte>)
    ensures Sextets([a, b, c] + rest) == [S1(a), S2(a, b), S3(b, c), S4(c)] + Sextets(rest)
  {
    assert ([a, b, c] + rest)[3..] == rest;
  }

  lemma SextetsAre(a: Byte, b: Byte, c: Byte, rest: seq<Byte>, w: seq<Sextet>)
    requires |w| == 4 && S1(a) == w[0] && S2(a, b) == w[1] && S3(b, c) == w[2] && S4(c) == w[3]
    ensures Sextets([a, b, c] + rest) == w + Sextets(rest)
  {
    SextetsOfGroup(a, b, c, rest);
    assert w == [w[0], w[1], w[2], w[3]];
  }

  /** The first group of sextets decodes to three bytes that encode to it again. */
  lemma LeadingGroup(v: seq<Sextet>) returns (a: Byte, b: Byte, c: Byte)
    requires |v| >= 4 && Bytes(v[4..]).Ok?
    ensures Bytes(v) == Ok([a, b, c] + Bytes(v[4..]).value)
    ensures S1(a) == v[0] && S2(a, b) == v[1] && S3(b, c) == v[2] && S4(c) == v[3]
  {
    a, b, c := B1(v[0], v[1]), B2(v[1], v[2]), B3(v[2], v[3]);
    GroupReEncodes(v[0], v[1], v[2], v[3]);
  }

  lemma CanonicalTail(v: seq<Sextet>)
    requires |v| >= 4
    ensures Canonical(v) == Canonical(v[4..])
  {
    assert |v[4..]| % 4 == |v| % 4;
    assert |v| % 4 != 0 ==> v[4..][|v| - 5] == v[|v| - 1];
  }

  /** A leading whole group of sextets decodes and re-encodes by itself. */
  lemma ReEncodeGroup(v: seq<Sextet>)
    requires |v| >= 4 && Bytes(v[4..]).Ok?
    ensures Bytes(v).Ok? && Sextets(Bytes(v).value) == v[..4] + Sextets(Bytes(v[4..]).value)
  {
    var a, b, c := LeadingGroup(v);
    SextetsAre(a, b, c, Bytes(v[4..]).value, v[..4]);
  }

  lemma ReEncodeTwo(v: seq<Sextet>)
    requires |v| == 2
    ensures Bytes(v).Ok? && (Sextets(Bytes(v).value) == v <==> Canonical(v))
  {
    GroupReEncodes(v[0], v[1], 0, 0);
    assert Sextets(Bytes(v).value) == [v[0], S2(B1(v[0], v[1]), 0)];
  }

  lemma ReEncodeThree(v: seq<Sextet>)
    requires |v| == 3
    ensures Bytes(v).Ok? && (Sextets(Bytes(v).value) == v <==> Canonical(v))
  {
    GroupReEncodes(v[0], v[1], v[2], 0);
    assert Sextets(Bytes(v).value) == [v[0], v[1], S3(B2(v[1], v[2]), 0)];
  }

  lemma SameTail<T>(v: seq<T>, tail: seq<T>)
    requires |v| >= 4
    ensures v[..4] + tail == v <==> tail == v[4..]
  {
    assert v[..4] + v[4..] == v;
    assert (v[..4] + tail)[4..] == tail;
  }

  /** Decoding fails only for a left-over sextet, and re-encoding gives the sextets back exactly when they are canonical. */
  ghost predicate ReEncodes(v: seq<Sextet>) {
    match Bytes(v)
    case Rejected => |v| % 4 == 1
    case Ok(b) => |v| % 4 != 1 && (Sextets(b) == v <==> Canonical(v))
  }

  lemma RemainderOfTail(n: nat)
    requires n >= 4
    ensures (n - 4) % 4 == n % 4
  {
  }

  lemma GroupOk(v: seq<Sextet>)
    requires |v| >= 4
    ensures Bytes(v).Ok? == Bytes(v[4..]).Ok?
  {
  }

  lemma ReEncodeLong(v: seq<Sextet>)
    requires |v| >= 4 && ReEncodes(v[4..])
    ensures ReEncodes(v)
  {
    RemainderOfTail(|v|);
    GroupOk(v);
    if Bytes(v).Ok? {
      CanonicalTail(v);
      ReEncodeGroup(v);
      SameTail(v, Sextets(Bytes(v[4..]).value));
    }
  }

  lemma {:induction false} ReEncode(v: seq<Sextet>)
    ensures ReEncodes(v)
  {
    if |v| == 2 {
      ReEncodeTwo(v);
    } else if |v| == 3 {
      ReEncodeThree(v);
    } else if |v| >= 4 {
      ReEncode(v[4..]);
      ReEncodeLong(v);
    }
  }

  /** An identifier is accepted exactly when it is nonempty, canonical, and names a UTF-8 filename. */
  lemma AcceptedExactly(id: string, utf8: seq<Byte> -> bool)
    ensures DecodeId(id, utf8).Ok? <==>
            && id != "" && AllInAlphabet(id) && Canonical(Values(id))
            && Bytes(Values(id)).Ok? && utf8(Bytes(Values(id)).value)
  {
    if id != "" && AllInAlphabet(id) {
      ReEncode(Values(id));
      DecodeByText(id);
      if Bytes(Values(id)).Ok? {
        var name := Bytes(Values(id)).value;
        EncodeIsText(name);
        ValuesOfChars(Sextets(name));
      }
    }
  }
}
