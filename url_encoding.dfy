/** The `application/x-www-form-urlencoded` serializer behind `URLSearchParams.toString` (section
    5.2 of the WHATWG URL Standard), and the parser of the same section as its reference: a query
    string written by the serializer parses back into the UTF-8 bytes of every name and value. */
module FormUrlEncoding {
  import opened Text

  type Byte = b: int | 0 <= b < 256

  /** The UTF-8 encoding of one Unicode scalar value (RFC 3629, section 3). */
  function Utf8(c: char): (r: seq<Byte>)
    ensures 1 <= |r| <= 4
    ensures c as int < 0x80 <==> |r| == 1
  {
    var n := c as int;
    if n < 0x80 then [n]
    else if n < 0x800 then [0xC0 + n / 64, 0x80 + n % 64]
    else if n < 0x10000 then [0xE0 + n / 4096, 0x80 + (n / 64) % 64, 0x80 + n % 64]
    else [0xF0 + n / 262144, 0x80 + (n / 4096) % 64, 0x80 + (n / 64) % 64, 0x80 + n % 64]
  }

  /** The UTF-8 encoding of a string. */
  function Utf8String(s: string): seq<Byte>
    decreases |s|
  {
    if s == [] then [] else Utf8(s[0]) + Utf8String(s[1..])
  }

  /** The characters the serializer leaves as they are. */
  predicate Unreserved(c: char) {
    'a' <= c <= 'z' || 'A' <= c <= 'Z' || '0' <= c <= '9' || c == '*' || c == '-' || c == '.' || c == '_'
  }

  /** What may appear in a serialized name or value. */
  predicate Safe(c: char) {
    Unreserved(c) || c == '+' || c == '%'
  }

  predicate AllSafe(s: string) {
    forall i :: 0 <= i < |s| ==> Safe(s[i])
  }

  lemma SafeConcat(a: string, b: string)
    requires AllSafe(a) && AllSafe(b)
    ensures AllSafe(a + b)
  {
  }

  /** Nothing safe separates pairs, names from values, or words. */
  lemma SafeHasNoSeparator(s: string)
    requires AllSafe(s)
    ensures '&' !in s && '=' !in s && ' ' !in s
  {
  }

  /** An upper-case hexadecimal digit. */
  function HexDigit(d: nat): (r: char)
    requires d < 16
    ensures '0' <= r <= '9' || 'A' <= r <= 'F'
  {
    if d < 10 then ('0' as int + d) as char else ('A' as int + d - 10) as char
  }

  /** `%XX` for one byte. */
  function Percent(b: Byte): (r: string)
    ensures |r| == 3 && r[0] == '%'
  {
    ['%', HexDigit(b / 16), HexDigit(b % 16)]
  }

  /** `%XX` for every byte. */
  function PercentAll(bs: seq<Byte>): (r: string)
    ensures AllSafe(r)
    decreases |bs|
  {
    if bs == [] then "" else SafeConcat(Percent(bs[0]), PercentAll(bs[1..])); Percent(bs[0]) + PercentAll(bs[1..])
  }

  /** One character of a name or value: unreserved characters stay, the space becomes `+`, and
      anything else becomes the `%XX` of each of its UTF-8 bytes. */
  function EncodeChar(c: char): (r: string)
    ensures r != []
    ensures AllSafe(r)
  {
    if Unreserved(c) then [c] else if c == ' ' then "+" else PercentAll(Utf8(c))
  }

  /** A name or value as the serializer writes it: only safe characters, so never a `&`, `=`
      or space. */
  function EncodeComponent(s: string): (r: string)
    ensures AllSafe(r)
    decreases |s|
  {
    if s == [] then ""
    else SafeConcat(EncodeChar(s[0]), EncodeComponent(s[1..])); EncodeChar(s[0]) + EncodeComponent(s[1..])
  }

  /** One `name=value` pair. */
  function EncodePair(p: (string, string)): (r: string)
    ensures '&' !in r
  {
    SafeHasNoSeparator(EncodeComponent(p.0));
    SafeHasNoSeparator(EncodeComponent(p.1));
    EncodeComponent(p.0) + "=" + EncodeComponent(p.1)
  }

  /** The serialized pairs in order. */
  function EncodePairs(q: seq<(string, string)>): (r: seq<string>)
    ensures |r| == |q|
    ensures forall i :: 0 <= i < |q| ==> r[i] == EncodePair(q[i])
    decreases |q|
  {
    if q == [] then [] else [EncodePair(q[0])] + EncodePairs(q[1..])
  }

  /** `URLSearchParams.toString`: the pairs joined by `&`. */
  function Serialize(q: seq<(string, string)>): string {
    Join(EncodePairs(q), "&")
  }

  /** The serializer writes nothing exactly when there is no pair. */
  lemma SerializeEmpty(q: seq<(string, string)>)
    ensures Serialize(q) == "" <==> q == []
  {
    if q != [] {
      var ps := EncodePairs(q);
      assert '=' in ps[0];
      if |ps| == 1 {
        assert Serialize(q) == ps[0];
      } else {
        assert Serialize(q) == ps[0] + "&" + Join(ps[1..], "&");
      }
    }
  }

  predicate IsHex(c: char) {
    '0' <= c <= '9' || 'A' <= c <= 'F' || 'a' <= c <= 'f'
  }

  function HexValue(c: char): (r: nat)
    requires IsHex(c)
    ensures r < 16
  {
    if c <= '9' then c as int - '0' as int
    else if c <= 'F' then c as int - 'A' as int + 10
    else c as int - 'a' as int + 10
  }

  /** Percent-decoding a name or value, with `+` read as a space: `%` followed by two hexadecimal
      digits is that byte, any other character its own UTF-8 bytes. */
  function PercentDecode(s: string): seq<Byte>
    decreases |s|
  {
    if s == [] then []
    else if s[0] == '+' then [0x20] + PercentDecode(s[1..])
    else if s[0] == '%' && |s| >= 3 && IsHex(s[1]) && IsHex(s[2]) then
      [HexValue(s[1]) * 16 + HexValue(s[2])] + PercentDecode(s[3..])
    else Utf8(s[0]) + PercentDecode(s[1..])
  }

  /** One pair of the parser: the name up to the first `=`, the value after it (empty when there
      is no `=`). */
  function ParsePair(p: string): (seq<Byte>, seq<Byte>) {
    var parts := Split(p, '=');
    (PercentDecode(parts[0]), PercentDecode(Join(parts[1..], "=")))
  }

  /** The parser on the pieces between `&`: empty pieces are skipped. */
  function ParsePieces(pieces: seq<string>): seq<(seq<Byte>, seq<Byte>)>
    decreases |pieces|
  {
    if pieces == [] then []
    else if pieces[0] == "" then ParsePieces(pieces[1..])
    else [ParsePair(pieces[0])] + ParsePieces(pieces[1..])
  }

  /** The `application/x-www-form-urlencoded` parser. */
  function Parse(s: string): seq<(seq<Byte>, seq<Byte>)> {
    ParsePieces(Split(s, '&'))
  }

  /** Every pair as UTF-8 bytes: what the parser must give back. */
  function Utf8Pairs(q: seq<(string, string)>): (r: seq<(seq<Byte>, seq<Byte>)>)
    ensures |r| == |q|
    ensures forall i :: 0 <= i < |q| ==> r[i] == (Utf8String(q[i].0), Utf8String(q[i].1))
    decreases |q|
  {
    if q == [] then [] else [(Utf8String(q[0].0), Utf8String(q[0].1))] + Utf8Pairs(q[1..])
  }

  lemma HexDigitValue(d: nat)
    requires d < 16
    ensures IsHex(HexDigit(d)) && HexValue(HexDigit(d)) == d
  {
  }

  /** `%XX` decodes to its byte. */
  lemma {:induction false} PercentAllDecodes(bs: seq<Byte>, rest: string)
    ensures PercentDecode(PercentAll(bs) + rest) == bs + PercentDecode(rest)
    decreases |bs|
  {
    if bs != [] {
      var b := bs[0];
      var s := PercentAll(bs) + rest;
      HexDigitValue(b / 16);
      HexDigitValue(b % 16);
      assert s == Percent(b) + (PercentAll(bs[1..]) + rest);
      assert s[1] == HexDigit(b / 16) && s[2] == HexDigit(b % 16);
      assert s[3..] == PercentAll(bs[1..]) + rest;
      assert HexValue(s[1]) * 16 + HexValue(s[2]) == b;
      PercentAllDecodes(bs[1..], rest);
      calc {
        PercentDecode(s);
        [b] + PercentDecode(s[3..]);
        [b] + (bs[1..] + PercentDecode(rest));
        { assert bs == [b] + bs[1..]; }
        bs + PercentDecode(rest);
      }
    } else {
      assert PercentAll(bs) + rest == rest;
    }
  }

  /** One encoded character decodes to its UTF-8 bytes. */
  lemma EncodeCharDecodes(c: char, rest: string)
    ensures PercentDecode(EncodeChar(c) + rest) == Utf8(c) + PercentDecode(rest)
  {
    if Unreserved(c) || c == ' ' {
      var s := EncodeChar(c) + rest;
      assert s[0] == EncodeChar(c)[0] && s[1..] == rest;
    } else {
      PercentAllDecodes(Utf8(c), rest);
    }
  }

  /** Decoding undoes encoding, down to the UTF-8 bytes of the original. */
  lemma {:induction false} DecodeEncode(s: string)
    ensures PercentDecode(EncodeComponent(s)) == Utf8String(s)
    decreases |s|
  {
    if s != [] {
      EncodeCharDecodes(s[0], EncodeComponent(s[1..]));
      DecodeEncode(s[1..]);
    }
  }

  /** One serialized pair parses back into its name and value. */
  lemma ParseEncodedPair(p: (string, string))
    ensures ParsePair(EncodePair(p)) == (Utf8String(p.0), Utf8String(p.1))
  {
    var k, v := EncodeComponent(p.0), EncodeComponent(p.1);
    SafeHasNoSeparator(k);
    SafeHasNoSeparator(v);
    SplitNoSep(v, '=');
    SplitAt(k, '=', v);
    assert EncodePair(p) == k + ['='] + v;
    assert Split(EncodePair(p), '=') == [k, v];
    DecodeEncode(p.0);
    DecodeEncode(p.1);
  }

  lemma {:induction false} ParseEncodedPieces(q: seq<(string, string)>)
    ensures ParsePieces(EncodePairs(q)) == Utf8Pairs(q)
    decreases |q|
  {
    if q != [] {
      var ps := EncodePairs(q);
      assert ps[0] == EncodePair(q[0]) && '=' in ps[0];
      assert ps[1..] == EncodePairs(q[1..]);
      ParseEncodedPair(q[0]);
      ParseEncodedPieces(q[1..]);
    }
  }

  /** The parser reads back what the serializer wrote: every name and value, in order, as its
      UTF-8 bytes, whatever `&`, `=`, `+`, `%` or spaces they contain. */
  lemma ParseSerialize(q: seq<(string, string)>)
    ensures Parse(Serialize(q)) == Utf8Pairs(q)
  {
    if q != [] {
      SplitJoin(EncodePairs(q), '&');
      ParseEncodedPieces(q);
    }
  }

  /** A value with a space, `&` and `=` in it: `q=a+b%26c%3Dd`. */
  lemma SerializeExample()
    ensures Serialize([("q", "a b&c=d")]) == "q=a+b%26c%3Dd"
  {
    SinglePair(("q", "a b&c=d"));
    EncodeExample();
    EncodeUnreserved('q');
    assert "q" + "=" + "a+b%26c%3Dd" == "q=a+b%26c%3Dd";
  }

  lemma SinglePair(p: (string, string))
    ensures Serialize([p]) == EncodeComponent(p.0) + "=" + EncodeComponent(p.1)
  {
    assert EncodePairs([p]) == [EncodePair(p)];
  }

  lemma EncodeUnreserved(c: char)
    requires Unreserved(c)
    ensures EncodeComponent([c]) == [c]
  {
    EncodeCons(c, "");
    assert [c] + "" == [c];
  }

  lemma EncodeCons(c: char, t: string)
    ensures EncodeComponent([c] + t) == EncodeChar(c) + EncodeComponent(t)
  {
    assert ([c] + t)[1..] == t;
  }

  lemma EncodeExample()
    ensures EncodeComponent("a b&c=d") == "a+b%26c%3Dd"
  {
    EncodeExampleMiddle();
    EncodeCons(' ', "b&c=d");
    EncodeCons('a', " b&c=d");
  }

  lemma EncodeExampleMiddle()
    ensures EncodeComponent("b&c=d") == "b%26c%3Dd"
  {
    EncodeExampleTail();
    assert EncodeChar('&') == "%26";
    EncodeCons('&', "c=d");
    EncodeCons('b', "&c=d");
  }

  lemma EncodeExampleTail()
    ensures EncodeComponent("c=d") == "c%3Dd"
  {
    assert EncodeChar('=') == "%3D";
    assert EncodeComponent("d") == "d";
    EncodeCons('=', "d");
    EncodeCons('c', "=d");
  }
}
