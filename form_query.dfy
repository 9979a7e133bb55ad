/**
 * The query-string form that `URLSearchParams.toString()` produces
 * (application/x-www-form-urlencoded, as the WHATWG URL standard defines its
 * serializer) and the matching parser, restricted to well-formed input. Every
 * query string the components build goes through `Serialize`; `Parse` is the
 * reference that shows nothing is lost or reordered.
 */
module FormQuery {
  import opened Wrappers
  import opened Text

  /** A query parameter as `URLSearchParams.append(name, value)` records it. */
  type Param = (string, string)

  // ---------------------------------------------------------------- UTF-8

  predicate IsByte(b: int) { 0 <= b < 256 }

  type Byte = b: int | IsByte(b)

  /** The UTF-8 encoding of one Unicode scalar value. */
  function Utf8(c: char): (bs: seq<Byte>)
    ensures 1 <= |bs| <= 4
  {
    var cp := c as int;
    if cp < 0x80 then [cp]
    else if cp < 0x800 then [0xC0 + cp / 64, 0x80 + cp % 64]
    else if cp < 0x10000 then [0xE0 + cp / 4096, 0x80 + (cp / 64) % 64, 0x80 + cp % 64]
    else [0xF0 + cp / 262144, 0x80 + (cp / 4096) % 64, 0x80 + (cp / 64) % 64, 0x80 + cp % 64]
  }

  function Utf8Encode(s: string): seq<Byte> {
    if s == [] then [] else Utf8(s[0]) + Utf8Encode(s[1..])
  }

  predicate IsContinuation(b: Byte) { 0x80 <= b < 0xC0 }

  predicate IsScalar(cp: int) { 0 <= cp < 0xD800 || 0xE000 <= cp < 0x110000 }

  /** Decodes well-formed UTF-8 (shortest forms, no surrogates); `None` otherwise. */
  function Utf8Decode(bs: seq<Byte>): Option<string>
    decreases |bs|
  {
    if bs == [] then Some([])
    else
      var b0: int := bs[0];
      var b1: int := if |bs| >= 2 then bs[1] else 0;
      var b2: int := if |bs| >= 3 then bs[2] else 0;
      var b3: int := if |bs| >= 4 then bs[3] else 0;
      if b0 < 0x80 then
        match Utf8Decode(bs[1..])
        case Some(rest) => Some([b0 as char] + rest)
        case None => None
      else if 0xC2 <= b0 < 0xE0 && |bs| >= 2 && IsContinuation(bs[1]) then
        var cp := (b0 - 0xC0) * 64 + (b1 - 0x80);
        match Utf8Decode(bs[2..])
        case Some(rest) => Some([cp as char] + rest)
        case None => None
      else if 0xE0 <= b0 < 0xF0 && |bs| >= 3 && IsContinuation(bs[1]) && IsContinuation(bs[2]) then
        var cp := ((b0 - 0xE0) * 64 + (b1 - 0x80)) * 64 + (b2 - 0x80);
        if 0x800 <= cp && IsScalar(cp) then
          match Utf8Decode(bs[3..])
          case Some(rest) => Some([cp as char] + rest)
          case None => None
        else None
      else if 0xF0 <= b0 < 0xF5 && |bs| >= 4 && IsContinuation(bs[1]) && IsContinuation(bs[2])
              && IsContinuation(bs[3]) then
        var cp := (((b0 - 0xF0) * 64 + (b1 - 0x80)) * 64 + (b2 - 0x80)) * 64 + (b3 - 0x80);
        if 0x10000 <= cp < 0x110000 then
          match Utf8Decode(bs[4..])
          case Some(rest) => Some([cp as char] + rest)
          case None => None
        else None
      else None
  }

  lemma DivMod64(x: int)
    requires x >= 0
    ensures (x / 64) * 64 + x % 64 == x
  {
  }

  lemma DivDiv64(x: int)
    requires x >= 0
    ensures (x / 4096) == (x / 64) / 64 && (x / 262144) == (x / 4096) / 64
  {
  }

  /** Decoding the bytes of one character gives that character back. */
  lemma Utf8CharRoundTrip(c: char, rest: seq<Byte>)
    ensures Utf8Decode(Utf8(c) + rest) ==
      match Utf8Decode(rest)
      case Some(r) => Some([c] + r)
      case None => None
  {
    var cp := c as int;
    if cp < 0x80 {
      Utf8CharOne(c, rest);
    } else if cp < 0x800 {
      Utf8CharTwo(c, rest);
    } else if cp < 0x10000 {
      Utf8CharThree(c, rest);
    } else {
      Utf8CharFour(c, rest);
    }
  }

  lemma Utf8CharOne(c: char, rest: seq<Byte>)
    requires c as int < 0x80
    ensures Utf8Decode(Utf8(c) + rest) ==
      match Utf8Decode(rest)
      case Some(r) => Some([c] + r)
      case None => None
  {
    var bs := Utf8(c) + rest;
    assert bs[1..] == rest;
  }

  lemma Utf8CharTwo(c: char, rest: seq<Byte>)
    requires 0x80 <= c as int < 0x800
    ensures Utf8Decode(Utf8(c) + rest) ==
      match Utf8Decode(rest)
      case Some(r) => Some([c] + r)
      case None => None
  {
    var cp := c as int;
    var bs := Utf8(c) + rest;
    var b0: int, b1: int := bs[0], bs[1];
    DivMod64(cp);
    assert bs[2..] == rest;
    assert (b0 - 0xC0) * 64 + (b1 - 0x80) == cp;
  }

  lemma Utf8CharThree(c: char, rest: seq<Byte>)
    requires 0x800 <= c as int < 0x10000
    ensures Utf8Decode(Utf8(c) + rest) ==
      match Utf8Decode(rest)
      case Some(r) => Some([c] + r)
      case None => None
  {
    var cp := c as int;
    var bs := Utf8(c) + rest;
    var b0: int, b1: int, b2: int := bs[0], bs[1], bs[2];
    DivMod64(cp);
    DivMod64(cp / 64);
    DivDiv64(cp);
    assert bs[3..] == rest;
    assert ((b0 - 0xE0) * 64 + (b1 - 0x80)) * 64 + (b2 - 0x80) == cp;
  }

  lemma Utf8CharFour(c: char, rest: seq<Byte>)
    requires 0x10000 <= c as int
    ensures Utf8Decode(Utf8(c) + rest) ==
      match Utf8Decode(rest)
      case Some(r) => Some([c] + r)
      case None => None
  {
    var cp := c as int;
    var bs := Utf8(c) + rest;
    var b0: int, b1: int, b2: int, b3: int := bs[0], bs[1], bs[2], bs[3];
    DivMod64(cp);
    DivMod64(cp / 64);
    DivMod64(cp / 4096);
    DivDiv64(cp);
    assert bs[4..] == rest;
    assert (((b0 - 0xF0) * 64 + (b1 - 0x80)) * 64 + (b2 - 0x80)) * 64 + (b3 - 0x80) == cp;
  }

  lemma {:induction false} Utf8RoundTrip(s: string)
    ensures Utf8Decode(Utf8Encode(s)) == Some(s)
  {
    if s != [] {
      Utf8RoundTrip(s[1..]);
      Utf8CharRoundTrip(s[0], Utf8Encode(s[1..]));
      assert [s[0]] + s[1..] == s;
    }
  }

  // ---------------------------------------------------- percent-encoding

  /** The bytes the form serializer leaves as they are: `*-._`, digits, letters. */
  predicate IsSafeByte(b: Byte) {
    b == 0x2A || b == 0x2D || b == 0x2E || 0x30 <= b <= 0x39 || 0x41 <= b <= 0x5A
    || b == 0x5F || 0x61 <= b <= 0x7A
  }

  function HexDigit(d: nat): (ch: char)
    requires d < 16
  {
    "0123456789ABCDEF"[d]
  }

  /** The value of a hexadecimal digit of either case; `None` for other characters. */
  function HexValue(ch: char): (r: Option<nat>)
    ensures r.Some? ==> r.value < 16
  {
    if '0' <= ch <= '9' then Some(ch as int - '0' as int)
    else if 'A' <= ch <= 'F' then Some(ch as int - 'A' as int + 10)
    else if 'a' <= ch <= 'f' then Some(ch as int - 'a' as int + 10)
    else None
  }

  /** One byte as the serializer writes it: itself, `+` for a space, or `%XY`. */
  function EncodeByte(b: Byte): (s: string)
  {
    if b == 0x20 then "+"
    else if IsSafeByte(b) then [b as char]
    else
      var v: int := b;
      assert 0 <= v / 16 < 16 by { assert IsByte(v); }
      ['%', HexDigit(v / 16), HexDigit(v % 16)]
  }

  function EncodeBytes(bs: seq<Byte>): string {
    if bs == [] then "" else EncodeByte(bs[0]) + EncodeBytes(bs[1..])
  }

  /** The application/x-www-form-urlencoded form of one name or value. */
  function FormEncode(s: string): string {
    EncodeBytes(Utf8Encode(s))
  }

  /**
   * Percent-decoding as the form parser does it: `+` is a space, `%XY` with
   * two hex digits is the byte XY, and any other character stands for its
   * UTF-8 bytes.
   */
  function PercentDecode(s: string): seq<Byte>
    decreases |s|
  {
    if s == [] then []
    else if s[0] == '%' && |s| >= 3 && HexValue(s[1]).Some? && HexValue(s[2]).Some? then
      [HexValue(s[1]).value * 16 + HexValue(s[2]).value] + PercentDecode(s[3..])
    else if s[0] == '+' then [0x20] + PercentDecode(s[1..])
    else Utf8(s[0]) + PercentDecode(s[1..])
  }

  lemma PercentDecodeByte(b: Byte, rest: string)
    ensures PercentDecode(EncodeByte(b) + rest) == [b] + PercentDecode(rest)
  {
    var s := EncodeByte(b) + rest;
    if b == 0x20 || IsSafeByte(b) {
      assert s[1..] == rest;
      assert s[0] == if b == 0x20 then '+' else b as char;
    } else {
      EscapedByte(b, rest);
    }
  }

  lemma EscapedByte(b: Byte, rest: string)
    requires b != 0x20 && !IsSafeByte(b)
    ensures PercentDecode(EncodeByte(b) + rest) == [b] + PercentDecode(rest)
  {
    var s := EncodeByte(b) + rest;
    var v: int := b;
    assert IsByte(v);
    assert s[3..] == rest;
    assert HexValue(s[1]) == Some(v / 16);
    assert HexValue(s[2]) == Some(v % 16);
  }

  lemma {:induction false} PercentRoundTrip(bs: seq<Byte>)
    ensures PercentDecode(EncodeBytes(bs)) == bs
  {
    if bs != [] {
      PercentDecodeByte(bs[0], EncodeBytes(bs[1..]));
      PercentRoundTrip(bs[1..]);
    }
  }

  /** Decoding one name or value of a query string. */
  function FormDecode(s: string): Option<string> {
    Utf8Decode(PercentDecode(s))
  }

  /** Decoding inverts encoding on every string. */
  lemma FormRoundTrip(s: string)
    ensures FormDecode(FormEncode(s)) == Some(s)
  {
    PercentRoundTrip(Utf8Encode(s));
    Utf8RoundTrip(s);
  }

  /** The characters the serializer can emit. */
  predicate IsEncodedChar(ch: char) {
    ch == '+' || ch == '%' || (ch as int < 256 && IsSafeByte(ch as int))
  }

  lemma {:induction false} EncodeBytesChars(bs: seq<Byte>)
    ensures forall i :: 0 <= i < |EncodeBytes(bs)| ==> IsEncodedChar(EncodeBytes(bs)[i])
  {
    if bs != [] {
      EncodeBytesChars(bs[1..]);
      var e := EncodeByte(bs[0]);
      assert forall i :: 0 <= i < |e| ==> IsEncodedChar(e[i]);
      assert EncodeBytes(bs) == e + EncodeBytes(bs[1..]);
    }
  }

  /** An encoded name or value never holds the separators `&` and `=`. */
  lemma FormEncodeNoSeparators(s: string)
    ensures '&' !in FormEncode(s) && '=' !in FormEncode(s)
  {
    EncodeBytesChars(Utf8Encode(s));
    assert forall ch :: ch in FormEncode(s) ==> IsEncodedChar(ch);
  }

  /** A character the serializer leaves unchanged. */
  predicate IsSafeChar(ch: char) {
    ch as int < 0x80 && IsSafeByte(ch as int)
  }

  /** Strings of safe characters (decimal numbers, the fixed parameter names) are written as they are. */
  lemma {:induction false} FormEncodeSafe(s: string)
    requires forall i :: 0 <= i < |s| ==> IsSafeChar(s[i])
    ensures FormEncode(s) == s
  {
    if s != [] {
      FormEncodeSafe(s[1..]);
      assert Utf8Encode(s) == [s[0] as int] + Utf8Encode(s[1..]);
      assert EncodeByte(s[0] as int) == [s[0]];
      assert [s[0]] + s[1..] == s;
    }
  }

  lemma IntToStringSafe(i: int)
    ensures forall k :: 0 <= k < |IntToString(i)| ==> IsSafeChar(IntToString(i)[k])
  {
    IntToStringChars(i);
  }

  /** A decimal integer is written into a query string unchanged. */
  lemma FormEncodeInt(i: int)
    ensures FormEncode(IntToString(i)) == IntToString(i)
  {
    IntToStringSafe(i);
    FormEncodeSafe(IntToString(i));
  }

  // ------------------------------------------------ serializing and parsing

  function EncodePair(p: Param): string {
    FormEncode(p.0) + "=" + FormEncode(p.1)
  }

  function EncodePairs(ps: seq<Param>): (r: seq<string>)
    ensures |r| == |ps|
  {
    if ps == [] then [] else [EncodePair(ps[0])] + EncodePairs(ps[1..])
  }

  /** `URLSearchParams.toString()` of the parameters appended in order `ps`. */
  function Serialize(ps: seq<Param>): string {
    Join(EncodePairs(ps), "&")
  }

  /** Splits one `name=value` piece at its first `=` (no `=`: the value is empty). */
  function SplitPair(piece: string): (string, string) {
    if '=' in piece then (piece[..FirstIndex(piece, '=')], piece[FirstIndex(piece, '=') + 1..])
    else (piece, "")
  }

  function ParsePieces(pieces: seq<string>): Option<seq<Param>> {
    if pieces == [] then Some([])
    else if pieces[0] == "" then ParsePieces(pieces[1..])
    else
      var (n, v) := SplitPair(pieces[0]);
      match (FormDecode(n), FormDecode(v), ParsePieces(pieces[1..]))
      case (Some(name), Some(value), Some(rest)) => Some([(name, value)] + rest)
      case _ => None
  }

  /** The form parser: the list of name/value pairs a query string denotes. */
  function Parse(q: string): Option<seq<Param>> {
    ParsePieces(Split(q, '&'))
  }

  lemma {:induction false} SplitJoin(xs: seq<string>, c: char)
    requires |xs| >= 1
    requires forall i :: 0 <= i < |xs| ==> c !in xs[i]
    ensures Split(Join(xs, [c]), c) == xs
  {
    if |xs| > 1 {
      SplitJoin(xs[1..], c);
      SplitConcat(xs[0], c, Join(xs[1..], [c]));
      assert xs[0] + [c] + Join(xs[1..], [c]) == Join(xs, [c]);
      assert [xs[0]] + xs[1..] == xs;
    }
  }

  lemma EncodePairShape(p: Param)
    ensures '&' !in EncodePair(p)
    ensures EncodePair(p) != ""
    ensures SplitPair(EncodePair(p)) == (FormEncode(p.0), FormEncode(p.1))
  {
    var e := EncodePair(p);
    FormEncodeNoSeparators(p.0);
    FormEncodeNoSeparators(p.1);
    assert e[|FormEncode(p.0)|] == '=';
    FirstIndexConcat(FormEncode(p.0), '=', FormEncode(p.1));
    assert e == FormEncode(p.0) + ['='] + FormEncode(p.1);
    assert e[..|FormEncode(p.0)|] == FormEncode(p.0);
    assert e[|FormEncode(p.0)| + 1..] == FormEncode(p.1);
  }

  lemma {:induction false} ParseEncodedPieces(ps: seq<Param>)
    ensures ParsePieces(EncodePairs(ps)) == Some(ps)
  {
    if ps != [] {
      var pieces := EncodePairs(ps);
      EncodePairShape(ps[0]);
      FormRoundTrip(ps[0].0);
      FormRoundTrip(ps[0].1);
      assert pieces[1..] == EncodePairs(ps[1..]);
      ParseEncodedPieces(ps[1..]);
      assert [(ps[0].0, ps[0].1)] + ps[1..] == ps;
    }
  }

  /** Parsing a serialized parameter list gives back exactly that list, in order. */
  lemma ParseSerialize(ps: seq<Param>)
    ensures Parse(Serialize(ps)) == Some(ps)
  {
    if ps == [] {
      assert Split("", '&') == [""];
    } else {
      var pieces := EncodePairs(ps);
      forall i | 0 <= i < |pieces| ensures '&' !in pieces[i] {
        EncodePiecesAt(ps, i);
      }
      SplitJoin(pieces, '&');
      ParseEncodedPieces(ps);
    }
  }

  lemma {:induction false} EncodePiecesAt(ps: seq<Param>, i: nat)
    requires i < |ps|
    ensures EncodePairs(ps)[i] == EncodePair(ps[i]) && '&' !in EncodePairs(ps)[i]
  {
    EncodePairShape(ps[i]);
    if i > 0 {
      EncodePiecesAt(ps[1..], i - 1);
    }
  }

  /** The query string is empty exactly when no parameter was appended. */
  lemma SerializeEmpty(ps: seq<Param>)
    ensures (Serialize(ps) == "") <==> (ps == [])
  {
    if ps != [] {
      EncodePairShape(ps[0]);
      if |ps| > 1 {
        assert |Serialize(ps)| >= |EncodePair(ps[0])|;
      }
    }
  }
}
