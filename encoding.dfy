/** The byte- and text-level encodings the engine relies on: Go's `[]byte(s)` (UTF-8),
    `base64.StdEncoding` (section 4 of RFC 4648, with padding), decimal formatting of
    integers (`%d` / `%v`), and the serialisation of a key list stored in a state store. */
module Encoding {
  import opened Base

  // ---------------------------------------------------------------------------------------
  // UTF-8

  /** The UTF-8 encoding of one Unicode scalar value. */
  function Utf8Char(c: char): (r: seq<byte>)
    ensures 1 <= |r| <= 4
    ensures (c as int < 0x80) <==> |r| == 1
  {
    var n := c as int;
    if n < 0x80 then [n as byte]
    else if n < 0x800 then [(0xC0 + n / 0x40) as byte, (0x80 + n % 0x40) as byte]
    else if n < 0x1_0000 then
      [(0xE0 + n / 0x1000) as byte, (0x80 + n / 0x40 % 0x40) as byte, (0x80 + n % 0x40) as byte]
    else
      [(0xF0 + n / 0x4_0000) as byte, (0x80 + n / 0x1000 % 0x40) as byte,
       (0x80 + n / 0x40 % 0x40) as byte, (0x80 + n % 0x40) as byte]
  }

  /** `[]byte(s)`: the UTF-8 encoding of a string. */
  function Utf8(s: string): (r: seq<byte>)
    ensures |s| <= |r| <= 4 * |s|
  {
    if s == [] then [] else Utf8Char(s[0]) + Utf8(s[1..])
  }

  // ---------------------------------------------------------------------------------------
  // Base64, standard alphabet with '=' padding

  /** The character of the standard alphabet for a six-bit value: 'A'..'Z', 'a'..'z',
      '0'..'9', '+', '/'. */
  function Base64Digit(k: nat): (c: char)
    requires k < 64
  {
    if k < 26 then ('A' as int + k) as char
    else if k < 52 then ('a' as int + (k - 26)) as char
    else if k < 62 then ('0' as int + (k - 52)) as char
    else if k == 62 then '+'
    else '/'
  }

  /** A character that may appear in standard padded base64 text. */
  predicate IsBase64Char(c: char) {
    ('A' <= c <= 'Z') || ('a' <= c <= 'z') || ('0' <= c <= '9') || c == '+' || c == '/' || c == '='
  }

  /** `base64.StdEncoding.EncodeToString(b)`: every three bytes become four characters of the
      alphabet; a final group of one or two bytes is padded with '='. */
  function Base64Encode(b: seq<byte>): (r: string)
    ensures |r| == 4 * ((|b| + 2) / 3)
    ensures forall i | 0 <= i < |r| :: IsBase64Char(r[i])
    decreases |b|
  {
    if |b| == 0 then ""
    else if |b| == 1 then
      var n := b[0] as int;
      [Base64Digit(n / 4), Base64Digit(n % 4 * 16), '=', '=']
    else if |b| == 2 then
      var n := b[0] as int * 0x100 + b[1] as int;
      [Base64Digit(n / 0x400), Base64Digit(n / 0x10 % 0x40), Base64Digit(n % 0x10 * 4), '=']
    else
      var n := b[0] as int * 0x1_0000 + b[1] as int * 0x100 + b[2] as int;
      [Base64Digit(n / 0x4_0000), Base64Digit(n / 0x1000 % 0x40),
       Base64Digit(n / 0x40 % 0x40), Base64Digit(n % 0x40)]
      + Base64Encode(b[3..])
  }

  /** Base64 text never contains a '-', which the batch-id format uses as its separator. */
  lemma {:induction false} Base64HasNoDash(b: seq<byte>)
    ensures '-' !in Base64Encode(b)
  {
    var r := Base64Encode(b);
    forall i | 0 <= i < |r| ensures r[i] != '-' {
      assert IsBase64Char(r[i]);
    }
  }

  // ---------------------------------------------------------------------------------------
  // Decimal formatting

  predicate IsDigit(c: char) {
    '0' <= c <= '9'
  }

  function DigitValue(c: char): (d: nat)
    requires IsDigit(c)
    ensures d < 10
  {
    c as int - '0' as int
  }

  function DigitChar(d: nat): (c: char)
    requires d < 10
    ensures IsDigit(c) && DigitValue(c) == d
  {
    ('0' as int + d) as char
  }

  /** The decimal digits of `n`, most significant first, without leading zeros. */
  function NatToDecimal(n: nat): (r: string)
    ensures |r| >= 1
    ensures forall i | 0 <= i < |r| :: IsDigit(r[i])
    ensures r[0] == '0' ==> n == 0
    decreases n
  {
    if n < 10 then [DigitChar(n)] else NatToDecimal(n / 10) + [DigitChar(n % 10)]
  }

  /** Go's `%d` / `%v` rendering of an integer: a '-' sign for negative values. */
  function IntToDecimal(i: int): (r: string)
    ensures |r| >= 1
    ensures (r[0] == '-') <==> i < 0
  {
    if i < 0 then "-" + NatToDecimal(-i) else NatToDecimal(i)
  }

  /** The value of a string of decimal digits. */
  function ParseDigits(s: string): nat
    requires forall i | 0 <= i < |s| :: IsDigit(s[i])
  {
    if s == [] then 0 else ParseDigits(s[..|s| - 1]) * 10 + DigitValue(s[|s| - 1])
  }

  /** The integer a string written by IntToDecimal denotes, or None for any other text. */
  function ParseInt(s: string): Option<int> {
    if |s| > 0 && s[0] == '-' then
      if |s| > 1 && forall i | 1 <= i < |s| :: IsDigit(s[i]) then Some(0 - ParseDigits(s[1..])) else None
    else
      if |s| > 0 && forall i | 0 <= i < |s| :: IsDigit(s[i]) then Some(ParseDigits(s)) else None
  }

  lemma {:induction false} ParseNatToDecimal(n: nat)
    ensures ParseDigits(NatToDecimal(n)) == n
    decreases n
  {
    if n >= 10 {
      var prefix := NatToDecimal(n / 10);
      var s := prefix + [DigitChar(n % 10)];
      assert s[..|s| - 1] == prefix;
      ParseNatToDecimal(n / 10);
    }
  }

  /** Decimal formatting loses nothing: the text parses back to the integer. */
  lemma {:induction false} ParseIntToDecimal(i: int)
    ensures ParseInt(IntToDecimal(i)) == Some(i)
  {
    var s := IntToDecimal(i);
    if i < 0 {
      var d := NatToDecimal(-i);
      assert s == "-" + d;
      assert s[1..] == d;
      assert forall k | 1 <= k < |s| :: s[k] == d[k - 1];
      ParseNatToDecimal(-i);
    } else {
      assert s == NatToDecimal(i);
      ParseNatToDecimal(i);
    }
  }

  lemma {:induction false} IntToDecimalInjective(a: int, b: int)
    requires IntToDecimal(a) == IntToDecimal(b)
    ensures a == b
  {
    ParseIntToDecimal(a);
    ParseIntToDecimal(b);
  }

  // ---------------------------------------------------------------------------------------
  // Serialised key lists
  //
  // The source stores a batch's key list as a JSON array of strings. The model replaces the
  // JSON text by a simpler self-delimiting byte encoding: three bytes per character (its code
  // point, big-endian) and the byte 0xFF, which cannot start a character, after each key.

  const KeyTerminator: byte := 0xFF

  function EncodeChars(s: string): (r: seq<byte>)
    ensures |r| == 3 * |s|
  {
    if s == [] then []
    else
      var n := s[0] as int;
      [(n / 0x1_0000) as byte, (n / 0x100 % 0x100) as byte, (n % 0x100) as byte] + EncodeChars(s[1..])
  }

  /** The serialised form of a key list. */
  function EncodeKeys(keys: seq<string>): seq<byte> {
    if keys == [] then [] else EncodeChars(keys[0]) + [KeyTerminator] + EncodeKeys(keys[1..])
  }

  predicate IsScalarValue(n: int) {
    (0 <= n < 0xD800) || (0xE000 <= n < 0x11_0000)
  }

  /** Reads one key up to its terminator, returning the key and the bytes after it. */
  function DecodeKey(b: seq<byte>): (r: Option<(string, seq<byte>)>)
    ensures r.Some? ==> |r.value.1| < |b|
    decreases |b|
  {
    if b == [] then None
    else if b[0] == KeyTerminator then Some(("", b[1..]))
    else if |b| < 3 then None
    else
      var n := b[0] as int * 0x1_0000 + b[1] as int * 0x100 + b[2] as int;
      if !IsScalarValue(n) then None
      else match DecodeKey(b[3..])
        case None => None
        case Some((s, rest)) => Some(([n as char] + s, rest))
  }

  /** The key list a stored value denotes, or None when the bytes are not a key list. */
  function DecodeKeys(b: seq<byte>): Option<seq<string>>
    decreases |b|
  {
    if b == [] then Some([])
    else match DecodeKey(b)
      case None => None
      case Some((key, rest)) =>
        match DecodeKeys(rest)
        case None => None
        case Some(keys) => Some([key] + keys)
  }

  lemma {:induction false} CharBytes(c: char)
    ensures var n := c as int;
      (n / 0x1_0000) * 0x1_0000 + (n / 0x100 % 0x100) * 0x100 + n % 0x100 == n
  {
    var n := c as int;
    assert n == (n / 0x100) * 0x100 + n % 0x100;
    assert n / 0x100 == (n / 0x100 / 0x100) * 0x100 + n / 0x100 % 0x100;
    assert n / 0x100 / 0x100 == n / 0x1_0000;
  }

  lemma {:induction false} DecodeEncodedKey(s: string, rest: seq<byte>)
    ensures DecodeKey(EncodeChars(s) + [KeyTerminator] + rest) == Some((s, rest))
  {
    var b := EncodeChars(s) + [KeyTerminator] + rest;
    if s != [] {
      var c := s[0];
      CharBytes(c);
      assert (c as int) / 0x1_0000 <= 0x10;
      assert b[3..] == EncodeChars(s[1..]) + [KeyTerminator] + rest;
      DecodeEncodedKey(s[1..], rest);
      assert [c] + s[1..] == s;
    } else {
      assert b[1..] == rest;
    }
  }

  /** Serialising a key list loses nothing: decoding gives back the same list. */
  lemma {:induction false} DecodeEncodeKeys(keys: seq<string>)
    ensures DecodeKeys(EncodeKeys(keys)) == Some(keys)
  {
    if keys != [] {
      DecodeEncodedKey(keys[0], EncodeKeys(keys[1..]));
      DecodeEncodeKeys(keys[1..]);
      assert [keys[0]] + keys[1..] == keys;
    }
  }

  /** A stored key list as a reader of it sees it: decoding into an empty list, which bytes
      that are not a key list leave empty. */
  function StoredKeys(b: seq<byte>): seq<string> {
    match DecodeKeys(b)
    case None => []
    case Some(keys) => keys
  }

  /** What is stored as a key list reads back as that list. */
  lemma {:induction false} StoredKeysOfEncoded(keys: seq<string>)
    ensures StoredKeys(EncodeKeys(keys)) == keys
  {
    DecodeEncodeKeys(keys);
  }
}
