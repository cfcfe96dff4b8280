/**
 * The text encodings the generator relies on: Rust's `{}` of an unsigned
 * integer (decimal), lower-case base16 as written by the account-hash
 * formatter (and its case-insensitive decoder), and Rust's `{:?}` of a byte
 * array, `[b0, b1, ...]`.
 */
module Encoding {
  import opened Wrappers

  /** Rust's `u8`. */
  type u8 = x: int | 0 <= x < 256

  predicate IsDigit(c: char) {
    '0' <= c <= '9'
  }

  predicate AllDigits(s: string) {
    forall i :: 0 <= i < |s| ==> IsDigit(s[i])
  }

  function DigitChar(d: nat): char
    requires d < 10
  {
    (48 + d) as char
  }

  function DigitValue(c: char): nat
    requires IsDigit(c)
  {
    c as int - 48
  }

  /** Rust's `{}` of an unsigned integer: most significant digit first, no leading zeros. */
  function Decimal(n: nat): (s: string)
    ensures |s| > 0 && AllDigits(s)
    decreases n
  {
    if n < 10 then [DigitChar(n)] else Decimal(n / 10) + [DigitChar(n % 10)]
  }

  /** The value of a string of decimal digits: the partner of `Decimal`. */
  function DecimalValue(s: string): nat
    requires AllDigits(s)
  {
    if s == [] then 0 else DecimalValue(s[..|s| - 1]) * 10 + DigitValue(s[|s| - 1])
  }

  /** Reading back a rendered number gives the number, and no number is rendered with a leading zero. */
  lemma {:induction false} DecimalRoundTrip(n: nat)
    ensures DecimalValue(Decimal(n)) == n
    ensures |Decimal(n)| == 1 || Decimal(n)[0] != '0'
    decreases n
  {
    var s := Decimal(n);
    if n >= 10 {
      DecimalRoundTrip(n / 10);
      assert s[..|s| - 1] == Decimal(n / 10);
      assert s[0] == Decimal(n / 10)[0];
    }
  }

  /** Distinct numbers are rendered as distinct strings. */
  lemma DecimalInjective(m: nat, n: nat)
    requires Decimal(m) == Decimal(n)
    ensures m == n
  {
    DecimalRoundTrip(m);
    DecimalRoundTrip(n);
  }

  // ---------------------------------------------------------------- base16

  function HexDigit(d: nat): (c: char)
    requires d < 16
  {
    if d < 10 then (48 + d) as char else (87 + d) as char
  }

  /** The value of one base16 digit; both letter cases are accepted. */
  function HexValue(c: char): (r: Option<nat>)
    ensures r.Some? ==> r.value < 16
  {
    if '0' <= c <= '9' then Some(c as int - 48)
    else if 'a' <= c <= 'f' then Some(c as int - 87)
    else if 'A' <= c <= 'F' then Some(c as int - 55)
    else None
  }

  function ToLowerAscii(c: char): char {
    if 'A' <= c <= 'Z' then (c as int + 32) as char else c
  }

  function ToLower(s: string): (r: string)
    ensures |r| == |s|
    ensures forall i :: 0 <= i < |s| ==> r[i] == ToLowerAscii(s[i])
  {
    seq(|s|, i requires 0 <= i < |s| => ToLowerAscii(s[i]))
  }

  /** Lower-case base16, two digits per byte, high nibble first. */
  function EncodeHex(bytes: seq<u8>): (s: string)
    ensures |s| == 2 * |bytes|
  {
    if bytes == [] then []
    else [HexDigit(bytes[0] / 16), HexDigit(bytes[0] % 16)] + EncodeHex(bytes[1..])
  }

  datatype HexError =
    | OddLength(length: nat)
    | InvalidCharacter(c: char, index: nat)

  /** Base16 decoding: an odd-length input is refused before any digit is looked at. */
  function DecodeHex(s: string): (r: Result<seq<u8>, HexError>)
    ensures r.Ok? ==> 2 * |r.value| == |s|
  {
    if |s| % 2 != 0 then Err(OddLength(|s|)) else DecodePairs(s, 0)
  }

  /** Decodes digit pairs left to right; the first invalid digit is reported with its index. */
  function DecodePairs(s: string, offset: nat): (r: Result<seq<u8>, HexError>)
    requires |s| % 2 == 0
    ensures r.Ok? ==> 2 * |r.value| == |s|
    decreases |s|
  {
    if s == [] then Ok([])
    else if HexValue(s[0]).None? then Err(InvalidCharacter(s[0], offset))
    else if HexValue(s[1]).None? then Err(InvalidCharacter(s[1], offset + 1))
    else
      match DecodePairs(s[2..], offset + 2)
      case Err(e) => Err(e)
      case Ok(rest) => Ok([HexValue(s[0]).value * 16 + HexValue(s[1]).value] + rest)
  }

  /** Decoding what the encoder wrote gives back the bytes. */
  lemma {:induction false} HexRoundTrip(bytes: seq<u8>, offset: nat)
    ensures DecodePairs(EncodeHex(bytes), offset) == Ok(bytes)
    decreases |bytes|
  {
    if bytes != [] {
      var s := EncodeHex(bytes);
      var b := bytes[0];
      assert s[0] == HexDigit(b / 16) && s[1] == HexDigit(b % 16);
      assert s[2..] == EncodeHex(bytes[1..]);
      HexRoundTrip(bytes[1..], offset + 2);
      assert [b] + bytes[1..] == bytes;
    }
  }

  /** A digit the decoder accepts is written back by the encoder in lower case. */
  lemma HexDigitOfValue(c: char)
    requires HexValue(c).Some?
    ensures HexDigit(HexValue(c).value) == ToLowerAscii(c)
  {
  }

  lemma EncodePair(hi: nat, lo: nat, rest: seq<u8>)
    requires hi < 16 && lo < 16
    ensures EncodeHex([(hi * 16 + lo) as u8] + rest) == [HexDigit(hi), HexDigit(lo)] + EncodeHex(rest)
  {
    var b: u8 := (hi * 16 + lo) as u8;
    assert b / 16 == hi && b % 16 == lo;
    assert ([b] + rest)[1..] == rest;
  }

  lemma ToLowerPair(s: string)
    requires |s| >= 2
    ensures ToLower(s) == [ToLowerAscii(s[0]), ToLowerAscii(s[1])] + ToLower(s[2..])
  {
  }

  /** Whatever the decoder accepts, the encoder writes back in lower case. */
  lemma {:induction false} DecodeThenEncode(s: string, offset: nat)
    requires |s| % 2 == 0
    requires DecodePairs(s, offset).Ok?
    ensures EncodeHex(DecodePairs(s, offset).value) == ToLower(s)
    decreases |s|
  {
    if s != [] {
      var hi, lo := HexValue(s[0]).value, HexValue(s[1]).value;
      var rest := DecodePairs(s[2..], offset + 2).value;
      assert DecodePairs(s, offset).value == [(hi * 16 + lo) as u8] + rest;
      DecodeThenEncode(s[2..], offset + 2);
      EncodePair(hi, lo, rest);
      HexDigitOfValue(s[0]);
      HexDigitOfValue(s[1]);
      ToLowerPair(s);
    }
  }

  // ---------------------------------------------------------------- {:?}

  /** Rust's `{:?}` of a byte array: decimal bytes joined by ", " inside brackets. */
  function DebugBytes(bytes: seq<u8>): (s: string)
    ensures |s| >= 2 && s[0] == '[' && s[|s| - 1] == ']'
    ensures s == "[]" <==> bytes == []
    ensures bytes != [] ==> IsDigit(s[1])
  {
    if bytes == [] then "[]" else "[" + Decimal(bytes[0]) + DebugTail(bytes[1..]) + "]"
  }

  /** The elements after the first, each introduced by ", ". */
  function DebugTail(bytes: seq<u8>): (s: string)
    ensures s == [] <==> bytes == []
    ensures s != [] ==> s[0] == ','
  {
    if bytes == [] then "" else ", " + Decimal(bytes[0]) + DebugTail(bytes[1..])
  }

  /** The number of leading digits of a text: where one rendered number ends. */
  function DigitRun(s: string): (n: nat)
    ensures n <= |s|
  {
    if s == [] || !IsDigit(s[0]) then 0 else 1 + DigitRun(s[1..])
  }

  /** A run of digits followed by nothing or by a non-digit is read back whole. */
  lemma {:induction false} DigitRunOf(d: string, t: string)
    requires AllDigits(d)
    requires t == [] || !IsDigit(t[0])
    ensures DigitRun(d + t) == |d|
    decreases |d|
  {
    if d == [] {
      assert d + t == t;
    } else {
      assert (d + t)[1..] == d[1..] + t;
      DigitRunOf(d[1..], t);
    }
  }

  /** A number's text followed by the rest of a list splits in one way only. */
  lemma SplitNumber(a: nat, ta: string, b: nat, tb: string)
    requires ta == [] || ta[0] == ','
    requires tb == [] || tb[0] == ','
    requires Decimal(a) + ta == Decimal(b) + tb
    ensures a == b && ta == tb
  {
    var da, db := Decimal(a), Decimal(b);
    DigitRunOf(da, ta);
    DigitRunOf(db, tb);
    assert da == (da + ta)[..|da|];
    assert db == (db + tb)[..|db|];
    DecimalInjective(a, b);
    assert ta == (da + ta)[|da|..];
    assert tb == (db + tb)[|db|..];
  }

  /** The list after the first element determines the bytes it lists. */
  lemma {:induction false} DebugTailInjective(a: seq<u8>, b: seq<u8>)
    requires DebugTail(a) == DebugTail(b)
    ensures a == b
    decreases |a|
  {
    if a != [] {
      var ta, tb := DebugTail(a[1..]), DebugTail(b[1..]);
      assert DebugTail(a) == ", " + (Decimal(a[0]) + ta);
      assert DebugTail(b) == ", " + (Decimal(b[0]) + tb);
      assert Decimal(a[0]) + ta == DebugTail(a)[2..];
      assert Decimal(b[0]) + tb == DebugTail(b)[2..];
      SplitNumber(a[0], ta, b[0], tb);
      DebugTailInjective(a[1..], b[1..]);
      assert a == [a[0]] + a[1..];
      assert b == [b[0]] + b[1..];
    }
  }

  /** The `{:?}` text of a byte array determines the bytes: different arrays are never written alike. */
  lemma DebugBytesInjective(a: seq<u8>, b: seq<u8>)
    requires DebugBytes(a) == DebugBytes(b)
    ensures a == b
  {
    if a != [] {
      var s := DebugBytes(a);
      var ta, tb := DebugTail(a[1..]), DebugTail(b[1..]);
      assert s == "[" + (Decimal(a[0]) + ta) + "]";
      assert s == "[" + (Decimal(b[0]) + tb) + "]";
      assert Decimal(a[0]) + ta == s[1..|s| - 1];
      assert Decimal(b[0]) + tb == s[1..|s| - 1];
      SplitNumber(a[0], ta, b[0], tb);
      DebugTailInjective(a[1..], b[1..]);
      assert a == [a[0]] + a[1..];
      assert b == [b[0]] + b[1..];
    }
  }
}
