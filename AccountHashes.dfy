/**
 * The account identity of the casper platform: a 32-byte hash with a formatted
 * text form, "account-hash-" followed by the bytes in base16. The platform's
 * own parser and formatter are foreign code; this module is a stand-in that
 * follows their documented format.
 */
module AccountHashes {
  import opened Wrappers
  import opened Encoding

  const HashLength: nat := 32
  const FormattedPrefix: string := "account-hash-"

  type HashBytes = s: seq<u8> | |s| == HashLength witness seq(32, _ => 0)

  datatype AccountHash = AccountHash(value: HashBytes)

  datatype FromStrError =
    | InvalidPrefix
    | Hex(cause: HexError)
    | WrongLength(length: nat)

  /** The error's text as the parser reports it. */
  function ErrorMessage(e: FromStrError): string {
    match e
    case InvalidPrefix => "prefix is not 'account-hash-'"
    case Hex(_) => "failed to decode address portion from hex"
    case WrongLength(_) => "address portion is wrong length"
  }

  /** The canonical formatted string: the prefix, then lower-case base16 of the 32 bytes. */
  function ToFormattedString(h: AccountHash): (s: string)
    ensures |s| == |FormattedPrefix| + 2 * HashLength
    ensures s[..|FormattedPrefix|] == FormattedPrefix
  {
    FormattedPrefix + EncodeHex(h.value)
  }

  /** Strips the prefix, decodes the rest as base16 and insists on exactly 32 bytes. */
  function FromFormattedStr(s: string): (r: Result<AccountHash, FromStrError>)
    ensures r.Ok? ==> |s| == |FormattedPrefix| + 2 * HashLength && s[..|FormattedPrefix|] == FormattedPrefix
    ensures r == Err(InvalidPrefix) <==> |s| < |FormattedPrefix| || s[..|FormattedPrefix|] != FormattedPrefix
    ensures r.Err? && r.error.WrongLength? ==> r.error.length != HashLength
  {
    if |s| < |FormattedPrefix| || s[..|FormattedPrefix|] != FormattedPrefix then Err(InvalidPrefix)
    else
      match DecodeHex(s[|FormattedPrefix|..])
      case Err(e) => Err(Hex(e))
      case Ok(bytes) => if |bytes| == HashLength then Ok(AccountHash(bytes)) else Err(WrongLength(|bytes|))
  }

  /** Parsing the formatted string of a hash always succeeds and gives back the same hash. */
  lemma FormatThenParse(h: AccountHash)
    ensures FromFormattedStr(ToFormattedString(h)) == Ok(h)
  {
    var s := ToFormattedString(h);
    assert s[..|FormattedPrefix|] == FormattedPrefix;
    assert s[|FormattedPrefix|..] == EncodeHex(h.value);
    HexRoundTrip(h.value, 0);
  }

  /** Formatting a parsed hash gives the input with its base16 part in lower case. */
  lemma ParseThenFormat(s: string)
    requires FromFormattedStr(s).Ok?
    ensures ToFormattedString(FromFormattedStr(s).value) == FormattedPrefix + ToLower(s[|FormattedPrefix|..])
  {
    DecodeThenEncode(s[|FormattedPrefix|..], 0);
  }

  /** Two strings that differ only in the letter case of their base16 part name the same hash. */
  lemma ParseIgnoresCase(s: string, t: string)
    requires FromFormattedStr(s).Ok? && FromFormattedStr(t).Ok?
    ensures FromFormattedStr(s) == FromFormattedStr(t) <==>
            ToLower(s[|FormattedPrefix|..]) == ToLower(t[|FormattedPrefix|..])
  {
    var hs, ht := FromFormattedStr(s).value, FromFormattedStr(t).value;
    ParseThenFormat(s);
    ParseThenFormat(t);
    if ToLower(s[|FormattedPrefix|..]) == ToLower(t[|FormattedPrefix|..]) {
      FormatThenParse(hs);
      FormatThenParse(ht);
    }
    if hs == ht {
      assert ToFormattedString(hs)[|FormattedPrefix|..] == ToLower(s[|FormattedPrefix|..]);
      assert ToFormattedString(ht)[|FormattedPrefix|..] == ToLower(t[|FormattedPrefix|..]);
    }
  }
}
