/** The library's error type and the messages its `Display` writes. */
module Errors {
  import opened Wrappers

  /** Rust's `inner` of the two single-message variants is called `message` here. */
  datatype Error =
    | ParsePublicKeyFile(file: string, inner: Option<string>)
    | ParseHexPublicKey(message: string)
    | ParseAccountHash(message: string)
    | NoKeys

  /** Every message but the one for `NoKeys` starts with these words. */
  const FailedToParse: string := "failed to parse "
  const HexPublicKeyPrefix: string := FailedToParse + "as a hex-encoded public key: "
  const AccountHashPrefix: string := FailedToParse + "as a formatted account hash: "
  const NoKeysMessage: string := "at least one key must be provided"
  const PublicKeyFileEnd: string := " as a public key"

  /** The message `Display` writes for an error. */
  function Display(e: Error): (m: string)
    ensures e.NoKeys? ==> m == NoKeysMessage
    ensures !e.NoKeys? ==> |FailedToParse| <= |m| && m[..|FailedToParse|] == FailedToParse
    ensures e.ParsePublicKeyFile? ==> |FailedToParse| + |e.file| <= |m| && m[|FailedToParse|..|FailedToParse| + |e.file|] == e.file
  {
    match e
    case ParsePublicKeyFile(file, inner) =>
      var tail := match inner case Some(source) => PublicKeyFileEnd + ": " + source case None => PublicKeyFileEnd;
      ThreePieces(FailedToParse, file, tail);
      FailedToParse + file + tail
    case ParseHexPublicKey(inner) =>
      ThreePieces(FailedToParse, "as a hex-encoded public key: ", inner);
      HexPublicKeyPrefix + inner
    case ParseAccountHash(inner) =>
      ThreePieces(FailedToParse, "as a formatted account hash: ", inner);
      AccountHashPrefix + inner
    case NoKeys => NoKeysMessage
  }

  lemma ThreePieces(a: string, b: string, c: string)
    ensures |a| + |b| <= |a + b + c|
    ensures (a + b + c)[..|a|] == a && (a + b + c)[|a|..|a| + |b|] == b
  {
    assert (a + b + c)[..|a + b|] == a + b;
  }

  /** The error a failed key-file parse reports: the path and the parser's message. */
  function MakeParseFileError(path: string, message: string): (e: Error)
    ensures e.ParsePublicKeyFile? && e.file == path && e.inner == Some(message)
  {
    ParsePublicKeyFile(path, Some(message))
  }

  /** The fixed "no keys" message is written for `NoKeys` and for no other error. */
  lemma NoKeysMessageIsUnique(e: Error)
    ensures Display(e) == NoKeysMessage <==> e == NoKeys
  {
    match e
    case ParsePublicKeyFile(file, _) =>
      assert Display(e)[0] == FailedToParse[0];
    case ParseHexPublicKey(_) =>
      assert Display(e)[0] == HexPublicKeyPrefix[0];
    case ParseAccountHash(_) =>
      assert Display(e)[0] == AccountHashPrefix[0];
    case NoKeys =>
  }

  /** A key-file message names the file; the cause is appended, after ": ", only when there is one. */
  lemma PublicKeyFileMessage(file: string, inner: Option<string>)
    ensures var m := Display(ParsePublicKeyFile(file, inner));
            var head := FailedToParse + file + PublicKeyFileEnd;
            |head| <= |m| && m[..|head|] == head &&
            m[|FailedToParse|..|FailedToParse| + |file|] == file &&
            (inner.None? <==> |m| == |head|) &&
            (inner.Some? ==> m[|head|..] == ": " + inner.value)
  {
    var head := FailedToParse + file + PublicKeyFileEnd;
    assert head[|FailedToParse|..|FailedToParse| + |file|] == file;
  }

  /** The hex-key and account-hash messages carry the cause verbatim after their fixed prefixes. */
  lemma PrefixedMessages(inner: string)
    ensures Display(ParseHexPublicKey(inner))[..|HexPublicKeyPrefix|] == HexPublicKeyPrefix
    ensures Display(ParseHexPublicKey(inner))[|HexPublicKeyPrefix|..] == inner
    ensures Display(ParseAccountHash(inner))[..|AccountHashPrefix|] == AccountHashPrefix
    ensures Display(ParseAccountHash(inner))[|AccountHashPrefix|..] == inner
  {
  }
}
