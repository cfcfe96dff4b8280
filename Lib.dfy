/**
 * The library facade: the account-hash helpers the user interface calls and
 * the one shared session behind the getters and setters.
 *
 * The public-key parsers of the casper platform and the file read are foreign
 * code; they are parameters here, each a total function that either gives a
 * value or fails with its error's text. A public key is of any type `K`, and
 * `toAccountHash` is the platform's derivation of an account hash from it.
 */
module Lib {
  import opened Wrappers
  import opened Encoding
  import opened Errors
  import opened AccountHashes
  import opened AssociatedKeys
  import opened Texts
  import opened Renderer
  import opened SmartContracts

  const PemExtension: string := ".pem"
  const HexKeyFileName: string := "public_key_hex"

  /**
   * `get_account_hash_from_file`: the file is first read as a key file; when
   * that fails a `.pem` file is reported at once, any other file is read as
   * text and parsed as a hex-encoded key. A hex failure is reported with its
   * cause only for a file whose name ends in `public_key_hex`.
   */
  function GetAccountHashFromFile<K>(path: string,
                                     fromFile: string -> Result<K, string>,
                                     readToString: string -> Result<string, string>,
                                     fromHex: string -> Result<K, string>,
                                     toAccountHash: K -> AccountHash): (r: Result<string, Error>)
    ensures r.Ok? ==> FromFormattedStr(r.value).Ok?
    ensures r.Err? ==> r.error.ParsePublicKeyFile? && r.error.file == path
  {
    match fromFile(path)
    case Ok(key) => FormatThenParse(toAccountHash(key)); Ok(ToFormattedString(toAccountHash(key)))
    case Err(fileError) =>
      if EndsWith(path, PemExtension) then Err(MakeParseFileError(path, fileError))
      else
        match readToString(path)
        case Err(readError) => Err(MakeParseFileError(path, readError))
        case Ok(contents) =>
          match fromHex(contents)
          case Ok(key) => FormatThenParse(toAccountHash(key)); Ok(ToFormattedString(toAccountHash(key)))
          case Err(hexError) =>
            if EndsWith(path, HexKeyFileName) then Err(MakeParseFileError(path, hexError))
            else Err(ParsePublicKeyFile(path, None))
  }

  /** A key file that parses gives the formatted account hash of its key, and nothing else is tried. */
  lemma KeyFileFirst<K>(path: string, fromFile: string -> Result<K, string>,
                        readToString: string -> Result<string, string>, fromHex: string -> Result<K, string>,
                        toAccountHash: K -> AccountHash)
    requires fromFile(path).Ok?
    ensures GetAccountHashFromFile(path, fromFile, readToString, fromHex, toAccountHash)
            == Ok(ToFormattedString(toAccountHash(fromFile(path).value)))
    ensures FromFormattedStr(GetAccountHashFromFile(path, fromFile, readToString, fromHex, toAccountHash).value)
            == Ok(toAccountHash(fromFile(path).value))
  {
    FormatThenParse(toAccountHash(fromFile(path).value));
  }

  /**
   * A `.pem` file that does not parse is reported with the parser's message,
   * and the hex route is never taken: the result does not depend on the file
   * read or the hex parser.
   */
  lemma PemFailureIsFinal<K>(path: string, fromFile: string -> Result<K, string>,
                             readToString: string -> Result<string, string>, fromHex: string -> Result<K, string>,
                             otherRead: string -> Result<string, string>, otherHex: string -> Result<K, string>,
                             toAccountHash: K -> AccountHash)
    requires fromFile(path).Err? && EndsWith(path, PemExtension)
    ensures GetAccountHashFromFile(path, fromFile, readToString, fromHex, toAccountHash)
            == Err(ParsePublicKeyFile(path, Some(fromFile(path).error)))
    ensures GetAccountHashFromFile(path, fromFile, readToString, fromHex, toAccountHash)
            == GetAccountHashFromFile(path, fromFile, otherRead, otherHex, toAccountHash)
  {
  }

  /** The outcome of the file route, case by case, once the key-file parse has failed on a file that is not `.pem`. */
  lemma HexFallback<K>(path: string, fromFile: string -> Result<K, string>,
                       readToString: string -> Result<string, string>, fromHex: string -> Result<K, string>,
                       toAccountHash: K -> AccountHash)
    requires fromFile(path).Err? && !EndsWith(path, PemExtension)
    ensures var r := GetAccountHashFromFile(path, fromFile, readToString, fromHex, toAccountHash);
            && (readToString(path).Err? ==> r == Err(ParsePublicKeyFile(path, Some(readToString(path).error))))
            && (readToString(path).Ok? && fromHex(readToString(path).value).Ok? ==>
                  r == Ok(ToFormattedString(toAccountHash(fromHex(readToString(path).value).value))))
            && (readToString(path).Ok? && fromHex(readToString(path).value).Err? ==>
                  r == Err(ParsePublicKeyFile(path, if EndsWith(path, HexKeyFileName)
                                                     then Some(fromHex(readToString(path).value).error)
                                                     else None)))
  {
  }

  /**
   * The file route succeeds exactly when one of the two parsers accepts the
   * key, and the error carries no cause exactly when the file was read, both
   * parsers failed, and the name ends neither in `.pem` nor in `public_key_hex`.
   */
  lemma FileRouteOutcome<K>(path: string, fromFile: string -> Result<K, string>,
                            readToString: string -> Result<string, string>, fromHex: string -> Result<K, string>,
                            toAccountHash: K -> AccountHash)
    ensures var r := GetAccountHashFromFile(path, fromFile, readToString, fromHex, toAccountHash);
            && (r.Ok? <==> fromFile(path).Ok?
                           || (!EndsWith(path, PemExtension) && readToString(path).Ok? && fromHex(readToString(path).value).Ok?))
            && (r.Err? && r.error.inner.None? <==>
                  && fromFile(path).Err? && !EndsWith(path, PemExtension)
                  && readToString(path).Ok? && fromHex(readToString(path).value).Err?
                  && !EndsWith(path, HexKeyFileName))
  {
  }

  /** `get_account_hash_from_hex_encoded_public_key`: the formatted account hash of the key, or the parser's message. */
  function GetAccountHashFromHexEncodedPublicKey<K>(hexPublicKey: string, fromHex: string -> Result<K, string>,
                                                    toAccountHash: K -> AccountHash): (r: Result<string, Error>)
    ensures r.Ok? <==> fromHex(hexPublicKey).Ok?
    ensures r.Ok? ==> FromFormattedStr(r.value) == Ok(toAccountHash(fromHex(hexPublicKey).value))
    ensures r.Err? ==> r.error == ParseHexPublicKey(fromHex(hexPublicKey).error)
  {
    match fromHex(hexPublicKey)
    case Ok(key) => FormatThenParse(toAccountHash(key)); Ok(ToFormattedString(toAccountHash(key)))
    case Err(message) => Err(ParseHexPublicKey(message))
  }

  /** `validate_account_hash`: `Ok` exactly when the formatted-hash parser accepts the text. */
  function ValidateAccountHash(formattedAccountHash: string): (r: Result<(), Error>)
    ensures r.Ok? <==> FromFormattedStr(formattedAccountHash).Ok?
    ensures r.Err? ==> r.error == ParseAccountHash(ErrorMessage(FromFormattedStr(formattedAccountHash).error))
  {
    match FromFormattedStr(formattedAccountHash)
    case Ok(_) => Ok(())
    case Err(e) => Err(ParseAccountHash(ErrorMessage(e)))
  }

  /** A valid hash is one the key-set builder accepts for the same text: both use the same parser. */
  lemma ValidateAgreesWithBuilder(formattedAccountHash: string, weight: u8)
    ensures ValidateAccountHash(formattedAccountHash).Ok? <==> NewSecondary(formattedAccountHash, weight).Ok?
    ensures ValidateAccountHash(formattedAccountHash).Err? ==>
              NewSecondary(formattedAccountHash, weight) == Err(ValidateAccountHash(formattedAccountHash).error)
  {
  }

  /** Every formatted account hash is valid, in particular those the key-file helpers return. */
  lemma FormattedHashesAreValid(h: AccountHash)
    ensures ValidateAccountHash(ToFormattedString(h)) == Ok(())
  {
    FormatThenParse(h);
  }

  /** The one shared session the library's free functions work on. */
  class Library {
    const session: SmartContract

    ghost predicate Valid()
      reads this, session
    {
      session.Valid()
    }

    /** The session starts out as the default one. */
    constructor ()
      ensures Valid() && fresh(session)
      ensures session.rootDir == [] && session.contractName == [] && session.associatedKeys == []
      ensures session.keyManagementWeight == 0 && session.deploymentWeight == 0
    {
      session := new SmartContract.Default();
    }

    /** `set_project_path`: replaces the root directory and nothing else. */
    method SetProjectPath(rootDir: string)
      modifies session
      ensures session.rootDir == rootDir
      ensures session.contractName == old(session.contractName)
      ensures session.associatedKeys == old(session.associatedKeys)
      ensures session.keyManagementWeight == old(session.keyManagementWeight)
      ensures session.deploymentWeight == old(session.deploymentWeight)
    {
      session.rootDir := rootDir;
    }

    /** `project_path`: the root directory last set. */
    method ProjectPath() returns (rootDir: string)
      ensures rootDir == session.rootDir
    {
      rootDir := session.rootDir;
    }

    /** `set_contract_name`: replaces the contract name and nothing else. */
    method SetContractName(name: string)
      modifies session
      ensures session.contractName == name
      ensures session.rootDir == old(session.rootDir)
      ensures session.associatedKeys == old(session.associatedKeys)
      ensures session.keyManagementWeight == old(session.keyManagementWeight)
      ensures session.deploymentWeight == old(session.deploymentWeight)
    {
      session.contractName := name;
    }

    /** `contract_name`: the contract name last set. */
    method ContractName() returns (name: string)
      ensures name == session.contractName
    {
      name := session.contractName;
    }

    /** `set_associated_keys_and_thresholds`: the session's own update, all or nothing. */
    method SetAssociatedKeysAndThresholds(keys: seq<Entry>, primaryKeyShouldBeDeleted: bool,
                                          keyManagementWeight: u8, deploymentWeight: u8)
      returns (r: Result<(), Error>)
      modifies session
      ensures old(Valid()) ==> Valid()
      ensures match BuildKeySet(keys, primaryKeyShouldBeDeleted)
              case Ok(built) =>
                && r == Ok(())
                && session.associatedKeys == built
                && session.keyManagementWeight == keyManagementWeight
                && session.deploymentWeight == deploymentWeight
              case Err(e) =>
                && r == Err(e)
                && session.associatedKeys == old(session.associatedKeys)
                && session.keyManagementWeight == old(session.keyManagementWeight)
                && session.deploymentWeight == old(session.deploymentWeight)
      ensures session.rootDir == old(session.rootDir) && session.contractName == old(session.contractName)
    {
      r := session.SetAssociatedKeysAndThresholds(keys, primaryKeyShouldBeDeleted, keyManagementWeight, deploymentWeight);
    }

    /** `main_rs_contents`: the session's generated source. */
    method MainRsContents() returns (contents: string)
      ensures contents == Render(Source, session.associatedKeys, session.keyManagementWeight, session.deploymentWeight)
    {
      contents := session.MainRsContents();
    }
  }
}
