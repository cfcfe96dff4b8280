# casper-multisig-tool, modelled in Dafny

casper-multisig-tool generates a casper smart contract that turns an account into a multisig account. The user gives:

- an ordered list of keys, each a formatted account hash with a weight;
- whether the original (primary) key should be removed once the others are added;
- two action thresholds, one for key management and one for deployment.

The tool keeps these in one session object. From the session it writes a contract crate: `src/main.rs` and a `Cargo.toml`. A library facade exposes the session to the user interface, together with helpers that derive or check account hashes.

This project models that path from configuration to generated source. It has these modules:

- `AssociatedKeys`: the key kinds and the two key constructors. It also holds the key-set builder:
  - `BuildKeySet` is its specification, and `BuildAssociatedKeys` is the loop that implements it;
  - the first entry becomes the primary key, every later entry a secondary key, and the first entry that fails to parse decides the error.
- `SmartContracts`: the session class `SmartContract`, with:
  - its all-or-nothing update of the key set and thresholds;
  - the generated `main.rs` text;
  - the project directory;
  - the `Cargo.toml` text.
- `Renderer`: the text of `src/main.rs`.
  - The fixed pieces of that text are the fields of a `Template`. `Source` is the template holding the generator's own characters. The layout lemmas hold for every template, and the few facts that depend on actual characters are gathered in `WellFormedTemplate` and proved of `Source`.
  - `Render` specifies the text. `WriteMainRs` builds it step by step as the generator does, with one loop for the key constants and one for the add statements.
  - `CallBody` lists the statements of the generated `call()` as values, and `RenderIsCallBody` ties the text to that list.
- `Errors`: the library's error type and the messages its `Display` writes.
- `Lib`: the library facade.
  - The class `Library` holds the one shared session, with its getters, setters and delegating methods.
  - It also holds the key-file and hex-key helpers and the account-hash validator.
  - The platform's public-key parsers and the file read are foreign code, so they are function parameters.
- `AccountHashes` and `Encoding`: the formatted account hash ("account-hash-" followed by base16 of 32 bytes), decimal text of numbers, and the `{:?}` text of a byte array. These are the formats the generated source and the helpers use.
- `Paths`, `Texts`, `Wrappers`: path joining on a Unix host, text-layout lemmas, and `Option`/`Result`.

## Model

| member | source | states |
|---|---|---|
| AssociatedKeys.NewPrimary | src/smart_contract.rs:28-47 | Succeeds if and only if the hash parses. It then gives the parsed hash as a primary key with the caller's deletion flag and weight; otherwise `ParseAccountHash` with the parser's message. |
| AssociatedKeys.NewSecondary | src/smart_contract.rs:49-62 | Succeeds if and only if the hash parses. It then gives the parsed hash as a secondary key with the caller's weight; otherwise `ParseAccountHash` with the parser's message. |
| AssociatedKeys.RemoveAfterCreation | src/smart_contract.rs:64-71 | True exactly for a primary key whose deletion flag is set, so never for a secondary key. |
| AssociatedKeys.ParseSecondaries | src/smart_contract.rs:117-120 | Parsed secondary entries give one secondary key per entry; a failure is a `ParseAccountHash` error. |
| AssociatedKeys.BuildKeySet | src/smart_contract.rs:98-127 | `NoKeys` exactly for an empty list, and any other failure is `ParseAccountHash`. A built set has one key per entry, a primary key with the caller's deletion flag first, and secondary keys after it. |
| AssociatedKeys.BuildAssociatedKeys | src/smart_contract.rs:105-121 | The builder loop (the primary entry, then each remaining entry pushed in turn, stopping at the first failure) returns exactly the key set `BuildKeySet` specifies. |
| AssociatedKeys.EmptyEntriesHaveNoKeys | src/smart_contract.rs:107-109 | An empty entry list is refused with `NoKeys`. |
| AssociatedKeys.BuildSucceedsIffAllParse | src/smart_contract.rs:109-120 | A non-empty entry list builds if and only if every entry's hash parses. |
| AssociatedKeys.BuildFailsAtFirstBadEntry | src/smart_contract.rs:110-118 | A failed build reports `ParseAccountHash` carrying the parser's message for the first entry that does not parse. |
| AssociatedKeys.BuildShape | src/smart_contract.rs:105-122 | A built key set has one key per entry, in order, with each entry's hash and weight. The first key is primary with the caller's deletion flag; every other key is secondary and is never removed. |
| AssociatedKeys.SecondariesSucceed | src/smart_contract.rs:117-120 | The secondary entries parse if and only if each of their hashes parses, and then key i is entry i's. |
| AssociatedKeys.SecondariesFirstError | src/smart_contract.rs:117-120 | When a secondary entry fails, the error is that of the first failing one. |
| AssociatedKeys.BuildFromFormatted | src/smart_contract.rs:98-127 | Entries written by the hash formatter always build, back to the same hashes and weights in the same order. |
| SmartContracts.SmartContract.Default | src/smart_contract.rs:84-95 | A new session has empty paths, no keys and zero thresholds. |
| SmartContracts.SmartContract.SetAssociatedKeysAndThresholds | src/smart_contract.rs:98-127 | All or nothing. On success the stored keys are the built set and both thresholds are the arguments. On an error the error is returned and keys and thresholds keep their old values. The root directory and contract name never change, and the stored set keeps its primary-first shape. |
| SmartContracts.SmartContract.MainRsContents | src/smart_contract.rs:157-256 | The session's generated `main.rs` is `Render` of its keys and thresholds with the generator's template. It is empty exactly when there is no key or a threshold is zero. When it is not empty, it ends with the removal of the main key and the closing brace exactly when the primary key is to be removed. |
| SmartContracts.SmartContract.ProjectDir | src/smart_contract.rs:399-401 | The project directory is the contract name when that is absolute. Otherwise it starts with the root directory and ends with the contract name. One `/` stands between them when the root is not empty and does not already end in `/`, and none otherwise. |
| SmartContracts.SmartContract.CargoTomlContents | src/smart_contract.rs:275-298 | The session's manifest carries its contract name, which reads back unchanged. |
| SmartContracts.CargoToml | src/smart_contract.rs:275-298 | The manifest starts with the fixed head and ends with the fixed tail, and its length is fixed but for the name, which it holds twice. |
| SmartContracts.CargoTomlNames | src/smart_contract.rs:275-298 | The manifest is the fixed head, the name, the fixed middle, the name again as the binary name, and the fixed tail. |
| SmartContracts.CargoTomlReadBack | src/smart_contract.rs:275-298 | `CargoTomlNameOf` inverts the manifest template. |
| SmartContracts.CargoTomlInjective | src/smart_contract.rs:275-298 | Different contract names give different manifests. |
| Paths.Join | src/smart_contract.rs:400 | Joining an absolute path gives that path. Joining a relative path gives a text that starts with the base and ends with the path. One `/` stands between them exactly when the base is not empty and does not already end in `/`. |
| Renderer.Render | src/smart_contract.rs:157-256 | The text is empty when the session is not ready. A ready session's text starts with the preamble and ends with the closing brace of `call()`. |
| Renderer.WriteMainRs | src/smart_contract.rs:157-256 | The step-by-step construction yields exactly `Render`: the empty text when not ready, otherwise the five pieces in order. |
| Renderer.WriteKeyBlocks | src/smart_contract.rs:165-202 | After the loop the text is the preamble followed by one constants block per key, in key order. |
| Renderer.WriteAddStatements | src/smart_contract.rs:220-229 | After the loop the text has gained the add statements of secondary keys 1 to n-1, in order. |
| Renderer.RenderPieces | src/smart_contract.rs:157-256 | A ready session's text is the preamble, the key blocks, the thresholds with the opening of `call()`, the add statements, and the closing statements, one after the other. |
| Renderer.RenderEmptyIff | src/smart_contract.rs:157-163 | The text is empty if and only if there is no key or either threshold is zero. A default session therefore renders the empty text. |
| Renderer.KeyBlockAt | src/smart_contract.rs:167-202 | The constants block of key k, under `MAIN_ACCOUNT` for k = 0 and `ACCOUNT_k` otherwise, stands in the text at its offset. |
| Renderer.KeyBlocksInOrder | src/smart_contract.rs:188-202 | The block of a later key starts after the block of an earlier key ends, so the blocks appear in ascending key order. |
| Renderer.KeyBlockShowsKey | src/smart_contract.rs:177-186 | A key's block holds the key's formatted account hash, the `{:?}` text of its bytes, and its decimal weight. |
| Renderer.ConstNamesDistinct | src/smart_contract.rs:179-193 | No two keys' constants share a name. |
| Renderer.AddStatementNamesItsKey | src/smart_contract.rs:220-229 | The add statement for secondary key i names `ACCOUNT_i_HASH` and `ACCOUNT_i_WEIGHT`, the same two names key i's constants block declares. |
| Renderer.CallBodyOrder | src/smart_contract.rs:209-253 | `call()` runs the weight update first and only there, then adds keys 1 to n-1 in ascending order and nowhere else, then both thresholds. The removal is present if and only if the primary key is to be removed, and then it is last. |
| Renderer.RenderIsCallBody | src/smart_contract.rs:204-253 | Between the opening and closing of `call()`, the text is exactly the text of that statement list. |
| Renderer.RemovalIsLast | src/smart_contract.rs:231-253 | The text ends with the removal of the main key followed by the closing brace if and only if the primary key is to be removed. |
| Renderer.SourceWellFormed | src/smart_contract.rs:167-253 | The generator's own texts meet the layout lemmas' assumptions: a non-empty preamble, main and indexed names that differ in their first character, and distinct endings of the deployment and removal statements. |
| Errors.Display | src/lib.rs:29-56 | `NoKeys` displays its fixed message. Every other error's message starts with "failed to parse ", and a key-file message names the file right after those words. |
| Errors.NoKeysMessageIsUnique | src/lib.rs:53 | "at least one key must be provided" is written for `NoKeys` and for no other error. |
| Errors.PublicKeyFileMessage | src/lib.rs:32-38 | The key-file message names the file. The cause follows after ": " only when there is one, and otherwise the message ends there. |
| Errors.PrefixedMessages | src/lib.rs:39-52 | The hex-key and account-hash messages are their fixed prefix followed by the cause, verbatim. |
| Errors.MakeParseFileError | src/lib.rs:58-63 | The key-file error carries the path and the parser's message. |
| Lib.GetAccountHashFromFile | src/lib.rs:68-93 | Success gives a valid formatted account hash; every failure is a key-file error for the given path. |
| Lib.KeyFileFirst | src/lib.rs:69-70 | A file the key-file parser accepts gives its key's formatted account hash, which parses back to that hash. |
| Lib.PemFailureIsFinal | src/lib.rs:69-75 | A `.pem` file the key-file parser refuses is reported with the parser's message, and the outcome does not depend on the file read or the hex parser. |
| Lib.HexFallback | src/lib.rs:77-92 | For any other file: a read failure is reported with its message; a hex key gives its formatted hash; a hex failure carries its cause only when the name ends in `public_key_hex`. |
| Lib.FileRouteOutcome | src/lib.rs:68-93 | The helper succeeds if and only if one of the two parsers accepts the key. The error has no cause if and only if the file was read, both parsers refused it, and its name ends neither in `.pem` nor in `public_key_hex`. |
| Lib.GetAccountHashFromHexEncodedPublicKey | src/lib.rs:99-106 | Succeeds if and only if the hex parser does. The result parses back to the key's account hash, and an error is `ParseHexPublicKey` with the parser's message. |
| Lib.ValidateAccountHash | src/lib.rs:112-119 | `Ok` if and only if the formatted-hash parser accepts the text; otherwise `ParseAccountHash` with the parser's message. |
| Lib.ValidateAgreesWithBuilder | src/lib.rs:112-119 | The validator accepts a text exactly when the key-set builder accepts it as a secondary key, and both report the same error. |
| Lib.FormattedHashesAreValid | src/lib.rs:108-119 | Every formatted account hash passes validation. |
| Lib.Library.constructor | src/lib.rs:18-19 | The shared session starts as the default session. |
| Lib.Library.SetProjectPath | src/lib.rs:152-154 | Sets the root directory and changes nothing else. |
| Lib.Library.ProjectPath | src/lib.rs:142-144 | Returns the root directory last set. |
| Lib.Library.SetContractName | src/lib.rs:157-159 | Sets the contract name and changes nothing else. |
| Lib.Library.ContractName | src/lib.rs:147-149 | Returns the contract name last set. |
| Lib.Library.SetAssociatedKeysAndThresholds | src/lib.rs:124-139 | Behaves as the session's own update on the shared session, all or nothing, and keeps the session well formed. |
| Lib.Library.MainRsContents | src/lib.rs:161-163 | Returns the shared session's generated `main.rs`. |
| AccountHashes.ToFormattedString | src/smart_contract.rs:183 | A formatted hash is "account-hash-" followed by 64 more characters, two for each of the 32 bytes. |
| AccountHashes.FromFormattedStr | src/lib.rs:113 | An accepted text is "account-hash-" followed by 64 characters. The prefix error is reported exactly when the text does not start with "account-hash-". A length error never reports 32 bytes. |
| AccountHashes.FormatThenParse | src/lib.rs:108-111 | Parsing a formatted account hash gives back the same hash. |
| AccountHashes.ParseThenFormat | src/lib.rs:108-111 | Formatting a parsed hash gives the input with its base16 part in lower case. |
| AccountHashes.ParseIgnoresCase | src/lib.rs:108-111 | Two accepted texts name the same hash if and only if their base16 parts agree up to letter case. |
| Encoding.HexRoundTrip | src/lib.rs:108-111 | Decoding the base16 text of bytes gives the bytes back. |
| Encoding.DecodeThenEncode | src/lib.rs:108-111 | Re-encoding decoded base16 gives the input in lower case. |
| Encoding.Decimal | src/smart_contract.rs:180 | Rust's `{}` of a number is a non-empty run of decimal digits. |
| Encoding.DecimalRoundTrip | src/smart_contract.rs:180 | The decimal text of a number reads back as that number and has no leading zero. |
| Encoding.DecimalInjective | src/smart_contract.rs:192-193 | Different numbers have different decimal texts, so indexed constant names do not clash. |
| Encoding.DebugBytes | src/smart_contract.rs:179 | The `{:?}` text of a byte array is bracketed. It is `[]` exactly for no bytes, and otherwise a digit follows the opening bracket. |
| Encoding.SplitNumber | src/smart_contract.rs:179 | A number's text followed by the rest of a list splits one way only, so the number and the rest are both determined. |
| Encoding.DebugTailInjective | src/smart_contract.rs:179 | The `, `-separated tail of the `{:?}` text determines the bytes it lists. |
| Encoding.DebugBytesInjective | src/smart_contract.rs:179 | The `{:?}` text of a byte array determines the bytes, so the `AccountHash::new([...])` literal of a key block names exactly one hash. |

## Left out

- `compile_contract` spawns `cargo build --release`, a worker thread and a stderr reader thread, all feeding a channel. This is process I/O and concurrency, so it is not modelled. The `compile_worker` field it sets is also left out of the session class.
- The file writes in `create_and_compile`, `create_cargo_config`, `create_main_rs`, `create_cargo_toml` and `create_rust_toolchain` are not modelled. Only the text of the generated `main.rs` and `Cargo.toml` is. The `.cargo/config.toml` and `rust-toolchain` texts are fixed strings with no logic.
- The global `Lazy<Mutex<SmartContract>>` becomes one `Library` object owning one session. The lock adds nothing to sequential behaviour.
- The user interface in `src/main.rs` is not part of this model, including its duplicate-key and threshold-clamping widget logic.
- `PublicKey::from_file`, `PublicKey::from_hex`, `fs::read_to_string` and `to_account_hash` are foreign code. They are parameters: total functions giving a value or an error message.
- AccountHashes.FromFormattedStr: the platform's parser and formatter are foreign code. The model has a stand-in that follows the documented format (the "account-hash-" prefix, then base16 of 32 bytes, either letter case accepted). The texts of its error messages are the stand-in's own.
- Paths.Join: models `PathBuf::join` on a Unix host, on strings. Windows prefixes and path normalisation are not modelled.
- Weights are `u8` values. `Weight::new` adds nothing beyond that.
- Lib.Library.SetProjectPath, Lib.Library.SetContractName, Lib.Library.SetAssociatedKeysAndThresholds, SmartContracts.SmartContract.SetAssociatedKeysAndThresholds: their "nothing else changes" and all-or-nothing clauses are stated with `old` on the fields they may modify.
- Lib.Library.ProjectPath, Lib.Library.ContractName: these are methods that return the field, so a setter followed by a getter is shown by the two contracts together, not by one lemma.
