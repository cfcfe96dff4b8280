/**
 * The session object: where the project goes, the contract's name, the
 * current key set and the two action thresholds. The key set and thresholds
 * are replaced together, and only when the whole new key set has parsed.
 */
module SmartContracts {
  import opened Wrappers
  import opened Encoding
  import opened Errors
  import opened AssociatedKeys
  import opened Renderer
  import opened Paths
  import opened Texts

  const CargoTomlHead: string := "[package]\nname = \""
  const CargoTomlMiddle: string :=
    "\"\n" +
    "version = \"0.1.0\"\n" +
    "authors = [\"Fraser Hutchison <fraser@casperlabs.io>\"]\n" +
    "edition = \"2018\"\n" +
    "\n" +
    "[dependencies]\n" +
    "casper-contract = \"1\"\n" +
    "casper-types = \"1\"\n" +
    "\n" +
    "[[bin]]\n" +
    "name = \""
  const CargoTomlTail: string :=
    "\"\n" +
    "path = \"src/main.rs\"\n" +
    "bench = false\n" +
    "doctest = false\n" +
    "test = false\n" +
    "\n" +
    "[features]\n" +
    "default = [\"casper-contract/std\", \"casper-types/std\"]\n" +
    "\n" +
    "[profile.release]\n" +
    "lto = true\n" +
    "codegen-units = 1\n"

  /** The manifest of the generated project: the contract name is both the package name and the binary name. */
  function CargoToml(contractName: string): (manifest: string)
    ensures |manifest| == |CargoTomlHead| + |CargoTomlMiddle| + |CargoTomlTail| + 2 * |contractName|
    ensures manifest[..|CargoTomlHead|] == CargoTomlHead
    ensures manifest[|manifest| - |CargoTomlTail|..] == CargoTomlTail
  {
    FivePieces(CargoTomlHead, contractName, CargoTomlMiddle, contractName, CargoTomlTail);
    CargoTomlHead + contractName + CargoTomlMiddle + contractName + CargoTomlTail
  }

  /** A text made of five pieces holds each of them at the sum of the lengths before it. */
  lemma FivePieces(a: string, b: string, c: string, d: string, e: string)
    ensures var s := a + b + c + d + e;
            && |s| == |a| + |b| + |c| + |d| + |e|
            && s[..|a|] == a
            && s[|a|..|a| + |b|] == b
            && s[|a| + |b|..|a| + |b| + |c|] == c
            && s[|a| + |b| + |c|..|a| + |b| + |c| + |d|] == d
            && s[|a| + |b| + |c| + |d|..] == e
  {
    var s := a + b + c + d + e;
    assert s[..|a + b + c + d|] == a + b + c + d;
    assert s[..|a + b + c|] == a + b + c;
    assert s[..|a + b|] == a + b;
  }

  /** The name stands verbatim in both name fields, and the manifest's length is fixed but for the name. */
  lemma CargoTomlNames(contractName: string)
    ensures var t, n := CargoToml(contractName), |contractName|;
            && |t| == |CargoTomlHead| + |CargoTomlMiddle| + |CargoTomlTail| + 2 * n
            && t[..|CargoTomlHead|] == CargoTomlHead
            && t[|CargoTomlHead|..|CargoTomlHead| + n] == contractName
            && t[|CargoTomlHead| + n..|CargoTomlHead| + n + |CargoTomlMiddle|] == CargoTomlMiddle
            && t[|CargoTomlHead| + n + |CargoTomlMiddle|..|CargoTomlHead| + 2 * n + |CargoTomlMiddle|] == contractName
            && t[|CargoTomlHead| + 2 * n + |CargoTomlMiddle|..] == CargoTomlTail
  {
    FivePieces(CargoTomlHead, contractName, CargoTomlMiddle, contractName, CargoTomlTail);
  }

  /** Different contract names give different manifests: the name can be read back. */
  lemma CargoTomlInjective(a: string, b: string)
    requires CargoToml(a) == CargoToml(b)
    ensures a == b
  {
    CargoTomlReadBack(a);
    CargoTomlReadBack(b);
  }

  /** The contract name a manifest of this shape carries: the text after the fixed head, half of what the fixed parts leave. */
  function CargoTomlNameOf(manifest: string): string {
    var fixed := |CargoTomlHead| + |CargoTomlMiddle| + |CargoTomlTail|;
    if |manifest| < fixed then "" else manifest[|CargoTomlHead|..|CargoTomlHead| + (|manifest| - fixed) / 2]
  }

  /** The manifest's name can be read back: `CargoTomlNameOf` inverts `CargoToml`. */
  lemma CargoTomlReadBack(contractName: string)
    ensures CargoTomlNameOf(CargoToml(contractName)) == contractName
  {
    CargoTomlNames(contractName);
  }

  class SmartContract {
    var rootDir: string
    var contractName: string
    var associatedKeys: seq<AssociatedKey>
    var keyManagementWeight: u8
    var deploymentWeight: u8

    /** The stored key set always has the primary key first and secondary keys after it. */
    ghost predicate Valid()
      reads this
    {
      WellFormed(associatedKeys)
    }

    /** An empty session: no paths, no keys, zero thresholds. */
    constructor Default()
      ensures Valid()
      ensures rootDir == [] && contractName == [] && associatedKeys == []
      ensures keyManagementWeight == 0 && deploymentWeight == 0
    {
      rootDir := [];
      contractName := [];
      associatedKeys := [];
      keyManagementWeight := 0;
      deploymentWeight := 0;
    }

    /**
     * Builds the new key set from the entries and, only if every entry parsed,
     * replaces the stored keys and both thresholds; on an error nothing changes.
     */
    method SetAssociatedKeysAndThresholds(keys: seq<Entry>, primaryKeyShouldBeDeleted: bool,
                                          keyManagementWeight: u8, deploymentWeight: u8)
      returns (r: Result<(), Error>)
      modifies this`associatedKeys, this`keyManagementWeight, this`deploymentWeight
      ensures match BuildKeySet(keys, primaryKeyShouldBeDeleted)
              case Ok(built) =>
                && r == Ok(())
                && this.associatedKeys == built
                && this.keyManagementWeight == keyManagementWeight
                && this.deploymentWeight == deploymentWeight
              case Err(e) =>
                && r == Err(e)
                && this.associatedKeys == old(this.associatedKeys)
                && this.keyManagementWeight == old(this.keyManagementWeight)
                && this.deploymentWeight == old(this.deploymentWeight)
      ensures r.Ok? ==> Valid()
      ensures old(Valid()) ==> Valid()
      ensures rootDir == old(rootDir) && contractName == old(contractName)
    {
      var built := BuildAssociatedKeys(keys, primaryKeyShouldBeDeleted);
      if built.Err? {
        return Err(built.error);
      }
      BuildShape(keys, primaryKeyShouldBeDeleted);
      this.associatedKeys := built.value;
      this.keyManagementWeight := keyManagementWeight;
      this.deploymentWeight := deploymentWeight;
      return Ok(());
    }

    /**
     * The text of `src/main.rs` for the current key set, built up as the
     * source does: the preamble with the primary key's constants, one block
     * per secondary key, the thresholds with the opening of `call()`, one
     * add statement per secondary key, then the thresholds, the optional
     * removal and the closing brace.
     */
    method MainRsContents() returns (contents: string)
      ensures contents == Render(Source, associatedKeys, keyManagementWeight, deploymentWeight)
      ensures contents == "" <==> !Ready(associatedKeys, keyManagementWeight, deploymentWeight)
      ensures Ready(associatedKeys, keyManagementWeight, deploymentWeight) ==>
                (EndsWith(contents, Source.removeMainKey + Source.callClose) <==> RemoveAfterCreation(associatedKeys[0]))
    {
      SourceWellFormed();
      RenderEmptyIff(Source, associatedKeys, keyManagementWeight, deploymentWeight);
      if Ready(associatedKeys, keyManagementWeight, deploymentWeight) {
        RemovalIsLast(Source, associatedKeys, keyManagementWeight, deploymentWeight);
      }
      contents := WriteMainRs(Source, associatedKeys, keyManagementWeight, deploymentWeight);
    }

    /** The directory of the generated project: the root directory joined with the contract name. */
    function ProjectDir(): (dir: string)
      reads this
      ensures IsAbsolute(contractName) ==> dir == contractName
      ensures !IsAbsolute(contractName) ==>
                && |rootDir| <= |dir| && dir[..|rootDir|] == rootDir
                && |contractName| <= |dir| && dir[|dir| - |contractName|..] == contractName
      ensures !IsAbsolute(contractName) && rootDir != [] && rootDir[|rootDir| - 1] != Separator ==>
                |dir| == |rootDir| + 1 + |contractName| && dir[|rootDir|] == Separator
      ensures !IsAbsolute(contractName) && (rootDir == [] || rootDir[|rootDir| - 1] == Separator) ==>
                |dir| == |rootDir| + |contractName|
    {
      Join(rootDir, contractName)
    }

    /** The manifest text written for the current contract name. */
    function CargoTomlContents(): (manifest: string)
      reads this
      ensures CargoTomlNameOf(manifest) == contractName
    {
      CargoTomlReadBack(contractName);
      CargoToml(contractName)
    }
  }
}
