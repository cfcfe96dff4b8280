/**
 * The generated contract source (`src/main.rs` of the contract crate).
 *
 * The generator writes the text in four steps: the crate preamble with the
 * constants of the primary key, one indexed constants block per secondary
 * key, the threshold constants with the opening of `call()` and the update of
 * the main key's weight, one add statement per secondary key, and finally the
 * two threshold statements, the optional removal of the main key and the
 * closing brace. When the session is not ready for a preview the text is
 * empty.
 *
 * The fixed parts of that text are gathered in a `Template`; `Source` is the
 * template the generator uses. The layout lemmas hold for every template, the
 * few facts that depend on the actual characters are collected in
 * `WellFormedTemplate` and proved of `Source`.
 *
 * Beside the text, `CallBody` lists the statements of `call()` as values, and
 * `RenderIsCallBody` shows that the text of `call()` is the text of that list.
 */
module Renderer {
  import opened Encoding
  import opened AccountHashes
  import opened AssociatedKeys
  import opened Texts

  /** The fixed pieces of text the generator writes around the session's values. */
  datatype Template = Template(
    preamble: string,
    hashComment: string,
    hashDeclaration: string,
    hashSuffix: string,
    hashValue: string,
    weightDeclaration: string,
    weightSuffix: string,
    weightValue: string,
    declarationEnd: string,
    mainName: string,
    indexedName: string,
    keyManagementDeclaration: string,
    deploymentDeclaration: string,
    callOpen: string,
    updateMainWeight: string,
    addKeyComment: string,
    addKeyCall: string,
    addKeyWeight: string,
    addKeyEnd: string,
    keyManagement: string,
    deployment: string,
    removeMainKey: string,
    callClose: string)

  /** The text of `main_rs_contents`, piece by piece. */
  const Source: Template := Template(
    preamble :=
      "#![cfg_attr(\n" +
      "    not(target_arch = \"wasm32\"),\n" +
      "    crate_type = \"target arch should be wasm32\"\n" +
      ")]\n" +
      "#![no_main]\n" +
      "\n" +
      "use casper_contract::{contract_api::account, unwrap_or_revert::UnwrapOrRevert};\n" +
      "use casper_types::account::{AccountHash, ActionType, Weight};\n" +
      "\n",
    hashComment := "// ",
    hashDeclaration := "\n#[rustfmt::skip]\n" + "const ",
    hashSuffix := "_HASH",
    hashValue := ": AccountHash = AccountHash::new(",
    weightDeclaration := ");\nconst ",
    weightSuffix := "_WEIGHT",
    weightValue := ": u8 = ",
    declarationEnd := ";\n\n",
    mainName := "MAIN_ACCOUNT",
    indexedName := "ACCOUNT_",
    keyManagementDeclaration := "const KEY_MANAGEMENT_WEIGHT: u8 = ",
    deploymentDeclaration := ";\nconst DEPLOYMENT_WEIGHT: u8 = ",
    callOpen := "#[no_mangle]\n" + "pub extern \"C\" fn call() {\n",
    updateMainWeight :=
      "    // Update the main account key's weight.\n" +
      "    account::update_associated_key(MAIN_ACCOUNT_HASH, Weight::new(MAIN_ACCOUNT_WEIGHT))\n" +
      "        .unwrap_or_revert();\n" +
      "\n",
    addKeyComment := "    // Add associated key ",
    addKeyCall := ".\n    account::add_associated_key(",
    addKeyWeight := ", Weight::new(",
    addKeyEnd := ")).unwrap_or_revert();\n\n",
    keyManagement :=
      "    // Set the action thresholds.\n" +
      "    account::set_action_threshold(\n" +
      "        ActionType::KeyManagement,\n" +
      "        Weight::new(KEY_MANAGEMENT_WEIGHT),\n" +
      "    )\n" +
      "    .unwrap_or_revert();\n",
    deployment :=
      "    account::set_action_threshold(ActionType::Deployment, Weight::new(DEPLOYMENT_WEIGHT))\n" +
      "        .unwrap_or_revert();\n",
    removeMainKey :=
      "\n" +
      "    // Remove the main account's key.\n" +
      "    account::remove_associated_key(MAIN_ACCOUNT_HASH).unwrap_or_revert();\n",
    callClose := "}\n")

  /** The constant-name stem of the key at a position: fixed for the primary key, indexed otherwise. */
  function ConstName(t: Template, index: nat): string {
    if index == 0 then t.mainName else t.indexedName + Decimal(index)
  }

  /**
   * The constants of one key: a comment with its formatted hash, the hash
   * constant holding the 32 bytes and the weight constant.
   */
  function KeyBlockParts(t: Template, name: string, key: AssociatedKey): seq<string> {
    [t.hashComment, ToFormattedString(key.accountHash),
     t.hashDeclaration, name, t.hashSuffix, t.hashValue, DebugBytes(key.accountHash.value),
     t.weightDeclaration, name, t.weightSuffix, t.weightValue, Decimal(key.weight), t.declarationEnd]
  }

  function KeyBlock(t: Template, name: string, key: AssociatedKey): string {
    Concat(KeyBlockParts(t, name, key))
  }

  /** The two threshold constants. */
  function ThresholdsText(t: Template, keyManagementWeight: u8, deploymentWeight: u8): string {
    Concat([t.keyManagementDeclaration, Decimal(keyManagementWeight),
            t.deploymentDeclaration, Decimal(deploymentWeight), t.declarationEnd])
  }

  /** The threshold constants, then the opening of `call()` and the update of the main key's weight. */
  function OpeningText(t: Template, keyManagementWeight: u8, deploymentWeight: u8): string {
    ThresholdsText(t, keyManagementWeight, deploymentWeight) + t.callOpen + t.updateMainWeight
  }

  /** The statement adding the secondary key with the given index, naming that key's two constants. */
  function AddKeyParts(t: Template, index: nat): seq<string> {
    [t.addKeyComment, Decimal(index), t.addKeyCall,
     ConstName(t, index), t.hashSuffix, t.addKeyWeight, ConstName(t, index), t.weightSuffix, t.addKeyEnd]
  }

  function AddKeyText(t: Template, index: nat): string {
    Concat(AddKeyParts(t, index))
  }

  /** The removal of the main key, written only when the primary key is to be removed. */
  function RemovalText(t: Template, primaryKey: AssociatedKey): string {
    if RemoveAfterCreation(primaryKey) then t.removeMainKey else ""
  }

  /** The two threshold statements, the optional removal of the main key and the closing brace. */
  function ClosingText(t: Template, primaryKey: AssociatedKey): string {
    t.keyManagement + t.deployment + RemovalText(t, primaryKey) + t.callClose
  }

  /** The constants blocks of the first k keys, in key order, the primary key's under the main names. */
  function KeyBlocks(t: Template, keys: seq<AssociatedKey>, k: nat): string
    requires k <= |keys|
  {
    if k == 0 then "" else KeyBlocks(t, keys, k - 1) + KeyBlock(t, ConstName(t, k - 1), keys[k - 1])
  }

  /** The statements adding the secondary keys 1 to m, in order. */
  function AddStatements(t: Template, m: nat): string {
    if m == 0 then "" else AddStatements(t, m - 1) + AddKeyText(t, m)
  }

  /** The renderer writes nothing until there is a key and both thresholds are non-zero. */
  predicate Ready(keys: seq<AssociatedKey>, keyManagementWeight: u8, deploymentWeight: u8) {
    keys != [] && keyManagementWeight != 0 && deploymentWeight != 0
  }

  /** The generated `main.rs`, or "" when the session is not ready. */
  function Render(t: Template, keys: seq<AssociatedKey>, keyManagementWeight: u8, deploymentWeight: u8): (text: string)
    ensures !Ready(keys, keyManagementWeight, deploymentWeight) ==> text == ""
    ensures Ready(keys, keyManagementWeight, deploymentWeight) ==>
              && |t.preamble| <= |text| && text[..|t.preamble|] == t.preamble
              && EndsWith(text, t.callClose)
  {
    if Ready(keys, keyManagementWeight, deploymentWeight) then
      ConcatEnds(RenderParts(t, keys, keyManagementWeight, deploymentWeight));
      EndsWithTail(t.keyManagement + t.deployment + RemovalText(t, keys[0]), t.callClose);
      EndsWithTrans(Concat(RenderParts(t, keys, keyManagementWeight, deploymentWeight)), ClosingText(t, keys[0]), t.callClose);
      Concat(RenderParts(t, keys, keyManagementWeight, deploymentWeight))
    else ""
  }

  /** The five pieces of a ready session's text, in the order the source appends them. */
  function RenderParts(t: Template, keys: seq<AssociatedKey>, keyManagementWeight: u8, deploymentWeight: u8): seq<string>
    requires keys != []
  {
    [t.preamble, KeyBlocks(t, keys, |keys|), OpeningText(t, keyManagementWeight, deploymentWeight),
     AddStatements(t, |keys| - 1), ClosingText(t, keys[0])]
  }

  /** A ready session's text is its five pieces, one after the other. */
  lemma RenderPieces(t: Template, keys: seq<AssociatedKey>, keyManagementWeight: u8, deploymentWeight: u8)
    requires Ready(keys, keyManagementWeight, deploymentWeight)
    ensures Render(t, keys, keyManagementWeight, deploymentWeight)
            == t.preamble + KeyBlocks(t, keys, |keys|) + OpeningText(t, keyManagementWeight, deploymentWeight)
               + AddStatements(t, |keys| - 1) + ClosingText(t, keys[0])
  {
    ConcatFive(t.preamble, KeyBlocks(t, keys, |keys|), OpeningText(t, keyManagementWeight, deploymentWeight),
               AddStatements(t, |keys| - 1), ClosingText(t, keys[0]));
  }

  /** The preamble followed by the constants of every key, one block per loop turn. */
  method WriteKeyBlocks(t: Template, keys: seq<AssociatedKey>) returns (contents: string)
    requires keys != []
    ensures contents == t.preamble + KeyBlocks(t, keys, |keys|)
  {
    var block := KeyBlock(t, t.mainName, keys[0]);
    AppendEmpty(block);
    contents := t.preamble + block;
    for index := 1 to |keys|
      invariant contents == t.preamble + KeyBlocks(t, keys, index)
    {
      block := KeyBlock(t, ConstName(t, index), keys[index]);
      AppendAssoc(t.preamble, KeyBlocks(t, keys, index), block);
      contents := contents + block;
    }
  }

  /** The given text followed by the add statements of the secondary keys 1 to m, one per loop turn. */
  method WriteAddStatements(t: Template, front: string, secondaries: nat) returns (contents: string)
    ensures contents == front + AddStatements(t, secondaries)
  {
    contents := front;
    AppendEmpty(front);
    for added := 0 to secondaries
      invariant contents == front + AddStatements(t, added)
    {
      var block := AddKeyText(t, added + 1);
      AppendAssoc(front, AddStatements(t, added), block);
      contents := contents + block;
    }
  }

  /**
   * `main_rs_contents`: the empty text when the session is not ready,
   * otherwise the text built up as the source does, step by step.
   */
  method WriteMainRs(t: Template, keys: seq<AssociatedKey>, keyManagementWeight: u8, deploymentWeight: u8)
    returns (contents: string)
    ensures contents == Render(t, keys, keyManagementWeight, deploymentWeight)
  {
    if |keys| == 0 || keyManagementWeight == 0 || deploymentWeight == 0 {
      return "";
    }
    contents := WriteKeyBlocks(t, keys);
    contents := contents + OpeningText(t, keyManagementWeight, deploymentWeight);
    contents := WriteAddStatements(t, contents, |keys| - 1);
    contents := contents + ClosingText(t, keys[0]);
    RenderPieces(t, keys, keyManagementWeight, deploymentWeight);
  }

  // ---------------------------------------------------------------- the statements of call()

  /** The statements of `call()`. */
  datatype Statement =
    | UpdateMainWeight
    | AddKey(index: nat)
    | SetKeyManagementThreshold
    | SetDeploymentThreshold
    | RemoveMainKey

  function StatementText(t: Template, s: Statement): string {
    match s
    case UpdateMainWeight => t.updateMainWeight
    case AddKey(i) => AddKeyText(t, i)
    case SetKeyManagementThreshold => t.keyManagement
    case SetDeploymentThreshold => t.deployment
    case RemoveMainKey => t.removeMainKey
  }

  /** The statements adding the secondary keys 1 to m, in order. */
  function Adds(m: nat): (r: seq<Statement>)
    ensures |r| == m
  {
    seq(m, i requires 0 <= i < m => AddKey(i + 1))
  }

  /** The body of `call()`: update the main weight, add each secondary key, set both thresholds, then maybe remove the main key. */
  function CallBody(keys: seq<AssociatedKey>): seq<Statement>
    requires keys != []
  {
    [UpdateMainWeight]
    + Adds(|keys| - 1)
    + [SetKeyManagementThreshold, SetDeploymentThreshold]
    + Removal(keys[0])
  }

  /** The removal of the main key, present only when the primary key is to be removed. */
  function Removal(primaryKey: AssociatedKey): seq<Statement> {
    if RemoveAfterCreation(primaryKey) then [RemoveMainKey] else []
  }

  /** The texts of a list of statements, in order. */
  function StatementsText(t: Template, body: seq<Statement>): string {
    if body == [] then "" else StatementsText(t, body[..|body| - 1]) + StatementText(t, body[|body| - 1])
  }

  /** The statements of `call()` in their fixed order. */
  lemma CallBodyOrder(keys: seq<AssociatedKey>)
    requires keys != []
    ensures var body, n := CallBody(keys), |keys|;
            && body[0] == UpdateMainWeight
            && (forall j :: 0 <= j < |body| ==> (body[j].AddKey? <==> 1 <= j < n))
            && (forall j :: 1 <= j < n ==> body[j] == AddKey(j))
            && body[n] == SetKeyManagementThreshold
            && body[n + 1] == SetDeploymentThreshold
            && (RemoveMainKey in body <==> RemoveAfterCreation(keys[0]))
            && |body| == (if RemoveAfterCreation(keys[0]) then n + 3 else n + 2)
            && (RemoveAfterCreation(keys[0]) ==> body[|body| - 1] == RemoveMainKey)
            && (forall j :: 0 <= j < |body| && body[j] == UpdateMainWeight ==> j == 0)
  {
    var body, n := CallBody(keys), |keys|;
    forall j | 0 <= j < |body|
      ensures body[j] == (if j == 0 then UpdateMainWeight else if j < n then AddKey(j)
                          else if j == n then SetKeyManagementThreshold
                          else if j == n + 1 then SetDeploymentThreshold else RemoveMainKey)
    {
    }
    if RemoveAfterCreation(keys[0]) {
      assert body[n + 2] == RemoveMainKey;
    }
  }

  lemma {:induction false} StatementsTextAppend(t: Template, a: seq<Statement>, b: seq<Statement>)
    ensures StatementsText(t, a + b) == StatementsText(t, a) + StatementsText(t, b)
    decreases |b|
  {
    if b == [] {
      assert a + b == a;
    } else {
      var c := b[..|b| - 1];
      assert (a + b)[..|a + b| - 1] == a + c;
      StatementsTextAppend(t, a, c);
      AppendAssoc(StatementsText(t, a), StatementsText(t, c), StatementText(t, b[|b| - 1]));
    }
  }

  lemma {:induction false} AddsText(t: Template, m: nat)
    ensures StatementsText(t, Adds(m)) == AddStatements(t, m)
  {
    if m > 0 {
      assert Adds(m)[..m - 1] == Adds(m - 1);
      AddsText(t, m - 1);
    } else {
      assert Adds(0) == [];
    }
  }

  lemma SingleStatementText(t: Template, s: Statement)
    ensures StatementsText(t, [s]) == StatementText(t, s)
  {
    assert [s][..0] == [];
    AppendEmpty(StatementText(t, s));
  }

  lemma TwoStatementsText(t: Template, s: Statement, u: Statement)
    ensures StatementsText(t, [s, u]) == StatementText(t, s) + StatementText(t, u)
  {
    assert [s, u][..1] == [s];
    SingleStatementText(t, s);
  }

  lemma FourPieces(t: Template, a: seq<Statement>, b: seq<Statement>, c: seq<Statement>, d: seq<Statement>)
    ensures StatementsText(t, a + b + c + d) == StatementsText(t, a) + StatementsText(t, b) + StatementsText(t, c) + StatementsText(t, d)
  {
    StatementsTextAppend(t, a + b + c, d);
    StatementsTextAppend(t, a + b, c);
    StatementsTextAppend(t, a, b);
  }

  /** The text of the statements of `call()`, piece by piece. */
  lemma CallBodyText(t: Template, primaryKey: AssociatedKey, secondaries: nat)
    ensures StatementsText(t, [UpdateMainWeight] + Adds(secondaries) + [SetKeyManagementThreshold, SetDeploymentThreshold]
                              + Removal(primaryKey))
            == t.updateMainWeight + AddStatements(t, secondaries)
               + (t.keyManagement + t.deployment) + RemovalText(t, primaryKey)
  {
    FourPieces(t, [UpdateMainWeight], Adds(secondaries), [SetKeyManagementThreshold, SetDeploymentThreshold], Removal(primaryKey));
    SingleStatementText(t, UpdateMainWeight);
    AddsText(t, secondaries);
    TwoStatementsText(t, SetKeyManagementThreshold, SetDeploymentThreshold);
    RemovalStatementText(t, primaryKey);
  }

  lemma RemovalStatementText(t: Template, primaryKey: AssociatedKey)
    ensures StatementsText(t, Removal(primaryKey)) == RemovalText(t, primaryKey)
  {
    if RemoveAfterCreation(primaryKey) {
      SingleStatementText(t, RemoveMainKey);
    }
  }

  lemma Regroup(p: string, x: string, u: string, a: string, k: string, r: string, c: string)
    ensures p + (x + u) + a + (k + r + c) == p + x + (u + a + k + r) + c
  {
    AppendAssoc(p, x, u);
    AppendAssoc(p + x, u, a);
    AppendAssoc(p + x, u + a, k + r + c);
    AppendAssoc(u + a, k + r, c);
    AppendAssoc(u + a, k, r);
    AppendAssoc(p + x, u + a + k + r, c);
  }

  /**
   * A ready session's text is the preamble, the constants of the keys and of
   * the thresholds, the opening of `call()`, then the text of the statement
   * list of `call()`, then the closing brace.
   */
  lemma RenderIsCallBody(t: Template, keys: seq<AssociatedKey>, keyManagementWeight: u8, deploymentWeight: u8, body: seq<Statement>)
    requires Ready(keys, keyManagementWeight, deploymentWeight) && body == CallBody(keys)
    ensures Render(t, keys, keyManagementWeight, deploymentWeight)
            == t.preamble + KeyBlocks(t, keys, |keys|)
               + (ThresholdsText(t, keyManagementWeight, deploymentWeight) + t.callOpen)
               + StatementsText(t, body)
               + t.callClose
  {
    CallBodyText(t, keys[0], |keys| - 1);
    RenderPieces(t, keys, keyManagementWeight, deploymentWeight);
    Regroup(t.preamble + KeyBlocks(t, keys, |keys|), ThresholdsText(t, keyManagementWeight, deploymentWeight) + t.callOpen,
            t.updateMainWeight, AddStatements(t, |keys| - 1), t.keyManagement + t.deployment, RemovalText(t, keys[0]), t.callClose);
  }

  // ---------------------------------------------------------------- the layout of the generated text

  /**
   * The deployment threshold statement and the removal of the main key both
   * end in `.unwrap_or_revert();` and a newline, 21 characters; the character
   * just before that shared ending, this far from the end, tells them apart.
   */
  const EndingOffset: nat := 22

  /** The facts about the fixed text that the layout lemmas need beyond its shape. */
  predicate WellFormedTemplate(t: Template) {
    && t.preamble != []
    && t.mainName != [] && t.indexedName != [] && t.mainName[0] != t.indexedName[0]
    && |t.deployment| >= EndingOffset && |t.removeMainKey| >= EndingOffset
    && t.deployment[|t.deployment| - EndingOffset] != t.removeMainKey[|t.removeMainKey| - EndingOffset]
  }

  lemma SourceWellFormed()
    ensures WellFormedTemplate(Source)
  {
  }

  /** The text is empty exactly when there is no key or a threshold is zero. */
  lemma RenderEmptyIff(t: Template, keys: seq<AssociatedKey>, keyManagementWeight: u8, deploymentWeight: u8)
    requires WellFormedTemplate(t)
    ensures Render(t, keys, keyManagementWeight, deploymentWeight) == "" <==> !Ready(keys, keyManagementWeight, deploymentWeight)
  {
    if Ready(keys, keyManagementWeight, deploymentWeight) {
      RenderPieces(t, keys, keyManagementWeight, deploymentWeight);
      assert |Render(t, keys, keyManagementWeight, deploymentWeight)| >= |t.preamble| > 0;
    }
  }

  /** The blocks of the first k keys are a prefix of the blocks of the first l keys. */
  lemma {:induction false} KeyBlocksPrefix(t: Template, keys: seq<AssociatedKey>, k: nat, l: nat)
    requires k <= l <= |keys|
    ensures |KeyBlocks(t, keys, k)| <= |KeyBlocks(t, keys, l)|
    ensures KeyBlocks(t, keys, l)[..|KeyBlocks(t, keys, k)|] == KeyBlocks(t, keys, k)
    decreases l
  {
    if k < l {
      KeyBlocksPrefix(t, keys, k, l - 1);
      PrefixOfAppend(KeyBlocks(t, keys, l - 1), KeyBlock(t, ConstName(t, l - 1), keys[l - 1]), |KeyBlocks(t, keys, k)|);
    }
  }

  lemma KeyBlocksStep(t: Template, keys: seq<AssociatedKey>, k: nat)
    requires k < |keys|
    ensures KeyBlocks(t, keys, k + 1) == KeyBlocks(t, keys, k) + KeyBlock(t, ConstName(t, k), keys[k])
  {
  }

  /** Where the constants of the key at position k start in the text. */
  function KeyBlockOffset(t: Template, keys: seq<AssociatedKey>, k: nat): nat
    requires k <= |keys|
  {
    |t.preamble| + |KeyBlocks(t, keys, k)|
  }

  /** Within the constants of all keys, those of key k follow the constants of the keys before it. */
  lemma KeyBlockInBlocks(t: Template, keys: seq<AssociatedKey>, k: nat)
    requires k < |keys|
    ensures OccursAt(KeyBlocks(t, keys, |keys|), KeyBlock(t, ConstName(t, k), keys[k]), |KeyBlocks(t, keys, k)|)
  {
    var before, block := KeyBlocks(t, keys, k), KeyBlock(t, ConstName(t, k), keys[k]);
    KeyBlocksPrefix(t, keys, k + 1, |keys|);
    KeyBlocksStep(t, keys, k);
    OccursAtEnd(before, block);
    OccursInPrefix(KeyBlocks(t, keys, |keys|), |before + block|, block, |before|);
  }

  /** The constants of each key stand in the text at the key's offset, under the key's name. */
  lemma KeyBlockAt(t: Template, keys: seq<AssociatedKey>, keyManagementWeight: u8, deploymentWeight: u8, k: nat)
    requires Ready(keys, keyManagementWeight, deploymentWeight) && k < |keys|
    ensures OccursAt(Render(t, keys, keyManagementWeight, deploymentWeight),
                     KeyBlock(t, ConstName(t, k), keys[k]), KeyBlockOffset(t, keys, k))
  {
    var parts := RenderParts(t, keys, keyManagementWeight, deploymentWeight);
    ConcatSecond(parts);
    KeyBlockInBlocks(t, keys, k);
    OccursWithin(Concat(parts), parts[1], |parts[0]|, KeyBlock(t, ConstName(t, k), keys[k]), |KeyBlocks(t, keys, k)|);
  }

  /** The constants of a later key start after those of an earlier key end. */
  lemma KeyBlocksInOrder(t: Template, keys: seq<AssociatedKey>, k: nat, l: nat)
    requires k < l <= |keys|
    ensures KeyBlockOffset(t, keys, k) + |KeyBlock(t, ConstName(t, k), keys[k])| <= KeyBlockOffset(t, keys, l)
  {
    KeyBlocksPrefix(t, keys, k + 1, l);
  }

  /** No two keys' constants share a name. */
  lemma ConstNamesDistinct(t: Template, k: nat, l: nat)
    requires WellFormedTemplate(t) && k != l
    ensures ConstName(t, k) != ConstName(t, l)
  {
    if k != 0 && l != 0 {
      if ConstName(t, k) == ConstName(t, l) {
        assert Decimal(k) == ConstName(t, k)[|t.indexedName|..];
        assert Decimal(l) == ConstName(t, l)[|t.indexedName|..];
        DecimalInjective(k, l);
      }
    } else if k == 0 {
      assert ConstName(t, l)[0] != ConstName(t, k)[0];
    } else {
      assert ConstName(t, k)[0] != ConstName(t, l)[0];
    }
  }

  /**
   * The statement adding secondary key i names the hash and weight constants
   * that the constants block of key i declares.
   */
  lemma AddStatementNamesItsKey(t: Template, i: nat, key: AssociatedKey)
    requires i >= 1
    ensures var name, statement, block := ConstName(t, i), AddKeyParts(t, i), KeyBlockParts(t, ConstName(t, i), key);
            && OccursAt(AddKeyText(t, i), name + t.hashSuffix, PartOffset(statement, 3))
            && OccursAt(AddKeyText(t, i), name + t.weightSuffix, PartOffset(statement, 6))
            && OccursAt(KeyBlock(t, name, key), name + t.hashSuffix, PartOffset(block, 3))
            && OccursAt(KeyBlock(t, name, key), name + t.weightSuffix, PartOffset(block, 8))
  {
    ConcatPair(AddKeyParts(t, i), 3);
    ConcatPair(AddKeyParts(t, i), 6);
    ConcatPair(KeyBlockParts(t, ConstName(t, i), key), 3);
    ConcatPair(KeyBlockParts(t, ConstName(t, i), key), 8);
  }

  /** A key's constants block holds the key's formatted account hash, its bytes and its weight. */
  lemma KeyBlockShowsKey(t: Template, name: string, key: AssociatedKey)
    ensures var block := KeyBlockParts(t, name, key);
            && OccursAt(KeyBlock(t, name, key), ToFormattedString(key.accountHash), |t.hashComment|)
            && OccursAt(KeyBlock(t, name, key), DebugBytes(key.accountHash.value), PartOffset(block, 6))
            && OccursAt(KeyBlock(t, name, key), Decimal(key.weight), PartOffset(block, 11))
  {
    var block := KeyBlockParts(t, name, key);
    ConcatPart(block, 1);
    assert block[..1] == [t.hashComment];
    ConcatOne(t.hashComment);
    ConcatPart(block, 6);
    ConcatPart(block, 11);
  }

  /** Text ending in the deployment threshold and the brace does not end in the removal and the brace. */
  lemma DeploymentEndingIsNotRemoval(t: Template, front: string)
    requires WellFormedTemplate(t)
    ensures !EndsWith(front + t.deployment + t.callClose, t.removeMainKey + t.callClose)
  {
    var tail := t.deployment + t.callClose;
    var suffix := t.removeMainKey + t.callClose;
    var text := front + tail;
    var back := EndingOffset + |t.callClose|;
    assert tail[|tail| - back] == t.deployment[|t.deployment| - EndingOffset];
    assert suffix[|suffix| - back] == t.removeMainKey[|t.removeMainKey| - EndingOffset];
    assert text[|text| - back] == tail[|tail| - back];
  }

  /** The text ends with the removal of the main key, then the closing brace, exactly when the primary key is to be removed. */
  lemma RemovalIsLast(t: Template, keys: seq<AssociatedKey>, keyManagementWeight: u8, deploymentWeight: u8)
    requires WellFormedTemplate(t) && Ready(keys, keyManagementWeight, deploymentWeight)
    ensures EndsWith(Render(t, keys, keyManagementWeight, deploymentWeight), t.removeMainKey + t.callClose)
            <==> RemoveAfterCreation(keys[0])
  {
    var text := Render(t, keys, keyManagementWeight, deploymentWeight);
    RenderPieces(t, keys, keyManagementWeight, deploymentWeight);
    var front := t.preamble + KeyBlocks(t, keys, |keys|) + OpeningText(t, keyManagementWeight, deploymentWeight)
                 + AddStatements(t, |keys| - 1);
    ClosingSplit(text, front, t.keyManagement, t.deployment, RemovalText(t, keys[0]), t.callClose);
    if RemoveAfterCreation(keys[0]) {
      EndsWithTail(front + t.keyManagement + t.deployment, t.removeMainKey + t.callClose);
    } else {
      DeploymentEndingIsNotRemoval(t, front + t.keyManagement);
    }
  }

  lemma ClosingSplit(text: string, front: string, keyManagement: string, deployment: string, removal: string, close: string)
    requires text == front + (keyManagement + deployment + removal + close)
    ensures text == front + keyManagement + deployment + (removal + close)
    ensures removal == "" ==> text == front + keyManagement + deployment + close
  {
  }
}
