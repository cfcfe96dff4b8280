/**
 * Associated keys and the key-set builder: an ordered list of (formatted
 * account hash, weight) entries becomes a primary key followed by secondary
 * keys, in input order, or an error.
 */
module AssociatedKeys {
  import opened Wrappers
  import opened Encoding
  import opened AccountHashes
  import opened Errors

  datatype AssociatedKeyKind =
    | Primary(removeAfterCreation: bool)
    | Secondary

  datatype AssociatedKey = AssociatedKey(accountHash: AccountHash, kind: AssociatedKeyKind, weight: u8)

  /** One raw entry as the caller supplies it: a formatted account hash and a weight. */
  type Entry = (string, u8)

  /** Parses the formatted hash, turning the parser's failure into `ParseAccountHash` with its message. */
  function ParseHash(formatted: string): Result<AccountHash, Error> {
    match FromFormattedStr(formatted)
    case Ok(h) => Ok(h)
    case Err(e) => Err(ParseAccountHash(ErrorMessage(e)))
  }

  /** `new_primary`: a primary key with the caller's deletion flag and weight, or the hash parser's error. */
  function NewPrimary(formatted: string, weight: u8, removeAfterCreation: bool): (r: Result<AssociatedKey, Error>)
    ensures r.Ok? <==> FromFormattedStr(formatted).Ok?
    ensures r.Ok? ==> r.value == AssociatedKey(FromFormattedStr(formatted).value, Primary(removeAfterCreation), weight)
    ensures r.Err? ==> r.error == ParseAccountHash(ErrorMessage(FromFormattedStr(formatted).error))
  {
    match ParseHash(formatted)
    case Err(e) => Err(e)
    case Ok(h) => Ok(AssociatedKey(h, Primary(removeAfterCreation), weight))
  }

  /** `new_secondary`: a secondary key with the caller's weight, or the hash parser's error. */
  function NewSecondary(formatted: string, weight: u8): (r: Result<AssociatedKey, Error>)
    ensures r.Ok? <==> FromFormattedStr(formatted).Ok?
    ensures r.Ok? ==> r.value == AssociatedKey(FromFormattedStr(formatted).value, Secondary, weight)
    ensures r.Err? ==> r.error == ParseAccountHash(ErrorMessage(FromFormattedStr(formatted).error))
  {
    match ParseHash(formatted)
    case Err(e) => Err(e)
    case Ok(h) => Ok(AssociatedKey(h, Secondary, weight))
  }

  /** The deletion flag of a key: a secondary key is never removed. */
  function RemoveAfterCreation(key: AssociatedKey): (r: bool)
    ensures r <==> key.kind == Primary(true)
    ensures key.kind == Secondary ==> !r
  {
    match key.kind
    case Primary(remove) => remove
    case Secondary => false
  }

  /** The shape every stored key set has: one primary key, first, and secondary keys after it. */
  predicate WellFormed(keys: seq<AssociatedKey>) {
    && (|keys| > 0 ==> keys[0].kind.Primary?)
    && (forall i :: 1 <= i < |keys| ==> keys[i].kind == Secondary)
  }

  /** The key a well-parsed entry stands for. */
  function Expected(entry: Entry, kind: AssociatedKeyKind): AssociatedKey
    requires FromFormattedStr(entry.0).Ok?
  {
    AssociatedKey(FromFormattedStr(entry.0).value, kind, entry.1)
  }

  /** The secondary entries, parsed in order; the first entry that fails decides the error. */
  function ParseSecondaries(entries: seq<Entry>): (r: Result<seq<AssociatedKey>, Error>)
    ensures r.Ok? ==> |r.value| == |entries| && forall i :: 0 <= i < |r.value| ==> r.value[i].kind == Secondary
    ensures r.Err? ==> r.error.ParseAccountHash?
    decreases |entries|
  {
    if entries == [] then Ok([])
    else
      match ParseSecondaries(entries[..|entries| - 1])
      case Err(e) => Err(e)
      case Ok(keys) =>
        match NewSecondary(entries[|entries| - 1].0, entries[|entries| - 1].1)
        case Err(e) => Err(e)
        case Ok(k) => Ok(keys + [k])
  }

  /** The key set the builder produces from the caller's entries. */
  function BuildKeySet(entries: seq<Entry>, primaryKeyShouldBeDeleted: bool): (r: Result<seq<AssociatedKey>, Error>)
    ensures entries == [] <==> r == Err(NoKeys)
    ensures r.Err? && entries != [] ==> r.error.ParseAccountHash?
    ensures r.Ok? ==> |r.value| == |entries| && WellFormed(r.value) && r.value[0].kind == Primary(primaryKeyShouldBeDeleted)
  {
    if entries == [] then Err(NoKeys)
    else
      match NewPrimary(entries[0].0, entries[0].1, primaryKeyShouldBeDeleted)
      case Err(e) => Err(e)
      case Ok(primary) =>
        match ParseSecondaries(entries[1..])
        case Err(e) => Err(e)
        case Ok(rest) => Ok([primary] + rest)
  }

  /** The secondaries parse exactly when every entry's hash parses, and then each key is its entry's. */
  lemma {:induction false} SecondariesSucceed(entries: seq<Entry>)
    ensures ParseSecondaries(entries).Ok? <==> forall i :: 0 <= i < |entries| ==> FromFormattedStr(entries[i].0).Ok?
    ensures ParseSecondaries(entries).Ok? ==>
              var keys := ParseSecondaries(entries).value;
              |keys| == |entries| &&
              forall i :: 0 <= i < |entries| ==> keys[i] == Expected(entries[i], Secondary)
    decreases |entries|
  {
    if entries != [] {
      var init := entries[..|entries| - 1];
      SecondariesSucceed(init);
      assert forall i :: 0 <= i < |init| ==> init[i] == entries[i];
    }
  }

  /** When some secondary entry fails, the error is the first failing entry's. */
  lemma {:induction false} SecondariesFirstError(entries: seq<Entry>, i: nat)
    requires i < |entries|
    requires FromFormattedStr(entries[i].0).Err?
    requires forall j :: 0 <= j < i ==> FromFormattedStr(entries[j].0).Ok?
    ensures ParseSecondaries(entries) == Err(ParseAccountHash(ErrorMessage(FromFormattedStr(entries[i].0).error)))
    decreases |entries|
  {
    var init := entries[..|entries| - 1];
    if i == |entries| - 1 {
      assert forall j :: 0 <= j < |init| ==> init[j] == entries[j];
      SecondariesSucceed(init);
    } else {
      assert init[i] == entries[i];
      SecondariesFirstError(init, i);
    }
  }

  /** An empty entry list is refused with `NoKeys`, whatever the other arguments. */
  lemma EmptyEntriesHaveNoKeys(primaryKeyShouldBeDeleted: bool)
    ensures BuildKeySet([], primaryKeyShouldBeDeleted) == Err(NoKeys)
  {
  }

  /** A non-empty entry list builds exactly when every entry's hash parses. */
  lemma BuildSucceedsIffAllParse(entries: seq<Entry>, primaryKeyShouldBeDeleted: bool)
    requires entries != []
    ensures BuildKeySet(entries, primaryKeyShouldBeDeleted).Ok? <==>
            forall i :: 0 <= i < |entries| ==> FromFormattedStr(entries[i].0).Ok?
  {
    var rest := entries[1..];
    SecondariesSucceed(rest);
    assert forall i :: 1 <= i < |entries| ==> entries[i] == rest[i - 1];
    if forall i :: 0 <= i < |entries| ==> FromFormattedStr(entries[i].0).Ok? {
      assert forall i :: 0 <= i < |rest| ==> FromFormattedStr(rest[i].0).Ok? by {
        forall i | 0 <= i < |rest| ensures FromFormattedStr(rest[i].0).Ok? {
          assert rest[i] == entries[i + 1];
        }
      }
    }
  }

  /** A failed build reports `ParseAccountHash` with the message of the first entry that does not parse. */
  lemma BuildFailsAtFirstBadEntry(entries: seq<Entry>, primaryKeyShouldBeDeleted: bool, i: nat)
    requires i < |entries|
    requires FromFormattedStr(entries[i].0).Err?
    requires forall j :: 0 <= j < i ==> FromFormattedStr(entries[j].0).Ok?
    ensures BuildKeySet(entries, primaryKeyShouldBeDeleted) ==
            Err(ParseAccountHash(ErrorMessage(FromFormattedStr(entries[i].0).error)))
  {
    if i > 0 {
      var rest := entries[1..];
      assert forall j :: 0 <= j < i - 1 ==> rest[j] == entries[j + 1];
      SecondariesFirstError(rest, i - 1);
    }
  }

  /**
   * A successful build keeps the entries' number, order, hashes and weights;
   * the first key is primary with the caller's deletion flag, every other key
   * secondary and never removed.
   */
  lemma BuildShape(entries: seq<Entry>, primaryKeyShouldBeDeleted: bool)
    requires BuildKeySet(entries, primaryKeyShouldBeDeleted).Ok?
    ensures var keys := BuildKeySet(entries, primaryKeyShouldBeDeleted).value;
            && |keys| == |entries|
            && (forall i :: 0 <= i < |keys| ==>
                  FromFormattedStr(entries[i].0) == Ok(keys[i].accountHash) && keys[i].weight == entries[i].1)
            && keys[0].kind == Primary(primaryKeyShouldBeDeleted)
            && RemoveAfterCreation(keys[0]) == primaryKeyShouldBeDeleted
            && (forall i :: 1 <= i < |keys| ==> keys[i].kind == Secondary && !RemoveAfterCreation(keys[i]))
            && WellFormed(keys)
  {
    var rest := entries[1..];
    SecondariesSucceed(rest);
    var keys := BuildKeySet(entries, primaryKeyShouldBeDeleted).value;
    assert forall i :: 1 <= i < |keys| ==> keys[i] == ParseSecondaries(rest).value[i - 1] && entries[i] == rest[i - 1];
  }

  /** Entries written from hashes by the formatter build back to exactly those hashes, in order. */
  lemma BuildFromFormatted(hashes: seq<AccountHash>, weights: seq<u8>, primaryKeyShouldBeDeleted: bool)
    requires |hashes| == |weights| > 0
    ensures var entries := seq(|hashes|, i requires 0 <= i < |hashes| => (ToFormattedString(hashes[i]), weights[i]));
            var r := BuildKeySet(entries, primaryKeyShouldBeDeleted);
            && r.Ok?
            && |r.value| == |hashes|
            && (forall i :: 0 <= i < |hashes| ==> r.value[i].accountHash == hashes[i] && r.value[i].weight == weights[i])
  {
    var entries := seq(|hashes|, i requires 0 <= i < |hashes| => (ToFormattedString(hashes[i]), weights[i]));
    forall i | 0 <= i < |hashes| ensures FromFormattedStr(entries[i].0) == Ok(hashes[i]) {
      FormatThenParse(hashes[i]);
    }
    BuildSucceedsIffAllParse(entries, primaryKeyShouldBeDeleted);
    BuildShape(entries, primaryKeyShouldBeDeleted);
  }

  /**
   * The builder loop: the primary entry first, then each remaining entry pushed
   * in turn; the first entry that fails ends the build with its error.
   */
  method BuildAssociatedKeys(keys: seq<Entry>, primaryKeyShouldBeDeleted: bool)
    returns (r: Result<seq<AssociatedKey>, Error>)
    ensures r == BuildKeySet(keys, primaryKeyShouldBeDeleted)
  {
    if |keys| == 0 {
      return Err(NoKeys);
    }
    var primary := NewPrimary(keys[0].0, keys[0].1, primaryKeyShouldBeDeleted);
    if primary.Err? {
      return Err(primary.error);
    }
    var associatedKeys := [primary.value];
    var i := 1;
    assert keys[1..i] == [] && associatedKeys[1..] == [];
    while i < |keys|
      invariant 1 <= i <= |keys|
      invariant |associatedKeys| == i && associatedKeys[0] == primary.value
      invariant ParseSecondaries(keys[1..i]) == Ok(associatedKeys[1..])
    {
      var secondary := NewSecondary(keys[i].0, keys[i].1);
      if secondary.Err? {
        var rest := keys[1..];
        SecondariesSucceed(keys[1..i]);
        assert forall j :: 0 <= j < i - 1 ==> rest[j] == keys[1..i][j];
        SecondariesFirstError(rest, i - 1);
        return Err(secondary.error);
      }
      assert keys[1..i + 1][..i - 1] == keys[1..i] && keys[1..i + 1][i - 1] == keys[i];
      assert (associatedKeys + [secondary.value])[1..] == associatedKeys[1..] + [secondary.value];
      associatedKeys := associatedKeys + [secondary.value];
      i := i + 1;
    }
    assert keys[1..i] == keys[1..];
    assert associatedKeys == [primary.value] + associatedKeys[1..];
    return Ok(associatedKeys);
  }
}
