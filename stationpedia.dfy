/** The game-data catalog (`Stationpedia`): the record fields that the instruction and
    wiki-box commands read, and the three first-match lookups over its pages. */
module Stationpedia {
  import opened Text

  /** A script command's description, as the catalog gives it. */
  datatype Command = Command(desc: string, example: string)

  /** A tool or item used in a build state; `quantity` is an `i64` in the catalog. */
  datatype Tool = Tool(isTool: bool, prefabName: string, quantity: Option<int>)

  datatype BuildState = BuildState(tool: Option<seq<Tool>>, toolExit: Option<seq<Tool>>)

  datatype Structure = Structure(smallGrid: bool, buildStates: seq<BuildState>)

  /** A recipe; `reagents` keeps the catalog's order, and a quantity (an `f64` in the
      catalog) is modelled by an integer. */
  datatype Recipe = Recipe(creatorPrefabName: string, tierName: string, reagents: seq<(string, int)>)

  datatype Item = Item(maxQuantity: Option<int>, recipes: seq<Recipe>)

  datatype Constructs = Constructs(nameOfThing: string, pageLink: string, prefabHash: int)

  /** One catalog page. `prefabHash` is an `i64` in the catalog. */
  datatype Page = Page(
    key: string,
    title: string,
    prefabName: string,
    prefabHash: int,
    item: Option<Item>,
    structure: Option<Structure>,
    constructs: seq<Constructs>,
    basePowerDraw: Option<string>)

  /** The catalog. `scriptCommands` is a `BTreeMap` in the source: its entries in
      ascending key order (see `KeysAscending`). */
  datatype Catalog = Catalog(pages: seq<Page>, scriptCommands: seq<(string, Command)>)

  /** Rust's `Ord` on `String`: lexicographic by character code. */
  predicate StrLess(a: string, b: string)
    decreases |a|
  {
    if |a| == 0 then |b| > 0
    else if |b| == 0 then false
    else if a[0] == b[0] then StrLess(a[1..], b[1..])
    else a[0] < b[0]
  }

  /** The order in which a `BTreeMap` yields its entries: keys strictly ascending. */
  predicate KeysAscending(entries: seq<(string, Command)>) {
    forall i, j :: 0 <= i < j < |entries| ==> StrLess(entries[i].0, entries[j].0)
  }

  /** `Stationpedia::lookup_prefab_name`: the first page whose prefab name is `prefabName`. */
  function LookupPrefabName(pages: seq<Page>, prefabName: string): Option<Page>
    decreases |pages|
  {
    if |pages| == 0 then None
    else if pages[0].prefabName == prefabName then Some(pages[0])
    else LookupPrefabName(pages[1..], prefabName)
  }

  /** The lookup finds nothing exactly when no page has that prefab name, and otherwise returns
      the earliest page that has it. */
  lemma {:induction false} LookupPrefabNameFirstMatch(pages: seq<Page>, prefabName: string)
    ensures LookupPrefabName(pages, prefabName).None? <==> forall i :: 0 <= i < |pages| ==> pages[i].prefabName != prefabName
    ensures LookupPrefabName(pages, prefabName).Some? ==>
              exists i :: 0 <= i < |pages| && pages[i] == LookupPrefabName(pages, prefabName).value
                          && pages[i].prefabName == prefabName
                          && forall j :: 0 <= j < i ==> pages[j].prefabName != prefabName
    decreases |pages|
  {
    if |pages| > 0 && pages[0].prefabName != prefabName {
      LookupPrefabNameFirstMatch(pages[1..], prefabName);
      assert forall i :: 1 <= i < |pages| ==> pages[i] == pages[1..][i - 1];
      if LookupPrefabName(pages, prefabName).Some? {
        var k :| 0 <= k < |pages[1..]| && pages[1..][k] == LookupPrefabName(pages, prefabName).value
                 && pages[1..][k].prefabName == prefabName
                 && forall j :: 0 <= j < k ==> pages[1..][j].prefabName != prefabName;
        assert pages[k + 1] == pages[1..][k];
      }
    }
  }

  /** `Stationpedia::lookup_key`: the first page whose key is `key`. */
  function LookupKey(pages: seq<Page>, key: string): Option<Page>
    decreases |pages|
  {
    if |pages| == 0 then None
    else if pages[0].key == key then Some(pages[0])
    else LookupKey(pages[1..], key)
  }

  /** The lookup finds nothing exactly when no page has that key, and otherwise returns
      the earliest page that has it. */
  lemma {:induction false} LookupKeyFirstMatch(pages: seq<Page>, key: string)
    ensures LookupKey(pages, key).None? <==> forall i :: 0 <= i < |pages| ==> pages[i].key != key
    ensures LookupKey(pages, key).Some? ==>
              exists i :: 0 <= i < |pages| && pages[i] == LookupKey(pages, key).value
                          && pages[i].key == key
                          && forall j :: 0 <= j < i ==> pages[j].key != key
    decreases |pages|
  {
    if |pages| > 0 && pages[0].key != key {
      LookupKeyFirstMatch(pages[1..], key);
      assert forall i :: 1 <= i < |pages| ==> pages[i] == pages[1..][i - 1];
      if LookupKey(pages, key).Some? {
        var k :| 0 <= k < |pages[1..]| && pages[1..][k] == LookupKey(pages, key).value
                 && pages[1..][k].key == key
                 && forall j :: 0 <= j < k ==> pages[1..][j].key != key;
        assert pages[k + 1] == pages[1..][k];
      }
    }
  }

  /** `Stationpedia::lookup_hash`: the first page whose prefab hash is `hash`. */
  function LookupHash(pages: seq<Page>, hash: int): Option<Page>
    decreases |pages|
  {
    if |pages| == 0 then None
    else if pages[0].prefabHash == hash then Some(pages[0])
    else LookupHash(pages[1..], hash)
  }

  /** The lookup finds nothing exactly when no page has that prefab hash, and otherwise returns
      the earliest page that has it. */
  lemma {:induction false} LookupHashFirstMatch(pages: seq<Page>, hash: int)
    ensures LookupHash(pages, hash).None? <==> forall i :: 0 <= i < |pages| ==> pages[i].prefabHash != hash
    ensures LookupHash(pages, hash).Some? ==>
              exists i :: 0 <= i < |pages| && pages[i] == LookupHash(pages, hash).value
                          && pages[i].prefabHash == hash
                          && forall j :: 0 <= j < i ==> pages[j].prefabHash != hash
    decreases |pages|
  {
    if |pages| > 0 && pages[0].prefabHash != hash {
      LookupHashFirstMatch(pages[1..], hash);
      assert forall i :: 1 <= i < |pages| ==> pages[i] == pages[1..][i - 1];
      if LookupHash(pages, hash).Some? {
        var k :| 0 <= k < |pages[1..]| && pages[1..][k] == LookupHash(pages, hash).value
                 && pages[1..][k].prefabHash == hash
                 && forall j :: 0 <= j < k ==> pages[1..][j].prefabHash != hash;
        assert pages[k + 1] == pages[1..][k];
      }
    }
  }
}
