/** The `instructions` command: for each script command of the catalog, walk the
    `[instructions.category]` table of the configuration with a visitor that remembers the
    enclosing table names, latch on the first `instructions` array that mentions the command,
    and group the matches by their category path. */
module Instructions {
  import opened Text
  import S = Stationpedia

  /** A node of the TOML configuration as the `toml_edit` visitor meets it. */
  datatype Item =
    | Str(s: string)                        // a string value
    | Scalar                                // any other scalar: integer, float, boolean, date-time
    | Array(values: seq<Item>)              // an array value `[ ... ]`
    | InlineTable(table: TableLike)         // an inline table value `{ k = v, ... }`
    | Table(table: TableLike)               // a `[header]` table
    | ArrayOfTables(tables: seq<TableLike>) // a run of `[[header]]` tables

  datatype Entry = Entry(key: string, item: Item)

  /** The key/value pairs of a table or an inline table, in document order. */
  datatype TableLike = TableLike(entries: seq<Entry>)

  /** `ConfigInstruction`: a command, the category path it was found under, and the
      cleaned-up `example` and `note` of its inline-table entry. */
  datatype ConfigInstruction = ConfigInstruction(
    command: string,
    category: seq<string>,
    example: Option<string>,
    note: Option<string>,
    info: S.Command)

  /** The fields of an `InstructionCollector`, as a value. */
  datatype Collector = Collector(
    actual: Option<ConfigInstruction>,
    category: seq<string>,
    currentItem: string,
    info: Option<S.Command>)

  /** The value of the first entry named `key` (`TableLike::get`). */
  function Get(t: TableLike, key: string): (r: Option<Item>)
    ensures r.Some? <==> exists i :: 0 <= i < |t.entries| && t.entries[i].key == key
    decreases |t.entries|
  {
    if |t.entries| == 0 then None
    else if t.entries[0].key == key then Some(t.entries[0].item)
    else
      var r := Get(TableLike(t.entries[1..]), key);
      assert forall i :: 1 <= i < |t.entries| ==> t.entries[i] == t.entries[1..][i - 1];
      r
  }

  /** `t.get(key).and_then(|e| e.as_str())`. */
  function StringField(t: TableLike, key: string): Option<string> {
    match Get(t, key)
    case Some(Str(s)) => Some(s)
    case _ => None
  }

  function MapOption(o: Option<string>, f: string -> string): Option<string> {
    match o
    case Some(s) => Some(f(s))
    case None => None
  }

  /** Some element of the array is the bare string `command`. */
  predicate MentionsBare(values: seq<Item>, command: string) {
    exists i :: 0 <= i < |values| && values[i] == Str(command)
  }

  /** An inline table whose `op` is the string `command`. */
  predicate IsOpTable(v: Item, command: string) {
    v.InlineTable? && StringField(v.table, "op") == Some(command)
  }

  /** The `find_map` over an `instructions` array: the first inline table whose `op` is `command`. */
  function FirstOpTable(values: seq<Item>, command: string): (r: Option<TableLike>)
    ensures r.None? <==> forall i :: 0 <= i < |values| ==> !IsOpTable(values[i], command)
    ensures r.Some? ==> exists i :: 0 <= i < |values| && values[i] == InlineTable(r.value)
                         && IsOpTable(values[i], command)
                         && forall j :: 0 <= j < i ==> !IsOpTable(values[j], command)
    decreases |values|
  {
    if |values| == 0 then None
    else if IsOpTable(values[0], command) then Some(values[0].table)
    else
      var r := FirstOpTable(values[1..], command);
      assert forall i :: 1 <= i < |values| ==> values[i] == values[1..][i - 1];
      r
  }

  /** What an `instructions` array yields for `command`: a bare string entry gives a match with
      no example and no note and is preferred to an inline table; otherwise the first inline
      table with `op = command` gives a match whose example and note are its tidied strings. */
  function ArrayMatch(command: string, tidy: string -> string, category: seq<string>, info: S.Command,
                      values: seq<Item>): (r: Option<ConfigInstruction>)
    ensures r.Some? <==> MentionsBare(values, command) || exists i :: 0 <= i < |values| && IsOpTable(values[i], command)
    ensures r.Some? ==> r.value.command == command && r.value.category == category && r.value.info == info
    ensures MentionsBare(values, command) ==> r.value.example.None? && r.value.note.None?
    ensures r.Some? && !MentionsBare(values, command) ==>
              exists i :: 0 <= i < |values| && IsOpTable(values[i], command)
                && (forall j :: 0 <= j < i ==> !IsOpTable(values[j], command))
                && r.value.example == MapOption(StringField(values[i].table, "example"), tidy)
                && r.value.note == MapOption(StringField(values[i].table, "note"), tidy)
  {
    if MentionsBare(values, command) then
      Some(ConfigInstruction(command, category, None, None, info))
    else
      match FirstOpTable(values, command)
      case Some(it) =>
        Some(ConfigInstruction(command, category,
                               MapOption(StringField(it, "example"), tidy),
                               MapOption(StringField(it, "note"), tidy), info))
      case None => None
  }

  /** `Vec::pop`, keeping what is left. */
  function Pop(s: seq<string>): seq<string> {
    if |s| == 0 then s else s[..|s| - 1]
  }

  // The configuration the source can walk without panicking: every `instructions` key that
  // the walk reaches holds an array (`node.as_array().unwrap()`).

  predicate WellFormedKv(key: string, node: Item)
    decreases node, 2
  {
    if key == "instructions" then node.Array? else WellFormedItem(node)
  }

  predicate WellFormedItem(node: Item)
    decreases node, 1
  {
    match node
    case Array(vs) => forall i :: 0 <= i < |vs| ==> WellFormedItem(vs[i])
    case InlineTable(t) => WellFormedTable(t)
    case Table(t) => WellFormedTable(t)
    case ArrayOfTables(ts) => forall i :: 0 <= i < |ts| ==> WellFormedTable(ts[i])
    case _ => true
  }

  predicate WellFormedTable(t: TableLike)
    decreases t, 0
  {
    forall i :: 0 <= i < |t.entries| ==> WellFormedKv(t.entries[i].key, t.entries[i].item)
  }

  /** Names that may stand on the category stack: pushed from a non-empty current item that is
      never `instructions`. */
  predicate NamesOk(category: seq<string>) {
    forall i :: 0 <= i < |category| ==> category[i] != "" && category[i] != "instructions"
  }

  /** What holds of the collector between visits: `info` is still there exactly while nothing
      has matched, a match is for the collector's command, and the stack holds only names that
      are non-empty and not `instructions` (the key of the entry last visited, which is not
      necessarily a table: see `StaleNameWellFormed`). */
  predicate Inv(command: string, st: Collector) {
    && (st.info.Some? <==> st.actual.None?)
    && (st.actual.Some? ==> st.actual.value.command == command && NamesOk(st.actual.value.category))
    && st.currentItem != "instructions"
    && NamesOk(st.category)
  }

  /** `visit_table_like_kv`: nothing once a match is recorded; an `instructions` key is
      inspected and never descended into; any other key becomes the current item and its
      value is visited. */
  function KvStep(command: string, tidy: string -> string, st: Collector, key: string, node: Item): (r: Collector)
    requires Inv(command, st) && WellFormedKv(key, node)
    ensures Inv(command, r) && r.category == st.category
    ensures st.actual.Some? ==> r == st
    ensures st.actual.None? && r.actual.Some? ==> r.actual.value.info == st.info.value
    ensures r.actual.None? ==> r.info == st.info
    ensures key == "instructions" ==> r.currentItem == st.currentItem
    decreases node, 4, 0
  {
    if st.actual.Some? then st
    else if key == "instructions" then
      match ArrayMatch(command, tidy, st.category, st.info.value, node.values)
      case Some(m) => st.(actual := Some(m), info := None)
      case None => st
    else ItemWalk(command, tidy, st.(currentItem := key), node)
  }

  /** `toml_edit`'s default `visit_item` / `visit_value`: scalars are ignored, arrays and
      arrays of tables are visited element by element, tables through `visit_table_like`. */
  function ItemWalk(command: string, tidy: string -> string, st: Collector, node: Item): (r: Collector)
    requires Inv(command, st) && WellFormedItem(node)
    ensures Inv(command, r) && r.category == st.category
    ensures st.actual.Some? ==> r == st
    ensures st.actual.None? && r.actual.Some? ==> r.actual.value.info == st.info.value
    ensures r.actual.None? ==> r.info == st.info
    decreases node, 3, 0
  {
    match node
    case Str(_) => st
    case Scalar => st
    case Array(vs) => ValuesWalk(command, tidy, st, node, |vs|)
    case InlineTable(t) => TableLikeWalk(command, tidy, st, t)
    case Table(t) => TableLikeWalk(command, tidy, st, t)
    case ArrayOfTables(ts) => TablesWalk(command, tidy, st, node, |ts|)
  }

  /** The first `n` elements of an array, visited in order. */
  function ValuesWalk(command: string, tidy: string -> string, st: Collector, arr: Item, n: nat): (r: Collector)
    requires arr.Array? && n <= |arr.values|
    requires Inv(command, st) && WellFormedItem(arr)
    ensures Inv(command, r) && r.category == st.category
    ensures st.actual.Some? ==> r == st
    ensures st.actual.None? && r.actual.Some? ==> r.actual.value.info == st.info.value
    ensures r.actual.None? ==> r.info == st.info
    decreases arr, 1, n
  {
    if n == 0 then st
    else ItemWalk(command, tidy, ValuesWalk(command, tidy, st, arr, n - 1), arr.values[n - 1])
  }

  /** The first `n` tables of an array of tables, visited in order. */
  function TablesWalk(command: string, tidy: string -> string, st: Collector, aot: Item, n: nat): (r: Collector)
    requires aot.ArrayOfTables? && n <= |aot.tables|
    requires Inv(command, st) && WellFormedItem(aot)
    ensures Inv(command, r) && r.category == st.category
    ensures st.actual.Some? ==> r == st
    ensures st.actual.None? && r.actual.Some? ==> r.actual.value.info == st.info.value
    ensures r.actual.None? ==> r.info == st.info
    decreases aot, 1, n
  {
    if n == 0 then st
    else TableLikeWalk(command, tidy, TablesWalk(command, tidy, st, aot, n - 1), aot.tables[n - 1])
  }

  /** `visit_table_like`: the entries are visited with the current item pushed on the category
      stack (nothing is pushed while the current item is empty) and popped afterwards. */
  function TableLikeWalk(command: string, tidy: string -> string, st: Collector, t: TableLike): (r: Collector)
    requires Inv(command, st) && WellFormedTable(t)
    ensures Inv(command, r) && r.category == st.category
    ensures st.actual.Some? ==> r == st
    ensures st.actual.None? && r.actual.Some? ==> r.actual.value.info == st.info.value
    ensures r.actual.None? ==> r.info == st.info
    decreases t, 2, 0
  {
    if st.currentItem == "" then EntriesWalk(command, tidy, st, t, |t.entries|)
    else
      var inner := EntriesWalk(command, tidy, st.(category := st.category + [st.currentItem]), t, |t.entries|);
      inner.(category := Pop(inner.category))
  }

  /** The first `n` entries of a table, visited in order. */
  function EntriesWalk(command: string, tidy: string -> string, st: Collector, t: TableLike, n: nat): (r: Collector)
    requires n <= |t.entries|
    requires Inv(command, st) && WellFormedTable(t)
    ensures Inv(command, r) && r.category == st.category
    ensures st.actual.Some? ==> r == st
    ensures st.actual.None? && r.actual.Some? ==> r.actual.value.info == st.info.value
    ensures r.actual.None? ==> r.info == st.info
    decreases t, 1, n
  {
    if n == 0 then st
    else KvStep(command, tidy, EntriesWalk(command, tidy, st, t, n - 1), t.entries[n - 1].key, t.entries[n - 1].item)
  }

  /** The collector `run` creates for one command. */
  function Start(info: S.Command): Collector {
    Collector(None, [], "", Some(info))
  }

  /** The match `visit_table` leaves in a fresh collector for `command`: there is one exactly
      when the table mentions the command somewhere the walk looks. */
  function Collect(command: string, info: S.Command, table: TableLike, tidy: string -> string): (r: Option<ConfigInstruction>)
    requires WellFormedTable(table)
    ensures r.Some? <==> TableMentions(command, table)
    ensures r.Some? ==> r.value.command == command && r.value.info == info && NamesOk(r.value.category)
  {
    TableFinds(command, tidy, Start(info), table);
    TableLikeWalk(command, tidy, Start(info), table).actual
  }

  // Where a command is mentioned, independently of the collector: an `instructions` array
  // that holds it as a bare string or as the `op` of an inline table, reached through
  // tables, inline tables, arrays and arrays of tables but never through another
  // `instructions` array.

  predicate ArrayMentions(values: seq<Item>, command: string) {
    MentionsBare(values, command) || exists i :: 0 <= i < |values| && IsOpTable(values[i], command)
  }

  predicate KvMentions(command: string, key: string, node: Item)
    decreases node, 2
  {
    if key == "instructions" then node.Array? && ArrayMentions(node.values, command)
    else ItemMentions(command, node)
  }

  predicate ItemMentions(command: string, node: Item)
    decreases node, 1
  {
    match node
    case Array(vs) => exists i :: 0 <= i < |vs| && ItemMentions(command, vs[i])
    case InlineTable(t) => TableMentions(command, t)
    case Table(t) => TableMentions(command, t)
    case ArrayOfTables(ts) => exists i :: 0 <= i < |ts| && TableMentions(command, ts[i])
    case _ => false
  }

  predicate TableMentions(command: string, t: TableLike)
    decreases t, 0
  {
    exists i :: 0 <= i < |t.entries| && KvMentions(command, t.entries[i].key, t.entries[i].item)
  }

  // Each walk ends with a match exactly when it started with one or what it visits mentions
  // the command: neither the stack nor the current item decides whether a match is found.

  lemma {:induction false} KvFinds(command: string, tidy: string -> string, st: Collector, key: string, node: Item)
    requires Inv(command, st) && WellFormedKv(key, node)
    ensures KvStep(command, tidy, st, key, node).actual.Some? <==> st.actual.Some? || KvMentions(command, key, node)
    decreases node, 4, 0
  {
    if st.actual.None? && key != "instructions" {
      ItemFinds(command, tidy, st.(currentItem := key), node);
    }
  }

  lemma {:induction false} ItemFinds(command: string, tidy: string -> string, st: Collector, node: Item)
    requires Inv(command, st) && WellFormedItem(node)
    ensures ItemWalk(command, tidy, st, node).actual.Some? <==> st.actual.Some? || ItemMentions(command, node)
    decreases node, 3, 0
  {
    match node
    case Array(vs) => ValuesFinds(command, tidy, st, node, |vs|);
    case InlineTable(t) => TableFinds(command, tidy, st, t);
    case Table(t) => TableFinds(command, tidy, st, t);
    case ArrayOfTables(ts) => TablesFinds(command, tidy, st, node, |ts|);
    case Str(_) =>
    case Scalar =>
  }

  lemma {:induction false} ValuesFinds(command: string, tidy: string -> string, st: Collector, arr: Item, n: nat)
    requires arr.Array? && n <= |arr.values|
    requires Inv(command, st) && WellFormedItem(arr)
    ensures ValuesWalk(command, tidy, st, arr, n).actual.Some?
            <==> st.actual.Some? || exists i :: 0 <= i < n && ItemMentions(command, arr.values[i])
    decreases arr, 1, n
  {
    if n > 0 {
      ValuesFinds(command, tidy, st, arr, n - 1);
      ItemFinds(command, tidy, ValuesWalk(command, tidy, st, arr, n - 1), arr.values[n - 1]);
    }
  }

  lemma {:induction false} TablesFinds(command: string, tidy: string -> string, st: Collector, aot: Item, n: nat)
    requires aot.ArrayOfTables? && n <= |aot.tables|
    requires Inv(command, st) && WellFormedItem(aot)
    ensures TablesWalk(command, tidy, st, aot, n).actual.Some?
            <==> st.actual.Some? || exists i :: 0 <= i < n && TableMentions(command, aot.tables[i])
    decreases aot, 1, n
  {
    if n > 0 {
      TablesFinds(command, tidy, st, aot, n - 1);
      TableFinds(command, tidy, TablesWalk(command, tidy, st, aot, n - 1), aot.tables[n - 1]);
    }
  }

  lemma {:induction false} TableFinds(command: string, tidy: string -> string, st: Collector, t: TableLike)
    requires Inv(command, st) && WellFormedTable(t)
    ensures TableLikeWalk(command, tidy, st, t).actual.Some? <==> st.actual.Some? || TableMentions(command, t)
    decreases t, 2, 0
  {
    if st.currentItem == "" {
      EntriesFinds(command, tidy, st, t, |t.entries|);
    } else {
      var st1 := st.(category := st.category + [st.currentItem]);
      assert Inv(command, st1) by {
        assert forall i :: 0 <= i < |st.category| ==> st1.category[i] == st.category[i];
      }
      EntriesFinds(command, tidy, st1, t, |t.entries|);
    }
  }

  lemma {:induction false} EntriesFinds(command: string, tidy: string -> string, st: Collector, t: TableLike, n: nat)
    requires n <= |t.entries|
    requires Inv(command, st) && WellFormedTable(t)
    ensures EntriesWalk(command, tidy, st, t, n).actual.Some?
            <==> st.actual.Some? || exists i :: 0 <= i < n && KvMentions(command, t.entries[i].key, t.entries[i].item)
    decreases t, 1, n
  {
    if n > 0 {
      EntriesFinds(command, tidy, st, t, n - 1);
      KvFinds(command, tidy, EntriesWalk(command, tidy, st, t, n - 1), t.entries[n - 1].key, t.entries[n - 1].item);
    }
  }

  /** The index of the first entry, from `j` on, that mentions the command. */
  function FirstMentionFrom(command: string, t: TableLike, j: nat): (i: nat)
    requires j <= |t.entries|
    requires exists i :: j <= i < |t.entries| && KvMentions(command, t.entries[i].key, t.entries[i].item)
    ensures j <= i < |t.entries| && KvMentions(command, t.entries[i].key, t.entries[i].item)
    ensures forall k :: j <= k < i ==> !KvMentions(command, t.entries[k].key, t.entries[k].item)
    decreases |t.entries| - j
  {
    if KvMentions(command, t.entries[j].key, t.entries[j].item) then j
    else FirstMentionFrom(command, t, j + 1)
  }

  /** The table mentions the command, and its first mention is an `instructions` entry or
      lies inside a table or inline table whose first mention is of the same kind. */
  predicate PlainPath(command: string, t: TableLike)
    decreases t
  {
    && TableMentions(command, t)
    && var e := t.entries[FirstMentionFrom(command, t, 0)];
       (e.key == "instructions" || ((e.item.Table? || e.item.InlineTable?) && PlainPath(command, e.item.table)))
  }

  /** What `visit_table_like` pushes for a current item: nothing for the empty name. */
  function Pushed(name: string): seq<string> {
    if name == "" then [] else [name]
  }

  /** The keys leading to the first mention, each as `Pushed` records it. */
  function FirstPath(command: string, t: TableLike): seq<string>
    requires PlainPath(command, t)
    decreases t
  {
    var e := t.entries[FirstMentionFrom(command, t, 0)];
    if e.key == "instructions" then [] else Pushed(e.key) + FirstPath(command, e.item.table)
  }

  /** Pushing the current item keeps the collector invariant. */
  lemma PushKeepsInv(command: string, st: Collector)
    requires Inv(command, st)
    ensures Inv(command, st.(category := st.category + Pushed(st.currentItem)))
  {
    var c := st.category + Pushed(st.currentItem);
    assert forall i :: 0 <= i < |st.category| ==> c[i] == st.category[i];
  }

  /** A table is walked as its entries under the pushed stack. */
  lemma TableLikeAsEntries(command: string, tidy: string -> string, st: Collector, t: TableLike)
    requires Inv(command, st) && WellFormedTable(t)
    ensures Inv(command, st.(category := st.category + Pushed(st.currentItem)))
    ensures TableLikeWalk(command, tidy, st, t).actual
            == EntriesWalk(command, tidy, st.(category := st.category + Pushed(st.currentItem)), t, |t.entries|).actual
  {
    PushKeepsInv(command, st);
    if st.currentItem == "" {
      assert st.(category := st.category + Pushed(st.currentItem)) == st;
    }
  }

  /** The entries of a table that mentions the command are decided by its first mention: the
      entries before it leave the collector without a match and with its stack and info. */
  lemma FirstMentionDecides(command: string, tidy: string -> string, st: Collector, t: TableLike)
    requires Inv(command, st) && st.actual.None? && WellFormedTable(t) && TableMentions(command, t)
    ensures var i := FirstMentionFrom(command, t, 0);
            var mid := EntriesWalk(command, tidy, st, t, i);
            && mid.actual.None? && mid.category == st.category && mid.info == st.info
            && WellFormedKv(t.entries[i].key, t.entries[i].item)
            && EntriesWalk(command, tidy, st, t, |t.entries|).actual
               == KvStep(command, tidy, mid, t.entries[i].key, t.entries[i].item).actual
  {
    var i := FirstMentionFrom(command, t, 0);
    var e := t.entries[i];
    EntriesFinds(command, tidy, st, t, i);
    var mid := EntriesWalk(command, tidy, st, t, i);
    assert WellFormedKv(e.key, e.item);
    assert EntriesWalk(command, tidy, st, t, i + 1) == KvStep(command, tidy, mid, e.key, e.item);
    KvFinds(command, tidy, mid, e.key, e.item);
    EntriesFirstMatchWins(command, tidy, st, t, i + 1, |t.entries|);
  }

  /** One level of a table whose first mention is reached through tables: an `instructions`
      entry matches with the pushed stack; a table entry is visited with the pushed stack and
      its key as the current item. */
  lemma PathStep(command: string, tidy: string -> string, st: Collector, t: TableLike)
    requires Inv(command, st) && st.actual.None? && WellFormedTable(t) && PlainPath(command, t)
    ensures var e := t.entries[FirstMentionFrom(command, t, 0)];
            var pushed := st.category + Pushed(st.currentItem);
            && (e.key == "instructions" ==>
                  TableLikeWalk(command, tidy, st, t).actual.Some?
                  && TableLikeWalk(command, tidy, st, t).actual.value.category == pushed)
            && (e.key != "instructions" ==>
                  WellFormedTable(e.item.table) && Inv(command, Collector(None, pushed, e.key, st.info))
                  && TableLikeWalk(command, tidy, st, t).actual
                     == TableLikeWalk(command, tidy, Collector(None, pushed, e.key, st.info), e.item.table).actual)
  {
    var st1 := st.(category := st.category + Pushed(st.currentItem));
    TableLikeAsEntries(command, tidy, st, t);
    FirstMentionDecides(command, tidy, st1, t);
    var i := FirstMentionFrom(command, t, 0);
    var e := t.entries[i];
    var mid := EntriesWalk(command, tidy, st1, t, i);
    if e.key == "instructions" {
      MatchRecordsStack(command, tidy, mid, e.item);
    } else {
      EnterTable(command, tidy, mid, e.key, e.item);
      assert mid.(currentItem := e.key) == Collector(None, st1.category, e.key, st.info);
    }
  }

  /** Where the first mention is reached through tables, the walk records the stack, the
      pushed current item and the path of keys to that mention. */
  lemma {:induction false} PathWalk(command: string, tidy: string -> string, st: Collector, t: TableLike)
    requires Inv(command, st) && st.actual.None? && WellFormedTable(t) && PlainPath(command, t)
    ensures TableLikeWalk(command, tidy, st, t).actual.Some?
    ensures TableLikeWalk(command, tidy, st, t).actual.value.category
            == st.category + Pushed(st.currentItem) + FirstPath(command, t)
    decreases t
  {
    PathStep(command, tidy, st, t);
    var e := t.entries[FirstMentionFrom(command, t, 0)];
    var pushed := st.category + Pushed(st.currentItem);
    if e.key == "instructions" {
      assert FirstPath(command, t) == [];
      ConcatAssoc(pushed, [], []);
    } else {
      var u := e.item.table;
      PathWalk(command, tidy, Collector(None, pushed, e.key, st.info), u);
      ConcatAssoc(pushed, Pushed(e.key), FirstPath(command, u));
    }
  }

  lemma ConcatAssoc(a: seq<string>, b: seq<string>, c: seq<string>)
    ensures a + b + c == a + (b + c) && a + [] == a
  {
  }

  /** A key other than `instructions` whose value is a table is walked by visiting that table
      with the key as the current item. */
  lemma EnterTable(command: string, tidy: string -> string, st: Collector, key: string, node: Item)
    requires Inv(command, st) && st.actual.None? && key != "instructions"
    requires (node.Table? || node.InlineTable?) && WellFormedKv(key, node)
    ensures WellFormedTable(node.table) && Inv(command, st.(currentItem := key))
    ensures KvStep(command, tidy, st, key, node) == TableLikeWalk(command, tidy, st.(currentItem := key), node.table)
  {
    assert WellFormedItem(node);
  }

  /** A fresh collector whose first mention is reached through tables records the path of keys
      to it. */
  lemma CollectPath(command: string, info: S.Command, table: TableLike, tidy: string -> string)
    requires WellFormedTable(table) && PlainPath(command, table)
    ensures Collect(command, info, table, tidy).Some?
    ensures Collect(command, info, table, tidy).value.category == FirstPath(command, table)
  {
    PathWalk(command, tidy, Start(info), table);
  }

  /** Once an entry of a table has produced a match, the entries after it change nothing:
      the first match wins. */
  lemma {:induction false} EntriesFirstMatchWins(command: string, tidy: string -> string, st: Collector,
                                                 t: TableLike, k: nat, n: nat)
    requires k <= n <= |t.entries|
    requires Inv(command, st) && WellFormedTable(t)
    requires EntriesWalk(command, tidy, st, t, k).actual.Some?
    ensures EntriesWalk(command, tidy, st, t, n) == EntriesWalk(command, tidy, st, t, k)
    decreases n
  {
    if n > k {
      EntriesFirstMatchWins(command, tidy, st, t, k, n - 1);
    }
  }

  /** An `instructions` array met with category stack `st.category` records exactly that stack. */
  lemma MatchRecordsStack(command: string, tidy: string -> string, st: Collector, node: Item)
    requires Inv(command, st) && st.actual.None? && node.Array?
    requires MentionsBare(node.values, command) || exists i :: 0 <= i < |node.values| && IsOpTable(node.values[i], command)
    ensures KvStep(command, tidy, st, "instructions", node).actual.Some?
    ensures KvStep(command, tidy, st, "instructions", node).actual.value.category == st.category
    ensures KvStep(command, tidy, st, "instructions", node).info.None?
  {
  }

  /** The table `[k1.k2. ... .kn]` with `instructions = [command]` in it, seen from its parent:
      each key names the only entry of its table, and the innermost table holds the array. */
  function Nest(keys: seq<string>, command: string): (t: TableLike)
    ensures NamesOk(keys) ==> WellFormedTable(t)
    decreases |keys|
  {
    if |keys| == 0 then TableLike([Entry("instructions", Array([Str(command)]))])
    else
      var inner := Nest(keys[1..], command);
      assert NamesOk(keys) ==> NamesOk(keys[1..]) && keys[0] != "instructions" by {
        if NamesOk(keys) {
          assert forall i :: 0 <= i < |keys| - 1 ==> keys[1..][i] == keys[i + 1];
        }
      }
      TableLike([Entry(keys[0], Table(inner))])
  }

  /** A table whose only entry is the table `inner` under `key` is walked by visiting `inner`
      with `key` as the current item. */
  lemma TableEntryWalk(command: string, tidy: string -> string, st: Collector, key: string, inner: TableLike)
    requires Inv(command, st) && st.actual.None? && key != "instructions" && WellFormedTable(inner)
    ensures WellFormedTable(TableLike([Entry(key, Table(inner))]))
    ensures EntriesWalk(command, tidy, st, TableLike([Entry(key, Table(inner))]), 1).actual
            == TableLikeWalk(command, tidy, st.(currentItem := key), inner).actual
  {
    var t := TableLike([Entry(key, Table(inner))]);
    assert WellFormedKv(t.entries[0].key, t.entries[0].item);
    assert EntriesWalk(command, tidy, st, t, 0) == st;
    var st1 := st.(currentItem := key);
    assert KvStep(command, tidy, st, key, Table(inner)) == ItemWalk(command, tidy, st1, Table(inner));
  }

  /** A table whose only entry is `instructions = [command]` matches with the stack as it is. */
  lemma InstructionsEntryWalk(command: string, tidy: string -> string, st: Collector)
    requires Inv(command, st) && st.actual.None?
    ensures WellFormedTable(TableLike([Entry("instructions", Array([Str(command)]))]))
    ensures EntriesWalk(command, tidy, st, TableLike([Entry("instructions", Array([Str(command)]))]), 1).actual
            == Some(ConfigInstruction(command, st.category, None, None, st.info.value))
  {
    var values := [Str(command)];
    var t := TableLike([Entry("instructions", Array(values))]);
    assert WellFormedKv(t.entries[0].key, t.entries[0].item);
    assert EntriesWalk(command, tidy, st, t, 0) == st;
    assert MentionsBare(values, command) by {
      assert values[0] == Str(command);
    }
    MatchRecordsStack(command, tidy, st, Array(values));
  }

  /** Walking down a chain of tables from a non-empty current item records the current item
      followed by the chain's keys, with no example and no note. */
  lemma {:induction false} NestWalk(command: string, tidy: string -> string, st: Collector, keys: seq<string>)
    requires Inv(command, st) && st.actual.None? && st.currentItem != "" && NamesOk(keys)
    ensures TableLikeWalk(command, tidy, st, Nest(keys, command)).actual
            == Some(ConfigInstruction(command, st.category + [st.currentItem] + keys, None, None, st.info.value))
    decreases |keys|
  {
    var st1 := st.(category := st.category + [st.currentItem]);
    assert Inv(command, st1) by {
      assert forall i :: 0 <= i < |st.category| ==> st1.category[i] == st.category[i];
    }
    var t := Nest(keys, command);
    assert TableLikeWalk(command, tidy, st, t).actual == EntriesWalk(command, tidy, st1, t, 1).actual;
    if |keys| == 0 {
      InstructionsEntryWalk(command, tidy, st1);
      assert st.category + [st.currentItem] + keys == st1.category;
    } else {
      var rest := keys[1..];
      assert NamesOk(rest) && keys[0] != "" && keys[0] != "instructions" by {
        assert forall i :: 0 <= i < |rest| ==> rest[i] == keys[i + 1];
      }
      TableEntryWalk(command, tidy, st1, keys[0], Nest(rest, command));
      NestWalk(command, tidy, st1.(currentItem := keys[0]), rest);
      assert st1.category + [keys[0]] + rest == st.category + [st.currentItem] + keys;
    }
  }

  /** A command listed under `[instructions.category.k1. ... .kn]`, with the category table
      holding nothing else, is collected with the category path `[k1, ..., kn]`. */
  lemma CollectNested(command: string, info: S.Command, keys: seq<string>, tidy: string -> string)
    requires |keys| > 0 && NamesOk(keys)
    ensures Collect(command, info, Nest(keys, command), tidy) == Some(ConfigInstruction(command, keys, None, None, info))
  {
    var rest := keys[1..];
    assert NamesOk(rest) && keys[0] != "" && keys[0] != "instructions" by {
      assert forall i :: 0 <= i < |rest| ==> rest[i] == keys[i + 1];
    }
    TableEntryWalk(command, tidy, Start(info), keys[0], Nest(rest, command));
    NestWalk(command, tidy, Start(info).(currentItem := keys[0]), rest);
    assert [] + [keys[0]] + rest == keys;
  }

  /** `InstructionCollector`: the visitor that `run` drives over the category table. */
  class InstructionCollector {
    const command: string
    /** `textwrap::dedent(s).trim()`, a library call this model does not define. */
    const tidy: string -> string
    var actualInstruction: Option<ConfigInstruction>
    var category: seq<string>
    var currentItem: string
    var info: Option<S.Command>

    function Snapshot(): Collector
      reads this
    {
      Collector(actualInstruction, category, currentItem, info)
    }

    constructor (command: string, info: S.Command, tidy: string -> string)
      ensures this.command == command && this.tidy == tidy
      ensures Snapshot() == Start(info)
    {
      this.command := command;
      this.tidy := tidy;
      actualInstruction := None;
      category := [];
      currentItem := "";
      this.info := Some(info);
    }

    method VisitTableLikeKv(key: string, node: Item)
      requires Inv(command, Snapshot()) && WellFormedKv(key, node)
      modifies this
      ensures Snapshot() == KvStep(command, tidy, old(Snapshot()), key, node)
      ensures old(actualInstruction).Some? ==> Snapshot() == old(Snapshot())
      ensures category == old(category)
      decreases node, 4, 0
    {
      if actualInstruction.Some? {
        return;
      }
      if key == "instructions" {
        var values := node.values;
        if MentionsBare(values, command) {
          actualInstruction := Some(ConfigInstruction(command, category, None, None, info.value));
          info := None;
        } else {
          var it := FirstOpTable(values, command);
          if it.Some? {
            var example := MapOption(StringField(it.value, "example"), tidy);
            var note := MapOption(StringField(it.value, "note"), tidy);
            actualInstruction := Some(ConfigInstruction(command, category, example, note, info.value));
            info := None;
          }
        }
        return;
      }
      currentItem := key;
      VisitItem(node);
    }

    method VisitItem(node: Item)
      requires Inv(command, Snapshot()) && WellFormedItem(node)
      modifies this
      ensures Snapshot() == ItemWalk(command, tidy, old(Snapshot()), node)
      decreases node, 3, 0
    {
      match node {
        case Str(_) =>
        case Scalar =>
        case Array(vs) =>
          ghost var s0 := Snapshot();
          for i := 0 to |vs|
            invariant Snapshot() == ValuesWalk(command, tidy, s0, node, i)
          {
            VisitItem(vs[i]);
          }
        case InlineTable(t) =>
          VisitTableLike(t);
        case Table(t) =>
          VisitTableLike(t);
        case ArrayOfTables(ts) =>
          ghost var s0 := Snapshot();
          for i := 0 to |ts|
            invariant Snapshot() == TablesWalk(command, tidy, s0, node, i)
          {
            VisitTableLike(ts[i]);
          }
      }
    }

    method VisitTableLike(t: TableLike)
      requires Inv(command, Snapshot()) && WellFormedTable(t)
      modifies this
      ensures Snapshot() == TableLikeWalk(command, tidy, old(Snapshot()), t)
      ensures category == old(category)
      decreases t, 2, 0
    {
      var pushed := currentItem != "";
      if pushed {
        category := category + [currentItem];
      }
      ghost var s0 := Snapshot();
      for i := 0 to |t.entries|
        invariant Snapshot() == EntriesWalk(command, tidy, s0, t, i)
      {
        VisitTableLikeKv(t.entries[i].key, t.entries[i].item);
      }
      if pushed {
        category := Pop(category);
      }
    }
  }

  /** `config["instructions"]["category"]`, which must be a (non-inline) table. */
  function CategoryTable(config: TableLike): Option<TableLike> {
    match Get(config, "instructions")
    case Some(Table(t)) =>
      (match Get(t, "category")
       case Some(Table(c)) => Some(c)
       case _ => None)
    case _ => None
  }

  /** The matches of `commands`, in order, skipping the commands without one. */
  function Matched(commands: seq<(string, S.Command)>, table: TableLike, tidy: string -> string): seq<ConfigInstruction>
    requires WellFormedTable(table)
    decreases |commands|
  {
    if |commands| == 0 then []
    else
      var last := commands[|commands| - 1];
      Matched(commands[..|commands| - 1], table, tidy)
        + match Collect(last.0, last.1, table, tidy) { case Some(m) => [m] case None => [] }
  }

  /** The matches whose category is `c`, in order. */
  function OfCategory(ms: seq<ConfigInstruction>, c: seq<string>): seq<ConfigInstruction>
    decreases |ms|
  {
    if |ms| == 0 then []
    else OfCategory(ms[..|ms| - 1], c) + (if ms[|ms| - 1].category == c then [ms[|ms| - 1]] else [])
  }

  function Categories(ms: seq<ConfigInstruction>): set<seq<string>> {
    set m | m in ms :: m.category
  }

  lemma OfCategorySnoc(ms: seq<ConfigInstruction>, m: ConfigInstruction, c: seq<string>)
    ensures OfCategory(ms + [m], c) == OfCategory(ms, c) + (if m.category == c then [m] else [])
  {
    assert (ms + [m])[..|ms|] == ms;
  }

  /** Appending one match to its group keeps the grouping in step with the matches. */
  lemma GroupStep(output: map<seq<string>, seq<ConfigInstruction>>, ms: seq<ConfigInstruction>, m: ConfigInstruction)
    requires output.Keys == Categories(ms)
    requires forall c :: c in output ==> output[c] == OfCategory(ms, c)
    ensures var next := output[m.category := (if m.category in output then output[m.category] else []) + [m]];
            next.Keys == Categories(ms + [m]) && forall c :: c in next ==> next[c] == OfCategory(ms + [m], c)
  {
    var next := output[m.category := (if m.category in output then output[m.category] else []) + [m]];
    assert Categories(ms + [m]) == Categories(ms) + {m.category};
    forall c | c in next
      ensures next[c] == OfCategory(ms + [m], c)
    {
      OfCategorySnoc(ms, m, c);
      if c == m.category && m.category !in output {
        assert OfCategory(ms, c) == [] by {
          OfCategoryAbsent(ms, c);
        }
      }
    }
  }

  /** A category no match carries has an empty group. */
  lemma {:induction false} OfCategoryAbsent(ms: seq<ConfigInstruction>, c: seq<string>)
    requires c !in Categories(ms)
    ensures OfCategory(ms, c) == []
    decreases |ms|
  {
    if |ms| > 0 {
      assert ms[|ms| - 1] in ms;
      var init := ms[..|ms| - 1];
      assert Categories(init) <= Categories(ms) by {
        forall x | x in Categories(init) ensures x in Categories(ms) {
          var m :| m in init && m.category == x;
          assert m in ms;
        }
      }
      OfCategoryAbsent(init, c);
    }
  }

  /** The matches of the first `k + 1` commands extend those of the first `k` by the match of
      command `k`, if it has one. */
  lemma MatchedSnoc(commands: seq<(string, S.Command)>, k: nat, table: TableLike, tidy: string -> string)
    requires k < |commands| && WellFormedTable(table)
    ensures Matched(commands[..k + 1], table, tidy)
            == Matched(commands[..k], table, tidy)
               + match Collect(commands[k].0, commands[k].1, table, tidy) { case Some(m) => [m] case None => [] }
  {
    assert commands[..k + 1][..k] == commands[..k];
  }

  /** One iteration of `run`'s loop: a fresh collector for `instruction` visits the category
      table and its match is read back. */
  method CollectOne(instruction: string, info: S.Command, table: TableLike, tidy: string -> string)
    returns (found: Option<ConfigInstruction>)
    requires WellFormedTable(table)
    ensures found == Collect(instruction, info, table, tidy)
  {
    var col := new InstructionCollector(instruction, info, tidy);
    col.VisitTableLike(table);
    found := col.actualInstruction;
  }

  /** `Instructions::run`: one collector per script command, in the catalog's key order; the
      matches are grouped by category path, each appended to the end of its group. The category
      table is looked up inside the loop, so only a catalog with script commands needs one. */
  method Run(catalog: S.Catalog, config: TableLike, tidy: string -> string)
    returns (output: map<seq<string>, seq<ConfigInstruction>>)
    requires |catalog.scriptCommands| > 0 ==>
               CategoryTable(config).Some? && WellFormedTable(CategoryTable(config).value)
    ensures |catalog.scriptCommands| == 0 ==> output == map[]
    ensures |catalog.scriptCommands| > 0 ==>
              output.Keys == Categories(Matched(catalog.scriptCommands, CategoryTable(config).value, tidy))
    ensures |catalog.scriptCommands| > 0 ==> forall c :: c in output ==>
              output[c] == OfCategory(Matched(catalog.scriptCommands, CategoryTable(config).value, tidy), c)
  {
    var commands := catalog.scriptCommands;
    if |commands| == 0 {
      return map[];
    }
    var table := CategoryTable(config).value;
    output := map[];
    for k := 0 to |commands|
      invariant output.Keys == Categories(Matched(commands[..k], table, tidy))
      invariant forall c :: c in output ==> output[c] == OfCategory(Matched(commands[..k], table, tidy), c)
    {
      var (instruction, info) := commands[k];
      var found := CollectOne(instruction, info, table, tidy);
      ghost var ms := Matched(commands[..k], table, tidy);
      MatchedSnoc(commands, k, table, tidy);
      if found.None? {
        assert Matched(commands[..k + 1], table, tidy) == ms;
        continue;
      }
      var ins := found.value;
      assert Matched(commands[..k + 1], table, tidy) == ms + [ins];
      GroupStep(output, ms, ins);
      output := output[ins.category := (if ins.category in output then output[ins.category] else []) + [ins]];
    }
    assert commands[..|commands|] == commands;
  }

  /** A match is among `Matched` exactly when some command's collector produced it: commands
      without a match are skipped and no other entry appears. */
  lemma {:induction false} MatchedExactly(commands: seq<(string, S.Command)>, table: TableLike,
                                          tidy: string -> string, m: ConfigInstruction)
    requires WellFormedTable(table)
    ensures m in Matched(commands, table, tidy)
            <==> exists i :: 0 <= i < |commands| && Collect(commands[i].0, commands[i].1, table, tidy) == Some(m)
    decreases |commands|
  {
    if |commands| > 0 {
      var init := commands[..|commands| - 1];
      MatchedExactly(init, table, tidy, m);
      assert forall i :: 0 <= i < |init| ==> init[i] == commands[i];
    }
  }

  /** A group holds exactly the matches of its category. */
  lemma {:induction false} OfCategoryMembers(ms: seq<ConfigInstruction>, c: seq<string>, m: ConfigInstruction)
    ensures m in OfCategory(ms, c) <==> m in ms && m.category == c
    decreases |ms|
  {
    if |ms| > 0 {
      var init := ms[..|ms| - 1];
      OfCategoryMembers(init, c, m);
      assert ms == init + [ms[|ms| - 1]];
    }
  }

  /** Commands listed in strictly ascending order (hence each at most once). */
  predicate CommandsAscending(ms: seq<ConfigInstruction>) {
    forall i, j :: 0 <= i < j < |ms| ==> S.StrLess(ms[i].command, ms[j].command)
  }

  /** Commands are processed in the catalog's key order, so the matches come out ascending. */
  lemma {:induction false} MatchedAscending(commands: seq<(string, S.Command)>, table: TableLike, tidy: string -> string)
    requires WellFormedTable(table) && S.KeysAscending(commands)
    ensures CommandsAscending(Matched(commands, table, tidy))
    decreases |commands|
  {
    if |commands| > 0 {
      var n := |commands|;
      var init := commands[..n - 1];
      assert S.KeysAscending(init) by {
        assert forall i :: 0 <= i < |init| ==> init[i] == commands[i];
      }
      MatchedAscending(init, table, tidy);
      var ms := Matched(init, table, tidy);
      var last := commands[n - 1];
      match Collect(last.0, last.1, table, tidy) {
        case None =>
          assert Matched(commands, table, tidy) == ms;
        case Some(m) =>
          assert Matched(commands, table, tidy) == ms + [m];
          forall i | 0 <= i < |ms|
            ensures S.StrLess(ms[i].command, m.command)
          {
            MatchedExactly(init, table, tidy, ms[i]);
            var j :| 0 <= j < |init| && Collect(init[j].0, init[j].1, table, tidy) == Some(ms[i]);
            assert init[j] == commands[j];
          }
          var all := ms + [m];
          forall i, j | 0 <= i < j < |all|
            ensures S.StrLess(all[i].command, all[j].command)
          {
            if j < |ms| {
              assert all[i] == ms[i] && all[j] == ms[j];
            } else {
              assert all[i] == ms[i] && all[j] == m;
            }
          }
      }
    }
  }

  /** A group keeps the order of the matches it was taken from. */
  lemma {:induction false} OfCategoryAscending(ms: seq<ConfigInstruction>, c: seq<string>)
    requires CommandsAscending(ms)
    ensures CommandsAscending(OfCategory(ms, c))
    decreases |ms|
  {
    if |ms| > 0 {
      var n := |ms|;
      var init := ms[..n - 1];
      assert CommandsAscending(init) by {
        assert forall i :: 0 <= i < |init| ==> init[i] == ms[i];
      }
      OfCategoryAscending(init, c);
      var g := OfCategory(init, c);
      if ms[n - 1].category == c {
        var all := g + [ms[n - 1]];
        forall i, j | 0 <= i < j < |all|
          ensures S.StrLess(all[i].command, all[j].command)
        {
          if j < |g| {
            assert all[i] == g[i] && all[j] == g[j];
          } else {
            assert all[i] == g[i] && all[j] == ms[n - 1];
            OfCategoryMembers(init, c, g[i]);
            var k :| 0 <= k < |init| && init[k] == g[i];
            assert ms[k] == g[i];
          }
        }
      }
    }
  }

  /** Every group `run` builds lists its commands in ascending key order, each once. */
  lemma GroupsAscending(catalog: S.Catalog, config: TableLike, tidy: string -> string, c: seq<string>)
    requires CategoryTable(config).Some? && WellFormedTable(CategoryTable(config).value)
    requires S.KeysAscending(catalog.scriptCommands)
    ensures CommandsAscending(OfCategory(Matched(catalog.scriptCommands, CategoryTable(config).value, tidy), c))
  {
    MatchedAscending(catalog.scriptCommands, CategoryTable(config).value, tidy);
    OfCategoryAscending(Matched(catalog.scriptCommands, CategoryTable(config).value, tidy), c);
  }

  /** The current item is not restored after a visit, so the second table of an array of tables
      is pushed under the last key seen inside the first one: with `[[a]] name = "n"` followed
      by `[[a]] instructions = ["y"]`, command `y` is recorded under `name`, not under `a`.
      The model keeps this behaviour rather than correcting it. Through tables and inline tables
      the recorded category is the path of keys (`CollectPath`); a stale name can appear only for
      the second and later element of an array or array of tables. It is not recorded as a
      defect because nothing in the code says which name such an element should be filed under
      (the array's key, or none, would both be defensible). */
  lemma SecondTableOfArrayUsesStaleName(info: S.Command, tidy: string -> string)
    ensures var first := TableLike([Entry("name", Str("n"))]);
            var second := TableLike([Entry("instructions", Array([Str("y")]))]);
            var table := TableLike([Entry("a", ArrayOfTables([first, second]))]);
            WellFormedTable(table)
            && Collect("y", info, table, tidy) == Some(ConfigInstruction("y", ["name"], None, None, info))
  {
    var first := TableLike([Entry("name", Str("n"))]);
    var second := TableLike([Entry("instructions", Array([Str("y")]))]);
    var aot := ArrayOfTables([first, second]);
    var table := TableLike([Entry("a", aot)]);
    StaleNameWellFormed();
    var s0 := Start(info);
    var s1 := s0.(currentItem := "a");
    var afterFirst := TableLikeWalk("y", tidy, s1, first);
    FirstTableLeavesName(info, tidy);
    var afterSecond := TableLikeWalk("y", tidy, afterFirst, second);
    SecondTableMatchesUnderName(info, tidy);
    assert TablesWalk("y", tidy, s1, aot, 0) == s1;
    assert TablesWalk("y", tidy, s1, aot, 1) == afterFirst;
    assert ItemWalk("y", tidy, s1, aot) == afterSecond;
    assert EntriesWalk("y", tidy, s0, table, 0) == s0;
  }

  lemma StaleNameWellFormed()
    ensures WellFormedTable(TableLike([Entry("a", ArrayOfTables([TableLike([Entry("name", Str("n"))]),
                                                               TableLike([Entry("instructions", Array([Str("y")]))])]))]))
  {
    var first := TableLike([Entry("name", Str("n"))]);
    var second := TableLike([Entry("instructions", Array([Str("y")]))]);
    var aot := ArrayOfTables([first, second]);
    assert WellFormedTable(first);
    assert WellFormedKv("instructions", Array([Str("y")]));
    assert WellFormedTable(second);
    assert WellFormedItem(aot);
  }

  /** Walking the first table pushes `a`, makes `name` the current item and pops `a` again. */
  lemma FirstTableLeavesName(info: S.Command, tidy: string -> string)
    ensures TableLikeWalk("y", tidy, Start(info).(currentItem := "a"), TableLike([Entry("name", Str("n"))]))
            == Collector(None, [], "name", Some(info))
  {
    var s1 := Start(info).(currentItem := "a");
    var first := TableLike([Entry("name", Str("n"))]);
    assert EntriesWalk("y", tidy, s1.(category := ["a"]), first, 0) == s1.(category := ["a"]);
    assert KvStep("y", tidy, s1.(category := ["a"]), "name", Str("n")) == Collector(None, ["a"], "name", Some(info));
  }

  /** Walking the second table pushes the stale `name`, and the bare string matches under it. */
  lemma SecondTableMatchesUnderName(info: S.Command, tidy: string -> string)
    ensures TableLikeWalk("y", tidy, Collector(None, [], "name", Some(info)),
                          TableLike([Entry("instructions", Array([Str("y")]))])).actual
            == Some(ConfigInstruction("y", ["name"], None, None, info))
  {
    var second := TableLike([Entry("instructions", Array([Str("y")]))]);
    var pushed := Collector(None, ["name"], "name", Some(info));
    assert [Str("y")][0] == Str("y");
    assert MentionsBare([Str("y")], "y");
    assert KvStep("y", tidy, pushed, "instructions", Array([Str("y")])).actual
           == Some(ConfigInstruction("y", ["name"], None, None, info));
    assert EntriesWalk("y", tidy, pushed, second, 0) == pushed;
  }
}
