# Stationeers wiki tooling: instruction collector, wiki boxes and catalog lookups

This project is a Dafny model of the core of a command-line tool that reads the game's
data catalog (the *Stationpedia*: pages, items, structures, recipes and script commands).
Three parts of the tool are modelled:

- **The `instructions` command** (`instructions.dfy`). For each script command in the
  catalog, in key order, a fresh `InstructionCollector` walks the
  `[instructions.category]` table of a TOML configuration.
  - The collector keeps a stack of the keys under which it entered each table. These are
    normally the enclosing table names; see `SecondTableOfArrayUsesStaleName` for the
    exception.
  - It stops at the first `instructions` array that mentions the command. A bare string
    entry is preferred over an inline table `{ op = ..., example = ..., note = ... }`.
  - The matches are grouped by their category path.
  - The TOML tree is a datatype. The collector is a class whose methods update its fields,
    and each method is proved against a pure walk function (`KvStep`, `ItemWalk`,
    `TableLikeWalk`, …).
- **The `wikibox` command** (`wikibox.dfy`). It picks one catalog page from a query: a
  prefab hash, or fuzzy hits with exact hits preferred. It then builds the page's
  `{{Itembox` and `{{Structurebox` MediaWiki templates.
  - A box is a sequence of lines. `Page::item` and `Page::structure` return those lines
    joined with line breaks: the first line is empty, and the closing `}}` has no line break
    after it. `run` prints each returned box with `println!("\n{}", ..)`, which adds one more
    line break before it and one after it.
  - The loops that build the boxes are methods proved against functions that describe the
    lines (`ItemLines`, `StructureLines`).
  - Lemmas state what the boxes contain: numbering, which fields occur, and exactly when.
- **The catalog lookups** (`stationpedia.dfy`): the first page with a given prefab name,
  key or prefab hash.
- **Shared helpers** (`text.dfy`): `Option`, `join`, integer display and
  `str::parse::<i64>`.

## Model

| member | source | states |
|---|---|---|
| Stationpedia.LookupPrefabNameFirstMatch | src/stationpedia.rs:144-146 | no page is found exactly when no page has the prefab name; otherwise the result is the earliest page that has it |
| Stationpedia.LookupKeyFirstMatch | src/stationpedia.rs:148-150 | no page is found exactly when no page has the key; otherwise the result is the earliest page that has it |
| Stationpedia.LookupHashFirstMatch | src/stationpedia.rs:152-154 | no page is found exactly when no page has the hash; otherwise the result is the earliest page that has it |
| Text.ParseDecimalRoundTrip | src/commands/wikibox.rs:208 | an `i64` printed in decimal parses back to the same number, so a printed prefab hash used as a query is read as that hash |
| Text.JoinStartsWithFirst | src/commands/wikibox.rs:189-190 | a `join` begins with its first part; there is no leading separator |
| Instructions.FirstOpTable | src/commands/instructions.rs:80-86 | finds nothing exactly when no array element is an inline table whose `op` is the command; otherwise finds the first such table |
| Instructions.ArrayMatch | src/commands/instructions.rs:66-100 | an `instructions` array matches exactly when it holds the command as a bare string or in an `op` inline table; a bare string gives no example and no note; otherwise the first `op` table's `example` and `note` are used, dedented and trimmed; the match records the command, the current category stack and the command's info |
| Instructions.KvStep | src/commands/instructions.rs:62-105 | visiting a key keeps the collector invariant (info is present exactly while there is no match; the stack holds non-empty names that are never `instructions`); it leaves the stack as it was; it changes nothing once a match exists; an `instructions` key never becomes the current item |
| Instructions.TableLikeWalk | src/commands/instructions.rs:106-114 | visiting a table pushes the current item (unless it is empty) and pops it afterwards, so the stack is restored; the invariant is kept |
| Instructions.Collect | src/commands/instructions.rs:18-28 | a fresh collector finds a match exactly when the category table mentions the command (`TableMentions`). A match is for that command and carries that command's info. Its category lists only non-empty names, none of them `instructions`. These are keys of visited entries, and need not be table names (see `SecondTableOfArrayUsesStaleName`) |
| Instructions.NestWalk | src/commands/instructions.rs:62-114 | take a non-empty current item and a chain of tables, each the only entry of the one before, ending in `instructions = [command]`. The walk records the stack, then the current item, then the chain's keys |
| Instructions.KvFinds | src/commands/instructions.rs:62-105 | visiting a key ends with a match exactly when there was one already or the key mentions the command: an `instructions` array holding it bare or as an `op`, or a value that mentions it further down |
| Instructions.ItemFinds | src/commands/instructions.rs:103-104 | visiting a value ends with a match exactly when there was one or the value mentions the command in an element, a table or a table of an array of tables |
| Instructions.TableFinds | src/commands/instructions.rs:106-114 | visiting a table ends with a match exactly when there was one or one of its entries mentions the command; the stack plays no part |
| Instructions.EntriesFinds | src/commands/instructions.rs:106-114 | visiting the first `n` entries ends with a match exactly when there was one or one of those entries mentions the command |
| Instructions.PathWalk | src/commands/instructions.rs:62-114 | take a table whose first mention is reached through tables and inline tables. The walk records the stack, the pushed current item and the keys leading to that mention, with empty keys pushing nothing |
| Instructions.CollectPath | src/commands/instructions.rs:18-28 | a fresh collector whose first mention is reached through tables and inline tables records the path of keys to it |
| Instructions.CollectNested | src/commands/instructions.rs:18-28 | a command listed as a bare string under `[instructions.category.k1. ... .kn]`, with each table holding only the next, is collected under the path `[k1, ..., kn]`, with no example and no note |
| Instructions.EntriesFirstMatchWins | src/commands/instructions.rs:63-65 | once an entry has produced a match, the later entries of the table change nothing |
| Instructions.MatchRecordsStack | src/commands/instructions.rs:66-99 | a matching `instructions` array records exactly the category stack in force, and takes the info |
| Instructions.InstructionCollector.constructor | src/commands/instructions.rs:20-26 | a new collector has no match, an empty stack, an empty current item and the command's info |
| Instructions.InstructionCollector.VisitTableLikeKv | src/commands/instructions.rs:62-105 | the collector's new fields are those `KvStep` gives; the stack is unchanged |
| Instructions.InstructionCollector.VisitItem | src/commands/instructions.rs:103-104 | the default visit of a value (elements of arrays and arrays of tables in order, tables through `VisitTableLike`) leaves the fields `ItemWalk` gives |
| Instructions.InstructionCollector.VisitTableLike | src/commands/instructions.rs:106-114 | the new fields are those `TableLikeWalk` gives; the stack is restored |
| Instructions.CollectOne | src/commands/instructions.rs:19-31 | one iteration of `run` leaves exactly the match that `Collect` describes |
| Instructions.Run | src/commands/instructions.rs:9-40 | with no script commands the output is empty, and the category table is never looked up. Otherwise the output's keys are exactly the categories of the matches, and each group lists the matches of its category in command order |
| Instructions.GroupStep | src/commands/instructions.rs:33-36 | `entry(..).or_default().push(..)` keeps the map equal to the grouping of the matches seen so far |
| Instructions.OfCategoryAbsent | src/commands/instructions.rs:33-36 | a category that no match carries has no entries |
| Instructions.MatchedExactly | src/commands/instructions.rs:18-37 | a match is in the output list exactly when some script command's collector produced it; commands without a match are skipped |
| Instructions.OfCategoryMembers | src/commands/instructions.rs:33-36 | a group holds exactly the matches of its category |
| Instructions.MatchedAscending | src/commands/instructions.rs:18 | the commands are visited in the `BTreeMap`'s ascending key order, so the matches are strictly ascending by command |
| Instructions.OfCategoryAscending | src/commands/instructions.rs:33-36 | taking one category's matches keeps them ascending |
| Instructions.GroupsAscending | src/commands/instructions.rs:16-37 | every group lists its commands in strictly ascending order, each at most once |
| Instructions.SecondTableOfArrayUsesStaleName | src/commands/instructions.rs:103-113 | the current item is not restored after a visit. So for `[[a]] name = "n"` followed by `[[a]] instructions = ["y"]`, command `y` is recorded under `name`, not under `a` |
| Wikibox.ItemBox | src/commands/wikibox.rs:116-196 | there is no box exactly when the page has no item; otherwise the box is `ItemLines`: the header, the stack size, two numbered lines per recipe, a constructs line when there are constructs, and `}}` |
| Wikibox.RecipesBox | src/commands/wikibox.rs:141-179 | the recipe loop yields the `recipe_machine` and `recipe_cost` lines of each recipe, numbered from 1 |
| Wikibox.RecipeCost | src/commands/wikibox.rs:143-166 | the ingredient loop yields the cost text: the positive reagents in order, each as quantity, unit and link, separated by `, ` |
| Wikibox.PositiveMembers | src/commands/wikibox.rs:144-148 | the cost lists exactly the reagents whose quantity is positive |
| Wikibox.CostTextShape | src/commands/wikibox.rs:143-166 | the cost text is empty exactly when no reagent is positive; otherwise it starts with the first positive reagent's text, with no separator before it |
| Wikibox.RecipeLinesNumbered | src/commands/wikibox.rs:141-179 | recipe `k` (from 0) is lines `2k` and `2k + 1`: its machine line and its cost line, both numbered `k + 1` |
| Wikibox.RecipeLinesAreRecipeFields | src/commands/wikibox.rs:176-177 | every recipe line starts with `recipe_machine` or `recipe_cost` and the number of its recipe |
| Wikibox.ConstructsLineIffConstructs | src/commands/wikibox.rs:181-193 | the item box has a `constructs` line exactly when the page constructs something |
| Wikibox.StructureBox | src/commands/wikibox.rs:20-114 | there is no box exactly when the page has no structure; otherwise the box is `StructureLines`: the header, the power line, the grid line, the lines of each build state in order (tool lines as `ToolBoxLines` reads them), and `}}`. It requires what the source unwraps or panics on: each lookup finds its page, and a tool exit has one entry. The first state lists at least one entry and no tool, and a later state without a tool lists at most one entry |
| Wikibox.BuildStatesBox | src/commands/wikibox.rs:54-110 | the build-state loop yields each state's lines, in order and numbered by position |
| Wikibox.StateBoxLines | src/commands/wikibox.rs:55-109 | one iteration yields the `decon_with_tool` line (numbered `count + 1`) when there is a tool exit, followed by the tool lines |
| Wikibox.ToolBoxLines | src/commands/wikibox.rs:66-109 | the tool lines. For the first state: `placed_with_item` and `item_rec1`, naming the first entry. Otherwise, when the sorted copy holds a tool: `const_with_tool`, then `const_with_item` if there is a second entry, naming the first and second entries of the unsorted list (see Findings). Otherwise: one `const_with_item` line for the only entry, if any |
| Wikibox.StateLinesNumbered | src/commands/wikibox.rs:55-108 | every line of state `c` is a `decon_with_tool` field numbered `c + 1`; or a `placed_with_item` or `item_rec1` line, and then `c` is 0; or a `const_with_tool` or `const_with_item` field numbered `c`, and then `c` is not 0 |
| Wikibox.BuildStatesLinesNumbered | src/commands/wikibox.rs:54-110 | every build-state line belongs to one of the states and carries its number |
| Wikibox.BuildStatesHaveNoPowerOrGrid | src/commands/wikibox.rs:54-110 | no build-state line is a power or a grid line |
| Wikibox.PowerUsageLineIffPowerDraw | src/commands/wikibox.rs:43-45 | the structure box has a `power_usage` line exactly when the page has a base power draw |
| Wikibox.GridLineOnce | src/commands/wikibox.rs:47-52 | the structure box has exactly one `placed_on_grid` line, right after the header and the power line, and it reads `Small Grid` exactly for a small-grid structure |
| Wikibox.SortByIsTool | src/commands/wikibox.rs:68-69 | the sorted copy is a permutation of the build state's tools |
| Wikibox.SortByIsToolOrders | src/commands/wikibox.rs:68-70 | the stable ascending sort puts no tool before an item, and the copy holds a tool exactly when the original does, so `has_tool` is the same on either |
| Wikibox.ToolsFirst | src/commands/wikibox.rs:67 | the corrected half of the Findings row: the order the comment asks for, tools first, is a permutation of the build state's tools |
| Wikibox.ToolsFirstSorts | src/commands/wikibox.rs:67 | the corrected half of the Findings row: with tools first, no tool follows an item; the list holds a tool exactly when the original does, and then its first entry is a tool |
| Wikibox.BoxToolLineNamesFirstListed | src/commands/wikibox.rs:68-89 | as written, the structure box's `const_with_tool` line for a build state after the first that holds a tool names the first entry of the state's unsorted list, whether or not that entry is a tool |
| Wikibox.BoxNamesPlateAsTool | src/commands/wikibox.rs:68-89 | the Findings example in the box: build state 1 listing a steel plate and then a wrench gets `const_with_tool1` naming the plate |
| Wikibox.BuildStatesPrefix | src/commands/wikibox.rs:54-110 | the lines of the first `m` build states begin the lines of all of them |
| Wikibox.WithToolLinesNameTheTool | src/commands/wikibox.rs:81-97 | the corrected half of the Findings row: with the list sorted tools first, the `const_with_tool` line names an entry that is a tool, and the `const_with_item` line names another entry of the list |
| Wikibox.WithToolLinesAsWrittenNamesItem | src/commands/wikibox.rs:67-97 | as written, a plate listed before a wrench makes `const_with_tool1` name the plate; sorted tools first, it names the wrench |
| Wikibox.HitsExactly | src/commands/wikibox.rs:219-226 | the hits are exactly the pages whose key, title or prefab name the fuzzy matcher accepts |
| Wikibox.FirstExact | src/commands/wikibox.rs:231-234 | finds nothing exactly when no hit matches the query exactly; otherwise finds the first hit that does |
| Wikibox.Choose | src/commands/wikibox.rs:206-246 | a query that parses as an `i64` chooses the first page with that prefab hash (the one `lookup_hash` returns). Otherwise: there are no matches exactly when there are no hits. When some hit matches exactly, the first such hit is chosen; a chosen page is always a hit that is exact or the only hit. An ambiguous answer lists all hits, more than one, none exact |
| Wikibox.Select | src/commands/wikibox.rs:206-246 | the loop collecting the hits, followed by the decision, gives the `Choose` result |

## Left out

- `main.rs`, `commands.rs` and `enums.rs` are not part of this model, and neither are
  reading the catalog and the configuration or printing (`println!`, `eprintln!`, the
  `verbose` dump). `Instructions::run` returns its grouping instead of printing it, and
  `Wikibox::run` returns its `Selection` instead of printing the boxes.
- The fuzzy scorer (`text_match` over the nucleo matcher, with a score above 100) is the
  parameter `fuzzy(text, query)`.
- `textwrap::dedent(..).trim()` on an example or a note is the parameter `tidy`.
- The boxes' headers are written as their lines. A title or prefab name that contains a
  line break would change the header's dedent, and that is not modelled.
- Recipe quantities and an item's `max_quantity` (printed in the `stacks` line) are `f64`
  in the catalog and integers here. A fractional quantity and its printed form are not
  modelled.
- Instructions.Collect: the recorded category is stated as the path of keys only when the
  first mention is reached through tables and inline tables (`CollectPath`). Through an array
  or an array of tables, the name pushed for a later element can be a stale key
  (`SecondTableOfArrayUsesStaleName`), and no general path is stated for that case.
- The source's panics and `unwrap`s are preconditions: `ItemRenderable`,
  `StructureRenderable`, `WellFormedTable`, a category table that exists, and a hash query
  that finds a page. `run` looks up the category table inside its loop, so `Run` asks for
  it only when there are script commands.
- Instructions.InstructionCollector.VisitTableLikeKv: the precondition `WellFormedTable`
  asks that every `instructions` key the walk can reach holds an array. The source only
  unwraps such a key while there is no match yet, so it demands a little less.
- The `toml_edit` `Item::None` variant is not modelled, because parsing never produces it.
  The other scalars are one `Scalar` case.
- The `Hit` struct of `wikibox.rs` is not modelled, because no modelled code uses it.
- The structure box follows the code as written, tool lines included. The corrected reading
  of the tool lines (`WithToolLines`) is stated and proved only for the Findings row.
- Item and structure boxes are modelled separately. `run` prints both boxes for the chosen
  page, one after the other.

## Findings

| source | as written | input that shows it | evidently intended | confidence | as-written member | corrected member |
|---|---|---|---|---|---|---|
| src/commands/wikibox.rs:67-97 | the build state's tools are sorted into a copy that is used only to decide `has_tool`; the `const_with_tool` line is then taken from the first entry of the unsorted list (and the stable ascending sort by `is_tool` would put the items first anyway) | a build state after the first whose tools are a steel plate (`is_tool` false) followed by a wrench (`is_tool` true): the box gets `const_with_tool1 = [[Steel Plate]]` | the `const_with_tool` line names the tool, as the comment above the sort says | not executed | Wikibox.WithToolLinesAsWritten, Wikibox.WithToolLinesAsWrittenNamesItem, Wikibox.BoxNamesPlateAsTool | Wikibox.WithToolLines, Wikibox.WithToolLinesNameTheTool, Wikibox.ToolsFirstSorts |
