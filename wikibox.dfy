/** The `wikibox` command: pick one catalog page from a user query, and build its item box and
    its structure box as MediaWiki template text. A box is a sequence of lines; the text the
    source prints is those lines joined with line breaks (the first line is empty, and the last,
    `}}`, has no line break after it). */
module Wikibox {
  import opened Text
  import opened Stationpedia

  // ---------------------------------------------------------------------------------------
  // Item box

  /** Ingredients whose quantity is a mass in grams; anything else is counted in units. */
  const Metals: set<string> := {
    "Iron", "Gold", "Carbon", "Uranium", "Copper", "Steel", "Hydrocarbon", "Silver", "Electrum",
    "Invar", "Constantan", "Solder", "Silicon", "Waspaloy", "Stellite", "Inconel", "Hastelloy",
    "Astroloy", "Cobalt"
  }

  /** The start of a numbered template field, `| <name><n> = `. */
  function FieldPrefix(name: string, n: int): string {
    "| " + name + Decimal(n) + " = "
  }

  function Unit(name: string): string {
    if name in Metals then "g" else " x"
  }

  /** The name shown for an ingredient: the title of the page with that prefab name, or the
      ingredient itself when no page has it. */
  function DisplayName(pages: seq<Page>, ingredient: string): string {
    match LookupPrefabName(pages, ingredient)
    case Some(p) => p.title
    case None => ingredient
  }

  function IngredientText(pages: seq<Page>, reagent: (string, int)): string {
    var name := DisplayName(pages, reagent.0);
    Decimal(reagent.1) + Unit(name) + " [[" + name + "]]"
  }

  /** The reagents with a positive quantity, in order. */
  function Positive(reagents: seq<(string, int)>): seq<(string, int)>
    decreases |reagents|
  {
    if |reagents| == 0 then []
    else
      var last := reagents[|reagents| - 1];
      Positive(reagents[..|reagents| - 1]) + (if last.1 > 0 then [last] else [])
  }

  /** The text of each reagent, in order. */
  function IngredientTexts(pages: seq<Page>, reagents: seq<(string, int)>): (r: seq<string>)
    ensures |r| == |reagents|
    ensures forall i :: 0 <= i < |r| ==> r[i] == IngredientText(pages, reagents[i])
  {
    seq(|reagents|, i requires 0 <= i < |reagents| => IngredientText(pages, reagents[i]))
  }

  /** The `recipe_cost` text: the positive reagents, each as quantity, unit and link, joined
      with `, `. */
  function CostText(pages: seq<Page>, reagents: seq<(string, int)>): string {
    Join(IngredientTexts(pages, Positive(reagents)), ", ")
  }

  predicate RecipeRenderable(pages: seq<Page>, recipe: Recipe) {
    LookupPrefabName(pages, recipe.creatorPrefabName).Some?
  }

  function CreatorTitle(pages: seq<Page>, recipe: Recipe): string
    requires RecipeRenderable(pages, recipe)
  {
    LookupPrefabName(pages, recipe.creatorPrefabName).value.title
  }

  function TierSuffix(recipe: Recipe): string {
    if recipe.tierName == "TierTwo" then " (Tier Two)" else ""
  }

  /** The two lines of the recipes, numbered `first`, `first + 1`, ... in order. */
  function RecipeLines(pages: seq<Page>, recipes: seq<Recipe>, first: int): (r: seq<string>)
    requires forall i :: 0 <= i < |recipes| ==> RecipeRenderable(pages, recipes[i])
    ensures |r| == 2 * |recipes|
    decreases |recipes|
  {
    if |recipes| == 0 then []
    else
      var n := |recipes| - 1;
      var recipe := recipes[n];
      RecipeLines(pages, recipes[..n], first) + [MachineLine(pages, recipe, first + n), CostLine(pages, recipe, first + n)]
  }

  function MachineLine(pages: seq<Page>, recipe: Recipe, n: int): string
    requires RecipeRenderable(pages, recipe)
  {
    FieldPrefix("recipe_machine", n) + CreatorTitle(pages, recipe) + TierSuffix(recipe)
  }

  function CostLine(pages: seq<Page>, recipe: Recipe, n: int): string {
    FieldPrefix("recipe_cost", n) + CostText(pages, recipe.reagents)
  }

  lemma RecipeLinesSnoc(pages: seq<Page>, recipes: seq<Recipe>, k: nat)
    requires k < |recipes| && forall i :: 0 <= i < |recipes| ==> RecipeRenderable(pages, recipes[i])
    ensures RecipeLines(pages, recipes[..k + 1], 1)
            == RecipeLines(pages, recipes[..k], 1) + [MachineLine(pages, recipes[k], k + 1), CostLine(pages, recipes[k], k + 1)]
  {
    assert recipes[..k + 1][..k] == recipes[..k];
  }

  /** The titles of the constructed pages, each as a wiki link. */
  function ConstructLinks(pages: seq<Page>, constructs: seq<Constructs>): (r: seq<string>)
    requires forall i :: 0 <= i < |constructs| ==> LookupKey(pages, constructs[i].pageLink).Some?
    ensures |r| == |constructs|
    decreases |constructs|
  {
    if |constructs| == 0 then []
    else
      var n := |constructs| - 1;
      ConstructLinks(pages, constructs[..n]) + ["[[" + LookupKey(pages, constructs[n].pageLink).value.title + "]]"]
  }

  /** The catalog lookups `Page::item` unwraps succeed. */
  predicate ItemRenderable(pages: seq<Page>, page: Page)
    requires page.item.Some?
  {
    && (forall i :: 0 <= i < |page.item.value.recipes| ==> RecipeRenderable(pages, page.item.value.recipes[i]))
    && (forall i :: 0 <= i < |page.constructs| ==> LookupKey(pages, page.constructs[i].pageLink).Some?)
  }

  function ItemHeader(page: Page): seq<string> {
    ["", "{{Itembox",
     "| name = " + page.title,
     "| image = [[File:" + page.prefabName + ".png]]",
     "| prefabhash = " + Decimal(page.prefabHash),
     "| prefabname = " + page.prefabName]
  }

  function StacksLines(item: Item): seq<string> {
    match item.maxQuantity
    case Some(q) => ["| stacks = " + Decimal(q)]
    case None => []
  }

  function ConstructsLine(pages: seq<Page>, constructs: seq<Constructs>): string
    requires forall i :: 0 <= i < |constructs| ==> LookupKey(pages, constructs[i].pageLink).Some?
  {
    "| constructs = " + Join(ConstructLinks(pages, constructs), ", ")
  }

  function ConstructsLines(pages: seq<Page>, constructs: seq<Constructs>): seq<string>
    requires forall i :: 0 <= i < |constructs| ==> LookupKey(pages, constructs[i].pageLink).Some?
  {
    if |constructs| == 0 then [] else [ConstructsLine(pages, constructs)]
  }

  /** The lines of a page's item box. */
  function ItemLines(pages: seq<Page>, page: Page): seq<string>
    requires page.item.Some? && ItemRenderable(pages, page)
  {
    ItemHeader(page)
      + StacksLines(page.item.value)
      + RecipeLines(pages, page.item.value.recipes, 1)
      + ConstructsLines(pages, page.constructs)
      + ["}}"]
  }

  /** `Page::item`: no box for a page without an item; otherwise the header, the stack size,
      two numbered lines per recipe, the constructs line and the closing `}}`. */
  method ItemBox(pedia: Catalog, page: Page) returns (r: Option<seq<string>>)
    requires page.item.Some? ==> ItemRenderable(pedia.pages, page)
    ensures r.None? <==> page.item.None?
    ensures r.Some? ==> r.value == ItemLines(pedia.pages, page)
  {
    if page.item.None? {
      return None;
    }
    var item := page.item.value;
    var pages := pedia.pages;
    var out := ItemHeader(page);
    if item.maxQuantity.Some? {
      out := out + ["| stacks = " + Decimal(item.maxQuantity.value)];
    }
    assert out == ItemHeader(page) + StacksLines(item);
    var lines := RecipesBox(pages, item.recipes);
    out := out + lines;
    if |page.constructs| > 0 {
      out := out + [ConstructsLine(pages, page.constructs)];
    }
    assert out == ItemHeader(page) + StacksLines(item) + lines + ConstructsLines(pages, page.constructs);
    out := out + ["}}"];
    r := Some(out);
  }

  /** The recipe loop of `Page::item`: two lines per recipe, numbered from 1. */
  method RecipesBox(pages: seq<Page>, recipes: seq<Recipe>) returns (out: seq<string>)
    requires forall i :: 0 <= i < |recipes| ==> RecipeRenderable(pages, recipes[i])
    ensures out == RecipeLines(pages, recipes, 1)
  {
    out := [];
    var count := 1;
    for k := 0 to |recipes|
      invariant count == k + 1
      invariant out == RecipeLines(pages, recipes[..k], 1)
    {
      var recipe := recipes[k];
      var ingredients := RecipeCost(pages, recipe.reagents);
      var creator := LookupPrefabName(pages, recipe.creatorPrefabName).value.title;
      var tier := if recipe.tierName == "TierTwo" then " (Tier Two)" else "";
      var machine := FieldPrefix("recipe_machine", count) + creator + tier;
      var cost := FieldPrefix("recipe_cost", count) + ingredients;
      assert machine == MachineLine(pages, recipe, k + 1);
      assert cost == CostLine(pages, recipe, k + 1);
      RecipeLinesSnoc(pages, recipes, k);
      out := out + [machine, cost];
      count := count + 1;
    }
    assert recipes[..|recipes|] == recipes;
  }

  /** The loop of `Page::item` that builds one recipe's cost text. */
  method RecipeCost(pages: seq<Page>, reagents: seq<(string, int)>) returns (ingredients: string)
    ensures ingredients == CostText(pages, reagents)
  {
    ingredients := "";
    var i := 0;
    for j := 0 to |reagents|
      invariant i == |Positive(reagents[..j])|
      invariant ingredients == CostText(pages, reagents[..j])
    {
      var ingredient := reagents[j].0;
      var quantity := reagents[j].1;
      PositiveSnoc(reagents, j);
      if quantity > 0 {
        var name := DisplayName(pages, ingredient);
        if i > 0 {
          ingredients := ingredients + ", ";
        }
        var amount := if name in Metals then "g" else " x";
        ingredients := ingredients + (Decimal(quantity) + amount + " [[" + name + "]]");
        CostTextSnoc(pages, reagents[..j], reagents[j]);
        i := i + 1;
      } else {
        assert Positive(reagents[..j + 1]) == Positive(reagents[..j]);
      }
    }
    assert reagents[..|reagents|] == reagents;
  }

  lemma PositiveSnoc(reagents: seq<(string, int)>, j: nat)
    requires j < |reagents|
    ensures Positive(reagents[..j + 1]) == Positive(reagents[..j]) + (if reagents[j].1 > 0 then [reagents[j]] else [])
  {
    assert reagents[..j + 1][..j] == reagents[..j];
  }

  /** Adding a positive reagent appends its text, after a separator if one came before. */
  lemma CostTextSnoc(pages: seq<Page>, reagents: seq<(string, int)>, reagent: (string, int))
    requires reagent.1 > 0
    ensures CostText(pages, reagents + [reagent])
            == (if |Positive(reagents)| == 0 then "" else CostText(pages, reagents) + ", ") + IngredientText(pages, reagent)
  {
    assert (reagents + [reagent])[..|reagents|] == reagents;
    assert Positive(reagents + [reagent]) == Positive(reagents) + [reagent];
    var texts := IngredientTexts(pages, Positive(reagents));
    IngredientTextsSnoc(pages, Positive(reagents), reagent);
    JoinSnoc(texts, ", ", IngredientText(pages, reagent));
  }

  lemma IngredientTextsSnoc(pages: seq<Page>, reagents: seq<(string, int)>, reagent: (string, int))
    ensures IngredientTexts(pages, reagents + [reagent]) == IngredientTexts(pages, reagents) + [IngredientText(pages, reagent)]
  {
    var whole := reagents + [reagent];
    assert forall i :: 0 <= i < |reagents| ==> whole[i] == reagents[i];
  }

  /** A line that begins with `p` cannot begin with a `q` that differs from `p` at position `i`. */
  lemma Clash(line: string, p: string, q: string, i: nat)
    requires StartsWith(line, p) && i < |p| && i < |q| && p[i] != q[i]
    ensures !StartsWith(line, q)
  {
    assert line[..|p|][i] == line[i];
    assert |q| <= |line| ==> line[..|q|][i] == line[i];
  }

  /** A field prefix begins with `| ` and then the field name. */
  lemma FieldPrefixHead(name: string, n: int)
    requires |name| > 0
    ensures |FieldPrefix(name, n)| > 2 && FieldPrefix(name, n)[2] == name[0]
  {
  }

  /** A line of one numbered field is not a line of a field whose name starts differently. */
  lemma FieldLineIsNot(line: string, name: string, n: int, q: string)
    requires StartsWith(line, FieldPrefix(name, n)) && |name| > 0 && |q| > 2 && q[2] != name[0]
    ensures !StartsWith(line, q)
  {
    FieldPrefixHead(name, n);
    Clash(line, FieldPrefix(name, n), q, 2);
  }

  lemma AppendAssoc<T>(a: seq<T>, b: seq<T>, c: seq<T>)
    ensures a + b + c == a + (b + c)
  {
  }

  lemma PrefixThen(p: string, rest: string)
    ensures StartsWith(p + rest, p)
  {
    assert (p + rest)[..|p|] == p;
  }

  lemma PrefixKept(line: string, p: string, rest: string)
    requires StartsWith(line, p)
    ensures StartsWith(line + rest, p)
  {
    assert (line + rest)[..|p|] == line[..|p|];
  }

  /** Recipe `k` (from 0) is rendered as lines `2k` and `2k + 1`, both numbered `k + 1`. */
  lemma {:induction false} RecipeLinesNumbered(pages: seq<Page>, recipes: seq<Recipe>, k: nat)
    requires forall i :: 0 <= i < |recipes| ==> RecipeRenderable(pages, recipes[i])
    requires k < |recipes|
    ensures RecipeLines(pages, recipes, 1)[2 * k] == MachineLine(pages, recipes[k], k + 1)
    ensures RecipeLines(pages, recipes, 1)[2 * k + 1] == CostLine(pages, recipes[k], k + 1)
    decreases |recipes|
  {
    var n := |recipes| - 1;
    var init := RecipeLines(pages, recipes[..n], 1);
    var machine, cost := MachineLine(pages, recipes[n], 1 + n), CostLine(pages, recipes[n], 1 + n);
    assert RecipeLines(pages, recipes, 1) == init + [machine, cost];
    IndexPair(init, machine, cost, 2 * k);
    IndexPair(init, machine, cost, 2 * k + 1);
    if k < n {
      RecipeLinesNumbered(pages, recipes[..n], k);
      assert recipes[..n][k] == recipes[k];
    }
  }

  lemma IndexPair<T>(init: seq<T>, a: T, b: T, i: nat)
    requires i < |init| + 2
    ensures (init + [a, b])[i] == if i < |init| then init[i] else if i == |init| then a else b
  {
  }

  /** Every recipe line is a `recipe_machine` or a `recipe_cost` field. */
  lemma RecipeLinesAreRecipeFields(pages: seq<Page>, recipes: seq<Recipe>, j: nat)
    requires forall i :: 0 <= i < |recipes| ==> RecipeRenderable(pages, recipes[i])
    requires j < |RecipeLines(pages, recipes, 1)|
    ensures StartsWith(RecipeLines(pages, recipes, 1)[j], FieldPrefix("recipe_machine", j / 2 + 1))
            || StartsWith(RecipeLines(pages, recipes, 1)[j], FieldPrefix("recipe_cost", j / 2 + 1))
  {
    var k := j / 2;
    if j % 2 == 0 {
      assert j == 2 * k;
      MachineLineAt(pages, recipes, k);
    } else {
      assert j == 2 * k + 1;
      CostLineAt(pages, recipes, k);
    }
  }

  lemma MachineLineAt(pages: seq<Page>, recipes: seq<Recipe>, k: nat)
    requires forall i :: 0 <= i < |recipes| ==> RecipeRenderable(pages, recipes[i])
    requires k < |recipes|
    ensures StartsWith(RecipeLines(pages, recipes, 1)[2 * k], FieldPrefix("recipe_machine", k + 1))
  {
    RecipeLinesNumbered(pages, recipes, k);
    MachineLineField(pages, recipes[k], k + 1);
  }

  lemma CostLineAt(pages: seq<Page>, recipes: seq<Recipe>, k: nat)
    requires forall i :: 0 <= i < |recipes| ==> RecipeRenderable(pages, recipes[i])
    requires k < |recipes|
    ensures StartsWith(RecipeLines(pages, recipes, 1)[2 * k + 1], FieldPrefix("recipe_cost", k + 1))
  {
    RecipeLinesNumbered(pages, recipes, k);
    CostLineField(pages, recipes[k], k + 1);
  }

  lemma MachineLineField(pages: seq<Page>, recipe: Recipe, n: int)
    requires RecipeRenderable(pages, recipe)
    ensures StartsWith(MachineLine(pages, recipe, n), FieldPrefix("recipe_machine", n))
  {
    PrefixThen(FieldPrefix("recipe_machine", n), CreatorTitle(pages, recipe));
    PrefixKept(FieldPrefix("recipe_machine", n) + CreatorTitle(pages, recipe), FieldPrefix("recipe_machine", n), TierSuffix(recipe));
  }

  lemma CostLineField(pages: seq<Page>, recipe: Recipe, n: int)
    ensures StartsWith(CostLine(pages, recipe, n), FieldPrefix("recipe_cost", n))
  {
    PrefixThen(FieldPrefix("recipe_cost", n), CostText(pages, recipe.reagents));
  }

  /** The cost lists exactly the reagents with a positive quantity. */
  lemma {:induction false} PositiveMembers(reagents: seq<(string, int)>)
    ensures forall r :: r in Positive(reagents) <==> r in reagents && r.1 > 0
    decreases |reagents|
  {
    if |reagents| > 0 {
      var init := reagents[..|reagents| - 1];
      PositiveMembers(init);
      assert reagents == init + [reagents[|reagents| - 1]];
    }
  }

  /** The cost text is empty exactly when no reagent has a positive quantity; otherwise it
      begins with the first positive reagent, with no separator in front. */
  lemma CostTextShape(pages: seq<Page>, reagents: seq<(string, int)>)
    ensures CostText(pages, reagents) == "" <==> forall i :: 0 <= i < |reagents| ==> reagents[i].1 <= 0
    ensures |Positive(reagents)| > 0 ==>
              StartsWith(CostText(pages, reagents), IngredientText(pages, Positive(reagents)[0]))
  {
    PositiveMembers(reagents);
    var texts := IngredientTexts(pages, Positive(reagents));
    if |texts| > 0 {
      JoinStartsWithFirst(texts, ", ");
      assert |texts[0]| > 0;
      assert Positive(reagents)[0] in Positive(reagents);
    } else {
      forall i | 0 <= i < |reagents|
        ensures reagents[i].1 <= 0
      {
        assert reagents[i] !in Positive(reagents);
      }
    }
  }

  /** No header or stack-size line of the item box is a `constructs` line. */
  lemma ItemHeadHasNoConstructs(page: Page, item: Item)
    ensures forall l :: l in ItemHeader(page) + StacksLines(item) ==> !StartsWith(l, "| constructs = ")
  {
    var key := "| constructs = ";
    PrefixThen("| name = ", page.title);
    Clash("| name = " + page.title, "| name = ", key, 2);
    PrefixThen("| image = ", "[[File:" + page.prefabName + ".png]]");
    Clash("| image = " + ("[[File:" + page.prefabName + ".png]]"), "| image = ", key, 2);
    assert "| image = [[File:" + page.prefabName + ".png]]" == "| image = " + ("[[File:" + page.prefabName + ".png]]");
    PrefixThen("| prefabhash = ", Decimal(page.prefabHash));
    Clash("| prefabhash = " + Decimal(page.prefabHash), "| prefabhash = ", key, 2);
    PrefixThen("| prefabname = ", page.prefabName);
    Clash("| prefabname = " + page.prefabName, "| prefabname = ", key, 2);
    assert "{{Itembox"[0] != key[0];
    if item.maxQuantity.Some? {
      PrefixThen("| stacks = ", Decimal(item.maxQuantity.value));
      Clash("| stacks = " + Decimal(item.maxQuantity.value), "| stacks = ", key, 2);
    }
  }

  /** No recipe line is a `constructs` line. */
  lemma RecipeLinesHaveNoConstructs(pages: seq<Page>, recipes: seq<Recipe>)
    requires forall i :: 0 <= i < |recipes| ==> RecipeRenderable(pages, recipes[i])
    ensures forall l :: l in RecipeLines(pages, recipes, 1) ==> !StartsWith(l, "| constructs = ")
  {
    var lines := RecipeLines(pages, recipes, 1);
    forall j | 0 <= j < |lines|
      ensures RecipeField(lines[j], j)
    {
      RecipeLinesAreRecipeFields(pages, recipes, j);
    }
    RecipeFieldsHaveNoConstructs(lines);
  }

  predicate RecipeField(line: string, j: nat) {
    StartsWith(line, FieldPrefix("recipe_machine", j / 2 + 1)) || StartsWith(line, FieldPrefix("recipe_cost", j / 2 + 1))
  }

  lemma RecipeFieldsHaveNoConstructs(lines: seq<string>)
    requires forall j :: 0 <= j < |lines| ==> RecipeField(lines[j], j)
    ensures forall l :: l in lines ==> !StartsWith(l, "| constructs = ")
  {
    forall j | 0 <= j < |lines|
      ensures !StartsWith(lines[j], "| constructs = ")
    {
      if StartsWith(lines[j], FieldPrefix("recipe_machine", j / 2 + 1)) {
        FieldLineIsNot(lines[j], "recipe_machine", j / 2 + 1, "| constructs = ");
      } else {
        FieldLineIsNot(lines[j], "recipe_cost", j / 2 + 1, "| constructs = ");
      }
    }
  }

  /** The item box has a `constructs` line exactly when the page constructs something. */
  lemma ConstructsLineIffConstructs(pages: seq<Page>, page: Page)
    requires page.item.Some? && ItemRenderable(pages, page)
    ensures (exists l :: l in ItemLines(pages, page) && StartsWith(l, "| constructs = ")) <==> |page.constructs| > 0
  {
    var item := page.item.value;
    var key := "| constructs = ";
    ItemHeadHasNoConstructs(page, item);
    RecipeLinesHaveNoConstructs(pages, item.recipes);
    if |page.constructs| > 0 {
      PrefixThen(key, Join(ConstructLinks(pages, page.constructs), ", "));
      assert ConstructsLine(pages, page.constructs) in ItemLines(pages, page);
    } else {
      assert "}}"[0] != key[0];
    }
  }

  // ---------------------------------------------------------------------------------------
  // Structure box

  predicate AnyTool(tools: seq<Tool>) {
    exists i :: 0 <= i < |tools| && tools[i].isTool
  }

  /** The entries whose `isTool` flag is `flag`, in order. */
  function ToolsWhere(tools: seq<Tool>, flag: bool): seq<Tool>
    decreases |tools|
  {
    if |tools| == 0 then []
    else
      var last := tools[|tools| - 1];
      ToolsWhere(tools[..|tools| - 1], flag) + (if last.isTool == flag then [last] else [])
  }

  /** `tools.sort_by_key(|t| t.is_tool)`: a stable sort in ascending order of the flag, which
      puts the items (`false`) before the tools (`true`). */
  function SortByIsTool(tools: seq<Tool>): (r: seq<Tool>)
    ensures multiset(r) == multiset(tools) && |r| == |tools|
  {
    ToolsWhereSplit(tools);
    var r := ToolsWhere(tools, false) + ToolsWhere(tools, true);
    assert |multiset(r)| == |r| && |multiset(tools)| == |tools|;
    r
  }

  /** The order the comment above the sort asks for: a stable sort that puts the tools before
      the items. */
  function ToolsFirst(tools: seq<Tool>): (r: seq<Tool>)
    ensures multiset(r) == multiset(tools) && |r| == |tools|
  {
    ToolsWhereSplit(tools);
    var r := ToolsWhere(tools, true) + ToolsWhere(tools, false);
    assert |multiset(r)| == |r| && |multiset(tools)| == |tools|;
    r
  }

  function Title(pages: seq<Page>, prefabName: string): string
    requires LookupPrefabName(pages, prefabName).Some?
  {
    LookupPrefabName(pages, prefabName).value.title
  }

  predicate Found(pages: seq<Page>, prefabName: string) {
    LookupPrefabName(pages, prefabName).Some?
  }

  /** The build state numbered `count` (from 0) meets the conditions under which
      `Page::structure` neither panics nor unwraps a failed lookup. */
  predicate StateRenderable(pages: seq<Page>, count: nat, state: BuildState) {
    && (state.toolExit.Some? ==> |state.toolExit.value| == 1 && Found(pages, state.toolExit.value[0].prefabName))
    && (state.tool.Some? ==>
          var tool := state.tool.value;
          && (count == 0 ==> !AnyTool(tool) && |tool| > 0 && Found(pages, tool[0].prefabName))
          && (count > 0 && AnyTool(tool) ==> WithToolRenderable(pages, tool))
          && (count > 0 && !AnyTool(tool) ==>
                |tool| <= 1 && (|tool| == 1 ==> Found(pages, tool[0].prefabName))))
  }

  /** Every build state is renderable at its own position. */
  predicate StatesRenderable(pages: seq<Page>, states: seq<BuildState>)
    decreases |states|
  {
    |states| == 0
    || (StatesRenderable(pages, states[..|states| - 1]) && StateRenderable(pages, |states| - 1, states[|states| - 1]))
  }

  lemma {:induction false} StatesRenderablePrefix(pages: seq<Page>, states: seq<BuildState>, k: nat)
    requires StatesRenderable(pages, states) && k <= |states|
    ensures StatesRenderable(pages, states[..k])
    decreases |states| - k
  {
    if k < |states| {
      StatesRenderablePrefix(pages, states[..|states| - 1], k);
      assert states[..|states| - 1][..k] == states[..k];
    } else {
      assert states[..k] == states;
    }
  }

  predicate StructureRenderable(pages: seq<Page>, structure: Structure) {
    StatesRenderable(pages, structure.buildStates)
  }

  /** A `const_with_tool` or `const_with_item` line, with the quantity when there is one. */
  function ConstWithLine(pages: seq<Page>, field: string, count: nat, tool: Tool): string
    requires Found(pages, tool.prefabName)
  {
    FieldPrefix(field, count)
      + (match tool.quantity case Some(q) => Decimal(q) + " x " case None => "")
      + "[[" + Title(pages, tool.prefabName) + "]]"
  }

  predicate WithToolRenderable(pages: seq<Page>, tools: seq<Tool>) {
    |tools| > 0 && Found(pages, tools[0].prefabName) && (|tools| > 1 ==> Found(pages, tools[1].prefabName))
  }

  /** The lines of a build state that needs a tool, read from `tools` as `Page::structure`
      writes them: the first entry as the tool, the second (if any) as the item. */
  function WithToolLinesAsWritten(pages: seq<Page>, count: nat, tools: seq<Tool>): seq<string>
    requires WithToolRenderable(pages, tools)
  {
    [ConstWithLine(pages, "const_with_tool", count, tools[0])]
      + (if |tools| > 1 then [ConstWithLine(pages, "const_with_item", count, tools[1])] else [])
  }

  /** The same lines read from the list sorted tools first, so that the tool line names a tool. */
  function WithToolLines(pages: seq<Page>, count: nat, tools: seq<Tool>): seq<string>
    requires WithToolRenderable(pages, ToolsFirst(tools))
  {
    WithToolLinesAsWritten(pages, count, ToolsFirst(tools))
  }

  function DeconLine(pages: seq<Page>, rcount: nat, exit: Tool): string
    requires Found(pages, exit.prefabName)
  {
    FieldPrefix("decon_with_tool", rcount) + "[[" + Title(pages, exit.prefabName) + "]]"
  }

  function PlacedLines(pages: seq<Page>, first: Tool): seq<string>
    requires Found(pages, first.prefabName)
  {
    var placed := Title(pages, first.prefabName);
    ["| placed_with_item = " + "[[" + placed + "]]", "| item_rec1 = " + "[[" + placed + "]]"]
  }

  function ExitLines(pages: seq<Page>, count: nat, state: BuildState): seq<string>
    requires StateRenderable(pages, count, state)
  {
    match state.toolExit
    case Some(exit) => [DeconLine(pages, count + 1, exit[0])]
    case None => []
  }

  function ToolLines(pages: seq<Page>, count: nat, state: BuildState): seq<string>
    requires StateRenderable(pages, count, state)
  {
    match state.tool
    case None => []
    case Some(tool) =>
      if count == 0 then PlacedLines(pages, tool[0])
      else if AnyTool(tool) then WithToolLinesAsWritten(pages, count, tool)
      else if |tool| > 0 then [ConstWithLine(pages, "const_with_item", count, tool[0])]
      else []
  }

  function StateLines(pages: seq<Page>, count: nat, state: BuildState): seq<string>
    requires StateRenderable(pages, count, state)
  {
    ExitLines(pages, count, state) + ToolLines(pages, count, state)
  }

  /** The lines of the build states, each numbered by its position. */
  function BuildStatesLines(pages: seq<Page>, states: seq<BuildState>): seq<string>
    requires StatesRenderable(pages, states)
    decreases |states|
  {
    if |states| == 0 then []
    else BuildStatesLines(pages, states[..|states| - 1]) + StateLines(pages, |states| - 1, states[|states| - 1])
  }

  function StructureHeader(page: Page): seq<string> {
    ["", "{{Structurebox",
     "| name = " + page.title,
     "| image = [[File:" + page.prefabName + ".png]]",
     "| prefab_hash = " + Decimal(page.prefabHash),
     "| prefab_name = " + page.prefabName]
  }

  function PowerLines(page: Page): seq<string> {
    match page.basePowerDraw
    case Some(power) => ["| power_usage = " + power]
    case None => []
  }

  function GridLine(structure: Structure): string {
    "| placed_on_grid = " + (if structure.smallGrid then "Small" else "Large") + " Grid"
  }

  /** The lines of a page's structure box. */
  function StructureLines(pages: seq<Page>, page: Page): seq<string>
    requires page.structure.Some? && StructureRenderable(pages, page.structure.value)
  {
    StructureHeader(page) + PowerLines(page) + StructureBody(pages, page.structure.value)
  }

  /** The grid line, the build-state lines and the closing `}}`. */
  function StructureBody(pages: seq<Page>, structure: Structure): seq<string>
    requires StructureRenderable(pages, structure)
  {
    [GridLine(structure)] + (BuildStatesLines(pages, structure.buildStates) + ["}}"])
  }

  /** `Page::structure`: no box for a page without a structure; otherwise the header, the power
      line, the grid line, the lines of each build state and the closing `}}`. */
  method StructureBox(pedia: Catalog, page: Page) returns (r: Option<seq<string>>)
    requires page.structure.Some? ==> StructureRenderable(pedia.pages, page.structure.value)
    ensures r.None? <==> page.structure.None?
    ensures r.Some? ==> r.value == StructureLines(pedia.pages, page)
  {
    if page.structure.None? {
      return None;
    }
    var structure := page.structure.value;
    var pages := pedia.pages;
    var out := StructureHeader(page);
    if page.basePowerDraw.Some? {
      out := out + ["| power_usage = " + page.basePowerDraw.value];
    }
    var grid := if structure.smallGrid then "Small" else "Large";
    out := out + ["| placed_on_grid = " + grid + " Grid"];
    assert out == (StructureHeader(page) + PowerLines(page)) + [GridLine(structure)];
    ghost var head := out;
    var lines := BuildStatesBox(pages, structure.buildStates);
    out := out + lines;
    out := out + ["}}"];
    AppendAssoc(head, lines, ["}}"]);
    AppendAssoc(StructureHeader(page) + PowerLines(page), [GridLine(structure)], lines + ["}}"]);
    r := Some(out);
  }

  /** The build-state loop of `Page::structure`: each state's lines, numbered by position. */
  method BuildStatesBox(pages: seq<Page>, states: seq<BuildState>) returns (out: seq<string>)
    requires StatesRenderable(pages, states)
    ensures out == BuildStatesLines(pages, states)
  {
    out := [];
    for count := 0 to |states|
      invariant StatesRenderable(pages, states[..count])
      invariant out == BuildStatesLines(pages, states[..count])
    {
      BuildStatesStep(pages, states, count);
      var lines := StateBoxLines(pages, count, states[count]);
      out := out + lines;
    }
    assert states[..|states|] == states;
  }

  /** One more build state adds its own lines after those of the states before it. */
  lemma BuildStatesStep(pages: seq<Page>, states: seq<BuildState>, count: nat)
    requires StatesRenderable(pages, states) && count < |states|
    ensures StatesRenderable(pages, states[..count]) && StatesRenderable(pages, states[..count + 1])
    ensures StateRenderable(pages, count, states[count])
    ensures BuildStatesLines(pages, states[..count + 1])
            == BuildStatesLines(pages, states[..count]) + StateLines(pages, count, states[count])
  {
    StatesRenderablePrefix(pages, states, count + 1);
    var upto := states[..count + 1];
    assert upto[..count] == states[..count] && upto[count] == states[count];
  }

  /** The body of the build-state loop of `Page::structure`, for the state numbered `count`. */
  method StateBoxLines(pages: seq<Page>, count: nat, state: BuildState) returns (out: seq<string>)
    requires StateRenderable(pages, count, state)
    ensures out == StateLines(pages, count, state)
  {
    out := [];
    var rcount := count + 1;
    if state.toolExit.Some? {
      var exit := state.toolExit.value;
      out := [DeconLine(pages, rcount, exit[0])];
    }
    if state.tool.Some? {
      var more := ToolBoxLines(pages, count, state.tool.value);
      out := out + more;
    }
  }

  /** The `tool` part of the build-state loop of `Page::structure`. */
  method ToolBoxLines(pages: seq<Page>, count: nat, tool: seq<Tool>) returns (out: seq<string>)
    requires StateRenderable(pages, count, BuildState(Some(tool), None))
    ensures out == ToolLines(pages, count, BuildState(Some(tool), None))
  {
    var tools := SortByIsTool(tool);
    SortByIsToolOrders(tool);
    var hasTool := AnyTool(tools);
    if count == 0 {
      out := PlacedLines(pages, tool[0]);
    } else if hasTool {
      out := [ConstWithLine(pages, "const_with_tool", count, tool[0])];
      if |tool| > 1 {
        out := out + [ConstWithLine(pages, "const_with_item", count, tool[1])];
      }
    } else if |tool| > 0 {
      out := [ConstWithLine(pages, "const_with_item", count, tool[0])];
    } else {
      out := [];
    }
  }

  lemma {:induction false} ToolsWhereFlag(tools: seq<Tool>, flag: bool)
    ensures forall i :: 0 <= i < |ToolsWhere(tools, flag)| ==> ToolsWhere(tools, flag)[i].isTool == flag
    decreases |tools|
  {
    if |tools| > 0 {
      ToolsWhereFlag(tools[..|tools| - 1], flag);
    }
  }

  lemma {:induction false} ToolsWhereSplit(tools: seq<Tool>)
    ensures multiset(ToolsWhere(tools, true)) + multiset(ToolsWhere(tools, false)) == multiset(tools)
    decreases |tools|
  {
    if |tools| > 0 {
      var init, last := tools[..|tools| - 1], tools[|tools| - 1];
      ToolsWhereSplit(init);
      SnocParts(tools, init, last);
      if last.isTool {
        PartitionSnoc(ToolsWhere(init, true), ToolsWhere(init, false), init, last,
                      ToolsWhere(tools, true), ToolsWhere(tools, false), tools);
      } else {
        PartitionSnoc(ToolsWhere(init, false), ToolsWhere(init, true), init, last,
                      ToolsWhere(tools, false), ToolsWhere(tools, true), tools);
      }
    }
  }

  lemma SnocParts<T>(s: seq<T>, init: seq<T>, last: T)
    requires |s| > 0 && init == s[..|s| - 1] && last == s[|s| - 1]
    ensures s == init + [last]
  {
  }

  /** Adding one element to the whole and to one of two parts keeps the parts a partition. */
  lemma PartitionSnoc<T>(a: seq<T>, b: seq<T>, whole: seq<T>, x: T, a': seq<T>, b': seq<T>, whole': seq<T>)
    requires multiset(a) + multiset(b) == multiset(whole)
    requires a' == a + [x] && b' == b
    requires whole' == whole + [x]
    ensures multiset(a') + multiset(b') == multiset(whole')
  {
  }

  /** The tools-first sort puts every tool before every item, and its first entry is a tool
      exactly when the list holds one. */
  lemma ToolsFirstSorts(tools: seq<Tool>)
    ensures forall i, j :: 0 <= i < j < |ToolsFirst(tools)| && !ToolsFirst(tools)[i].isTool
              ==> !ToolsFirst(tools)[j].isTool
    ensures AnyTool(ToolsFirst(tools)) == AnyTool(tools)
    ensures AnyTool(tools) <==> |tools| > 0 && ToolsFirst(tools)[0].isTool
  {
    ToolsWhereFlag(tools, true);
    ToolsWhereFlag(tools, false);
    var s := ToolsFirst(tools);
    var front := ToolsWhere(tools, true);
    assert s == front + ToolsWhere(tools, false);
    assert forall k :: 0 <= k < |s| ==> (s[k].isTool <==> k < |front|);
    AnyToolPermutation(s, tools);
    if AnyTool(s) {
      var k :| 0 <= k < |s| && s[k].isTool;
      assert s[0].isTool;
    }
  }

  /** The source's sort puts no tool before an item, and the sorted copy holds a tool exactly
      when the build state's list does, so `has_tool` is decided by the original list. */
  lemma SortByIsToolOrders(tools: seq<Tool>)
    ensures forall i, j :: 0 <= i < j < |SortByIsTool(tools)| && SortByIsTool(tools)[i].isTool
              ==> SortByIsTool(tools)[j].isTool
    ensures AnyTool(SortByIsTool(tools)) == AnyTool(tools)
  {
    ToolsWhereFlag(tools, true);
    ToolsWhereFlag(tools, false);
    var s := SortByIsTool(tools);
    var front := ToolsWhere(tools, false);
    assert s == front + ToolsWhere(tools, true);
    assert forall k :: 0 <= k < |s| ==> (s[k].isTool <==> k >= |front|);
    AnyToolPermutation(s, tools);
  }

  /** Reordering a list does not change whether it holds a tool. */
  lemma AnyToolPermutation(a: seq<Tool>, b: seq<Tool>)
    requires multiset(a) == multiset(b)
    ensures AnyTool(a) == AnyTool(b)
  {
    if AnyTool(a) {
      var k :| 0 <= k < |a| && a[k].isTool;
      assert a[k] in multiset(b);
      var i :| 0 <= i < |b| && b[i] == a[k];
    }
    if AnyTool(b) {
      var k :| 0 <= k < |b| && b[k].isTool;
      assert b[k] in multiset(a);
      var i :| 0 <= i < |a| && a[i] == b[k];
    }
  }

  /** With the tools sorted first, the `const_with_tool` line names an entry that is a tool, and
      the `const_with_item` line (when there is a second entry) names another entry of the list. */
  lemma WithToolLinesNameTheTool(pages: seq<Page>, count: nat, tools: seq<Tool>)
    requires AnyTool(tools) && WithToolRenderable(pages, ToolsFirst(tools))
    ensures var t := ToolsFirst(tools)[0];
            t in tools && t.isTool && WithToolLines(pages, count, tools)[0] == ConstWithLine(pages, "const_with_tool", count, t)
    ensures |tools| > 1 ==>
              var t := ToolsFirst(tools)[1];
              |WithToolLines(pages, count, tools)| == 2 && t in multiset(tools) - multiset{ToolsFirst(tools)[0]}
              && WithToolLines(pages, count, tools)[1] == ConstWithLine(pages, "const_with_item", count, t)
  {
    ToolsFirstSorts(tools);
    var s := ToolsFirst(tools);
    assert s[0] in multiset(s);
    if |tools| > 1 {
      assert s == [s[0]] + s[1..];
      assert s[1] in multiset(s[1..]);
    }
  }

  /** As written, the line for a tool can name an item: with a plate listed before the wrench,
      `const_with_tool1` names the plate (in the box too: `BoxNamesPlateAsTool`); sorted tools
      first, it names the wrench. */
  lemma WithToolLinesAsWrittenNamesItem()
    ensures var pages := [Page("plate", "Steel Plate", "ItemPlate", 1, None, None, [], None),
                          Page("wrench", "Wrench", "ItemWrench", 2, None, None, [], None)];
            var plate := Tool(false, "ItemPlate", None);
            var wrench := Tool(true, "ItemWrench", None);
            && WithToolRenderable(pages, [plate, wrench])
            && WithToolRenderable(pages, ToolsFirst([plate, wrench]))
            && WithToolLinesAsWritten(pages, 1, [plate, wrench])[0] == ConstWithLine(pages, "const_with_tool", 1, plate)
            && Title(pages, plate.prefabName) == "Steel Plate" && !plate.isTool
            && WithToolLines(pages, 1, [plate, wrench])[0] == ConstWithLine(pages, "const_with_tool", 1, wrench)
            && Title(pages, wrench.prefabName) == "Wrench" && wrench.isTool
  {
    var pages := [Page("plate", "Steel Plate", "ItemPlate", 1, None, None, [], None),
                  Page("wrench", "Wrench", "ItemWrench", 2, None, None, [], None)];
    var plate := Tool(false, "ItemPlate", None);
    var wrench := Tool(true, "ItemWrench", None);
    var tools := [plate, wrench];
    assert LookupPrefabName(pages, "ItemPlate") == Some(pages[0]);
    assert LookupPrefabName(pages, "ItemWrench") == Some(pages[1]);
    assert tools[..1] == [plate] && [plate][..0] == [];
    assert ToolsWhere([plate], true) == [];
    assert ToolsWhere([plate], false) == [plate];
    assert ToolsWhere(tools, true) == [wrench];
    assert ToolsWhere(tools, false) == [plate];
    assert ToolsFirst(tools) == [wrench, plate];
  }

  /** Build state `k` is renderable at its own position. */
  lemma {:induction false} StatesRenderableAt(pages: seq<Page>, states: seq<BuildState>, k: nat)
    requires StatesRenderable(pages, states) && k < |states|
    ensures StateRenderable(pages, k, states[k])
    decreases |states|
  {
    var n := |states| - 1;
    if k < n {
      StatesRenderableAt(pages, states[..n], k);
      assert states[..n][k] == states[k];
    }
  }

  /** The lines of the first `m` build states begin the lines of all of them. */
  lemma {:induction false} BuildStatesPrefix(pages: seq<Page>, states: seq<BuildState>, m: nat)
    requires StatesRenderable(pages, states) && m <= |states|
    ensures StatesRenderable(pages, states[..m])
    ensures BuildStatesLines(pages, states[..m]) <= BuildStatesLines(pages, states)
    decreases |states|
  {
    StatesRenderablePrefix(pages, states, m);
    if m == |states| {
      assert states[..m] == states;
    } else {
      var n := |states| - 1;
      var init := states[..n];
      BuildStatesPrefix(pages, init, m);
      assert init[..m] == states[..m];
      PrefixOfConcat(BuildStatesLines(pages, states[..m]), BuildStatesLines(pages, init), StateLines(pages, n, states[n]));
    }
  }

  lemma PrefixOfConcat<T>(a: seq<T>, b: seq<T>, c: seq<T>)
    requires a <= b
    ensures a <= b + c
  {
    assert b + c == b + c;
  }

  lemma InPrefix<T>(x: T, a: seq<T>, b: seq<T>)
    requires x in a && a <= b
    ensures x in b
  {
    var i :| 0 <= i < |a| && a[i] == x;
    assert b[i] == x;
  }

  lemma InConcat<T>(x: T, a: seq<T>, b: seq<T>)
    requires x in b
    ensures x in a + b
  {
    var i :| 0 <= i < |b| && b[i] == x;
    assert (a + b)[|a| + i] == x;
  }

  /** As written, the structure box's `const_with_tool` line for a build state after the first
      that holds a tool names the first entry of the state's list, whether or not that entry is
      a tool. */
  lemma BoxToolLineNamesFirstListed(pages: seq<Page>, page: Page, k: nat)
    requires page.structure.Some? && StructureRenderable(pages, page.structure.value)
    requires 0 < k < |page.structure.value.buildStates|
    requires page.structure.value.buildStates[k].tool.Some? && AnyTool(page.structure.value.buildStates[k].tool.value)
    ensures var tools := page.structure.value.buildStates[k].tool.value;
            && Found(pages, tools[0].prefabName)
            && ConstWithLine(pages, "const_with_tool", k, tools[0]) in StructureLines(pages, page)
  {
    var structure := page.structure.value;
    var states := structure.buildStates;
    StatesRenderableAt(pages, states, k);
    var tools := states[k].tool.value;
    var line := ConstWithLine(pages, "const_with_tool", k, tools[0]);
    assert ToolLines(pages, k, states[k]) == WithToolLinesAsWritten(pages, k, tools);
    InConcat(line, ExitLines(pages, k, states[k]), ToolLines(pages, k, states[k]));
    BuildStatesPrefix(pages, states, k + 1);
    var upto := states[..k + 1];
    assert upto[..k] == states[..k] && upto[k] == states[k];
    InConcat(line, BuildStatesLines(pages, states[..k]), StateLines(pages, k, states[k]));
    InPrefix(line, BuildStatesLines(pages, upto), BuildStatesLines(pages, states));
    assert line in StructureBody(pages, structure);
  }

  /** The Findings example in the box itself: build state 1 listing a steel plate and then a
      wrench gets `const_with_tool1` naming the plate. */
  lemma BoxNamesPlateAsTool(pages: seq<Page>, page: Page)
    requires page.structure.Some? && StructureRenderable(pages, page.structure.value)
    requires |page.structure.value.buildStates| > 1
    requires page.structure.value.buildStates[1].tool == Some([Tool(false, "ItemPlate", None), Tool(true, "ItemWrench", None)])
    ensures Found(pages, "ItemPlate")
    ensures ConstWithLine(pages, "const_with_tool", 1, Tool(false, "ItemPlate", None)) in StructureLines(pages, page)
  {
    var tools := [Tool(false, "ItemPlate", None), Tool(true, "ItemWrench", None)];
    assert AnyTool(tools) by {
      assert tools[1].isTool;
    }
    BoxToolLineNamesFirstListed(pages, page, 1);
  }

  lemma DeconLineField(pages: seq<Page>, rcount: nat, exit: Tool)
    requires Found(pages, exit.prefabName)
    ensures StartsWith(DeconLine(pages, rcount, exit), FieldPrefix("decon_with_tool", rcount))
  {
    var p := FieldPrefix("decon_with_tool", rcount);
    PrefixThen(p, "[[");
    PrefixKept(p + "[[", p, Title(pages, exit.prefabName));
    PrefixKept(p + "[[" + Title(pages, exit.prefabName), p, "]]");
  }

  lemma ConstWithLineField(pages: seq<Page>, field: string, count: nat, tool: Tool)
    requires Found(pages, tool.prefabName)
    ensures StartsWith(ConstWithLine(pages, field, count, tool), FieldPrefix(field, count))
  {
    var p := FieldPrefix(field, count);
    var amount := match tool.quantity case Some(q) => Decimal(q) + " x " case None => "";
    PrefixThen(p, amount);
    PrefixKept(p + amount, p, "[[");
    PrefixKept(p + amount + "[[", p, Title(pages, tool.prefabName));
    PrefixKept(p + amount + "[[" + Title(pages, tool.prefabName), p, "]]");
  }

  /** A line of the build state numbered `c`: `decon_with_tool` carries `c + 1`;
      `placed_with_item` and `item_rec1` occur only for the first state; `const_with_tool` and
      `const_with_item` carry `c`, which is then never 0. */
  predicate NumberedStateLine(line: string, c: nat) {
    || StartsWith(line, FieldPrefix("decon_with_tool", c + 1))
    || (c == 0 && (StartsWith(line, "| placed_with_item = ") || StartsWith(line, "| item_rec1 = ")))
    || (c > 0 && (StartsWith(line, FieldPrefix("const_with_tool", c)) || StartsWith(line, FieldPrefix("const_with_item", c))))
  }

  lemma PlacedLinesFields(pages: seq<Page>, first: Tool)
    requires Found(pages, first.prefabName)
    ensures forall l :: l in PlacedLines(pages, first) ==>
              StartsWith(l, "| placed_with_item = ") || StartsWith(l, "| item_rec1 = ")
  {
    var placed := Title(pages, first.prefabName);
    PrefixThen("| placed_with_item = ", "[[");
    PrefixKept("| placed_with_item = " + "[[", "| placed_with_item = ", placed);
    PrefixKept("| placed_with_item = " + "[[" + placed, "| placed_with_item = ", "]]");
    PrefixThen("| item_rec1 = ", "[[");
    PrefixKept("| item_rec1 = " + "[[", "| item_rec1 = ", placed);
    PrefixKept("| item_rec1 = " + "[[" + placed, "| item_rec1 = ", "]]");
  }

  lemma WithToolLinesFields(pages: seq<Page>, count: nat, tools: seq<Tool>)
    requires WithToolRenderable(pages, tools)
    ensures forall l :: l in WithToolLinesAsWritten(pages, count, tools) ==>
              StartsWith(l, FieldPrefix("const_with_tool", count)) || StartsWith(l, FieldPrefix("const_with_item", count))
  {
    ConstWithLineField(pages, "const_with_tool", count, tools[0]);
    if |tools| > 1 {
      ConstWithLineField(pages, "const_with_item", count, tools[1]);
    }
  }

  lemma ToolLinesNumbered(pages: seq<Page>, c: nat, state: BuildState)
    requires StateRenderable(pages, c, state)
    ensures forall l :: l in ToolLines(pages, c, state) ==> NumberedStateLine(l, c)
  {
    if state.tool.Some? {
      var tool := state.tool.value;
      if c == 0 {
        PlacedLinesFields(pages, tool[0]);
      } else if AnyTool(tool) {
        WithToolLinesFields(pages, c, tool);
      } else if |tool| > 0 {
        ConstWithLineField(pages, "const_with_item", c, tool[0]);
      }
    }
  }

  lemma StateLinesNumbered(pages: seq<Page>, c: nat, state: BuildState)
    requires StateRenderable(pages, c, state)
    ensures forall l :: l in StateLines(pages, c, state) ==> NumberedStateLine(l, c)
  {
    if state.toolExit.Some? {
      DeconLineField(pages, c + 1, state.toolExit.value[0]);
    }
    ToolLinesNumbered(pages, c, state);
  }

  /** Every line of the build-state part belongs to one of the states and carries its number. */
  lemma {:induction false} BuildStatesLinesNumbered(pages: seq<Page>, states: seq<BuildState>)
    requires StatesRenderable(pages, states)
    ensures forall l :: l in BuildStatesLines(pages, states) ==> exists c :: 0 <= c < |states| && NumberedStateLine(l, c)
    decreases |states|
  {
    if |states| > 0 {
      var n := |states| - 1;
      BuildStatesLinesNumbered(pages, states[..n]);
      StateLinesNumbered(pages, n, states[n]);
    }
  }

  lemma NumberedStateLineIsNotPowerOrGrid(line: string, c: nat)
    requires NumberedStateLine(line, c)
    ensures !StartsWith(line, "| power_usage = ") && !StartsWith(line, "| placed_on_grid = ")
  {
    var power := "| power_usage = ";
    var grid := "| placed_on_grid = ";
    if StartsWith(line, FieldPrefix("decon_with_tool", c + 1)) {
      FieldLineIsNot(line, "decon_with_tool", c + 1, power);
      FieldLineIsNot(line, "decon_with_tool", c + 1, grid);
    } else if StartsWith(line, "| placed_with_item = ") {
      Clash(line, "| placed_with_item = ", power, 3);
      Clash(line, "| placed_with_item = ", grid, 9);
    } else if StartsWith(line, "| item_rec1 = ") {
      Clash(line, "| item_rec1 = ", power, 2);
      Clash(line, "| item_rec1 = ", grid, 2);
    } else if StartsWith(line, FieldPrefix("const_with_tool", c)) {
      FieldLineIsNot(line, "const_with_tool", c, power);
      FieldLineIsNot(line, "const_with_tool", c, grid);
    } else {
      FieldLineIsNot(line, "const_with_item", c, power);
      FieldLineIsNot(line, "const_with_item", c, grid);
    }
  }

  /** No line of the build-state part is a power or a grid line. */
  lemma BuildStatesHaveNoPowerOrGrid(pages: seq<Page>, states: seq<BuildState>)
    requires StatesRenderable(pages, states)
    ensures forall l :: l in BuildStatesLines(pages, states) ==>
              !StartsWith(l, "| power_usage = ") && !StartsWith(l, "| placed_on_grid = ")
  {
    BuildStatesLinesNumbered(pages, states);
    forall l | l in BuildStatesLines(pages, states)
      ensures !StartsWith(l, "| power_usage = ") && !StartsWith(l, "| placed_on_grid = ")
    {
      var c :| 0 <= c < |states| && NumberedStateLine(l, c);
      NumberedStateLineIsNotPowerOrGrid(l, c);
    }
  }

  /** No header line of the structure box is a power or a grid line. */
  lemma StructureHeadHasNoPowerOrGrid(page: Page)
    ensures forall l :: l in StructureHeader(page) ==>
              !StartsWith(l, "| power_usage = ") && !StartsWith(l, "| placed_on_grid = ")
  {
    HeadFieldNotPowerOrGrid("| name = ", page.title, 2, 2);
    var image := "[[File:" + page.prefabName + ".png]]";
    HeadFieldNotPowerOrGrid("| image = ", image, 2, 2);
    assert "| image = [[File:" + page.prefabName + ".png]]" == "| image = " + image;
    HeadFieldNotPowerOrGrid("| prefab_hash = ", Decimal(page.prefabHash), 3, 3);
    HeadFieldNotPowerOrGrid("| prefab_name = ", page.prefabName, 3, 3);
    assert "{{Structurebox"[0] != "| power_usage = "[0] && "{{Structurebox"[0] != "| placed_on_grid = "[0];
  }

  lemma HeadFieldNotPowerOrGrid(key: string, value: string, ip: nat, ig: nat)
    requires ip < |key| && ip < |"| power_usage = "| && key[ip] != "| power_usage = "[ip]
    requires ig < |key| && ig < |"| placed_on_grid = "| && key[ig] != "| placed_on_grid = "[ig]
    ensures !StartsWith(key + value, "| power_usage = ") && !StartsWith(key + value, "| placed_on_grid = ")
  {
    PrefixThen(key, value);
    Clash(key + value, key, "| power_usage = ", ip);
    Clash(key + value, key, "| placed_on_grid = ", ig);
  }

  lemma GridLineFacts(structure: Structure)
    ensures StartsWith(GridLine(structure), "| placed_on_grid = ")
    ensures !StartsWith(GridLine(structure), "| power_usage = ")
    ensures GridLine(structure) == "| placed_on_grid = Small Grid" <==> structure.smallGrid
  {
    var size := if structure.smallGrid then "Small" else "Large";
    PrefixThen("| placed_on_grid = ", size);
    PrefixKept("| placed_on_grid = " + size, "| placed_on_grid = ", " Grid");
    Clash(GridLine(structure), "| placed_on_grid = ", "| power_usage = ", 3);
    if !structure.smallGrid {
      assert GridLine(structure)[19] == 'L';
    }
  }

  lemma PowerLinesFacts(page: Page)
    ensures |PowerLines(page)| > 0 <==> page.basePowerDraw.Some?
    ensures forall l :: l in PowerLines(page) ==> StartsWith(l, "| power_usage = ") && !StartsWith(l, "| placed_on_grid = ")
  {
    if page.basePowerDraw.Some? {
      PrefixThen("| power_usage = ", page.basePowerDraw.value);
      Clash("| power_usage = " + page.basePowerDraw.value, "| power_usage = ", "| placed_on_grid = ", 3);
    }
  }

  /** The structure box has a `power_usage` line exactly when the page has a power draw. */
  lemma PowerUsageLineIffPowerDraw(pages: seq<Page>, page: Page)
    requires page.structure.Some? && StructureRenderable(pages, page.structure.value)
    ensures (exists l :: l in StructureLines(pages, page) && StartsWith(l, "| power_usage = ")) <==> page.basePowerDraw.Some?
  {
    var power := "| power_usage = ";
    var structure := page.structure.value;
    var lines := StructureLines(pages, page);
    var after := StructureBody(pages, structure);
    StructureHeadHasNoPowerOrGrid(page);
    BuildStatesHaveNoPowerOrGrid(pages, structure.buildStates);
    GridLineFacts(structure);
    PowerLinesFacts(page);
    assert "}}"[0] != power[0];
    KeyOnlyIn(lines, StructureHeader(page), PowerLines(page), after, power);
    if page.basePowerDraw.Some? {
      assert PowerLines(page)[0] in PowerLines(page);
    }
  }

  /** The structure box has exactly one `placed_on_grid` line, right after the header and the
      power line, and it says `Small Grid` exactly for a small-grid structure. */
  lemma GridLineOnce(pages: seq<Page>, page: Page)
    requires page.structure.Some? && StructureRenderable(pages, page.structure.value)
    ensures var lines := StructureLines(pages, page);
            var at := |StructureHeader(page)| + |PowerLines(page)|;
            && at < |lines|
            && (lines[at] == "| placed_on_grid = Small Grid" <==> page.structure.value.smallGrid)
            && forall i :: 0 <= i < |lines| ==> (StartsWith(lines[i], "| placed_on_grid = ") <==> i == at)
  {
    var grid := "| placed_on_grid = ";
    var structure := page.structure.value;
    var lines := StructureLines(pages, page);
    var before := StructureHeader(page) + PowerLines(page);
    var after := BuildStatesLines(pages, structure.buildStates) + ["}}"];
    StructureHeadHasNoPowerOrGrid(page);
    BuildStatesHaveNoPowerOrGrid(pages, structure.buildStates);
    PowerLinesFacts(page);
    GridLineFacts(structure);
    assert "}}"[0] != grid[0];
    OnlyLineWithKey(lines, before, GridLine(structure), after, grid);
  }

  /** Only `middle` can hold a line with a given start when `before` and `after` hold none. */
  lemma KeyOnlyIn(lines: seq<string>, before: seq<string>, middle: seq<string>, after: seq<string>, key: string)
    requires lines == before + middle + after
    requires forall l :: l in before ==> !StartsWith(l, key)
    requires forall l :: l in after ==> !StartsWith(l, key)
    ensures (exists l :: l in lines && StartsWith(l, key)) <==> (exists l :: l in middle && StartsWith(l, key))
  {
  }

  /** In `before + [line] + after`, `line` is the only line with a given start when no line
      of `before` or `after` has it. */
  lemma OnlyLineWithKey(lines: seq<string>, before: seq<string>, line: string, after: seq<string>, key: string)
    requires lines == before + ([line] + after) && StartsWith(line, key)
    requires forall l :: l in before ==> !StartsWith(l, key)
    requires forall l :: l in after ==> !StartsWith(l, key)
    ensures forall i :: 0 <= i < |lines| ==> (StartsWith(lines[i], key) <==> i == |before|)
  {
    forall i | 0 <= i < |lines|
      ensures StartsWith(lines[i], key) <==> i == |before|
    {
      if i < |before| {
        assert lines[i] in before;
      } else if i > |before| {
        assert lines[i] == after[i - |before| - 1];
        assert lines[i] in after;
      }
    }
  }

  // ---------------------------------------------------------------------------------------
  // Choosing the page

  /** What `Wikibox::run` settles on: nothing found, several candidates and no exact one, or
      one page whose boxes are printed. */
  datatype Selection = NoMatches | Ambiguous(hits: seq<Page>) | Chosen(page: Page)

  /** A page the fuzzy matcher scores above 100 on its key, title or prefab name. The matcher
      is the parameter `fuzzy(text, query)`. */
  predicate IsHit(fuzzy: (string, string) -> bool, page: Page, query: string) {
    fuzzy(page.key, query) || fuzzy(page.title, query) || fuzzy(page.prefabName, query)
  }

  predicate IsExact(page: Page, query: string) {
    page.key == query || page.title == query || page.prefabName == query
  }

  /** The hits, in catalog order. */
  function Hits(pages: seq<Page>, query: string, fuzzy: (string, string) -> bool): seq<Page>
    decreases |pages|
  {
    if |pages| == 0 then []
    else
      var last := pages[|pages| - 1];
      Hits(pages[..|pages| - 1], query, fuzzy) + (if IsHit(fuzzy, last, query) then [last] else [])
  }

  /** The hits are exactly the catalog pages the matcher accepts. */
  lemma {:induction false} HitsExactly(pages: seq<Page>, query: string, fuzzy: (string, string) -> bool)
    ensures forall p :: p in Hits(pages, query, fuzzy) <==> p in pages && IsHit(fuzzy, p, query)
    decreases |pages|
  {
    if |pages| > 0 {
      var init := pages[..|pages| - 1];
      HitsExactly(init, query, fuzzy);
      SnocParts(pages, init, pages[|pages| - 1]);
    }
  }

  /** The first hit that matches the query exactly. */
  function FirstExact(hits: seq<Page>, query: string): (r: Option<Page>)
    ensures r.None? <==> forall i :: 0 <= i < |hits| ==> !IsExact(hits[i], query)
    ensures r.Some? ==> exists i :: 0 <= i < |hits| && hits[i] == r.value && IsExact(r.value, query)
                         && forall j :: 0 <= j < i ==> !IsExact(hits[j], query)
    decreases |hits|
  {
    if |hits| == 0 then None
    else if IsExact(hits[0], query) then Some(hits[0])
    else
      var r := FirstExact(hits[1..], query);
      assert forall i :: 1 <= i < |hits| ==> hits[i] == hits[1..][i - 1];
      r
  }

  /** The choice `Wikibox::run` makes. A query that parses as an `i64` names a prefab hash, and
      the first page with that hash is chosen. Otherwise: no hits, no page; an exact hit is
      chosen first; several hits without an exact one are ambiguous; a single hit is chosen. */
  function Choose(pages: seq<Page>, query: string, fuzzy: (string, string) -> bool): (r: Selection)
    requires ParseI64(query).Some? ==> LookupHash(pages, ParseI64(query).value).Some?
    ensures ParseI64(query).Some? ==>
              r.Chosen? && r.page in pages && r.page.prefabHash == ParseI64(query).value
    ensures ParseI64(query).Some? ==> r == Chosen(LookupHash(pages, ParseI64(query).value).value)
    ensures ParseI64(query).Some? ==>
              exists i :: 0 <= i < |pages| && pages[i] == r.page
                          && forall j :: 0 <= j < i ==> pages[j].prefabHash != ParseI64(query).value
    ensures ParseI64(query).None? && FirstExact(Hits(pages, query, fuzzy), query).Some? ==>
              r == Chosen(FirstExact(Hits(pages, query, fuzzy), query).value)
    ensures ParseI64(query).None? ==> (r.NoMatches? <==> |Hits(pages, query, fuzzy)| == 0)
    ensures ParseI64(query).None? && r.Chosen? ==>
              r.page in Hits(pages, query, fuzzy)
              && (IsExact(r.page, query) || |Hits(pages, query, fuzzy)| == 1)
    ensures ParseI64(query).None? && r.Ambiguous? ==>
              r.hits == Hits(pages, query, fuzzy) && |r.hits| > 1
              && forall i :: 0 <= i < |r.hits| ==> !IsExact(r.hits[i], query)
  {
    match ParseI64(query)
    case Some(hash) =>
      LookupHashFirstMatch(pages, hash);
      Chosen(LookupHash(pages, hash).value)
    case None =>
      var hits := Hits(pages, query, fuzzy);
      if |hits| == 0 then NoMatches
      else match FirstExact(hits, query)
        case Some(exact) => Chosen(exact)
        case None => if |hits| > 1 then Ambiguous(hits) else Chosen(hits[0])
  }

  /** The selection part of `Wikibox::run`: collect the fuzzy hits in catalog order, then decide. */
  method Select(pedia: Catalog, query: string, fuzzy: (string, string) -> bool) returns (sel: Selection)
    requires ParseI64(query).Some? ==> LookupHash(pedia.pages, ParseI64(query).value).Some?
    ensures sel == Choose(pedia.pages, query, fuzzy)
  {
    var parsed := ParseI64(query);
    if parsed.Some? {
      return Chosen(LookupHash(pedia.pages, parsed.value).value);
    }
    var hits := [];
    var pages := pedia.pages;
    for k := 0 to |pages|
      invariant hits == Hits(pages[..k], query, fuzzy)
    {
      var page := pages[k];
      assert pages[..k + 1][..k] == pages[..k];
      if fuzzy(page.key, query) || fuzzy(page.title, query) || fuzzy(page.prefabName, query) {
        hits := hits + [page];
      }
    }
    assert pages[..|pages|] == pages;
    if |hits| == 0 {
      return NoMatches;
    }
    var exact := FirstExact(hits, query);
    if exact.Some? {
      return Chosen(exact.value);
    }
    if |hits| > 1 {
      return Ambiguous(hits);
    }
    return Chosen(hits[0]);
  }
}
