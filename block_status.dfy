/**
  The value-level specification of the block-status client: the three block
  categories, the display settings, how a block's tooltip label is chosen, and
  how a configuration document changes the client's state.
 */
module BlockStatus {
  import opened Wrappers
  import opened Json

  // Keys of the configuration document.
  const DisplayKey := "display"
  const UseAdvancedTooltipKey := "useAdvancedTooltip"
  const UseLoreKey := "useLore"
  const BlockForBlockTextKey := "BlockForBlockText"
  const FreeToBreakTextKey := "freeToBreakText"
  const FreeInClaimsTextKey := "freeInClaimsText"
  const BlockForBlockListKey := "BlockForBlockBlocks"
  const FreeToBreakListKey := "freeToBreakBlocks"
  const FreeInClaimsListKey := "freeInClaimsBlocks"

  /** A namespaced registry key, `namespace:path`. */
  datatype Identifier = Identifier(namespace: string, path: string)

  /**
    The game's collaborators the client relies on: `Identifier.tryParse`
    (null for a malformed string) and the block registry, a partial map
    (an identifier it does not know yields null).
   */
  datatype Game<Block> = Game(tryParse: string -> Option<Identifier>, blocks: map<Identifier, Block>)

  /** The three categories a block can be listed in, in the order they are checked. */
  datatype Category = BlockForBlock | FreeToBreak | FreeInClaims {
    /** Position in the order of precedence: a lower rank wins. */
    function Rank(): nat {
      match this
      case BlockForBlock => 0
      case FreeToBreak => 1
      case FreeInClaims => 2
    }

    /** The key of the document's list of blocks of this category. */
    function ListKey(): string {
      match this
      case BlockForBlock => BlockForBlockListKey
      case FreeToBreak => FreeToBreakListKey
      case FreeInClaims => FreeInClaimsListKey
    }
  }

  datatype DisplaySettings = DisplaySettings(
    useAdvancedTooltip: bool,
    useLore: bool,
    blockForBlockText: string,
    freeToBreakText: string,
    freeInClaimsText: string)
  {
    /** The label shown for a block of category `c`. */
    function TextFor(c: Category): string {
      match c
      case BlockForBlock => blockForBlockText
      case FreeToBreak => freeToBreakText
      case FreeInClaims => freeInClaimsText
    }
  }

  /** Everything the client object holds: three block sets and five settings. */
  datatype ClientState<Block> = ClientState(
    blockForBlock: set<Block>,
    freeToBreak: set<Block>,
    freeInClaims: set<Block>,
    settings: DisplaySettings)
  {
    /** The set that lists blocks of category `c`. */
    function Members(c: Category): set<Block> {
      match c
      case BlockForBlock => blockForBlock
      case FreeToBreak => freeToBreak
      case FreeInClaims => freeInClaims
    }
  }

  /** The initialisers of the five setting fields. */
  function InitialSettings(): DisplaySettings {
    DisplaySettings(true, false, "§cBlock for Block", "§aFree to Break", "§bFree in Claim")
  }

  /** The field initialisers of the client: empty sets and the built-in settings. */
  function Initial<Block>(): (r: ClientState<Block>)
    ensures forall c :: r.Members(c) == {}
    ensures r.settings.useAdvancedTooltip && !r.settings.useLore
    ensures r.settings.TextFor(BlockForBlock) == "§cBlock for Block"
    ensures r.settings.TextFor(FreeToBreak) == "§aFree to Break"
    ensures r.settings.TextFor(FreeInClaims) == "§bFree in Claim"
  {
    ClientState({}, {}, {}, InitialSettings())
  }

  // ---------------------------------------------------------------------------
  // Choosing the tooltip label

  /**
    The category whose label a block gets: the first of BlockForBlock,
    FreeToBreak, FreeInClaims whose set holds the block, or none.
   */
  function Classify<Block>(b: Block, st: ClientState<Block>): (r: Option<Category>)
    ensures r.Some? ==> b in st.Members(r.value)
    ensures r.Some? ==> forall c :: b in st.Members(c) ==> r.value.Rank() <= c.Rank()
    ensures r.None? <==> forall c :: b !in st.Members(c)
  {
    if b in st.blockForBlock then Some(BlockForBlock)
    else if b in st.freeToBreak then Some(FreeToBreak)
    else if b in st.freeInClaims then Some(FreeInClaims)
    else None
  }

  /** The line the tooltip handler appends for block `b`, if any. */
  function Label<Block>(b: Block, st: ClientState<Block>): (r: Option<string>)
    ensures b in st.blockForBlock ==> r == Some(st.settings.blockForBlockText)
    ensures b !in st.blockForBlock && b in st.freeToBreak ==> r == Some(st.settings.freeToBreakText)
    ensures b !in st.blockForBlock && b !in st.freeToBreak && b in st.freeInClaims ==>
              r == Some(st.settings.freeInClaimsText)
    ensures r.None? <==> b !in st.blockForBlock + st.freeToBreak + st.freeInClaims
  {
    match Classify(b, st)
    case None => None
    case Some(c) => Some(st.settings.TextFor(c))
  }

  /** A reference reading of the precedence: scan `order` and stop at the first set holding `b`. */
  function FirstMatch<Block>(b: Block, order: seq<Category>, st: ClientState<Block>): Option<Category> {
    if order == [] then None
    else if b in st.Members(order[0]) then Some(order[0])
    else FirstMatch(b, order[1..], st)
  }

  /** Classify is the first match over the order in which the handler checks the sets. */
  lemma ClassifyIsFirstMatch<Block>(b: Block, st: ClientState<Block>)
    ensures Classify(b, st) == FirstMatch(b, [BlockForBlock, FreeToBreak, FreeInClaims], st)
  {
    var order := [BlockForBlock, FreeToBreak, FreeInClaims];
    var rest := [FreeToBreak, FreeInClaims];
    var last := [FreeInClaims];
    assert order[0] == BlockForBlock && order[1..] == rest;
    assert rest[0] == FreeToBreak && rest[1..] == last;
    assert last[0] == FreeInClaims && last[1..] == [];
    assert FirstMatch(b, last, st) == if b in st.freeInClaims then Some(FreeInClaims) else None;
    assert FirstMatch(b, rest, st) == if b in st.freeToBreak then Some(FreeToBreak) else FirstMatch(b, last, st);
    assert FirstMatch(b, order, st) == if b in st.blockForBlock then Some(BlockForBlock) else FirstMatch(b, rest, st);
  }

  // ---------------------------------------------------------------------------
  // Loading block lists

  /** What one list entry contributes: the block it names, if it parses and the registry knows it. */
  function ResolveEntry<Block>(entry: string, game: Game<Block>): (r: Option<Block>)
    ensures r.None? <==> game.tryParse(entry).None? || game.tryParse(entry).value !in game.blocks
    ensures r.Some? ==> game.blocks[game.tryParse(entry).value] == r.value
  {
    match game.tryParse(entry)
    case None => None
    case Some(id) => if id in game.blocks then Some(game.blocks[id]) else None
  }

  /** The blocks named by the valid entries of `entries`; invalid entries contribute nothing. */
  function Resolved<Block(!new)>(entries: seq<string>, game: Game<Block>): (r: set<Block>)
    ensures r <= game.blocks.Values
    ensures forall b :: b in r <==> exists i :: 0 <= i < |entries| && ResolveEntry(entries[i], game) == Some(b)
  {
    if entries == [] then {}
    else
      var init := entries[..|entries| - 1];
      var last := entries[|entries| - 1];
      assert forall i :: 0 <= i < |init| ==> init[i] == entries[i];
      var r := Resolved(init, game) + match ResolveEntry(last, game) { case None => {} case Some(b) => {b} };
      assert forall b :: b in r <== exists i :: 0 <= i < |entries| && ResolveEntry(entries[i], game) == Some(b) by {
        forall b, i | 0 <= i < |entries| && ResolveEntry(entries[i], game) == Some(b) ensures b in r {
          if i < |init| { assert ResolveEntry(init[i], game) == Some(b); }
        }
      }
      r
  }

  /** Resolving a list in two pieces resolves the whole list. */
  lemma {:induction false} ResolvedAppend<Block(!new)>(a: seq<string>, b: seq<string>, game: Game<Block>)
    ensures Resolved(a + b, game) == Resolved(a, game) + Resolved(b, game)
  {
    if b == [] {
      assert a + b == a;
    } else {
      var b' := b[..|b| - 1];
      assert (a + b)[..|a + b| - 1] == a + b';
      assert (a + b)[|a + b| - 1] == b[|b| - 1];
      ResolvedAppend(a, b', game);
    }
  }

  /**
    The set `s` after `loadBlockList(config, listName, s)`: unchanged when the
    list is absent, otherwise `s` plus every block a valid entry names.
   */
  function LoadList<Block(!new)>(s: set<Block>, config: JsonObject, listName: string, game: Game<Block>): (r: set<Block>)
    requires StrArrayIfPresent(config, listName)
    ensures listName !in config ==> r == s
    ensures s <= r && r - s <= game.blocks.Values
    ensures listName in config ==>
              forall b :: b in r <==>
                b in s || exists i :: 0 <= i < |config[listName].items| && ResolveEntry(config[listName].items[i], game) == Some(b)
  {
    if listName in config then s + Resolved(config[listName].items, game) else s
  }

  /** Loading the same list a second time adds nothing. */
  lemma LoadListIdempotent<Block(!new)>(s: set<Block>, config: JsonObject, listName: string, game: Game<Block>)
    requires StrArrayIfPresent(config, listName)
    ensures LoadList(LoadList(s, config, listName, game), config, listName, game) == LoadList(s, config, listName, game)
  {
  }

  // ---------------------------------------------------------------------------
  // Loading the display section

  /** The `display` section is absent, or it is an object whose known keys hold the right kinds of value. */
  predicate DisplayWellTyped(config: JsonObject) {
    DisplayKey in config ==>
      && config[DisplayKey].Obj?
      && BoolIfPresent(config[DisplayKey].members, UseAdvancedTooltipKey)
      && BoolIfPresent(config[DisplayKey].members, UseLoreKey)
      && StrIfPresent(config[DisplayKey].members, BlockForBlockTextKey)
      && StrIfPresent(config[DisplayKey].members, FreeToBreakTextKey)
      && StrIfPresent(config[DisplayKey].members, FreeInClaimsTextKey)
  }

  /** A document the client can read without a type error escaping. */
  predicate WellTyped(config: JsonObject) {
    && DisplayWellTyped(config)
    && StrArrayIfPresent(config, BlockForBlockListKey)
    && StrArrayIfPresent(config, FreeToBreakListKey)
    && StrArrayIfPresent(config, FreeInClaimsListKey)
  }

  /**
    The settings after the display section of `config` is read. The two
    booleans fall back to fixed defaults, not to their previous values; the
    three texts keep their previous values when their key is missing.
   */
  function ApplyDisplay(s: DisplaySettings, config: JsonObject): (r: DisplaySettings)
    requires DisplayWellTyped(config)
    ensures DisplayKey !in config ==> r == s
    ensures DisplayKey in config ==>
              var d := config[DisplayKey].members;
              && (r.useAdvancedTooltip <==> UseAdvancedTooltipKey !in d || d[UseAdvancedTooltipKey].b)
              && (r.useLore <==> UseLoreKey in d && d[UseLoreKey].b)
              && (BlockForBlockTextKey in d ==> r.blockForBlockText == d[BlockForBlockTextKey].s)
              && (BlockForBlockTextKey !in d ==> r.blockForBlockText == s.blockForBlockText)
              && (FreeToBreakTextKey in d ==> r.freeToBreakText == d[FreeToBreakTextKey].s)
              && (FreeToBreakTextKey !in d ==> r.freeToBreakText == s.freeToBreakText)
              && (FreeInClaimsTextKey in d ==> r.freeInClaimsText == d[FreeInClaimsTextKey].s)
              && (FreeInClaimsTextKey !in d ==> r.freeInClaimsText == s.freeInClaimsText)
  {
    if DisplayKey !in config then s
    else
      var d := config[DisplayKey].members;
      DisplaySettings(
        BoolOr(d, UseAdvancedTooltipKey, true),
        BoolOr(d, UseLoreKey, false),
        StrOr(d, BlockForBlockTextKey, s.blockForBlockText),
        StrOr(d, FreeToBreakTextKey, s.freeToBreakText),
        StrOr(d, FreeInClaimsTextKey, s.freeInClaimsText))
  }

  /** With a display section present, the two booleans do not depend on what they were before. */
  lemma DisplayBooleansReset(s: DisplaySettings, t: DisplaySettings, config: JsonObject)
    requires DisplayWellTyped(config) && DisplayKey in config
    ensures ApplyDisplay(s, config).useAdvancedTooltip == ApplyDisplay(t, config).useAdvancedTooltip
    ensures ApplyDisplay(s, config).useLore == ApplyDisplay(t, config).useLore
  {
  }

  // ---------------------------------------------------------------------------
  // Loading a whole document

  /** The state after the client reads `config`: display section first, then the three lists. */
  function Load<Block(!new)>(st: ClientState<Block>, config: JsonObject, game: Game<Block>): (r: ClientState<Block>)
    requires WellTyped(config)
    ensures r.settings == ApplyDisplay(st.settings, config)
    ensures forall c :: r.Members(c) == LoadList(st.Members(c), config, c.ListKey(), game)
  {
    ClientState(
      LoadList(st.blockForBlock, config, BlockForBlockListKey, game),
      LoadList(st.freeToBreak, config, FreeToBreakListKey, game),
      LoadList(st.freeInClaims, config, FreeInClaimsListKey, game),
      ApplyDisplay(st.settings, config))
  }

  /** Reading the same document twice leaves the client as reading it once does. */
  lemma LoadIdempotent<Block(!new)>(st: ClientState<Block>, config: JsonObject, game: Game<Block>)
    requires WellTyped(config)
    ensures Load(Load(st, config, game), config, game) == Load(st, config, game)
  {
  }

  /** The document the client writes when no configuration file exists. */
  function DefaultDocument(): (d: JsonObject)
    ensures WellTyped(d)
    ensures DisplayKey in d && BlockForBlockListKey in d && FreeToBreakListKey in d && FreeInClaimsListKey in d
    ensures ApplyDisplay(InitialSettings(), d)
            == DisplaySettings(true, false, "§cBlock for Block", "§aFree to Break", "§bFree in Claims")
    ensures d[BlockForBlockListKey].items == ["minecraft:stone", "minecraft:iron_ore"]
    ensures d[FreeToBreakListKey].items == ["minecraft:dirt", "minecraft:sand"]
    ensures d[FreeInClaimsListKey].items == ["minecraft:grass_block", "minecraft:gravel"]
  {
    map[
      DisplayKey := Obj(map[
        UseAdvancedTooltipKey := Bool(true),
        UseLoreKey := Bool(false),
        BlockForBlockTextKey := Str("§cBlock for Block"),
        FreeToBreakTextKey := Str("§aFree to Break"),
        FreeInClaimsTextKey := Str("§bFree in Claims")]),
      BlockForBlockListKey := StrArray(["minecraft:stone", "minecraft:iron_ore"]),
      FreeToBreakListKey := StrArray(["minecraft:dirt", "minecraft:sand"]),
      FreeInClaimsListKey := StrArray(["minecraft:grass_block", "minecraft:gravel"])]
  }

  /**
    A first start without a configuration file: the settings become those of
    the default document, whose FreeInClaims label differs from the field's
    initial value by a trailing "s".
   */
  lemma FirstStartSettings<Block(!new)>(game: Game<Block>)
    ensures Load(Initial(), DefaultDocument(), game).settings
            == DisplaySettings(true, false, "§cBlock for Block", "§aFree to Break", "§bFree in Claims")
    ensures Initial<Block>().settings.freeInClaimsText != Load(Initial(), DefaultDocument(), game).settings.freeInClaimsText
  {
  }
}
