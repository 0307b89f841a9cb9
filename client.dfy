/**
  The client object itself: three block sets updated in place, five display
  settings assigned field by field, and the tooltip handler that appends to
  the caller's list.
 */
module BlockStatusClient {
  import opened Wrappers
  import opened Json
  import opened BlockStatus

  /** A `HashSet<Block>` the client owns and hands to the loader by reference. */
  class BlockSet<Block(==)> {
    var elems: set<Block>

    constructor ()
      ensures elems == {}
    {
      elems := {};
    }
  }

  /** The tooltip lines of one item, as the game passes them to the handler. */
  class TooltipList {
    var lines: seq<string>

    constructor (lines: seq<string>)
      ensures this.lines == lines
    {
      this.lines := lines;
    }
  }

  class Block4BlockModClient<Block(==,!new)> {
    const blockForBlockBlocks: BlockSet<Block>
    const freeToBreakBlocks: BlockSet<Block>
    const freeInClaimsBlocks: BlockSet<Block>

    var useAdvancedTooltip: bool
    var useLore: bool
    var blockForBlockText: string
    var freeToBreakText: string
    var freeInClaimsText: string

    /** The three sets are distinct objects, so filling one never touches another. */
    ghost predicate Valid() {
      && blockForBlockBlocks != freeToBreakBlocks
      && blockForBlockBlocks != freeInClaimsBlocks
      && freeToBreakBlocks != freeInClaimsBlocks
    }

    function Settings(): DisplaySettings
      reads this
    {
      DisplaySettings(useAdvancedTooltip, useLore, blockForBlockText, freeToBreakText, freeInClaimsText)
    }

    /** The client's abstract value. */
    function State(): ClientState<Block>
      reads this, blockForBlockBlocks, freeToBreakBlocks, freeInClaimsBlocks
    {
      ClientState(blockForBlockBlocks.elems, freeToBreakBlocks.elems, freeInClaimsBlocks.elems, Settings())
    }

    constructor ()
      ensures Valid() && State() == Initial()
      ensures fresh(blockForBlockBlocks) && fresh(freeToBreakBlocks) && fresh(freeInClaimsBlocks)
    {
      blockForBlockBlocks := new BlockSet();
      freeToBreakBlocks := new BlockSet();
      freeInClaimsBlocks := new BlockSet();
      useAdvancedTooltip := true;
      useLore := false;
      blockForBlockText := "§cBlock for Block";
      freeToBreakText := "§aFree to Break";
      freeInClaimsText := "§bFree in Claim";
    }

    /**
      The tooltip callback. `item` is the stack's item (None for null) and
      `blockFromItem` the game's item-to-block lookup (None for null). At most
      one line is appended; earlier lines are kept as they were.
     */
    method OnTooltip<Item>(item: Option<Item>, blockFromItem: Item -> Option<Block>, list: TooltipList)
      modifies list
      ensures item.None? ==> list.lines == old(list.lines)
      ensures item.Some? && blockFromItem(item.value).None? ==> list.lines == old(list.lines)
      ensures item.Some? && blockFromItem(item.value).Some? ==>
                var line := Label(blockFromItem(item.value).value, State());
                list.lines == old(list.lines) + if line.Some? then [line.value] else []
      ensures |old(list.lines)| <= |list.lines| <= |old(list.lines)| + 1
      ensures list.lines[..|old(list.lines)|] == old(list.lines)
    {
      if item.None? { return; }
      var block := blockFromItem(item.value);
      if block.None? { return; }
      var line := Label(block.value, State());
      if line.Some? {
        AddTooltip(list, line.value);
      }
    }

    /** Appends one line at the end of the tooltip. */
    method AddTooltip(list: TooltipList, text: string)
      modifies list
      ensures list.lines == old(list.lines) + [text]
    {
      list.lines := list.lines + [text];
    }

    /**
      Reads the configuration. `configFile` is the parsed file, or None when
      no file exists, in which case the default document is written and read.
     */
    method LoadConfig(configFile: Option<JsonObject>, game: Game<Block>)
      requires Valid()
      requires configFile.Some? ==> WellTyped(configFile.value)
      modifies this, blockForBlockBlocks, freeToBreakBlocks, freeInClaimsBlocks
      ensures State() == Load(old(State()), if configFile.Some? then configFile.value else DefaultDocument(), game)
    {
      ghost var before := State();
      var config := if configFile.Some? then configFile.value else DefaultDocument();
      assert WellTyped(config);

      if DisplayKey in config {
        var display := config[DisplayKey].members;
        useAdvancedTooltip := if UseAdvancedTooltipKey in display then display[UseAdvancedTooltipKey].b else true;
        useLore := if UseLoreKey in display then display[UseLoreKey].b else false;

        if BlockForBlockTextKey in display { blockForBlockText := display[BlockForBlockTextKey].s; }
        if FreeToBreakTextKey in display { freeToBreakText := display[FreeToBreakTextKey].s; }
        if FreeInClaimsTextKey in display { freeInClaimsText := display[FreeInClaimsTextKey].s; }
      }
      assert Settings() == ApplyDisplay(before.settings, config);

      LoadBlockList(config, BlockForBlockListKey, blockForBlockBlocks, game);
      LoadBlockList(config, FreeToBreakListKey, freeToBreakBlocks, game);
      LoadBlockList(config, FreeInClaimsListKey, freeInClaimsBlocks, game);
    }

    /**
      Adds to `blockSet` every block named by a valid entry of the list
      `listName`; malformed or unknown entries are skipped and nothing is
      removed. No other set and no setting changes.
     */
    method LoadBlockList(config: JsonObject, listName: string, blockSet: BlockSet<Block>, game: Game<Block>)
      requires StrArrayIfPresent(config, listName)
      modifies blockSet
      ensures blockSet.elems == LoadList(old(blockSet.elems), config, listName, game)
      ensures Settings() == old(Settings())
      ensures blockSet != blockForBlockBlocks ==> unchanged(blockForBlockBlocks)
      ensures blockSet != freeToBreakBlocks ==> unchanged(freeToBreakBlocks)
      ensures blockSet != freeInClaimsBlocks ==> unchanged(freeInClaimsBlocks)
    {
      if listName !in config { return; }

      var blockList := config[listName].items;
      for i := 0 to |blockList|
        invariant blockSet.elems == old(blockSet.elems) + Resolved(blockList[..i], game)
      {
        assert blockList[..i + 1][..i] == blockList[..i];
        var blockId := blockList[i];
        var id := game.tryParse(blockId);
        if id.None? {
          continue;
        }
        if id.value in game.blocks {
          blockSet.elems := blockSet.elems + {game.blocks[id.value]};
        }
      }
      assert blockList[..|blockList|] == blockList;
    }
  }
}
