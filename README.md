# Block4Block block-status tooltips, modelled in Dafny

The Block4Block client mod labels block items in the game's tooltips. It keeps
three sets of blocks: "Block for Block", "Free to Break" and "Free in Claims".
It also keeps five display settings: two booleans (`useAdvancedTooltip`,
`useLore`) and one label text per category. At start-up it reads
`blockstatus.json`. When that file does not exist, it first writes a default
document. Then, for every tooltip, it appends the label of the first category
whose set holds the item's block.

The project has four modules:

- `Wrappers` (`wrappers.dfy`): `Option`, which stands for Java's `null`.
- `Json` (`json.dfy`): the parsed configuration document. A `JsonObject` maps
  keys to booleans, strings, string arrays or nested objects.
- `BlockStatus` (`block_status.dfy`): the value-level specification.
  - The categories and their precedence.
  - The display settings and the client's abstract state.
  - `Classify` and `Label`, the if/else chain of the tooltip handler lifted
    into a pure function.
  - `Resolved` and `LoadList`, which say what loading a block list adds.
  - `ApplyDisplay`, the effect of the `display` section.
  - `Load`, the effect of a whole document.
  - The default document, and lemmas relating all of these.
- `BlockStatusClient` (`client.dfy`): the client object as a class.
  - The three `final` sets are `const` fields. Each holds a `BlockSet` object
    that `LoadBlockList` changes in place, as the Java `HashSet`s are changed.
  - The five settings are fields that `LoadConfig` assigns one at a time.
  - `OnTooltip` appends to a caller-owned `TooltipList`.
  - Every method is proved against the functions of `BlockStatus`.

The game's collaborators are parameters of the model:

- `Identifier.tryParse` is a function `string -> Option<Identifier>`.
- The block registry is a partial `map<Identifier, Block>`. An identifier it
  does not hold is the `null` the code checks for.
- `Block.getBlockFromItem` is a function `Item -> Option<Block>`.
- Blocks and items are type parameters.

## Model

| member | source | states |
|---|---|---|
| `BlockStatus.Initial` | src/client/java/hasjamon/block4block/Block4BlockModClient.java:25-34 | The client starts with every category's set empty, `useAdvancedTooltip` true, `useLore` false and the three built-in texts, the freeInClaims one being "§bFree in Claim". |
| `BlockStatus.Classify` | src/client/java/hasjamon/block4block/Block4BlockModClient.java:53-59 | The chosen category's set holds the block, and no category of lower rank holds it. No category is chosen exactly when none of the three sets holds the block. |
| `BlockStatus.Label` | src/client/java/hasjamon/block4block/Block4BlockModClient.java:52-59 | A block in the BlockForBlock set gets the BlockForBlock text, whatever else holds it. Otherwise a block in the freeToBreak set gets the freeToBreak text. The freeInClaims text is chosen only when the block is in neither earlier set. There is no label exactly when no set holds the block. |
| `BlockStatus.ClassifyIsFirstMatch` | src/client/java/hasjamon/block4block/Block4BlockModClient.java:53-58 | The classification equals a first-match scan over BlockForBlock, freeToBreak, freeInClaims, in the order the handler checks them. |
| `BlockStatus.ResolveEntry` | src/client/java/hasjamon/block4block/Block4BlockModClient.java:166-176 | An entry contributes no block exactly when it does not parse or the registry has no block for its identifier. Otherwise it contributes the block the registry maps its identifier to. |
| `BlockStatus.Resolved` | src/client/java/hasjamon/block4block/Block4BlockModClient.java:163-180 | A block is contributed by a list exactly when some entry parses to an identifier that the registry maps to that block. Every contributed block comes from the registry. |
| `BlockStatus.ResolvedAppend` | src/client/java/hasjamon/block4block/Block4BlockModClient.java:163-180 | The blocks of a list are the union of the blocks of its two halves: the entries are processed independently of each other. |
| `BlockStatus.LoadList` | src/client/java/hasjamon/block4block/Block4BlockModClient.java:159-181 | An absent list leaves the set unchanged. Nothing is removed, and only registry blocks are added. A present list yields the old set plus exactly the blocks its valid entries name. |
| `BlockStatus.LoadListIdempotent` | src/client/java/hasjamon/block4block/Block4BlockModClient.java:163-180 | Loading the same list twice gives the set that loading it once gives. |
| `BlockStatus.ApplyDisplay` | src/client/java/hasjamon/block4block/Block4BlockModClient.java:89-97 | Without a `display` section, no setting changes. With one: `useAdvancedTooltip` is the configured value, or true when the key is absent. `useLore` is the configured value, or false when absent. Each text takes its key's value when present and keeps its old value otherwise. |
| `BlockStatus.DisplayBooleansReset` | src/client/java/hasjamon/block4block/Block4BlockModClient.java:91-92 | When a `display` section exists, the two booleans after loading do not depend on their previous values. |
| `BlockStatus.Load` | src/client/java/hasjamon/block4block/Block4BlockModClient.java:89-102 | Reading a document applies its display section to the settings. Each category's set is loaded from that category's own list and from no other. |
| `BlockStatus.LoadIdempotent` | src/client/java/hasjamon/block4block/Block4BlockModClient.java:89-102 | Reading the same document twice leaves the client in the state that reading it once does. |
| `BlockStatus.DefaultDocument` | src/client/java/hasjamon/block4block/Block4BlockModClient.java:122-144 | The document written when no file exists is well typed and has a display section and all three lists. Its display section turns the initial settings into true, false, "§cBlock for Block", "§aFree to Break" and "§bFree in Claims". Each list holds exactly its two example identifiers, in order. |
| `BlockStatus.FirstStartSettings` | src/client/java/hasjamon/block4block/Block4BlockModClient.java:30-34 | On a first start, the default document turns the settings into its own values. Its freeInClaims text "§bFree in Claims" differs from the field's initial "§bFree in Claim". |
| `BlockStatusClient.Block4BlockModClient.constructor` | src/client/java/hasjamon/block4block/Block4BlockModClient.java:25-34 | The client starts with three distinct, empty sets and the built-in settings. |
| `BlockStatusClient.Block4BlockModClient.OnTooltip` | src/client/java/hasjamon/block4block/Block4BlockModClient.java:44-60 | With a null item or a null block, the list is unchanged. Otherwise the block's label, if it has one, is appended. At most one line is added, and the existing lines keep their order and content. |
| `BlockStatusClient.Block4BlockModClient.AddTooltip` | src/client/java/hasjamon/block4block/Block4BlockModClient.java:66-68 | Exactly one line, the given text, is appended at the end. |
| `BlockStatusClient.Block4BlockModClient.LoadConfig` | src/client/java/hasjamon/block4block/Block4BlockModClient.java:79-102 | The new state is `Load` of the old state and the document: the display section applied to the settings, and each set loaded from its own list and from no other. The document is the default one when no file exists. |
| `BlockStatusClient.Block4BlockModClient.LoadBlockList` | src/client/java/hasjamon/block4block/Block4BlockModClient.java:159-181 | The given set becomes `LoadList` of its old contents. The other two sets and all five settings are unchanged. |

## Left out

- File-system work in `loadConfig` and `createDefaultConfig` is not modelled: creating the directory, reading and writing the file, and Gson (de)serialisation. `LoadConfig` takes the parsed file, or `None` when no file exists, in which case it reads the default document. An `IOException` while writing or reading the file, which leaves the state unchanged, is not modelled.
- `LoadConfig`: requires a well-typed document. In the code, a non-object `display`, a non-array list, or a value of the wrong kind throws an exception that escapes the `IOException` handler. Gson's lenient conversions (such as `getAsBoolean` on a string) are not modelled either. A null document (an empty file) is excluded in the same way.
- The rules of `Identifier.tryParse`, the registry's contents and `Block.getBlockFromItem` are game library code. They are parameters of the model. The `catch (Exception e)` around one entry only skips that entry. The model skips every entry that does not resolve, so that path needs no separate case.
- The registry is modelled as a partial map, following the code's null check. The game's registry may answer unknown identifiers with a default block instead of null; that behaviour is outside the model.
- Fabric event registration in `onInitializeClient` is not modelled. `OnTooltip` is the callback body as an ordinary method. The tooltip context and type arguments are unused by the code and are dropped.
- Tooltip lines are strings. `Text.literal` rendering and formatting codes are not interpreted.
- `useAdvancedTooltip` and `useLore` are only stored. The code never reads them when building a tooltip.
- Console diagnostics (`println`, `printStackTrace`, the per-entry error messages and the loaded-count summary) are not modelled.
- `src/main/java/hasjamon/block4block/YamlHelper.java` is not part of this model. It is a wrapper around a YAML library and a file writer.
