# Diagram store — a Dafny model

This project models the core of diagram-ui, a canvas for building document-processing workflows. The model has three parts:

- **The diagram store** (`src/store/useDiagramStore.ts`). It holds the ordered list of blocks, the list of connections, the selected block and a drag flag. It offers these operations:
  - add, remove, move and edit blocks;
  - reorder and respace the blocks;
  - validate, create and delete connections;
  - an "auto-connect" pass that chains the blocks in row order.
- **The diagram vocabulary** (`src/types/diagram.ts`). This covers the block and connection records, the compatibility table `VALID_CONNECTIONS` (which block type may feed which) and the per-type input/output limits `BLOCK_IO`.
- **The block catalogue** (`src/data/block.ts`). This covers the user-facing definitions of the block types and block states, and the lookups over them.

Each block carries the lists `inputs` and `outputs`, which hold the ids of its neighbours. They are meant to mirror the connection list. The central predicate of the model is `Links.Linked`: every block's `inputs` and `outputs` are exactly the sources and targets the connection list gives it. The model shows which operations keep this predicate (`addBlock`, `connectBlocks`, `reorderBlocks`, `updateBlockState`, `updateBlockConfig`), which one establishes it (`autoConnectBlocks`), and which two break it: `removeBlock` and `updateBlockPosition` both leave ids in the blocks' lists that no connection backs any more.

Modules:

| module | file | models |
|---|---|---|
| `Sequences` | sequences.dfy | `find` and `filter` on arrays; `undefined` as `Option` |
| `DiagramTypes` | diagram_types.dfy | `src/types/diagram.ts` |
| `Links` | links.dfy | block lookup, `canConnectBlocks`, the `inputs`/`outputs` bookkeeping of `connectBlocks` and `removeConnection`, and the filters of `removeBlock` |
| `Layout` | layout.dfy | the stable sort by row and the respacing of `reorderBlocks` and `removeBlock` |
| `AutoConnect` | auto_connect.dfy | `autoConnectBlocks` as functions: the chain of connections and the relinking of blocks |
| `DiagramStore` | diagram_store.dfy | the store as a class `Store` with one method per store action, plus the per-block updates |
| `BlockDefinitions` | block_definitions.dfy | `src/data/block.ts` |

The store mutates its state, so it is modelled as a class. Its fields are `blocks`, `connections`, `selectedBlockId` and `isDragging`. Each action is a method whose `ensures` gives the whole new state as a function of the old state. The invariant `Valid()` (block ids are unique) is kept by every action. The methods also state which further invariants they keep or establish:

- `Linked` is kept by `AddBlock`, `ReorderBlocks`, `UpdateBlockState`, `UpdateBlockConfig` and `ConnectBlocks`, and established by `AutoConnectBlocks` (two or more blocks).
- `WithinCapacity` (no block exceeds its type's limits) is kept by `AddBlock`, `ReorderBlocks`, `RemoveBlock`, `UpdateBlockPosition`, `UpdateBlockState`, `UpdateBlockConfig` and `ConnectBlocks`. `AutoConnectBlocks` ignores the limits and does not keep it.
- `RowsIncreasing` (rows strictly increase along the list) is kept by `AddBlock` and established by `ReorderBlocks`, `RemoveBlock` and `UpdateBlockPosition`.

The loop of `autoConnectBlocks` is a `while` loop with invariants, and it is proved equal to the function `ChainConnections`.

Where the code does less than its comments or its sibling files suggest, this model follows the code:

- `addBlock` never connects the new block to the previous one, although its comment (`src/store/useDiagramStore.ts:70`) says it does. The code asks `canConnectBlocks` before the new block is stored, so the answer is always no (`DiagramStore.Store.AddBlock` has `assert false` in that branch).
- `removeBlock` does not clean the survivors' `inputs`/`outputs` (`DiagramStore.RemoveBlockLeavesStaleIds`).
- The store's blocks take the four states of `src/types/diagram.ts` (`idle`, `running`, `finished`, `error`). The `paused` state that `src/types/blocks.ts` and the UI components declare is not among them, so the model has no `paused` state.
- The catalogue in `src/data/block.ts` has its own vocabulary: five block types (no `end`) and six states (`editing` … `checkpoint`). `BlockDefinitions` therefore declares its own `BlockType` and `BlockState`.
- `VALID_CONNECTIONS` lists `condition → trigger`. A trigger takes no input, so `connectBlocks` can never make that connection (`DiagramTypes.TriggerListedButClosed`, `Links.CanConnectNeverIntoTrigger`). `autoConnectBlocks` ignores the table and can chain a condition into a trigger (`AutoConnect.AutoConnectIgnoresTable` shows the same for two `end` blocks).

## Model

| member | source | states |
|---|---|---|
| Sequences.Find | src/store/useDiagramStore.ts:238-239 | `find` returns the first element satisfying the predicate, and `None` exactly when there is none |
| Sequences.Filter | src/store/useDiagramStore.ts:178-181 | `filter` keeps exactly the elements satisfying the predicate, and never grows the list |
| Sequences.FilterConcat | src/store/useDiagramStore.ts:178-181 | filtering distributes over concatenation |
| DiagramTypes.ValidConnections | src/types/diagram.ts:44-51 | no type may feed its own type, and only `end` may feed nothing |
| DiagramTypes.BlockIO | src/types/diagram.ts:54-62 | at most one input and two outputs; two outputs exactly for `condition`, no outputs exactly for `end`, no inputs exactly for `trigger` |
| DiagramTypes.TriggerListedButClosed | src/types/diagram.ts:48-56 | `condition → trigger` is in the table, yet a trigger has no input to offer |
| DiagramTypes.TriggerExtractionActionPermitted | src/types/diagram.ts:45-46 | the pipeline `trigger → extraction → action` is allowed by the table |
| Links.FindBlock | src/store/useDiagramStore.ts:238-239 | the lookup returns the first block with the id, and `None` exactly when no block has it |
| Links.FindBlockUnique | src/store/useDiagramStore.ts:238-239 | with unique ids, looking up a block's id returns that very block |
| Links.CanConnect | src/store/useDiagramStore.ts:236-255 | a connection is accepted only between two distinct blocks that are both present |
| Links.CanConnectAt | src/store/useDiagramStore.ts:236-255 | for present blocks, acceptance holds exactly when the target type is in the source type's table entry, the source has a free output and the target has a free input |
| Links.CanConnectNeverFromEnd | src/store/useDiagramStore.ts:244-251 | an `end` block is never accepted as a source |
| Links.CanConnectNeverIntoTrigger | src/store/useDiagramStore.ts:249-252 | a `trigger` block is never accepted as a target |
| Links.SourcesOfMembers | src/store/useDiagramStore.ts:132-134 | the derived inputs of a block are exactly the sources of the connections into it |
| Links.TargetsOfMembers | src/store/useDiagramStore.ts:128-130 | the derived outputs of a block are exactly the targets of the connections out of it |
| Links.SourcesOf | src/store/useDiagramStore.ts:132-134 | the derived inputs of a block: the sources of the connections into it, in connection order; never longer than the connection list (membership in `Links.SourcesOfMembers`) |
| Links.TargetsOf | src/store/useDiagramStore.ts:128-130 | the derived outputs of a block: the targets of the connections out of it, in connection order; never longer than the connection list (membership in `Links.TargetsOfMembers`) |
| Links.LinksOfConcat | src/store/useDiagramStore.ts:128-134 | derived inputs and outputs distribute over concatenation of connection lists |
| Links.AttachEdge | src/store/useDiagramStore.ts:269-277 | the source gains the target among its outputs, the target gains the source among its inputs; every other block and field is unchanged |
| Links.ConnectKeepsLinked | src/store/useDiagramStore.ts:267-278 | appending a connection and attaching its endpoints keeps `inputs`/`outputs` in sync with the connections |
| Links.ConnectAddsNoParallel | src/store/useDiagramStore.ts:251-252 | while lists are in sync, an accepted connection never duplicates an existing edge between the same blocks |
| Links.ConnectKeepsCapacity | src/store/useDiagramStore.ts:248-252 | an accepted connection keeps every block within its type's limits |
| Links.Without | src/store/useDiagramStore.ts:294-300 | `filter((id) => id !== x)` keeps exactly the ids different from `x` |
| Links.DetachEdge | src/store/useDiagramStore.ts:290-304 | the source loses the target from its outputs, the target loses the source from its inputs; every other block and field is unchanged |
| Links.FindConnection | src/store/useDiagramStore.ts:285-286 | the lookup returns the first connection with the id, and `None` exactly when there is none |
| Links.DropConnection | src/store/useDiagramStore.ts:289 | exactly the connections with other ids remain |
| Links.DropConnectionsOf | src/store/useDiagramStore.ts:179-181 | exactly the connections touching neither end at the removed block remain |
| Links.DropConnectionsOfCount | src/store/useDiagramStore.ts:179-181 | without self-loops, the surviving connections plus the derived inputs and outputs of the removed id add up to the whole connection list |
| Links.WithoutBlock | src/store/useDiagramStore.ts:178 | exactly the blocks with other ids remain, so no block has the removed id |
| Links.DropConnectionTargets | src/store/useDiagramStore.ts:289-296 | dropping a connection id changes only the derived outputs of its source, by removing its target |
| Links.DropConnectionSources | src/store/useDiagramStore.ts:289-302 | dropping a connection id changes only the derived inputs of its target, by removing its source |
| Links.RemoveConnectionKeepsLinked | src/store/useDiagramStore.ts:283-307 | removing a connection keeps `inputs`/`outputs` in sync, provided its id names exactly the edges between its endpoints |
| Layout.InsertByRow | src/store/useDiagramStore.ts:152-154 | inserting adds exactly one block, as a permutation |
| Layout.InsertKeepsSorted | src/store/useDiagramStore.ts:152-154 | inserting into a row-sorted list keeps it sorted |
| Layout.InsertAtRow | src/store/useDiagramStore.ts:152-154 | the inserted block goes in front of the blocks already on its row |
| Layout.SortByRow | src/store/useDiagramStore.ts:152-154 | the sort by row returns a sorted permutation of its input that keeps same-row blocks in their original order (a stable sort) |
| Layout.SortedIsFixed | src/store/useDiagramStore.ts:92-94 | sorting a list already in row order changes nothing |
| Layout.SortIdempotent | src/store/useDiagramStore.ts:204-206 | sorting twice equals sorting once |
| Layout.InsertKeepsUniqueIds | src/store/useDiagramStore.ts:152-154 | inserting a block with a new id keeps ids unique |
| Layout.SortKeepsUniqueIds | src/store/useDiagramStore.ts:152-154 | sorting keeps ids unique |
| Layout.SortSameKeys | src/store/useDiagramStore.ts:92-94 | the order of ids after sorting depends only on ids and rows |
| Layout.Respace | src/store/useDiagramStore.ts:157-163 | block `i` moves to row `5 + 8·i` of column 10; order and every other field stay |
| Layout.RespacedRowsIncrease | src/store/useDiagramStore.ts:185-191 | a respaced list has strictly increasing rows |
| Layout.RespaceKeepsUniqueIds | src/store/useDiagramStore.ts:185-191 | respacing keeps ids unique |
| Layout.ReorderIdempotent | src/store/useDiagramStore.ts:150-173 | running the reorder twice gives the same layout as running it once |
| AutoConnect.ChainLink | src/store/useDiagramStore.ts:111-115 | the forced link between two consecutive blocks runs from the first to the second, has no condition and no branch flag, and its id `conn-<source>-<target>` is 6 characters longer than the two block ids together |
| AutoConnect.ChainConnections | src/store/useDiagramStore.ts:102-120 | `n − 1` connections, the `k`-th from block `k` to block `k+1` of the row order, with id `conn-<source>-<target>` |
| AutoConnect.ChainIdsMayCollide | src/store/useDiagramStore.ts:111-115 | for block ids of different lengths the id template is ambiguous: `a → b-c` and `a-b → c` both get the id `conn-a-b-c` while joining different blocks |
| AutoConnect.ChainIdDeterminesEnds | src/store/useDiagramStore.ts:111-115 | when the two sources' ids have the same length, equal link ids mean equal sources and equal targets |
| AutoConnect.ChainIdsUnique | src/store/useDiagramStore.ts:102-120 | over blocks with unique ids of one length, no two chain links share an id, and a link's id names exactly the links between its endpoints |
| AutoConnect.Relink | src/store/useDiagramStore.ts:123-142 | after relinking, every block's `inputs`/`outputs` mirror the new connections; its other fields and its place are unchanged |
| AutoConnect.ChainAvoids | src/store/useDiagramStore.ts:102-120 | an id that no block has is never an endpoint of the chain |
| AutoConnect.ChainHead | src/store/useDiagramStore.ts:102-120 | the first block of the chain feeds only the second one and is fed by none |
| AutoConnect.ChainNeighbours | src/store/useDiagramStore.ts:102-142 | with unique ids, the block at position `k` has exactly its predecessor as input and its successor as output |
| AutoConnect.RelinkKeepsUniqueIds | src/store/useDiagramStore.ts:127-141 | relinking keeps ids unique |
| AutoConnect.AutoConnectNeighbours | src/store/useDiagramStore.ts:82-148 | after the pass, each block is linked exactly to its neighbours in the stable row order |
| AutoConnect.ChainSameKeys | src/store/useDiagramStore.ts:102-120 | the chain depends only on the ids in order |
| AutoConnect.AutoConnectIdempotent | src/store/useDiagramStore.ts:82-148 | a second pass yields the same connections and the same blocks |
| AutoConnect.AutoConnectIgnoresTable | src/store/useDiagramStore.ts:110-115 | the pass chains two `end` blocks even though validation would refuse that edge |
| DiagramStore.UpperCase | src/store/useDiagramStore.ts:60 | `toUpperCase` restricted to ASCII: a lower-case ASCII letter becomes its upper-case letter, any other character is unchanged (exact for the six lower-case type names :60 passes it) |
| DiagramStore.Capitalize | src/store/useDiagramStore.ts:60 | same length; the first character upper-cased, the rest unchanged |
| DiagramStore.Label | src/store/useDiagramStore.ts:60 | the type name with an upper-case first letter, followed by " Block" |
| DiagramStore.NextPosition | src/store/useDiagramStore.ts:48-54 | a new block goes in column 10, at row 5 in an empty diagram and otherwise 8 rows below the last block of the list |
| DiagramStore.BlockLabel | src/store/useDiagramStore.ts:60 | a new block's label is its capitalised type name followed by " Block", e.g. "Trigger Block" |
| DiagramStore.AppendKeepsRowsIncreasing | src/store/useDiagramStore.ts:48-54 | placing a new block 8 rows below the last one keeps rows strictly increasing |
| DiagramStore.UnmentionedHasNoLinks | src/store/useDiagramStore.ts:56-63 | an id that no connection mentions has no derived inputs or outputs, so a fresh empty block is in sync |
| DiagramStore.SameLinksKeepInvariants | src/store/useDiagramStore.ts:218-234 | an update that changes neither ids, types nor `inputs`/`outputs` keeps ids unique, lists in sync and blocks within their limits |
| DiagramStore.ReorderKeepsInvariants | src/store/useDiagramStore.ts:150-173 | sorting and respacing keep `inputs`/`outputs` in sync and blocks within their limits |
| DiagramStore.SetPosition | src/store/useDiagramStore.ts:199-201 | only the position of the block with the id changes |
| DiagramStore.SetState | src/store/useDiagramStore.ts:218-224 | only the state of the block with the id changes |
| DiagramStore.MergeConfig | src/store/useDiagramStore.ts:226-234 | shallow merge: the block's keys become the union, new keys take the new values, other keys keep theirs, other blocks are unchanged |
| DiagramStore.WithoutAbsentBlock | src/store/useDiagramStore.ts:178 | removing an id that no block has changes nothing |
| DiagramStore.WithoutBlockAt | src/store/useDiagramStore.ts:178 | with unique ids, removing the block at `i` leaves the other blocks in their order |
| DiagramStore.WithoutBlockKeepsUniqueIds | src/store/useDiagramStore.ts:178 | removal keeps ids unique |
| DiagramStore.Store.constructor | src/store/useDiagramStore.ts:40-44 | the store starts with no blocks, no connections, no selection and no drag |
| DiagramStore.Store.CanConnectBlocks | src/store/useDiagramStore.ts:236-255 | the answer is the validation of the current blocks |
| DiagramStore.Store.AddBlock | src/store/useDiagramStore.ts:46-80 | appends an idle, unconnected block labelled after its type, 8 rows below the last block (or at row 5), column 10; connections unchanged; ids unique, sync, limits and increasing rows kept |
| DiagramStore.Store.AutoConnectBlocks | src/store/useDiagramStore.ts:82-148 | with fewer than two blocks nothing changes; otherwise the connections become the chain over the row order and every block is relinked to them, in sync |
| DiagramStore.Store.ReorderBlocks | src/store/useDiagramStore.ts:150-173 | blocks become the respaced stable row sort, so rows strictly increase; connections unchanged; sync and limits kept |
| DiagramStore.Store.RemoveBlock | src/store/useDiagramStore.ts:175-195 | blocks become the respaced survivors in their order, so rows strictly increase; connections lose every edge touching the id; limits kept |
| DiagramStore.Store.UpdateBlockPosition | src/store/useDiagramStore.ts:197-216 | blocks become the respaced row sort after the move, so rows strictly increase; all connections are cleared; limits kept |
| DiagramStore.Store.UpdateBlockState | src/store/useDiagramStore.ts:218-224 | only that block's state changes; sync and limits kept |
| DiagramStore.Store.UpdateBlockConfig | src/store/useDiagramStore.ts:226-234 | only that block's config changes, by shallow merge; sync and limits kept |
| DiagramStore.Store.ConnectBlocks | src/store/useDiagramStore.ts:257-281 | returns the validation result; on success one connection is appended and both endpoints record each other; on failure nothing changes; sync and capacity are kept |
| DiagramStore.Store.RemoveConnection | src/store/useDiagramStore.ts:283-307 | an unknown id changes nothing; otherwise connections with that id go and the endpoints drop each other |
| DiagramStore.Store.SetSelectedBlock | src/store/useDiagramStore.ts:309 | only the selection changes |
| DiagramStore.Store.SetIsDragging | src/store/useDiagramStore.ts:310 | only the drag flag changes |
| DiagramStore.PipelineScenario | src/store/useDiagramStore.ts:46-148 | adding trigger, extraction and action creates no connection; auto-connect then creates two, with the trigger feeding the extraction and the extraction feeding the action |
| DiagramStore.AttachAt | src/store/useDiagramStore.ts:269-277 | with unique ids, connecting the blocks at `i` and `j` changes those two blocks only |
| DiagramStore.FullSourceRefuses | src/store/useDiagramStore.ts:251 | a block with no free output refuses every further connection |
| DiagramStore.ConditionAccepts | src/store/useDiagramStore.ts:236-277 | a condition block with a free output accepts a permitted target with a free input, and the edge changes those two blocks only |
| DiagramStore.ConditionFanOut | src/store/useDiagramStore.ts:244-252 | a condition block accepts two permitted targets and is then at its limit of two outputs |
| DiagramStore.RemoveBlockLeavesStaleIds | src/store/useDiagramStore.ts:175-195 | after removing a block, a survivor that fed it still lists the removed id among its outputs, so the lists no longer mirror the connections |
| DiagramStore.RemoveBlockConnectionCount | src/store/useDiagramStore.ts:179-181 | while lists are in sync and no connection loops, removing a block drops exactly as many connections as it has inputs plus outputs (one of each: two) |
| DiagramStore.UpdatePositionLeavesStaleIds | src/store/useDiagramStore.ts:197-216 | after a move, a block that had outputs still lists them although every connection is gone, so the lists no longer mirror the connections |
| BlockDefinitions.Examples | src/data/block.ts:38-104 | each catalogue entry carries four examples |
| BlockDefinitions.TypesListedOnce | src/data/block.ts:38-104 | the type catalogue lists each of the five types once, in declaration order |
| BlockDefinitions.StatesListedOnce | src/data/block.ts:105-132 | the state catalogue lists each of the six states once |
| BlockDefinitions.GetBlockTypeDefinition | src/data/block.ts:136-142 | the lookup returns a catalogue entry for the type, and `None` exactly when the catalogue has none |
| BlockDefinitions.GetBlockStateDefinition | src/data/block.ts:144-150 | the lookup returns a catalogue entry for the state, and `None` exactly when the catalogue has none |
| BlockDefinitions.TypeDefinitionAt | src/data/block.ts:136-142 | every catalogued type finds its own entry |
| BlockDefinitions.StateDefinitionAt | src/data/block.ts:144-150 | every catalogued state finds its own entry |
| BlockDefinitions.EveryStateDefined | src/data/block.ts:144-150 | the state lookup never comes back empty |
| BlockDefinitions.GetBlockColor | src/data/block.ts:152-155 | the entry's colour, or `#cccccc` when the type has no entry |
| BlockDefinitions.GetBlockExamples | src/data/block.ts:157-160 | the entry's examples, or none when the type has no entry |
| BlockDefinitions.TypeColors | src/data/block.ts:152-155 | trigger `#3498db`, extraction `#9b59b6`, generation `#2ecc71`, condition `#f39c12`, action `#e74c3c` |
| BlockDefinitions.ColorNeverDefault | src/data/block.ts:152-155 | the grey fallback colour is never returned |
| BlockDefinitions.TypeExamples | src/data/block.ts:157-160 | every type gets its four examples, never the empty fallback |
| BlockDefinitions.ColorsDistinct | src/data/block.ts:152-155 | distinct types get distinct colours |

## Left out

- `canConnectBlocks` as written is not modelled; the model takes the evidently intended limit table instead. The store imports `MAX_CONNECTIONS` (`src/store/useDiagramStore.ts:10`), but `src/types/diagram.ts` defines no such name; the limit table it exports is `BLOCK_IO` (:54). As written, the reads at `src/store/useDiagramStore.ts:248-249` are a type error, and in a build that ignores type errors they throw on `undefined` for every pair of present blocks that passes the table check at :245, so `connectBlocks` could never succeed. `Links.CanConnect` reads the limits from `BLOCK_IO`, which has the shape the code expects (`inputs` and `outputs` per type).
- Id generation (`nanoid`) is not modelled. Fresh ids are parameters:
  - `AddBlock` takes a block id that no block and no connection uses. It may have any length, whereas `nanoid()` ids all have 21 characters;
  - `ConnectBlocks` takes a connection id that no connection uses.
- DiagramStore.UpperCase: it models `toUpperCase` only on ASCII; the real one also maps non-ASCII letters (`é` to `É`, `ß` to `SS`). The store applies it only to the first letter of the six lower-case type names, all ASCII.
- `console.log` output is not modelled.
- The Zustand `set`/`get` machinery and React subscriptions are not modelled. Each action is one method call on the store object.
- `reorderBlocks` schedules `autoConnectBlocks` on a zero-delay timer. That call is not part of `ReorderBlocks`: a caller runs `AutoConnectBlocks` separately. Timers and interleaving are not modelled.
- `updateBlockPosition` triggers the same timer through `reorderBlocks`. Its model stops with the connections cleared. Until the timer fires, the blocks' `inputs`/`outputs` still list the old neighbours.
- Pixel coordinates `x`/`y` of a position are not modelled. The store reads and writes only `row` and `column`, so a position is `(row, column)`.
- Positions whose `row` is missing are not modelled. In the source, the sort comparator would then compute `NaN`.
- Rows are unbounded integers. JavaScript numbers are floating point, so very large rows are not modelled.
- The sort comparator is modelled as a stable sort by row, as `Array.prototype.sort` is required to be.
- Configuration values (`unknown` in the source) are a small `ConfigValue` datatype: text, integer or flag.
- The `condition` and `isTrueBranch` fields of a connection are carried along. No operation of the store sets them.
- The descriptions of the catalogue entries are not fields of `BlockTypeDefinition`/`BlockStateDefinition`. They are kept as the functions `BlockDefinitions.TypeDescription` and `BlockDefinitions.StateDescription`. No lookup reads them, and keeping long text out of the records keeps the proofs small.
- DiagramStore.Store.RemoveConnection: it does not state that the lists stay in sync in general. `Links.RemoveConnectionKeepsLinked` states it when the connection id names exactly the edges between its two endpoints. That condition fails in two ways:
  - A duplicate edge under another id. `autoConnectBlocks` never makes one. Removing one id would drop both entries from the lists.
  - Two connections sharing one id but joining different blocks. The code drops every connection with the id (`src/store/useDiagramStore.ts:289`) but detaches only the endpoints of the first match (:285, :291-301), so the second connection's endpoints would keep stale ids. Such a collision of `autoConnectBlocks` ids needs block ids of different lengths (`AutoConnect.ChainIdsMayCollide`). `nanoid()` (:57) always returns ids of one length, and for those the chain ids are unique (`AutoConnect.ChainIdsUnique`), so the store itself never reaches this case. The model reaches it only because its fresh block id parameter accepts strings of any length.
- DiagramStore.Store.RemoveBlock and DiagramStore.Store.UpdateBlockPosition: they do not claim that the lists stay in sync, because the code leaves stale ids behind (`DiagramStore.RemoveBlockLeavesStaleIds`, `DiagramStore.UpdatePositionLeavesStaleIds`).
