# tilemaps — a verified model of the tile pipeline

The tilemaps tools turn slippy-map tiles around points of interest into
uploaded game assets. This Dafny project models the deterministic core of
those tools and proves properties of the model:

- **Quad-tree subdivision** (`quadtree.dfy`, module `TileQuadtree`). A `Tile`
  class with `children` and `is_leaf` updated in place. A `QuadTree` class
  grows the tree from a root: a leaf below `max_lod` is split into four
  children when a point of interest falls within one tile of it, or when its
  zoom has reached the subdivision threshold and there is at least one point.
  Each class method is proved against a pure function (`Build`) on a
  `TileTree` value, and the lemmas are about that function.
- **The tile store** (`sqlite.py` → `sqlite.dfy`, module `Sqlite`). Seven
  named tables plus the legacy `tiles` table, each a map from `(x, y, z)` to a
  text value. Upsert, load, fetch-all, delete, has and count are modelled on a
  `Database` class holding a map of maps. Opening a connection creates
  missing tables.
- **The asset handler** (`asset_handler.py` → `assets.dfy`, module `Assets`).
  JSON files in a `FileSystem` object. Each file holds the members of an
  object as written, and reading it builds the dictionary the way `json.load`
  does: a repeated key keeps its first place and takes its last value.
  The upload function and `GetOperation` are oracles that succeed or raise.
  It models `SaveTileToJSON` and the four `AssetHandler` methods.
- **The two traversal drivers.** The generation driver is
  `core/generation.py` → `generation.dfy`, module `Generation`. The tile-
  generation driver is `tile_gen.py` → `tile_gen.dfy`, module `TileGen`. They
  cover candidate selection, prior-database skipping, counters, the
  retrieve/reprocess sequence, and the asset export merge.
- **The datastore upload** (`sqlite_to_datastore.py` → `datastore.dfy`,
  module `Datastore`). It covers chunk keys, datastore names, greedy
  size-bounded chunking, the upload counters and the table filter.
- **Edge-replicating padding** (`img_utils.py` and its copy in
  `handlers/images.py` → `images.dfy`, module `Images`). Nine slice
  assignments into a new `array2` of pixels. `UploadTileImg` pads every tile
  by 16.

Shared pieces:

- `common.dfy` holds `Option`/`Result`.
- `strings.dfy` holds decimal rendering and parsing, `str.split` and the
  `"x_y_z"` tile keys.

Three behaviours of the code the model keeps as they are:

- `ReProcessMissedTiles` makes a single pass over the missed tiles and never
  deletes from the missed file (src/asset_handler.py:79-96).
- `RetrieveAssetIdTile` records a failed `GetOperation` in the missed file
  and does not raise (src/asset_handler.py:39-49).
- The quad-tree threshold test sits inside the per-point loop, so with no
  points nothing is subdivided (src/tile_quadtree/__init__.py:46-53).

## Model

| member | source | states |
|---|---|---|
| Strings.IntToString | src/asset_handler.py:14 | the decimal rendering of an integer in a key is non-empty, holds no `_`, and starts with `-` exactly for negatives |
| Strings.ParseIntToString | src/asset_handler.py:72-75 | reading back the decimal text of an integer gives the integer |
| Strings.IntToStringInjective | src/asset_handler.py:14 | distinct integers render differently |
| Strings.Split | src/asset_handler.py:72 | `str.split` always yields at least one part |
| Strings.SplitWithoutSeparator | src/asset_handler.py:72 | a string without the separator splits into itself |
| Strings.SplitAfterPart | src/asset_handler.py:72 | splitting `a + sep + b` gives `a` followed by the parts of `b` when `a` holds no separator |
| Strings.JoinSplit | src/asset_handler.py:72 | joining the parts of a split with the separator gives the string back |
| Strings.SplitTileKey | src/asset_handler.py:72-75 | splitting `"x_y_z"` on `_` yields exactly `x`, `y`, `z` when no part holds `_` |
| Strings.TileKeyOfSplit | src/asset_handler.py:72-77 | a key with three parts is rebuilt exactly from them |
| Strings.IntTileKeyInjective | src/asset_handler.py:14 | distinct integer tiles have distinct `"x_y_z"` keys |
| Sqlite.NamesDistinct | src/sqlite.py:5-14 | distinct tables have distinct names |
| Sqlite.AllTableTypesComplete | src/sqlite.py:5-14 | iterating `TableType` lists every member once |
| Sqlite.WithAllTables | src/sqlite.py:17-39 | opening a connection creates every typed table that is missing, empty, and never alters existing tables |
| Sqlite.WithAllTablesNoop | src/sqlite.py:24-36 | when all tables exist, opening a connection changes nothing |
| Sqlite.WithAllTablesIdempotent | src/sqlite.py:17-39 | opening twice is the same as opening once |
| Sqlite.Prepared | src/sqlite.py:44-64 | the target table exists after preparing (legacy `tiles` or the typed table) and other tables are untouched |
| Sqlite.SaveResult | src/sqlite.py:42-76 | an upsert sets the key in the target table only; every other table and the set of tables are as prepared |
| Sqlite.LoadResult | src/sqlite.py:79-103 | a load fails only on a missing legacy table; otherwise it returns the stored value exactly when the key is present |
| Sqlite.DeleteResult | src/sqlite.py:123-137 | delete removes exactly that key from the named table; all other keys and tables keep their values |
| Sqlite.LoadAfterSave | src/sqlite.py:66-73 | loading after saving returns the saved value |
| Sqlite.SaveTwice | src/sqlite.py:66-73 | saving a key twice equals saving the second value once, and the second save leaves the count unchanged |
| Sqlite.SaveNewKeyCount | src/sqlite.py:160-170 | saving an absent key raises the count by one |
| Sqlite.DeleteThenHas | src/sqlite.py:140-157 | after delete the key is absent; deleting an absent key changes nothing beyond creating tables |
| Sqlite.HasResultStored | src/sqlite.py:140-157 | `TableHasTile` is true exactly when the table holds the key |
| Sqlite.HasIffLoads | src/sqlite.py:100-103 | `TableHasTile` is true exactly when a load returns a value |
| Sqlite.FetchAll | src/sqlite.py:106-120 | `fetchall` yields one row per key of the table, with its value, each once |
| Sqlite.Database.constructor | src/sqlite.py:17-19 | a fresh database file holds no tables |
| Sqlite.Database.Connect | src/sqlite.py:17-39 | the new state is the old one with all typed tables created |
| Sqlite.Database.Save | src/sqlite.py:42-76 | the new state is `SaveResult` of the old |
| Sqlite.Database.Load | src/sqlite.py:79-103 | returns `LoadResult`; a typed load also creates missing tables |
| Sqlite.Database.GetAll | src/sqlite.py:106-120 | returns every row of the table once |
| Sqlite.Database.Delete | src/sqlite.py:123-137 | the new state is `DeleteResult` of the old |
| Sqlite.Database.Has | src/sqlite.py:140-157 | returns whether the key is stored |
| Sqlite.Database.Count | src/sqlite.py:160-170 | returns the number of rows of the table |
| TileQuadtree.Quadrants | src/tile_quadtree/__init__.py:55-65 | a split produces exactly four children |
| TileQuadtree.QuadrantsInOrder | src/tile_quadtree/__init__.py:55-65 | the children are `(2x,2y)`, `(2x+1,2y)`, `(2x,2y+1)`, `(2x+1,2y+1)` at `zoom+1`, all leaves, in that order |
| TileQuadtree.QuadrantsWellFormed | src/tile_quadtree/__init__.py:60-67 | a split tile is a non-leaf with four leaf children |
| TileQuadtree.SplitsAtIff | src/tile_quadtree/__init__.py:46-53 | a leaf is split iff some point is within one tile in both axes, or there is a point and the zoom is at least the threshold |
| TileQuadtree.SplitDependsOnPointSet | src/tile_quadtree/__init__.py:46-69 | whether a tile splits does not depend on the order of the points or on which point matched first |
| TileQuadtree.Build | src/tile_quadtree/__init__.py:71-77 | building keeps a tile's coordinates and zoom |
| TileQuadtree.BuildEach | src/tile_quadtree/__init__.py:76-77 | the child loop keeps the tile, its leaf flag and its number of children |
| TileQuadtree.BuildWellFormed | src/tile_quadtree/__init__.py:60-67 | after building, every node is a leaf exactly when it has no children, and has 0 or 4 |
| TileQuadtree.BuildIsBuildEach | src/tile_quadtree/__init__.py:72-77 | below `max_lod`, a leaf is subdivided first and then the children are built |
| TileQuadtree.BuildEachWellFormed | src/tile_quadtree/__init__.py:76-77 | building the children keeps the tree well formed |
| TileQuadtree.BuildExtends | src/tile_quadtree/__init__.py:73-77 | existing children are kept and a tile with children is not re-subdivided |
| TileQuadtree.BuildZoomBound | src/tile_quadtree/__init__.py:72 | building never creates a node deeper than `max_lod` when the input is within it |
| TileQuadtree.BuildSplitsLeafIff | src/tile_quadtree/__init__.py:72-74 | a leaf ends up with children iff its zoom is below `max_lod` and the split rule holds, and then it has four |
| TileQuadtree.BuildWithoutPoints | src/tile_quadtree/__init__.py:46 | with no points the tree is unchanged, whatever the threshold |
| TileQuadtree.BuildDependsOnPointSet | src/tile_quadtree/__init__.py:46-69 | the built tree depends only on the set of points |
| TileQuadtree.BuildIdempotent | src/tile_quadtree/__init__.py:71-80 | building a built tree again changes nothing |
| TileQuadtree.BuildFullGrid | src/tile_quadtree/__init__.py:51-53 | at or past the threshold with a point, a leaf becomes the complete grid down to `max_lod` |
| TileQuadtree.FullGridLeafCount | src/tile_quadtree/__init__.py:71-77 | that grid has `4^(max_lod - zoom)` leaves |
| TileQuadtree.UniformSum | src/tile_quadtree/__init__.py:76-77 | children with `n` leaves each give `children * n` leaves |
| TileQuadtree.Tile.constructor | src/tile_quadtree/__init__.py:26-32 | a new tile is a leaf with no children at the given coordinates |
| TileQuadtree.QuadTree.constructor | src/tile_quadtree/__init__.py:36-40 | the tree stores root, `max_lod`, threshold and an empty point list |
| TileQuadtree.QuadTree.AddPoint | src/tile_quadtree/__init__.py:42-43 | appends one point and keeps the earlier ones |
| TileQuadtree.QuadTree.Subdivide | src/tile_quadtree/__init__.py:45-69 | the leaf's new state is `SubdivideTile` of its old model, with fresh children |
| TileQuadtree.QuadTree.BuildTreeRecurse | src/tile_quadtree/__init__.py:71-77 | the subtree in memory becomes `Build` of the old one; new nodes are fresh |
| TileQuadtree.QuadTree.BuildChildren | src/tile_quadtree/__init__.py:76-77 | each child subtree in turn becomes its built form |
| TileQuadtree.QuadTree.BuildTree | src/tile_quadtree/__init__.py:79-80 | the whole tree becomes `Build` of the old root |
| Assets.KeySeq | src/asset_handler.py:68 | the keys in dictionary order |
| Assets.Lookup | src/asset_handler.py:69 | a key is found exactly when it is in the dictionary |
| Assets.Put | src/asset_handler.py:14 | `keys[k] = v` maps `k` to `v` and keeps the other keys; a new key is appended and an existing one keeps its position |
| Assets.PutDistinct | src/asset_handler.py:14 | assigning a key keeps the object's keys distinct |
| Assets.DecodeMeaning | src/asset_handler.py:8 | `json.load` yields an object with distinct keys, holding exactly the keys of the file, each with the value of its last occurrence |
| Assets.DecodeDistinct | src/asset_handler.py:8 | members with distinct keys are read back unchanged and in order |
| Assets.DecodeRepeatedKey | src/asset_handler.py:54 | `{"1_2_3": "op-a", "1_2_3": "op-b"}` reads as the single member `"1_2_3": "op-b"` |
| Assets.LoadDictDistinct | src/asset_handler.py:6-17 | an object read from a file has distinct keys, and an object written by `json.dump` reads back unchanged |
| Assets.SaveJson | src/asset_handler.py:5-17 | the object read back afterwards is the object read before with the key assigned: it gains or updates the key; other keys and other files are untouched; a missing or undecodable file counts as empty |
| Assets.SaveJsonKeepsKeys | src/asset_handler.py:5-17 | saving never removes a key from any file |
| Assets.ParseTile | src/asset_handler.py:72-75 | parsing a key succeeds exactly when it splits into at least three parts |
| Assets.UploadStep | src/asset_handler.py:29-37 | one upload calls the upload function once and asks for no operation |
| Assets.UploadStepFiles | src/asset_handler.py:29-37 | success writes the op id to the operations file only; failure writes the error text to the missed file only |
| Assets.RetrieveStep | src/asset_handler.py:39-49 | one retrieval asks for exactly that operation and uploads nothing |
| Assets.RetrieveStepFiles | src/asset_handler.py:39-49 | success writes `rbxassetid://<id>` to the asset-id file only; failure writes the error to the missed file only |
| Assets.RetrieveFromCalls | src/asset_handler.py:68-77 | `GetOperation` is asked exactly for the unresolved operations, in dictionary order; the loop raises exactly when such a key has fewer than three parts |
| Assets.RetrieveFromResolved | src/asset_handler.py:68-70 | when every operation key is resolved, nothing happens |
| Assets.RetrieveRepeatedKey | src/asset_handler.py:53-77 | an operations file holding one key twice, with no asset-id file, leads to one `GetOperation` call, for the later operation id |
| Assets.AliasedPathsRetrieveNothing | src/asset_handler.py:51-70 | when the operations and asset-id paths are the same file, retrieval does nothing |
| Assets.RetrieveStepKeepsKeys | src/asset_handler.py:39-49 | a retrieval never removes a key from any file |
| Assets.UploadStepKeepsKeys | src/asset_handler.py:29-37 | an upload never removes a key from any file |
| Assets.RetrieveFromKeepsKeys | src/asset_handler.py:68-77 | the retrieval loop never removes a key from any file |
| Assets.UploadFromKeepsKeys | src/asset_handler.py:88-94 | the reprocess loop never removes a key, so the missed file is never pruned |
| Assets.ReProcessKeepsKeys | src/asset_handler.py:79-96 | reprocessing never removes a key from any file |
| Assets.TilesOf | src/asset_handler.py:88-94 | one tile per missed key |
| Assets.UploadFromCalls | src/asset_handler.py:88-94 | the reprocess loop uploads each missed key once, in order; it raises exactly when a key has fewer than three parts |
| Assets.RetrieveKeepsKey | src/asset_handler.py:72-77 | the asset-id key written equals the operations key it came from |
| Assets.IntKeyParses | src/asset_handler.py:14 | a key written for integer coordinates parses back to their decimal texts |
| Assets.FileSystem.constructor | src/asset_handler.py:7-10 | the files start as given |
| Assets.Cloud.constructor | src/asset_handler.py:41 | no operation asked yet |
| Assets.Cloud.GetOperation | src/asset_handler.py:41 | records the request and answers from the oracle for that call |
| Assets.SaveTileToJson | src/asset_handler.py:5-17 | the files become `SaveJson` of the old ones |
| Assets.AssetHandler.constructor | src/asset_handler.py:21-27 | stores the three paths and the upload function |
| Assets.AssetHandler.UploadTile | src/asset_handler.py:29-37 | the new state is one `UploadStep` |
| Assets.AssetHandler.RetrieveAssetIdTile | src/asset_handler.py:39-49 | the new state is one `RetrieveStep` |
| Assets.AssetHandler.RetrieveAllAssetIds | src/asset_handler.py:51-77 | state and raised error are those of `RetrieveAll` from the old state |
| Assets.AssetHandler.ReProcessMissedTiles | src/asset_handler.py:79-96 | state and raised error are those of `ReProcess`: every missed key uploaded, then a retrieval |
| Generation.TileExistsInDatabase | src/core/generation.py:15-49 | false with no, missing or unreadable database, and for any asset type other than `img` and `mesh` |
| Generation.TileExistsIff | src/core/generation.py:31-41 | an `img` tile exists iff `TableHasTile` finds it in `img_asset_ids`; a `mesh` tile iff both `mesh_asset_ids` and `mesh_vert_offsets` have it |
| Generation.WalkWithoutPrior | src/core/generation.py:172-198 | without a prior database every candidate (leaf, or every node with the flag) is uploaded in pre-order and nothing is skipped |
| Generation.WalkAllWithoutPrior | src/core/generation.py:195-196 | the same for the children in order |
| Generation.WalkUploadsOnlyAbsent | src/core/generation.py:176-184 | with a prior database, no uploaded tile exists in it |
| Generation.WalkAllUploadsOnlyAbsent | src/core/generation.py:195-196 | the same over the children |
| Generation.WalkCountBound | src/core/generation.py:168-193 | uploads plus skipped never exceed the candidates of the subtree, since a skipped candidate's subtree is not visited |
| Generation.WalkAllCountBound | src/core/generation.py:195-196 | the same over the children |
| Generation.UploadCalls | src/core/generation.py:192 | one `UploadTile` call per uploaded tile |
| Generation.UploadCallsAppend | src/core/generation.py:192 | the calls of two runs are the calls of each, in order |
| Generation.WalkNode | src/core/generation.py:172-196 | a node is either skipped, with count 1 and no visit of its children, or uploaded if a candidate and then its children are walked |
| Generation.FlowHandler.constructor | src/core/generation.py:230-243 | a handler with no calls yet |
| Generation.FlowHandler.UploadTile | src/core/generation.py:192 | records one upload call |
| Generation.FlowHandler.RetrieveAllAssetIds | src/core/generation.py:207 | records one retrieve call |
| Generation.FlowHandler.ReProcessMissedTiles | src/core/generation.py:208 | records one reprocess call; raises as the oracle says |
| Generation.Stats.constructor | src/core/generation.py:168-169 | both counters start at 0 |
| Generation.RecurseProcessTile | src/core/generation.py:160-198 | the handler receives the uploads of `Walk` in order; `processed` and `skipped` grow by its counts |
| Generation.VisitTile | src/core/generation.py:192-196 | a visited node's own upload, then its children's |
| Generation.RecurseChildren | src/core/generation.py:195-196 | the children are walked in stored order |
| Generation.ProcessAssetTypeFlow | src/core/generation.py:200-213 | traversal, then retrieve, then reprocess; the counts are the walk's, or zero when reprocessing raised |
| Generation.RunFlows | src/core/generation.py:248-258 | each selected flow sends the handler its traversal uploads, then a retrieve and a reprocess call; the mesh flow runs even after an img reprocessing error; an unselected handler receives nothing; the counts are each flow's, and the totals for `all` are their sums |
| Generation.SetField | src/core/generation.py:129 | setting one member of an entry leaves the other two unchanged |
| Generation.Merge | src/core/generation.py:124-145 | one fetch loop: keys are the union, the field takes the table's value, other fields are kept |
| Generation.ExportContents | src/core/generation.py:120-145 | exported keys are the union over the three tables, and an entry has `img`, `mesh` or `mesh_vert` exactly when that table has the row, with its value |
| Generation.MergeStep | src/core/generation.py:126-129 | processing one more row updates only that key |
| Generation.MergeRows | src/core/generation.py:125-129 | the fetch loop over all rows gives `Merge` of the table, whatever the row order |
| Generation.MergeRowsStep | src/core/generation.py:125-129 | one iteration keeps the loop's invariants |
| Generation.ListedKeysCovered | src/core/generation.py:125 | after all rows, every key of the table has been merged |
| Generation.TableNamed | src/core/generation.py:124 | a query names an existing table exactly when some table has that name |
| Generation.TableNamedTyped | src/core/generation.py:124-140 | a query with a table type's own name resolves to that table exactly when it exists |
| Generation.ExportAssets | src/core/generation.py:106-157 | corrected export: fails without a database or a table, otherwise returns the merged map of the three tables |
| Generation.ExportAsWrittenAlwaysFails | src/core/generation.py:124 | as written, the export fails on every database |
| TileGen.LeavesCount | src/tile_gen.py:14-19 | the number of uploads equals the number of leaves |
| TileGen.AllLeavesCount | src/tile_gen.py:18-19 | the same over the children |
| TileGen.SameAsGeneration | src/tile_gen.py:14-19 | this traversal is the generation traversal without a prior database and without the all-nodes flag |
| TileGen.TileOf | src/tile_gen.py:16 | the handler receives the tile whose key is `"x_y_z"` |
| TileGen.TileIds | src/tile_gen.py:14-19 | one tile per leaf |
| TileGen.UploadAllAppend | src/tile_gen.py:18-19 | uploading two leaf lists in turn is uploading their concatenation |
| TileGen.UploadAllCalls | src/tile_gen.py:14-19 | the upload function is called for exactly the leaves, in pre-order, and no operation is asked |
| TileGen.UploadAllRecordsEvery | src/tile_gen.py:14-19 | after the traversal every leaf has an entry in the operations file or in the missed file |
| TileGen.RecurseProcessTile | src/tile_gen.py:14-19 | the handler's new state is the leaf uploads in pre-order from the old state |
| TileGen.RecurseChildren | src/tile_gen.py:18-19 | children in stored order |
| TileGen.FlowUploadsLeavesFirst | src/tile_gen.py:36-38 | a flow uploads every leaf, in order, before anything else, and keeps every key it recorded |
| TileGen.ReProcessExtendsUploads | src/asset_handler.py:79-96 | reprocessing only adds uploads |
| TileGen.UploadFromExtendsUploads | src/asset_handler.py:88-94 | the reprocess loop only adds uploads |
| TileGen.RunFlow | src/tile_gen.py:36-38 | traversal, retrieve, reprocess; a raised error stops the flow |
| TileGen.RunTileGen | src/tile_gen.py:35-42 | with `all`: the img flow then the mesh flow on the shared files, stopping at a raised error; any other value does nothing |
| Datastore.CreateChunkKey | src/sqlite_to_datastore.py:71-73 | the key is `chunk_` followed by the decimal id, which reads back as the id |
| Datastore.DigitsBound | src/sqlite_to_datastore.py:73 | the id has at most `k` digits iff it is below `10^k` |
| Datastore.ChunkKeyFits | src/sqlite_to_datastore.py:209 | the key is shorter than 50 iff the id is below `10^43` |
| Datastore.RemoveUnderscores | src/sqlite_to_datastore.py:79 | the result holds no `_`, and a name without `_` is unchanged |
| Datastore.RemoveUnderscoresKeeps | src/sqlite_to_datastore.py:79 | the result holds each character other than `_` exactly as often as the name does, and `_` not at all |
| Datastore.TitleFrom | src/sqlite_to_datastore.py:79 | title-casing keeps the length, which characters are letters, and every non-letter, and each letter is the input letter in upper or lower case |
| Datastore.TitleWords | src/sqlite_to_datastore.py:79 | each run of letters starts upper case and continues lower case |
| Datastore.TitleIdempotent | src/sqlite_to_datastore.py:79 | title-casing twice equals once |
| Datastore.CreateDatastoreName | src/sqlite_to_datastore.py:76-80 | the name is the prefix, then the table name without underscores with each letter in upper or lower case, then the suffix; the middle holds no `_` (with the word casing of `TitleWords`, this is the title-cased cleaned name) |
| Datastore.EntriesOf | src/sqlite_to_datastore.py:124-126 | one `"x_y_z": value` entry per row |
| Datastore.CreateTileChunks | src/sqlite_to_datastore.py:88-179 | the loop and the final chunk give `Chunks` of the rows |
| Datastore.ChunksSnoc | src/sqlite_to_datastore.py:136-147 | closing a chunk keeps the numbering, the budget and the greedy rule |
| Datastore.CloseKeepsInv | src/sqlite_to_datastore.py:135-160 | closing the open chunk because the next tile overflows keeps the loop invariant |
| Datastore.ExtendKeepsInv | src/sqlite_to_datastore.py:158-160 | adding a tile that fits keeps the loop invariant |
| Datastore.KeysOfEntries | src/sqlite_to_datastore.py:126 | every key in the chunks comes from some row |
| Datastore.FreshKey | src/sqlite_to_datastore.py:159 | with distinct rows, a tile's key is never already in the open chunk, so the assignment appends |
| Datastore.StepKeepsInv | src/sqlite_to_datastore.py:124-160 | one iteration keeps the loop invariant |
| Datastore.PackInvHolds | src/sqlite_to_datastore.py:124-160 | the invariant holds after every prefix of the rows |
| Datastore.PackOpen | src/sqlite_to_datastore.py:159 | after a tile the open chunk is non-empty |
| Datastore.ChunksSpec | src/sqlite_to_datastore.py:124-173 | the chunks give back the rows in order; ids run 0, 1, 2 and `tile_count` is the size; every chunk is non-empty; each fits the budget or holds one tile; each but the last was closed because the next tile overflowed; no rows give no chunks |
| Datastore.BatchUploadChunks | src/sqlite_to_datastore.py:182-249 | the counters and the sent keys are those of `TallyOf` |
| Datastore.TallyCounts | src/sqlite_to_datastore.py:190-238 | `successful_chunks` is the number of chunks that pass both checks and whose `SetDatastoreEntry` call returns, and `successful_tiles` is the `tile_count` sum over exactly those chunks; every other chunk counts as failed; exactly the chunks passing both checks are sent, once each, in order |
| Datastore.TallyAllSucceed | src/sqlite_to_datastore.py:227-228 | when every chunk passes and every call succeeds, all chunks and all tiles count as uploaded |
| Datastore.TotalTilesFlatten | src/sqlite_to_datastore.py:191 | `total_tiles` is the number of tiles in the chunks |
| Datastore.UploadTable | src/sqlite_to_datastore.py:252-289 | no rows give no upload; otherwise the chunks of the rows are uploaded |
| Datastore.UploadTableTotals | src/sqlite_to_datastore.py:276-278 | rows always give chunks, so the "no chunks" branch is never reached, and `total_tiles` equals the row count |
| Datastore.ValidTables | src/sqlite_to_datastore.py:391-402 | the requested tables (all when none is requested) filtered to those present |
| Datastore.KeepPresentMembers | src/sqlite_to_datastore.py:397-402 | a table is kept iff requested and listed with a positive count; nothing is added; all are kept iff all are present |
| Images.NegStart | src/img_utils.py:23 | the slice `-p:` starts `p` before the end, but at 0 when `p` is 0 |
| Images.FillRow | src/img_utils.py:18 | one row of a slice assignment sets exactly that row's range |
| Images.Fill | src/img_utils.py:18-33 | a slice assignment sets exactly its block from the original and leaves every other pixel |
| Images.SourceIsClamp | src/img_utils.py:18-33 | with the margins right after the copy, each pixel comes from the clamped position, so the regions cover the output |
| Images.AsWrittenPositive | src/img_utils.py:18-33 | for a positive padding the code as written gives the clamp |
| Images.AsWrittenZero | src/img_utils.py:33 | as written with padding 0, every pixel takes the bottom-right pixel |
| Images.AsWrittenZeroCounterexample | src/img_utils.py:23 | a 1×2 image padded by 0 does not come back unchanged |
| Images.PadRows | src/img_utils.py:18-23 | the centre, left and right assignments |
| Images.PadTopBottom | src/img_utils.py:26-27 | the top and bottom assignments |
| Images.PadCorners | src/img_utils.py:30-33 | the four corner assignments |
| Images.PadRegions | src/img_utils.py:14-33 | a new `h+2p` by `w+2p` array, black, then the nine assignments in order |
| Images.ExtendImageEdgesAsWritten | src/img_utils.py:5-37 | the padding as written, margins starting at `-padding` |
| Images.ExtendImageEdges | src/handlers/images.py:8-40 | corrected padding: `2p` taller and wider; the centre is the original, the margins repeat the edges, the corners the corner pixels; padding 0 gives the original |
| Images.DisplayName | src/handlers/images.py:50 | the asset name is `TILE_` followed by the tile key |
| Images.DisplayNameInjective | src/handlers/images.py:50 | different tiles get different names |
| Images.PadTile | src/handlers/images.py:43-45 | every tile is padded by 16, so 32 pixels taller and wider, edges repeated |

## Left out

- Network, files and processes are not modelled:
  - Open Cloud clients and tile downloads (Mapbox, AWS terrain, EOX, Sentinel).
  - Logging, `time.sleep` and `time.time()` (the `uploaded_at` stamp of a chunk).
  - argparse and `TableType[name]` parsing of `--tables`.
  - `get_table_info`'s schema listing.
  - The file open/save of `extend_image_edges` and the JSON file write of `exportAssetsJson`.
- The handlers not modelled:
  - Mesh generation (`meshes.py`, `mesh_handler.py`), which is floating-point work.
  - The upload functions, which are oracles `(call index, tile) -> op id or error`.
  - `GetOperation` and `SetDatastoreEntry`, which are oracles indexed by call count.
- `deg2num`/`num2deg` are float trigonometry. The projection is an abstract function parameter of the quad-tree.
- `src.handlers.assets` and `src.libs.quadtree`, imported by the generation driver, are not part of this model:
  - The generation handler is an interface that records calls and whose `ReProcessMissedTiles` may raise as an oracle says.
  - `disable_lod` is left out.
- The quad-tree construction in the `main`s (root, `max_lod`, threshold from configuration, airports as points) is not modelled. The drivers take a built tree.
- The JSON sizes of `create_tile_chunks` and `batch_upload_chunks` are abstract (`baseSize`, `entrySize`, `chunkSize`). `base_size` is measured once on an empty chunk, as in the code.
- Sqlite: coordinates are unbounded integers. The 64-bit range of an SQLite INTEGER is not modelled, so the `OverflowError` the sqlite3 binding raises for a larger coordinate is left out.
- Datastore.CreateTileChunks: `time` is imported only when the module runs as a script (src/sqlite_to_datastore.py:475). The `NameError` that `create_tile_chunks` raises when the module is imported is not modelled, and neither is the `uploaded_at` stamp.
- JSON files hold only dictionaries. A file holding another JSON value is treated as undecodable.
- `TileExistsInDatabase` is modelled on the database contents. Its side effect of creating empty tables in the prior database through `TableHasTile` is not modelled.
- The integer-versus-string distinction of coordinates passed to the upload function is not modelled. The generation driver passes integers and `ReProcessMissedTiles` passes strings; the model renders both through the same `"x_y_z"` key.
- Images.ExtendImageEdges: only 3-channel 8-bit images of at least 1×1 pixel are modelled. Grayscale broadcasting, alpha channels and an empty image (which raises `IndexError`) are out.
- Datastore.TitleFrom: models `str.title` on ASCII letters only. Other Unicode letters are treated as non-letters.
- Datastore.UploadTable: the re-raise of a fetch error is left out. The per-table exception handling in `main` and its exit codes are also left out.
- Generation.WalkCountBound: states `processed + skipped` is at most the number of candidates in the tree, not equality with the candidates reached.

## Findings

| source | as written | input that shows it | evidently intended | confidence | as-written member | corrected member |
|---|---|---|---|---|---|---|
| src/core/generation.py:124 | the query is built with `f"... FROM {TableType.IMG_ASSET_IDS}"`, which renders the name `TableType.IMG_ASSET_IDS` for a plain `Enum`; no table has that name, so the query raises and the export is always abandoned (the same at 132 and 140) | any database holding `img_asset_ids`, `mesh_asset_ids` and `mesh_vert_offsets` | `{TableType.IMG_ASSET_IDS.value}`, the table name `img_asset_ids`; the exported map is then the merge of the three tables | medium (assumes the imported `TableType` is the plain `Enum` of `sqlite.py`); not executed | Generation.ExportAsWrittenAlwaysFails | Generation.ExportAssets |
| src/img_utils.py:23 | the right and bottom margins are the slices `-padding:`; with padding 0 that is `0:`, the whole axis, and the last corner assignment paints the whole image with the bottom-right pixel (the same in handlers/images.py:26) | a 1×2 image padded by 0: both pixels become the second | margins starting at `padding + width` and `padding + height`, so padding 0 returns the image unchanged | high for padding 0, which the only caller never uses (it passes 16); not executed | Images.AsWrittenZeroCounterexample | Images.ExtendImageEdges |
