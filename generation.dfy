/**
 * The generation driver: walks the built quad-tree depth first, uploads the
 * tiles it selects through an asset handler, skips tiles a prior database
 * already holds, counts what it did, then asks the handler to resolve asset
 * ids and to retry missed tiles. Also the export that merges three tables
 * into one map keyed by tile.
 *
 * The handler this driver uses is only known by its interface: it records the
 * calls it receives, and its `ReProcessMissedTiles` may raise
 * `TileReprocessingError` (an oracle indexed by the number of calls so far
 * decides when).
 */
module Generation {
  import opened Common
  import Sqlite
  import Q = TileQuadtree

  // ---------------------------------------------------------------------
  // Prior database

  /** The prior database the run consults: none given, a path that does not
      exist, a file that cannot be queried, or a readable database. */
  datatype PriorStore = NoPriorDb | Missing | Unreadable | Present(db: Sqlite.Db)

  /** Whether table `t` of `db` holds a row for the tile. */
  predicate Stored(db: Sqlite.Db, x: int, y: int, z: int, t: Sqlite.TableType) {
    Sqlite.Typed(t) in db && Sqlite.Key(x, y, z) in db[Sqlite.Typed(t)]
  }

  /** `tileExistsInDatabase` */
  function TileExistsInDatabase(x: int, y: int, z: int, prior: PriorStore, assetType: string): (b: bool)
    ensures b ==> prior.Present?
    ensures assetType != "img" && assetType != "mesh" ==> !b
  {
    match prior
    case Present(db) =>
      if assetType == "img" then
        Stored(db, x, y, z, Sqlite.ImgAssetIds)
      else if assetType == "mesh" then
        Stored(db, x, y, z, Sqlite.MeshAssetIds) && Stored(db, x, y, z, Sqlite.MeshVertOffsets)
      else
        false
    case _ => false
  }

  /** An image tile exists when `TableHasTile` finds its asset id; a mesh tile
      needs both its asset id and its vertex offsets. */
  lemma TileExistsIff(x: int, y: int, z: int, db: Sqlite.Db)
    ensures TileExistsInDatabase(x, y, z, Present(db), "img")
        <==> Sqlite.HasResult(db, x, y, z, Sqlite.ImgAssetIds)
    ensures TileExistsInDatabase(x, y, z, Present(db), "mesh")
        <==> Sqlite.HasResult(db, x, y, z, Sqlite.MeshAssetIds) && Sqlite.HasResult(db, x, y, z, Sqlite.MeshVertOffsets)
  {
    Sqlite.HasResultStored(db, x, y, z, Sqlite.ImgAssetIds);
    Sqlite.HasResultStored(db, x, y, z, Sqlite.MeshAssetIds);
    Sqlite.HasResultStored(db, x, y, z, Sqlite.MeshVertOffsets);
  }

  // ---------------------------------------------------------------------
  // The traversal, as a function of the tree

  datatype Coord = Coord(x: int, y: int, z: int)

  /** The settings of one traversal: the prior database, the asset label and
      `process_all_nodes`. */
  datatype WalkConfig = WalkConfig(prior: PriorStore, assetType: string, processAll: bool)

  /** `existing_db_path and asset_type`: whether candidates are looked up at all. */
  predicate Consults(w: WalkConfig) {
    !w.prior.NoPriorDb? && w.assetType != ""
  }

  /** A node is processed when it is a leaf, or every node is. */
  predicate Candidate(t: Q.TileTree, processAll: bool) {
    t.isLeaf || processAll
  }

  /** The tiles uploaded, in order, and the number of tiles skipped. */
  datatype WalkResult = WalkResult(uploads: seq<Coord>, skipped: nat)

  /** The effect of `recurseProcessTile` on a subtree. */
  function Walk(t: Q.TileTree, w: WalkConfig): WalkResult
    decreases t
  {
    if Candidate(t, w.processAll) && Consults(w) && TileExistsInDatabase(t.x, t.y, t.zoom, w.prior, w.assetType) then
      WalkResult([], 1)
    else
      var own := if Candidate(t, w.processAll) then [Coord(t.x, t.y, t.zoom)] else [];
      var rest := WalkAll(t.children, w);
      WalkResult(own + rest.uploads, rest.skipped)
  }

  /** The children visited in order; defined from the last child so that it
      follows a loop over the children. */
  function WalkAll(ts: seq<Q.TileTree>, w: WalkConfig): WalkResult
    decreases ts
  {
    if |ts| == 0 then WalkResult([], 0)
    else
      var a := WalkAll(ts[..|ts| - 1], w);
      var b := Walk(ts[|ts| - 1], w);
      WalkResult(a.uploads + b.uploads, a.skipped + b.skipped)
  }

  /** Reference definition: the candidate nodes in pre-order, children in stored order. */
  function Candidates(t: Q.TileTree, processAll: bool): seq<Coord>
    decreases t
  {
    (if Candidate(t, processAll) then [Coord(t.x, t.y, t.zoom)] else []) + AllCandidates(t.children, processAll)
  }

  function AllCandidates(ts: seq<Q.TileTree>, processAll: bool): seq<Coord>
    decreases ts
  {
    if |ts| == 0 then [] else AllCandidates(ts[..|ts| - 1], processAll) + Candidates(ts[|ts| - 1], processAll)
  }

  /** Without a prior database every candidate is uploaded once, in pre-order,
      and nothing is skipped. */
  lemma {:induction false} WalkWithoutPrior(t: Q.TileTree, w: WalkConfig)
    requires !Consults(w)
    ensures Walk(t, w) == WalkResult(Candidates(t, w.processAll), 0)
    decreases t
  {
    WalkAllWithoutPrior(t.children, w);
  }

  lemma {:induction false} WalkAllWithoutPrior(ts: seq<Q.TileTree>, w: WalkConfig)
    requires !Consults(w)
    ensures WalkAll(ts, w) == WalkResult(AllCandidates(ts, w.processAll), 0)
    decreases ts
  {
    if |ts| > 0 {
      WalkAllWithoutPrior(ts[..|ts| - 1], w);
      WalkWithoutPrior(ts[|ts| - 1], w);
    }
  }

  /** No tile the prior database already holds is uploaded. */
  lemma {:induction false} WalkUploadsOnlyAbsent(t: Q.TileTree, w: WalkConfig)
    requires Consults(w)
    ensures forall c :: c in Walk(t, w).uploads ==> !TileExistsInDatabase(c.x, c.y, c.z, w.prior, w.assetType)
    decreases t
  {
    WalkAllUploadsOnlyAbsent(t.children, w);
  }

  lemma {:induction false} WalkAllUploadsOnlyAbsent(ts: seq<Q.TileTree>, w: WalkConfig)
    requires Consults(w)
    ensures forall c :: c in WalkAll(ts, w).uploads ==> !TileExistsInDatabase(c.x, c.y, c.z, w.prior, w.assetType)
    decreases ts
  {
    if |ts| > 0 {
      WalkAllUploadsOnlyAbsent(ts[..|ts| - 1], w);
      WalkUploadsOnlyAbsent(ts[|ts| - 1], w);
    }
  }

  /** Processed plus skipped never exceeds the number of candidates: a skipped
      tile's subtree is neither processed nor counted. */
  lemma {:induction false} WalkCountBound(t: Q.TileTree, w: WalkConfig)
    ensures |Walk(t, w).uploads| + Walk(t, w).skipped <= |Candidates(t, w.processAll)|
    decreases t
  {
    WalkAllCountBound(t.children, w);
    if Candidate(t, w.processAll) && Consults(w) && TileExistsInDatabase(t.x, t.y, t.zoom, w.prior, w.assetType) {
      assert |Candidates(t, w.processAll)| >= 1;
    }
  }

  lemma {:induction false} WalkAllCountBound(ts: seq<Q.TileTree>, w: WalkConfig)
    ensures |WalkAll(ts, w).uploads| + WalkAll(ts, w).skipped <= |AllCandidates(ts, w.processAll)|
    decreases ts
  {
    if |ts| > 0 {
      WalkAllCountBound(ts[..|ts| - 1], w);
      WalkCountBound(ts[|ts| - 1], w);
    }
  }

  // ---------------------------------------------------------------------
  // The handler interface and the stats dictionary

  /** A call received by the handler. */
  datatype Call = UploadCall(x: int, y: int, z: int) | RetrieveAllCall | ReprocessCall

  function UploadCalls(cs: seq<Coord>): (r: seq<Call>)
    ensures |r| == |cs|
  {
    if |cs| == 0 then [] else UploadCalls(cs[..|cs| - 1]) + [UploadCall(cs[|cs| - 1].x, cs[|cs| - 1].y, cs[|cs| - 1].z)]
  }

  lemma {:induction false} UploadCallsAppend(a: seq<Coord>, b: seq<Coord>)
    ensures UploadCalls(a + b) == UploadCalls(a) + UploadCalls(b)
    decreases |b|
  {
    if |b| == 0 {
      assert a + b == a;
    } else {
      assert (a + b)[..|a + b| - 1] == a + b[..|b| - 1];
      UploadCallsAppend(a, b[..|b| - 1]);
    }
  }

  /** The asset handler as the driver sees it. */
  class FlowHandler {
    /** Whether `ReProcessMissedTiles`, called when `n` calls have been made, raises. */
    const reprocessRaises: nat -> bool
    var log: seq<Call>

    constructor (reprocessRaises: nat -> bool)
      ensures this.reprocessRaises == reprocessRaises && log == []
    {
      this.reprocessRaises := reprocessRaises;
      log := [];
    }

    method UploadTile(x: int, y: int, z: int)
      modifies this
      ensures log == old(log) + [UploadCall(x, y, z)]
    {
      log := log + [UploadCall(x, y, z)];
    }

    method RetrieveAllAssetIds()
      modifies this
      ensures log == old(log) + [RetrieveAllCall]
    {
      log := log + [RetrieveAllCall];
    }

    /** Returns whether it raised `TileReprocessingError`. */
    method ReProcessMissedTiles() returns (raised: bool)
      modifies this
      ensures log == old(log) + [ReprocessCall]
      ensures raised == reprocessRaises(|old(log)|)
    {
      raised := reprocessRaises(|log|);
      log := log + [ReprocessCall];
    }
  }

  /** The `stats` dictionary shared by the recursion. */
  class Stats {
    var processed: nat
    var skipped: nat

    constructor ()
      ensures processed == 0 && skipped == 0
    {
      processed, skipped := 0, 0;
    }
  }

  /** The node's own upload: itself when it is a candidate, nothing otherwise. */
  function Own(t: Q.TileTree, w: WalkConfig): seq<Coord> {
    if Candidate(t, w.processAll) then [Coord(t.x, t.y, t.zoom)] else []
  }

  /** Whether the node is skipped because the prior database holds it. */
  predicate Skips(t: Q.TileTree, w: WalkConfig) {
    Candidate(t, w.processAll) && Consults(w) && TileExistsInDatabase(t.x, t.y, t.zoom, w.prior, w.assetType)
  }

  lemma WalkNode(t: Q.TileTree, w: WalkConfig)
    ensures Walk(t, w) == if Skips(t, w) then WalkResult([], 1)
      else WalkResult(Own(t, w) + WalkAll(t.children, w).uploads, WalkAll(t.children, w).skipped)
  {
  }

  /** `recurseProcessTile` (the definition in effect). */
  method RecurseProcessTile(tile: Q.Tile, handler: FlowHandler, w: WalkConfig, stats: Stats)
    requires tile.Valid()
    modifies handler, stats
    ensures handler.log == old(handler.log) + UploadCalls(Walk(tile.Model, w).uploads)
    ensures stats.processed == old(stats.processed) + |Walk(tile.Model, w).uploads|
    ensures stats.skipped == old(stats.skipped) + Walk(tile.Model, w).skipped
    decreases tile.Repr, 2
  {
    WalkNode(tile.Model, w);
    var shouldProcess := tile.isLeaf || w.processAll;
    if shouldProcess && !w.prior.NoPriorDb? && w.assetType != "" {
      if TileExistsInDatabase(tile.x, tile.y, tile.zoom, w.prior, w.assetType) {
        stats.skipped := stats.skipped + 1;
        return;
      }
    }
    VisitTile(tile, handler, w, stats);
  }

  /** A node that is not skipped: its own upload, then its children. */
  method VisitTile(tile: Q.Tile, handler: FlowHandler, w: WalkConfig, stats: Stats)
    requires tile.Valid()
    modifies handler, stats
    ensures handler.log == old(handler.log) + UploadCalls(Own(tile.Model, w) + WalkAll(tile.Model.children, w).uploads)
    ensures stats.processed == old(stats.processed) + |Own(tile.Model, w)| + |WalkAll(tile.Model.children, w).uploads|
    ensures stats.skipped == old(stats.skipped) + WalkAll(tile.Model.children, w).skipped
    decreases tile.Repr, 1
  {
    ghost var own := Own(tile.Model, w);
    if tile.isLeaf || w.processAll {
      handler.UploadTile(tile.x, tile.y, tile.zoom);
      stats.processed := stats.processed + 1;
    }
    assert handler.log == old(handler.log) + UploadCalls(own);
    ghost var rest := WalkAll(tile.Model.children, w).uploads;
    RecurseChildren(tile, handler, w, stats);
    UploadCallsAppend(own, rest);
    ConcatAssoc(old(handler.log), UploadCalls(own), UploadCalls(rest));
  }

  /** The loop of `recurseProcessTile` over the children, in stored order. */
  method RecurseChildren(tile: Q.Tile, handler: FlowHandler, w: WalkConfig, stats: Stats)
    requires tile.Valid()
    modifies handler, stats
    ensures handler.log == old(handler.log) + UploadCalls(WalkAll(tile.Model.children, w).uploads)
    ensures stats.processed == old(stats.processed) + |WalkAll(tile.Model.children, w).uploads|
    ensures stats.skipped == old(stats.skipped) + WalkAll(tile.Model.children, w).skipped
    decreases tile.Repr, 0
  {
    var model := tile.Model.children;
    var i := 0;
    while i < |tile.children|
      invariant 0 <= i <= |tile.children|
      invariant handler.log == old(handler.log) + UploadCalls(WalkAll(model[..i], w).uploads)
      invariant stats.processed == old(stats.processed) + |WalkAll(model[..i], w).uploads|
      invariant stats.skipped == old(stats.skipped) + WalkAll(model[..i], w).skipped
    {
      var child := tile.children[i];
      assert child.Valid() && child.Model == model[i] && child.Repr < tile.Repr;
      ghost var pre := WalkAll(model[..i], w);
      ghost var step := Walk(model[i], w);
      assert model[..i + 1][..i] == model[..i];
      assert WalkAll(model[..i + 1], w) == WalkResult(pre.uploads + step.uploads, pre.skipped + step.skipped);
      ghost var log0 := handler.log;
      RecurseProcessTile(child, handler, w, stats);
      UploadCallsAppend(pre.uploads, step.uploads);
      ConcatAssoc(old(handler.log), UploadCalls(pre.uploads), UploadCalls(step.uploads));
      i := i + 1;
    }
    assert model[..i] == model;
  }

  /** The counts a flow reports: the traversal's, or zero when reprocessing
      raised. `start` is the number of calls the handler had received. */
  datatype Counts = Counts(processed: nat, skipped: nat)

  function FlowCounts(t: Q.TileTree, w: WalkConfig, raises: nat -> bool, start: nat): Counts {
    var r := Walk(t, w);
    if raises(start + |r.uploads| + 1) then Counts(0, 0) else Counts(|r.uploads|, r.skipped)
  }

  /** `process_asset_type_flow`: traversal, then `RetrieveAllAssetIds`, then
      `ReProcessMissedTiles`; a `TileReprocessingError` yields zero counts. */
  method ProcessAssetTypeFlow(root: Q.Tile, handler: FlowHandler, prior: PriorStore, assetLabel: string, processAll: bool)
      returns (counts: Counts)
    requires root.Valid()
    modifies handler
    ensures var w := WalkConfig(prior, assetLabel, processAll);
      && handler.log == old(handler.log) + UploadCalls(Walk(root.Model, w).uploads) + [RetrieveAllCall, ReprocessCall]
      && counts == FlowCounts(root.Model, w, handler.reprocessRaises, |old(handler.log)|)
  {
    var w := WalkConfig(prior, assetLabel, processAll);
    var stats := new Stats();
    RecurseProcessTile(root, handler, w, stats);
    handler.RetrieveAllAssetIds();
    var raised := handler.ReProcessMissedTiles();
    if raised {
      return Counts(0, 0);
    }
    counts := Counts(stats.processed, stats.skipped);
  }

  /** `--asset`: `all`, `img` or `mesh`. */
  datatype AssetArg = AllAssets | ImgAssets | MeshAssets

  /** The flow part of `main`: the image flow, then the mesh flow, whatever the
      image flow reported, and the totals when both ran. */
  method RunFlows(root: Q.Tile, img: FlowHandler, mesh: FlowHandler, prior: PriorStore, asset: AssetArg, processAll: bool)
      returns (imgCounts: Counts, meshCounts: Counts, totals: Option<Counts>)
    requires root.Valid() && img != mesh
    modifies img, mesh
    ensures imgCounts == if asset != MeshAssets
      then FlowCounts(root.Model, WalkConfig(prior, "img", processAll), img.reprocessRaises, |old(img.log)|)
      else Counts(0, 0)
    ensures meshCounts == if asset != ImgAssets
      then FlowCounts(root.Model, WalkConfig(prior, "mesh", processAll), mesh.reprocessRaises, |old(mesh.log)|)
      else Counts(0, 0)
    ensures img.log == if asset != MeshAssets
      then old(img.log) + UploadCalls(Walk(root.Model, WalkConfig(prior, "img", processAll)).uploads) + [RetrieveAllCall, ReprocessCall]
      else old(img.log)
    ensures mesh.log == if asset != ImgAssets
      then old(mesh.log) + UploadCalls(Walk(root.Model, WalkConfig(prior, "mesh", processAll)).uploads) + [RetrieveAllCall, ReprocessCall]
      else old(mesh.log)
    ensures totals == if asset == AllAssets
      then Some(Counts(imgCounts.processed + meshCounts.processed, imgCounts.skipped + meshCounts.skipped))
      else None
  {
    imgCounts, meshCounts := Counts(0, 0), Counts(0, 0);
    if asset == AllAssets || asset == ImgAssets {
      imgCounts := ProcessAssetTypeFlow(root, img, prior, "img", processAll);
    }
    if asset == AllAssets || asset == MeshAssets {
      meshCounts := ProcessAssetTypeFlow(root, mesh, prior, "mesh", processAll);
    }
    totals := None;
    if asset == AllAssets {
      totals := Some(Counts(imgCounts.processed + meshCounts.processed, imgCounts.skipped + meshCounts.skipped));
    }
  }

  // ---------------------------------------------------------------------
  // exportAssetsJson

  /** The asset ids known for one tile: `{"img": .., "mesh": .., "mesh_vert": ..}`,
      each member present or not. */
  datatype AssetEntry = AssetEntry(img: Option<string>, mesh: Option<string>, meshVert: Option<string>)

  const NoAssets := AssetEntry(None, None, None)

  datatype AssetField = ImgField | MeshField | MeshVertField

  function GetField(e: AssetEntry, f: AssetField): Option<string> {
    match f
    case ImgField => e.img
    case MeshField => e.mesh
    case MeshVertField => e.meshVert
  }

  function SetField(e: AssetEntry, f: AssetField, v: string): (r: AssetEntry)
    ensures GetField(r, f) == Some(v)
    ensures forall g :: g != f ==> GetField(r, g) == GetField(e, g)
  {
    match f
    case ImgField => e.(img := Some(v))
    case MeshField => e.(mesh := Some(v))
    case MeshVertField => e.(meshVert := Some(v))
  }

  function Get(table: Sqlite.Table, k: Sqlite.Key): Option<string> {
    if k in table then Some(table[k]) else None
  }

  /** One fetch loop of the export: every row of `table` sets field `f` of its tile. */
  function Merge(assets: map<Sqlite.Key, AssetEntry>, table: Sqlite.Table, f: AssetField): (r: map<Sqlite.Key, AssetEntry>)
    ensures forall k :: k in r <==> k in assets || k in table
    ensures forall k :: k in r ==> GetField(r[k], f) == (if k in table then Some(table[k]) else GetField(assets[k], f))
    ensures forall k, g :: k in r && g != f ==> GetField(r[k], g) == (if k in assets then GetField(assets[k], g) else None)
  {
    map k | k in assets.Keys + table.Keys ::
      if k in table then SetField(if k in assets then assets[k] else NoAssets, f, table[k]) else assets[k]
  }

  /** The exported map: images, then meshes, then vertex offsets. */
  function Export(img: Sqlite.Table, mesh: Sqlite.Table, vert: Sqlite.Table): map<Sqlite.Key, AssetEntry> {
    Merge(Merge(Merge(map[], img, ImgField), mesh, MeshField), vert, MeshVertField)
  }

  /** The exported keys are the tiles of the three tables, and a tile's entry
      has a member exactly when the matching table has its row, with that row's value. */
  lemma ExportContents(img: Sqlite.Table, mesh: Sqlite.Table, vert: Sqlite.Table)
    ensures var r := Export(img, mesh, vert);
      && (forall k :: k in r <==> k in img || k in mesh || k in vert)
      && (forall k :: k in r ==> r[k] == AssetEntry(Get(img, k), Get(mesh, k), Get(vert, k)))
  {
    var a := Merge(map[], img, ImgField);
    var b := Merge(a, mesh, MeshField);
    var r := Merge(b, vert, MeshVertField);
    forall k | k in r
      ensures r[k] == AssetEntry(Get(img, k), Get(mesh, k), Get(vert, k))
    {
      assert GetField(r[k], ImgField) == Get(img, k);
      assert GetField(r[k], MeshField) == Get(mesh, k);
      assert GetField(r[k], MeshVertField) == Get(vert, k);
    }
  }

  lemma MergeStep(assets: map<Sqlite.Key, AssetEntry>, done: Sqlite.Table, f: AssetField, k: Sqlite.Key, v: string)
    ensures var m := Merge(assets, done, f);
      Merge(assets, done[k := v], f) == m[k := SetField(if k in m then m[k] else NoAssets, f, v)]
  {
    var m := Merge(assets, done, f);
    var lhs := Merge(assets, done[k := v], f);
    var rhs := m[k := SetField(if k in m then m[k] else NoAssets, f, v)];
    assert lhs.Keys == rhs.Keys;
    forall k' | k' in lhs
      ensures lhs[k'] == rhs[k']
    {
      if k' == k {
        if k in assets {
          assert m[k] == (if k in done then SetField(assets[k], f, done[k]) else assets[k]);
        }
      }
    }
  }

  /** A fetch loop over the rows of one table. */
  method MergeRows(assets: map<Sqlite.Key, AssetEntry>, rows: seq<Sqlite.Row>, ghost table: Sqlite.Table, f: AssetField)
      returns (a: map<Sqlite.Key, AssetEntry>)
    requires Sqlite.ListsTable(rows, table)
    ensures a == Merge(assets, table, f)
  {
    a := assets;
    ghost var done: Sqlite.Table := map[];
    var i := 0;
    while i < |rows|
      invariant 0 <= i <= |rows|
      invariant a == Merge(assets, done, f)
      invariant forall k :: k in done ==> k in table && done[k] == table[k]
      invariant forall j :: 0 <= j < i ==> Sqlite.KeyOf(rows[j]) in done
    {
      var key, value := Sqlite.KeyOf(rows[i]), rows[i].value;
      MergeRowsStep(assets, rows, table, f, done, i);
      var entry := if key in a then a[key] else NoAssets;
      a := a[key := SetField(entry, f, value)];
      done := done[key := value];
      i := i + 1;
    }
    ListedKeysCovered(rows, table, done);
  }

  /** One iteration of the fetch loop keeps its invariants. */
  lemma MergeRowsStep(assets: map<Sqlite.Key, AssetEntry>, rows: seq<Sqlite.Row>, table: Sqlite.Table, f: AssetField,
                      done: Sqlite.Table, i: nat)
    requires Sqlite.ListsTable(rows, table) && i < |rows|
    requires forall k :: k in done ==> k in table && done[k] == table[k]
    requires forall j :: 0 <= j < i ==> Sqlite.KeyOf(rows[j]) in done
    ensures var key, value := Sqlite.KeyOf(rows[i]), rows[i].value;
      var done' := done[key := value];
      var m := Merge(assets, done, f);
      && (forall k :: k in done' ==> k in table && done'[k] == table[k])
      && (forall j :: 0 <= j < i + 1 ==> Sqlite.KeyOf(rows[j]) in done')
      && Merge(assets, done', f) == m[key := SetField(if key in m then m[key] else NoAssets, f, value)]
  {
    var key, value := Sqlite.KeyOf(rows[i]), rows[i].value;
    assert key in table && table[key] == value;
    MergeStep(assets, done, f, key, value);
  }

  lemma ListedKeysCovered(rows: seq<Sqlite.Row>, table: Sqlite.Table, done: Sqlite.Table)
    requires Sqlite.ListsTable(rows, table)
    requires forall k :: k in done ==> k in table && done[k] == table[k]
    requires forall j :: 0 <= j < |rows| ==> Sqlite.KeyOf(rows[j]) in done
    ensures done == table
  {
    forall k | k in table
      ensures k in done
    {
      var j :| 0 <= j < |rows| && Sqlite.KeyOf(rows[j]) == k;
    }
    assert done.Keys == table.Keys;
  }

  /** The names `SELECT ... FROM <name>` can resolve, in a database. */
  function TableNamed(db: Sqlite.Db, name: string): (r: Option<Sqlite.TableRef>)
    ensures r.Some? ==> r.value in db && Sqlite.Name(r.value) == name
    ensures r.None? ==> forall ref :: ref in db ==> Sqlite.Name(ref) != name
  {
    if Sqlite.LegacyTiles in db && name == "tiles" then Some(Sqlite.LegacyTiles)
    else if exists t: Sqlite.TableType :: Sqlite.TableName(t) == name && Sqlite.Typed(t) in db then
      var t: Sqlite.TableType :| Sqlite.TableName(t) == name && Sqlite.Typed(t) in db;
      Some(Sqlite.Typed(t))
    else None
  }

  /** A typed table's own name resolves to that table exactly when it exists. */
  lemma TableNamedTyped(db: Sqlite.Db, t: Sqlite.TableType)
    ensures TableNamed(db, Sqlite.TableName(t)) == if Sqlite.Typed(t) in db then Some(Sqlite.Typed(t)) else None
  {
    var r := TableNamed(db, Sqlite.TableName(t));
    if r.Some? && r.value != Sqlite.Typed(t) {
      Sqlite.NamesDistinct(r.value, Sqlite.Typed(t));
    }
  }

  /** `exportAssetsJson` with the table names it evidently means: fails when
      there is no database or one of the three tables is missing. */
  method ExportAssets(store: Option<Sqlite.Db>) returns (r: Result<map<Sqlite.Key, AssetEntry>>)
    ensures store.None? ==> r.Failure?
    ensures store.Some? ==> (r.Success? <==> ExportTablesExist(store.value))
    ensures r.Success? ==> r.value == Export(
      store.value[Sqlite.Typed(Sqlite.ImgAssetIds)],
      store.value[Sqlite.Typed(Sqlite.MeshAssetIds)],
      store.value[Sqlite.Typed(Sqlite.MeshVertOffsets)])
  {
    if store.None? {
      return Failure("No database found to export assets from.");
    }
    var db := store.value;
    TableNamedTyped(db, Sqlite.ImgAssetIds);
    var img := TableNamed(db, Sqlite.TableName(Sqlite.ImgAssetIds));
    if img.None? {
      return Failure("no such table: " + Sqlite.TableName(Sqlite.ImgAssetIds));
    }
    var rows := Sqlite.FetchAll(db[img.value]);
    var assets := MergeRows(map[], rows, db[img.value], ImgField);
    TableNamedTyped(db, Sqlite.MeshAssetIds);
    var mesh := TableNamed(db, Sqlite.TableName(Sqlite.MeshAssetIds));
    if mesh.None? {
      return Failure("no such table: " + Sqlite.TableName(Sqlite.MeshAssetIds));
    }
    rows := Sqlite.FetchAll(db[mesh.value]);
    assets := MergeRows(assets, rows, db[mesh.value], MeshField);
    TableNamedTyped(db, Sqlite.MeshVertOffsets);
    var vert := TableNamed(db, Sqlite.TableName(Sqlite.MeshVertOffsets));
    if vert.None? {
      return Failure("no such table: " + Sqlite.TableName(Sqlite.MeshVertOffsets));
    }
    rows := Sqlite.FetchAll(db[vert.value]);
    assets := MergeRows(assets, rows, db[vert.value], MeshVertField);
    r := Success(assets);
  }

  predicate ExportTablesExist(db: Sqlite.Db) {
    && Sqlite.Typed(Sqlite.ImgAssetIds) in db
    && Sqlite.Typed(Sqlite.MeshAssetIds) in db
    && Sqlite.Typed(Sqlite.MeshVertOffsets) in db
  }

  /** How an f-string renders a member of a plain `Enum`: `TableType.<MEMBER>`. */
  function FormattedMember(t: Sqlite.TableType): string {
    "TableType." + match t
      case ImgAssetIds => "IMG_ASSET_IDS"
      case MeshAssetIds => "MESH_ASSET_IDS"
      case ImgOperations => "IMG_OPERATIONS"
      case MeshOperations => "MESH_OPERATIONS"
      case MissedImg => "MISSED_IMG"
      case MissedMesh => "MISSED_MESH"
      case MeshVertOffsets => "MESH_VERT_OFFSETS"
  }

  /** `exportAssetsJson` as written: the first query names the table
      `TableType.IMG_ASSET_IDS`, which resolves to no table. */
  function ExportAsWritten(store: Option<Sqlite.Db>): Result<map<Sqlite.Key, AssetEntry>> {
    if store.None? then Failure("No database found to export assets from.")
    else match TableNamed(store.value, FormattedMember(Sqlite.ImgAssetIds))
      case None => Failure("no such table: " + FormattedMember(Sqlite.ImgAssetIds))
      case Some(ref) => Success(Merge(map[], store.value[ref], ImgField))
  }

  /** As written, the export fails on every database, even one holding all
      three tables. */
  lemma ExportAsWrittenAlwaysFails(store: Option<Sqlite.Db>)
    ensures ExportAsWritten(store).Failure?
  {
    if store.Some? {
      forall ref: Sqlite.TableRef
        ensures Sqlite.Name(ref) != FormattedMember(Sqlite.ImgAssetIds)
      {
        assert Sqlite.Name(ref)[0] != 'T';
      }
    }
  }
}
