/**
 * The older driver in src/tile_gen.py: it uploads the leaves of the built
 * quad-tree through one asset handler per asset kind, with no prior
 * database and no option to process inner nodes, then resolves the asset
 * ids and retries missed tiles.
 */
module TileGen {
  import opened Common
  import opened Strings
  import Q = TileQuadtree
  import A = Assets
  import G = Generation

  /** The leaves of the tree in pre-order, children in stored order: the
      candidates of a traversal that processes leaves only. */
  function Leaves(t: Q.TileTree): seq<G.Coord> {
    G.Candidates(t, false)
  }

  /** `Leaves` counts the same leaves as `LeafCount` on every tree of the
      program's shape. */
  lemma {:induction false} LeavesCount(t: Q.TileTree)
    requires Q.WellFormed(t)
    ensures |Leaves(t)| == Q.LeafCount(t)
    decreases t
  {
    AllLeavesCount(t.children);
  }

  lemma {:induction false} AllLeavesCount(ts: seq<Q.TileTree>)
    requires forall i :: 0 <= i < |ts| ==> Q.WellFormed(ts[i])
    ensures |G.AllCandidates(ts, false)| == Q.SumLeafCounts(ts)
    decreases ts
  {
    if |ts| > 0 {
      AllLeavesCount(ts[..|ts| - 1]);
      LeavesCount(ts[|ts| - 1]);
      SumLeafCountsLast(ts);
    }
  }

  /** `SumLeafCounts` adds from the front; it may as well end with the last tree. */
  lemma {:induction false} SumLeafCountsLast(ts: seq<Q.TileTree>)
    requires |ts| > 0
    ensures Q.SumLeafCounts(ts) == Q.SumLeafCounts(ts[..|ts| - 1]) + Q.LeafCount(ts[|ts| - 1])
    decreases |ts|
  {
    if |ts| > 1 {
      assert ts[1..][..|ts[1..]| - 1] == ts[..|ts| - 1][1..];
      SumLeafCountsLast(ts[1..]);
    }
  }

  /** The traversal here is the one of `recurseProcessTile` in
      src/core/generation.py run without a prior database and without
      `process_all_nodes`. */
  lemma SameAsGeneration(t: Q.TileTree, assetType: string)
    ensures G.Walk(t, G.WalkConfig(G.NoPriorDb, assetType, false)) == G.WalkResult(Leaves(t), 0)
  {
    G.WalkWithoutPrior(t, G.WalkConfig(G.NoPriorDb, assetType, false));
  }

  /** The integer tile as the handler formats it. */
  function TileOf(c: G.Coord): (t: A.TileId)
    ensures A.KeyOf(t) == IntTileKey(c.x, c.y, c.z)
  {
    A.TileId(IntToString(c.x), IntToString(c.y), IntToString(c.z))
  }

  function TileIds(cs: seq<G.Coord>): (r: seq<A.TileId>)
    ensures |r| == |cs|
  {
    if |cs| == 0 then [] else TileIds(cs[..|cs| - 1]) + [TileOf(cs[|cs| - 1])]
  }

  /** `UploadTile` on each tile of `cs` in turn. */
  function UploadAll(ctx: A.Context, st: A.State, cs: seq<G.Coord>): A.State {
    if |cs| == 0 then st else A.UploadStep(ctx, UploadAll(ctx, st, cs[..|cs| - 1]), TileOf(cs[|cs| - 1]))
  }

  lemma UploadAllLast(ctx: A.Context, st: A.State, cs: seq<G.Coord>)
    requires |cs| > 0
    ensures UploadAll(ctx, st, cs) == A.UploadStep(ctx, UploadAll(ctx, st, cs[..|cs| - 1]), TileOf(cs[|cs| - 1]))
  {
  }

  lemma {:induction false} UploadAllAppend(ctx: A.Context, st: A.State, a: seq<G.Coord>, b: seq<G.Coord>)
    ensures UploadAll(ctx, st, a + b) == UploadAll(ctx, UploadAll(ctx, st, a), b)
    decreases |b|
  {
    if |b| == 0 {
      assert a + b == a;
    } else {
      var ab, b' := a + b, b[..|b| - 1];
      assert ab[..|ab| - 1] == a + b' && ab[|ab| - 1] == b[|b| - 1];
      UploadAllAppend(ctx, st, a, b');
      UploadAllLast(ctx, st, ab);
      UploadAllLast(ctx, UploadAll(ctx, st, a), b);
    }
  }

  /** The upload function receives exactly the tiles of `cs`, in order, and
      `GetOperation` is not called. */
  lemma {:induction false} UploadAllCalls(ctx: A.Context, st: A.State, cs: seq<G.Coord>)
    ensures UploadAll(ctx, st, cs).uploads == st.uploads + TileIds(cs)
    ensures UploadAll(ctx, st, cs).operations == st.operations
    decreases |cs|
  {
    if |cs| > 0 {
      var pre, last := cs[..|cs| - 1], TileOf(cs[|cs| - 1]);
      UploadAllCalls(ctx, st, pre);
      UploadAllLast(ctx, st, cs);
      var s0 := UploadAll(ctx, st, pre);
      assert UploadAll(ctx, st, cs).uploads == s0.uploads + [last];
      assert TileIds(cs) == TileIds(pre) + [last];
      ConcatAssoc(st.uploads, TileIds(pre), [last]);
    }
  }

  /** The keys of the operations file and of the missed file. */
  function Recorded(ctx: A.Context, files: A.Files): set<string> {
    A.KeysOf(A.LoadDict(files, ctx.opIdPath)) + A.KeysOf(A.LoadDict(files, ctx.missedTilesPath))
  }

  /** After the uploads every tile of `cs` has an entry in the operations
      file or in the missed file. */
  lemma {:induction false} UploadAllRecordsEvery(ctx: A.Context, st: A.State, cs: seq<G.Coord>)
    ensures var files := UploadAll(ctx, st, cs).files;
      forall c :: c in cs ==> IntTileKey(c.x, c.y, c.z) in Recorded(ctx, files)
    decreases |cs|
  {
    if |cs| > 0 {
      var pre, last := cs[..|cs| - 1], cs[|cs| - 1];
      assert cs == pre + [last];
      var s0 := UploadAll(ctx, st, pre);
      UploadAllRecordsEvery(ctx, st, pre);
      UploadAllLast(ctx, st, cs);
      var files := A.UploadStep(ctx, s0, TileOf(last)).files;
      A.UploadStepKeepsKeys(ctx, s0, TileOf(last), ctx.opIdPath);
      A.UploadStepKeepsKeys(ctx, s0, TileOf(last), ctx.missedTilesPath);
      assert Recorded(ctx, s0.files) <= Recorded(ctx, files);
      A.UploadStepFiles(ctx, s0, TileOf(last));
      assert IntTileKey(last.x, last.y, last.z) in Recorded(ctx, files);
    }
  }

  /** `recurseProcessTile`: a leaf is uploaded, then every child is visited. */
  method RecurseProcessTile(tile: Q.Tile, handler: A.AssetHandler)
    requires tile.Valid()
    modifies handler, handler.fs
    ensures handler.Snapshot() == UploadAll(handler.Ctx(), old(handler.Snapshot()), Leaves(tile.Model))
    decreases tile.Repr, 1
  {
    ghost var own: seq<G.Coord> := if tile.Model.isLeaf then [G.Coord(tile.x, tile.y, tile.zoom)] else [];
    if tile.isLeaf {
      handler.UploadTile(TileOf(G.Coord(tile.x, tile.y, tile.zoom)));
    }
    assert handler.Snapshot() == UploadAll(handler.Ctx(), old(handler.Snapshot()), own);
    ghost var rest := G.AllCandidates(tile.Model.children, false);
    RecurseChildren(tile, handler);
    UploadAllAppend(handler.Ctx(), old(handler.Snapshot()), own, rest);
  }

  /** The loop of `recurseProcessTile` over the children. */
  method RecurseChildren(tile: Q.Tile, handler: A.AssetHandler)
    requires tile.Valid()
    modifies handler, handler.fs
    ensures handler.Snapshot() == UploadAll(handler.Ctx(), old(handler.Snapshot()), G.AllCandidates(tile.Model.children, false))
    decreases tile.Repr, 0
  {
    var model := tile.Model.children;
    var i := 0;
    while i < |tile.children|
      invariant 0 <= i <= |tile.children|
      invariant handler.Snapshot() == UploadAll(handler.Ctx(), old(handler.Snapshot()), G.AllCandidates(model[..i], false))
    {
      var child := tile.children[i];
      assert child.Valid() && child.Model == model[i] && child.Repr < tile.Repr;
      ghost var pre := G.AllCandidates(model[..i], false);
      assert model[..i + 1][..i] == model[..i];
      assert G.AllCandidates(model[..i + 1], false) == pre + Leaves(model[i]);
      RecurseProcessTile(child, handler);
      UploadAllAppend(handler.Ctx(), old(handler.Snapshot()), pre, Leaves(model[i]));
      i := i + 1;
    }
    assert model[..i] == model;
  }

  /** One asset kind in `main`: the traversal, `RetrieveAllAssetIds`, then
      `ReProcessMissedTiles`; an `IndexError` from either ends the run. */
  function Flow(ctx: A.Context, st: A.State, leaves: seq<G.Coord>): A.Outcome {
    var r := A.RetrieveAll(ctx, UploadAll(ctx, st, leaves));
    if r.error.Some? then r else A.ReProcess(ctx, r.st)
  }

  /** A flow uploads every leaf, in order, before anything else reaches the
      upload function, and never forgets a tile it recorded. */
  lemma FlowUploadsLeavesFirst(ctx: A.Context, st: A.State, leaves: seq<G.Coord>, q: string)
    ensures var o := Flow(ctx, st, leaves);
      && st.uploads + TileIds(leaves) <= o.st.uploads
      && A.KeysOf(A.LoadDict(UploadAll(ctx, st, leaves).files, q)) <= A.KeysOf(A.LoadDict(o.st.files, q))
  {
    var s1 := UploadAll(ctx, st, leaves);
    UploadAllCalls(ctx, st, leaves);
    var r := A.RetrieveAll(ctx, s1);
    A.RetrieveFromCalls(ctx, s1, A.LoadDict(s1.files, ctx.opIdPath), A.KeysOf(A.LoadDict(s1.files, ctx.assetIdPath)));
    A.RetrieveFromKeepsKeys(ctx, s1, A.LoadDict(s1.files, ctx.opIdPath), A.KeysOf(A.LoadDict(s1.files, ctx.assetIdPath)), q);
    if r.error.None? {
      A.ReProcessKeepsKeys(ctx, r.st, q);
      ReProcessExtendsUploads(ctx, r.st);
    }
  }

  /** `ReProcessMissedTiles` only adds upload calls. */
  lemma ReProcessExtendsUploads(ctx: A.Context, st: A.State)
    ensures st.uploads <= A.ReProcess(ctx, st).st.uploads
  {
    var keys := A.KeySeq(A.LoadDict(st.files, ctx.missedTilesPath));
    UploadFromExtendsUploads(ctx, st, keys);
    var o := A.UploadFrom(ctx, st, keys);
    if o.error.None? {
      A.RetrieveFromCalls(ctx, o.st, A.LoadDict(o.st.files, ctx.opIdPath), A.KeysOf(A.LoadDict(o.st.files, ctx.assetIdPath)));
    }
  }

  lemma {:induction false} UploadFromExtendsUploads(ctx: A.Context, st: A.State, keys: seq<string>)
    ensures st.uploads <= A.UploadFrom(ctx, st, keys).st.uploads
    decreases |keys|
  {
    if |keys| > 0 && A.ParseTile(keys[0]).Some? {
      var st' := A.UploadStep(ctx, st, A.ParseTile(keys[0]).value);
      UploadFromExtendsUploads(ctx, st', keys[1..]);
    }
  }

  /** One asset kind in `main`, as the handler runs it. */
  method RunFlow(root: Q.Tile, handler: A.AssetHandler) returns (error: Option<string>)
    requires root.Valid()
    modifies handler, handler.fs, handler.cloud
    ensures A.Outcome(handler.Snapshot(), error) == Flow(handler.Ctx(), old(handler.Snapshot()), Leaves(root.Model))
  {
    RecurseProcessTile(root, handler);
    error := handler.RetrieveAllAssetIds();
    if error.Some? {
      return;
    }
    error := handler.ReProcessMissedTiles();
  }

  /** The flow part of `main`: with `--asset all`, images and then meshes,
      both handlers writing to one file system and asking one cloud; any
      other value does nothing. */
  method RunTileGen(root: Q.Tile, img: A.AssetHandler, mesh: A.AssetHandler, asset: string)
      returns (error: Option<string>)
    requires root.Valid()
    requires img != mesh && img.fs == mesh.fs && img.cloud == mesh.cloud
    modifies img, mesh, img.fs, img.cloud
    ensures asset != "all" ==> error.None? && unchanged(img, mesh, img.fs, img.cloud)
    ensures asset == "all" ==>
      var o1 := Flow(img.Ctx(), old(img.Snapshot()), Leaves(root.Model));
      if o1.error.Some? then
        error == o1.error && img.Snapshot() == o1.st && mesh.uploads == old(mesh.uploads)
      else
        var o2 := Flow(mesh.Ctx(), A.State(o1.st.files, old(mesh.uploads), o1.st.operations), Leaves(root.Model));
        error == o2.error && mesh.Snapshot() == o2.st && img.uploads == o1.st.uploads
  {
    error := None;
    if asset == "all" {
      error := RunFlow(root, img);
      if error.Some? {
        return;
      }
      error := RunFlow(root, mesh);
    }
  }
}
