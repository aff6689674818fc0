/**
 * The JSON-file asset handler: uploads tiles through an upload function,
 * records the operation id (or the error) per tile key in JSON files, later
 * asks the cloud for the asset id of each pending operation, and retries the
 * tiles recorded as missed. Files hold JSON objects; a file that is missing or
 * cannot be decoded reads as the empty object.
 */
module Assets {
  import opened Common
  import opened Strings

  /** One member of a JSON object. */
  datatype Entry = Entry(key: string, value: string)

  /** A JSON object as Python's `dict` keeps it: members in insertion order. */
  type Entries = seq<Entry>

  function KeysOf(e: Entries): set<string> {
    if |e| == 0 then {} else {e[0].key} + KeysOf(e[1..])
  }

  /** The keys in iteration order. */
  function KeySeq(e: Entries): (ks: seq<string>)
    ensures |ks| == |e|
    ensures forall i :: 0 <= i < |e| ==> ks[i] == e[i].key
  {
    if |e| == 0 then [] else [e[0].key] + KeySeq(e[1..])
  }

  /** `d.get(k)` */
  function Lookup(e: Entries, k: string): (r: Option<string>)
    ensures r.Some? <==> k in KeysOf(e)
  {
    if |e| == 0 then None
    else if e[0].key == k then Some(e[0].value)
    else Lookup(e[1..], k)
  }

  /** `d[k] = v`: an existing key keeps its place, a new key goes last. */
  function Put(e: Entries, k: string, v: string): (r: Entries)
    ensures Lookup(r, k) == Some(v)
    ensures forall k' :: k' != k ==> Lookup(r, k') == Lookup(e, k')
    ensures KeysOf(r) == KeysOf(e) + {k}
    ensures k !in KeysOf(e) ==> r == e + [Entry(k, v)]
    ensures k in KeysOf(e) ==> |r| == |e| && forall i :: 0 <= i < |e| ==> r[i].key == e[i].key
  {
    if |e| == 0 then [Entry(k, v)]
    else if e[0].key == k then [Entry(k, v)] + e[1..]
    else [e[0]] + Put(e[1..], k, v)
  }

  /** No key occurs twice, as in every object `json.dump` writes from a `dict`. */
  predicate DistinctKeys(e: Entries) {
    forall i, j :: 0 <= i < j < |e| ==> e[i].key != e[j].key
  }

  lemma {:induction false} KeysOfIndex(e: Entries, k: string)
    ensures k in KeysOf(e) <==> exists i :: 0 <= i < |e| && e[i].key == k
  {
    if |e| > 0 {
      KeysOfIndex(e[1..], k);
      if k in KeysOf(e[1..]) {
        var i :| 0 <= i < |e[1..]| && e[1..][i].key == k;
        assert e[i + 1].key == k;
      }
      forall i | 0 < i < |e| && e[i].key == k
        ensures k in KeysOf(e[1..])
      {
        assert e[1..][i - 1].key == k;
      }
    }
  }

  /** Assigning a key keeps the keys distinct. */
  lemma PutDistinct(e: Entries, k: string, v: string)
    requires DistinctKeys(e)
    ensures DistinctKeys(Put(e, k, v))
  {
    if k !in KeysOf(e) {
      forall i | 0 <= i < |e|
        ensures e[i].key != k
      {
        KeysOfIndex(e, k);
      }
    }
  }

  /** `json.load` building a `dict` from the members as they appear in the
      file, on top of `acc`: a repeated key keeps its first place and takes
      its last value. */
  function Decode(acc: Entries, members: Entries): Entries
    decreases |members|
  {
    if |members| == 0 then acc
    else Decode(Put(acc, members[0].key, members[0].value), members[1..])
  }

  /** The value the last occurrence of `k` among the members gives it. */
  function LastValue(members: Entries, k: string): Option<string>
    decreases |members|
  {
    if |members| == 0 then None
    else
      var later := LastValue(members[1..], k);
      if later.Some? then later
      else if members[0].key == k then Some(members[0].value)
      else None
  }

  /** A decoded object has distinct keys, holds exactly the keys of the file,
      and gives each key the value of its last occurrence. */
  lemma {:induction false} DecodeMeaning(acc: Entries, members: Entries, k: string)
    requires DistinctKeys(acc)
    ensures DistinctKeys(Decode(acc, members))
    ensures KeysOf(Decode(acc, members)) == KeysOf(acc) + KeysOf(members)
    ensures Lookup(Decode(acc, members), k) == if LastValue(members, k).Some? then LastValue(members, k) else Lookup(acc, k)
    decreases |members|
  {
    if |members| > 0 {
      PutDistinct(acc, members[0].key, members[0].value);
      DecodeMeaning(Put(acc, members[0].key, members[0].value), members[1..], k);
    }
  }

  /** Decoding members whose keys are distinct, and distinct from those of
      `acc`, appends them unchanged: `json.load` reads back what `json.dump` wrote. */
  lemma {:induction false} DecodeDistinct(acc: Entries, members: Entries)
    requires DistinctKeys(acc + members)
    ensures Decode(acc, members) == acc + members
    decreases |members|
  {
    if |members| > 0 {
      var m := members[0];
      forall i | 0 <= i < |acc|
        ensures acc[i].key != m.key
      {
        assert (acc + members)[i] == acc[i] && (acc + members)[|acc|] == m;
      }
      KeysOfIndex(acc, m.key);
      assert Put(acc, m.key, m.value) == acc + [m];
      assert (acc + [m]) + members[1..] == acc + members;
      DecodeDistinct(acc + [m], members[1..]);
    }
  }

  /** A file holding one key twice: `json.load` keeps one member, with the later value. */
  lemma DecodeRepeatedKey()
    ensures Decode([], [Entry("1_2_3", "op-a"), Entry("1_2_3", "op-b")]) == [Entry("1_2_3", "op-b")]
  {
    var twice := [Entry("1_2_3", "op-a"), Entry("1_2_3", "op-b")];
    assert twice[1..] == [Entry("1_2_3", "op-b")];
    assert Put([Entry("1_2_3", "op-a")], "1_2_3", "op-b") == [Entry("1_2_3", "op-b")];
  }

  /** What a file holds: the members of a JSON object as written, or text
      that does not decode. */
  datatype FileContent = Json(members: Entries) | Undecodable

  type Files = map<string, FileContent>

  /** `json.load` guarded as the handler guards it: a missing or undecodable
      file reads as `{}`. */
  function LoadDict(files: Files, path: string): Entries {
    if path in files && files[path].Json? then Decode([], files[path].members) else []
  }

  /** The object read from a file has distinct keys, and reading back an
      object that was written gives it unchanged. */
  lemma LoadDictDistinct(files: Files, path: string)
    ensures DistinctKeys(LoadDict(files, path))
    ensures forall d :: DistinctKeys(d) ==> LoadDict(files[path := Json(d)], path) == d
  {
    if path in files && files[path].Json? {
      DecodeMeaning([], files[path].members, "");
    }
    forall d | DistinctKeys(d)
      ensures LoadDict(files[path := Json(d)], path) == d
    {
      assert [] + d == d;
      DecodeDistinct([], d);
    }
  }

  /** `SaveTileToJSON`'s effect on the files: the object at `path` gains (or
      updates) `key`, every other key and every other file is untouched. */
  function SaveJson(files: Files, path: string, key: string, value: string): (r: Files)
    ensures LoadDict(r, path) == Put(LoadDict(files, path), key, value)
    ensures Lookup(LoadDict(r, path), key) == Some(value)
    ensures forall k :: k != key ==> Lookup(LoadDict(r, path), k) == Lookup(LoadDict(files, path), k)
    ensures KeysOf(LoadDict(r, path)) == KeysOf(LoadDict(files, path)) + {key}
    ensures forall q :: q != path ==> (q in r <==> q in files) && (q in r ==> r[q] == files[q])
  {
    var d := Put(LoadDict(files, path), key, value);
    LoadDictDistinct(files, path);
    PutDistinct(LoadDict(files, path), key, value);
    files[path := Json(d)]
  }

  /** Saving never removes a key from any file. */
  lemma SaveJsonKeepsKeys(files: Files, path: string, key: string, value: string, q: string)
    ensures KeysOf(LoadDict(files, q)) <= KeysOf(LoadDict(SaveJson(files, path, key, value), q))
  {
  }

  /** A tile as the handler sees it: `x`, `y`, `z` as they are formatted into the key. */
  datatype TileId = TileId(x: string, y: string, z: string)

  /** `f"{x}_{y}_{z}"` */
  function KeyOf(t: TileId): string {
    TileKey(t.x, t.y, t.z)
  }

  /** `tile.split("_")` followed by `tile_parts[0]`, `[1]`, `[2]`; fewer than
      three parts raise `IndexError`. */
  function ParseTile(k: string): (r: Option<TileId>)
    ensures r.Some? <==> |Split(k, '_')| >= 3
  {
    var parts := Split(k, '_');
    if |parts| < 3 then None else Some(TileId(parts[0], parts[1], parts[2]))
  }

  const IndexErrorMessage := "list index out of range"

  /** The prefix the handler writes before an asset id. */
  const AssetIdPrefix := "rbxassetid://"

  /** A handler's configuration: its three files, its upload function and the
      cloud's `GetOperation`. Both collaborators are oracles: the answer to
      the n-th call may depend on n and on the argument. */
  datatype Context = Context(
    assetIdPath: string,
    opIdPath: string,
    missedTilesPath: string,
    upload: (nat, TileId) -> Result<string>,
    getOperation: (nat, string) -> Result<string>)

  /** The observable state: the files, the upload calls and the `GetOperation` calls so far. */
  datatype State = State(files: Files, uploads: seq<TileId>, operations: seq<string>)

  /** The end state of a run, and the exception it raised, if any. */
  datatype Outcome = Outcome(st: State, error: Option<string>)

  /** `UploadTile`: one call of the upload function, whose answer is saved. */
  function UploadStep(ctx: Context, st: State, t: TileId): (r: State)
    ensures r.uploads == st.uploads + [t] && r.operations == st.operations
  {
    var res := ctx.upload(|st.uploads|, t);
    var files := match res
      case Success(opId) => SaveJson(st.files, ctx.opIdPath, KeyOf(t), opId)
      case Failure(e) => SaveJson(st.files, ctx.missedTilesPath, KeyOf(t), e);
    State(files, st.uploads + [t], st.operations)
  }

  /** On success the operation id goes to the operations file only; on
      failure the error text goes to the missed file only. */
  lemma UploadStepFiles(ctx: Context, st: State, t: TileId)
    ensures var r := UploadStep(ctx, st, t);
      var res := ctx.upload(|st.uploads|, t);
      && (res.Success? ==> Lookup(LoadDict(r.files, ctx.opIdPath), KeyOf(t)) == Some(res.value))
      && (res.Failure? ==> Lookup(LoadDict(r.files, ctx.missedTilesPath), KeyOf(t)) == Some(res.error))
      && (forall q :: q != (if res.Success? then ctx.opIdPath else ctx.missedTilesPath) ==>
            LoadDict(r.files, q) == LoadDict(st.files, q))
  {
  }

  /** `RetrieveAssetIdTile`: one `GetOperation` call, whose answer is saved. */
  function RetrieveStep(ctx: Context, st: State, t: TileId, opId: string): (r: State)
    ensures r.uploads == st.uploads && r.operations == st.operations + [opId]
  {
    var res := ctx.getOperation(|st.operations|, opId);
    var files := match res
      case Success(assetId) => SaveJson(st.files, ctx.assetIdPath, KeyOf(t), AssetIdPrefix + assetId)
      case Failure(e) => SaveJson(st.files, ctx.missedTilesPath, KeyOf(t), e);
    State(files, st.uploads, st.operations + [opId])
  }

  /** On success `rbxassetid://<id>` goes to the asset-id file only; on
      failure the error text goes to the missed file only. */
  lemma RetrieveStepFiles(ctx: Context, st: State, t: TileId, opId: string)
    ensures var r := RetrieveStep(ctx, st, t, opId);
      var res := ctx.getOperation(|st.operations|, opId);
      && (res.Success? ==> Lookup(LoadDict(r.files, ctx.assetIdPath), KeyOf(t)) == Some(AssetIdPrefix + res.value))
      && (res.Failure? ==> Lookup(LoadDict(r.files, ctx.missedTilesPath), KeyOf(t)) == Some(res.error))
      && (forall q :: q != (if res.Success? then ctx.assetIdPath else ctx.missedTilesPath) ==>
            LoadDict(r.files, q) == LoadDict(st.files, q))
  {
  }

  /** The loop of `RetrieveAllAssetIds` over the remaining operations `ops`,
      skipping keys of the asset-id object read at the start. */
  function RetrieveFrom(ctx: Context, st: State, ops: Entries, resolved: set<string>): Outcome
    decreases |ops|
  {
    if |ops| == 0 then Outcome(st, None)
    else if ops[0].key in resolved then RetrieveFrom(ctx, st, ops[1..], resolved)
    else match ParseTile(ops[0].key)
      case None => Outcome(st, Some(IndexErrorMessage))
      case Some(t) => RetrieveFrom(ctx, RetrieveStep(ctx, st, t, ops[0].value), ops[1..], resolved)
  }

  /** `RetrieveAllAssetIds`: both files are read once, before the loop. */
  function RetrieveAll(ctx: Context, st: State): Outcome {
    RetrieveFrom(ctx, st, LoadDict(st.files, ctx.opIdPath), KeysOf(LoadDict(st.files, ctx.assetIdPath)))
  }

  /** The upload loop of `ReProcessMissedTiles` over the remaining missed keys. */
  function UploadFrom(ctx: Context, st: State, keys: seq<string>): Outcome
    decreases |keys|
  {
    if |keys| == 0 then Outcome(st, None)
    else match ParseTile(keys[0])
      case None => Outcome(st, Some(IndexErrorMessage))
      case Some(t) => UploadFrom(ctx, UploadStep(ctx, st, t), keys[1..])
  }

  /** `ReProcessMissedTiles`: one upload per missed key, read once, then `RetrieveAllAssetIds`. */
  function ReProcess(ctx: Context, st: State): Outcome {
    var o := UploadFrom(ctx, st, KeySeq(LoadDict(st.files, ctx.missedTilesPath)));
    if o.error.Some? then o else RetrieveAll(ctx, o.st)
  }

  /** The operation ids of the operations whose key is not yet resolved, in order. */
  function PendingOps(ops: Entries, resolved: set<string>): seq<string> {
    if |ops| == 0 then []
    else if ops[0].key in resolved then PendingOps(ops[1..], resolved)
    else [ops[0].value] + PendingOps(ops[1..], resolved)
  }

  /** Every unresolved operation key splits into at least three parts. */
  predicate PendingParse(ops: Entries, resolved: set<string>) {
    forall i :: 0 <= i < |ops| && ops[i].key !in resolved ==> ParseTile(ops[i].key).Some?
  }

  /** `GetOperation` is asked exactly for the unresolved operations, in the
      order of the operations object, and the run raises exactly when one of
      their keys does not split into three parts. Nothing is uploaded. */
  lemma {:induction false} RetrieveFromCalls(ctx: Context, st: State, ops: Entries, resolved: set<string>)
    ensures var o := RetrieveFrom(ctx, st, ops, resolved);
      && o.st.uploads == st.uploads
      && (o.error.None? <==> PendingParse(ops, resolved))
      && (o.error.None? ==> o.st.operations == st.operations + PendingOps(ops, resolved))
    decreases |ops|
  {
    if |ops| > 0 {
      assert forall i :: 1 <= i < |ops| ==> ops[i] == ops[1..][i - 1];
      if ops[0].key in resolved {
        RetrieveFromCalls(ctx, st, ops[1..], resolved);
      } else if ParseTile(ops[0].key).Some? {
        var t := ParseTile(ops[0].key).value;
        RetrieveFromCalls(ctx, RetrieveStep(ctx, st, t, ops[0].value), ops[1..], resolved);
      }
    }
  }

  /** An operations file holding `"1_2_3"` twice, with no asset-id file:
      `GetOperation` is asked once, for the later operation id. */
  lemma RetrieveRepeatedKey(ctx: Context, st: State)
    requires ctx.opIdPath in st.files
    requires st.files[ctx.opIdPath] == Json([Entry("1_2_3", "op-a"), Entry("1_2_3", "op-b")])
    requires ctx.assetIdPath !in st.files
    ensures RetrieveAll(ctx, st).error == None
    ensures RetrieveAll(ctx, st).st.operations == st.operations + ["op-b"]
  {
    DecodeRepeatedKey();
    var ops := [Entry("1_2_3", "op-b")];
    assert LoadDict(st.files, ctx.opIdPath) == ops;
    assert Split("1_2_3", '_') == ["1", "2", "3"] by {
      SplitTileKey("1", "2", "3");
      assert TileKey("1", "2", "3") == "1_2_3";
    }
    assert ops[1..] == [];
  }

  /** When every operation already has an asset id, `RetrieveAllAssetIds`
      changes nothing and makes no `GetOperation` call. */
  lemma {:induction false} RetrieveFromResolved(ctx: Context, st: State, ops: Entries, resolved: set<string>)
    requires KeysOf(ops) <= resolved
    ensures RetrieveFrom(ctx, st, ops, resolved) == Outcome(st, None)
    decreases |ops|
  {
    if |ops| > 0 {
      RetrieveFromResolved(ctx, st, ops[1..], resolved);
    }
  }

  /** With the operations and asset ids in one and the same file every
      operation counts as resolved, so `RetrieveAllAssetIds` does nothing. */
  lemma AliasedPathsRetrieveNothing(ctx: Context, st: State)
    requires ctx.opIdPath == ctx.assetIdPath
    ensures RetrieveAll(ctx, st) == Outcome(st, None)
  {
    RetrieveFromResolved(ctx, st, LoadDict(st.files, ctx.opIdPath), KeysOf(LoadDict(st.files, ctx.assetIdPath)));
  }

  /** A retrieve step never removes a key from any file. */
  lemma RetrieveStepKeepsKeys(ctx: Context, st: State, t: TileId, opId: string, q: string)
    ensures KeysOf(LoadDict(st.files, q)) <= KeysOf(LoadDict(RetrieveStep(ctx, st, t, opId).files, q))
  {
    var res := ctx.getOperation(|st.operations|, opId);
    match res
    case Success(a) => SaveJsonKeepsKeys(st.files, ctx.assetIdPath, KeyOf(t), AssetIdPrefix + a, q);
    case Failure(e) => SaveJsonKeepsKeys(st.files, ctx.missedTilesPath, KeyOf(t), e, q);
  }

  /** An upload step never removes a key from any file. */
  lemma UploadStepKeepsKeys(ctx: Context, st: State, t: TileId, q: string)
    ensures KeysOf(LoadDict(st.files, q)) <= KeysOf(LoadDict(UploadStep(ctx, st, t).files, q))
  {
    var res := ctx.upload(|st.uploads|, t);
    match res
    case Success(a) => SaveJsonKeepsKeys(st.files, ctx.opIdPath, KeyOf(t), a, q);
    case Failure(e) => SaveJsonKeepsKeys(st.files, ctx.missedTilesPath, KeyOf(t), e, q);
  }

  lemma {:induction false} RetrieveFromKeepsKeys(ctx: Context, st: State, ops: Entries, resolved: set<string>, q: string)
    ensures KeysOf(LoadDict(st.files, q)) <= KeysOf(LoadDict(RetrieveFrom(ctx, st, ops, resolved).st.files, q))
    decreases |ops|
  {
    if |ops| > 0 {
      if ops[0].key in resolved {
        RetrieveFromKeepsKeys(ctx, st, ops[1..], resolved, q);
      } else if ParseTile(ops[0].key).Some? {
        var t := ParseTile(ops[0].key).value;
        RetrieveStepKeepsKeys(ctx, st, t, ops[0].value, q);
        RetrieveFromKeepsKeys(ctx, RetrieveStep(ctx, st, t, ops[0].value), ops[1..], resolved, q);
      }
    }
  }

  lemma {:induction false} UploadFromKeepsKeys(ctx: Context, st: State, keys: seq<string>, q: string)
    ensures KeysOf(LoadDict(st.files, q)) <= KeysOf(LoadDict(UploadFrom(ctx, st, keys).st.files, q))
    decreases |keys|
  {
    if |keys| > 0 && ParseTile(keys[0]).Some? {
      var t := ParseTile(keys[0]).value;
      UploadStepKeepsKeys(ctx, st, t, q);
      UploadFromKeepsKeys(ctx, UploadStep(ctx, st, t), keys[1..], q);
    }
  }

  /** `ReProcessMissedTiles` never removes a key from the missed file, nor from
      any other file. */
  lemma ReProcessKeepsKeys(ctx: Context, st: State, q: string)
    ensures KeysOf(LoadDict(st.files, q)) <= KeysOf(LoadDict(ReProcess(ctx, st).st.files, q))
  {
    var o := UploadFrom(ctx, st, KeySeq(LoadDict(st.files, ctx.missedTilesPath)));
    UploadFromKeepsKeys(ctx, st, KeySeq(LoadDict(st.files, ctx.missedTilesPath)), q);
    if o.error.None? {
      RetrieveFromKeepsKeys(ctx, o.st, LoadDict(o.st.files, ctx.opIdPath), KeysOf(LoadDict(o.st.files, ctx.assetIdPath)), q);
    }
  }

  /** The tiles named by keys that all split into at least three parts. */
  function TilesOf(keys: seq<string>): (ts: seq<TileId>)
    requires forall i :: 0 <= i < |keys| ==> ParseTile(keys[i]).Some?
    ensures |ts| == |keys|
  {
    if |keys| == 0 then [] else [ParseTile(keys[0]).value] + TilesOf(keys[1..])
  }

  /** The upload loop uploads each missed tile once, in the order of the missed
      object, without asking for any operation; it raises exactly when a key
      does not split into three parts. */
  lemma {:induction false} UploadFromCalls(ctx: Context, st: State, keys: seq<string>)
    ensures var o := UploadFrom(ctx, st, keys);
      && o.st.operations == st.operations
      && (o.error.None? <==> forall i :: 0 <= i < |keys| ==> ParseTile(keys[i]).Some?)
      && (o.error.None? ==> o.st.uploads == st.uploads + TilesOf(keys))
    decreases |keys|
  {
    if |keys| > 0 {
      var rest := keys[1..];
      assert forall i :: 1 <= i < |keys| ==> keys[i] == rest[i - 1];
      if ParseTile(keys[0]).Some? {
        var t := ParseTile(keys[0]).value;
        var st' := UploadStep(ctx, st, t);
        UploadFromCalls(ctx, st', rest);
        var o := UploadFrom(ctx, st', rest);
        assert UploadFrom(ctx, st, keys) == o;
        if o.error.None? {
          assert TilesOf(keys) == [t] + TilesOf(rest);
          ConcatAssoc(st.uploads, [t], TilesOf(rest));
        }
      }
    }
  }

  /** A key made of three parts without `_` is the key the asset id is saved
      under: retrieving splits the operations key and formats it back unchanged. */
  lemma RetrieveKeepsKey(k: string)
    requires |Split(k, '_')| == 3
    ensures ParseTile(k).Some? && KeyOf(ParseTile(k).value) == k
  {
    TileKeyOfSplit(k);
  }

  /** Keys formatted from integer coordinates parse back into those coordinates' text. */
  lemma IntKeyParses(x: int, y: int, z: int)
    ensures ParseTile(IntTileKey(x, y, z)) == Some(TileId(IntToString(x), IntToString(y), IntToString(z)))
  {
    SplitTileKey(IntToString(x), IntToString(y), IntToString(z));
  }

  /** The file system the handler writes to. */
  class FileSystem {
    var files: Files

    constructor (files: Files)
      ensures this.files == files
    {
      this.files := files;
    }
  }

  /** The cloud client; it remembers the operation ids it was asked about. */
  class Cloud {
    const getOperation: (nat, string) -> Result<string>
    var operations: seq<string>

    constructor (getOperation: (nat, string) -> Result<string>)
      ensures this.getOperation == getOperation && operations == []
    {
      this.getOperation := getOperation;
      operations := [];
    }

    /** `ROBLOX.GetOperation(op_id)`: the asset id, or the error it raised. */
    method GetOperation(opId: string) returns (r: Result<string>)
      modifies this
      ensures operations == old(operations) + [opId]
      ensures r == getOperation(|old(operations)|, opId)
    {
      r := getOperation(|operations|, opId);
      operations := operations + [opId];
    }
  }

  /** `SaveTileToJSON`: read the object (or `{}`), set the key, write it back. */
  method SaveTileToJson(fs: FileSystem, t: TileId, value: string, path: string)
    modifies fs
    ensures fs.files == SaveJson(old(fs.files), path, KeyOf(t), value)
  {
    var keys := LoadDict(fs.files, path);
    keys := Put(keys, KeyOf(t), value);
    fs.files := fs.files[path := Json(keys)];
  }

  class AssetHandler {
    const assetIdPath: string
    const opIdPath: string
    const missedTilesPath: string
    const uploadFunc: (nat, TileId) -> Result<string>
    const fs: FileSystem
    const cloud: Cloud
    /** The tiles handed to `upload_func` so far. */
    var uploads: seq<TileId>

    constructor (assetIdPath: string, opIdPath: string, missedTilesPath: string,
                 uploadFunc: (nat, TileId) -> Result<string>, fs: FileSystem, cloud: Cloud)
      ensures this.assetIdPath == assetIdPath && this.opIdPath == opIdPath && this.missedTilesPath == missedTilesPath
      ensures this.uploadFunc == uploadFunc && this.fs == fs && this.cloud == cloud && uploads == []
    {
      this.assetIdPath := assetIdPath;
      this.opIdPath := opIdPath;
      this.missedTilesPath := missedTilesPath;
      this.uploadFunc := uploadFunc;
      this.fs := fs;
      this.cloud := cloud;
      uploads := [];
    }

    function Ctx(): Context {
      Context(assetIdPath, opIdPath, missedTilesPath, uploadFunc, cloud.getOperation)
    }

    function Snapshot(): State
      reads this, fs, cloud
    {
      State(fs.files, uploads, cloud.operations)
    }

    /** `UploadTile`: never raises. */
    method UploadTile(t: TileId)
      modifies this, fs
      ensures Snapshot() == UploadStep(Ctx(), old(Snapshot()), t)
    {
      var r := uploadFunc(|uploads|, t);
      uploads := uploads + [t];
      match r {
        case Success(opId) => SaveTileToJson(fs, t, opId, opIdPath);
        case Failure(e) => SaveTileToJson(fs, t, e, missedTilesPath);
      }
    }

    /** `RetrieveAssetIdTile`: never raises. */
    method RetrieveAssetIdTile(t: TileId, opId: string)
      modifies fs, cloud
      ensures Snapshot() == RetrieveStep(Ctx(), old(Snapshot()), t, opId)
    {
      var r := cloud.GetOperation(opId);
      match r {
        case Success(assetId) => SaveTileToJson(fs, t, AssetIdPrefix + assetId, assetIdPath);
        case Failure(e) => SaveTileToJson(fs, t, e, missedTilesPath);
      }
    }

    /** `RetrieveAllAssetIds`; returns the `IndexError` raised on a malformed key. */
    method RetrieveAllAssetIds() returns (error: Option<string>)
      modifies fs, cloud
      ensures Outcome(Snapshot(), error) == RetrieveAll(Ctx(), old(Snapshot()))
    {
      var tileOps := LoadDict(fs.files, opIdPath);
      var assetIds := LoadDict(fs.files, assetIdPath);
      var resolved := KeysOf(assetIds);
      var i := 0;
      while i < |tileOps|
        invariant 0 <= i <= |tileOps|
        invariant RetrieveFrom(Ctx(), Snapshot(), tileOps[i..], resolved) == RetrieveAll(Ctx(), old(Snapshot()))
      {
        assert tileOps[i..][1..] == tileOps[i + 1..];
        if tileOps[i].key !in resolved {
          var tile := ParseTile(tileOps[i].key);
          if tile.None? {
            return Some(IndexErrorMessage);
          }
          RetrieveAssetIdTile(tile.value, tileOps[i].value);
        }
        i := i + 1;
      }
      error := None;
    }

    /** `ReProcessMissedTiles`: one pass over the missed keys, then `RetrieveAllAssetIds`. */
    method ReProcessMissedTiles() returns (error: Option<string>)
      modifies this, fs, cloud
      ensures Outcome(Snapshot(), error) == ReProcess(Ctx(), old(Snapshot()))
    {
      var missed := KeySeq(LoadDict(fs.files, missedTilesPath));
      var i := 0;
      while i < |missed|
        invariant 0 <= i <= |missed|
        invariant UploadFrom(Ctx(), Snapshot(), missed[i..]) == UploadFrom(Ctx(), old(Snapshot()), missed)
      {
        assert missed[i..][1..] == missed[i + 1..];
        var tile := ParseTile(missed[i]);
        if tile.None? {
          return Some(IndexErrorMessage);
        }
        UploadTile(tile.value);
        i := i + 1;
      }
      error := RetrieveAllAssetIds();
    }
  }
}
