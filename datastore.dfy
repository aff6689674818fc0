/**
 * The export of database tables to the game's key-value datastore
 * (src/sqlite_to_datastore.py): the rows of a table are packed greedily
 * into size-bounded chunks numbered 0, 1, 2, ..., and each chunk is stored
 * under the key `chunk_<id>`.
 *
 * The JSON sizes are parameters: `entrySize(key, value)` stands for the
 * length of `"key":"value"` and `baseSize` for the length of an empty chunk
 * with its `chunk_info`. The datastore is an oracle.
 */
module Datastore {
  import opened Common
  import opened Strings
  import A = Assets
  import Sqlite

  // ---------------------------------------------------------------------
  // Keys and names

  function Pow10(k: nat): (p: nat)
    ensures p >= 1
  {
    if k == 0 then 1 else 10 * Pow10(k - 1)
  }

  const ChunkKeyPrefix := "chunk_"

  /** `create_chunk_key`: the prefix followed by the decimal id. */
  function CreateChunkKey(id: nat): (k: string)
    ensures |k| == |ChunkKeyPrefix| + |NatToString(id)|
    ensures k[..|ChunkKeyPrefix|] == ChunkKeyPrefix && ParseNat(k[|ChunkKeyPrefix|..]) == id
  {
    ParseNatToString(id);
    var k := ChunkKeyPrefix + NatToString(id);
    assert k[|ChunkKeyPrefix|..] == NatToString(id);
    k
  }

  /** A natural number has at most `k` digits exactly when it is below 10^k. */
  lemma {:induction false} DigitsBound(n: nat, k: nat)
    requires k >= 1
    ensures |NatToString(n)| <= k <==> n < Pow10(k)
    decreases n
  {
    if n >= 10 {
      assert |NatToString(n)| == |NatToString(n / 10)| + 1;
      if k == 1 {
        assert Pow10(1) == 10;
      } else {
        DigitsBound(n / 10, k - 1);
        assert n / 10 < Pow10(k - 1) <==> n < 10 * Pow10(k - 1);
      }
    } else {
      assert Pow10(k) >= 10 by { assert Pow10(k) == 10 * Pow10(k - 1); }
    }
  }

  /** The key of chunk `id` stays under the 50-character limit exactly when
      the id has at most 43 digits. */
  lemma ChunkKeyFits(id: nat)
    ensures |CreateChunkKey(id)| < 50 <==> id < Pow10(43)
  {
    DigitsBound(id, 43);
  }

  predicate IsUpper(c: char) { 'A' <= c <= 'Z' }
  predicate IsLower(c: char) { 'a' <= c <= 'z' }
  predicate IsLetter(c: char) { IsUpper(c) || IsLower(c) }

  function ToUpper(c: char): char { if IsLower(c) then (c as int - 32) as char else c }
  function ToLower(c: char): char { if IsUpper(c) then (c as int + 32) as char else c }

  /** `s.replace("_", "")` */
  function RemoveUnderscores(s: string): (r: string)
    ensures '_' !in r
    ensures '_' !in s ==> r == s
  {
    if |s| == 0 then ""
    else if s[0] == '_' then RemoveUnderscores(s[1..])
    else
      assert s == [s[0]] + s[1..];
      [s[0]] + RemoveUnderscores(s[1..])
  }

  /** Removing the underscores keeps every other character, each as often as
      it occurs in the name. */
  lemma {:induction false} RemoveUnderscoresKeeps(s: string, c: char)
    ensures multiset(RemoveUnderscores(s))[c] == if c == '_' then 0 else multiset(s)[c]
  {
    if |s| > 0 {
      RemoveUnderscoresKeeps(s[1..], c);
      assert s == [s[0]] + s[1..];
      if s[0] != '_' {
        assert RemoveUnderscores(s) == [s[0]] + RemoveUnderscores(s[1..]);
      }
    }
  }

  /** `str.title` on ASCII text: a letter is upper-cased when the character
      before it is not a letter and lower-cased when it is; `afterLetter`
      says whether the text is preceded by a letter. */
  function TitleFrom(s: string, afterLetter: bool): (r: string)
    ensures |r| == |s|
    ensures forall i :: 0 <= i < |s| ==> (IsLetter(r[i]) <==> IsLetter(s[i]))
    ensures forall i :: 0 <= i < |s| && !IsLetter(s[i]) ==> r[i] == s[i]
    ensures forall i :: 0 <= i < |s| ==> ToLower(r[i]) == ToLower(s[i])
  {
    if |s| == 0 then ""
    else
      var c := if !IsLetter(s[0]) then s[0] else if afterLetter then ToLower(s[0]) else ToUpper(s[0]);
      var rest := TitleFrom(s[1..], IsLetter(s[0]));
      assert forall i :: 1 <= i < |s| ==> ([c] + rest)[i] == rest[i - 1] && s[i] == s[1..][i - 1];
      [c] + rest
  }

  function Title(s: string): string {
    TitleFrom(s, false)
  }

  /** Each word of letters starts with a capital and continues in lower case. */
  lemma {:induction false} TitleWords(s: string, afterLetter: bool)
    ensures var r := TitleFrom(s, afterLetter);
      forall i :: 0 <= i < |s| && IsLetter(s[i]) ==>
        if (if i == 0 then afterLetter else IsLetter(s[i - 1])) then IsLower(r[i]) else IsUpper(r[i])
    decreases |s|
  {
    if |s| > 0 {
      TitleWords(s[1..], IsLetter(s[0]));
      var r := TitleFrom(s, afterLetter);
      assert r[1..] == TitleFrom(s[1..], IsLetter(s[0]));
      forall i | 1 <= i < |s| && IsLetter(s[i])
        ensures if IsLetter(s[i - 1]) then IsLower(r[i]) else IsUpper(r[i])
      {
        assert s[1..][i - 1] == s[i];
        if i > 1 {
          assert s[1..][i - 2] == s[i - 1];
        }
      }
    }
  }

  /** Titling twice changes nothing more. */
  lemma {:induction false} TitleIdempotent(s: string, afterLetter: bool)
    ensures TitleFrom(TitleFrom(s, afterLetter), afterLetter) == TitleFrom(s, afterLetter)
    decreases |s|
  {
    if |s| > 0 {
      var r := TitleFrom(s, afterLetter);
      assert r[1..] == TitleFrom(s[1..], IsLetter(s[0]));
      TitleIdempotent(s[1..], IsLetter(s[0]));
    }
  }

  /** `create_datastore_name`: the prefix, the table name without
      underscores in title case, the suffix. */
  function CreateDatastoreName(table: string, prefix: string, suffix: string): (n: string)
    ensures |n| == |prefix| + |RemoveUnderscores(table)| + |suffix|
    ensures n[..|prefix|] == prefix && n[|n| - |suffix|..] == suffix
    ensures '_' !in n[|prefix|..|n| - |suffix|]
    ensures forall i :: 0 <= i < |RemoveUnderscores(table)| ==>
      ToLower(n[|prefix| + i]) == ToLower(RemoveUnderscores(table)[i])
  {
    var middle := Title(RemoveUnderscores(table));
    var n := prefix + middle + suffix;
    assert n[|prefix|..|n| - |suffix|] == middle;
    assert '_' !in middle by {
      forall i | 0 <= i < |middle|
        ensures middle[i] != '_'
      {
        assert RemoveUnderscores(table)[i] in RemoveUnderscores(table);
      }
    }
    n
  }

  // ---------------------------------------------------------------------
  // create_tile_chunks

  /** The JSON sizes the packing measures. */
  datatype Sizing = Sizing(maxChunkSize: int, baseSize: nat, entrySize: (string, string) -> nat)

  /** A chunk as uploaded: its tiles object and its `chunk_info` (the upload
      time is not modelled). */
  datatype Chunk = Chunk(tiles: A.Entries, chunkId: nat, tileCount: nat, table: string)

  /** The loop state: finished chunks, the tiles of the open chunk, their
      size, and the id of the open chunk. */
  datatype Packer = Packer(chunks: seq<Chunk>, current: A.Entries, size: nat, id: nat)

  function EntryOf(r: Sqlite.Row): A.Entry {
    A.Entry(IntTileKey(r.x, r.y, r.z), r.value)
  }

  /** The tiles as `"x_y_z": value` pairs, in order. */
  function EntriesOf(rows: seq<Sqlite.Row>): (es: A.Entries)
    ensures |es| == |rows|
  {
    if |rows| == 0 then [] else EntriesOf(rows[..|rows| - 1]) + [EntryOf(rows[|rows| - 1])]
  }

  /** One iteration of the loop of `create_tile_chunks`. */
  function Step(sz: Sizing, table: string, p: Packer, r: Sqlite.Row): Packer {
    var key := IntTileKey(r.x, r.y, r.z);
    var entrySize := sz.entrySize(key, r.value);
    var q := if |p.current| > 0 && p.size + entrySize + sz.baseSize > sz.maxChunkSize
      then Packer(p.chunks + [Chunk(p.current, p.id, |p.current|, table)], [], 0, p.id + 1)
      else p;
    Packer(q.chunks, A.Put(q.current, key, r.value), q.size + entrySize, q.id)
  }

  function Pack(sz: Sizing, table: string, rows: seq<Sqlite.Row>): Packer {
    if |rows| == 0 then Packer([], [], 0, 0)
    else Step(sz, table, Pack(sz, table, rows[..|rows| - 1]), rows[|rows| - 1])
  }

  /** The chunks `create_tile_chunks` returns: the loop, then the open chunk if it has tiles. */
  function Chunks(sz: Sizing, table: string, rows: seq<Sqlite.Row>): seq<Chunk> {
    var p := Pack(sz, table, rows);
    if |p.current| > 0 then p.chunks + [Chunk(p.current, p.id, |p.current|, table)] else p.chunks
  }

  /** `create_tile_chunks` */
  method CreateTileChunks(rows: seq<Sqlite.Row>, table: string, sz: Sizing) returns (chunks: seq<Chunk>)
    ensures chunks == Chunks(sz, table, rows)
  {
    chunks := [];
    var current: A.Entries := [];
    var size: nat := 0;
    var id: nat := 0;
    var i := 0;
    while i < |rows|
      invariant 0 <= i <= |rows|
      invariant Packer(chunks, current, size, id) == Pack(sz, table, rows[..i])
    {
      assert rows[..i + 1][..i] == rows[..i];
      var r := rows[i];
      ghost var next := Step(sz, table, Packer(chunks, current, size, id), r);
      assert Pack(sz, table, rows[..i + 1]) == next;
      var key := IntTileKey(r.x, r.y, r.z);
      var entrySize := sz.entrySize(key, r.value);
      var projected := size + entrySize + sz.baseSize;
      if |current| > 0 && projected > sz.maxChunkSize {
        chunks := chunks + [Chunk(current, id, |current|, table)];
        id := id + 1;
        current := [];
        size := 0;
      }
      current := A.Put(current, key, r.value);
      size := size + entrySize;
      assert Packer(chunks, current, size, id) == next;
      i := i + 1;
    }
    assert rows[..i] == rows;
    if |current| > 0 {
      chunks := chunks + [Chunk(current, id, |current|, table)];
    }
  }

  /** The tiles of the chunks, one chunk after the other. */
  function Flatten(cs: seq<Chunk>): A.Entries {
    if |cs| == 0 then [] else Flatten(cs[..|cs| - 1]) + cs[|cs| - 1].tiles
  }

  function Size(sz: Sizing, es: A.Entries): nat {
    if |es| == 0 then 0 else Size(sz, es[..|es| - 1]) + sz.entrySize(es[|es| - 1].key, es[|es| - 1].value)
  }

  /** A chunk within the budget, or a single tile (which is never refused). */
  predicate Fits(sz: Sizing, es: A.Entries) {
    |es| <= 1 || sz.baseSize + Size(sz, es) <= sz.maxChunkSize
  }

  /** Adding `e` to `es` would go over the budget. */
  predicate Overflows(sz: Sizing, es: A.Entries, e: A.Entry) {
    sz.baseSize + Size(sz, es) + sz.entrySize(e.key, e.value) > sz.maxChunkSize
  }

  predicate WellNumbered(cs: seq<Chunk>, table: string) {
    forall i :: 0 <= i < |cs| ==> cs[i].chunkId == i && cs[i].tileCount == |cs[i].tiles| > 0 && cs[i].table == table
  }

  predicate AllFit(sz: Sizing, cs: seq<Chunk>) {
    forall i :: 0 <= i < |cs| ==> Fits(sz, cs[i].tiles)
  }

  /** Every chunk but the last was closed because the next tile would not fit. */
  predicate Greedy(sz: Sizing, cs: seq<Chunk>) {
    forall i :: 1 <= i < |cs| ==> |cs[i].tiles| > 0 && Overflows(sz, cs[i - 1].tiles, cs[i].tiles[0])
  }

  /** Rows of a table: no two share their coordinates. */
  predicate DistinctCoords(rows: seq<Sqlite.Row>) {
    forall i, j :: 0 <= i < j < |rows| ==> Sqlite.KeyOf(rows[i]) != Sqlite.KeyOf(rows[j])
  }

  /** What the loop keeps true after consuming the tiles `es`. */
  predicate PackInv(sz: Sizing, table: string, p: Packer, es: A.Entries) {
    && Flatten(p.chunks) + p.current == es
    && p.id == |p.chunks|
    && WellNumbered(p.chunks, table) && AllFit(sz, p.chunks) && Greedy(sz, p.chunks)
    && p.size == Size(sz, p.current) && Fits(sz, p.current)
    && (|p.chunks| > 0 ==> |p.current| > 0 && Overflows(sz, p.chunks[|p.chunks| - 1].tiles, p.current[0]))
  }

  lemma FlattenSnoc(cs: seq<Chunk>, c: Chunk)
    ensures Flatten(cs + [c]) == Flatten(cs) + c.tiles
  {
    assert (cs + [c])[..|cs|] == cs;
  }

  lemma SizeSnoc(sz: Sizing, es: A.Entries, e: A.Entry)
    ensures Size(sz, es + [e]) == Size(sz, es) + sz.entrySize(e.key, e.value)
  {
    assert (es + [e])[..|es|] == es;
  }

  /** A finished chunk keeps the chunk list numbered, within budget and greedy. */
  lemma ChunksSnoc(sz: Sizing, table: string, cs: seq<Chunk>, c: Chunk)
    requires WellNumbered(cs, table) && AllFit(sz, cs) && Greedy(sz, cs)
    requires c.chunkId == |cs| && c.tileCount == |c.tiles| > 0 && c.table == table && Fits(sz, c.tiles)
    requires |cs| > 0 ==> Overflows(sz, cs[|cs| - 1].tiles, c.tiles[0])
    ensures WellNumbered(cs + [c], table) && AllFit(sz, cs + [c]) && Greedy(sz, cs + [c])
  {
    var cs' := cs + [c];
    assert forall i :: 0 <= i < |cs| ==> cs'[i] == cs[i];
  }

  /** Closing the open chunk because `e` does not fit, and opening a new one with `e`. */
  lemma CloseKeepsInv(sz: Sizing, table: string, p: Packer, es: A.Entries, e: A.Entry)
    requires PackInv(sz, table, p, es)
    requires |p.current| > 0 && Overflows(sz, p.current, e)
    ensures PackInv(sz, table,
      Packer(p.chunks + [Chunk(p.current, p.id, |p.current|, table)], [e], sz.entrySize(e.key, e.value), p.id + 1),
      es + [e])
  {
    var c := Chunk(p.current, p.id, |p.current|, table);
    ChunksSnoc(sz, table, p.chunks, c);
    FlattenSnoc(p.chunks, c);
    ConcatAssoc(Flatten(p.chunks), p.current, [e]);
    SizeSnoc(sz, [], e);
    assert [] + [e] == [e];
  }

  /** Adding `e` to the open chunk. */
  lemma ExtendKeepsInv(sz: Sizing, table: string, p: Packer, es: A.Entries, e: A.Entry)
    requires PackInv(sz, table, p, es)
    requires |p.current| == 0 || !Overflows(sz, p.current, e)
    ensures PackInv(sz, table, Packer(p.chunks, p.current + [e], p.size + sz.entrySize(e.key, e.value), p.id), es + [e])
  {
    ConcatAssoc(Flatten(p.chunks), p.current, [e]);
    SizeSnoc(sz, p.current, e);
  }

  lemma {:induction false} KeysOfAppend(a: A.Entries, b: A.Entries)
    ensures A.KeysOf(a + b) == A.KeysOf(a) + A.KeysOf(b)
    decreases |a|
  {
    if |a| == 0 {
      assert a + b == b;
    } else {
      assert (a + b)[1..] == a[1..] + b;
      KeysOfAppend(a[1..], b);
    }
  }

  lemma {:induction false} KeysOfEntries(rows: seq<Sqlite.Row>, k: string)
    requires k in A.KeysOf(EntriesOf(rows))
    ensures exists i :: 0 <= i < |rows| && IntTileKey(rows[i].x, rows[i].y, rows[i].z) == k
    decreases |rows|
  {
    var n := |rows|;
    KeysOfAppend(EntriesOf(rows[..n - 1]), [EntryOf(rows[n - 1])]);
    if k != IntTileKey(rows[n - 1].x, rows[n - 1].y, rows[n - 1].z) {
      assert k in A.KeysOf(EntriesOf(rows[..n - 1]));
      KeysOfEntries(rows[..n - 1], k);
      var i :| 0 <= i < n - 1 && IntTileKey(rows[..n - 1][i].x, rows[..n - 1][i].y, rows[..n - 1][i].z) == k;
      assert rows[..n - 1][i] == rows[i];
    }
  }

  /** The open chunk never holds the key of a row not yet consumed. */
  lemma FreshKey(sz: Sizing, table: string, p: Packer, pre: seq<Sqlite.Row>, r: Sqlite.Row)
    requires PackInv(sz, table, p, EntriesOf(pre))
    requires DistinctCoords(pre + [r])
    ensures IntTileKey(r.x, r.y, r.z) !in A.KeysOf(p.current)
  {
    var k := IntTileKey(r.x, r.y, r.z);
    if k in A.KeysOf(p.current) {
      KeysOfAppend(Flatten(p.chunks), p.current);
      KeysOfEntries(pre, k);
      var i :| 0 <= i < |pre| && IntTileKey(pre[i].x, pre[i].y, pre[i].z) == k;
      assert (pre + [r])[i] == pre[i] && (pre + [r])[|pre|] == r;
      IntTileKeyInjective(pre[i].x, pre[i].y, pre[i].z, r.x, r.y, r.z);
      assert false;
    }
  }

  lemma StepKeepsInv(sz: Sizing, table: string, p: Packer, pre: seq<Sqlite.Row>, r: Sqlite.Row)
    requires PackInv(sz, table, p, EntriesOf(pre))
    requires DistinctCoords(pre + [r])
    ensures PackInv(sz, table, Step(sz, table, p, r), EntriesOf(pre + [r]))
  {
    var e := EntryOf(r);
    FreshKey(sz, table, p, pre, r);
    assert (pre + [r])[..|pre|] == pre;
    assert EntriesOf(pre + [r]) == EntriesOf(pre) + [e];
    if |p.current| > 0 && Overflows(sz, p.current, e) {
      assert A.Put([], e.key, e.value) == [e];
      CloseKeepsInv(sz, table, p, EntriesOf(pre), e);
    } else {
      assert A.Put(p.current, e.key, e.value) == p.current + [e];
      ExtendKeepsInv(sz, table, p, EntriesOf(pre), e);
    }
  }

  lemma {:induction false} PackInvHolds(sz: Sizing, table: string, rows: seq<Sqlite.Row>)
    requires DistinctCoords(rows)
    ensures PackInv(sz, table, Pack(sz, table, rows), EntriesOf(rows))
    decreases |rows|
  {
    if |rows| > 0 {
      var pre := rows[..|rows| - 1];
      assert rows == pre + [rows[|rows| - 1]];
      PackInvHolds(sz, table, pre);
      StepKeepsInv(sz, table, Pack(sz, table, pre), pre, rows[|rows| - 1]);
    }
  }

  /** After a tile the open chunk is never empty. */
  lemma PackOpen(sz: Sizing, table: string, rows: seq<Sqlite.Row>)
    requires |rows| > 0
    ensures |Pack(sz, table, rows).current| > 0
  {
    var p := Pack(sz, table, rows[..|rows| - 1]);
    var r := rows[|rows| - 1];
    var q := if |p.current| > 0 && p.size + sz.entrySize(IntTileKey(r.x, r.y, r.z), r.value) + sz.baseSize > sz.maxChunkSize
      then Packer(p.chunks + [Chunk(p.current, p.id, |p.current|, table)], [], 0, p.id + 1)
      else p;
    assert A.Lookup(A.Put(q.current, IntTileKey(r.x, r.y, r.z), r.value), IntTileKey(r.x, r.y, r.z)).Some?;
  }

  /** The chunks of a table's rows: concatenated they give back the rows in
      order, each tile in exactly one chunk; ids run 0, 1, 2, ... and each
      `tile_count` is the chunk's size; every chunk fits the budget or holds a
      single tile; every chunk but the last was closed only because the next
      tile would not fit; no rows give no chunks. */
  lemma ChunksSpec(sz: Sizing, table: string, rows: seq<Sqlite.Row>)
    requires DistinctCoords(rows)
    ensures var cs := Chunks(sz, table, rows);
      && Flatten(cs) == EntriesOf(rows)
      && WellNumbered(cs, table) && AllFit(sz, cs) && Greedy(sz, cs)
      && (|cs| == 0 <==> |rows| == 0)
  {
    var p := Pack(sz, table, rows);
    PackInvHolds(sz, table, rows);
    if |rows| > 0 {
      PackOpen(sz, table, rows);
      var c := Chunk(p.current, p.id, |p.current|, table);
      FlattenSnoc(p.chunks, c);
      ChunksSnoc(sz, table, p.chunks, c);
    } else {
      assert p == Packer([], [], 0, 0);
    }
  }

  // ---------------------------------------------------------------------
  // batch_upload_chunks

  /** `calculate_json_size` of a whole chunk, and `SetDatastoreEntry`: whether
      the n-th call, with this datastore, key and chunk, succeeds. */
  datatype UploadEnv = UploadEnv(chunkSize: Chunk -> nat, setEntry: (nat, string, string, Chunk) -> bool)

  const MaxKeyLength := 50
  const MaxChunkBytes := 4194304

  /** The checks made before a chunk is sent. */
  predicate Sendable(env: UploadEnv, c: Chunk) {
    |CreateChunkKey(c.chunkId)| < MaxKeyLength && env.chunkSize(c) < MaxChunkBytes
  }

  /** The counters of `batch_upload_chunks` and the keys sent, in order. */
  datatype Tally = Tally(successfulChunks: nat, failedChunks: nat, successfulTiles: nat, sent: seq<string>)

  function TallyOf(env: UploadEnv, name: string, cs: seq<Chunk>): Tally {
    if |cs| == 0 then Tally(0, 0, 0, [])
    else
      var t := TallyOf(env, name, cs[..|cs| - 1]);
      var c := cs[|cs| - 1];
      var key := CreateChunkKey(c.chunkId);
      if !Sendable(env, c) then t.(failedChunks := t.failedChunks + 1)
      else if env.setEntry(|t.sent|, name, key, c) then
        Tally(t.successfulChunks + 1, t.failedChunks, t.successfulTiles + c.tileCount, t.sent + [key])
      else t.(failedChunks := t.failedChunks + 1, sent := t.sent + [key])
  }

  /** `batch_upload_chunks` (logging and the delay between chunks left out). */
  method BatchUploadChunks(env: UploadEnv, name: string, chunks: seq<Chunk>) returns (t: Tally)
    ensures t == TallyOf(env, name, chunks)
  {
    var successful: nat, failed: nat, tiles: nat := 0, 0, 0;
    var sent: seq<string> := [];
    var i := 0;
    while i < |chunks|
      invariant 0 <= i <= |chunks|
      invariant Tally(successful, failed, tiles, sent) == TallyOf(env, name, chunks[..i])
    {
      assert chunks[..i + 1][..i] == chunks[..i];
      var chunk := chunks[i];
      var key := CreateChunkKey(chunk.chunkId);
      if |key| >= MaxKeyLength || env.chunkSize(chunk) >= MaxChunkBytes {
        failed := failed + 1;
      } else {
        var ok := env.setEntry(|sent|, name, key, chunk);
        sent := sent + [key];
        if ok {
          successful := successful + 1;
          tiles := tiles + chunk.tileCount;
        } else {
          failed := failed + 1;
        }
      }
      i := i + 1;
    }
    assert chunks[..i] == chunks;
    t := Tally(successful, failed, tiles, sent);
  }

  function TotalTiles(cs: seq<Chunk>): nat {
    if |cs| == 0 then 0 else TotalTiles(cs[..|cs| - 1]) + cs[|cs| - 1].tileCount
  }

  /** The keys of the chunks that pass the checks, in order. */
  function SendableKeys(env: UploadEnv, cs: seq<Chunk>): seq<string> {
    if |cs| == 0 then []
    else SendableKeys(env, cs[..|cs| - 1]) + (if Sendable(env, cs[|cs| - 1]) then [CreateChunkKey(cs[|cs| - 1].chunkId)] else [])
  }

  /** Whether chunk `c`, coming after the chunks `before`, is stored: it
      passes the checks and `SetDatastoreEntry` returns for it, as the call
      made after one call per sendable chunk before it. */
  predicate Succeeded(env: UploadEnv, name: string, before: seq<Chunk>, c: Chunk) {
    Sendable(env, c) && env.setEntry(|SendableKeys(env, before)|, name, CreateChunkKey(c.chunkId), c)
  }

  /** The number of stored chunks. */
  function SucceededCount(env: UploadEnv, name: string, cs: seq<Chunk>): nat {
    if |cs| == 0 then 0
    else SucceededCount(env, name, cs[..|cs| - 1]) + (if Succeeded(env, name, cs[..|cs| - 1], cs[|cs| - 1]) then 1 else 0)
  }

  /** The `tile_count` sum over the stored chunks. */
  function SucceededTiles(env: UploadEnv, name: string, cs: seq<Chunk>): nat {
    if |cs| == 0 then 0
    else SucceededTiles(env, name, cs[..|cs| - 1]) + (if Succeeded(env, name, cs[..|cs| - 1], cs[|cs| - 1]) then cs[|cs| - 1].tileCount else 0)
  }

  /** Every chunk is counted once, as a success or a failure: the successes
      are exactly the stored chunks and the tiles counted are exactly theirs,
      so a chunk that fails the checks or whose call fails counts as failed;
      a chunk that fails the checks is never sent and every other one is sent
      once, in order; the tiles counted are at most all the tiles. */
  lemma {:induction false} TallyCounts(env: UploadEnv, name: string, cs: seq<Chunk>)
    ensures var t := TallyOf(env, name, cs);
      && t.successfulChunks == SucceededCount(env, name, cs)
      && t.successfulTiles == SucceededTiles(env, name, cs)
      && t.failedChunks == |cs| - SucceededCount(env, name, cs)
      && t.sent == SendableKeys(env, cs)
      && t.successfulChunks <= |t.sent|
      && t.successfulTiles <= TotalTiles(cs)
    decreases |cs|
  {
    if |cs| > 0 {
      TallyCounts(env, name, cs[..|cs| - 1]);
    }
  }

  /** When every chunk passes the checks and every call succeeds, every chunk
      and every tile is counted as uploaded. */
  lemma {:induction false} TallyAllSucceed(env: UploadEnv, name: string, cs: seq<Chunk>)
    requires forall i :: 0 <= i < |cs| ==> Sendable(env, cs[i]) && env.setEntry(i, name, CreateChunkKey(cs[i].chunkId), cs[i])
    ensures var t := TallyOf(env, name, cs);
      t.successfulChunks == |cs| && t.failedChunks == 0 && t.successfulTiles == TotalTiles(cs) && |t.sent| == |cs|
    decreases |cs|
  {
    if |cs| > 0 {
      var pre := cs[..|cs| - 1];
      forall i | 0 <= i < |pre|
        ensures Sendable(env, pre[i]) && env.setEntry(i, name, CreateChunkKey(pre[i].chunkId), pre[i])
      {
        assert pre[i] == cs[i];
      }
      TallyAllSucceed(env, name, pre);
    }
  }

  /** The chunks hold one tile per row, so `total_tiles` is the row count. */
  lemma {:induction false} TotalTilesFlatten(cs: seq<Chunk>, table: string)
    requires WellNumbered(cs, table)
    ensures TotalTiles(cs) == |Flatten(cs)|
    decreases |cs|
  {
    if |cs| > 0 {
      var pre := cs[..|cs| - 1];
      assert WellNumbered(pre, table) by {
        forall i | 0 <= i < |pre|
          ensures pre[i].chunkId == i && pre[i].tileCount == |pre[i].tiles| > 0 && pre[i].table == table
        {
          assert pre[i] == cs[i];
        }
      }
      TotalTilesFlatten(pre, table);
    }
  }

  // ---------------------------------------------------------------------
  // upload_table_to_datastore and the table filter of main

  /** `upload_table_to_datastore` after the rows are read: no rows, no upload;
      otherwise the chunks are built and uploaded. Returns the counters. */
  method UploadTable(env: UploadEnv, rows: seq<Sqlite.Row>, t: Sqlite.TableType, name: string, sz: Sizing)
      returns (r: Option<Tally>)
    ensures |rows| == 0 ==> r.None?
    ensures |rows| > 0 ==> r == Some(TallyOf(env, name, Chunks(sz, Sqlite.TableName(t), rows)))
  {
    if |rows| == 0 {
      return None;
    }
    var chunks := CreateTileChunks(rows, Sqlite.TableName(t), sz);
    var tally := BatchUploadChunks(env, name, chunks);
    r := Some(tally);
  }

  /** The rows of a table always give at least one chunk, so the "no chunks"
      warning of `upload_table_to_datastore` is never reached, and the
      counters add up to the number of rows when everything succeeds. */
  lemma UploadTableTotals(env: UploadEnv, rows: seq<Sqlite.Row>, t: Sqlite.TableType, name: string, sz: Sizing)
    requires |rows| > 0 && DistinctCoords(rows)
    ensures var cs := Chunks(sz, Sqlite.TableName(t), rows);
      |cs| > 0 && TotalTiles(cs) == |rows|
  {
    var cs := Chunks(sz, Sqlite.TableName(t), rows);
    ChunksSpec(sz, Sqlite.TableName(t), rows);
    TotalTilesFlatten(cs, Sqlite.TableName(t));
  }

  /** A table counts as present when `table_info` lists it with some rows. */
  predicate Present(info: map<string, int>, t: Sqlite.TableType) {
    Sqlite.TableName(t) in info && info[Sqlite.TableName(t)] > 0
  }

  function KeepPresent(ts: seq<Sqlite.TableType>, info: map<string, int>): seq<Sqlite.TableType> {
    if |ts| == 0 then []
    else KeepPresent(ts[..|ts| - 1], info) + (if Present(info, ts[|ts| - 1]) then [ts[|ts| - 1]] else [])
  }

  /** `--tables` if given, otherwise every member of `TableType`. */
  function TablesToUpload(requested: Option<seq<Sqlite.TableType>>): seq<Sqlite.TableType> {
    match requested
    case Some(ts) => if |ts| > 0 then ts else Sqlite.AllTableTypes
    case None => Sqlite.AllTableTypes
  }

  /** The filter of `main` that builds `valid_tables`. */
  method ValidTables(requested: Option<seq<Sqlite.TableType>>, info: map<string, int>) returns (valid: seq<Sqlite.TableType>)
    ensures valid == KeepPresent(TablesToUpload(requested), info)
  {
    var ts := TablesToUpload(requested);
    valid := [];
    var i := 0;
    while i < |ts|
      invariant 0 <= i <= |ts|
      invariant valid == KeepPresent(ts[..i], info)
    {
      assert ts[..i + 1][..i] == ts[..i];
      if Sqlite.TableName(ts[i]) in info && info[Sqlite.TableName(ts[i])] > 0 {
        valid := valid + [ts[i]];
      }
      i := i + 1;
    }
    assert ts[..i] == ts;
  }

  /** `valid_tables` holds exactly the requested tables that are present,
      in the requested order. */
  lemma {:induction false} KeepPresentMembers(ts: seq<Sqlite.TableType>, info: map<string, int>)
    ensures forall t :: t in KeepPresent(ts, info) <==> t in ts && Present(info, t)
    ensures |KeepPresent(ts, info)| <= |ts|
    ensures KeepPresent(ts, info) == ts <==> forall i :: 0 <= i < |ts| ==> Present(info, ts[i])
    decreases |ts|
  {
    if |ts| > 0 {
      var pre := ts[..|ts| - 1];
      KeepPresentMembers(pre, info);
      assert ts == pre + [ts[|ts| - 1]];
      if KeepPresent(ts, info) == ts {
        assert KeepPresent(pre, info) == pre && Present(info, ts[|ts| - 1]) by {
          if !Present(info, ts[|ts| - 1]) {
            assert false;
          }
        }
      }
    }
  }
}
