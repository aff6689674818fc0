/**
 * The unified tile database: seven named tables plus the legacy `tiles`
 * table, each keyed by the tile coordinates `(x, y, z)` and holding one text
 * value per key. Writes are upserts (last write wins). Every typed operation
 * first opens a connection, which creates the missing typed tables.
 */
module Sqlite {
  import opened Common

  /** The seven tables of the unified database. */
  datatype TableType =
    | ImgAssetIds
    | MeshAssetIds
    | ImgOperations
    | MeshOperations
    | MissedImg
    | MissedMesh
    | MeshVertOffsets

  /** The SQL name of each table (the enum member's value). */
  function TableName(t: TableType): string {
    match t
    case ImgAssetIds => "img_asset_ids"
    case MeshAssetIds => "mesh_asset_ids"
    case ImgOperations => "img_operations"
    case MeshOperations => "mesh_operations"
    case MissedImg => "missed_img"
    case MissedMesh => "missed_mesh"
    case MeshVertOffsets => "mesh_vert_offsets"
  }

  /** The members of the enumeration in declaration order, as `for table_type in TableType` visits them. */
  const AllTableTypes: seq<TableType> :=
    [ImgAssetIds, MeshAssetIds, ImgOperations, MeshOperations, MissedImg, MissedMesh, MeshVertOffsets]

  /** A table of the database file: one of the typed tables, or the legacy
      `tiles` table used when no table type is given. */
  datatype TableRef = Typed(t: TableType) | LegacyTiles

  function Name(r: TableRef): string {
    match r
    case Typed(t) => TableName(t)
    case LegacyTiles => "tiles"
  }

  /** The table a call addresses: `table_type=None` means the legacy table. */
  function RefOf(tableType: Option<TableType>): TableRef {
    match tableType
    case None => LegacyTiles
    case Some(t) => Typed(t)
  }

  /** The primary key `(x, y, z)`. */
  datatype Key = Key(x: int, y: int, z: int)

  /** One row as `SELECT x, y, z, value` returns it. */
  datatype Row = Row(x: int, y: int, z: int, value: string)

  function KeyOf(r: Row): Key {
    Key(r.x, r.y, r.z)
  }

  type Table = map<Key, string>

  /** The contents of one database file: the tables that exist in it. */
  type Db = map<TableRef, Table>

  /** Distinct table references name distinct SQL tables, so keying the
      database by `TableRef` loses nothing. */
  lemma NamesDistinct(a: TableRef, b: TableRef)
    requires a != b
    ensures Name(a) != Name(b)
  {
  }

  /** The enumeration lists every table type exactly once. */
  lemma AllTableTypesComplete()
    ensures forall t: TableType :: t in AllTableTypes
    ensures forall i, j :: 0 <= i < j < |AllTableTypes| ==> AllTableTypes[i] != AllTableTypes[j]
  {
    forall t: TableType
      ensures t in AllTableTypes
    {
      match t
      case ImgAssetIds => assert AllTableTypes[0] == t;
      case MeshAssetIds => assert AllTableTypes[1] == t;
      case ImgOperations => assert AllTableTypes[2] == t;
      case MeshOperations => assert AllTableTypes[3] == t;
      case MissedImg => assert AllTableTypes[4] == t;
      case MissedMesh => assert AllTableTypes[5] == t;
      case MeshVertOffsets => assert AllTableTypes[6] == t;
    }
  }

  /** What opening a connection leaves behind: every typed table exists,
      those that were missing are empty, and nothing else changes. */
  function WithAllTables(db: Db): (r: Db)
    ensures forall t: TableType :: Typed(t) in r
    ensures forall ref :: ref in db ==> ref in r && r[ref] == db[ref]
    ensures forall ref :: ref in r && ref !in db ==> ref.Typed? && r[ref] == map[]
  {
    AllTableTypesComplete();
    var typed := set t | t in AllTableTypes :: Typed(t);
    map ref | ref in db.Keys + typed :: if ref in db then db[ref] else map[]
  }

  /** A database that already has every typed table is left as it is. */
  lemma WithAllTablesNoop(db: Db)
    requires forall t: TableType :: Typed(t) in db
    ensures WithAllTables(db) == db
  {
    assert WithAllTables(db).Keys == db.Keys;
  }

  /** Opening a second connection changes nothing. */
  lemma WithAllTablesIdempotent(db: Db)
    ensures WithAllTables(WithAllTables(db)) == WithAllTables(db)
  {
    WithAllTablesNoop(WithAllTables(db));
  }

  /** The database a call works on: a typed call opens a full connection;
      a legacy save creates only the `tiles` table. */
  function Prepared(db: Db, tableType: Option<TableType>): (r: Db)
    ensures RefOf(tableType) in r
    ensures forall ref :: ref in db ==> ref in r && r[ref] == db[ref]
  {
    match tableType
    case Some(_) => WithAllTables(db)
    case None => if LegacyTiles in db then db else db[LegacyTiles := map[]]
  }

  /** `SaveTileToSQLite`: the database after an upsert of `value` at `(x, y, z)`. */
  function SaveResult(db: Db, x: int, y: int, z: int, value: string, tableType: Option<TableType>): (r: Db)
    ensures RefOf(tableType) in r && r[RefOf(tableType)] == Prepared(db, tableType)[RefOf(tableType)][Key(x, y, z) := value]
    ensures forall ref :: ref in r && ref != RefOf(tableType) ==> ref in Prepared(db, tableType) && r[ref] == Prepared(db, tableType)[ref]
    ensures r.Keys == Prepared(db, tableType).Keys
  {
    var p := Prepared(db, tableType);
    var ref := RefOf(tableType);
    p[ref := p[ref][Key(x, y, z) := value]]
  }

  /** `LoadTileValueFromSQLite`: the stored value, `None` for an absent key;
      a legacy read from a file without a `tiles` table raises. */
  function LoadResult(db: Db, x: int, y: int, z: int, tableType: Option<TableType>): (r: Result<Option<string>>)
    ensures r.Failure? <==> tableType.None? && LegacyTiles !in db
    ensures r.Success? ==> (r.value.Some? <==> Key(x, y, z) in Prepared(db, tableType)[RefOf(tableType)])
    ensures r.Success? && r.value.Some? ==> r.value.value == Prepared(db, tableType)[RefOf(tableType)][Key(x, y, z)]
  {
    if tableType.None? && LegacyTiles !in db then Failure("no such table: tiles")
    else
      var table := Prepared(db, tableType)[RefOf(tableType)];
      if Key(x, y, z) in table then Success(Some(table[Key(x, y, z)])) else Success(None)
  }

  /** The database a load leaves behind: a typed load opens a full connection. */
  function AfterLoad(db: Db, tableType: Option<TableType>): Db {
    if tableType.Some? then WithAllTables(db) else db
  }

  /** `DeleteTileFromSQLite`: the database without the row at `(x, y, z)`. */
  function DeleteResult(db: Db, x: int, y: int, z: int, t: TableType): (r: Db)
    ensures Typed(t) in r && Key(x, y, z) !in r[Typed(t)]
    ensures forall k :: k in r[Typed(t)] <==> k in WithAllTables(db)[Typed(t)] && k != Key(x, y, z)
    ensures forall k :: k in r[Typed(t)] ==> r[Typed(t)][k] == WithAllTables(db)[Typed(t)][k]
    ensures r.Keys == WithAllTables(db).Keys
    ensures forall ref :: ref in r && ref != Typed(t) ==> r[ref] == WithAllTables(db)[ref]
  {
    var p := WithAllTables(db);
    p[Typed(t) := p[Typed(t)] - {Key(x, y, z)}]
  }

  /** `TableHasTile` */
  function HasResult(db: Db, x: int, y: int, z: int, t: TableType): bool {
    Key(x, y, z) in WithAllTables(db)[Typed(t)]
  }

  /** `GetTableTileCount` */
  function CountResult(db: Db, t: TableType): nat {
    |WithAllTables(db)[Typed(t)]|
  }

  /** A value saved under a key is what a later load of that key returns. */
  lemma LoadAfterSave(db: Db, x: int, y: int, z: int, value: string, tableType: Option<TableType>)
    ensures LoadResult(SaveResult(db, x, y, z, value, tableType), x, y, z, tableType) == Success(Some(value))
  {
    var s := SaveResult(db, x, y, z, value, tableType);
    assert Prepared(s, tableType) == s;
  }

  /** Saving a key twice is the same as saving it once with the second value,
      and the second save does not change the row count. */
  lemma SaveTwice(db: Db, x: int, y: int, z: int, v1: string, v2: string, t: TableType)
    ensures SaveResult(SaveResult(db, x, y, z, v1, Some(t)), x, y, z, v2, Some(t)) == SaveResult(db, x, y, z, v2, Some(t))
    ensures CountResult(SaveResult(SaveResult(db, x, y, z, v1, Some(t)), x, y, z, v2, Some(t)), t)
         == CountResult(SaveResult(db, x, y, z, v1, Some(t)), t)
  {
    var once := SaveResult(db, x, y, z, v1, Some(t));
    WithAllTablesNoop(once);
    var a := SaveResult(once, x, y, z, v2, Some(t));
    var b := SaveResult(db, x, y, z, v2, Some(t));
    assert a[Typed(t)] == b[Typed(t)];
    assert a.Keys == b.Keys;
    WithAllTablesNoop(a);
    assert a[Typed(t)].Keys == once[Typed(t)].Keys;
  }

  /** Saving a key that is not in the table adds exactly one row. */
  lemma SaveNewKeyCount(db: Db, x: int, y: int, z: int, value: string, t: TableType)
    requires !HasResult(db, x, y, z, t)
    ensures CountResult(SaveResult(db, x, y, z, value, Some(t)), t) == CountResult(db, t) + 1
  {
    var s := SaveResult(db, x, y, z, value, Some(t));
    WithAllTablesNoop(s);
    var before := WithAllTables(db)[Typed(t)];
    assert s[Typed(t)].Keys == before.Keys + {Key(x, y, z)};
  }

  /** After a delete the key is gone; deleting an absent key changes nothing
      beyond opening the connection. */
  lemma DeleteThenHas(db: Db, x: int, y: int, z: int, t: TableType)
    ensures !HasResult(DeleteResult(db, x, y, z, t), x, y, z, t)
    ensures !HasResult(db, x, y, z, t) ==> DeleteResult(db, x, y, z, t) == WithAllTables(db)
  {
    var d := DeleteResult(db, x, y, z, t);
    assert WithAllTables(d) == d;
    if !HasResult(db, x, y, z, t) {
      assert d[Typed(t)] == WithAllTables(db)[Typed(t)];
    }
  }

  /** `TableHasTile` answers from the stored rows: a table that does not exist
      yet is created empty and has no tile. */
  lemma HasResultStored(db: Db, x: int, y: int, z: int, t: TableType)
    ensures HasResult(db, x, y, z, t) <==> Typed(t) in db && Key(x, y, z) in db[Typed(t)]
  {
  }

  /** A value can be loaded exactly when the table has the key. */
  lemma HasIffLoads(db: Db, x: int, y: int, z: int, t: TableType)
    ensures HasResult(db, x, y, z, t) <==> LoadResult(db, x, y, z, Some(t)).value.Some?
  {
  }

  /** Sound and complete listing of a table: one row per key, with its value. */
  predicate ListsTable(rows: seq<Row>, table: Table) {
    && |rows| == |table|
    && (forall i :: 0 <= i < |rows| ==> KeyOf(rows[i]) in table && table[KeyOf(rows[i])] == rows[i].value)
    && (forall k :: k in table ==> exists i :: 0 <= i < |rows| && KeyOf(rows[i]) == k)
    && (forall i, j :: 0 <= i < j < |rows| ==> KeyOf(rows[i]) != KeyOf(rows[j]))
  }

  /** `SELECT x, y, z, value FROM table` with `fetchall()`: every row once, in
      whatever order the engine yields them. */
  method FetchAll(table: Table) returns (rows: seq<Row>)
    ensures ListsTable(rows, table)
  {
    rows := [];
    var rest := table.Keys;
    while rest != {}
      invariant rest <= table.Keys
      invariant |rows| + |rest| == |table|
      invariant forall i :: 0 <= i < |rows| ==>
        KeyOf(rows[i]) in table && KeyOf(rows[i]) !in rest && table[KeyOf(rows[i])] == rows[i].value
      invariant forall k :: k in table && k !in rest ==> exists i :: 0 <= i < |rows| && KeyOf(rows[i]) == k
      invariant forall i, j :: 0 <= i < j < |rows| ==> KeyOf(rows[i]) != KeyOf(rows[j])
      decreases |rest|
    {
      var k :| k in rest;
      var rows' := rows + [Row(k.x, k.y, k.z, table[k])];
      assert KeyOf(rows'[|rows|]) == k;
      forall k' | k' in table && k' !in rest - {k}
        ensures exists i :: 0 <= i < |rows'| && KeyOf(rows'[i]) == k'
      {
        if k' != k {
          var i :| 0 <= i < |rows| && KeyOf(rows[i]) == k';
          assert rows'[i] == rows[i];
        }
      }
      rows := rows';
      rest := rest - {k};
    }
  }

  /** One database file. A file that does not exist yet has no tables. */
  class Database {
    var tables: Db

    constructor ()
      ensures tables == map[]
    {
      tables := map[];
    }

    /** `_get_connection`: creates every missing typed table, in enumeration order. */
    method Connect()
      modifies this
      ensures tables == WithAllTables(old(tables))
    {
      var i := 0;
      while i < |AllTableTypes|
        invariant 0 <= i <= |AllTableTypes|
        invariant forall ref :: ref in old(tables) ==> ref in tables && tables[ref] == old(tables)[ref]
        invariant forall ref :: ref in tables && ref !in old(tables) ==> ref.Typed? && tables[ref] == map[]
        invariant forall j :: 0 <= j < i ==> Typed(AllTableTypes[j]) in tables
      {
        if Typed(AllTableTypes[i]) !in tables {
          tables := tables[Typed(AllTableTypes[i]) := map[]];
        }
        i := i + 1;
      }
      assert tables.Keys == WithAllTables(old(tables)).Keys;
    }

    /** `SaveTileToSQLite`: an upsert; the legacy path creates only `tiles`. */
    method Save(x: int, y: int, z: int, value: string, tableType: Option<TableType>)
      modifies this
      ensures tables == SaveResult(old(tables), x, y, z, value, tableType)
    {
      var ref := RefOf(tableType);
      if tableType.None? {
        if LegacyTiles !in tables {
          tables := tables[LegacyTiles := map[]];
        }
      } else {
        Connect();
      }
      tables := tables[ref := tables[ref][Key(x, y, z) := value]];
    }

    /** `LoadTileValueFromSQLite` */
    method Load(x: int, y: int, z: int, tableType: Option<TableType>) returns (r: Result<Option<string>>)
      modifies this
      ensures tables == AfterLoad(old(tables), tableType)
      ensures r == LoadResult(old(tables), x, y, z, tableType)
    {
      if tableType.None? {
        if LegacyTiles !in tables {
          return Failure("no such table: tiles");
        }
      } else {
        Connect();
      }
      var table := tables[RefOf(tableType)];
      if Key(x, y, z) in table {
        r := Success(Some(table[Key(x, y, z)]));
      } else {
        r := Success(None);
      }
    }

    /** `GetAllTilesFromTable` */
    method GetAll(t: TableType) returns (rows: seq<Row>)
      modifies this
      ensures tables == WithAllTables(old(tables))
      ensures ListsTable(rows, tables[Typed(t)])
    {
      Connect();
      rows := FetchAll(tables[Typed(t)]);
    }

    /** `DeleteTileFromSQLite` */
    method Delete(x: int, y: int, z: int, t: TableType)
      modifies this
      ensures tables == DeleteResult(old(tables), x, y, z, t)
    {
      Connect();
      tables := tables[Typed(t) := tables[Typed(t)] - {Key(x, y, z)}];
    }

    /** `TableHasTile` */
    method Has(x: int, y: int, z: int, t: TableType) returns (b: bool)
      modifies this
      ensures tables == WithAllTables(old(tables))
      ensures b == HasResult(old(tables), x, y, z, t)
    {
      Connect();
      b := Key(x, y, z) in tables[Typed(t)];
    }

    /** `GetTableTileCount` */
    method Count(t: TableType) returns (n: nat)
      modifies this
      ensures tables == WithAllTables(old(tables))
      ensures n == CountResult(old(tables), t)
    {
      Connect();
      n := |tables[Typed(t)]|;
    }
  }
}
