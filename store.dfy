/** The SQLite persistence of pms.py (`database_init`, `insert_to_db`), over an
    abstract filesystem: a map from path to database file, where a database maps
    table names to their rows. The SQL engine is not modelled; only the effect
    of `CREATE TABLE pms` and of one `INSERT INTO pms` is. */
module Store {

  /** A Python value held in the reading record and bound to an SQL parameter. */
  datatype Value = NoneVal | IntVal(n: int) | FloatVal(x: real)

  /** The five fields of one reading, in the column order of table `pms`. */
  datatype Reading = Reading(timestamp: Value, light: Value, soil: Value, humidity: Value, temperature: Value)

  /** A stored row: the AUTOINCREMENT id and the five reading columns. */
  datatype Row = Row(id: int, reading: Reading)

  datatype Database = Database(tables: map<string, seq<Row>>)

  /** Where an exception interrupts an operation: at `sqlite3.connect`, or at
      the statement or its commit. */
  datatype Fault = NoFault | ConnectFails | StatementFails

  const TableName := "pms"

  /** The path `insert_to_db` checks and connects to, whatever the configured name. */
  const HardCodedPath := "pms.db"

  /** The database file a successful `sqlite3.connect` makes for a new path. */
  const EmptyDatabase := Database(map[])

  /** The database `database_init` leaves behind: table `pms`, no rows. */
  const FreshDatabase := Database(map[TableName := []])

  /** SQLite's names for a database that is no file: `""` opens a private
      temporary database, deleted when it is closed, and `":memory:"` an
      in-memory one. Connecting to either never reads or writes a file. */
  predicate NamesNoFile(path: string) {
    path == "" || path == ":memory:"
  }

  /** The filesystem the store lives in. `openConnections` counts connections
      that are open and not yet closed. */
  class Disk {
    var files: map<string, Database>
    var openConnections: nat

    constructor (files: map<string, Database>)
      ensures this.files == files && openConnections == 0
    {
      this.files := files;
      openConnections := 0;
    }
  }

  /** Rows numbered 1, 2, 3, ... in insertion order, as AUTOINCREMENT numbers
      them in a table that is only ever appended to. */
  predicate WellNumbered(rows: seq<Row>) {
    forall i :: 0 <= i < |rows| ==> rows[i].id == i + 1
  }

  /** The id AUTOINCREMENT gives the next row: one more than the largest id
      used so far, which is the last row's since rows are never deleted. */
  function NextId(rows: seq<Row>): (id: int)
    ensures WellNumbered(rows) ==> id == |rows| + 1
  {
    if rows == [] then 1 else rows[|rows| - 1].id + 1
  }

  /** The filesystem after `database_init` for `path`. An existing file is left
      alone, and so is every file when `path` names no file. Otherwise a failed
      connect changes nothing; a connect that succeeds creates the file, and the
      table only if the statement commits: a failed CREATE TABLE is rolled back
      and leaves the new file without any table. */
  function InitEffect(files: map<string, Database>, path: string, fault: Fault): (r: map<string, Database>)
    ensures path in files || NamesNoFile(path) ==> r == files
    ensures forall p :: p != path ==> (p in r <==> p in files)
    ensures forall p :: p in files && p != path ==> r[p] == files[p]
    ensures path in r <==> path in files || (fault != ConnectFails && !NamesNoFile(path))
    ensures path !in files && !NamesNoFile(path) && fault == NoFault ==> r[path].tables == map[TableName := []]
    ensures path !in files && !NamesNoFile(path) && fault == StatementFails ==> r[path] == EmptyDatabase
  {
    if path in files then files
    else if NamesNoFile(path) || fault == ConnectFails then files
    else if fault == StatementFails then files[path := EmptyDatabase]
    else files[path := FreshDatabase]
  }

  /** `database_init` with SQLite's empty name or `":memory:"` as the configured
      name, when no file of that name exists, leaves the filesystem as it was:
      the table is created in a database that is no file. */
  lemma InitNoFileName(files: map<string, Database>, fault: Fault)
    ensures InitEffect(files, "", fault) == files
    ensures ":memory:" !in InitEffect(files, ":memory:", fault) <==> ":memory:" !in files
    ensures InitEffect(files, ":memory:", fault) == files
  {
  }

  /** Running `database_init` twice is running it once: the second run finds
      the file the first one created. Only a first run that could not even
      connect leaves the second one anything to do. */
  lemma InitIdempotent(files: map<string, Database>, path: string, f1: Fault, f2: Fault)
    ensures InitEffect(InitEffect(files, path, f1), path, f2)
         == InitEffect(files, path, if path !in files && f1 == ConnectFails then f2 else f1)
  {
  }

  /** The filesystem after `insert_to_db` stores `reading` into the database at
      `path`: nothing happens unless the file exists, the table is there and the
      statement commits, and then exactly one row is appended. A name of no
      file connects to a database of its own, never to a file of that name,
      and that database has no table `pms`. */
  function InsertAt(files: map<string, Database>, path: string, reading: Reading, fault: Fault): (r: map<string, Database>)
    ensures r.Keys == files.Keys
    ensures forall p :: p in files && p != path ==> r[p] == files[p]
    ensures path !in files || NamesNoFile(path) || fault != NoFault ==> r == files
    ensures r != files ==>
      path in files && TableName in files[path].tables &&
      r[path] == Database(files[path].tables[TableName := files[path].tables[TableName] + [Row(NextId(files[path].tables[TableName]), reading)]])
  {
    if path !in files || NamesNoFile(path) || fault != NoFault then files
    else
      var db := files[path];
      if TableName !in db.tables then files
      else
        var rows := db.tables[TableName];
        files[path := Database(db.tables[TableName := rows + [Row(NextId(rows), reading)]])]
  }

  /** `insert_to_db` as written: always at the hard-coded "pms.db". */
  function InsertEffect(files: map<string, Database>, reading: Reading, fault: Fault): (r: map<string, Database>)
    ensures r.Keys == files.Keys
    ensures HardCodedPath !in files ==> r == files
    ensures forall p :: p in files && p != HardCodedPath ==> r[p] == files[p]
  {
    InsertAt(files, HardCodedPath, reading, fault)
  }

  /** An insert either adds nothing or adds exactly one complete row, holding
      the whole reading, at the end of table `pms`; the numbering stays 1..n. */
  lemma InsertAtomic(files: map<string, Database>, path: string, reading: Reading, fault: Fault)
    requires path in files && TableName in files[path].tables
    requires WellNumbered(files[path].tables[TableName])
    ensures var r := InsertAt(files, path, reading, fault);
      var before := files[path].tables[TableName];
      TableName in r[path].tables &&
      var after := r[path].tables[TableName];
      WellNumbered(after) &&
      (after == before || after == before + [Row(|before| + 1, reading)]) &&
      (after == before + [Row(|before| + 1, reading)] <==> fault == NoFault && !NamesNoFile(path))
  {
    var before := files[path].tables[TableName];
    var after := InsertAt(files, path, reading, fault)[path].tables[TableName];
    if fault == NoFault && !NamesNoFile(path) {
      assert after == before + [Row(|before| + 1, reading)];
      assert |after| == |before| + 1;
    } else {
      assert after == before;
    }
  }

  /** A reading that was inserted is read back verbatim as the table's last row. */
  lemma InsertReadBack(files: map<string, Database>, reading: Reading)
    requires HardCodedPath in files && TableName in files[HardCodedPath].tables
    ensures var after := InsertEffect(files, reading, NoFault)[HardCodedPath].tables[TableName];
      |after| > 0 && after[|after| - 1].reading == reading
  {
  }

  /** The store as written: `database_init` creates the configured file but
      `insert_to_db` only looks at "pms.db". When the configured name denotes
      another file, starting from a filesystem without "pms.db", no reading is
      ever stored. Paths are compared as strings, so `path` here stands for a
      name of a different file, not another spelling of "pms.db". */
  lemma InsertIgnoresConfiguredName(files: map<string, Database>, path: string, reading: Reading, initFault: Fault, fault: Fault)
    requires path != HardCodedPath && HardCodedPath !in files
    ensures var initialised := InitEffect(files, path, initFault);
      InsertEffect(initialised, reading, fault) == initialised
  {
  }

  /** The evidently intended store: insert into the configured file. After a
      successful `database_init` on a new path, one successful insert leaves
      exactly that reading, as row 1, in the configured file. A name of no file
      keeps nothing on disk. */
  lemma InsertConfiguredStores(files: map<string, Database>, path: string, reading: Reading)
    requires path !in files
    ensures var initialised := InitEffect(files, path, NoFault);
      var stored := InsertAt(initialised, path, reading, NoFault);
      (NamesNoFile(path) ==> stored == files) &&
      (!NamesNoFile(path) ==> path in stored && stored[path] == Database(map[TableName := [Row(1, reading)]]))
  {
    if NamesNoFile(path) {
      return;
    }
    var initialised := InitEffect(files, path, NoFault);
    assert initialised[path] == FreshDatabase;
    assert initialised[path].tables[TableName] == [];
    assert [] + [Row(1, reading)] == [Row(1, reading)];
  }
}

