/** The schema revisions: the two table-creating migrations, the statements
    they issue through the schema manager, and the ordered list the
    migrator applies. */
module Schema {
  import opened Base
  import opened AppErrors

  datatype ColumnType = IntegerType | DateType | TextType | TimestampType

  datatype DefaultValue = NoDefault | IntDefault(n: int) | CurrentTimestamp

  datatype Column = Column(
    name: string,
    kind: ColumnType,
    nullable: bool,
    unique: bool,
    primaryKey: bool,
    autoIncrement: bool,
    default: DefaultValue)

  datatype ReferentialAction = Cascade | SetNull | Restrict | NoAction

  datatype ForeignKey = ForeignKey(
    name: string,
    fromTable: string,
    fromColumn: string,
    toTable: string,
    toColumn: string,
    onDelete: ReferentialAction,
    onUpdate: ReferentialAction)

  datatype TableDef = TableDef(name: string, columns: seq<Column>, foreignKeys: seq<ForeignKey>)

  /** The tables of a database, by name. */
  type Catalog = map<string, TableDef>

  /** `pk_auto(c)`: integer, not null, auto-increment primary key. */
  function PkAuto(name: string): Column {
    Column(name, IntegerType, false, false, true, true, NoDefault)
  }

  /** A plain column of the given type. */
  function Plain(name: string, kind: ColumnType, nullable: bool): Column {
    Column(name, kind, nullable, false, false, false, NoDefault)
  }

  const DailyCheckinsTable := "daily_checkins"
  const MicroTasksTable := "micro_tasks"

  const DailyCheckinsDef: TableDef := TableDef(DailyCheckinsTable, [
    PkAuto("id"),
    Column("date", DateType, false, true, false, false, NoDefault),
    Plain("mood_level", IntegerType, true),
    Plain("mood_text", TextType, true),
    Plain("physical_state_tags", TextType, true),
    Plain("physical_state_text", TextType, true),
    Plain("potential_todos", TextType, true)
  ], [])

  const MicroTasksDef: TableDef := TableDef(MicroTasksTable, [
    PkAuto("id"),
    Plain("daily_checkin_id", IntegerType, true),
    Plain("task_description", TextType, false),
    Plain("task_memo", TextType, true),
    Column("is_completed", IntegerType, false, false, false, false, IntDefault(0)),
    Plain("completed_at", TimestampType, true),
    Column("created_at", TimestampType, false, false, false, false, CurrentTimestamp),
    Plain("sort_order", IntegerType, true)
  ], [
    ForeignKey("fk_micro_tasks_daily_checkin_id", MicroTasksTable, "daily_checkin_id",
               DailyCheckinsTable, "id", Cascade, Cascade)
  ])

  /** The column called `name`, if the table has one. */
  function ColumnNamed(def: TableDef, name: string): (r: Option<Column>)
    ensures r.Some? ==> r.value in def.columns && r.value.name == name
    ensures r.None? <==> forall i :: 0 <= i < |def.columns| ==> def.columns[i].name != name
  {
    ColumnIn(def.columns, name)
  }

  function ColumnIn(cols: seq<Column>, name: string): (r: Option<Column>)
    ensures r.Some? ==> r.value in cols && r.value.name == name
    ensures r.None? <==> forall i :: 0 <= i < |cols| ==> cols[i].name != name
  {
    if cols == [] then None
    else if cols[0].name == name then Some(cols[0])
    else
      assert forall i :: 1 <= i < |cols| ==> cols[i] == cols[1..][i - 1];
      ColumnIn(cols[1..], name)
  }

  /** The lookup finds the first column with the name. */
  lemma {:induction false} FirstColumnNamed(cols: seq<Column>, i: nat, name: string)
    requires i < |cols| && cols[i].name == name
    requires forall j :: 0 <= j < i ==> cols[j].name != name
    ensures ColumnIn(cols, name) == Some(cols[i])
  {
    if i > 0 {
      assert cols[0].name != name;
      assert cols[1..][i - 1] == cols[i];
      FirstColumnNamed(cols[1..], i - 1, name);
    }
  }

  /** The check-in table: an auto-increment key and a required, unique
      date; every other column may be null. */
  lemma CheckinTableConstraints()
    ensures ColumnNamed(DailyCheckinsDef, "id") == Some(PkAuto("id"))
    ensures var c := ColumnNamed(DailyCheckinsDef, "date");
      c.Some? && c.value.unique && !c.value.nullable && c.value.kind == DateType
    ensures forall i :: 2 <= i < |DailyCheckinsDef.columns| ==> DailyCheckinsDef.columns[i].nullable
    ensures |DailyCheckinsDef.columns| == 7 && DailyCheckinsDef.foreignKeys == []
  {
    var cols := DailyCheckinsDef.columns;
    CheckinKeyColumns();
    forall i | 2 <= i < |cols| ensures cols[i].nullable {
      if i == 2 {
      } else if i == 3 {
      } else if i == 4 {
      } else if i == 5 {
      } else {
        assert i == 6;
      }
    }
  }

  lemma CheckinKeyColumns()
    ensures ColumnNamed(DailyCheckinsDef, "id") == Some(DailyCheckinsDef.columns[0])
    ensures ColumnNamed(DailyCheckinsDef, "date") == Some(DailyCheckinsDef.columns[1])
  {
    var cols := DailyCheckinsDef.columns;
    FirstColumnNamed(cols, 0, "id");
    assert |cols[0].name| != 4;
    FirstColumnNamed(cols, 1, "date");
  }

  /** The micro-task table: an optional check-in reference, a required
      description, a completion flag defaulting to 0 and a creation time
      defaulting to the current time. */
  lemma MicroTaskTableConstraints()
    ensures ColumnNamed(MicroTasksDef, "id") == Some(PkAuto("id"))
    ensures var c := ColumnNamed(MicroTasksDef, "daily_checkin_id"); c.Some? && c.value.nullable
    ensures var c := ColumnNamed(MicroTasksDef, "task_description"); c.Some? && !c.value.nullable
    ensures var c := ColumnNamed(MicroTasksDef, "is_completed");
      c.Some? && !c.value.nullable && c.value.default == IntDefault(0)
    ensures var c := ColumnNamed(MicroTasksDef, "created_at");
      c.Some? && !c.value.nullable && c.value.default == CurrentTimestamp
    ensures var c := ColumnNamed(MicroTasksDef, "task_memo"); c.Some? && c.value.nullable
    ensures var c := ColumnNamed(MicroTasksDef, "completed_at"); c.Some? && c.value.nullable
    ensures var c := ColumnNamed(MicroTasksDef, "sort_order"); c.Some? && c.value.nullable
    ensures |MicroTasksDef.columns| == 8
  {
    MicroTaskKeyColumns();
    MicroTaskDescriptionColumn();
    MicroTaskIsCompletedColumn();
    MicroTaskCreatedAtColumn();
    MicroTaskOptionalColumns();
  }

  lemma MicroTaskOptionalColumns()
    ensures ColumnNamed(MicroTasksDef, "task_memo") == Some(MicroTasksDef.columns[3])
    ensures ColumnNamed(MicroTasksDef, "completed_at") == Some(MicroTasksDef.columns[5])
    ensures ColumnNamed(MicroTasksDef, "sort_order") == Some(MicroTasksDef.columns[7])
  {
    var cols := MicroTasksDef.columns;
    forall j | 0 <= j < 3 ensures |cols[j].name| != 9 {
      if j == 0 {} else if j == 1 {} else { assert j == 2; }
    }
    FirstColumnNamed(cols, 3, "task_memo");
    MicroTaskCompletedAtColumn();
    MicroTaskSortOrderColumn();
  }

  lemma MicroTaskCompletedAtColumn()
    ensures ColumnNamed(MicroTasksDef, "completed_at") == Some(MicroTasksDef.columns[5])
  {
    var cols := MicroTasksDef.columns;
    forall j | 0 <= j < 4 ensures |cols[j].name| != 12 {
      if j == 0 {} else if j == 1 {} else if j == 2 {} else { assert j == 3; }
    }
    assert cols[4].name[0] == 'i';
    FirstColumnNamed(cols, 5, "completed_at");
  }

  lemma MicroTaskSortOrderColumn()
    ensures ColumnNamed(MicroTasksDef, "sort_order") == Some(MicroTasksDef.columns[7])
  {
    var cols := MicroTasksDef.columns;
    forall j | 0 <= j < 6 ensures |cols[j].name| != 10 {
      if j == 0 {} else if j == 1 {} else if j == 2 {} else if j == 3 {} else if j == 4 {} else { assert j == 5; }
    }
    assert cols[6].name[0] == 'c';
    FirstColumnNamed(cols, 7, "sort_order");
  }

  lemma MicroTaskKeyColumns()
    ensures ColumnNamed(MicroTasksDef, "id") == Some(MicroTasksDef.columns[0])
    ensures ColumnNamed(MicroTasksDef, "daily_checkin_id") == Some(MicroTasksDef.columns[1])
  {
    var cols := MicroTasksDef.columns;
    FirstColumnNamed(cols, 0, "id");
    assert |cols[0].name| != 16;
    FirstColumnNamed(cols, 1, "daily_checkin_id");
  }

  lemma MicroTaskDescriptionColumn()
    ensures ColumnNamed(MicroTasksDef, "task_description") == Some(MicroTasksDef.columns[2])
  {
    var cols := MicroTasksDef.columns;
    assert |cols[0].name| != 16;
    assert cols[1].name[0] == 'd';
    FirstColumnNamed(cols, 2, "task_description");
  }

  lemma MicroTaskIsCompletedColumn()
    ensures ColumnNamed(MicroTasksDef, "is_completed") == Some(MicroTasksDef.columns[4])
  {
    var cols := MicroTasksDef.columns;
    forall j | 0 <= j < 4 ensures |cols[j].name| != 12 {
      if j == 0 {} else if j == 1 {} else if j == 2 {} else { assert j == 3; }
    }
    FirstColumnNamed(cols, 4, "is_completed");
  }

  lemma MicroTaskCreatedAtColumn()
    ensures ColumnNamed(MicroTasksDef, "created_at") == Some(MicroTasksDef.columns[6])
  {
    var cols := MicroTasksDef.columns;
    forall j | 0 <= j < 6 ensures |cols[j].name| != 10 {
      if j == 0 {} else if j == 1 {} else if j == 2 {} else if j == 3 {} else if j == 4 {} else { assert j == 5; }
    }
    FirstColumnNamed(cols, 6, "created_at");
  }

  /** The single reference of the micro-task table: from its check-in
      column to the check-in key, cascading on delete and on update. */
  lemma MicroTaskReference()
    ensures |MicroTasksDef.foreignKeys| == 1
    ensures var fk := MicroTasksDef.foreignKeys[0];
      && fk.name == "fk_micro_tasks_daily_checkin_id"
      && fk.fromTable == MicroTasksTable && fk.fromColumn == "daily_checkin_id"
      && fk.toTable == DailyCheckinsTable && fk.toColumn == "id"
      && fk.onDelete == Cascade && fk.onUpdate == Cascade
  {
  }

  /** A schema statement, as the migrations build them. */
  datatype Statement =
    | CreateTable(def: TableDef, ifNotExists: bool)
    | DropTable(table: string, ifExists: bool)

  /** What the engine does with a statement: SQLite's semantics of CREATE
      TABLE [IF NOT EXISTS] and DROP TABLE [IF EXISTS], stated case by case.
      It is the engine, not the program; what the migrations promise is
      proved about it in `UpThenDownRestores`, `UpOnExistingTableKeeps`
      and `DownOfMissingTableFails`. */
  function Execute(c: Catalog, s: Statement): (r: Result<Catalog, DbErr>)
    ensures s.CreateTable? && s.def.name !in c ==> r == Ok(c[s.def.name := s.def])
    ensures s.CreateTable? && s.def.name in c ==>
      r == (if s.ifNotExists then Ok(c) else Err(TableExists(s.def.name)))
    ensures s.DropTable? && s.table in c ==> r == Ok(c - {s.table})
    ensures s.DropTable? && s.table !in c ==>
      r == (if s.ifExists then Ok(c) else Err(NoSuchTable(s.table)))
  {
    match s
    case CreateTable(def, ifNotExists) =>
      if def.name in c then (if ifNotExists then Ok(c) else Err(TableExists(def.name)))
      else Ok(c[def.name := def])
    case DropTable(t, ifExists) =>
      if t in c then Ok(c - {t})
      else if ifExists then Ok(c) else Err(NoSuchTable(t))
  }

  /** The revisions of the schema. */
  datatype Migration = CreateDailyCheckins | CreateMicroTasks {
    /** When the revision was generated, as `YYYYMMDD_hhmmss`. */
    function Stamp(): string {
      match this
      case CreateDailyCheckins => "20250604_064814"
      case CreateMicroTasks => "20250604_065127"
    }

    function Description(): string {
      match this
      case CreateDailyCheckins => "create_table_daily_checkins"
      case CreateMicroTasks => "create_table_daily_micro_tasks"
    }

    /** The name recorded for the revision: its module name. */
    function Name(): string {
      "m" + Stamp() + "_" + Description()
    }

    function Up(): Statement {
      match this
      case CreateDailyCheckins => CreateTable(DailyCheckinsDef, true)
      case CreateMicroTasks => CreateTable(MicroTasksDef, true)
    }

    function Down(): Statement {
      match this
      case CreateDailyCheckins => DropTable(DailyCheckinsTable, false)
      case CreateMicroTasks => DropTable(MicroTasksTable, false)
    }
  }

  /** `Migrator::migrations()`: the revisions in the order they apply. */
  const Migrations: seq<Migration> := [CreateDailyCheckins, CreateMicroTasks]

  /** Lexicographic order on names, by character code. */
  predicate StringLess(a: string, b: string) {
    if a == [] then b != []
    else b != [] && (a[0] < b[0] || (a[0] == b[0] && StringLess(a[1..], b[1..])))
  }

  /** Two names that agree up to position `k` and differ there are
      ordered by the characters at `k`, whatever follows. */
  lemma {:induction false} StringLessAt(a: string, b: string, k: nat)
    requires k < |a| && k < |b|
    requires forall i :: 0 <= i < k ==> a[i] == b[i]
    requires a[k] < b[k]
    ensures StringLess(a, b)
  {
    if k > 0 {
      StringLessAt(a[1..], b[1..], k - 1);
    }
  }

  lemma StringLessExtend(a: string, b: string, x: string, y: string, k: nat)
    requires k < |a| && k < |b|
    requires forall i :: 0 <= i < k ==> a[i] == b[i]
    requires a[k] < b[k]
    ensures StringLess(a + x, b + y)
  {
    StringLessAt(a + x, b + y, k);
  }

  /** The list is in name order, so the revisions apply in the order of the
      stamps their names carry. */
  lemma MigrationsInNameOrder()
    ensures forall i, j :: 0 <= i < j < |Migrations| ==> StringLess(Migrations[i].Name(), Migrations[j].Name())
  {
    assert Migrations[0] == CreateDailyCheckins && Migrations[1] == CreateMicroTasks;
    var s0, s1 := "m" + CreateDailyCheckins.Stamp(), "m" + CreateMicroTasks.Stamp();
    assert s0[12] == '4' && s1[12] == '5';
    assert forall i :: 0 <= i < 12 ==> s0[i] == s1[i];
    StringLessExtend(s0, s1, "_" + CreateDailyCheckins.Description(), "_" + CreateMicroTasks.Description(), 12);
    assert CreateDailyCheckins.Name() == s0 + ("_" + CreateDailyCheckins.Description());
    assert CreateMicroTasks.Name() == s1 + ("_" + CreateMicroTasks.Description());
  }

  /** Applying the `up` of each revision in order, stopping at the first
      failure. */
  function RunUps(c: Catalog, ms: seq<Migration>): Result<Catalog, DbErr>
    decreases |ms|
  {
    if ms == [] then Ok(c)
    else
      match Execute(c, ms[0].Up())
      case Err(e) => Err(e)
      case Ok(c') => RunUps(c', ms[1..])
  }

  /** Applying the `down` of each revision, last first. */
  function RunDowns(c: Catalog, ms: seq<Migration>): Result<Catalog, DbErr>
    decreases |ms|
  {
    if ms == [] then Ok(c)
    else
      match Execute(c, ms[|ms| - 1].Down())
      case Err(e) => Err(e)
      case Ok(c') => RunDowns(c', ms[..|ms| - 1])
  }

  const MigratedCatalog: Catalog := map[DailyCheckinsTable := DailyCheckinsDef, MicroTasksTable := MicroTasksDef]

  /** Every foreign key names a table of the catalog and a primary key
      column of it. */
  predicate ForeignKeysResolve(c: Catalog) {
    forall t, fk :: t in c && fk in c[t].foreignKeys ==>
      fk.toTable in c && ColumnNamed(c[fk.toTable], fk.toColumn).Some?
      && ColumnNamed(c[fk.toTable], fk.toColumn).value.primaryKey
  }

  /** On an empty database the revisions create exactly the two tables. */
  lemma FreshUpCreatesSchema()
    ensures RunUps(map[], Migrations) == Ok(MigratedCatalog)
  {
    var c1 := map[DailyCheckinsTable := DailyCheckinsDef];
    assert Execute(map[], CreateDailyCheckins.Up()) == Ok(c1);
    assert Migrations[1..] == [CreateMicroTasks];
    assert MicroTasksTable !in c1;
    assert Execute(c1, CreateMicroTasks.Up()) == Ok(MigratedCatalog);
  }

  /** Two tables, where only the second has a foreign key and it names a
      primary key column of the first: the references resolve. */
  lemma TwoTablesResolve(a: string, da: TableDef, b: string, db: TableDef, fk: ForeignKey)
    requires a != b
    requires da.foreignKeys == [] && db.foreignKeys == [fk]
    requires fk.toTable == a
    requires ColumnNamed(da, fk.toColumn).Some? && ColumnNamed(da, fk.toColumn).value.primaryKey
    ensures ForeignKeysResolve(map[a := da, b := db])
  {
  }

  /** In the migrated schema the micro-task reference points at the
      check-in key. */
  lemma MigratedReferencesResolve()
    ensures ForeignKeysResolve(MigratedCatalog)
  {
    CheckinKeyColumns();
    assert |DailyCheckinsTable| != |MicroTasksTable|;
    TwoTablesResolve(DailyCheckinsTable, DailyCheckinsDef, MicroTasksTable, MicroTasksDef, MicroTasksDef.foreignKeys[0]);
  }

  /** Both creations are `if not exists`: running the revisions again
      changes nothing and does not fail. */
  lemma UpAgainChangesNothing()
    ensures RunUps(MigratedCatalog, Migrations) == Ok(MigratedCatalog)
  {
    assert Migrations[1..] == [CreateMicroTasks];
    assert Execute(MigratedCatalog, CreateDailyCheckins.Up()) == Ok(MigratedCatalog);
    assert Execute(MigratedCatalog, CreateMicroTasks.Up()) == Ok(MigratedCatalog);
  }

  /** Rolling back every revision, newest first, leaves an empty database. */
  lemma DownUndoesUp()
    ensures RunDowns(MigratedCatalog, Migrations) == Ok(map[])
  {
    var c1 := map[DailyCheckinsTable := DailyCheckinsDef];
    assert Migrations[..1] == [CreateDailyCheckins];
    assert MigratedCatalog - {MicroTasksTable} == c1;
    assert Execute(MigratedCatalog, CreateMicroTasks.Down()) == Ok(c1);
    assert c1 - {DailyCheckinsTable} == map[];
    assert Execute(c1, CreateDailyCheckins.Down()) == Ok(map[]);
  }

  /** The table a revision creates and drops. */
  function TableOf(m: Migration): (name: string)
    ensures m.Up().def.name == name && m.Down().table == name
  {
    match m
    case CreateDailyCheckins => DailyCheckinsTable
    case CreateMicroTasks => MicroTasksTable
  }

  /** On any catalog without the revision's table, its `up` succeeds and
      its `down` then gives the catalog back. */
  lemma UpThenDownRestores(c: Catalog, m: Migration)
    requires TableOf(m) !in c
    ensures Execute(c, m.Up()).Ok?
    ensures Execute(Execute(c, m.Up()).value, m.Down()) == Ok(c)
  {
    var name := TableOf(m);
    assert c[name := m.Up().def] - {name} == c;
  }

  /** On a catalog that already has the revision's table, `up` is a no-op
      (`if not exists`), whatever that table's definition. */
  lemma UpOnExistingTableKeeps(c: Catalog, m: Migration)
    requires TableOf(m) in c
    ensures Execute(c, m.Up()) == Ok(c)
  {
  }

  /** On any catalog holding neither table, applying every revision and then
      rolling every one back, newest first, gives the catalog back. */
  lemma AllUpThenAllDownRestores(c: Catalog)
    requires DailyCheckinsTable !in c && MicroTasksTable !in c
    ensures RunUps(c, Migrations) == Ok(c[DailyCheckinsTable := DailyCheckinsDef][MicroTasksTable := MicroTasksDef])
    ensures RunDowns(RunUps(c, Migrations).value, Migrations) == Ok(c)
  {
    var c1 := c[DailyCheckinsTable := DailyCheckinsDef];
    var c2 := c1[MicroTasksTable := MicroTasksDef];
    assert |DailyCheckinsTable| != |MicroTasksTable|;
    assert Migrations[1..] == [CreateMicroTasks] && Migrations[..1] == [CreateDailyCheckins];
    UpThenDownRestores(c, CreateDailyCheckins);
    UpThenDownRestores(c1, CreateMicroTasks);
    assert RunUps(c1, [CreateMicroTasks]) == Ok(c2);
    assert RunDowns(c1, [CreateDailyCheckins]) == Ok(c);
  }

  /** The drops are not `if exists`: rolling back a revision whose table is
      missing fails, naming the table. */
  lemma DownOfMissingTableFails(c: Catalog, m: Migration)
    requires m.Down().table !in c
    ensures RunDowns(c, [m]) == Err(NoSuchTable(m.Down().table))
  {
  }

  /** The schema manager over a live database, updated in place. */
  class SchemaManager {
    var tables: Catalog

    constructor (tables: Catalog)
      ensures this.tables == tables
    {
      this.tables := tables;
    }

    method Run(s: Statement) returns (r: Result<(), DbErr>)
      modifies this
      ensures Execute(old(tables), s).Ok? ==> r.Ok? && tables == Execute(old(tables), s).value
      ensures Execute(old(tables), s).Err? ==> r == Err(Execute(old(tables), s).error) && tables == old(tables)
    {
      match Execute(tables, s)
      case Ok(c) =>
        tables := c;
        return Ok(());
      case Err(e) =>
        return Err(e);
    }

    /** A revision's `up`. */
    method Up(m: Migration) returns (r: Result<(), DbErr>)
      modifies this
      ensures r.Ok? <==> Execute(old(tables), m.Up()).Ok?
      ensures r.Ok? ==> tables == Execute(old(tables), m.Up()).value
      ensures r.Err? ==> tables == old(tables)
    {
      r := Run(m.Up());
    }

    /** A revision's `down`. */
    method Down(m: Migration) returns (r: Result<(), DbErr>)
      modifies this
      ensures r.Ok? <==> Execute(old(tables), m.Down()).Ok?
      ensures r.Ok? ==> tables == Execute(old(tables), m.Down()).value
      ensures r.Err? ==> r.error == NoSuchTable(m.Down().table) && tables == old(tables)
    {
      r := Run(m.Down());
    }
  }
}
