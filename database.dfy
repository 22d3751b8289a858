/** The embedded store, in memory: the `daily_checkins` table (row shape as
    the check-in service reads and writes it; unique `Date`, auto-increment
    `Id`) and the `micro_tasks` table whose `DailyCheckinId` is a foreign
    key to `daily_checkins.Id` with cascading delete and update. */
module Storage {
  import opened Base
  import opened Dates
  import opened AppErrors

  /** Instants as clock readings; the caller supplies "now". */
  type Timestamp = int

  /** A `daily_checkins` row as the service stores it. */
  datatype CheckinRow = CheckinRow(
    id: int,
    uuid: string,
    date: Date,
    moodLevel: int,
    moodText: string,
    physicalStateTags: string,
    physicalStateText: string,
    potentialTodos: string,
    createdAt: Timestamp,
    updatedAt: Timestamp,
    deletedAt: Option<Timestamp>)

  /** A check-in to insert; the engine assigns its `id`. */
  datatype NewCheckin = NewCheckin(
    uuid: string,
    date: Date,
    moodLevel: int,
    moodText: string,
    physicalStateTags: string,
    physicalStateText: string,
    potentialTodos: string,
    createdAt: Timestamp,
    updatedAt: Timestamp,
    deletedAt: Option<Timestamp>)

  function WithId(n: NewCheckin, id: int): (r: CheckinRow)
    ensures r.id == id && r.date == n.date && r.deletedAt == n.deletedAt
  {
    CheckinRow(id, n.uuid, n.date, n.moodLevel, n.moodText, n.physicalStateTags,
               n.physicalStateText, n.potentialTodos, n.createdAt, n.updatedAt, n.deletedAt)
  }

  /** A `micro_tasks` row. */
  datatype MicroTaskRow = MicroTaskRow(
    id: int,
    dailyCheckinId: Option<int>,
    taskDescription: string,
    taskMemo: Option<string>,
    isCompleted: int,
    completedAt: Option<Timestamp>,
    createdAt: Timestamp,
    sortOrder: Option<int>)

  /** A micro task to insert; columns left out are `None`. */
  datatype NewMicroTask = NewMicroTask(
    dailyCheckinId: Option<int>,
    taskDescription: string,
    taskMemo: Option<string>,
    isCompleted: Option<int>,
    completedAt: Option<Timestamp>,
    createdAt: Option<Timestamp>,
    sortOrder: Option<int>)

  /** The whole store as a value: both tables and the next id each
      auto-increment key will hand out. */
  datatype Tables = Tables(
    checkins: seq<CheckinRow>,
    microTasks: seq<MicroTaskRow>,
    nextCheckinId: int,
    nextTaskId: int)

  predicate HasCheckinId(rows: seq<CheckinRow>, id: int) {
    exists i :: 0 <= i < |rows| && rows[i].id == id
  }

  predicate HasDate(rows: seq<CheckinRow>, d: Date) {
    exists i :: 0 <= i < |rows| && rows[i].date == d
  }

  /** Primary key and the unique `Date` column. */
  predicate CheckinKeysDistinct(rows: seq<CheckinRow>) {
    forall i, j :: 0 <= i < |rows| && 0 <= j < |rows| && i != j ==>
      rows[i].id != rows[j].id && rows[i].date != rows[j].date
  }

  predicate TaskIdsDistinct(tasks: seq<MicroTaskRow>) {
    forall i, j :: 0 <= i < |tasks| && 0 <= j < |tasks| && i != j ==> tasks[i].id != tasks[j].id
  }

  /** Every non-null `DailyCheckinId` names an existing check-in. */
  predicate ReferencesResolve(checkins: seq<CheckinRow>, tasks: seq<MicroTaskRow>) {
    forall k :: 0 <= k < |tasks| && tasks[k].dailyCheckinId.Some? ==>
      HasCheckinId(checkins, tasks[k].dailyCheckinId.value)
  }

  /** The constraints of both tables, and every key below the next one the
      engine will hand out. */
  predicate Consistent(t: Tables) {
    && CheckinKeysDistinct(t.checkins)
    && (forall i :: 0 <= i < |t.checkins| ==> t.checkins[i].id < t.nextCheckinId)
    && TaskIdsDistinct(t.microTasks)
    && (forall k :: 0 <= k < |t.microTasks| ==> t.microTasks[k].id < t.nextTaskId)
    && ReferencesResolve(t.checkins, t.microTasks)
  }

  const EmptyTables: Tables := Tables([], [], 1, 1)

  lemma EmptyTablesConsistent()
    ensures Consistent(EmptyTables)
  {
  }

  predicate IsLive(row: CheckinRow, d: Date) {
    row.date == d && row.deletedAt.None?
  }

  /** `SELECT ... WHERE Date = d AND DeletedAt IS NULL LIMIT 1`: the first
      live row for the date, if any. */
  function LiveByDate(rows: seq<CheckinRow>, d: Date): (r: Option<CheckinRow>)
    ensures r.Some? ==> r.value in rows && IsLive(r.value, d)
    ensures r.None? <==> forall i :: 0 <= i < |rows| ==> !IsLive(rows[i], d)
  {
    if rows == [] then None
    else if IsLive(rows[0], d) then Some(rows[0])
    else
      assert forall i :: 1 <= i < |rows| ==> rows[i] == rows[1..][i - 1];
      LiveByDate(rows[1..], d)
  }

  /** INSERT INTO daily_checkins: refused when the date is taken, by a live
      row or not; otherwise the row gets the next id. */
  function CheckinInserted(t: Tables, n: NewCheckin): (res: (Result<CheckinRow, DbErr>, Tables))
    ensures HasDate(t.checkins, n.date) ==> res == (Err(UniqueViolation("daily_checkins", "date")), t)
    ensures !HasDate(t.checkins, n.date) ==>
      res.0 == Ok(WithId(n, t.nextCheckinId))
      && res.1 == t.(checkins := t.checkins + [res.0.value], nextCheckinId := t.nextCheckinId + 1)
  {
    if HasDate(t.checkins, n.date) then (Err(UniqueViolation("daily_checkins", "date")), t)
    else
      var row := WithId(n, t.nextCheckinId);
      (Ok(row), t.(checkins := t.checkins + [row], nextCheckinId := t.nextCheckinId + 1))
  }

  /** An accepted check-in has an id no other row has, and the store stays
      consistent. */
  lemma InsertCheckinKeepsConsistent(t: Tables, n: NewCheckin)
    requires Consistent(t)
    ensures Consistent(CheckinInserted(t, n).1)
    ensures CheckinInserted(t, n).0.Ok? ==> !HasCheckinId(t.checkins, CheckinInserted(t, n).0.value.id)
  {
    var (r, t') := CheckinInserted(t, n);
    if r.Ok? {
      forall k | 0 <= k < |t'.microTasks| && t'.microTasks[k].dailyCheckinId.Some?
        ensures HasCheckinId(t'.checkins, t'.microTasks[k].dailyCheckinId.value)
      {
        var i :| 0 <= i < |t.checkins| && t.checkins[i].id == t.microTasks[k].dailyCheckinId.value;
        assert t'.checkins[i] == t.checkins[i];
      }
    }
  }

  /** A second row for a date already in the table is refused whatever its
      other columns hold, live or not. */
  lemma DuplicateDateRefused(t: Tables, n1: NewCheckin, n2: NewCheckin)
    requires n1.date == n2.date
    requires CheckinInserted(t, n1).0.Ok?
    ensures CheckinInserted(CheckinInserted(t, n1).1, n2) ==
      (Err(UniqueViolation("daily_checkins", "date")), CheckinInserted(t, n1).1)
  {
    var t1 := CheckinInserted(t, n1).1;
    assert t1.checkins[|t1.checkins| - 1].date == n2.date;
  }

  /** INSERT INTO micro_tasks: a non-null reference must name an existing
      check-in; `IsCompleted` defaults to 0 and `CreatedAt` to now. */
  function TaskInserted(t: Tables, n: NewMicroTask, now: Timestamp): (res: (Result<MicroTaskRow, DbErr>, Tables))
    ensures n.dailyCheckinId.Some? && !HasCheckinId(t.checkins, n.dailyCheckinId.value) ==>
      res == (Err(ForeignKeyViolation("micro_tasks")), t)
    ensures res.0.Ok? <==> n.dailyCheckinId.None? || HasCheckinId(t.checkins, n.dailyCheckinId.value)
    ensures res.0.Ok? ==>
      && res.0.value.id == t.nextTaskId
      && res.0.value.dailyCheckinId == n.dailyCheckinId
      && res.0.value.taskDescription == n.taskDescription
      && res.0.value.taskMemo == n.taskMemo
      && res.0.value.completedAt == n.completedAt
      && res.0.value.sortOrder == n.sortOrder
      && res.0.value.isCompleted == (if n.isCompleted.Some? then n.isCompleted.value else 0)
      && res.0.value.createdAt == (if n.createdAt.Some? then n.createdAt.value else now)
      && res.1 == t.(microTasks := t.microTasks + [res.0.value], nextTaskId := t.nextTaskId + 1)
  {
    if n.dailyCheckinId.Some? && !HasCheckinId(t.checkins, n.dailyCheckinId.value) then
      (Err(ForeignKeyViolation("micro_tasks")), t)
    else
      var row := MicroTaskRow(
        t.nextTaskId, n.dailyCheckinId, n.taskDescription, n.taskMemo,
        if n.isCompleted.Some? then n.isCompleted.value else 0,
        n.completedAt,
        if n.createdAt.Some? then n.createdAt.value else now,
        n.sortOrder);
      (Ok(row), t.(microTasks := t.microTasks + [row], nextTaskId := t.nextTaskId + 1))
  }

  lemma InsertTaskKeepsConsistent(t: Tables, n: NewMicroTask, now: Timestamp)
    requires Consistent(t)
    ensures Consistent(TaskInserted(t, n, now).1)
  {
  }

  /** The check-in rows that survive deleting `id`, in order. */
  function KeepCheckins(rows: seq<CheckinRow>, id: int): (r: seq<CheckinRow>)
    ensures forall x :: x in r <==> x in rows && x.id != id
  {
    if rows == [] then []
    else KeepCheckins(rows[..|rows| - 1], id) + (if rows[|rows| - 1].id == id then [] else [rows[|rows| - 1]])
  }

  /** The micro tasks that survive the cascade from deleting check-in `id`:
      those referring elsewhere or nowhere, in order. */
  function KeepTasks(tasks: seq<MicroTaskRow>, id: int): (r: seq<MicroTaskRow>)
    ensures forall x :: x in r <==> x in tasks && x.dailyCheckinId != Some(id)
  {
    if tasks == [] then []
    else KeepTasks(tasks[..|tasks| - 1], id)
         + (if tasks[|tasks| - 1].dailyCheckinId == Some(id) then [] else [tasks[|tasks| - 1]])
  }

  /** DELETE FROM daily_checkins WHERE Id = id, with ON DELETE CASCADE. */
  function CheckinDeleted(t: Tables, id: int): (t': Tables)
    ensures !HasCheckinId(t'.checkins, id)
    ensures forall k :: 0 <= k < |t'.microTasks| ==> t'.microTasks[k].dailyCheckinId != Some(id)
    ensures forall x :: x in t'.microTasks <==> x in t.microTasks && x.dailyCheckinId != Some(id)
    ensures forall x :: x in t'.checkins <==> x in t.checkins && x.id != id
  {
    var t' := t.(checkins := KeepCheckins(t.checkins, id), microTasks := KeepTasks(t.microTasks, id));
    assert forall i :: 0 <= i < |t'.checkins| ==> t'.checkins[i] in t'.checkins;
    assert forall k :: 0 <= k < |t'.microTasks| ==> t'.microTasks[k] in t'.microTasks;
    t'
  }

  lemma {:induction false} KeepCheckinsDistinct(rows: seq<CheckinRow>, id: int)
    requires CheckinKeysDistinct(rows)
    ensures CheckinKeysDistinct(KeepCheckins(rows, id))
  {
    if rows != [] {
      var init := rows[..|rows| - 1];
      var last := rows[|rows| - 1];
      assert CheckinKeysDistinct(init) by {
        forall i, j | 0 <= i < |init| && 0 <= j < |init| && i != j
          ensures init[i].id != init[j].id && init[i].date != init[j].date
        {
          assert init[i] == rows[i] && init[j] == rows[j];
        }
      }
      KeepCheckinsDistinct(init, id);
      var kept := KeepCheckins(init, id);
      forall i | 0 <= i < |kept|
        ensures kept[i].id != last.id && kept[i].date != last.date
      {
        assert kept[i] in init;
        var j :| 0 <= j < |init| && init[j] == kept[i];
        assert rows[j] == kept[i];
      }
    }
  }

  lemma {:induction false} KeepTasksDistinct(tasks: seq<MicroTaskRow>, id: int)
    requires TaskIdsDistinct(tasks)
    ensures TaskIdsDistinct(KeepTasks(tasks, id))
  {
    if tasks != [] {
      var init := tasks[..|tasks| - 1];
      var last := tasks[|tasks| - 1];
      assert TaskIdsDistinct(init) by {
        forall i, j | 0 <= i < |init| && 0 <= j < |init| && i != j
          ensures init[i].id != init[j].id
        {
          assert init[i] == tasks[i] && init[j] == tasks[j];
        }
      }
      KeepTasksDistinct(init, id);
      var kept := KeepTasks(init, id);
      forall i | 0 <= i < |kept|
        ensures kept[i].id != last.id
      {
        assert kept[i] in init;
        var j :| 0 <= j < |init| && init[j] == kept[i];
        assert tasks[j] == kept[i];
      }
    }
  }

  /** Deleting a check-in removes exactly it and the micro tasks that
      referred to it, and leaves the store consistent. */
  lemma DeleteKeepsConsistent(t: Tables, id: int)
    requires Consistent(t)
    ensures Consistent(CheckinDeleted(t, id))
  {
    var t' := CheckinDeleted(t, id);
    KeepCheckinsDistinct(t.checkins, id);
    KeepTasksDistinct(t.microTasks, id);
    forall i | 0 <= i < |t'.checkins| ensures t'.checkins[i].id < t'.nextCheckinId {
      assert t'.checkins[i] in t.checkins;
    }
    forall k | 0 <= k < |t'.microTasks| ensures t'.microTasks[k].id < t'.nextTaskId {
      assert t'.microTasks[k] in t.microTasks;
    }
    forall k | 0 <= k < |t'.microTasks| && t'.microTasks[k].dailyCheckinId.Some?
      ensures HasCheckinId(t'.checkins, t'.microTasks[k].dailyCheckinId.value)
    {
      var task := t'.microTasks[k];
      assert task in t.microTasks;
      var k0 :| 0 <= k0 < |t.microTasks| && t.microTasks[k0] == task;
      var i :| 0 <= i < |t.checkins| && t.checkins[i].id == task.dailyCheckinId.value;
      assert t.checkins[i] in t'.checkins;
    }
  }

  function RenumberRow(row: CheckinRow, from: int, to: int): CheckinRow {
    if row.id == from then row.(id := to) else row
  }

  function RepointTask(task: MicroTaskRow, from: int, to: int): MicroTaskRow {
    if task.dailyCheckinId == Some(from) then task.(dailyCheckinId := Some(to)) else task
  }

  /** UPDATE daily_checkins SET Id = to WHERE Id = from, with ON UPDATE
      CASCADE: when no row has `from` nothing matches and nothing changes;
      refused when another row already has `to`; otherwise the row is
      renumbered, every reference follows, and the auto-increment counter
      stays above every id. */
  function CheckinIdChanged(t: Tables, from: int, to: int): (res: (Result<(), DbErr>, Tables))
    ensures !HasCheckinId(t.checkins, from) ==> res == (Ok(()), t)
    ensures res.0.Err? <==> HasCheckinId(t.checkins, from) && from != to && HasCheckinId(t.checkins, to)
    ensures res.0.Err? ==> res == (Err(UniqueViolation("daily_checkins", "id")), t)
    ensures res.0.Ok? && HasCheckinId(t.checkins, from) ==>
      && |res.1.checkins| == |t.checkins| && |res.1.microTasks| == |t.microTasks|
      && (forall i :: 0 <= i < |t.checkins| ==> res.1.checkins[i] == RenumberRow(t.checkins[i], from, to))
      && (forall k :: 0 <= k < |t.microTasks| ==> res.1.microTasks[k] == RepointTask(t.microTasks[k], from, to))
  {
    if !HasCheckinId(t.checkins, from) then (Ok(()), t)
    else if from != to && HasCheckinId(t.checkins, to) then (Err(UniqueViolation("daily_checkins", "id")), t)
    else
      var rows := seq(|t.checkins|, i requires 0 <= i < |t.checkins| => RenumberRow(t.checkins[i], from, to));
      var tasks := seq(|t.microTasks|, k requires 0 <= k < |t.microTasks| => RepointTask(t.microTasks[k], from, to));
      var next := if to >= t.nextCheckinId then to + 1 else t.nextCheckinId;
      (Ok(()), Tables(rows, tasks, next, t.nextTaskId))
  }

  /** After renumbering, every task that referred to `from` refers to `to`,
      the others are untouched, and the store stays consistent. */
  lemma RenumberKeepsConsistent(t: Tables, from: int, to: int)
    requires Consistent(t)
    ensures Consistent(CheckinIdChanged(t, from, to).1)
  {
    var (r, t') := CheckinIdChanged(t, from, to);
    if r.Ok? && HasCheckinId(t.checkins, from) {
      forall i, j | 0 <= i < |t'.checkins| && 0 <= j < |t'.checkins| && i != j
        ensures t'.checkins[i].id != t'.checkins[j].id && t'.checkins[i].date != t'.checkins[j].date
      {
        if t.checkins[i].id != from && t.checkins[j].id == from {
          assert t.checkins[i].id != to;
        }
        if t.checkins[i].id == from && t.checkins[j].id != from {
          assert t.checkins[j].id != to;
        }
      }
      forall i | 0 <= i < |t'.checkins| ensures t'.checkins[i].id < t'.nextCheckinId {
      }
      forall k | 0 <= k < |t'.microTasks| && t'.microTasks[k].dailyCheckinId.Some?
        ensures HasCheckinId(t'.checkins, t'.microTasks[k].dailyCheckinId.value)
      {
        var v := t.microTasks[k].dailyCheckinId.value;
        var i :| 0 <= i < |t.checkins| && t.checkins[i].id == v;
        if v == from {
          assert t'.checkins[i].id == to;
        } else {
          assert t'.checkins[i].id == v;
        }
      }
    }
  }

  /** The store, updated in place. */
  class Store {
    var checkins: seq<CheckinRow>
    var microTasks: seq<MicroTaskRow>
    var nextCheckinId: int
    var nextTaskId: int

    function State(): Tables
      reads this
    {
      Tables(checkins, microTasks, nextCheckinId, nextTaskId)
    }

    ghost predicate Valid()
      reads this
    {
      Consistent(State())
    }

    constructor ()
      ensures Valid() && State() == EmptyTables
    {
      checkins, microTasks := [], [];
      nextCheckinId, nextTaskId := 1, 1;
    }

    /** The query of the service: first live row with date `d`. */
    method FindLiveByDate(d: Date) returns (r: Option<CheckinRow>)
      ensures r == LiveByDate(checkins, d)
    {
      var i := 0;
      while i < |checkins|
        invariant 0 <= i <= |checkins|
        invariant LiveByDate(checkins, d) == LiveByDate(checkins[i..], d)
      {
        assert checkins[i..][0] == checkins[i] && checkins[i..][1..] == checkins[i + 1..];
        if IsLive(checkins[i], d) {
          return Some(checkins[i]);
        }
        i := i + 1;
      }
      return None;
    }

    method DateTaken(d: Date) returns (taken: bool)
      ensures taken == HasDate(checkins, d)
    {
      var i := 0;
      while i < |checkins|
        invariant 0 <= i <= |checkins|
        invariant forall j :: 0 <= j < i ==> checkins[j].date != d
      {
        if checkins[i].date == d {
          return true;
        }
        i := i + 1;
      }
      return false;
    }

    method IdTaken(id: int) returns (taken: bool)
      ensures taken == HasCheckinId(checkins, id)
    {
      var i := 0;
      while i < |checkins|
        invariant 0 <= i <= |checkins|
        invariant forall j :: 0 <= j < i ==> checkins[j].id != id
      {
        if checkins[i].id == id {
          return true;
        }
        i := i + 1;
      }
      return false;
    }

    method InsertCheckin(n: NewCheckin) returns (r: Result<CheckinRow, DbErr>)
      requires Valid()
      modifies this
      ensures Valid()
      ensures (r, State()) == CheckinInserted(old(State()), n)
    {
      InsertCheckinKeepsConsistent(State(), n);
      var taken := DateTaken(n.date);
      if taken {
        return Err(UniqueViolation("daily_checkins", "date"));
      }
      var row := WithId(n, nextCheckinId);
      checkins := checkins + [row];
      nextCheckinId := nextCheckinId + 1;
      return Ok(row);
    }

    method InsertMicroTask(n: NewMicroTask, now: Timestamp) returns (r: Result<MicroTaskRow, DbErr>)
      requires Valid()
      modifies this
      ensures Valid()
      ensures (r, State()) == TaskInserted(old(State()), n, now)
    {
      InsertTaskKeepsConsistent(State(), n, now);
      if n.dailyCheckinId.Some? {
        var found := IdTaken(n.dailyCheckinId.value);
        if !found {
          return Err(ForeignKeyViolation("micro_tasks"));
        }
      }
      var row := MicroTaskRow(
        nextTaskId, n.dailyCheckinId, n.taskDescription, n.taskMemo,
        if n.isCompleted.Some? then n.isCompleted.value else 0,
        n.completedAt,
        if n.createdAt.Some? then n.createdAt.value else now,
        n.sortOrder);
      microTasks := microTasks + [row];
      nextTaskId := nextTaskId + 1;
      return Ok(row);
    }

    /** The check-in rows that survive deleting `id`. */
    method SurvivingRows(id: int) returns (kept: seq<CheckinRow>)
      ensures kept == KeepCheckins(checkins, id)
    {
      kept := [];
      var i := 0;
      while i < |checkins|
        invariant 0 <= i <= |checkins|
        invariant kept == KeepCheckins(checkins[..i], id)
      {
        ghost var prefix := checkins[..i + 1];
        assert prefix[..|prefix| - 1] == checkins[..i] && prefix[|prefix| - 1] == checkins[i];
        if checkins[i].id != id {
          kept := kept + [checkins[i]];
        }
        i := i + 1;
      }
      assert checkins[..i] == checkins;
    }

    /** The micro tasks that survive the cascade from deleting `id`. */
    method SurvivingTasks(id: int) returns (kept: seq<MicroTaskRow>)
      ensures kept == KeepTasks(microTasks, id)
    {
      kept := [];
      var k := 0;
      while k < |microTasks|
        invariant 0 <= k <= |microTasks|
        invariant kept == KeepTasks(microTasks[..k], id)
      {
        ghost var prefix := microTasks[..k + 1];
        assert prefix[..|prefix| - 1] == microTasks[..k] && prefix[|prefix| - 1] == microTasks[k];
        if microTasks[k].dailyCheckinId != Some(id) {
          kept := kept + [microTasks[k]];
        }
        k := k + 1;
      }
      assert microTasks[..k] == microTasks;
    }

    method DeleteCheckin(id: int)
      requires Valid()
      modifies this
      ensures Valid()
      ensures State() == CheckinDeleted(old(State()), id)
    {
      ghost var expected := CheckinDeleted(State(), id);
      DeleteKeepsConsistent(State(), id);
      var rows := SurvivingRows(id);
      var tasks := SurvivingTasks(id);
      assert expected == Tables(rows, tasks, nextCheckinId, nextTaskId);
      checkins, microTasks := rows, tasks;
      assert State() == expected;
    }

    /** Both tables as they read after renumbering check-in `from` to `to`. */
    method Renumbered(from: int, to: int) returns (rows: seq<CheckinRow>, tasks: seq<MicroTaskRow>)
      ensures |rows| == |checkins| && |tasks| == |microTasks|
      ensures forall i :: 0 <= i < |checkins| ==> rows[i] == RenumberRow(checkins[i], from, to)
      ensures forall k :: 0 <= k < |microTasks| ==> tasks[k] == RepointTask(microTasks[k], from, to)
    {
      rows := checkins;
      var i := 0;
      while i < |rows|
        invariant 0 <= i <= |rows| == |checkins|
        invariant forall j :: 0 <= j < i ==> rows[j] == RenumberRow(checkins[j], from, to)
        invariant forall j :: i <= j < |rows| ==> rows[j] == checkins[j]
      {
        rows := rows[i := RenumberRow(rows[i], from, to)];
        i := i + 1;
      }
      tasks := microTasks;
      var k := 0;
      while k < |tasks|
        invariant 0 <= k <= |tasks| == |microTasks|
        invariant forall j :: 0 <= j < k ==> tasks[j] == RepointTask(microTasks[j], from, to)
        invariant forall j :: k <= j < |tasks| ==> tasks[j] == microTasks[j]
      {
        tasks := tasks[k := RepointTask(tasks[k], from, to)];
        k := k + 1;
      }
    }

    method ChangeCheckinId(from: int, to: int) returns (r: Result<(), DbErr>)
      requires Valid()
      modifies this
      ensures Valid()
      ensures (r, State()) == CheckinIdChanged(old(State()), from, to)
    {
      RenumberKeepsConsistent(State(), from, to);
      var present := IdTaken(from);
      if !present {
        return Ok(());
      }
      var clash := IdTaken(to);
      if from != to && clash {
        return Err(UniqueViolation("daily_checkins", "id"));
      }
      ghost var expected := CheckinIdChanged(State(), from, to).1;
      checkins, microTasks := Renumbered(from, to);
      assert checkins == expected.checkins;
      assert microTasks == expected.microTasks;
      if to >= nextCheckinId {
        nextCheckinId := to + 1;
      }
      return Ok(());
    }
  }
}
