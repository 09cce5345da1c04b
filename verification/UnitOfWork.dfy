/** The unit of work: records are saved into a session and reach the database on commit.

    One `Table` is a session's view of one database table: the committed rows, the models added to
    the session but not yet flushed, and the persistent models whose attributes were set.
 */
module UnitOfWork {
  import opened Wrappers

  /** A record: its primary key, the value of the table's uniqueness constraint, and the rest. */
  datatype Row<T> = Row(id: string, unique: (string, string), data: T)

  type Rows<T> = map<string, Row<T>>

  ghost predicate Keyed<T>(m: Rows<T>) {
    forall id :: id in m ==> m[id].id == id
  }

  /** The database constraint: no two rows share the unique value. */
  ghost predicate UniqueOk<T>(m: Rows<T>) {
    forall a, b :: a in m && b in m && a != b ==> m[a].unique != m[b].unique
  }

  predicate HasNoClash<T>(m: Rows<T>)
    ensures HasNoClash(m) == UniqueOk(m)
  {
    !exists a, b :: a in m && b in m && a != b && m[a].unique == m[b].unique
  }

  /** The specification: one map update per save. */
  function SaveAll<T>(m: Rows<T>, rows: seq<Row<T>>): Rows<T> {
    if rows == [] then m
    else
      var last := rows[|rows| - 1];
      SaveAll(m, rows[..|rows| - 1])[last.id := last]
  }

  class Table<T(==, !new)> {
    var database: Rows<T>
    var pending: seq<Row<T>>
    var dirty: Rows<T>

    /** No model is pending twice, and a pending model is not in the database. */
    ghost predicate Valid()
      reads this
    {
      && Keyed(database) && Keyed(dirty) && dirty.Keys <= database.Keys
      && (forall i :: 0 <= i < |pending| ==> pending[i].id !in database)
      && (forall i, j :: 0 <= i < j < |pending| ==> pending[i].id != pending[j].id)
    }

    /** What the table will hold once everything in the session is flushed. */
    ghost function View(): Rows<T>
      reads this
    {
      SaveAll(database + dirty, pending)
    }

    ghost predicate Fresh()
      reads this
    {
      pending == [] && dirty == map[]
    }

    constructor (rows: Rows<T>)
      requires Keyed(rows)
      ensures Valid() && Fresh() && database == rows
    {
      database, pending, dirty := rows, [], map[];
    }

    method PendingModel(id: string) returns (index: int)
      ensures -1 <= index < |pending|
      ensures index >= 0 ==> pending[index].id == id
      ensures index == -1 ==> forall i :: 0 <= i < |pending| ==> pending[i].id != id
    {
      index := 0;
      while index < |pending|
        invariant 0 <= index <= |pending|
        invariant forall i :: 0 <= i < index ==> pending[i].id != id
      {
        if pending[index].id == id { return; }
        index := index + 1;
      }
      index := -1;
    }

    /** Save a record: update the pending model of that id, else the persistent one, else add one. */
    method SaveRecord(row: Row<T>)
      requires Valid()
      modifies this
      ensures Valid() && database == old(database)
      ensures View() == old(View())[row.id := row]
    {
      var index := PendingModel(row.id);
      if index >= 0 {
        ReplacePending(database + dirty, pending, index, row);
        pending := pending[index := row];
      } else if row.id in database {
        UpdateBelow(database + dirty, pending, row);
        assert database + dirty[row.id := row] == (database + dirty)[row.id := row];
        dirty := dirty[row.id := row];
      } else {
        assert (pending + [row])[..|pending|] == pending;
        pending := pending + [row];
      }
    }

    /** A query by unique value.  It runs against the database (autoflush is off), so it does not
        see pending models; a persistent model shows the attributes set in this session. */
    method FindByUnique(unique: (string, string)) returns (found: Option<Row<T>>)
      requires Valid()
      ensures found.None? <==> forall id :: id in database ==> database[id].unique != unique
      ensures found.Some? ==>
        var id := found.value.id;
        id in database && database[id].unique == unique && id in View() && found.value == View()[id]
    {
      if id :| id in database && database[id].unique == unique {
        PersistentView(database + dirty, pending, id);
        found := Some((database + dirty)[id]);
      } else {
        found := None;
      }
    }

    /** The table after a flush: persistent models are updated first, then pending ones are inserted
        one by one; a clash of primary key or unique value is an integrity error. */
    method Flushed() returns (ok: bool, table: Rows<T>)
      requires Valid()
      ensures ok <==> UniqueOk(View())
      ensures ok ==> table == View() && Keyed(table)
    {
      hide UniqueOk, SaveAll, Clashes;
      ghost var start := database + dirty;
      table := database + dirty;
      ok := HasNoClash(table);
      assert SaveAll(start, pending[..0]) == start by { NoSaves(start); }
      if !ok { InsertsKeepViolation(start, pending, 0); }
      var i := 0;
      while i < |pending| && ok
        invariant 0 <= i <= |pending|
        invariant ok ==> table == SaveAll(start, pending[..i]) && UniqueOk(table)
        invariant !ok ==> !UniqueOk(SaveAll(start, pending))
      {
        var row := pending[i];
        NextSave(start, pending, i);
        InsertUnique(table, row);
        if row.id in table || Clashes(table, row) {
          ok := false;
          InsertsKeepViolation(start, pending, i + 1);
        } else {
          table := table[row.id := row];
        }
        i := i + 1;
      }
      if ok {
        assert pending[..i] == pending;
        SavedKeys(start, pending);
      }
    }

    /** Flush and commit, or roll everything back. */
    method Commit() returns (ok: bool)
      requires Valid()
      modifies this
      ensures Valid() && Fresh()
      ensures ok <==> UniqueOk(old(View()))
      ensures database == if ok then old(View()) else old(database)
    {
      var table: Rows<T>;
      ok, table := Flushed();
      if ok { Accept(table); } else { Rollback(); }
    }

    method Accept(table: Rows<T>)
      requires Valid() && Keyed(table)
      modifies this
      ensures Valid() && Fresh() && database == table
    {
      database, pending, dirty := table, [], map[];
    }

    method Rollback()
      requires Valid()
      modifies this
      ensures Valid() && Fresh() && database == old(database)
    {
      pending, dirty := [], map[];
    }
  }

  lemma {:induction false} ReplacePending<T>(m: Rows<T>, rows: seq<Row<T>>, index: nat, row: Row<T>)
    requires index < |rows| && rows[index].id == row.id
    requires forall i, j :: 0 <= i < j < |rows| ==> rows[i].id != rows[j].id
    ensures SaveAll(m, rows[index := row]) == SaveAll(m, rows)[row.id := row]
  {
    var n := |rows| - 1;
    if index == n {
      assert rows[index := row][..n] == rows[..n];
    } else {
      assert rows[index := row][..n] == rows[..n][index := row];
      ReplacePending(m, rows[..n], index, row);
      assert rows[index].id != rows[n].id;
    }
  }

  lemma {:induction false} PersistentView<T>(m: Rows<T>, rows: seq<Row<T>>, id: string)
    requires id in m && forall i :: 0 <= i < |rows| ==> rows[i].id != id
    ensures id in SaveAll(m, rows) && SaveAll(m, rows)[id] == m[id]
  {
    if rows != [] { PersistentView(m, rows[..|rows| - 1], id); }
  }

  lemma {:induction false} UpdateBelow<T>(m: Rows<T>, rows: seq<Row<T>>, row: Row<T>)
    requires forall i :: 0 <= i < |rows| ==> rows[i].id != row.id
    ensures SaveAll(m[row.id := row], rows) == SaveAll(m, rows)[row.id := row]
  {
    if rows != [] { UpdateBelow(m, rows[..|rows| - 1], row); }
  }

  /** Some other row already has the unique value. */
  predicate Clashes<T>(m: Rows<T>, row: Row<T>) {
    exists a :: a in m && m[a].unique == row.unique
  }

  /** Inserting a row under a new id keeps the constraint exactly when the row clashes with none. */
  lemma {:induction false} InsertUnique<T>(m: Rows<T>, row: Row<T>)
    requires row.id !in m
    ensures UniqueOk(m[row.id := row]) <==> UniqueOk(m) && !Clashes(m, row)
  {
    var next := m[row.id := row];
    if !UniqueOk(m) {
      var a, b :| a in m && b in m && a != b && m[a].unique == m[b].unique;
      assert next[a].unique == next[b].unique;
    }
    if Clashes(m, row) {
      var a :| a in m && m[a].unique == row.unique;
      assert next[a].unique == next[row.id].unique;
    }
  }

  lemma {:induction false} InsertsKeepViolation<T>(m: Rows<T>, rows: seq<Row<T>>, i: nat)
    requires i <= |rows| && !UniqueOk(SaveAll(m, rows[..i]))
    requires forall j :: 0 <= j < |rows| ==> rows[j].id !in m
    requires forall j, k :: 0 <= j < k < |rows| ==> rows[j].id != rows[k].id
    ensures !UniqueOk(SaveAll(m, rows))
    decreases |rows| - i
  {
    hide UniqueOk, SaveAll;
    if i < |rows| {
      NextSave(m, rows, i);
      InsertUnique(SaveAll(m, rows[..i]), rows[i]);
      InsertsKeepViolation(m, rows, i + 1);
    } else {
      assert rows[..i] == rows;
    }
  }

  lemma {:induction false} NoSaves<T>(m: Rows<T>)
    ensures SaveAll(m, []) == m
  {
  }

  lemma {:induction false} NextSave<T>(m: Rows<T>, rows: seq<Row<T>>, i: nat)
    requires i < |rows|
    ensures SaveAll(m, rows[..i + 1]) == SaveAll(m, rows[..i])[rows[i].id := rows[i]]
    ensures rows[i].id !in m && (forall j :: 0 <= j < i ==> rows[j].id != rows[i].id) ==>
        rows[i].id !in SaveAll(m, rows[..i])
    ensures Keyed(m) ==> Keyed(SaveAll(m, rows[..i]))
  {
    assert rows[..i + 1][..i] == rows[..i];
    SavedKeys(m, rows[..i]);
  }

  lemma {:induction false} SavedKeys<T>(m: Rows<T>, rows: seq<Row<T>>)
    ensures forall id :: id in SaveAll(m, rows) <==> id in m || exists i :: 0 <= i < |rows| && rows[i].id == id
    ensures Keyed(m) ==> Keyed(SaveAll(m, rows))
  {
    if rows != [] {
      var n := |rows| - 1;
      SavedKeys(m, rows[..n]);
      assert forall i :: 0 <= i < n ==> rows[..n][i] == rows[i];
    }
  }

  /** One transaction over two tables: both are committed or neither. */
  method CommitTogether<A(==, !new), B(==, !new)>(first: Table<A>, second: Table<B>) returns (ok: bool)
    requires first.Valid() && second.Valid() && first as object != second as object
    modifies first, second
    ensures first.Valid() && first.Fresh() && second.Valid() && second.Fresh()
    ensures ok <==> UniqueOk(old(first.View())) && UniqueOk(old(second.View()))
    ensures first.database == if ok then old(first.View()) else old(first.database)
    ensures second.database == if ok then old(second.View()) else old(second.database)
  {
    var okFirst, rowsFirst := first.Flushed();
    var okSecond, rowsSecond := second.Flushed();
    ok := okFirst && okSecond;
    if ok {
      first.Accept(rowsFirst);
      second.Accept(rowsSecond);
    } else {
      first.Rollback();
      second.Rollback();
    }
  }

  /** Any sequence of saves, mixing pending and already persisted ids, followed by commit. */
  method SaveThenCommit<T(==, !new)>(table: Table<T>, rows: seq<Row<T>>) returns (ok: bool)
    requires table.Valid()
    modifies table
    ensures table.Valid() && table.Fresh()
    ensures ok <==> UniqueOk(SaveAll(old(table.View()), rows))
    ensures table.database == if ok then SaveAll(old(table.View()), rows) else old(table.database)
  {
    var i := 0;
    while i < |rows|
      invariant 0 <= i <= |rows| && table.Valid() && table.database == old(table.database)
      invariant table.View() == SaveAll(old(table.View()), rows[..i])
    {
      table.SaveRecord(rows[i]);
      assert rows[..i + 1][..i] == rows[..i];
      i := i + 1;
    }
    assert rows[..i] == rows;
    ok := table.Commit();
  }

  /** The last save of an id wins; ids never saved keep their row. */
  lemma {:induction false} LastSaveWins<T>(m: Rows<T>, rows: seq<Row<T>>, id: string)
    ensures id in SaveAll(m, rows) ==>
      || (exists i :: 0 <= i < |rows| && rows[i].id == id && SaveAll(m, rows)[id] == rows[i]
            && forall j :: i < j < |rows| ==> rows[j].id != id)
      || (id in m && SaveAll(m, rows)[id] == m[id] && forall j :: 0 <= j < |rows| ==> rows[j].id != id)
  {
    if rows != [] {
      var n := |rows| - 1;
      if rows[n].id != id {
        LastSaveWins(m, rows[..n], id);
        assert forall i :: 0 <= i < n ==> rows[..n][i] == rows[i];
      }
    }
  }

  /** Repeating a whole batch of saves changes nothing and adds no row. */
  lemma {:induction false} SaveAllAgain<T>(m: Rows<T>, rows: seq<Row<T>>)
    ensures SaveAll(SaveAll(m, rows), rows) == SaveAll(m, rows)
  {
    var once, twice := SaveAll(m, rows), SaveAll(SaveAll(m, rows), rows);
    SavedKeys(m, rows);
    SavedKeys(once, rows);
    forall id | id in once ensures twice[id] == once[id] {
      LastSaveWins(m, rows, id);
      LastSaveWins(once, rows, id);
    }
  }

  /** A row agrees with a table on who owns its id and its unique value. */
  ghost predicate Consistent<T>(m: Rows<T>, row: Row<T>) {
    forall id :: id in m ==> (m[id].unique == row.unique <==> id == row.id)
  }

  /** For rows that agree with the table, the constraint holds after saving exactly when rows with
      one unique value have one id. */
  lemma {:induction false} SavesUniqueIff<T>(m: Rows<T>, rows: seq<Row<T>>)
    requires UniqueOk(m) && forall x :: x in rows ==> Consistent(m, x)
    requires forall x, y :: x in rows && y in rows && x.id == y.id ==> x.unique == y.unique
    ensures UniqueOk(SaveAll(m, rows)) <==>
      forall x, y :: x in rows && y in rows && x.unique == y.unique ==> x.id == y.id
  {
    var all := SaveAll(m, rows);
    SavedKeys(m, rows);
    forall id | id in all && id in m ensures all[id].unique == m[id].unique {
      LastSaveWins(m, rows, id);
      if i :| 0 <= i < |rows| && rows[i].id == id && all[id] == rows[i] { assert Consistent(m, rows[i]); }
    }
    forall x | x in rows ensures x.id in all && all[x.id].unique == x.unique { LastSaveWins(m, rows, x.id); }
    forall id | id in all && id !in m ensures exists x :: x in rows && x.id == id {
      var i :| 0 <= i < |rows| && rows[i].id == id;
      assert rows[i] in rows;
    }
    UniqueByOrigin(m, all, rows);
  }

  lemma {:induction false} UniqueByOrigin<T>(m: Rows<T>, all: Rows<T>, rows: seq<Row<T>>)
    requires UniqueOk(m) && m.Keys <= all.Keys && forall x :: x in rows ==> Consistent(m, x)
    requires forall id :: id in m ==> all[id].unique == m[id].unique
    requires forall x :: x in rows ==> x.id in all && all[x.id].unique == x.unique
    requires forall id :: id in all && id !in m ==> exists x :: x in rows && x.id == id
    ensures UniqueOk(all) <==> forall x, y :: x in rows && y in rows && x.unique == y.unique ==> x.id == y.id
  {
  }

  /** Among rows with distinct ids each one is what the table holds under its id afterwards. */
  lemma {:induction false} SavedRow<T>(m: Rows<T>, rows: seq<Row<T>>, i: nat)
    requires i < |rows| && forall j, k :: 0 <= j < k < |rows| ==> rows[j].id != rows[k].id
    ensures rows[i].id in SaveAll(m, rows) && SaveAll(m, rows)[rows[i].id] == rows[i]
  {
    SavedKeys(m, rows);
    LastSaveWins(m, rows, rows[i].id);
  }
}
