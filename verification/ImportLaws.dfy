// What an import transaction promises: one id per identity, aligned with the input, repeatable.
module ImportLaws {
  import opened Tables
  import opened ProtocolInvariant

  // Whatever was stored is stored still.
  ghost predicate Kept(db: Db, after: Db) {
    && (forall k :: k in db.index ==> k in after.index && after.index[k] == db.index[k])
    && (forall i :: i in db.rows ==> i in after.rows && after.rows[i] == db.rows[i])
  }

  // Each id is the one indexed under the identity of its row.
  ghost predicate Aligned(db: Db, rows: seq<Row>, ids: seq<int>) {
    && |ids| == |rows|
    && forall i :: 0 <= i < |rows| ==> rows[i].Key() in db.index && db.index[rows[i].Key()] == ids[i]
  }

  // One step keeps everything stored before, and names the row stored under the identity.
  lemma {:induction false} InsertKeeps(db: Db, row: Row)
    requires IdsOk(db)
    ensures var (after, id) := Insert(db, row);
            && IdsOk(after) && Kept(db, after)
            && row.Key() in after.index && after.index[row.Key()] == id
            && (row.Key() in db.index ==> after == db.(nextId := db.nextId + 1))
            && (row.Key() !in db.index ==> id == db.nextId && after.rows[id] == row)
  {}

  // The ids are aligned with the input: each is the one id of its identity.
  lemma {:induction false} IdsAreAligned(db: Db, rows: seq<Row>)
    requires IdsOk(db)
    ensures IdsOk(InsertAll(db, rows).0) && Kept(db, InsertAll(db, rows).0)
    ensures Aligned(InsertAll(db, rows).0, rows, InsertAll(db, rows).1)
  {
    if rows != [] {
      var n := |rows| - 1;
      IdsAreAligned(db, rows[..n]);
      var (before, ids) := InsertAll(db, rows[..n]);
      InsertKeeps(before, rows[n]);
      AlignmentExtends(before, rows, ids);
    }
  }

  lemma {:induction false} AlignmentExtends(before: Db, rows: seq<Row>, ids: seq<int>)
    requires IdsOk(before) && rows != [] && Aligned(before, rows[..|rows| - 1], ids)
    ensures var (after, id) := Insert(before, rows[|rows| - 1]);
            Aligned(after, rows, ids + [id])
  {
    var n := |rows| - 1;
    InsertKeeps(before, rows[n]);
    forall i | 0 <= i < n ensures rows[..n][i] == rows[i] {}
  }

  // Equal identities get equal ids and distinct ones distinct ids.
  lemma {:induction false} IdsFollowIdentity(db: Db, rows: seq<Row>, i: nat, j: nat)
    requires IdsOk(db) && i < |rows| && j < |rows|
    ensures var ids := InsertAll(db, rows).1;
            |ids| == |rows| && (ids[i] == ids[j] <==> rows[i].Key() == rows[j].Key())
  {
    IdsAreAligned(db, rows);
  }

  // The row stored under a new identity is its first occurrence in the input.
  lemma {:induction false} FirstOccurrenceIsStored(db: Db, rows: seq<Row>, i: nat)
    requires IdsOk(db) && i < |rows| && rows[i].Key() !in db.index
    requires forall j :: 0 <= j < i ==> rows[j].Key() != rows[i].Key()
    ensures var (after, ids) := InsertAll(db, rows);
            |ids| == |rows| && ids[i] in after.rows && after.rows[ids[i]] == rows[i] && ids[i] !in db.rows
  {
    var n := |rows| - 1;
    IdsAreAligned(db, rows[..n]);
    InsertKeeps(InsertAll(db, rows[..n]).0, rows[n]);
    if i < n {
      FirstOccurrenceIsStored(db, rows[..n], i);
    } else {
      OnlyInputIsIndexed(db, rows[..n], rows[n].Key());
      NextIdGrows(db, rows[..n]);
    }
  }

  lemma {:induction false} NextIdGrows(db: Db, rows: seq<Row>)
    ensures InsertAll(db, rows).0.nextId == db.nextId + |rows|
  {
    if rows != [] { NextIdGrows(db, rows[..|rows| - 1]); }
  }

  lemma {:induction false} OnlyInputIsIndexed(db: Db, rows: seq<Row>, k: Identity)
    requires IdsOk(db) && k !in db.index
    ensures k in InsertAll(db, rows).0.index ==> exists i :: 0 <= i < |rows| && rows[i].Key() == k
  {
    if rows != [] {
      var n := |rows| - 1;
      IdsAreAligned(db, rows[..n]);
      OnlyInputIsIndexed(db, rows[..n], k);
      if k in InsertAll(db, rows[..n]).0.index {
        var i :| 0 <= i < n && rows[..n][i].Key() == k;
        assert rows[i].Key() == k;
      }
    }
  }

  // Importing rows whose identities are all stored inserts nothing and returns the stored ids.
  lemma {:induction false} KnownRowsInsertNothing(db: Db, rows: seq<Row>)
    requires IdsOk(db) && forall i :: 0 <= i < |rows| ==> rows[i].Key() in db.index
    ensures InsertAll(db, rows).0 == db.(nextId := db.nextId + |rows|)
    ensures |InsertAll(db, rows).1| == |rows|
    ensures forall i :: 0 <= i < |rows| ==> InsertAll(db, rows).1[i] == db.index[rows[i].Key()]
  {
    if rows == [] {
      assert db == db.(nextId := db.nextId + 0);
    } else {
      var n := |rows| - 1;
      KnownRowsInsertNothing(db, rows[..n]);
    }
  }

  // Importing the same file again inserts nothing and returns the same ids.
  lemma {:induction false} ReimportIsIdempotent(db: Db, rows: seq<Row>)
    requires IdsOk(db)
    ensures var (first, ids) := InsertAll(db, rows);
            var (second, again) := InsertAll(first, rows);
            again == ids && second == first.(nextId := first.nextId + |rows|)
  {
    IdsAreAligned(db, rows);
    KnownRowsInsertNothing(InsertAll(db, rows).0, rows);
  }
}
