/**
 * Tables whose rows belong to a user profile and carry an `is_default` flag: the saved addresses
 * and the saved payment methods. Rows are kept in insertion order; ids are unique.
 */
module OwnedRows {
  import Seqs

  type Id = nat

  datatype Row<T> = Row(id: Id, userId: Id, isDefault: bool, fields: T)

  ghost predicate UniqueIds<T>(rows: seq<Row<T>>) {
    forall i, j :: 0 <= i < j < |rows| ==> rows[i].id != rows[j].id
  }

  predicate IdsBelow<T>(rows: seq<Row<T>>, bound: nat) {
    forall i :: 0 <= i < |rows| ==> rows[i].id < bound
  }

  /** At most one of `userId`'s rows is flagged default. */
  ghost predicate OneDefault<T>(rows: seq<Row<T>>, userId: Id) {
    forall i, j :: 0 <= i < j < |rows| && rows[i].userId == userId && rows[j].userId == userId ==>
      !(rows[i].isDefault && rows[j].isDefault)
  }

  /** `update({ is_default: false }).eq('user_id', userId)`. */
  function ClearDefaults<T>(rows: seq<Row<T>>, userId: Id): (r: seq<Row<T>>)
    ensures |r| == |rows|
    ensures forall i {:trigger r[i]} :: 0 <= i < |rows| ==>
      r[i] == if rows[i].userId == userId then rows[i].(isDefault := false) else rows[i]
  {
    if rows == [] then []
    else
      var first := if rows[0].userId == userId then rows[0].(isDefault := false) else rows[0];
      [first] + ClearDefaults(rows[1..], userId)
  }

  /** `update({ is_default: true }).eq('id', id)`. */
  function MarkDefault<T>(rows: seq<Row<T>>, id: Id): (r: seq<Row<T>>)
    ensures |r| == |rows|
    ensures forall i {:trigger r[i]} :: 0 <= i < |rows| ==>
      r[i] == if rows[i].id == id then rows[i].(isDefault := true) else rows[i]
  {
    if rows == [] then []
    else
      var first := if rows[0].id == id then rows[0].(isDefault := true) else rows[0];
      [first] + MarkDefault(rows[1..], id)
  }

  /** `update(data).eq('id', id)` with a form that carries every column but the owner. */
  function UpdateRow<T>(rows: seq<Row<T>>, id: Id, isDefault: bool, fields: T): (r: seq<Row<T>>)
    ensures |r| == |rows|
    ensures forall i {:trigger r[i]} :: 0 <= i < |rows| ==>
      r[i] == if rows[i].id == id then rows[i].(isDefault := isDefault, fields := fields) else rows[i]
  {
    if rows == [] then []
    else
      var first := if rows[0].id == id then rows[0].(isDefault := isDefault, fields := fields) else rows[0];
      [first] + UpdateRow(rows[1..], id, isDefault, fields)
  }

  /** `insert([{ ...data, user_id }])`. */
  function InsertRow<T>(rows: seq<Row<T>>, id: Id, userId: Id, isDefault: bool, fields: T): seq<Row<T>> {
    rows + [Row(id, userId, isDefault, fields)]
  }

  function OtherRow<T>(id: Id): Row<T> -> bool {
    (r: Row<T>) => r.id != id
  }

  function OwnedRow<T>(userId: Id): Row<T> -> bool {
    (r: Row<T>) => r.userId == userId
  }

  predicate IsDefaultRow<T>(r: Row<T>) {
    r.isDefault
  }

  predicate NotDefaultRow<T>(r: Row<T>) {
    !r.isDefault
  }

  /** `delete().eq('id', id)`. */
  function DeleteRow<T>(rows: seq<Row<T>>, id: Id): seq<Row<T>> {
    Seqs.Filter(rows, OtherRow(id))
  }

  /** `.eq('user_id', userId)`. */
  function OwnedBy<T>(rows: seq<Row<T>>, userId: Id): seq<Row<T>> {
    Seqs.Filter(rows, OwnedRow(userId))
  }

  /** `.order('is_default', { ascending: false })`, ties in insertion order. */
  function DefaultFirst<T>(rows: seq<Row<T>>): seq<Row<T>> {
    Seqs.Filter(rows, IsDefaultRow) + Seqs.Filter(rows, NotDefaultRow)
  }

  /** What the fetch shows a user: their rows, default ones first. */
  function Listing<T>(rows: seq<Row<T>>, userId: Id): seq<Row<T>> {
    DefaultFirst(OwnedBy(rows, userId))
  }

  /** Set-default: after clearing the user's flags and flagging the chosen row, the chosen row is the
      user's only default; other users' rows and every row's id, owner and fields are untouched. */
  lemma SetDefaultLeavesOnlyChosen<T>(rows: seq<Row<T>>, userId: Id, k: nat)
    requires UniqueIds(rows) && k < |rows| && rows[k].userId == userId
    ensures |MarkDefault(ClearDefaults(rows, userId), rows[k].id)| == |rows|
    ensures MarkDefault(ClearDefaults(rows, userId), rows[k].id)[k].isDefault
    ensures forall i :: 0 <= i < |rows| && i != k && rows[i].userId == userId ==>
      !MarkDefault(ClearDefaults(rows, userId), rows[k].id)[i].isDefault
    ensures forall i :: 0 <= i < |rows| && rows[i].userId != userId ==>
      MarkDefault(ClearDefaults(rows, userId), rows[k].id)[i] == rows[i]
    ensures forall i :: 0 <= i < |rows| ==>
      var r := MarkDefault(ClearDefaults(rows, userId), rows[k].id)[i];
      r.id == rows[i].id && r.userId == rows[i].userId && r.fields == rows[i].fields
    ensures OneDefault(MarkDefault(ClearDefaults(rows, userId), rows[k].id), userId)
  {
    var cleared := ClearDefaults(rows, userId);
    var r := MarkDefault(cleared, rows[k].id);
    forall i | 0 <= i < |rows| && i != k
      ensures r[i] == (if rows[i].userId == userId then rows[i].(isDefault := false) else rows[i])
    {
      assert cleared[i].id == rows[i].id != rows[k].id;
    }
  }

  /** When the clearing update is refused but the flagging one goes through, a previous default of
      the user stays flagged beside the chosen row. */
  lemma SkippedClearKeepsOldDefault<T>(rows: seq<Row<T>>, userId: Id, k: nat, j: nat)
    requires UniqueIds(rows) && k < |rows| && j < |rows| && j != k
    requires rows[k].userId == userId && rows[j].userId == userId && rows[j].isDefault
    ensures !OneDefault(MarkDefault(rows, rows[k].id), userId)
  {
    var r := MarkDefault(rows, rows[k].id);
    assert r[k].isDefault && r[j].isDefault && r[k].userId == userId && r[j].userId == userId;
  }

  /** Delete removes exactly the rows with that id and keeps the others in order. */
  lemma DeleteRemovesOnlyThatRow<T>(rows: seq<Row<T>>, id: Id)
    ensures forall x :: x in DeleteRow(rows, id) <==> x in rows && x.id != id
    ensures (forall i :: 0 <= i < |rows| ==> rows[i].id != id) ==> DeleteRow(rows, id) == rows
  {
    Seqs.FilterMembers(rows, OtherRow(id));
    if forall i :: 0 <= i < |rows| ==> rows[i].id != id {
      Seqs.FilterAll(rows, OtherRow(id));
    }
  }

  function DifferentIds<T>(): (Row<T>, Row<T>) -> bool {
    (a: Row<T>, b: Row<T>) => a.id != b.id
  }

  /** Deleting keeps the ids unique. */
  lemma DeleteKeepsIds<T>(rows: seq<Row<T>>, id: Id)
    requires UniqueIds(rows)
    ensures UniqueIds(DeleteRow(rows, id))
  {
    assert Seqs.Pairwise(rows, DifferentIds());
    Seqs.FilterKeepsPairwise(rows, OtherRow(id), DifferentIds());
  }

  /** Deleting keeps the ids below the table's counter. */
  lemma DeleteKeepsBound<T>(rows: seq<Row<T>>, id: Id, bound: nat)
    requires IdsBelow(rows, bound)
    ensures IdsBelow(DeleteRow(rows, id), bound)
  {
    var r := DeleteRow(rows, id);
    forall i | 0 <= i < |r| ensures r[i].id < bound {
      var j :| 0 <= j < |rows| && rows[j] == r[i];
    }
  }

  /** The default-first listing is a reordering of the rows with every default row ahead of every
      other row. */
  lemma DefaultFirstSorts<T>(rows: seq<Row<T>>)
    ensures multiset(DefaultFirst(rows)) == multiset(rows)
    ensures |DefaultFirst(rows)| == |rows|
    ensures forall i, j :: 0 <= i < j < |rows| && DefaultFirst(rows)[j].isDefault ==> DefaultFirst(rows)[i].isDefault
  {
    var front := Seqs.Filter(rows, IsDefaultRow);
    var back := Seqs.Filter(rows, NotDefaultRow);
    Seqs.FilterKeepsMultiset(rows, IsDefaultRow, NotDefaultRow);
    assert |front| + |back| == |rows| by {
      assert |multiset(front)| + |multiset(back)| == |multiset(rows)|;
    }
    forall i, j | 0 <= i < j < |rows| && DefaultFirst(rows)[j].isDefault
      ensures DefaultFirst(rows)[i].isDefault
    {
      assert DefaultFirst(rows)[i] == front[i];
      assert IsDefaultRow(front[i]);
    }
  }

  /** If any of the user's rows is flagged, the listing starts with a flagged row. */
  lemma ListingStartsWithDefault<T>(rows: seq<Row<T>>, userId: Id, k: nat)
    requires k < |rows| && rows[k].userId == userId && rows[k].isDefault
    ensures |Listing(rows, userId)| > 0 && Listing(rows, userId)[0].isDefault
    ensures Listing(rows, userId)[0].userId == userId
  {
    var owned := OwnedBy(rows, userId);
    Seqs.FilterMembers(rows, OwnedRow(userId));
    assert rows[k] in owned;
    Seqs.FilterMembers(owned, IsDefaultRow);
    assert rows[k] in Seqs.Filter(owned, IsDefaultRow);
    var first := Seqs.Filter(owned, IsDefaultRow)[0];
    assert first in owned;
  }

  /** Adding a row flagged default while another of the user's rows is flagged leaves two defaults. */
  lemma InsertDefaultBreaksOneDefault<T>(rows: seq<Row<T>>, id: Id, userId: Id, fields: T, j: nat)
    requires j < |rows| && rows[j].userId == userId && rows[j].isDefault
    ensures !OneDefault(InsertRow(rows, id, userId, true, fields), userId)
  {
    var r := InsertRow(rows, id, userId, true, fields);
    assert r[j] == rows[j] && r[|rows|].isDefault;
  }

  /** Saving a row flagged default over another of the user's rows while a third is flagged leaves two defaults. */
  lemma UpdateDefaultBreaksOneDefault<T>(rows: seq<Row<T>>, k: nat, fields: T, j: nat)
    requires UniqueIds(rows) && k < |rows| && j < |rows| && j != k
    requires rows[k].userId == rows[j].userId && rows[j].isDefault
    ensures !OneDefault(UpdateRow(rows, rows[k].id, true, fields), rows[k].userId)
  {
    var r := UpdateRow(rows, rows[k].id, true, fields);
    assert r[k].isDefault && r[j].isDefault && r[k].userId == r[j].userId == rows[k].userId;
  }

  /** Insert that keeps one default per user: a row flagged default first clears the user's flags. */
  function InsertKeepingOneDefault<T>(rows: seq<Row<T>>, id: Id, userId: Id, isDefault: bool, fields: T): seq<Row<T>> {
    InsertRow(if isDefault then ClearDefaults(rows, userId) else rows, id, userId, isDefault, fields)
  }

  /** Update that keeps one default per user, in the same way. */
  function UpdateKeepingOneDefault<T>(rows: seq<Row<T>>, id: Id, userId: Id, isDefault: bool, fields: T): seq<Row<T>> {
    UpdateRow(if isDefault then ClearDefaults(rows, userId) else rows, id, isDefault, fields)
  }

  lemma InsertKeepsOneDefault<T>(rows: seq<Row<T>>, id: Id, userId: Id, isDefault: bool, fields: T, other: Id)
    requires OneDefault(rows, other)
    ensures OneDefault(InsertKeepingOneDefault(rows, id, userId, isDefault, fields), other)
    ensures isDefault ==> forall i :: 0 <= i < |rows| && rows[i].userId == userId ==>
      !InsertKeepingOneDefault(rows, id, userId, isDefault, fields)[i].isDefault
  {
    var base := if isDefault then ClearDefaults(rows, userId) else rows;
    var r := InsertKeepingOneDefault(rows, id, userId, isDefault, fields);
    forall i, j | 0 <= i < j < |r| && r[i].userId == other && r[j].userId == other
      ensures !(r[i].isDefault && r[j].isDefault)
    {
      if j < |rows| {
        assert r[i] == base[i] && r[j] == base[j];
        assert !(rows[i].isDefault && rows[j].isDefault);
      } else {
        assert r[i] == base[i];
      }
    }
  }

  lemma UpdateKeepsOneDefault<T>(rows: seq<Row<T>>, k: nat, isDefault: bool, fields: T, other: Id)
    requires UniqueIds(rows) && k < |rows| && OneDefault(rows, other)
    ensures OneDefault(UpdateKeepingOneDefault(rows, rows[k].id, rows[k].userId, isDefault, fields), other)
  {
    var r := UpdateKeepingOneDefault(rows, rows[k].id, rows[k].userId, isDefault, fields);
    forall i, j | 0 <= i < j < |r| && r[i].userId == other && r[j].userId == other
      ensures !(r[i].isDefault && r[j].isDefault)
    {
      UpdatedRow(rows, k, isDefault, fields, i);
      UpdatedRow(rows, k, isDefault, fields, j);
    }
  }

  /** One row after the corrected update: the edited row carries the new flag; another row keeps its
      owner, and keeps its flag unless the new flag cleared its owner's defaults. */
  lemma UpdatedRow<T>(rows: seq<Row<T>>, k: nat, isDefault: bool, fields: T, i: nat)
    requires UniqueIds(rows) && k < |rows| && i < |rows|
    ensures var r := UpdateKeepingOneDefault(rows, rows[k].id, rows[k].userId, isDefault, fields);
      && |r| == |rows|
      && r[i].userId == rows[i].userId
      && (i == k ==> r[i].isDefault == isDefault)
      && (i != k ==> r[i].isDefault == (rows[i].isDefault && !(isDefault && rows[i].userId == rows[k].userId)))
  {
    var base := if isDefault then ClearDefaults(rows, rows[k].userId) else rows;
    assert base[i].id == rows[i].id && base[i].userId == rows[i].userId;
    assert i != k ==> rows[i].id != rows[k].id;
  }
}
