// db_migrate.py: the v7 to v8 migration of lessons_learned, and the migration runner.

/** Folding duplicate active lessons into their newest row. */
module LessonMigration {
  import opened Wrappers

  /** A text column read by datetime(): NULL, text that is no date, or an instant. */
  datatype Stamp = Null | NoDate | Instant(seconds: int)

  /** The columns of lessons_learned the migration reads or writes; ids are the keys of the table. */
  datatype Row = Row(signature: Option<string>, source: Option<string>, active: int, timesSeen: Option<int>,
                     createdAt: Stamp, updatedAt: Stamp)

  type Rows = map<nat, Row>

  /** One (error_signature, source) group; NULLs are a value of their own. */
  datatype Key = Key(signature: Option<string>, source: Option<string>)

  function KeyOf(r: Row): Key {
    Key(r.signature, r.source)
  }

  /** COALESCE(times_seen, 1) */
  function Seen(r: Row): int {
    if r.timesSeen.Some? then r.timesSeen.value else 1
  }

  /** datetime(COALESCE(updated_at, created_at)) */
  function Age(r: Row): Option<int> {
    var raw := if r.updatedAt.Null? then r.createdAt else r.updatedAt;
    if raw.Instant? then Some(raw.seconds) else None
  }

  /** Row a comes before row b in ORDER BY ... DESC, id DESC; NULLs come last. */
  predicate Newer(rows: Rows, a: nat, b: nat)
    requires a in rows && b in rows
  {
    match (Age(rows[a]), Age(rows[b]))
    case (Some(x), Some(y)) => x > y || (x == y && a > b)
    case (Some(_), None) => true
    case (None, Some(_)) => false
    case (None, None) => a > b
  }

  /** The active rows of a group. */
  function Active(rows: Rows, key: Key): set<nat> {
    set id | id in rows && rows[id].active == 1 && KeyOf(rows[id]) == key
  }

  ghost function Any(ids: set<nat>): (id: nat)
    requires ids != {}
    ensures id in ids
  {
    var id :| id in ids;
    id
  }

  predicate IsNewest(rows: Rows, ids: set<nat>, id: nat)
    requires ids <= rows.Keys
  {
    id in ids && forall other :: other in ids && other != id ==> Newer(rows, id, other)
  }

  lemma {:induction false} NewestExists(rows: Rows, ids: set<nat>) returns (id: nat)
    requires ids <= rows.Keys && ids != {}
    ensures IsNewest(rows, ids, id)
    decreases |ids|
  {
    var x := Any(ids);
    if ids == {x} {
      id := x;
    } else {
      assert |ids - {x}| < |ids|;
      var y := NewestExists(rows, ids - {x});
      id := if Newer(rows, x, y) then x else y;
      forall other | other in ids && other != id ensures Newer(rows, id, other) {
        if other != x && other != y {
          assert other in ids - {x} && Newer(rows, y, other);
        }
      }
    }
  }

  /** The first row of the ordered query. */
  function Newest(rows: Rows, ids: set<nat>): (id: nat)
    requires ids <= rows.Keys && ids != {}
    ensures IsNewest(rows, ids, id)
  {
    assert exists id :: IsNewest(rows, ids, id) by { var id := NewestExists(rows, ids); }
    var id :| id in ids && IsNewest(rows, ids, id);
    id
  }

  /** The ids of the ordered query. */
  function Ordered(rows: Rows, ids: set<nat>): (r: seq<nat>)
    requires ids <= rows.Keys
    ensures forall id :: id in r <==> id in ids
    ensures forall i, j :: 0 <= i < j < |r| ==> r[i] != r[j]
    ensures |r| == |ids|
    decreases |ids|
  {
    if ids == {} then []
    else
      var id := Newest(rows, ids);
      assert |ids - {id}| == |ids| - 1;
      [id] + Ordered(rows, ids - {id})
  }

  // -------------------------------------------------------------------------
  // Sums over rows
  // -------------------------------------------------------------------------

  ghost function Sum(rows: Rows, ids: set<nat>): int
    requires ids <= rows.Keys
    decreases |ids|
  {
    if ids == {} then 0
    else
      var id := Any(ids);
      assert |ids - {id}| < |ids|;
      Seen(rows[id]) + Sum(rows, ids - {id})
  }

  lemma {:induction false} SumTakesOut(rows: Rows, ids: set<nat>, id: nat)
    requires ids <= rows.Keys && id in ids
    ensures Sum(rows, ids) == Seen(rows[id]) + Sum(rows, ids - {id})
    decreases |ids|
  {
    var first := Any(ids);
    if first != id {
      assert |ids - {first}| < |ids|;
      SumTakesOut(rows, ids - {first}, id);
      SumTakesOut(rows, ids - {id}, first);
      assert ids - {first} - {id} == ids - {id} - {first};
    }
  }

  // -------------------------------------------------------------------------
  // What the migration makes of the table
  // -------------------------------------------------------------------------

  /** The row with this id afterwards: the newest of a group of duplicates takes the counts
      of the others, and they are deactivated. */
  ghost function MigratedRow(rows: Rows, now: int, id: nat): Row
    requires id in rows
  {
    var group := Active(rows, KeyOf(rows[id]));
    if rows[id].active != 1 || |group| <= 1 then rows[id]
    else if id == Newest(rows, group)
    then rows[id].(timesSeen := Some(Seen(rows[id]) + Sum(rows, group - {id})), updatedAt := Instant(now))
    else rows[id].(active := 0)
  }

  ghost function Migrated(rows: Rows, now: int): Rows {
    map id | id in rows :: MigratedRow(rows, now, id)
  }

  // -------------------------------------------------------------------------
  // The migration
  // -------------------------------------------------------------------------

  function Folded(rows: Rows, id: nat, extra: int, now: int): Rows
    requires id in rows
  {
    rows[id := rows[id].(timesSeen := Some(Seen(rows[id]) + extra), updatedAt := Instant(now))]
  }

  function Deactivated(rows: Rows, ids: seq<nat>): Rows {
    map id | id in rows :: if id in ids then rows[id].(active := 0) else rows[id]
  }

  function SumOver(rows: Rows, ids: seq<nat>): int
    requires forall id :: id in ids ==> id in rows
  {
    if ids == [] then 0 else Seen(rows[ids[0]]) + SumOver(rows, ids[1..])
  }

  /** Everything but the group is as it was. */
  ghost predicate Handled(rows: Rows, after: Rows, now: int, done: set<Key>) {
    && after.Keys == rows.Keys
    && forall id :: id in rows ==> after[id] == if KeyOf(rows[id]) in done then MigratedRow(rows, now, id) else rows[id]
  }

  lemma {:induction false} SumOverIsSum(rows: Rows, ids: seq<nat>, all: set<nat>)
    requires all <= rows.Keys && |ids| == |all| && (forall id :: id in ids <==> id in all)
    requires forall i, j :: 0 <= i < j < |ids| ==> ids[i] != ids[j]
    ensures SumOver(rows, ids) == Sum(rows, all)
    decreases |ids|
  {
    if ids != [] {
      assert ids[0] in all;
      SumTakesOut(rows, all, ids[0]);
      SumOverIsSum(rows, ids[1..], all - {ids[0]});
    }
  }

  lemma LosersAreRows(rows: Rows, ids: seq<nat>)
    requires |ids| > 1 && forall id :: id in ids ==> id in rows
    ensures ids[0] in rows && forall id :: id in ids[1..] ==> id in rows
  {
    forall id | id in ids[1..] ensures id in rows {
      var i :| 0 <= i < |ids[1..]| && ids[1..][i] == id;
      assert ids[i + 1] in ids;
    }
  }

  method SumLosers(rows: Rows, losers: seq<nat>) returns (total: int)
    requires forall id :: id in losers ==> id in rows
    ensures total == SumOver(rows, losers)
  {
    total := 0;
    for i := 0 to |losers|
      invariant total + SumOver(rows, losers[i..]) == SumOver(rows, losers)
    {
      assert losers[i..][1..] == losers[i + 1..];
      total := total + Seen(rows[losers[i]]);
    }
  }

  /** The GROUP BY ... HAVING n > 1 query. */
  function DuplicateGroups(rows: Rows): set<Key> {
    set id | id in rows && rows[id].active == 1 && |Active(rows, KeyOf(rows[id]))| > 1 :: KeyOf(rows[id])
  }

  lemma AllHandled(rows: Rows, after: Rows, now: int, todo: set<Key>)
    requires todo == {} && Handled(rows, after, now, DuplicateGroups(rows) - todo)
    ensures after == Migrated(rows, now)
  {
    assert DuplicateGroups(rows) - todo == DuplicateGroups(rows);
  }

  lemma NextGroup(rows: Rows, after: Rows, now: int, all: set<Key>, todo: set<Key>, key: Key)
    requires Handled(rows, after, now, all - todo) && key in todo && todo <= all == DuplicateGroups(rows)
    ensures Handled(rows, GroupFolded(after, key, now), now, all - (todo - {key}))
  {
    GroupStep(rows, after, now, all - todo, key);
    assert all - todo + {key} == all - (todo - {key});
  }

  lemma NewestIsUnique(rows: Rows, ids: set<nat>, a: nat, b: nat)
    requires ids <= rows.Keys && IsNewest(rows, ids, a) && IsNewest(rows, ids, b)
    ensures a == b
  {
  }

  /** Folding a group makes the planned rows of it and leaves the others. */
  lemma GroupRows(rows: Rows, key: Key, now: int, id: nat)
    requires key in DuplicateGroups(rows) && id in rows
    ensures GroupFolded(rows, key, now).Keys == rows.Keys
    ensures GroupFolded(rows, key, now)[id] == if KeyOf(rows[id]) == key then MigratedRow(rows, now, id) else rows[id]
  {
    var group := Active(rows, key);
    GroupKeys(rows, key, now);
    GroupRow(rows, key, now, Ordered(rows, group), id);
  }

  lemma GroupRow(rows: Rows, key: Key, now: int, ids: seq<nat>, id: nat)
    requires id in rows && |ids| == |Active(rows, key)| > 1 && ids[0] == Newest(rows, Active(rows, key))
    requires forall i, j :: 0 <= i < j < |ids| ==> ids[i] != ids[j]
    requires forall other :: other in ids <==> other in Active(rows, key)
    ensures ids[0] in rows && forall other :: other in ids[1..] ==> other in rows
    ensures Deactivated(Folded(rows, ids[0], SumOver(rows, ids[1..]), now), ids[1..])[id]
            == if KeyOf(rows[id]) == key then MigratedRow(rows, now, id) else rows[id]
  {
    LosersSum(rows, ids, Active(rows, key));
    FoldedRow(rows, ids, SumOver(rows, ids[1..]), now, id);
  }

  lemma FoldedRow(rows: Rows, ids: seq<nat>, total: int, now: int, id: nat)
    requires id in rows && |ids| > 1 && ids[0] in rows
    requires forall i, j :: 0 <= i < j < |ids| ==> ids[i] != ids[j]
    ensures Deactivated(Folded(rows, ids[0], total, now), ids[1..])[id] ==
            if id == ids[0] then rows[id].(timesSeen := Some(Seen(rows[id]) + total), updatedAt := Instant(now))
            else if id in ids then rows[id].(active := 0)
            else rows[id]
  {
    LosersAre(ids, id);
  }

  lemma LosersAre(ids: seq<nat>, id: nat)
    requires ids != [] && forall i, j :: 0 <= i < j < |ids| ==> ids[i] != ids[j]
    ensures id in ids[1..] <==> id in ids && id != ids[0]
  {
    if id in ids && id != ids[0] {
      var i :| 0 <= i < |ids| && ids[i] == id;
      assert ids[1..][i - 1] == id;
    }
    if id in ids[1..] {
      var i :| 0 <= i < |ids[1..]| && ids[1..][i] == id;
      assert ids[i + 1] == id;
    }
  }

  /** A group whose rows are still as they were is migrated as it would have been. */
  lemma SameGroupSameRow(rows: Rows, after: Rows, now: int, id: nat)
    requires id in rows && id in after && rows[id] == after[id]
    requires Active(after, KeyOf(rows[id])) == Active(rows, KeyOf(rows[id]))
    requires forall other :: other in Active(rows, KeyOf(rows[id])) ==> after[other] == rows[other]
    ensures MigratedRow(after, now, id) == MigratedRow(rows, now, id)
  {
    var group := Active(rows, KeyOf(rows[id]));
    if rows[id].active == 1 && |group| > 1 {
      var x, y := Newest(rows, group), Newest(after, group);
      assert IsNewest(rows, group, y) by {
        forall other | other in group && other != y ensures Newer(rows, y, other) {
          assert Newer(after, y, other);
        }
      }
      NewestIsUnique(rows, group, x, y);
      SameSum(rows, after, group - {id});
    }
  }

  lemma GroupStep(rows: Rows, after: Rows, now: int, done: set<Key>, key: Key)
    requires Handled(rows, after, now, done) && key !in done && key in DuplicateGroups(rows)
    ensures Handled(rows, GroupFolded(after, key, now), now, done + {key})
  {
    ActiveElsewhere(rows, after, now, done, key);
    var folded := GroupFolded(after, key, now);
    forall id | id in rows
      ensures id in folded && folded[id] == if KeyOf(rows[id]) in done + {key} then MigratedRow(rows, now, id) else rows[id]
    {
      GroupRows(after, key, now, id);
      if KeyOf(rows[id]) == key {
        SameGroupSameRow(rows, after, now, id);
      }
    }
    GroupKeys(after, key, now);
  }

  lemma GroupKeys(rows: Rows, key: Key, now: int)
    ensures GroupFolded(rows, key, now).Keys == rows.Keys
  {
  }

  lemma ActiveElsewhere(rows: Rows, after: Rows, now: int, done: set<Key>, key: Key)
    requires Handled(rows, after, now, done) && key !in done
    ensures Active(after, key) == Active(rows, key)
    ensures forall id :: id in Active(rows, key) ==> after[id] == rows[id]
  {
    forall id | id in rows ensures KeyOf(after[id]) == KeyOf(rows[id]) {
    }
  }

  lemma LosersSum(rows: Rows, ids: seq<nat>, group: set<nat>)
    requires group <= rows.Keys && |ids| == |group| > 1
    requires forall id :: id in ids <==> id in group
    requires forall i, j :: 0 <= i < j < |ids| ==> ids[i] != ids[j]
    ensures forall id :: id in ids[1..] ==> id in rows
    ensures SumOver(rows, ids[1..]) == Sum(rows, group - {ids[0]})
  {
    LosersAreRows(rows, ids);
    assert ids[0] in group;
    forall id ensures id in ids[1..] <==> id in group - {ids[0]} {
      LosersAre(ids, id);
    }
    SumOverIsSum(rows, ids[1..], group - {ids[0]});
  }

  lemma {:induction false} SameSum(rows: Rows, after: Rows, ids: set<nat>)
    requires ids <= rows.Keys && ids <= after.Keys && forall id :: id in ids ==> Seen(after[id]) == Seen(rows[id])
    ensures Sum(after, ids) == Sum(rows, ids)
    decreases |ids|
  {
    if ids != {} {
      var id := Any(ids);
      assert |ids - {id}| < |ids|;
      SameSum(rows, after, ids - {id});
    }
  }

  class Lessons {
    /** None: the table does not exist. */
    var table: Option<Rows>

    constructor (table: Option<Rows>)
      ensures this.table == table
    {
      this.table := table;
    }

    /** UPDATE ... SET times_seen = COALESCE(times_seen, 1) + ?, updated_at = datetime('now') WHERE id = ? */
    method Fold(id: nat, extra: int, now: int)
      requires table.Some? && id in table.value
      modifies this
      ensures table == Some(Folded(old(table.value), id, extra, now))
    {
      var r := table.value[id];
      table := Some(table.value[id := r.(timesSeen := Some(Seen(r) + extra), updatedAt := Instant(now))]);
    }

    /** UPDATE ... SET active = 0 WHERE id IN (...) */
    method Deactivate(ids: seq<nat>)
      requires table.Some?
      modifies this
      ensures table == Some(Deactivated(old(table.value), ids))
    {
      table := Some(Deactivated(table.value, ids));
    }

    /** One group of the query for duplicates. */
    method FoldGroup(key: Key, now: int)
      requires table.Some?
      modifies this
      ensures table == Some(GroupFolded(old(table.value), key, now))
    {
      var rows := table.value;
      var ids := Ordered(rows, Active(rows, key));
      if |ids| <= 1 {
        return;
      }
      LosersAreRows(rows, ids);
      var total := SumLosers(rows, ids[1..]);
      Fold(ids[0], total, now);
      Deactivate(ids[1..]);
    }

    /** migrate_v7_to_v8 */
    method Migrate(now: int)
      modifies this
      ensures table == if old(table).Some? then Some(Migrated(old(table.value), now)) else None
    {
      if table.None? {
        return;
      }
      ghost var rows := table.value;
      var todo := DuplicateGroups(table.value);
      ghost var all := todo;
      while todo != {}
        invariant todo <= all && table.Some? && Handled(rows, table.value, now, all - todo)
        decreases |todo|
      {
        var key :| key in todo;
        NextGroup(rows, table.value, now, all, todo, key);
        FoldGroup(key, now);
        todo := todo - {key};
      }
      AllHandled(rows, table.value, now, todo);
    }
  }

  function GroupFolded(rows: Rows, key: Key, now: int): Rows {
    var ids := Ordered(rows, Active(rows, key));
    if |ids| <= 1 then rows
    else
      assert forall i :: 0 <= i < |ids[1..]| ==> ids[1..][i] == ids[i + 1] && ids[i + 1] in ids;
      Deactivated(Folded(rows, ids[0], SumOver(rows, ids[1..]), now), ids[1..])
  }

  // -------------------------------------------------------------------------
  // What the migration promises
  // -------------------------------------------------------------------------

  /** The total of COALESCE(times_seen, 1) over a group's active rows. */
  ghost function Total(rows: Rows, key: Key): int {
    Sum(rows, Active(rows, key))
  }

  /** The row was last touched at t: updated then, or never updated and created then. */
  predicate Touched(r: Row, t: int) {
    r.updatedAt == Instant(t) || (r.updatedAt == Null && r.createdAt == Instant(t))
  }

  /** Neither column gives a date. */
  predicate Undated(r: Row) {
    r.updatedAt == NoDate || (r.updatedAt == Null && !r.createdAt.Instant?)
  }

  /** a was touched later than b, or b has no date; of two alike the larger id comes first. */
  ghost predicate Beats(rows: Rows, a: nat, b: nat)
    requires a in rows && b in rows
  {
    || (exists x, y :: Touched(rows[a], x) && Touched(rows[b], y) && (x > y || (x == y && a > b)))
    || (exists x :: Touched(rows[a], x) && Undated(rows[b]))
    || (Undated(rows[a]) && Undated(rows[b]) && a > b)
  }

  lemma NewerIff(rows: Rows, a: nat, b: nat)
    requires a in rows && b in rows
    ensures Newer(rows, a, b) <==> Beats(rows, a, b)
  {
    match (Age(rows[a]), Age(rows[b]))
    case (Some(x), Some(y)) => assert Touched(rows[a], x) && Touched(rows[b], y);
    case (Some(x), None) => assert Touched(rows[a], x) && Undated(rows[b]);
    case _ =>
  }

  /** Of a group the row touched last stays active, and only that. */
  lemma TheLatestStays(rows: Rows, now: int, key: Key, a: nat)
    requires a in Active(rows, key) && forall b :: b in Active(rows, key) && b != a ==> Beats(rows, a, b)
    ensures Active(Migrated(rows, now), key) == {a}
  {
    var group := Active(rows, key);
    forall b | b in group && b != a ensures Newer(rows, a, b) {
      NewerIff(rows, a, b);
    }
    NewestIsUnique(rows, group, a, Newest(rows, group));
    OneActiveRowStays(rows, now, key);
  }

  /** The row was seen n times; NULL stands for once. */
  predicate Counts(r: Row, n: int) {
    if r.timesSeen == None then n == 1 else r.timesSeen == Some(n)
  }

  /** Two duplicates: the one touched last takes the count of the other, which is deactivated. */
  lemma TwoDuplicates(rows: Rows, now: int, a: nat, b: nat, m: int, n: int)
    requires a in rows && b in rows && a != b && Active(rows, KeyOf(rows[a])) == {a, b}
    requires Beats(rows, a, b) && Counts(rows[a], m) && Counts(rows[b], n)
    ensures Migrated(rows, now)[a] == rows[a].(timesSeen := Some(m + n), updatedAt := Instant(now))
    ensures Migrated(rows, now)[b] == rows[b].(active := 0)
  {
    var group := Active(rows, KeyOf(rows[a]));
    assert a in group && b in group;
    NewerIff(rows, a, b);
    NewestIsUnique(rows, group, a, Newest(rows, group));
    assert group - {a} == {b} && {b} - {b} == {};
    SumTakesOut(rows, {b}, b);
  }

  /** Exactly the newest row of a group with active rows stays active. */
  lemma OneActiveRowStays(rows: Rows, now: int, key: Key)
    ensures Active(Migrated(rows, now), key) == if Active(rows, key) == {} then {} else {Newest(rows, Active(rows, key))}
  {
    var group := Active(rows, key);
    if group != {} {
      var x := Newest(rows, group);
      if |group| == 1 {
        OnlyElement(group, x);
      } else {
        assert |group| > 1;
      }
    }
  }

  lemma OnlyElement(s: set<nat>, x: nat)
    requires |s| == 1 && x in s
    ensures s == {x}
  {
    assert |s - {x}| == 0;
    assert s == (s - {x}) + {x};
  }

  /** No group gains or loses counts, whatever its rows hold, NULLs included. */
  lemma CountsAreConserved(rows: Rows, now: int, key: Key)
    ensures Total(Migrated(rows, now), key) == Total(rows, key)
  {
    var group, after := Active(rows, key), Migrated(rows, now);
    OneActiveRowStays(rows, now, key);
    if group != {} {
      var x := Newest(rows, group);
      SumTakesOut(rows, group, x);
      SumTakesOut(after, {x}, x);
      assert {x} - {x} == {};
      if |group| <= 1 {
        OnlyElement(group, x);
        assert group - {x} == {};
      }
    }
  }

  /** Rows that were not active, and groups without duplicates, are untouched; no row appears,
      disappears or changes its group. */
  lemma OtherRowsAreUntouched(rows: Rows, now: int)
    ensures Migrated(rows, now).Keys == rows.Keys
    ensures forall id :: id in rows && rows[id].active != 1 ==> Migrated(rows, now)[id] == rows[id]
    ensures forall id :: id in rows && |Active(rows, KeyOf(rows[id]))| <= 1 ==> Migrated(rows, now)[id] == rows[id]
    ensures forall id :: id in rows ==> KeyOf(Migrated(rows, now)[id]) == KeyOf(rows[id])
  {
  }

  /** The condition of the partial unique index. */
  ghost predicate UniqueActive(rows: Rows) {
    forall a, b :: a in rows && b in rows && rows[a].active == 1 && rows[b].active == 1 && KeyOf(rows[a]) == KeyOf(rows[b]) ==> a == b
  }

  /** Afterwards no two active rows share a signature and source, so the unique index can be made. */
  lemma IndexCanBeCreated(rows: Rows, now: int)
    ensures UniqueActive(Migrated(rows, now))
  {
    var after := Migrated(rows, now);
    forall a, b | a in after && b in after && after[a].active == 1 && after[b].active == 1 && KeyOf(after[a]) == KeyOf(after[b])
      ensures a == b
    {
      OneActiveRowStays(rows, now, KeyOf(after[a]));
      assert a in Active(after, KeyOf(after[a])) && b in Active(after, KeyOf(after[a]));
    }
  }

  /** A table without duplicates is left as it is. */
  lemma NoDuplicatesNoChange(rows: Rows, now: int)
    requires UniqueActive(rows)
    ensures Migrated(rows, now) == rows
  {
    forall id | id in rows ensures MigratedRow(rows, now, id) == rows[id] {
      var group := Active(rows, KeyOf(rows[id]));
      if rows[id].active == 1 {
        assert group == {id};
      }
    }
  }

  /** Running it again changes nothing. */
  lemma SecondRunIsANoOp(rows: Rows, now: int, later: int)
    ensures Migrated(Migrated(rows, now), later) == Migrated(rows, now)
  {
    IndexCanBeCreated(rows, now);
    NoDuplicatesNoChange(Migrated(rows, now), later);
  }
}
