// db_migrate.py: run_migrations, get_effective_version and set_db_version.

/** One migration after the other, any of which may fail at any of its three steps. */
module MigrationRunner {

  const CURRENT_VERSION := 12

  /** Where the step to a version fails: in the migration, in the stamp, or in the audit log. */
  datatype Trouble = Fine | InMigration | InStamp | InLog

  /** get_effective_version: a database without a stamp is recognised by its tables. */
  function Effective(stored: int, detected: nat): int {
    if stored == 0 && detected > 0 then detected else stored
  }

  predicate HasMigration(version: int) {
    1 <= version <= CURRENT_VERSION
  }

  /** a, a + 1, ..., b */
  function Range(a: int, b: int): seq<int>
    decreases b - a
  {
    if a > b then [] else Range(a, b - 1) + [b]
  }

  /** Every migration follows the one before it; one may be repeated, none is left out. */
  ghost predicate InOrder(ran: seq<int>) {
    |ran| <= 1
    || (InOrder(ran[..|ran| - 1]) && (ran[|ran| - 1] == ran[|ran| - 2] || ran[|ran| - 1] == ran[|ran| - 2] + 1))
  }

  /** A run from this version goes on where the migrations ended, repeating the last at most. */
  ghost predicate Resumes(ran: seq<int>, from: int) {
    ran == [] || from == ran[|ran| - 1] || from == ran[|ran| - 1] - 1
  }

  /** One row of schema_migrations. */
  datatype LogRow = LogRow(fromVersion: int, toVersion: int)

  /** The audit log of the steps from a to b. */
  function Steps(a: int, b: int): seq<LogRow>
    decreases b - a
  {
    if a >= b then [] else Steps(a, b - 1) + [LogRow(b - 1, b)]
  }

  /** Each is the one before it, or the next. */
  lemma {:induction false} InOrderIff(ran: seq<int>)
    ensures InOrder(ran) <==> forall i :: 0 <= i < |ran| - 1 ==> ran[i + 1] == ran[i] || ran[i + 1] == ran[i] + 1
    decreases |ran|
  {
    if |ran| > 1 {
      InOrderIff(ran[..|ran| - 1]);
    }
  }

  lemma RangeGrows(ran: seq<int>, a: int, b: int)
    requires a <= b
    ensures ran + Range(a, b) == ran + Range(a, b - 1) + [b]
  {
  }

  lemma {:induction false} RangeKeepsOrder(ran: seq<int>, from: int, last: int)
    requires InOrder(ran) && Resumes(ran, from) && from < last
    ensures var after := ran + Range(from + 1, last); InOrder(after) && after[|after| - 1] == last
    decreases last - from
  {
    RangeGrows(ran, from + 1, last);
    if last == from + 1 {
      assert ran + Range(from + 1, last - 1) == ran;
    } else {
      RangeKeepsOrder(ran, from, last - 1);
    }
  }

  lemma OutcomeKeepsOrder(ran: seq<int>, from: int, last: int, after: seq<int>)
    requires InOrder(ran) && Resumes(ran, from) && from <= last && after == ran + Range(from + 1, last)
    ensures InOrder(after) && ran <= after
    ensures if last == from then after == ran else after != [] && after[|after| - 1] == last
  {
    if last == from {
      assert Range(from + 1, last) == [] && ran + [] == ran;
    } else {
      RangeKeepsOrder(ran, from, last);
    }
  }

  class Database {
    /** PRAGMA user_version */
    var stored: int
    /** schema_migrations */
    var log: seq<LogRow>
    /** The migrations whose function finished. */
    ghost var ran: seq<int>

    constructor (stored: int)
      ensures this.stored == stored && log == [] && ran == []
    {
      this.stored, log, ran := stored, [], [];
    }

    /** run_migrations; consent is false if the backup failed and nobody agreed to go on without one. */
    method Run(detected: nat, consent: bool, world: int -> Trouble) returns (success: bool, from: int, to: int)
      modifies this
      ensures from == Effective(old(stored), detected) <= to && log == old(log) + Steps(from, to)
      ensures (success <==> to >= CURRENT_VERSION) && (from < CURRENT_VERSION ==> to <= CURRENT_VERSION)
      ensures success ==> ran == old(ran) + Range(from + 1, to)
      ensures !success && (!consent || !HasMigration(to + 1)) ==> ran == old(ran) + Range(from + 1, to)
      ensures !success && consent && HasMigration(to + 1) ==>
                ran == old(ran) + Range(from + 1, if world(to + 1).InMigration? then to else to + 1)
      ensures stored == if !success && consent && HasMigration(to + 1) && world(to + 1).InLog? then to + 1
                        else if to > from then to else old(stored)
      ensures !success && consent && HasMigration(to + 1) ==> !world(to + 1).Fine?
      ensures from == if old(stored) != 0 then old(stored) else detected
      ensures from >= CURRENT_VERSION || (consent && from >= 0 && forall v :: from < v <= CURRENT_VERSION ==> world(v).Fine?) ==> success
    {
      from := Effective(stored, detected);
      to := from;
      ghost var log0, ran0 := log, ran;
      assert log0 + [] == log0 && ran0 + [] == ran0;
      if from >= CURRENT_VERSION {
        return true, from, from;
      }
      if !consent {
        return false, from, from;
      }
      while to < CURRENT_VERSION
        invariant from <= to <= CURRENT_VERSION
        invariant ran == old(ran) + Range(from + 1, to) && log == old(log) + Steps(from, to)
        invariant stored == if to > from then to else old(stored)
      {
        var target := to + 1;
        if !HasMigration(target) {
          return false, from, to;
        }
        if world(target).InMigration? {
          return false, from, to;
        }
        assert ran0 + Range(from + 1, to) + [target] == ran0 + Range(from + 1, target);
        ran := ran + [target];
        if world(target).InStamp? {
          return false, from, to;
        }
        stored := target;
        if world(target).InLog? {
          return false, from, to;
        }
        assert log0 + Steps(from, to) + [LogRow(to, target)] == log0 + Steps(from, target);
        log := log + [LogRow(to, target)];
        to := target;
      }
      return true, from, to;
    }

    /** Whatever failed in earlier runs, a database with a stamp sees its migrations in
        order, none left out, and a run that succeeds ends at the current version. */
    method RunAgain(detected: nat, consent: bool, world: int -> Trouble) returns (success: bool, from: int, to: int)
      requires InOrder(ran) && Resumes(ran, Effective(stored, detected))
      modifies this
      ensures InOrder(ran) && old(ran) <= ran
      ensures stored != 0 ==> Resumes(ran, stored)
      ensures success && from < CURRENT_VERSION ==> stored == CURRENT_VERSION && ran != [] && ran[|ran| - 1] == CURRENT_VERSION
    {
      success, from, to := Run(detected, consent, world);
      if ran == old(ran) + Range(from + 1, to) {
        OutcomeKeepsOrder(old(ran), from, to, ran);
      } else {
        OutcomeKeepsOrder(old(ran), from, to + 1, ran);
      }
    }
  }
}
