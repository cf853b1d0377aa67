// equipa/cli_isolation.py: _newest_mtime, by which a stale per-run directory is told
// from one in use.

/** A bounded walk with an explicit stack. */
module StaleScan {

  const MAX_ENTRIES := 10000
  const MAX_DEPTH := 16

  /** A directory entry. One that cannot be examined is Unknown; a directory that cannot
      be listed has no entries. */
  datatype Node = Unknown | File(mtime: real) | Directory(mtime: real, entries: Entries)

  datatype Entries = Nil | Cons(head: Node, tail: Entries)

  datatype Newest = Infinite | At(time: real)

  /** A directory on the stack. */
  datatype Pending = Pending(entries: Entries, depth: nat)

  function Max(a: real, b: real): real { if a < b then b else a }

  /** How many entries there are below. */
  function Count(e: Entries): nat {
    if e.Nil? then 0
    else 1 + (if e.head.Directory? then Count(e.head.entries) else 0) + Count(e.tail)
  }

  /** The newest of time and every entry below. */
  function NewestOf(e: Entries, time: real): real {
    if e.Nil? then time
    else
      var here := if e.head.Unknown? then time else Max(time, e.head.mtime);
      NewestOf(e.tail, if e.head.Directory? then NewestOf(e.head.entries, here) else here)
  }

  /** Some directory lies at the depth limit or below it. */
  predicate TooDeep(e: Entries, depth: nat) {
    e.Cons? && (TooDeep(e.tail, depth) || (e.head.Directory? && (depth + 1 >= MAX_DEPTH || TooDeep(e.head.entries, depth + 1))))
  }

  ghost predicate IsBelow(n: Node, e: Entries) {
    e.Cons? && (n == e.head || (e.head.Directory? && IsBelow(n, e.head.entries)) || IsBelow(n, e.tail))
  }

  /** Neither the top nor any file or directory below is newer than the result. */
  lemma {:induction false} NewestIsNewest(e: Entries, time: real, n: Node)
    ensures NewestOf(e, time) >= time
    ensures IsBelow(n, e) && !n.Unknown? ==> NewestOf(e, time) >= n.mtime
    decreases e
  {
    if e.Cons? {
      var here := if e.head.Unknown? then time else Max(time, e.head.mtime);
      if e.head.Directory? {
        NewestIsNewest(e.head.entries, here, n);
      }
      NewestIsNewest(e.tail, if e.head.Directory? then NewestOf(e.head.entries, here) else here, n);
    }
  }

  /** ... and it is the top's time or that of something below. */
  lemma {:induction false} NewestIsSomeones(e: Entries, time: real)
    ensures NewestOf(e, time) == time || exists n :: IsBelow(n, e) && !n.Unknown? && NewestOf(e, time) == n.mtime
    decreases e, 1
  {
    if e.Cons? {
      var here := if e.head.Unknown? then time else Max(time, e.head.mtime);
      var next := if e.head.Directory? then NewestOf(e.head.entries, here) else here;
      NewestIsSomeones(e.tail, next);
      if NewestOf(e, time) != next {
        var n :| IsBelow(n, e.tail) && !n.Unknown? && NewestOf(e, time) == n.mtime;
        assert IsBelow(n, e);
      } else {
        HeadIsSomeones(e, time, here, next);
      }
    }
  }

  lemma {:induction false} HeadIsSomeones(e: Entries, time: real, here: real, next: real)
    requires e.Cons? && here == if e.head.Unknown? then time else Max(time, e.head.mtime)
    requires next == if e.head.Directory? then NewestOf(e.head.entries, here) else here
    ensures next == time || exists n :: IsBelow(n, e) && !n.Unknown? && next == n.mtime
    decreases e, 0
  {
    assert IsBelow(e.head, e);
    if e.head.Directory? {
      NewestIsSomeones(e.head.entries, here);
      if next != here {
        var n :| IsBelow(n, e.head.entries) && !n.Unknown? && next == n.mtime;
        assert IsBelow(n, e);
      }
    }
  }

  // -------------------------------------------------------------------------
  // What is left on the stack
  // -------------------------------------------------------------------------

  function CountAll(p: seq<Pending>): nat {
    if p == [] then 0 else CountAll(p[..|p| - 1]) + Count(p[|p| - 1].entries)
  }

  function NewestAll(p: seq<Pending>, time: real): real {
    if p == [] then time else NewestAll(p[..|p| - 1], NewestOf(p[|p| - 1].entries, time))
  }

  predicate AnyTooDeep(p: seq<Pending>) {
    p != [] && (AnyTooDeep(p[..|p| - 1]) || TooDeep(p[|p| - 1].entries, p[|p| - 1].depth))
  }

  /** Taking the maximum with a time commutes with the walk. */
  lemma {:induction false} NewestOfMax(e: Entries, a: real, b: real)
    ensures NewestOf(e, Max(a, b)) == Max(a, NewestOf(e, b))
    decreases e
  {
    if e.Cons? {
      var t := if e.head.Unknown? then b else Max(b, e.head.mtime);
      if e.head.Directory? {
        NewestOfMax(e.head.entries, a, t);
      }
      NewestOfMax(e.tail, a, if e.head.Directory? then NewestOf(e.head.entries, t) else t);
    }
  }

  lemma {:induction false} NewestOfSwaps(a: Entries, b: Entries, time: real)
    ensures NewestOf(a, NewestOf(b, time)) == NewestOf(b, NewestOf(a, time))
    decreases a
  {
    var x, y := NewestOf(a, time), NewestOf(b, time);
    NewestIsNewest(a, time, Unknown);
    NewestIsNewest(b, time, Unknown);
    NewestFrom(a, time, y);
    NewestFrom(b, time, x);
  }

  /** The walk from a later time is the walk from an earlier one, or that time. */
  lemma NewestFrom(e: Entries, time: real, later: real)
    requires later >= time
    ensures NewestOf(e, later) == Max(later, NewestOf(e, time))
  {
    assert Max(later, time) == later;
    NewestOfMax(e, later, time);
  }

  lemma Pushed(p: seq<Pending>, d: Pending, time: real)
    ensures CountAll(p + [d]) == CountAll(p) + Count(d.entries)
    ensures NewestAll(p + [d], time) == NewestAll(p, NewestOf(d.entries, time))
    ensures AnyTooDeep(p + [d]) <==> AnyTooDeep(p) || TooDeep(d.entries, d.depth)
  {
    assert (p + [d])[..|p|] == p;
  }

  /** Listing one directory: its entries are counted, and its subdirectories go on the stack. */
  method List(e: Entries, depth: nat, pending: seq<Pending>, seen: nat, newest: real)
    returns (p: seq<Pending>, total: nat, time: real, stop: bool)
    requires seen <= MAX_ENTRIES
    ensures stop ==> TooDeep(e, depth) || seen + Count(e) > MAX_ENTRIES
    ensures !stop ==>
              && total <= MAX_ENTRIES && seen <= total
              && total + CountAll(p) == seen + CountAll(pending) + Count(e)
              && NewestAll(p, time) == NewestAll(pending, NewestOf(e, newest))
              && (AnyTooDeep(p) <==> AnyTooDeep(pending) || TooDeep(e, depth))
              && (total == seen ==> p == pending)
  {
    p, total, time, stop := pending, seen, newest, false;
    var rest := e;
    while rest.Cons?
      invariant seen <= total <= MAX_ENTRIES
      invariant total + Count(rest) + CountAll(p) == seen + CountAll(pending) + Count(e)
      invariant NewestAll(p, NewestOf(rest, time)) == NewestAll(pending, NewestOf(e, newest))
      invariant AnyTooDeep(p) || TooDeep(rest, depth) <==> AnyTooDeep(pending) || TooDeep(e, depth)
      invariant TooDeep(rest, depth) ==> TooDeep(e, depth)
      invariant total + Count(rest) <= seen + Count(e)
      invariant total == seen ==> p == pending
      decreases rest
    {
      total := total + 1;
      if total > MAX_ENTRIES {
        stop := true;
        return;
      }
      var entry := rest.head;
      if !entry.Unknown? {
        time := Max(time, entry.mtime);
        if entry.Directory? {
          if depth + 1 >= MAX_DEPTH {
            stop := true;
            return;
          }
          NewestOfSwaps(entry.entries, rest.tail, time);
          Pushed(p, Pending(entry.entries, depth + 1), NewestOf(rest.tail, time));
          p := p + [Pending(entry.entries, depth + 1)];
        }
      }
      rest := rest.tail;
    }
  }

  /** _newest_mtime: never older than anything below the directory, and infinite exactly when
      the walk meets one of its bounds. */
  method NewestMtime(top: real, entries: Entries) returns (r: Newest)
    ensures r == if TooDeep(entries, 0) || Count(entries) > MAX_ENTRIES then Infinite else At(NewestOf(entries, top))
  {
    var newest, seen := top, 0;
    var pending := [Pending(entries, 0)];
    assert pending[..0] == [];
    while pending != []
      invariant seen <= MAX_ENTRIES && seen + CountAll(pending) == Count(entries)
      invariant NewestAll(pending, newest) == NewestOf(entries, top)
      invariant AnyTooDeep(pending) <==> TooDeep(entries, 0)
      decreases CountAll(pending), |pending|
    {
      var last := pending[|pending| - 1];
      var stop;
      pending, seen, newest, stop := List(last.entries, last.depth, pending[..|pending| - 1], seen, newest);
      if stop {
        return Infinite;
      }
    }
    return At(newest);
  }
}
