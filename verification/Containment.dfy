// What the child subreaper buys: everything the CLI starts stays a descendant of
// the launcher, so an empty walk is final.

/** Containment over whole runs of the process table. */
module Containment {
  import opened ProcessKernel
  import opened TreeWalk

  // -------------------------------------------------------------------------
  // Runs
  // -------------------------------------------------------------------------

  /** Any interleaving of what the rest of the system does; an event that is not
      enabled in its turn has no effect. */
  function Run(k: Kernel, launcher: nat, events: seq<Event>): (k': Kernel)
    requires Wf(k)
    ensures Wf(k')
    decreases |events|
  {
    if events == [] then k
    else if Enabled(k, launcher, events[0]) then
      ApplyKeepsWf(k, launcher, events[0]);
      Run(Apply(k, launcher, events[0]), launcher, events[1..])
    else Run(k, launcher, events[1..])
  }

  lemma RunCons(k: Kernel, launcher: nat, e: Event, rest: seq<Event>)
    requires Wf(k) && Enabled(k, launcher, e) && Wf(Apply(k, launcher, e))
    ensures Run(k, launcher, [e] + rest) == Run(Apply(k, launcher, e), launcher, rest)
  {
    assert ([e] + rest)[1..] == rest;
  }

  /** The run of two events, given the tables it passes through. */
  lemma RunTwo(k: Kernel, launcher: nat, a: Event, b: Event, k1: Kernel, k2: Kernel)
    requires Wf(k) && Enabled(k, launcher, a) && Apply(k, launcher, a) == k1
    requires Wf(k1) && Enabled(k1, launcher, b) && Apply(k1, launcher, b) == k2
    ensures Run(k, launcher, [a, b]) == k2
  {
    ApplyKeepsWf(k1, launcher, b);
    RunCons(k, launcher, a, [b]);
    RunCons(k1, launcher, b, []);
    assert [a] + [b] == [a, b] && [b] + [] == [b];
  }

  /** The state main() hands over: the launcher is a subreaper without children
      and starts the CLI. */
  ghost predicate ReadyToSpawn(k: Kernel, launcher: nat) {
    && Wf(k) && launcher in k.table && k.table[launcher].run.Live? && k.table[launcher].subreaper
    && (forall p :: p in k.table ==> !k.table[p].fromCli && k.table[p].ppid != launcher)
  }

  ghost function SpawnCli(k: Kernel, launcher: nat, cli: nat, start: nat): (k': Kernel)
    requires ReadyToSpawn(k, launcher) && CanName(k, cli, start)
    ensures Wf(k')
  {
    BornKeepsWf(k, cli, start, launcher, k.table[launcher].sid, false, true);
    Born(k, cli, start, launcher, k.table[launcher].sid, false, true)
  }

  lemma SpawnIsContained(k: Kernel, launcher: nat, cli: nat, start: nat)
    requires ReadyToSpawn(k, launcher) && CanName(k, cli, start)
    ensures Contained(SpawnCli(k, launcher, cli, start), launcher)
  {
    forall p | p in k.table ensures SideOk(k, launcher, p) {
    }
    BornKeepsContained(k, launcher, cli, start, launcher, k.table[launcher].sid, false, true);
  }

  lemma {:induction false} RunKeepsContained(k: Kernel, launcher: nat, events: seq<Event>)
    requires Contained(k, launcher)
    ensures Contained(Run(k, launcher, events), launcher)
    decreases |events|
  {
    if events != [] {
      if Enabled(k, launcher, events[0]) {
        ApplyKeepsWf(k, launcher, events[0]);
        StepKeepsContained(k, launcher, events[0]);
        RunKeepsContained(Apply(k, launcher, events[0]), launcher, events[1..]);
      } else {
        RunKeepsContained(k, launcher, events[1..]);
      }
    }
  }

  // -------------------------------------------------------------------------
  // The walk sees exactly what the CLI started
  // -------------------------------------------------------------------------

  function Proc2Stat(p: Proc): Stat {
    Stat(p.run.Zombie?, p.ppid, p.start)
  }

  /** /proc at one instant. */
  function ProcFs(k: Kernel): Snapshot {
    map p | p in k.table :: Proc2Stat(k.table[p])
  }

  function Ages(k: Kernel): map<nat, nat> {
    map p | p in k.table :: k.table[p].uid
  }

  lemma ProcFsIsForest(k: Kernel)
    requires Wf(k)
    ensures Forest(ProcFs(k), Ages(k))
  {
    forall p | p in k.table ensures ParentOk(k, p) {
    }
  }

  ghost function Walk(k: Kernel, launcher: nat): map<nat, nat>
    requires Wf(k)
  {
    ProcFsIsForest(k);
    LiveDescendants(ProcFs(k), Ages(k), launcher)
  }

  lemma {:induction false} DescendantIffCliStarted(k: Kernel, launcher: nat, p: nat)
    requires Contained(k, launcher) && Forest(ProcFs(k), Ages(k))
    ensures Descends(ProcFs(k), Ages(k), p, launcher) <==> p in k.table && k.table[p].fromCli
    decreases if p in k.table then k.table[p].uid + 1 else 0
  {
    if p in k.table {
      assert ParentOk(k, p) && SideOk(k, launcher, p);
      if k.table[p].ppid != launcher {
        DescendantIffCliStarted(k, launcher, k.table[p].ppid);
      }
    }
  }

  /** From the moment the CLI is spawned, after any run, one walk lists the live
      processes the CLI started, all of them and nothing else. */
  lemma WalkListsWhatTheCliStarted(k0: Kernel, launcher: nat, cli: nat, start: nat, events: seq<Event>, p: nat)
    requires ReadyToSpawn(k0, launcher) && CanName(k0, cli, start)
    ensures var k := Run(SpawnCli(k0, launcher, cli, start), launcher, events);
      p in Walk(k, launcher) <==> p in k.table && k.table[p].run.Live? && k.table[p].fromCli
  {
    SpawnIsContained(k0, launcher, cli, start);
    RunKeepsContained(SpawnCli(k0, launcher, cli, start), launcher, events);
    var k := Run(SpawnCli(k0, launcher, cli, start), launcher, events);
    ProcFsIsForest(k);
    DescendantIffCliStarted(k, launcher, p);
  }

  // -------------------------------------------------------------------------
  // An empty walk is final
  // -------------------------------------------------------------------------

  /** Nothing the CLI started is alive. */
  ghost predicate Quiet(k: Kernel) {
    forall p :: p in k.table && k.table[p].fromCli ==> k.table[p].run.Zombie?
  }

  lemma EmptyWalkIffQuiet(k: Kernel, launcher: nat)
    requires Contained(k, launcher)
    ensures Walk(k, launcher) == map[] <==> Quiet(k)
  {
    ProcFsIsForest(k);
    forall p ensures p in Walk(k, launcher) <==> p in k.table && k.table[p].run.Live? && k.table[p].fromCli {
      DescendantIffCliStarted(k, launcher, p);
    }
    if Walk(k, launcher) != map[] {
      var p :| p in Walk(k, launcher);
    }
  }

  lemma StepKeepsQuiet(k: Kernel, launcher: nat, e: Event)
    requires Contained(k, launcher) && Quiet(k) && Enabled(k, launcher, e)
    ensures Quiet(Apply(k, launcher, e))
  {
  }

  /** Once a walk is empty, no later step of anything creates a live descendant. */
  lemma {:induction false} EmptyWalkIsFinal(k: Kernel, launcher: nat, events: seq<Event>)
    requires Contained(k, launcher) && Walk(k, launcher) == map[]
    ensures Quiet(Run(k, launcher, events)) && Walk(Run(k, launcher, events), launcher) == map[]
    decreases |events|
  {
    EmptyWalkIffQuiet(k, launcher);
    RunKeepsContained(k, launcher, events);
    if events != [] {
      if Enabled(k, launcher, events[0]) {
        ApplyKeepsWf(k, launcher, events[0]);
        StepKeepsContained(k, launcher, events[0]);
        StepKeepsQuiet(k, launcher, events[0]);
        EmptyWalkIffQuiet(Apply(k, launcher, events[0]), launcher);
        EmptyWalkIsFinal(Apply(k, launcher, events[0]), launcher, events[1..]);
      } else {
        EmptyWalkIsFinal(k, launcher, events[1..]);
      }
    }
    EmptyWalkIffQuiet(Run(k, launcher, events), launcher);
  }

  // -------------------------------------------------------------------------
  // What one process keeps
  // -------------------------------------------------------------------------

  /** k' is a later table: birth records stay, and a process of k that is still
      there kept its identity, stays doomed and never comes back from the dead. */
  ghost predicate Later(k: Kernel, k': Kernel) {
    && |k.born| <= |k'.born| && k'.born[..|k.born|] == k.born
    && (forall p :: p in k'.table && k'.table[p].uid < |k.born| ==> SameProcess(k, k', p))
  }

  ghost predicate SameProcess(k: Kernel, k': Kernel, p: nat)
    requires p in k'.table
  {
    && p in k.table && k.table[p].uid == k'.table[p].uid
    && (k.table[p].doomed ==> k'.table[p].doomed)
    && (k.table[p].run.Zombie? ==> k'.table[p].run == k.table[p].run)
    && (k.table[p].fromCli == k'.table[p].fromCli)
  }

  lemma LaterIsTransitive(a: Kernel, b: Kernel, c: Kernel)
    requires Later(a, b) && Later(b, c)
    ensures Later(a, c)
  {
    forall p | p in c.table && c.table[p].uid < |a.born| ensures SameProcess(a, c, p) {
      assert SameProcess(b, c, p);
      assert SameProcess(a, b, p);
    }
    assert c.born[..|a.born|] == c.born[..|b.born|][..|a.born|];
  }

  lemma StepIsLater(k: Kernel, launcher: nat, e: Event)
    requires Wf(k) && Enabled(k, launcher, e)
    ensures Later(k, Apply(k, launcher, e))
  {
    var k' := Apply(k, launcher, e);
    forall p | p in k'.table && k'.table[p].uid < |k.born| ensures SameProcess(k, k', p) {
    }
  }

  lemma {:induction false} RunIsLater(k: Kernel, launcher: nat, events: seq<Event>)
    requires Wf(k)
    ensures Later(k, Run(k, launcher, events))
    decreases |events|
  {
    if events != [] {
      if Enabled(k, launcher, events[0]) {
        ApplyKeepsWf(k, launcher, events[0]);
        StepIsLater(k, launcher, events[0]);
        RunIsLater(Apply(k, launcher, events[0]), launcher, events[1..]);
        LaterIsTransitive(k, Apply(k, launcher, events[0]), Run(k, launcher, events));
      } else {
        RunIsLater(k, launcher, events[1..]);
      }
    }
  }

  // -------------------------------------------------------------------------
  // The subreaper is necessary
  // -------------------------------------------------------------------------

  /** The launcher (10) without PR_SET_CHILD_SUBREAPER, and the CLI (11). */
  function Unprotected(): Kernel {
    Kernel(map[10 := Proc(0, 1, INIT, Live, false, 10, false, false, false),
               11 := Proc(1, 2, 10, Live, false, 10, false, false, true)],
           [(10, 1), (11, 2)])
  }

  /** The same after the CLI forked 12 and exited. */
  function Escaped(): Kernel {
    Kernel(map[10 := Proc(0, 1, INIT, Live, false, 10, false, false, false),
               11 := Proc(1, 2, 10, Zombie(0), false, 10, false, false, true),
               12 := Proc(2, 3, INIT, Live, false, 10, false, false, true)],
           [(10, 1), (11, 2), (12, 3)])
  }

  lemma UnprotectedIsWf()
    ensures Wf(Unprotected())
  {
    var k := Unprotected();
    assert k.table.Keys == {10, 11};
    forall p | p in k.table ensures ParentOk(k, p) {
    }
  }

  lemma TheForkAndTheExit()
    ensures Wf(Unprotected())
    ensures Run(Unprotected(), 10, [Fork(11, 12, 3), Exit(11, 0)]) == Escaped()
  {
    UnprotectedIsWf();
    var k := Unprotected();
    var k1 := Apply(k, 10, Fork(11, 12, 3));
    ApplyKeepsWf(k, 10, Fork(11, 12, 3));
    TheCliExits(k1);
    RunTwo(k, 10, Fork(11, 12, 3), Exit(11, 0), k1, Escaped());
  }

  lemma TheCliExits(k: Kernel)
    requires Wf(k) && k.born == Escaped().born
    requires k.table == Unprotected().table[12 := Proc(2, 3, 11, Live, false, 10, false, false, true)]
    ensures Apply(k, 10, Exit(11, 0)) == Escaped()
  {
    assert Reaper(k, 10) == INIT by { assert Reaper(k, INIT) == INIT; }
    var after := Apply(k, 10, Exit(11, 0));
    assert after.born == k.born && after.table.Keys == {10, 11, 12};
    forall p | p in after.table ensures after.table[p] == Escaped().table[p] {
      assert p == 10 || p == 11 || p == 12;
    }
    assert after.table == Escaped().table;
  }

  lemma NoParentNoDescent(s: Snapshot, age: map<nat, nat>, p: nat, root: nat)
    requires Forest(s, age) && (p in s ==> s[p].ppid != root && s[p].ppid !in s)
    ensures !Descends(s, age, p, root)
  {
  }

  /** main() goes on when PR_SET_CHILD_SUBREAPER fails. Then an empty walk proves
      nothing: 12, started by the CLI, runs on outside it. */
  lemma WithoutSubreaperAProcessEscapes()
    ensures Wf(Unprotected())
    ensures var k := Run(Unprotected(), 10, [Fork(11, 12, 3), Exit(11, 0)]);
      Walk(k, 10) == map[] && !Quiet(k)
  {
    TheForkAndTheExit();
    TheWalkMisses12();
  }

  lemma TheWalkMisses12()
    requires Wf(Escaped())
    ensures Walk(Escaped(), 10) == map[] && !Quiet(Escaped())
  {
    var k := Escaped();
    ProcFsIsForest(k);
    assert k.table[12].fromCli && k.table[12].run.Live?;
    forall p ensures p !in Walk(k, 10) {
      if p != 11 {
        NoParentNoDescent(ProcFs(k), Ages(k), p, 10);
      }
    }
  }
}
