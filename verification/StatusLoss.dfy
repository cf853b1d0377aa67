// How _reap_children of equipa/agent_launcher.py can return another process's status.

/** Sweeps in which the CLI's pid is used again before the last waitpid. */
module StatusLoss {
  import opened CliStatus
  import opened Containment
  import opened Launcher
  import opened ProcessKernel
  import opened Reaping
  import opened Wrappers

  // -------------------------------------------------------------------------
  // Any live process of the CLI can do it
  // -------------------------------------------------------------------------

  /** A child of the launcher that can still fork. */
  ghost predicate Actor(k: Kernel, launcher: nat, a: nat) {
    a in k.table && a != launcher && k.table[a].ppid == launcher && k.table[a].run.Live? && !k.table[a].doomed
  }

  /** A sweep with empty bursts from here on takes what is left. */
  lemma Completes(k: Kernel, launcher: nat, script: seq<Burst>, taken: seq<Harvest>, cli: nat) returns (all: seq<Harvest>)
    requires Wf(k) && Taking(k, launcher, script, taken) && |script| <= |taken|
    requires cli !in Seen(k, launcher, script, taken).table
    ensures IsSweep(k, launcher, script, all) && LastStatus(all, cli) == LastStatus(taken, cli) && taken <= all
    decreases |Seen(k, launcher, script, taken).table|
  {
    var s := Seen(k, launcher, script, taken);
    if NoneExited(s, launcher) { return taken; }
    var p :| p in s.table && p != launcher && s.table[p].ppid == launcher && !s.table[p].run.Live?;
    var h := Harvest(p, s.table[p].uid, s.table[p].run.status);
    TakeOne(k, launcher, script, taken, h);
    LastStatusOneMore(taken, h, cli);
    OneLess(s, p);
    SeenQuietly(k, launcher, script, taken + [h]);
    all := Completes(k, launcher, script, taken + [h], cli);
  }

  lemma SeenQuietly(k: Kernel, launcher: nat, script: seq<Burst>, taken: seq<Harvest>)
    requires Wf(k) && |script| <= |taken|
    ensures Seen(k, launcher, script, taken) == After(k, launcher, script, taken)
  {
  }

  lemma OneLess(k: Kernel, p: nat)
    requires p in k.table
    ensures |Without(k, p).table| < |k.table|
  {
    assert Without(k, p).table.Keys == k.table.Keys - {p};
    assert |Without(k, p).table.Keys| < |k.table.Keys|;
  }

  lemma {:induction false} RunSplit(k: Kernel, launcher: nat, a: seq<Event>, b: seq<Event>)
    requires Wf(k)
    ensures Run(k, launcher, a + b) == Run(Run(k, launcher, a), launcher, b)
    decreases |a|
  {
    if a == [] {
      assert a + b == b;
    } else {
      assert (a + b)[1..] == a[1..] + b;
      if Enabled(k, launcher, a[0]) {
        ApplyKeepsWf(k, launcher, a[0]);
        RunSplit(Apply(k, launcher, a[0]), launcher, a[1..], b);
      } else {
        RunSplit(k, launcher, a[1..], b);
      }
    }
  }

  // -------------------------------------------------------------------------
  // Unused names
  // -------------------------------------------------------------------------

  lemma AboveAll(s: set<nat>) returns (n: nat)
    ensures n > 0 && forall x :: x in s ==> x < n
    decreases |s|
  {
    if s == {} { return 1; }
    var x :| x in s;
    var m := AboveAll(s - {x});
    forall y | y in s ensures y < m + x + 1 {
      assert y == x || y in s - {x};
    }
    return m + x + 1;
  }

  lemma UnusedStart(born: seq<(nat, nat)>, pid: nat) returns (start: nat)
    ensures forall s :: (pid, s) in born ==> s < start
    decreases |born|
  {
    if born == [] { return 0; }
    start := UnusedStart(born[1..], pid);
    if born[0].1 >= start {
      start := born[0].1 + 1;
    }
  }

  lemma UnusedName(k: Kernel) returns (pid: nat, start: nat)
    ensures CanName(k, pid, start)
  {
    pid := AboveAll(k.table.Keys);
    start := UnusedStart(k.born, pid);
  }

  // -------------------------------------------------------------------------
  // The run that loses the status
  // -------------------------------------------------------------------------

  function Quietly(events: seq<Event>): Burst {
    Burst(events, 0, None)
  }

  /** a clones itself a sibling under the CLI's pid, which exits. */
  lemma SiblingUnderThePid(k: Kernel, launcher: nat, a: nat, cli: nat, start: nat, status: int)
    requires Wf(k) && Actor(k, launcher, a) && CanName(k, cli, start) && cli != launcher && launcher in k.table
    ensures var k' := Run(k, launcher, [CloneParent(a, cli, start), Exit(cli, status)]);
      HasExited(k', launcher, Harvest(cli, |k.born|, status))
  {
    var e, f := CloneParent(a, cli, start), Exit(cli, status);
    var k1 := Apply(k, launcher, e);
    ApplyKeepsWf(k, launcher, e);
    assert Enabled(k1, launcher, f);
    ApplyKeepsWf(k1, launcher, f);
    RunTwo(k, launcher, e, f, k1, Apply(k1, launcher, f));
  }

  /** The CLI has exited, a lives on: the next burst can lose the status. */
  lemma CanBeLostNow(k: Kernel, launcher: nat, events: seq<Event>, cli: nat, uid: nat, status: int, a: nat)
    requires Wf(k) && a != cli && Actor(Run(k, launcher, events), launcher, a) && launcher in Run(k, launcher, events).table
    requires HasExited(Run(k, launcher, events), launcher, Harvest(cli, uid, status))
    ensures !AlwaysOwn(k, launcher, cli, uid)
  {
    var k2 := Reaped(Run(k, launcher, events), cli);
    var start := UnusedStart(k2.born, cli);
    SiblingUnderThePid(k2, launcher, a, cli, start, status + 1);
    TwoTaken(k, launcher, events, [CloneParent(a, cli, start), Exit(cli, status + 1)],
             Harvest(cli, uid, status), Harvest(cli, |k2.born|, status + 1));
  }

  lemma SecondStatusWins(k: Kernel, launcher: nat, script: seq<Burst>, h0: Harvest, h1: Harvest)
    requires Wf(k) && Taking(k, launcher, script, [h0, h1]) && |script| <= 2
    requires h0.pid == h1.pid && h0.status != h1.status && h0.pid !in Seen(k, launcher, script, [h0, h1]).table
    ensures !AlwaysOwn(k, launcher, h0.pid, h0.uid)
  {
    LastStatusOneMore([h0], h1, h0.pid);
    assert [h0] + [h1] == [h0, h1];
    var all := Completes(k, launcher, script, [h0, h1], h0.pid);
    assert all[0] == [h0, h1][0];
    assert IsSweep(k, launcher, script, all) && TakenAt(all, 0, h0.pid, h0.uid);
  }

  lemma TwoTaken(k: Kernel, launcher: nat, events: seq<Event>, later: seq<Event>, h0: Harvest, h1: Harvest)
    requires Wf(k) && HasExited(Run(k, launcher, events), launcher, h0)
    requires HasExited(Run(Reaped(Run(k, launcher, events), h0.pid), launcher, later), launcher, h1)
    requires h0.pid == h1.pid && h0.status != h1.status
    ensures !AlwaysOwn(k, launcher, h0.pid, h0.uid)
  {
    var script := [Quietly(events), Quietly(later)];
    FirstTaken(k, launcher, script, h0);
    TakeOne(k, launcher, script, [h0], h1);
    assert [h0] + [h1] == [h0, h1];
    SeenQuietly(k, launcher, script, [h0, h1]);
    SecondStatusWins(k, launcher, script, h0, h1);
  }

  lemma FirstTaken(k: Kernel, launcher: nat, script: seq<Burst>, h0: Harvest)
    requires Wf(k) && HasExited(Run(k, launcher, EventsAt(script, 0)), launcher, h0)
    ensures Taking(k, launcher, script, [h0])
    ensures Seen(k, launcher, script, [h0]) == Run(Reaped(Run(k, launcher, EventsAt(script, 0)), h0.pid), launcher, EventsAt(script, 1))
  {
    assert Seen(k, launcher, script, []) == Run(k, launcher, EventsAt(script, 0));
    TakeOne(k, launcher, script, [], h0);
    assert [] + [h0] == [h0];
  }

  function MeasureOf(k: Kernel, p: nat): nat {
    if p in k.table && k.table[p].ppid in k.table then k.table[k.table[p].ppid].uid + 1 else 0
  }

  /** If its ancestors below the launcher exit, a process becomes the launcher's child. */
  lemma Surfaces(k: Kernel, launcher: nat, p: nat) returns (events: seq<Event>)
    requires Contained(k, launcher) && p in k.table && k.table[p].fromCli && k.table[p].run.Live? && !k.table[p].doomed
    ensures Actor(Run(k, launcher, events), launcher, p)
    decreases MeasureOf(k, p)
  {
    assert SideOk(k, launcher, p) && ParentOk(k, p);
    var q := k.table[p].ppid;
    if q == launcher { return []; }
    var e := Exit(q, 0);
    assert ParentOk(k, q);
    ReaperIsOlder(k, k.table[q].ppid);
    ReaperStaysOnItsSide(k, launcher, k.table[q].ppid);
    assert SideOk(k, launcher, q);
    ApplyKeepsWf(k, launcher, e);
    StepKeepsContained(k, launcher, e);
    ParentGone(k, launcher, p, q);
    var rest := Surfaces(Apply(k, launcher, e), launcher, p);
    RunCons(k, launcher, e, rest);
    events := [e] + rest;
  }

  lemma ParentGone(k: Kernel, launcher: nat, p: nat, q: nat)
    requires Contained(k, launcher) && p in k.table && k.table[p].ppid == q && q in k.table && p != q
    requires var r := Reaper(k, k.table[q].ppid);
      r in k.table && k.table[r].uid < k.table[q].uid
    ensures var k' := Exited(k, q, 0);
      p in k'.table && k'.table[p] == k.table[p].(ppid := Reaper(k, k.table[q].ppid)) && MeasureOf(k', p) < MeasureOf(k, p)
  {
  }

  /** Some process of the CLI other than the CLI can be made an actor. */
  lemma AnActorBeside(k: Kernel, launcher: nat, cli: nat, uid: nat) returns (events: seq<Event>, a: nat)
    requires Contained(k, launcher) && ChildOf(k, launcher, cli, uid) && !Spent(k)
    ensures Actor(Run(k, launcher, events), launcher, a) && a != cli
  {
    var p :| p in k.table && k.table[p].fromCli && !k.table[p].run.Zombie? && !k.table[p].doomed;
    if p != cli {
      events := Surfaces(k, launcher, p);
      return events, p;
    }
    var c, start := UnusedName(k);
    var e := CloneParent(cli, c, start);
    ApplyKeepsWf(k, launcher, e);
    RunCons(k, launcher, e, []);
    assert [e] + [] == [e];
    return [e], c;
  }

  /** ... and then the CLI exits, if it has not yet. */
  lemma TheCliExitsToo(k: Kernel, launcher: nat, cli: nat, uid: nat, a: nat) returns (events: seq<Event>, status: int)
    requires Wf(k) && ChildOf(k, launcher, cli, uid) && Actor(k, launcher, a) && a != cli && launcher in k.table
    ensures var k' := Run(k, launcher, events);
      Actor(k', launcher, a) && HasExited(k', launcher, Harvest(cli, uid, status)) && launcher in k'.table
  {
    if k.table[cli].run.Zombie? { return [], k.table[cli].run.status; }
    var e := Exit(cli, 0);
    ApplyKeepsWf(k, launcher, e);
    RunCons(k, launcher, e, []);
    assert [e] + [] == [e];
    return [e], 0;
  }

  lemma NotSpentIsUnsafe(k: Kernel, launcher: nat, cli: nat, uid: nat)
    requires Contained(k, launcher) && ChildOf(k, launcher, cli, uid) && !Spent(k)
    ensures !AlwaysOwn(k, launcher, cli, uid)
  {
    var e1, a := AnActorBeside(k, launcher, cli, uid);
    var k1 := Run(k, launcher, e1);
    RunKeepsContained(k, launcher, e1);
    ChildStays(k, launcher, e1, cli);
    var e2, status := TheCliExitsToo(k1, launcher, cli, uid, a);
    RunSplit(k, launcher, e1, e2);
    CanBeLostNow(k, launcher, e1 + e2, cli, uid, status, a);
  }

  /** The CLI is a child of the launcher when a sweep begins. Every sweep returns the
      CLI's own status, whatever happens meanwhile, exactly if nothing the CLI
      started, itself included, can act any more when the sweep begins. */
  lemma StatusIsOwnIff(k: Kernel, launcher: nat, cli: nat, uid: nat)
    requires Contained(k, launcher) && ChildOf(k, launcher, cli, uid)
    ensures AlwaysOwn(k, launcher, cli, uid) <==> Spent(k)
  {
    if Spent(k) {
      SpentIsSafe(k, launcher, cli, uid);
    } else {
      NotSpentIsUnsafe(k, launcher, cli, uid);
    }
  }

  // -------------------------------------------------------------------------
  // One such sweep
  // -------------------------------------------------------------------------

  /** The CLI (11) has exited with 0; 12, which it started, lives on. */
  function CliDone(): Kernel {
    Kernel(map[10 := Proc(0, 1, INIT, Live, true, 10, false, false, false),
               11 := Proc(1, 2, 10, Zombie(0), false, 10, false, false, true),
               12 := Proc(2, 3, 10, Live, false, 10, false, false, true)],
           [(10, 1), (11, 2), (12, 3)])
  }

  /** The same once 11 is reaped. */
  function CliReaped(): Kernel {
    Kernel(map[10 := Proc(0, 1, INIT, Live, true, 10, false, false, false),
               12 := Proc(2, 3, 10, Live, false, 10, false, false, true)],
           [(10, 1), (11, 2), (12, 3)])
  }

  /** 12 has started an orphan under the freed pid 11, and both have exited. */
  function PidRecycled(): Kernel {
    Kernel(map[10 := Proc(0, 1, INIT, Live, true, 10, false, false, false),
               11 := Proc(3, 4, 10, Zombie(9), false, 10, false, false, true),
               12 := Proc(2, 3, 10, Zombie(0), false, 10, false, false, true)],
           [(10, 1), (11, 2), (12, 3), (11, 4)])
  }

  lemma CliReapedIsWf()
    ensures Wf(CliReaped())
  {
    var k := CliReaped();
    assert k.table.Keys == {10, 12};
    forall p | p in k.table ensures ParentOk(k, p) {
    }
  }

  /** The orphan 11 has exited with 9 and its parent 12 has not reaped it. */
  function OrphanDone(): Kernel {
    Kernel(map[10 := Proc(0, 1, INIT, Live, true, 10, false, false, false),
               11 := Proc(3, 4, 12, Zombie(9), false, 10, false, false, true),
               12 := Proc(2, 3, 10, Live, false, 10, false, false, true)],
           [(10, 1), (11, 2), (12, 3), (11, 4)])
  }

  lemma TheOrphanExits(k: Kernel)
    requires Wf(k) && k.born == OrphanDone().born
    requires k.table == OrphanDone().table[11 := Proc(3, 4, 12, Live, false, 10, false, false, true)]
    ensures Apply(k, 10, Exit(11, 9)) == OrphanDone()
  {
    assert Apply(k, 10, Exit(11, 9)).table == OrphanDone().table;
  }

  lemma ItsParentExits()
    requires Wf(OrphanDone())
    ensures Apply(OrphanDone(), 10, Exit(12, 0)) == PidRecycled()
  {
    assert Reaper(OrphanDone(), 10) == 10;
    assert Apply(OrphanDone(), 10, Exit(12, 0)).table == PidRecycled().table;
  }

  const REBIRTH := [Fork(12, 11, 4), Exit(11, 9), Exit(12, 0)]

  /** Between the first two waitpid calls an orphan gets the freed pid 11 and exits with 9. */
  function RebirthScript(): seq<Burst> {
    [Quietly([]), Quietly(REBIRTH)]
  }

  lemma ThePidIsUsedAgain()
    ensures Wf(CliReaped()) && Run(CliReaped(), 10, REBIRTH) == PidRecycled()
  {
    CliReapedIsWf();
    var k, f := CliReaped(), Fork(12, 11, 4);
    ApplyKeepsWf(k, 10, f);
    var k1 := Apply(k, 10, f);
    TheOrphanExits(k1);
    ApplyKeepsWf(k1, 10, Exit(11, 9));
    ItsParentExits();
    RunTwo(k1, 10, Exit(11, 9), Exit(12, 0), OrphanDone(), PidRecycled());
    RunCons(k, 10, f, [Exit(11, 9), Exit(12, 0)]);
    assert [f] + [Exit(11, 9), Exit(12, 0)] == REBIRTH;
  }

  lemma CliDoneIsWf()
    ensures Contained(CliDone(), 10)
  {
    var k := CliDone();
    assert k.table.Keys == {10, 11, 12};
    forall p | p in k.table ensures ParentOk(k, p) && SideOk(k, 10, p) {
    }
  }

  lemma OnlyTheCliHasExited(h: Harvest)
    requires HasExited(CliDone(), 10, h)
    ensures h == Harvest(11, 1, 0) && Without(CliDone(), 11) == CliReaped()
  {
    assert Without(CliDone(), 11).table == CliReaped().table;
  }

  lemma FirstOfTheSweep(taken: seq<Harvest>)
    requires Wf(CliDone()) && IsSweep(CliDone(), 10, RebirthScript(), taken)
    ensures taken != [] && taken[0] == Harvest(11, 1, 0)
    ensures Seen(CliDone(), 10, RebirthScript(), taken[..1]) == PidRecycled()
  {
    var k, script := CliDone(), RebirthScript();
    assert Seen(k, 10, script, taken[..0]) == k;
    MoreToTake(k, script, taken, 0, k, 11);
    OnlyTheCliHasExited(taken[0]);
    FirstTaken(k, 10, script, taken[0]);
    assert taken[..1] == [taken[0]];
    ThePidIsUsedAgain();
  }

  /** Once one of them is taken the other is left. */
  lemma OneIsLeft(first: Harvest, second: Harvest, k: Kernel)
    requires first == Harvest(11, 3, 9) || first == Harvest(12, 2, 0)
    requires k == Without(PidRecycled(), first.pid) && HasExited(k, 10, second)
    ensures second == if first.pid == 11 then Harvest(12, 2, 0) else Harvest(11, 3, 9)
    ensures forall h :: !HasExited(Without(k, second.pid), 10, h)
  {
  }

  lemma SecondOfTheSweep(taken: seq<Harvest>)
    requires Wf(CliDone()) && IsSweep(CliDone(), 10, RebirthScript(), taken)
    ensures |taken| > 1 && (taken[1] == Harvest(11, 3, 9) || taken[1] == Harvest(12, 2, 0))
    ensures Seen(CliDone(), 10, RebirthScript(), taken[..2]) == Without(PidRecycled(), taken[1].pid)
  {
    FirstOfTheSweep(taken);
    MoreToTake(CliDone(), RebirthScript(), taken, 1, PidRecycled(), 11);
    SeenAfterOne(CliDone(), RebirthScript(), taken, 1, PidRecycled());
  }

  lemma ThirdOfTheSweep(k: Kernel, script: seq<Burst>, taken: seq<Harvest>, first: Harvest, k2: Kernel)
    requires Wf(k) && IsSweep(k, 10, script, taken) && |script| <= 2 && |taken| > 1 && taken[1] == first
    requires first == Harvest(11, 3, 9) || first == Harvest(12, 2, 0)
    requires k2 == Without(PidRecycled(), first.pid) && Seen(k, 10, script, taken[..2]) == k2
    ensures |taken| == 3 && taken[2] == if first.pid == 11 then Harvest(12, 2, 0) else Harvest(11, 3, 9)
  {
    MoreToTake(k, script, taken, 2, k2, if first.pid == 11 then 12 else 11);
    OneIsLeft(first, taken[2], k2);
    SeenAfterOne(k, script, taken, 2, k2);
  }

  /** After the CLI the two zombies 11 and 12 are taken, in either order. */
  lemma RestOfTheSweep(taken: seq<Harvest>)
    requires Wf(CliDone()) && IsSweep(CliDone(), 10, RebirthScript(), taken)
    ensures |taken| == 3 && taken[0] == Harvest(11, 1, 0)
    ensures (taken[1] == Harvest(11, 3, 9) && taken[2].pid == 12) || taken[2] == Harvest(11, 3, 9)
  {
    FirstOfTheSweep(taken);
    SecondOfTheSweep(taken);
    ThirdOfTheSweep(CliDone(), RebirthScript(), taken, taken[1], Without(PidRecycled(), taken[1].pid));
  }

  lemma MoreToTake(k: Kernel, script: seq<Burst>, taken: seq<Harvest>, n: nat, now: Kernel, p: nat)
    requires Wf(k) && IsSweep(k, 10, script, taken) && n <= |taken| && Seen(k, 10, script, taken[..n]) == now
    requires p in now.table && p != 10 && now.table[p].ppid == 10 && now.table[p].run.Zombie?
    ensures n < |taken| && HasExited(now, 10, taken[n])
  {
    assert taken[..|taken|] == taken;
  }

  lemma SeenAfterOne(k: Kernel, script: seq<Burst>, taken: seq<Harvest>, n: nat, now: Kernel)
    requires Wf(k) && n < |taken| && |script| <= n + 1 && Seen(k, 10, script, taken[..n]) == now && HasExited(now, 10, taken[n])
    ensures Seen(k, 10, script, taken[..n + 1]) == Without(now, taken[n].pid)
  {
    assert taken[..n + 1][..n] == taken[..n];
    SeenQuietly(k, 10, script, taken[..n + 1]);
  }

  /** A sweep of this script returns the orphan's status 9: the CLI exited with 0. */
  lemma RecycledPidTakesTheStatus(taken: seq<Harvest>)
    requires Wf(CliDone()) && IsSweep(CliDone(), 10, RebirthScript(), taken)
    ensures LastStatus(taken, 11) == Some(9) && |taken| == 3 && taken[0] == Harvest(11, 1, 0)
  {
    RestOfTheSweep(taken);
  }
}
