// Whose status _reap_children of equipa/agent_launcher.py returns, over every sweep.

/** The CLI's own status comes back unless another child got its pid within the sweep. */
module CliStatus {
  import opened Containment
  import opened ProcessKernel
  import opened Reaping
  import opened Wrappers

  // -------------------------------------------------------------------------
  // The status of a child is the one it exited with
  // -------------------------------------------------------------------------

  function FirstExit(events: seq<Event>, p: nat): Option<int> {
    if events == [] then None
    else if events[0].Exit? && events[0].pid == p then Some(events[0].status)
    else FirstExit(events[1..], p)
  }

  function StateBy(run: RunState, exit: Option<int>): RunState {
    if run.Live? && exit.Some? then Zombie(exit.value) else run
  }

  /** p is a child of the launcher in both tables, and run is what became of it. */
  ghost predicate StillChild(k: Kernel, k': Kernel, launcher: nat, p: nat, run: RunState) {
    && p in k.table && p in k'.table && p != launcher && k.table[p].ppid == launcher && k'.table[p].ppid == launcher
    && k'.table[p].uid == k.table[p].uid && k'.table[p].run == run
  }

  lemma OtherExit(k: Kernel, launcher: nat, q: nat, status: int, p: nat)
    requires Wf(k) && p in k.table && p != launcher && k.table[p].ppid == launcher && q in k.table && q != launcher
    ensures StillChild(k, Exited(k, q, status), launcher, p, if p == q then Zombie(status) else k.table[p].run)
  {
  }

  lemma ExitStep(k: Kernel, launcher: nat, e: Event, p: nat)
    requires Wf(k) && p in k.table && p != launcher && k.table[p].ppid == launcher && Enabled(k, launcher, e)
    ensures StillChild(k, Apply(k, launcher, e), launcher, p, StateBy(k.table[p].run, FirstExit([e], p)))
  {
    if e.Exit? {
      OtherExit(k, launcher, e.pid, e.status, p);
    }
  }

  lemma StartWith(k: Kernel, launcher: nat, events: seq<Event>)
    requires Wf(k) && events != [] && Enabled(k, launcher, events[0]) && Wf(Apply(k, launcher, events[0]))
    ensures Run(k, launcher, events) == Run(Apply(k, launcher, events[0]), launcher, events[1..])
  {
  }

  /** A child of the launcher is as its first exit left it, however the rest goes on. */
  lemma {:induction false} ExitsAsItSaid(k: Kernel, launcher: nat, events: seq<Event>, p: nat)
    requires Wf(k) && p in k.table && p != launcher && k.table[p].ppid == launcher
    ensures StillChild(k, Run(k, launcher, events), launcher, p, StateBy(k.table[p].run, FirstExit(events, p)))
    decreases |events|
  {
    if events != [] {
      if Enabled(k, launcher, events[0]) {
        var k1, rest := Apply(k, launcher, events[0]), events[1..];
        ApplyKeepsWf(k, launcher, events[0]);
        ExitStep(k, launcher, events[0], p);
        ExitsAsItSaid(k1, launcher, rest, p);
        StartWith(k, launcher, events);
        StillChildTransitive(k, k1, Run(k1, launcher, rest), launcher, p, FirstExit([events[0]], p), FirstExit(rest, p));
      } else {
        ExitsAsItSaid(k, launcher, events[1..], p);
        Skipped(k, launcher, events, p);
      }
    }
  }

  lemma Skipped(k: Kernel, launcher: nat, events: seq<Event>, p: nat)
    requires Wf(k) && p in k.table && p != launcher && events != [] && !Enabled(k, launcher, events[0])
    ensures Run(k, launcher, events) == Run(k, launcher, events[1..])
    ensures StateBy(k.table[p].run, FirstExit(events, p)) == StateBy(k.table[p].run, FirstExit(events[1..], p))
  {
  }

  /** The events of the bursts before the n-th waitpid. */
  function EventsBefore(script: seq<Burst>, n: nat): seq<Event> {
    (if n == 0 then [] else EventsBefore(script, n - 1)) + EventsAt(script, n)
  }

  lemma {:induction false} FirstExitSplit(a: seq<Event>, b: seq<Event>, p: nat)
    ensures FirstExit(a + b, p) == if FirstExit(a, p).Some? then FirstExit(a, p) else FirstExit(b, p)
    decreases |a|
  {
    if a == [] {
      assert a + b == b;
    } else {
      assert (a + b)[1..] == a[1..] + b;
      FirstExitSplit(a[1..], b, p);
    }
  }

  /** The child is still there as long as no waitpid has returned its pid. */
  lemma {:induction false} ChildDuringSweep(k: Kernel, launcher: nat, script: seq<Burst>, taken: seq<Harvest>, p: nat)
    requires Wf(k) && p in k.table && p != launcher && k.table[p].ppid == launcher
    requires forall i :: 0 <= i < |taken| ==> taken[i].pid != p
    ensures StillChild(k, Seen(k, launcher, script, taken), launcher, p,
                       StateBy(k.table[p].run, FirstExit(EventsBefore(script, |taken|), p)))
    decreases |taken|
  {
    if taken == [] {
      FirstBurst(k, launcher, script, p);
    } else {
      ChildDuringSweep(k, launcher, script, taken[..|taken| - 1], p);
      ChildStep(k, launcher, script, taken, p, Seen(k, launcher, script, taken[..|taken| - 1]));
    }
  }

  lemma ChildStep(k: Kernel, launcher: nat, script: seq<Burst>, taken: seq<Harvest>, p: nat, seen: Kernel)
    requires Wf(k) && taken != [] && taken[|taken| - 1].pid != p && seen == Seen(k, launcher, script, taken[..|taken| - 1])
    requires p in k.table
    requires StillChild(k, seen, launcher, p, StateBy(k.table[p].run, FirstExit(EventsBefore(script, |taken| - 1), p)))
    ensures StillChild(k, Seen(k, launcher, script, taken), launcher, p,
                       StateBy(k.table[p].run, FirstExit(EventsBefore(script, |taken|), p)))
  {
    var n := |taken|;
    ChildNext(seen, launcher, taken[n - 1].pid, EventsAt(script, n), p);
    ExitOneMore(script, n, p);
    StillChildTransitive(k, seen, Run(Reaped(seen, taken[n - 1].pid), launcher, EventsAt(script, n)), launcher, p,
                         FirstExit(EventsBefore(script, n - 1), p), FirstExit(EventsAt(script, n), p));
  }

  lemma FirstBurst(k: Kernel, launcher: nat, script: seq<Burst>, p: nat)
    requires Wf(k) && p in k.table && p != launcher && k.table[p].ppid == launcher
    ensures StillChild(k, Seen(k, launcher, script, []), launcher, p, StateBy(k.table[p].run, FirstExit(EventsBefore(script, 0), p)))
  {
    assert EventsBefore(script, 0) == EventsAt(script, 0);
    ExitsAsItSaid(k, launcher, EventsAt(script, 0), p);
  }

  lemma ExitOneMore(script: seq<Burst>, n: nat, p: nat)
    requires n > 0
    ensures var a, b := FirstExit(EventsBefore(script, n - 1), p), FirstExit(EventsAt(script, n), p);
      FirstExit(EventsBefore(script, n), p) == if a.Some? then a else b
  {
    FirstExitSplit(EventsBefore(script, n - 1), EventsAt(script, n), p);
  }

  lemma StillChildTransitive(a: Kernel, b: Kernel, c: Kernel, launcher: nat, p: nat, e1: Option<int>, e2: Option<int>)
    requires p in a.table && StillChild(a, b, launcher, p, StateBy(a.table[p].run, e1))
    requires StillChild(b, c, launcher, p, StateBy(b.table[p].run, e2))
    ensures StillChild(a, c, launcher, p, StateBy(a.table[p].run, if e1.Some? then e1 else e2))
  {
  }

  lemma ChildNext(k: Kernel, launcher: nat, q: nat, events: seq<Event>, p: nat)
    requires Wf(k) && p in k.table && p != launcher && k.table[p].ppid == launcher && q != p
    ensures StillChild(k, Run(Reaped(k, q), launcher, events), launcher, p, StateBy(k.table[p].run, FirstExit(events, p)))
  {
    ExitsAsItSaid(Reaped(k, q), launcher, events, p);
  }

  /** The first harvest with the CLI's pid is the CLI, with the status it exited with. */
  lemma FirstHarvestIsTheCli(k: Kernel, launcher: nat, script: seq<Burst>, taken: seq<Harvest>, cli: nat, uid: nat, j: nat)
    requires Wf(k) && ChildOf(k, launcher, cli, uid) && Taking(k, launcher, script, taken)
    requires j < |taken| && taken[j].pid == cli && forall i :: 0 <= i < j ==> taken[i].pid != cli
    ensures taken[j].uid == uid
    ensures Zombie(taken[j].status) == StateBy(k.table[cli].run, FirstExit(EventsBefore(script, j), cli))
  {
    ChildDuringSweep(k, launcher, script, taken[..j], cli);
  }

  // -------------------------------------------------------------------------
  // Without a rebirth of the pid
  // -------------------------------------------------------------------------

  predicate GivesPid(e: Event, pid: nat) {
    (e.Fork? || e.CloneParent?) && e.child == pid
  }

  lemma StepKeepsAbsent(k: Kernel, launcher: nat, e: Event, pid: nat)
    requires Wf(k) && Enabled(k, launcher, e) && pid !in k.table && !GivesPid(e, pid)
    ensures pid !in Apply(k, launcher, e).table
  {
  }

  lemma {:induction false} StaysAbsent(k: Kernel, launcher: nat, events: seq<Event>, pid: nat)
    requires Wf(k) && pid !in k.table && forall e :: e in events ==> !GivesPid(e, pid)
    ensures pid !in Run(k, launcher, events).table
    decreases |events|
  {
    if events != [] {
      if Enabled(k, launcher, events[0]) {
        ApplyKeepsWf(k, launcher, events[0]);
        StepKeepsAbsent(k, launcher, events[0], pid);
        StaysAbsent(Apply(k, launcher, events[0]), launcher, events[1..], pid);
      } else {
        StaysAbsent(k, launcher, events[1..], pid);
      }
    }
  }

  /** No burst from the i-th up to the last harvest gives anything this pid. */
  ghost predicate NotReborn(script: seq<Burst>, i: nat, n: nat, pid: nat) {
    forall m: nat, e :: i <= m < n && e in EventsAt(script, m) ==> !GivesPid(e, pid)
  }

  lemma {:induction false} AbsentDuringSweep(k: Kernel, launcher: nat, script: seq<Burst>, taken: seq<Harvest>, i: nat, n: nat, pid: nat)
    requires Wf(k) && i <= |taken| < n && pid !in After(k, launcher, script, taken[..i]).table
    requires NotReborn(script, i, n, pid)
    ensures pid !in Seen(k, launcher, script, taken).table
    decreases |taken|
  {
    if i < |taken| {
      assert taken[..|taken| - 1][..i] == taken[..i];
      AbsentDuringSweep(k, launcher, script, taken[..|taken| - 1], i, n, pid);
    } else {
      assert taken[..i] == taken;
    }
    StaysAbsent(After(k, launcher, script, taken), launcher, EventsAt(script, |taken|), pid);
  }

  lemma TakenIsGone(k: Kernel, launcher: nat, script: seq<Burst>, taken: seq<Harvest>, j: nat)
    requires Wf(k) && j < |taken| && Taking(k, launcher, script, taken)
    ensures taken[j].pid !in After(k, launcher, script, taken[..j + 1]).table
  {
    assert taken[..j + 1][..j] == taken[..j];
    assert HasExited(Seen(k, launcher, script, taken[..j]), launcher, taken[j]);
  }

  lemma TakenWasSeen(k: Kernel, launcher: nat, script: seq<Burst>, taken: seq<Harvest>, i: nat)
    requires Wf(k) && i < |taken| && Taking(k, launcher, script, taken)
    ensures HasExited(Seen(k, launcher, script, taken[..i]), launcher, taken[i])
  {
  }

  lemma GoneDuringSweep(k: Kernel, launcher: nat, script: seq<Burst>, before: seq<Harvest>, gone: seq<Harvest>, n: nat, pid: nat)
    requires Wf(k) && |gone| <= |before| < n && before[..|gone|] == gone
    requires pid !in After(k, launcher, script, gone).table && NotReborn(script, |gone|, n, pid)
    ensures pid !in Seen(k, launcher, script, before).table
  {
    AbsentDuringSweep(k, launcher, script, before, |gone|, n, pid);
  }

  lemma AnotherPid(k: Kernel, launcher: nat, script: seq<Burst>, taken: seq<Harvest>, j: nat, i: nat)
    requires Wf(k) && j < i < |taken| && Taking(k, launcher, script, taken)
    requires NotReborn(script, j + 1, |taken|, taken[j].pid)
    ensures taken[i].pid != taken[j].pid
  {
    TakenIsGone(k, launcher, script, taken, j);
    TakenWasSeen(k, launcher, script, taken, i);
    assert taken[..i][..j + 1] == taken[..j + 1];
    GoneDuringSweep(k, launcher, script, taken[..i], taken[..j + 1], |taken|, taken[j].pid);
  }

  /** If nothing is born under the CLI's pid between its reap and the last one of the
      sweep, the status returned is the CLI's own. */
  lemma OwnStatusUnlessReborn(k: Kernel, launcher: nat, script: seq<Burst>, taken: seq<Harvest>, j: nat)
    requires Wf(k) && j < |taken| && Taking(k, launcher, script, taken)
    requires NotReborn(script, j + 1, |taken|, taken[j].pid)
    ensures LastStatus(taken, taken[j].pid) == Some(taken[j].status)
  {
    forall i | j < i < |taken| ensures taken[i].pid != taken[j].pid {
      AnotherPid(k, launcher, script, taken, j, i);
    }
    LastStatusIs(taken, taken[j].pid, j);
  }

  // -------------------------------------------------------------------------
  // When no timing can lose the status
  // -------------------------------------------------------------------------

  /** Nothing the CLI started can act any more. */
  ghost predicate Spent(k: Kernel) {
    forall p :: p in k.table && k.table[p].fromCli ==> k.table[p].run.Zombie? || k.table[p].doomed
  }

  /** Everything of the CLI in k' was there in k. */
  ghost predicate NothingNew(k: Kernel, k': Kernel) {
    forall p :: p in k'.table && k'.table[p].fromCli ==> k'.table[p].uid < |k.born|
  }

  lemma StepKeepsSpent(k: Kernel, launcher: nat, e: Event)
    requires Contained(k, launcher) && Spent(k) && Enabled(k, launcher, e)
    ensures Spent(Apply(k, launcher, e)) && NothingNew(k, Apply(k, launcher, e))
  {
    match e
    case Exit(p, status) => ExitKeepsSpent(k, launcher, p, status);
    case _ =>
  }

  lemma ExitKeepsSpent(k: Kernel, launcher: nat, p: nat, status: int)
    requires Wf(k) && Spent(k) && p in k.table
    ensures Spent(Exited(k, p, status)) && NothingNew(k, Exited(k, p, status))
  {
  }

  lemma NothingNewLater(a: Kernel, b: Kernel, c: Kernel)
    requires NothingNew(a, b) && NothingNew(b, c) && Later(b, c)
    ensures NothingNew(a, c)
  {
    forall p | p in c.table && c.table[p].fromCli ensures c.table[p].uid < |a.born| {
      assert SameProcess(b, c, p);
    }
  }

  lemma {:induction false} RunKeepsSpent(k: Kernel, launcher: nat, events: seq<Event>)
    requires Contained(k, launcher) && Spent(k)
    ensures Spent(Run(k, launcher, events)) && NothingNew(k, Run(k, launcher, events))
    decreases |events|
  {
    if events != [] {
      if Enabled(k, launcher, events[0]) {
        var k1 := Apply(k, launcher, events[0]);
        ApplyKeepsWf(k, launcher, events[0]);
        StepKeepsContained(k, launcher, events[0]);
        StepKeepsSpent(k, launcher, events[0]);
        RunKeepsSpent(k1, launcher, events[1..]);
        RunIsLater(k1, launcher, events[1..]);
        NothingNewLater(k, k1, Run(k1, launcher, events[1..]));
      } else {
        RunKeepsSpent(k, launcher, events[1..]);
      }
    }
  }

  lemma ReapedKeeps(k: Kernel, launcher: nat, p: nat)
    requires Contained(k, launcher)
    ensures Contained(Reaped(k, p), launcher) && NothingNew(k, Reaped(k, p)) && (Spent(k) ==> Spent(Reaped(k, p)))
  {
    if p in k.table && k.table[p].run.Zombie? {
      WithoutKeepsContained(k, launcher, p);
    }
  }

  lemma {:induction false} SweepKeepsContained(k: Kernel, launcher: nat, script: seq<Burst>, taken: seq<Harvest>)
    requires Contained(k, launcher)
    ensures Contained(After(k, launcher, script, taken), launcher) && Contained(Seen(k, launcher, script, taken), launcher)
    decreases |taken|
  {
    if taken != [] {
      SweepKeepsContained(k, launcher, script, taken[..|taken| - 1]);
      ReapedKeeps(Seen(k, launcher, script, taken[..|taken| - 1]), launcher, taken[|taken| - 1].pid);
    }
    RunKeepsContained(After(k, launcher, script, taken), launcher, EventsAt(script, |taken|));
  }

  lemma {:induction false} SweepKeepsSpent(k: Kernel, launcher: nat, script: seq<Burst>, taken: seq<Harvest>)
    requires Contained(k, launcher) && Spent(k)
    ensures var s := Seen(k, launcher, script, taken); Spent(s) && NothingNew(k, s)
    decreases |taken|
  {
    var a, s := After(k, launcher, script, taken), Seen(k, launcher, script, taken);
    SweepKeepsContained(k, launcher, script, taken);
    if taken != [] {
      var init := taken[..|taken| - 1];
      SweepKeepsSpent(k, launcher, script, init);
      SweepKeepsContained(k, launcher, script, init);
      var seen := Seen(k, launcher, script, init);
      ReapedKeeps(seen, launcher, taken[|taken| - 1].pid);
      ReapedIsLater(seen, taken[|taken| - 1].pid);
      NothingNewLater(k, seen, a);
    }
    RunKeepsSpent(a, launcher, EventsAt(script, |taken|));
    RunIsLater(a, launcher, EventsAt(script, |taken|));
    NothingNewLater(k, a, s);
  }

  lemma TakenWasOld(k: Kernel, launcher: nat, script: seq<Burst>, taken: seq<Harvest>, i: nat)
    requires Contained(k, launcher) && Spent(k) && i < |taken| && Taking(k, launcher, script, taken)
    ensures taken[i].uid < |k.born|
  {
    var seen := Seen(k, launcher, script, taken[..i]);
    assert HasExited(seen, launcher, taken[i]);
    SweepKeepsSpent(k, launcher, script, taken[..i]);
    SweepKeepsContained(k, launcher, script, taken[..i]);
    assert SideOk(seen, launcher, taken[i].pid);
  }

  lemma TakenWasThere(k: Kernel, launcher: nat, script: seq<Burst>, taken: seq<Harvest>, a: nat, i: nat)
    requires Wf(k) && a <= i < |taken| && Taking(k, launcher, script, taken)
    requires taken[i].uid < |After(k, launcher, script, taken[..a]).born|
    ensures taken[i].pid in After(k, launcher, script, taken[..a]).table
  {
    var seen := Seen(k, launcher, script, taken[..i]);
    TakenWasSeen(k, launcher, script, taken, i);
    assert taken[..i][..a] == taken[..a];
    LaterWithin(k, launcher, script, taken[..i], a);
    assert SameProcess(After(k, launcher, script, taken[..a]), seen, taken[i].pid);
  }

  lemma OnlyOneUnderThePid(k: Kernel, launcher: nat, script: seq<Burst>, taken: seq<Harvest>, j: nat, i: nat)
    requires Contained(k, launcher) && Spent(k) && j < i < |taken| && Taking(k, launcher, script, taken)
    ensures taken[i].pid != taken[j].pid
  {
    TakenWasOld(k, launcher, script, taken, i);
    SweepIsLater(k, launcher, script, taken[..j + 1]);
    TakenWasThere(k, launcher, script, taken, j + 1, i);
    TakenIsGone(k, launcher, script, taken, j);
  }

  /** Whatever the rest of the system does during the sweep, and in whatever order
      waitpid returns the children, the CLI's status is the one returned. */
  ghost predicate AlwaysOwn(k: Kernel, launcher: nat, cli: nat, uid: nat)
    requires Wf(k)
  {
    forall script: seq<Burst>, taken: seq<Harvest>, j: nat :: IsSweep(k, launcher, script, taken) && TakenAt(taken, j, cli, uid) ==>
      LastStatus(taken, cli) == Some(taken[j].status)
  }

  predicate TakenAt(taken: seq<Harvest>, j: nat, pid: nat, uid: nat) {
    j < |taken| && taken[j].pid == pid && taken[j].uid == uid
  }

  lemma SpentIsSafe(k: Kernel, launcher: nat, cli: nat, uid: nat)
    requires Contained(k, launcher) && Spent(k)
    ensures AlwaysOwn(k, launcher, cli, uid)
  {
    forall script: seq<Burst>, taken: seq<Harvest>, j: nat | IsSweep(k, launcher, script, taken) && TakenAt(taken, j, cli, uid)
      ensures LastStatus(taken, cli) == Some(taken[j].status)
    {
      forall i | j < i < |taken| ensures taken[i].pid != cli {
        OnlyOneUnderThePid(k, launcher, script, taken, j, i);
      }
      LastStatusIs(taken, cli, j);
    }
  }
}
