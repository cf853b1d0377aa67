// The part of the Linux process table the launcher relies on: forks, exits,
// reparenting to the nearest child subreaper, reaping and pid reuse.

/** A process table and its steps. The launcher is one process in it; every
    other process is free to take any enabled step at any time. */
module ProcessKernel {

  datatype RunState = Live | Zombie(status: int)

  /** uid      birth number, never reused (unlike the pid)
      start    field 22 of /proc/pid/stat
      doomed   a SIGKILL is pending: it can exit, and do nothing else
      foreign  the launcher may not signal it (EPERM)
      fromCli  its creator was the CLI or something the CLI started */
  datatype Proc = Proc(uid: nat, start: nat, ppid: nat, run: RunState, subreaper: bool,
                       sid: nat, doomed: bool, foreign: bool, fromCli: bool)

  /** born[u] is the (pid, start time) the u-th process was created with. */
  datatype Kernel = Kernel(table: map<nat, Proc>, born: seq<(nat, nat)>)

  /** Parent of a process that has no subreaper above it. Never a table key. */
  const INIT: nat := 0

  datatype Event =
    | Fork(parent: nat, child: nat, start: nat)         // also a double fork, one half at a time
    | CloneParent(caller: nat, child: nat, start: nat)  // CLONE_PARENT: the child is a sibling
    | SetSid(pid: nat)
    | SetSubreaper(pid: nat, on: bool)
    | ChangeUser(pid: nat, foreign: bool)
    | Exit(pid: nat, status: int)
    | Reap(pid: nat)                                    // by its own parent

  ghost predicate UniqueIdentities(born: seq<(nat, nat)>) {
    forall i, j :: 0 <= i < j < |born| ==> born[i] != born[j]
  }

  ghost predicate ParentOk(k: Kernel, p: nat)
    requires p in k.table
  {
    var q := k.table[p].ppid;
    q == INIT || (q in k.table && k.table[q].run.Live? && k.table[q].uid < k.table[p].uid)
  }

  /** Parents are live and older, and every entry is the process its birth record names. */
  ghost predicate Wf(k: Kernel) {
    && INIT !in k.table
    && UniqueIdentities(k.born)
    && (forall p :: p in k.table ==>
          k.table[p].uid < |k.born| && k.born[k.table[p].uid] == (p, k.table[p].start))
    && (forall p :: p in k.table ==> ParentOk(k, p))
  }

  /** The process an orphan of a child of q goes to: the nearest subreaper, q included. */
  function Reaper(k: Kernel, q: nat): nat
    requires Wf(k)
    decreases if q in k.table then k.table[q].uid + 1 else 0
  {
    if q !in k.table then INIT
    else if k.table[q].subreaper then q
    else
      assert ParentOk(k, q);
      Reaper(k, k.table[q].ppid)
  }

  predicate CanAct(k: Kernel, launcher: nat, p: nat) {
    p in k.table && p != launcher && k.table[p].run.Live? && !k.table[p].doomed
  }

  predicate CanName(k: Kernel, child: nat, start: nat) {
    child != INIT && child !in k.table && (child, start) !in k.born
  }

  /** What the rest of the system may do while the launcher runs. A fork needs a
      free pid and a (pid, start time) pair no earlier process had. */
  predicate Enabled(k: Kernel, launcher: nat, e: Event) {
    match e
    case Fork(p, c, start) => (p == INIT || CanAct(k, launcher, p)) && CanName(k, c, start)
    case CloneParent(p, c, start) => CanAct(k, launcher, p) && CanName(k, c, start)
    case SetSid(p) => CanAct(k, launcher, p)
    case SetSubreaper(p, _) => CanAct(k, launcher, p)
    case ChangeUser(p, _) => CanAct(k, launcher, p)
    case Exit(p, _) => p in k.table && p != launcher && k.table[p].run.Live?
    case Reap(p) => p in k.table && k.table[p].run.Zombie? && k.table[p].ppid != launcher
  }

  function Born(k: Kernel, child: nat, start: nat, ppid: nat, sid: nat, foreign: bool, fromCli: bool): Kernel {
    Kernel(k.table[child := Proc(|k.born|, start, ppid, Live, false, sid, false, foreign, fromCli)],
           k.born + [(child, start)])
  }

  function Reparented(table: map<nat, Proc>, gone: nat, reaper: nat): map<nat, Proc> {
    map q | q in table :: if table[q].ppid == gone then table[q].(ppid := reaper) else table[q]
  }

  /** p becomes a zombie and its children go to the given reaper. */
  function Orphaned(k: Kernel, p: nat, status: int, reaper: nat): Kernel
    requires p in k.table
  {
    k.(table := Reparented(k.table, p, reaper)[p := k.table[p].(run := Zombie(status))])
  }

  function Exited(k: Kernel, p: nat, status: int): Kernel
    requires Wf(k) && p in k.table
  {
    Orphaned(k, p, status, Reaper(k, k.table[p].ppid))
  }

  function Without(k: Kernel, p: nat): Kernel {
    k.(table := map q | q in k.table && q != p :: k.table[q])
  }

  function Apply(k: Kernel, launcher: nat, e: Event): Kernel
    requires Wf(k) && Enabled(k, launcher, e)
  {
    match e
    case Fork(p, c, start) =>
      if p == INIT then Born(k, c, start, INIT, c, true, false)
      else Born(k, c, start, p, k.table[p].sid, k.table[p].foreign, k.table[p].fromCli)
    case CloneParent(p, c, start) =>
      Born(k, c, start, k.table[p].ppid, k.table[p].sid, k.table[p].foreign, k.table[p].fromCli)
    case SetSid(p) => k.(table := k.table[p := k.table[p].(sid := p)])
    case SetSubreaper(p, on) => k.(table := k.table[p := k.table[p].(subreaper := on)])
    case ChangeUser(p, foreign) => k.(table := k.table[p := k.table[p].(foreign := foreign)])
    case Exit(p, status) => Exited(k, p, status)
    case Reap(p) => Without(k, p)
  }

  // -------------------------------------------------------------------------
  // Well-formedness
  // -------------------------------------------------------------------------

  lemma {:induction false} ReaperIsOlder(k: Kernel, q: nat)
    requires Wf(k)
    requires q in k.table ==> k.table[q].run.Live?
    ensures var r := Reaper(k, q);
      r == INIT || (r in k.table && q in k.table && k.table[r].run.Live? && k.table[r].uid <= k.table[q].uid)
    decreases if q in k.table then k.table[q].uid + 1 else 0
  {
    if q in k.table && !k.table[q].subreaper {
      assert ParentOk(k, q);
      ReaperIsOlder(k, k.table[q].ppid);
    }
  }

  lemma BornKeepsWf(k: Kernel, child: nat, start: nat, ppid: nat, sid: nat, foreign: bool, fromCli: bool)
    requires Wf(k) && CanName(k, child, start)
    requires ppid == INIT || (ppid in k.table && k.table[ppid].run.Live?)
    ensures Wf(Born(k, child, start, ppid, sid, foreign, fromCli))
  {
    var k' := Born(k, child, start, ppid, sid, foreign, fromCli);
    forall p | p in k'.table ensures ParentOk(k', p) {
      if p != child {
        assert ParentOk(k, p);
      }
    }
  }

  lemma OrphansKeepWf(k: Kernel, p: nat, status: int, reaper: nat)
    requires Wf(k) && p in k.table
    requires reaper == INIT || (reaper in k.table && k.table[reaper].run.Live? && k.table[reaper].uid < k.table[p].uid)
    ensures Wf(Orphaned(k, p, status, reaper))
  {
    var k' := Orphaned(k, p, status, reaper);
    forall q | q in k'.table ensures ParentOk(k', q) {
      OrphanParentOk(k, p, status, reaper, q);
    }
    forall q | q in k'.table ensures k'.table[q].uid == k.table[q].uid && k'.table[q].start == k.table[q].start {
    }
  }

  lemma OrphanParentOk(k: Kernel, p: nat, status: int, reaper: nat, q: nat)
    requires p in k.table && p != INIT && q in k.table && ParentOk(k, q)
    requires reaper == INIT || (reaper in k.table && k.table[reaper].run.Live? && k.table[reaper].uid < k.table[p].uid)
    ensures ParentOk(Orphaned(k, p, status, reaper), q)
  {
  }

  lemma ExitKeepsWf(k: Kernel, p: nat, status: int)
    requires Wf(k) && p in k.table
    ensures Wf(Exited(k, p, status))
  {
    assert ParentOk(k, p);
    ReaperIsOlder(k, k.table[p].ppid);
    OrphansKeepWf(k, p, status, Reaper(k, k.table[p].ppid));
  }

  lemma WithoutKeepsWf(k: Kernel, p: nat)
    requires Wf(k) && p in k.table && k.table[p].run.Zombie?
    ensures Wf(Without(k, p))
  {
    forall q | q in Without(k, p).table ensures ParentOk(Without(k, p), q) {
      assert ParentOk(k, q);
    }
  }

  /** A change to one process that keeps its identity, its parent and whether it is live. */
  lemma UpdateKeepsWf(k: Kernel, p: nat, proc: Proc)
    requires Wf(k) && p in k.table
    requires proc.uid == k.table[p].uid && proc.start == k.table[p].start
    requires proc.ppid == k.table[p].ppid && proc.run == k.table[p].run
    ensures Wf(k.(table := k.table[p := proc]))
  {
    var k' := k.(table := k.table[p := proc]);
    forall q | q in k'.table ensures ParentOk(k', q) {
      assert ParentOk(k, q);
    }
  }

  lemma ApplyKeepsWf(k: Kernel, launcher: nat, e: Event)
    requires Wf(k) && Enabled(k, launcher, e)
    ensures Wf(Apply(k, launcher, e))
  {
    match e
    case Fork(p, c, start) =>
      if p == INIT {
        BornKeepsWf(k, c, start, INIT, c, true, false);
      } else {
        BornKeepsWf(k, c, start, p, k.table[p].sid, k.table[p].foreign, k.table[p].fromCli);
      }
    case CloneParent(p, c, start) =>
      assert ParentOk(k, p);
      BornKeepsWf(k, c, start, k.table[p].ppid, k.table[p].sid, k.table[p].foreign, k.table[p].fromCli);
    case SetSid(p) => UpdateKeepsWf(k, p, k.table[p].(sid := p));
    case SetSubreaper(p, on) => UpdateKeepsWf(k, p, k.table[p].(subreaper := on));
    case ChangeUser(p, foreign) => UpdateKeepsWf(k, p, k.table[p].(foreign := foreign));
    case Exit(p, status) => ExitKeepsWf(k, p, status);
    case Reap(p) => WithoutKeepsWf(k, p);
  }

  // -------------------------------------------------------------------------
  // Containment
  // -------------------------------------------------------------------------

  /** q is the launcher or was started, however indirectly, by the CLI. */
  ghost predicate Inside(k: Kernel, launcher: nat, q: nat) {
    q == launcher || (q in k.table && k.table[q].fromCli)
  }

  /** p was started by the CLI exactly when its parent is inside. */
  ghost predicate SideOk(k: Kernel, launcher: nat, p: nat)
    requires p in k.table
  {
    k.table[p].fromCli <==> Inside(k, launcher, k.table[p].ppid)
  }

  ghost predicate Subreaping(k: Kernel, launcher: nat) {
    && launcher in k.table && k.table[launcher].run.Live? && k.table[launcher].subreaper
    && !k.table[launcher].fromCli
  }

  /** The launcher is a live subreaper, and exactly the processes the CLI started
      have their parent inside. */
  ghost predicate Contained(k: Kernel, launcher: nat) {
    && Wf(k)
    && Subreaping(k, launcher)
    && (forall p :: p in k.table ==> SideOk(k, launcher, p))
  }

  /** An orphan of an inside process stays inside; one of an outside process stays outside. */
  lemma {:induction false} ReaperStaysOnItsSide(k: Kernel, launcher: nat, q: nat)
    requires Contained(k, launcher)
    ensures Inside(k, launcher, Reaper(k, q)) <==> Inside(k, launcher, q)
    decreases if q in k.table then k.table[q].uid + 1 else 0
  {
    if q in k.table && !k.table[q].subreaper {
      assert ParentOk(k, q);
      assert SideOk(k, launcher, q);
      ReaperStaysOnItsSide(k, launcher, k.table[q].ppid);
    }
  }

  lemma BornKeepsContained(k: Kernel, launcher: nat, child: nat, start: nat, ppid: nat, sid: nat, foreign: bool, fromCli: bool)
    requires Contained(k, launcher) && CanName(k, child, start)
    requires ppid == INIT || (ppid in k.table && k.table[ppid].run.Live?)
    requires fromCli <==> Inside(k, launcher, ppid)
    ensures Contained(Born(k, child, start, ppid, sid, foreign, fromCli), launcher)
  {
    var k' := Born(k, child, start, ppid, sid, foreign, fromCli);
    BornKeepsWf(k, child, start, ppid, sid, foreign, fromCli);
    forall p | p in k'.table ensures SideOk(k', launcher, p) {
      if p != child {
        assert SideOk(k, launcher, p) && ParentOk(k, p);
      }
    }
  }

  lemma OrphansKeepSides(k: Kernel, launcher: nat, p: nat, status: int, reaper: nat)
    requires p in k.table && p != launcher && p != reaper
    requires forall q :: q in k.table ==> SideOk(k, launcher, q)
    requires Inside(k, launcher, reaper) <==> Inside(k, launcher, k.table[p].ppid)
    ensures var k' := Orphaned(k, p, status, reaper);
      forall q :: q in k'.table ==> SideOk(k', launcher, q)
  {
    var k' := Orphaned(k, p, status, reaper);
    assert SideOk(k, launcher, p);
    forall q | q in k'.table ensures SideOk(k', launcher, q) {
      assert SideOk(k, launcher, q);
      assert Inside(k', launcher, k'.table[q].ppid) <==> Inside(k, launcher, k'.table[q].ppid);
    }
  }

  lemma ExitKeepsContained(k: Kernel, launcher: nat, p: nat, status: int)
    requires Contained(k, launcher) && p in k.table && p != launcher
    ensures Contained(Exited(k, p, status), launcher)
  {
    ExitKeepsWf(k, p, status);
    ReaperStaysOnItsSide(k, launcher, k.table[p].ppid);
    assert ParentOk(k, p);
    ReaperIsOlder(k, k.table[p].ppid);
    OrphansKeepSides(k, launcher, p, status, Reaper(k, k.table[p].ppid));
  }

  lemma WithoutKeepsContained(k: Kernel, launcher: nat, p: nat)
    requires Contained(k, launcher) && p in k.table && k.table[p].run.Zombie?
    ensures Contained(Without(k, p), launcher)
  {
    var k' := Without(k, p);
    WithoutKeepsWf(k, p);
    forall q | q in k'.table ensures SideOk(k', launcher, q) {
      assert SideOk(k, launcher, q) && ParentOk(k, q);
    }
  }

  lemma UpdateKeepsContained(k: Kernel, launcher: nat, p: nat, proc: Proc)
    requires Contained(k, launcher) && p in k.table
    requires proc.uid == k.table[p].uid && proc.start == k.table[p].start
    requires proc.ppid == k.table[p].ppid && proc.run == k.table[p].run
    requires proc.fromCli == k.table[p].fromCli && (p == launcher ==> proc.subreaper)
    ensures Contained(k.(table := k.table[p := proc]), launcher)
  {
    var k' := k.(table := k.table[p := proc]);
    UpdateKeepsWf(k, p, proc);
    forall q | q in k'.table ensures SideOk(k', launcher, q) {
      assert SideOk(k, launcher, q);
    }
  }

  /** No step of the rest of the system moves a process across the boundary. */
  lemma StepKeepsContained(k: Kernel, launcher: nat, e: Event)
    requires Contained(k, launcher) && Enabled(k, launcher, e)
    ensures Contained(Apply(k, launcher, e), launcher)
  {
    match e
    case Fork(p, c, start) =>
      if p == INIT {
        BornKeepsContained(k, launcher, c, start, INIT, c, true, false);
      } else {
        BornKeepsContained(k, launcher, c, start, p, k.table[p].sid, k.table[p].foreign, k.table[p].fromCli);
      }
    case CloneParent(p, c, start) =>
      assert ParentOk(k, p) && SideOk(k, launcher, p);
      BornKeepsContained(k, launcher, c, start, k.table[p].ppid, k.table[p].sid, k.table[p].foreign, k.table[p].fromCli);
    case SetSid(p) => UpdateKeepsContained(k, launcher, p, k.table[p].(sid := p));
    case SetSubreaper(p, on) => UpdateKeepsContained(k, launcher, p, k.table[p].(subreaper := on));
    case ChangeUser(p, foreign) => UpdateKeepsContained(k, launcher, p, k.table[p].(foreign := foreign));
    case Exit(p, status) => ExitKeepsContained(k, launcher, p, status);
    case Reap(p) => WithoutKeepsContained(k, launcher, p);
  }
}
