// The launcher's loops over the process table: signal_process_identity,
// _reap_children, _supervise_cli, _wait_for_no_descendants and
// terminate_descendants.

/** The launcher at work. Between any two of its system calls the rest of the
    system runs the next burst of an arbitrary script. */
module Supervisor {
  import opened ProcessKernel
  import opened TreeWalk
  import opened Containment
  import opened Launcher
  import opened Reaping
  import opened CliStatus
  import opened StatusLoss
  import opened Rounds
  import opened Wrappers

  function ChildrenIn(s: Snapshot, pids: seq<nat>, p: nat): seq<nat> {
    if pids == [] then []
    else if pids[0] in s && s[pids[0]].ppid == p then [pids[0]] + ChildrenIn(s, pids[1..], p)
    else ChildrenIn(s, pids[1..], p)
  }

  lemma {:induction false} ChildrenInIsChildList(s: Snapshot, pids: seq<nat>, p: nat)
    requires Distinct(pids)
    ensures Distinct(ChildrenIn(s, pids, p))
    ensures forall c :: c in ChildrenIn(s, pids, p) <==> c in pids && c in s && s[c].ppid == p
  {
    if pids != [] {
      ChildrenInIsChildList(s, pids[1..], p);
      assert pids[0] !in pids[1..];
    }
  }

  method PidsOf(keys: set<nat>) returns (pids: seq<nat>)
    ensures Distinct(pids) && forall p :: p in pids <==> p in keys
  {
    pids := [];
    var todo := keys;
    while todo != {}
      invariant todo <= keys && Distinct(pids) && forall p :: p in pids <==> p in keys - todo
      decreases todo
    {
      var p :| p in todo;
      assert p !in pids;
      pids, todo := pids + [p], todo - {p};
    }
  }

  ghost predicate TakenIn(h: seq<Harvest>, p: nat, uid: nat) {
    exists i: nat :: TakenAt(h, i, p, uid)
  }

  ghost predicate KeepsChildren(before: Kernel, after: Kernel, launcher: nat) {
    forall p, u :: ChildOf(before, launcher, p, u) ==> ChildOf(after, launcher, p, u)
  }

  /** The sweep that returned a status: the table and the script it began with. */
  datatype Sweep = Sweep(before: Kernel, script: seq<Burst>, taken: seq<Harvest>)

  /** It took the CLI, and the status is that of the last child taken under its pid:
      the CLI's own, unless something was born under that pid in between. */
  ghost predicate Ended(s: Sweep, launcher: nat, cli: nat, uid: nat, status: int) {
    && TookCli(s, launcher, cli, uid, status) && TakenIn(s.taken, cli, uid)
    && (forall j: nat :: TakenAt(s.taken, j, cli, uid) && NotReborn(s.script, j + 1, |s.taken|, cli) ==> status == s.taken[j].status)
    && (forall j: nat :: TakenAt(s.taken, j, cli, uid) && Spent(s.before) ==> status == s.taken[j].status)
  }

  /** What a sweep that returned a status is. */
  ghost predicate TookCli(s: Sweep, launcher: nat, cli: nat, uid: nat, status: int) {
    && Contained(s.before, launcher) && ChildOf(s.before, launcher, cli, uid)
    && IsSweep(s.before, launcher, s.script, s.taken) && LastStatus(s.taken, cli) == Some(status)
  }

  function Received(wake: Wake): set<nat> {
    if wake.Got? then {wake.sig} else {}
  }

  function OneSignal(sig: Option<nat>): set<nat> {
    if sig.Some? then {sig.value} else {}
  }

  function AllReceived(wakes: seq<Woken>): set<nat> {
    if wakes == [] then {} else AllReceived(wakes[..|wakes| - 1]) + Received(wakes[|wakes| - 1].wake)
  }

  class Host {
    const launcher: nat
    const hasChildrenFiles: bool
    ghost const doomedBefore: set<nat>
    var k: Kernel
    var clock: int
    var script: seq<Burst>
    var pending: set<nat>
    var sent: seq<Sent>
    var cliLog: seq<CliSignal>
    ghost var byPidfd: seq<Reached>
    ghost var byPid: seq<Reached>
    ghost var arrived: set<nat>
    ghost var received: set<nat>
    ghost const horizon: int
    ghost var waited: int

    constructor (launcher: nat, hasChildrenFiles: bool, k: Kernel, script: seq<Burst>)
      requires Contained(k, launcher)
      ensures this.launcher == launcher && this.k == k && this.script == script && Valid() && SentTallied() && CliTallied()
      ensures sent == [] && cliLog == [] && pending == {} && received == {}
      ensures doomedBefore == set p | p in k.table && k.table[p].doomed :: k.table[p].uid
    {
      this.launcher, this.hasChildrenFiles := launcher, hasChildrenFiles;
      this.k, this.script, this.clock, pending := k, script, 0, {};
      sent, cliLog := [], [];
      byPidfd, byPid, arrived, received := [], [], {}, {};
      waited, horizon := 0, Elapsed(script);
      doomedBefore := set p | p in k.table && k.table[p].doomed :: k.table[p].uid;
    }

    /** The logs are honest. Every process that is to die of a SIGKILL was so from the
        start or was sent one. Every signal to the launcher that arrived is pending or
        was received. The clock moves with the rest of the system and while the launcher
        waits. */
    ghost predicate Valid()
      reads this
    {
      && Contained(k, launcher) && AllHonest(k, sent) && DoomedOk(k, byPidfd, byPid, doomedBefore)
      && arrived == pending + received && clock + Elapsed(script) == horizon + waited
    }

    /** The log of signal_process_identity holds every signal that went through a pidfd,
        and no other. */
    ghost predicate SentTallied()
      reads this`sent, this`byPidfd
    {
      byPidfd == DeliveredOf(sent)
    }

    /** The log of the CLI's signals holds every one sent by pid, and no other. */
    ghost predicate CliTallied()
      reads this`cliLog, this`byPid
    {
      byPid == HitsOf(cliLog)
    }

    /** The rest of the system between two system calls. A signal to the launcher is
        blocked and stays pending. */
    method Interleave()
      requires Valid()
      modifies this`k, this`clock, this`script, this`pending, this`arrived
      ensures Valid() && clock >= old(clock)
      ensures k == Run(old(k), launcher, EventsAt(old(script), 0)) && script == Drop(old(script), 1)
      ensures pending == old(pending) + SignalAt(old(script)) && arrived == old(arrived) + SignalAt(old(script))
    {
      pending, arrived := pending + SignalAt(script), arrived + SignalAt(script);
      if script != [] {
        var b := script[0];
        script := script[1..];
        clock := clock + b.elapsed;
        RunEvents(b.events);
      }
    }

    /** The same, where only what lasts is of interest: the launcher's children stay. */
    method Pause()
      requires Valid()
      modifies this`k, this`clock, this`script, this`pending, this`arrived
      ensures Valid() && clock >= old(clock) && Later(old(k), k) && KeepsChildren(old(k), k, launcher)
      ensures |script| < |old(script)| || (script == [] && pending == old(pending))
    {
      RunLasts(k, launcher, EventsAt(script, 0));
      Interleave();
    }

    method RunEvents(events: seq<Event>)
      requires Valid()
      modifies this`k
      ensures Valid() && k == Run(old(k), launcher, events)
    {
      RunKeepsContained(k, launcher, events);
      RunIsLater(k, launcher, events);
      RunDoomsNothing(k, launcher, events);
      LogsLater(k, Run(k, launcher, events), sent, byPidfd, byPid, doomedBefore);
      k := Run(k, launcher, events);
    }

    /** A signal reaches a process. A SIGKILL must be in one of the two logs. */
    method Strike(pid: nat, sig: int)
      requires Valid() && pid in k.table
      requires sig == SIGKILL ==> (k.table[pid].uid, sig) in byPidfd || (k.table[pid].uid, sig) in byPid
      modifies this`k
      ensures Valid() && Later(old(k), k) && k == Struck(old(k), pid, sig)
    {
      StruckIsLater(k, pid, sig);
      UpdateKeepsContained(k, launcher, pid, k.table[pid].(doomed := true));
      forall s | s in sent ensures Honest(Struck(k, pid, sig), s) {
        HonestLater(k, Struck(k, pid, sig), s);
      }
      if sig == SIGKILL {
        k := k.(table := k.table[pid := k.table[pid].(doomed := true)]);
      }
    }

    /** A signal through a pidfd. */
    method HitPinned(pid: nat, sig: int)
      requires Valid() && pid in k.table
      modifies this`k, this`byPidfd
      ensures Valid() && Later(old(k), k) && k == Struck(old(k), pid, sig)
      ensures byPidfd == old(byPidfd) + [(old(k).table[pid].uid, sig)]
    {
      byPidfd := byPidfd + [(k.table[pid].uid, sig)];
      Strike(pid, sig);
    }

    /** A signal by pid. */
    method HitByPid(pid: nat, sig: int)
      requires Valid() && pid in k.table
      modifies this`k, this`byPid
      ensures Valid() && Later(old(k), k) && k == Struck(old(k), pid, sig)
      ensures byPid == old(byPid) + [(old(k).table[pid].uid, sig)]
    {
      byPid := byPid + [(k.table[pid].uid, sig)];
      Strike(pid, sig);
    }

    // -----------------------------------------------------------------------
    // signal_process_identity
    // -----------------------------------------------------------------------

    /** pidfd_send_signal, and the entry of the log. */
    method Send(pid: nat, sig: int)
      requires Valid() && SentTallied() && pid in k.table
      modifies this`k, this`sent, this`byPidfd
      ensures Valid() && SentTallied() && Later(old(k), k) && k == Struck(old(k), pid, sig)
      ensures sent == old(sent) + [Sent(pid, old(k).table[pid].start, sig, Delivered(old(k).table[pid].uid), clock)]
    {
      var s := Sent(pid, k.table[pid].start, sig, Delivered(k.table[pid].uid), clock);
      OneMoreSent(sent, s);
      OneMoreHonest(k, sent, s);
      sent := sent + [s];
      HitPinned(pid, sig);
    }

    method NotSent(s: Sent)
      requires Valid() && SentTallied() && !s.outcome.Delivered?
      modifies this`sent
      ensures Valid() && SentTallied() && sent == old(sent) + [s]
    {
      OneMoreSent(sent, s);
      OneMoreHonest(k, sent, s);
      sent := sent + [s];
    }

    /** The pidfd of pid, opened and then checked. Does it still refer to a process
        when the signal is sent? If so that is the recorded one; if not, the recorded
        one is gone. */
    method OpenVerified(pid: nat, start: nat) returns (there: bool)
      requires Valid()
      modifies this`k, this`clock, this`script, this`pending, this`arrived
      ensures Valid() && clock >= old(clock) && Later(old(k), k)
      ensures there ==> IsThere(k, pid, start)
      ensures !there && (pid, start) in old(k).born ==> !IsThere(k, pid, start)
    {
      LaterIsReflexive(k);
      if pid !in k.table {  // pidfd_open: ProcessLookupError
        return false;
      }
      ghost var k0 := k;
      var pidfd := k.table[pid].uid;
      Pause();
      if pid !in k.table || k.table[pid].start != start {  // proc_start_time
        return false;
      }
      ghost var k1 := k;
      Pause();
      LaterIsTransitive(k0, k1, k);
      PinnedSend(k0, k1, k, pid, start);
      return pid in k.table && k.table[pid].uid == pidfd;
    }

    /** One log entry; Valid and SentTallied make it honest, and the only signal sent. A
        recorded process gets the signal unless it is gone or may not be signalled, and
        a SIGKILL settles it. */
    method SignalIdentity(pid: nat, start: nat, sig: int) returns (ok: bool, ghost entry: Sent)
      requires Valid() && SentTallied()
      modifies this`k, this`clock, this`script, this`pending, this`arrived, this`sent, this`byPidfd
      ensures Valid() && SentTallied() && clock >= old(clock) && Later(old(k), k)
      ensures sent == old(sent) + [entry]
      ensures entry.pid == pid && entry.start == start && entry.sig == sig && (ok <==> entry.outcome.Delivered?)
      ensures old(clock) <= entry.at <= clock
      ensures (pid, start) in old(k).born ==> Due(k, entry)
      ensures entry.outcome.Refused? ==> IsThere(k, pid, start) && k.table[pid].foreign
      ensures sig == SIGKILL && (pid, start) in old(k).born ==> Settled(k, [entry], pid, start)
    {
      var there := OpenVerified(pid, start);
      if there {
        ok, entry := SendTo(pid, start, sig, old(k));
      } else {
        ok := false;
        entry := Sent(pid, start, sig, NoSuchProcess, clock);
        NotSent(Sent(pid, start, sig, NoSuchProcess, clock));
      }
    }

    /** pidfd_send_signal to a process that is still there. */
    method SendTo(pid: nat, start: nat, sig: int, ghost before: Kernel) returns (ok: bool, ghost entry: Sent)
      requires Valid() && SentTallied() && IsThere(k, pid, start) && Later(before, k)
      modifies this`k, this`sent, this`byPidfd
      ensures Valid() && SentTallied() && Later(before, k) && sent == old(sent) + [entry]
      ensures entry == Sent(pid, start, sig, if ok then Delivered(old(k).table[pid].uid) else Refused, clock)
      ensures ok <==> !old(k).table[pid].foreign
      ensures !ok ==> k == old(k)
      ensures sig == SIGKILL ==> Settled(k, [entry], pid, start)
    {
      ok := !k.table[pid].foreign;
      if ok {
        entry := Sent(pid, start, sig, Delivered(k.table[pid].uid), clock);
        ghost var k1 := k;
        Send(pid, sig);
        LaterIsTransitive(before, k1, k);
      } else {
        entry := Sent(pid, start, sig, Refused, clock);
        NotSent(Sent(pid, start, sig, Refused, clock));
      }
    }

    // -----------------------------------------------------------------------
    // Waiting and reaping
    // -----------------------------------------------------------------------

    /** list_descendants(os.getpid()), as one atomic snapshot. */
    method Walk() returns (found: map<nat, nat>)
      requires Valid()
      ensures found == Containment.Walk(k, launcher)
    {
      var s := ProcFs(k);
      var pids := PidsOf(k.table.Keys);
      ProcFsIsForest(k);
      forall p: nat ensures IsChildList(s, p, ChildrenIn(s, pids, p)) {
        ChildrenInIsChildList(s, pids, p);
      }
      var readable := hasChildrenFiles;
      found := ListDescendants(s, Ages(k), launcher, p => if readable then Some(ChildrenIn(s, pids, p)) else None, pids);
    }

    /** One of the pending signals waited for, if there is one, is received, in one tick. */
    method Receive(signals: set<nat>) returns (wake: Option<nat>)
      requires Valid()
      modifies this`clock, this`pending, this`received, this`waited
      ensures Valid() && received == old(received) + OneSignal(wake)
      ensures clock - waited == old(clock) - old(waited) && clock == old(clock) + |OneSignal(wake)|
      ensures wake.None? ==> pending == old(pending) && pending * signals == {}
      ensures wake.Some? ==> wake.value in old(pending) * signals && pending == old(pending) - {wake.value}
    {
      var ready := pending * signals;
      if ready == {} { return None; }
      var sig :| sig in ready;
      pending, received := pending - {sig}, received + {sig};
      clock, waited := clock + 1, waited + 1;
      return Some(sig);
    }

    /** The launcher waits. */
    method Tick(t: nat)
      requires Valid()
      modifies this`clock, this`waited
      ensures Valid() && clock == old(clock) + t && waited == old(waited) + t
    {
      clock, waited := clock + t, waited + t;
    }

    /** sigwaitinfo. Blocked means no such signal is ever going to arrive. */
    method WaitInfo(signals: set<nat>) returns (wake: Wake)
      requires Valid()
      modifies this`k, this`clock, this`script, this`pending, this`arrived, this`received, this`waited
      ensures Valid() && received == old(received) + Received(wake) && KeepsChildren(old(k), k, launcher)
      ensures |script| <= |old(script)| && (|script| == |old(script)| ==> pending == old(pending) - Received(wake))
      ensures wake.Got? ==> wake.sig in signals && clock > old(clock) && (|script| < |old(script)| || wake.sig in old(pending))
      ensures wake.Blocked? ==> script == [] && pending * signals == {}
      ensures !wake.TimedOut? && waited <= old(waited) + 1 && clock - waited >= old(clock) - old(waited)
      decreases |script|
    {
      var sig := Receive(signals);
      if sig.Some? {
        wake := Got(sig.value);
      } else if script == [] {
        wake := Blocked;
      } else {
        Pause();
        wake := WaitInfo(signals);
      }
    }

    /** sigtimedwait. A wait takes at least one tick. */
    method TimedWait(timeout: int, signals: set<nat>) returns (wake: Wake)
      requires Valid()
      modifies this`k, this`clock, this`script, this`pending, this`arrived, this`received, this`waited
      ensures Valid() && received == old(received) + Received(wake) && KeepsChildren(old(k), k, launcher)
      ensures |script| <= |old(script)| && (|script| == |old(script)| ==> pending == old(pending) - Received(wake))
      ensures wake.Got? ==> wake.sig in signals && clock > old(clock) && (|script| < |old(script)| || wake.sig in old(pending))
      ensures wake.TimedOut? ==> clock > old(clock) && clock >= old(clock) + timeout
      ensures !wake.Blocked? && waited <= old(waited) + 1 + AtLeast0(timeout) && clock - waited >= old(clock) - old(waited)
    {
      var sig := Receive(signals);
      if sig.Some? { return Got(sig.value); }
      wake := Sleep(timeout, signals);
    }

    /** No signal was pending: one comes, or the time passes. */
    method Sleep(timeout: int, signals: set<nat>) returns (wake: Wake)
      requires Valid()
      modifies this`k, this`clock, this`script, this`pending, this`arrived, this`received, this`waited
      ensures Valid() && received == old(received) + Received(wake) && KeepsChildren(old(k), k, launcher)
      ensures |script| <= |old(script)| && (|script| == |old(script)| ==> pending == old(pending) - Received(wake))
      ensures wake.Got? ==> wake.sig in signals && clock > old(clock) && (|script| < |old(script)| || wake.sig in old(pending))
      ensures wake.TimedOut? ==> clock > old(clock) && clock >= old(clock) + timeout
      ensures !wake.Blocked? && waited <= old(waited) + 1 + AtLeast0(timeout) && clock - waited >= old(clock) - old(waited)
    {
      Pause();
      var sig := Receive(signals);
      if sig.Some? { return Got(sig.value); }
      Tick(AtLeast0(timeout) + 1);
      return TimedOut;
    }

    /** _wait_for_signal */
    method Wait(timeout: Option<int>, signals: set<nat>) returns (wake: Wake)
      requires Valid()
      modifies this`k, this`clock, this`script, this`pending, this`arrived, this`received, this`waited
      ensures Valid() && received == old(received) + Received(wake) && KeepsChildren(old(k), k, launcher)
      ensures |script| <= |old(script)| && (|script| == |old(script)| ==> pending == old(pending) - Received(wake))
      ensures wake.Got? ==> wake.sig in signals && clock > old(clock) && (|script| < |old(script)| || wake.sig in old(pending))
      ensures wake.Blocked? ==> timeout.None? && script == [] && pending * signals == {}
      ensures waited <= old(waited) + 1 + (if timeout.Some? then AtLeast0(timeout.value) else 0)
      ensures clock - waited >= old(clock) - old(waited)
      ensures wake.TimedOut? ==> timeout.Some? && clock > old(clock) && clock >= old(clock) + timeout.value
    {
      if timeout.None? {
        wake := WaitInfo(signals);
      } else {
        wake := TimedWait(timeout.value, signals);
      }
    }

    /** Some exited child of the launcher, if there is one. */
    method ExitedChild() returns (p: Option<nat>)
      ensures p.Some? ==> p.value in k.table && k.table[p.value].ppid == launcher && k.table[p.value].run.Zombie?
      ensures p.None? ==> NoneExited(k, launcher)
    {
      if exists q :: q in k.table && k.table[q].ppid == launcher && k.table[q].run.Zombie? {
        var q :| q in k.table && k.table[q].ppid == launcher && k.table[q].run.Zombie?;
        return Some(q);
      }
      return None;
    }

    /** An exited child is dropped from the table and returned with its exit status;
        None when there is none. */
    method NextChild() returns (h: Option<Harvest>)
      requires Valid()
      modifies this`k
      ensures Valid()
      ensures h.None? ==> k == old(k) && NoneExited(k, launcher)
      ensures h.Some? ==> HasExited(old(k), launcher, h.value) && k == Without(old(k), h.value.pid) && |k.table| < |old(k).table|
    {
      var p := ExitedChild();
      if p.None? { return None; }
      h := Some(Harvest(p.value, k.table[p.value].uid, k.table[p.value].run.status));
      TakeChild(p.value);
    }

    /** What runs before the next waitpid of a sweep. */
    method BeforeWaitPid(ghost before: Kernel, ghost script0: seq<Burst>, ghost taken: seq<Harvest>)
      requires Valid() && Sweeping(before, launcher, script0, taken, k, script)
      modifies this`k, this`clock, this`script, this`pending, this`arrived
      ensures Valid() && clock >= old(clock) && Looking(before, launcher, script0, taken, k, script)
      ensures |script| < |old(script)| || (script == old(script) && pending == old(pending) && k == old(k))
    {
      Interleave();
    }

    /** waitpid(-1, WNOHANG). before, script0 and taken are the sweep so far. */
    method WaitPid(ghost before: Kernel, ghost script0: seq<Burst>, ghost taken: seq<Harvest>) returns (h: Option<Harvest>)
      requires Valid() && Sweeping(before, launcher, script0, taken, k, script)
      modifies this`k, this`clock, this`script, this`pending, this`arrived
      ensures Valid() && clock >= old(clock)
      ensures |script| < |old(script)| || (script == old(script) && pending == old(pending))
      ensures h.None? ==> Looking(before, launcher, script0, taken, k, script) && NoneExited(k, launcher)
      ensures h.Some? ==> Sweeping(before, launcher, script0, taken + [h.value], k, script)
      ensures h.Some? ==> |script| < |old(script)| || |k.table| < |old(k).table|
    {
      BeforeWaitPid(before, script0, taken);
      ghost var seen := k;
      h := NextChild();
      if h.Some? {
        TakeNext(before, launcher, script0, taken, h.value, seen, script);
      }
    }

    /** The kernel drops the table entry waitpid returned. */
    method TakeChild(p: nat)
      requires Valid() && p in k.table && k.table[p].ppid == launcher && k.table[p].run.Zombie?
      modifies this`k
      ensures Valid() && k == Without(old(k), p) && |k.table| < |old(k).table|
    {
      WithoutKeepsContained(k, launcher, p);
      OneLess(k, p);
      WithoutLasts(k, p);
      LogsLater(k, Without(k, p), sent, byPidfd, byPid, doomedBefore);
      k := Without(k, p);
    }

    /** _reap_children: waitpid until no exited child is left. */
    method ReapChildren(cli: int) returns (status: Option<int>, ghost taken: seq<Harvest>)
      requires Valid()
      modifies this`k, this`clock, this`script, this`pending, this`arrived
      ensures Valid() && clock >= old(clock)
      ensures script == Drop(old(script), |taken| + 1)
      ensures |script| < |old(script)| || (script == old(script) && pending == old(pending))
      ensures status == LastStatus(taken, cli)
      ensures IsSweep(old(k), launcher, old(script), taken) && k == Seen(old(k), launcher, old(script), taken)
    {
      status := None;
      taken := [];
      ghost var k0, script0, pending0 := k, script, pending;
      var more := true;
      while more
        invariant Valid() && clock >= old(clock)
        invariant |script| < |script0| || (script == script0 && pending == pending0)
        invariant status == LastStatus(taken, cli)
        invariant if more then Sweeping(k0, launcher, script0, taken, k, script)
                  else Looking(k0, launcher, script0, taken, k, script) && NoneExited(k, launcher)
        decreases more, |script|, |k.table|
      {
        more, status, taken := ReapOne(cli, status, k0, script0, taken);
      }
    }

    /** One turn of the loop; more: waitpid returned a child. */
    method ReapOne(cli: int, status: Option<int>, ghost before: Kernel, ghost script0: seq<Burst>, ghost taken: seq<Harvest>)
      returns (more: bool, next: Option<int>, ghost all: seq<Harvest>)
      requires Valid() && Sweeping(before, launcher, script0, taken, k, script) && status == LastStatus(taken, cli)
      modifies this`k, this`clock, this`script, this`pending, this`arrived
      ensures Valid() && clock >= old(clock) && next == LastStatus(all, cli)
      ensures |script| < |old(script)| || (script == old(script) && pending == old(pending))
      ensures !more ==> Looking(before, launcher, script0, all, k, script) && NoneExited(k, launcher)
      ensures more ==> Sweeping(before, launcher, script0, all, k, script)
      ensures more ==> |script| < |old(script)| || |k.table| < |old(k).table|
    {
      next, all := status, taken;
      var h := WaitPid(before, script0, taken);
      more := h.Some?;
      if more {
        LastStatusOneMore(taken, h.value, cli);
        all := taken + [h.value];
        if h.value.pid == cli {
          next := Some(h.value.status);
        }
      }
    }

    // -----------------------------------------------------------------------
    // _supervise_cli
    // -----------------------------------------------------------------------

    /** os.kill of the CLI, which nobody but the launcher can reap. */
    method KillCli(cli: nat, ghost uid: nat, sig: int)
      requires Valid() && CliTallied() && ChildOf(k, launcher, cli, uid)
      modifies this`k, this`cliLog, this`byPid
      ensures Valid() && CliTallied() && ChildOf(k, launcher, cli, uid) && k == Struck(old(k), cli, sig)
      ensures sig == SIGKILL ==> k.table[cli].doomed
      ensures cliLog == old(cliLog) + [CliSignal(sig, uid, clock)]
    {
      OneMoreHit(cliLog, CliSignal(sig, uid, clock));
      cliLog := cliLog + [CliSignal(sig, k.table[cli].uid, clock)];
      HitByPid(cli, sig);
    }

    /** _reap_children(cli_pid), and what it means for the CLI. */
    method ReapCli(cli: nat, ghost uid: nat) returns (status: Option<int>, ghost sweep: Sweep)
      requires Valid() && ChildOf(k, launcher, cli, uid)
      modifies this`k, this`clock, this`script, this`pending, this`arrived
      ensures Valid() && |script| <= |old(script)| && (|script| == |old(script)| ==> pending == old(pending))
      ensures sweep.before == old(k) && sweep.script == old(script)
      ensures status.Some? ==> TookCli(sweep, launcher, cli, uid, status.value) && k == Seen(sweep.before, launcher, sweep.script, sweep.taken)
      ensures status.None? ==> ChildOf(k, launcher, cli, uid)
    {
      ghost var taken;
      status, taken := ReapChildren(cli);
      sweep := Sweep(old(k), old(script), taken);
      if status.None? {
        CliIsStillThere(sweep, launcher, cli, uid);
      }
    }

    /** One answer to _wait_for_signal. */
    method React(cli: nat, ghost uid: nat, grace: nat, wake: Wake, killDeadline: Option<int>) returns (next: Option<int>)
      requires Valid() && CliTallied() && ChildOf(k, launcher, cli, uid) && !wake.Blocked?
      modifies this`k, this`cliLog, this`byPid
      ensures Valid() && CliTallied() && ChildOf(k, launcher, cli, uid)
      ensures Answer(cliLog, next) == OneAnswer(Answer(old(cliLog), killDeadline), Woken(wake, clock), uid, grace)
      ensures wake.TimedOut? ==> k.table[cli].doomed && next.None?
      ensures wake.Got? && IsTermination(wake.sig) && killDeadline.None? ==>
                next == Some(clock + grace) && cliLog == old(cliLog) + [CliSignal(wake.sig, uid, clock)]
    {
      next := killDeadline;
      if wake.TimedOut? {
        KillCli(cli, uid, SIGKILL);
        next := None;
      } else if IsTermination(wake.sig) && killDeadline.None? {
        KillCli(cli, uid, wake.sig);
        next := Some(clock + grace);
      }
    }

    /** The loop body after the reaping. blocked: nothing is ever going to wake it.
        wakes: the waits so far and, with all, this one. */
    method AwaitAndReact(cli: nat, ghost uid: nat, grace: nat, killDeadline: Option<int>, ghost wakes: seq<Woken>, ghost base: set<nat>)
      returns (blocked: bool, next: Option<int>, ghost all: seq<Woken>)
      requires Valid() && CliTallied() && ChildOf(k, launcher, cli, uid)
      requires AllInTime(wakes, uid, grace) && Answer(cliLog, killDeadline) == Answered(wakes, uid, grace)
      requires received == base + AllReceived(wakes)
      modifies this`k, this`clock, this`script, this`pending, this`arrived, this`received, this`waited, this`cliLog, this`byPid
      ensures Valid() && CliTallied() && ChildOf(k, launcher, cli, uid)
      ensures AllInTime(all, uid, grace) && Answer(cliLog, next) == Answered(all, uid, grace)
      ensures |all| == |wakes| + 1 && all[..|wakes|] == wakes && received == base + AllReceived(all)
      ensures blocked ==> script == [] && pending * WAITED == {} && next.None?
      ensures waited <= old(waited) + 1 + (if killDeadline.Some? then AtLeast0(killDeadline.value - old(clock)) else 0)
      ensures blocked || LessToDo(old(script), old(pending), killDeadline, script, pending, next)
    {
      var timeout := if killDeadline.Some? then Some(killDeadline.value - clock) else None;
      var wake := Wait(timeout, WAITED);
      all := wakes + [Woken(wake, clock)];
      OneMoreWake(wakes, Woken(wake, clock), uid, grace);
      OneMoreReceived(wakes, all, base, old(received), received);
      next := killDeadline;
      blocked := wake.Blocked?;
      if !blocked {
        next := React(cli, uid, grace, wake, killDeadline);
        LessAfterWait(old(script), old(pending), killDeadline, script, pending, next, wake);
      }
    }

    /** The CLI's raw wait status, or None while the launcher still waits for it. Every
        signal received was answered. None only when nothing is ever going to happen: the
        script is over, no signal waited for is pending and no kill is due. */
    method SuperviseCli(cli: nat, ghost uid: nat, grace: nat) returns (status: Option<int>, ghost sweep: Sweep, ghost wakes: seq<Woken>)
      requires Valid() && CliTallied() && ChildOf(k, launcher, cli, uid) && cliLog == []
      modifies this`k, this`clock, this`script, this`pending, this`arrived, this`received, this`waited, this`cliLog, this`byPid
      ensures Valid() && CliTallied()
      ensures status.Some? ==> Ended(sweep, launcher, cli, uid, status.value) && k == Seen(sweep.before, launcher, sweep.script, sweep.taken)
      ensures status.None? ==> ChildOf(k, launcher, cli, uid) && script == [] && pending * WAITED == {}
      ensures status.None? ==> Answered(wakes, uid, grace).deadline.None?
      ensures received == old(received) + AllReceived(wakes)
      ensures AllInTime(wakes, uid, grace) && cliLog == Answered(wakes, uid, grace).log
      ensures Alternates(cliLog, grace) && AllHit(cliLog, uid)
    {
      status, sweep, wakes := SuperviseLoop(cli, uid, grace);
      AnswersAlternate(wakes, uid, grace);
      if status.Some? {
        SweepEnded(sweep, launcher, cli, uid, status.value);
      }
    }

    method SuperviseLoop(cli: nat, ghost uid: nat, grace: nat) returns (status: Option<int>, ghost sweep: Sweep, ghost wakes: seq<Woken>)
      requires Valid() && CliTallied() && ChildOf(k, launcher, cli, uid) && cliLog == []
      modifies this`k, this`clock, this`script, this`pending, this`arrived, this`received, this`waited, this`cliLog, this`byPid
      ensures Valid() && CliTallied()
      ensures status.Some? ==> TookCli(sweep, launcher, cli, uid, status.value) && k == Seen(sweep.before, launcher, sweep.script, sweep.taken)
      ensures status.None? ==> ChildOf(k, launcher, cli, uid) && script == [] && pending * WAITED == {}
      ensures status.None? ==> Answered(wakes, uid, grace).deadline.None?
      ensures received == old(received) + AllReceived(wakes)
      ensures AllInTime(wakes, uid, grace) && cliLog == Answered(wakes, uid, grace).log
    {
      var killDeadline: Option<int> := None;
      wakes := [];
      while true
        invariant Valid() && CliTallied() && ChildOf(k, launcher, cli, uid)
        invariant received == old(received) + AllReceived(wakes)
        invariant AllInTime(wakes, uid, grace) && Answer(cliLog, killDeadline) == Answered(wakes, uid, grace)
        decreases |script|, pending, if killDeadline.Some? then 1 else 0
      {
        status, sweep := ReapCli(cli, uid);
        if status.Some? { return; }
        var blocked;
        blocked, killDeadline, wakes := AwaitAndReact(cli, uid, grace, killDeadline, wakes, old(received));
        if blocked { return; }
      }
    }

    // -----------------------------------------------------------------------
    // terminate_descendants
    // -----------------------------------------------------------------------

    /** Reaping and a walk. */
    method NoneLeft() returns (none: bool)
      requires Valid()
      modifies this`k, this`clock, this`script, this`pending, this`arrived
      ensures Valid() && clock >= old(clock)
      ensures none <==> Containment.Walk(k, launcher) == map[]
    {
      var _, _ := ReapChildren(-1);
      var found := Walk();
      return found == map[];
    }

    /** _wait_for_no_descendants. The launcher's own waiting ends with the timeout, and it
        takes no signal but SIGCHLD. */
    method WaitForNoDescendants(timeout: int) returns (none: bool)
      requires Valid()
      modifies this`k, this`clock, this`script, this`pending, this`arrived, this`received, this`waited
      ensures Valid() && clock >= old(clock)
      ensures none ==> Containment.Walk(k, launcher) == map[]
      ensures !none ==> clock >= old(clock) + timeout
      ensures waited <= old(waited) + Waiting(timeout) && clock - waited >= old(clock) - old(waited)
      ensures received <= old(received) + {SIGCHLD}
    {
      var deadline := clock + timeout;
      while true
        invariant Valid() && clock >= old(clock) && deadline == old(clock) + timeout
        invariant waited + Waiting(deadline - clock) <= old(waited) + Waiting(timeout) && clock - waited >= old(clock) - old(waited)
        invariant received <= old(received) + {SIGCHLD}
        decreases deadline - clock
      {
        none := NoneLeft();
        if none { return; }
        if clock >= deadline { return false; }
        Poll(deadline);
      }
    }

    /** One wait of it. */
    method Poll(deadline: int)
      requires Valid() && clock < deadline
      modifies this`k, this`clock, this`script, this`pending, this`arrived, this`received, this`waited
      ensures Valid() && clock > old(clock) && clock - waited >= old(clock) - old(waited)
      ensures waited + Waiting(deadline - clock) <= old(waited) + Waiting(deadline - old(clock)) && received <= old(received) + {SIGCHLD}
    {
      var remaining := deadline - clock;
      var _ := Wait(Some(if remaining < POLL then remaining else POLL), {SIGCHLD});
    }

    /** Every recorded target gets the signal, in any order. */
    method SignalAll(targets: map<nat, nat>, sig: int) returns (ghost log: seq<Sent>)
      requires Valid() && SentTallied() && Recorded(k, targets)
      modifies this`k, this`clock, this`script, this`pending, this`arrived, this`sent, this`byPidfd
      ensures Valid() && SentTallied() && clock >= old(clock) && Later(old(k), k)
      ensures sent == old(sent) + log && AllSent(k, log, targets, {}, sig) && OnlyTargets(k, log, targets, sig, old(clock))
    {
      var todo := targets.Keys;
      log := [];
      LaterIsReflexive(k);
      while todo != {}
        invariant Valid() && SentTallied() && Recorded(k, targets) && clock >= old(clock) && Later(old(k), k) && sent == old(sent) + log
        invariant todo <= targets.Keys && AllSent(k, log, targets, todo, sig) && OnlyTargets(k, log, targets, sig, old(clock))
        decreases todo
      {
        var p :| p in todo;
        ghost var k1 := k;
        log := SignalNext(p, targets, sig, old(clock), old(sent), log, todo);
        LaterIsTransitive(old(k), k1, k);
        todo := todo - {p};
      }
    }

    method SignalNext(p: nat, targets: map<nat, nat>, sig: int, ghost from: int, ghost base: seq<Sent>, ghost log: seq<Sent>, ghost todo: set<nat>)
      returns (ghost log': seq<Sent>)
      requires Valid() && SentTallied() && Recorded(k, targets) && p in targets && sent == base + log
      requires AllSent(k, log, targets, todo, sig) && OnlyTargets(k, log, targets, sig, from) && from <= clock
      modifies this`k, this`clock, this`script, this`pending, this`arrived, this`sent, this`byPidfd
      ensures Valid() && SentTallied() && Recorded(k, targets) && clock >= old(clock) && Later(old(k), k)
      ensures sent == base + log'
      ensures AllSent(k, log', targets, todo - {p}, sig) && OnlyTargets(k, log', targets, sig, from)
    {
      var _, s := SignalIdentity(p, targets[p], sig);
      RecordedLater(old(k), k, targets);
      OnlyTargetsGrows(old(k), k, log, s, targets, sig, from);
      AllSentGrows(old(k), k, log, s, targets, todo, sig);
      log' := log + [s];
    }

    /** One walk and the signal for everything in it. */
    method WalkAndSignal(sig: int) returns (targets: map<nat, nat>, ghost round: Round)
      requires Valid() && SentTallied()
      modifies this`k, this`clock, this`script, this`pending, this`arrived, this`sent, this`byPidfd
      ensures Valid() && SentTallied() && clock >= old(clock) && Later(old(k), k)
      ensures round.walked == old(k) && round.at == old(clock) && round.after == k && sent == old(sent) + round.log
      ensures targets == Containment.Walk(old(k), launcher) == round.targets && RoundOf(round, launcher, sig)
      ensures targets == map[] ==> k == old(k) && round.log == []
    {
      targets := Walk();
      ghost var log := [];
      LaterIsReflexive(k);
      if targets != map[] {
        WalkIsRecorded(k, launcher);
        log := SignalAll(targets, sig);
      }
      round := Round(old(k), targets, old(clock), log, k);
    }

    /** SIGTERM for all descendants, the grace period, then rounds of SIGKILL. True only
        on an empty walk; on False survivors are those of the last round. */
    method TerminateDescendants(grace: int, killTimeout: int)
      returns (ok: bool, survivors: map<nat, nat>, ghost c: Cleanup)
      requires Valid() && SentTallied()
      modifies this`k, this`clock, this`script, this`pending, this`arrived, this`received, this`waited, this`sent, this`byPidfd
      ensures Valid() && SentTallied()
      ensures c.first.walked == old(k) && c.first.at == old(clock) && CleanupOf(c, launcher, grace)
      ensures sent == old(sent) + SentBy(c)
      ensures Containment.Walk(old(k), launcher) == map[] ==> ok && c.rounds == [] && k == old(k)
      ensures ok ==> Containment.Walk(k, launcher) == map[]
      ensures !ok ==> GivenUp(c, killTimeout, survivors, k, clock)
      ensures waited <= old(waited) + Waiting(grace) + Waiting(killTimeout) && received <= old(received) + {SIGCHLD}
    {
      ok, c := TermRound(grace);
      survivors := map[];
      if !ok {
        ok, survivors, c := KillRounds(killTimeout, grace, c, old(sent));
      }
    }

    /** SIGTERM and the grace period. */
    method TermRound(grace: int) returns (ok: bool, ghost c: Cleanup)
      requires Valid() && SentTallied()
      modifies this`k, this`clock, this`script, this`pending, this`arrived, this`received, this`waited, this`sent, this`byPidfd
      ensures Valid() && SentTallied() && CleanupOf(c, launcher, grace) && sent == old(sent) + SentBy(c)
      ensures c.first.walked == old(k) && c.first.at == old(clock) && c.rounds == []
      ensures Containment.Walk(old(k), launcher) == map[] ==> ok && k == old(k)
      ensures if ok then Containment.Walk(k, launcher) == map[] else clock >= old(clock) + grace
      ensures waited <= old(waited) + Waiting(grace) && received <= old(received) + {SIGCHLD}
    {
      ok, c := TermOnce(grace);
      if !ok {
        ok := WaitForNoDescendants(grace);
      }
    }

    /** SIGTERM for what one walk lists. */
    method TermOnce(ghost grace: int) returns (none: bool, ghost c: Cleanup)
      requires Valid() && SentTallied()
      modifies this`k, this`clock, this`script, this`pending, this`arrived, this`sent, this`byPidfd
      ensures Valid() && SentTallied() && clock >= old(clock) && CleanupOf(c, launcher, grace) && sent == old(sent) + SentBy(c)
      ensures c.first.walked == old(k) && c.first.at == old(clock) && c.rounds == []
      ensures (none <==> Containment.Walk(old(k), launcher) == map[]) && (none ==> k == old(k))
    {
      var targets;
      ghost var first;
      targets, first := WalkAndSignal(SIGTERM);
      FirstRound(first, launcher, grace);
      c := Cleanup(first, []);
      none := targets == map[];
    }

    /** Rounds of SIGKILL until a walk is empty or the timeout has passed. */
    method KillRounds(killTimeout: int, ghost grace: int, ghost before: Cleanup, ghost base: seq<Sent>)
      returns (ok: bool, survivors: map<nat, nat>, ghost c: Cleanup)
      requires Valid() && SentTallied() && CleanupOf(before, launcher, grace) && before.rounds == []
      requires clock >= before.first.at + grace && sent == base + SentBy(before)
      modifies this`k, this`clock, this`script, this`pending, this`arrived, this`received, this`waited, this`sent, this`byPidfd
      ensures Valid() && SentTallied()
      ensures c.first == before.first && CleanupOf(c, launcher, grace) && sent == base + SentBy(c)
      ensures ok ==> Containment.Walk(k, launcher) == map[]
      ensures !ok ==> GivenUp(c, killTimeout, survivors, k, clock)
      ensures waited <= old(waited) + Waiting(killTimeout) && received <= old(received) + {SIGCHLD}
    {
      c, ok, survivors := before, false, map[];
      var deadline, done := clock + killTimeout, false;
      while !done
        invariant Valid() && SentTallied() && deadline == old(clock) + killTimeout
        invariant c.first == before.first && CleanupOf(c, launcher, grace) && sent == base + SentBy(c)
        invariant clock >= old(clock) && if c.rounds == [] then !done && clock == old(clock) else c.rounds[0].at == old(clock)
        invariant waited + Waiting(deadline - clock) <= old(waited) + Waiting(killTimeout) && received <= old(received) + {SIGCHLD}
        invariant done ==> if ok then Containment.Walk(k, launcher) == map[] else GivenUp(c, killTimeout, survivors, k, clock)
        decreases !done, deadline - clock
      {
        done, ok, survivors, c := KillTurn(deadline, grace, c, base);
      }
    }

    /** A round of SIGKILL, with a fresh walk. */
    method KillOnce(ghost grace: int, ghost before: Cleanup, ghost base: seq<Sent>)
      returns (survivors: map<nat, nat>, ghost c: Cleanup)
      requires Valid() && SentTallied() && CleanupOf(before, launcher, grace)
      requires clock >= before.first.at + grace && sent == base + SentBy(before)
      modifies this`k, this`clock, this`script, this`pending, this`arrived, this`sent, this`byPidfd
      ensures Valid() && SentTallied() && clock >= old(clock)
      ensures CleanupOf(c, launcher, grace) && sent == base + SentBy(c)
      ensures c.first == before.first && c.rounds != []
      ensures c.rounds[0].at == if before.rounds == [] then old(clock) else before.rounds[0].at
      ensures StoppedAt(c, survivors, k)
      ensures survivors == map[] ==> Containment.Walk(k, launcher) == map[]
    {
      ghost var round;
      survivors, round := WalkAndSignal(SIGKILL);
      CleanupGrows(before, round, launcher, grace, base);
      c := More(before, round);
    }

    /** A round and what follows it; done: the loop returns ok. */
    method KillTurn(deadline: int, ghost grace: int, ghost before: Cleanup, ghost base: seq<Sent>)
      returns (done: bool, ok: bool, survivors: map<nat, nat>, ghost c: Cleanup)
      requires Valid() && SentTallied() && CleanupOf(before, launcher, grace)
      requires clock >= before.first.at + grace && sent == base + SentBy(before)
      modifies this`k, this`clock, this`script, this`pending, this`arrived, this`received, this`waited, this`sent, this`byPidfd
      ensures Valid() && SentTallied() && clock >= old(clock)
      ensures CleanupOf(c, launcher, grace) && sent == base + SentBy(c)
      ensures c.first == before.first && c.rounds != []
      ensures c.rounds[0].at == if before.rounds == [] then old(clock) else before.rounds[0].at
      ensures waited + Waiting(deadline - clock) <= old(waited) + Waiting(deadline - old(clock)) && received <= old(received) + {SIGCHLD}
      ensures ok ==> Containment.Walk(k, launcher) == map[]
      ensures done && !ok ==> clock >= deadline && survivors != map[] && StoppedAt(c, survivors, k)
      ensures !done ==> old(clock) < clock && old(clock) < deadline
    {
      survivors, c := KillOnce(grace, before, base);
      done, ok := Rest(deadline, survivors);
    }

    /** After a round: True on an empty walk, False at the deadline, or the next round. */
    method Rest(deadline: int, targets: map<nat, nat>) returns (done: bool, ok: bool)
      requires Valid() && SentTallied() && (targets == map[] ==> Containment.Walk(k, launcher) == map[])
      modifies this`k, this`clock, this`script, this`pending, this`arrived, this`received, this`waited
      ensures Valid() && SentTallied() && clock >= old(clock)
      ensures waited + Waiting(deadline - clock) <= old(waited) + Waiting(deadline - old(clock)) && received <= old(received) + {SIGCHLD}
      ensures ok ==> Containment.Walk(k, launcher) == map[]
      ensures done && !ok ==> targets != map[] && clock >= deadline && k == old(k)
      ensures !done ==> old(clock) < clock && old(clock) < deadline
    {
      ok := targets == map[];
      done := ok || clock >= deadline;
      if !done {
        var remaining := deadline - clock;
        ok := WaitForNoDescendants(if remaining < POLL then remaining else POLL);
        done := ok;
      }
    }

    /** The sweep at the end. After a True one no continuation of the system holds
        anything alive that the CLI started. */
    method SweepUp(grace: int) returns (swept: bool, survivors: map<nat, nat>, ghost c: Cleanup)
      requires Valid() && SentTallied() && CliTallied()
      modifies this`k, this`clock, this`script, this`pending, this`arrived, this`received, this`waited, this`sent, this`byPidfd
      ensures Valid() && SentTallied() && CliTallied()
      ensures c.first.walked == old(k) && CleanupOf(c, launcher, grace) && sent == old(sent) + SentBy(c)
      ensures !swept ==> GivenUp(c, KILL_PHASE_TIMEOUT, survivors, k, clock)
      ensures swept ==> QuietForGood(k, launcher)
      ensures waited <= old(waited) + Waiting(grace) + Waiting(KILL_PHASE_TIMEOUT) && received <= old(received) + {SIGCHLD}
    {
      swept, survivors, c := TerminateDescendants(grace, KILL_PHASE_TIMEOUT);
      if swept {
        forall events: seq<Event> ensures Quiet(Run(k, launcher, events)) {
          EmptyWalkIsFinal(k, launcher, events);
        }
      }
    }

    /** _supervise_cli, and what the rest of main() relies on. */
    method Outcome(cli: nat, ghost uid: nat, grace: nat) returns (status: Option<int>, ghost sweep: Sweep)
      requires Valid() && SentTallied() && CliTallied() && ChildOf(k, launcher, cli, uid) && cliLog == []
      modifies this`k, this`clock, this`script, this`pending, this`arrived, this`received, this`waited, this`cliLog, this`byPid
      ensures Valid() && SentTallied() && CliTallied() && Alternates(cliLog, grace) && AllHit(cliLog, uid)
      ensures status.None? ==> ChildOf(k, launcher, cli, uid) && script == [] && pending * WAITED == {}
      ensures status.Some? ==> Ended(sweep, launcher, cli, uid, status.value) && k == Seen(sweep.before, launcher, sweep.script, sweep.taken)
    {
      ghost var wakes;
      status, sweep, wakes := SuperviseCli(cli, uid, grace);
    }

    /** main() after the spawn: supervise the CLI, then sweep. Without a status nothing
        is ever going to happen, and nothing was swept. */
    method RunToTheEnd(cli: nat, ghost uid: nat, grace: nat)
      returns (status: Option<int>, swept: bool, survivors: map<nat, nat>, ghost sweep: Sweep, ghost c: Cleanup)
      requires Valid() && SentTallied() && CliTallied() && ChildOf(k, launcher, cli, uid) && cliLog == []
      modifies this`k, this`clock, this`script, this`pending, this`arrived, this`received, this`waited, this`sent, this`cliLog, this`byPidfd, this`byPid
      ensures Valid() && SentTallied() && CliTallied() && Alternates(cliLog, grace) && AllHit(cliLog, uid)
      ensures status.None? ==> ChildOf(k, launcher, cli, uid) && script == [] && pending * WAITED == {} && sent == old(sent)
      ensures status.Some? ==> Ended(sweep, launcher, cli, uid, status.value)
      ensures status.Some? ==> c.first.walked == Seen(sweep.before, launcher, sweep.script, sweep.taken)
      ensures status.Some? ==> CleanupOf(c, launcher, grace) && sent == old(sent) + SentBy(c)
      ensures status.Some? && !swept ==> GivenUp(c, KILL_PHASE_TIMEOUT, survivors, k, clock)
      ensures status.Some? && swept ==> QuietForGood(k, launcher)
    {
      status, sweep := Outcome(cli, uid, grace);
      swept, survivors := false, map[];
      c := Cleanup(Round(k, map[], clock, [], k), []);
      if status.Some? {
        swept, survivors, c := SweepUp(grace);
      }
    }
  }

  /** Whatever happens from here on, nothing the CLI started is alive. */
  ghost predicate QuietForGood(k: Kernel, launcher: nat) {
    Wf(k) && forall events :: Quiet(Run(k, launcher, events))
  }

  /** The reaper at work on the script that uses the CLI's pid twice: the CLI exited
      with 0, and the status returned is 9. */
  method AWrongStatus() returns (status: Option<int>, ghost taken: seq<Harvest>)
    ensures status == Some(9) && |taken| == 3 && taken[0] == Harvest(11, 1, 0)
  {
    CliDoneIsWf();
    var host := new Host(10, true, CliDone(), RebirthScript());
    status, taken := host.ReapChildren(11);
    RecycledPidTakesTheStatus(taken);
  }

  lemma RunLasts(k: Kernel, launcher: nat, events: seq<Event>)
    requires Wf(k)
    ensures Later(k, Run(k, launcher, events)) && KeepsChildren(k, Run(k, launcher, events), launcher)
  {
    RunIsLater(k, launcher, events);
    forall p, u | ChildOf(k, launcher, p, u) ensures ChildOf(Run(k, launcher, events), launcher, p, u) {
      ChildStays(k, launcher, events, p);
    }
  }

  /** A sweep that began with before and script0 and has returned taken stands at k
      and script. */
  ghost predicate Sweeping(before: Kernel, launcher: nat, script0: seq<Burst>, taken: seq<Harvest>, k: Kernel, script: seq<Burst>) {
    && Wf(before) && Taking(before, launcher, script0, taken)
    && k == After(before, launcher, script0, taken) && script == Drop(script0, |taken|)
  }

  /** The same when the next waitpid looks at the table. */
  ghost predicate Looking(before: Kernel, launcher: nat, script0: seq<Burst>, taken: seq<Harvest>, k: Kernel, script: seq<Burst>) {
    && Wf(before) && Taking(before, launcher, script0, taken)
    && k == Seen(before, launcher, script0, taken) && script == Drop(script0, |taken| + 1)
  }

  lemma TakeNext(before: Kernel, launcher: nat, script0: seq<Burst>, taken: seq<Harvest>, h: Harvest, k: Kernel, script: seq<Burst>)
    requires Looking(before, launcher, script0, taken, k, script) && HasExited(k, launcher, h)
    ensures Sweeping(before, launcher, script0, taken + [h], Without(k, h.pid), script)
  {
    TakeOne(before, launcher, script0, taken, h);
  }

  lemma WithoutLasts(k: Kernel, p: nat)
    ensures Later(k, Without(k, p)) && NoNewDoom(k, Without(k, p))
  {
  }

  lemma OneMoreReceived(wakes: seq<Woken>, all: seq<Woken>, base: set<nat>, before: set<nat>, after: set<nat>)
    requires |all| == |wakes| + 1 && all[..|wakes|] == wakes
    requires before == base + AllReceived(wakes) && after == before + Received(all[|wakes|].wake)
    ensures after == base + AllReceived(all)
  {
  }

  /** What a wait that ends leaves to do is less: fewer bursts, fewer pending signals,
      or no deadline any more. */
  ghost predicate LessToDo(s: seq<Burst>, p: set<nat>, d: Option<int>, s': seq<Burst>, p': set<nat>, d': Option<int>) {
    |s'| < |s| || (|s'| == |s| && p' < p) || (|s'| == |s| && p' == p && d.Some? && d'.None?)
  }

  lemma LessAfterWait(s: seq<Burst>, p: set<nat>, d: Option<int>, s': seq<Burst>, p': set<nat>, d': Option<int>, wake: Wake)
    requires |s'| <= |s| && (|s'| == |s| ==> p' == p - Received(wake)) && !wake.Blocked?
    requires wake.Got? ==> |s'| < |s| || wake.sig in p
    requires wake.TimedOut? ==> d.Some? && d'.None?
    ensures LessToDo(s, p, d, s', p', d')
  {
    if wake.Got? && |s'| == |s| {
      assert wake.sig in p && wake.sig !in p';
    }
  }

  lemma LaterIsReflexive(k: Kernel)
    ensures Later(k, k)
  {
  }

  lemma {:induction false} FirstUnder(h: seq<Harvest>, pid: nat) returns (j: nat)
    requires LastStatus(h, pid).Some?
    ensures j < |h| && h[j].pid == pid && forall i :: 0 <= i < j ==> h[i].pid != pid
    decreases |h|
  {
    j := |h| - 1;
    var init := h[..|h| - 1];
    if LastStatus(init, pid).Some? {
      j := FirstUnder(init, pid);
    } else {
      NoneIffAbsent(init, pid);
    }
  }

  lemma SweepEnded(s: Sweep, launcher: nat, cli: nat, uid: nat, status: int)
    requires TookCli(s, launcher, cli, uid, status)
    ensures Ended(s, launcher, cli, uid, status)
  {
    var j := FirstUnder(s.taken, cli);
    FirstHarvestIsTheCli(s.before, launcher, s.script, s.taken, cli, uid, j);
    assert TakenAt(s.taken, j, cli, uid);
    forall j: nat | TakenAt(s.taken, j, cli, uid) && NotReborn(s.script, j + 1, |s.taken|, cli)
      ensures status == s.taken[j].status
    {
      OwnStatusUnlessReborn(s.before, launcher, s.script, s.taken, j);
    }
    if Spent(s.before) {
      SpentIsSafe(s.before, launcher, cli, uid);
    }
  }

  lemma CliIsStillThere(s: Sweep, launcher: nat, cli: nat, uid: nat)
    requires Contained(s.before, launcher) && ChildOf(s.before, launcher, cli, uid)
    requires IsSweep(s.before, launcher, s.script, s.taken) && LastStatus(s.taken, cli).None?
    ensures ChildOf(Seen(s.before, launcher, s.script, s.taken), launcher, cli, uid)
  {
    NoneIffAbsent(s.taken, cli);
    ChildDuringSweep(s.before, launcher, s.script, s.taken, cli);
  }
}
