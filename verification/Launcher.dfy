// equipa/agent_launcher.py: identity-pinned signals, reaping, the supervision of
// the CLI and the sweep of everything it started.

/** The launcher's system calls and loops, with the rest of the system running in between. */
module Launcher {
  import opened ProcessKernel
  import opened TreeWalk
  import opened Containment
  import opened Wrappers

  const SIGHUP: nat := 1
  const SIGINT: nat := 2
  const SIGKILL: nat := 9
  const SIGTERM: nat := 15
  const SIGCHLD: nat := 17

  predicate IsTermination(sig: int) {
    sig == SIGTERM || sig == SIGINT || sig == SIGHUP
  }

  /** The blocked signals the launcher waits for. */
  const WAITED: set<nat> := {SIGTERM, SIGINT, SIGHUP, SIGCHLD}

  /** Milliseconds. */
  const POLL := 50
  const KILL_PHASE_TIMEOUT := 2000

  datatype Wake = Blocked | TimedOut | Got(sig: nat)

  datatype Outcome = Delivered(uid: nat) | NoSuchProcess | Refused

  /** One call of signal_process_identity, and when it was done. */
  datatype Sent = Sent(pid: nat, start: nat, sig: int, outcome: Outcome, at: int)

  /** One os.kill of the CLI: the process hit, and when. */
  datatype CliSignal = CliSignal(sig: int, hit: nat, at: int)

  // -------------------------------------------------------------------------
  // What the logs say
  // -------------------------------------------------------------------------

  /** A delivered signal reached the process that was born as (pid, start). */
  ghost predicate Honest(k: Kernel, s: Sent) {
    s.outcome.Delivered? ==> s.outcome.uid < |k.born| && k.born[s.outcome.uid] == (s.pid, s.start)
  }

  ghost predicate Attempted(log: seq<Sent>, pid: nat, start: nat, sig: int) {
    exists i :: 0 <= i < |log| && log[i].pid == pid && log[i].start == start && log[i].sig == sig
  }

  ghost predicate RefusedIn(log: seq<Sent>, pid: nat, start: nat) {
    exists i :: 0 <= i < |log| && log[i].pid == pid && log[i].start == start && log[i].sig == SIGKILL && log[i].outcome == Refused
  }

  ghost predicate IsThere(k: Kernel, pid: nat, start: nat) {
    pid in k.table && k.table[pid].start == start
  }

  /** If the process (pid, start) is still in the table, it is dying or EPERM was reported. */
  ghost predicate Settled(k: Kernel, log: seq<Sent>, pid: nat, start: nat) {
    IsThere(k, pid, start) ==> k.table[pid].doomed || RefusedIn(log, pid, start)
  }

  /** Nothing was sent only because the process is gone. */
  ghost predicate Due(k: Kernel, s: Sent) {
    s.outcome.NoSuchProcess? ==> !IsThere(k, s.pid, s.start)
  }

  ghost predicate AlternatesAt(log: seq<CliSignal>, i: nat, grace: int)
    requires i < |log|
  {
    if i % 2 == 0 then IsTermination(log[i].sig)
    else log[i].sig == SIGKILL && log[i].at >= log[i - 1].at + grace
  }

  /** Forward, kill, forward, kill, ...: every SIGKILL at least grace after the
      termination signal it follows, and no second forward before it. */
  ghost predicate Alternates(log: seq<CliSignal>, grace: int) {
    forall i :: 0 <= i < |log| ==> AlternatesAt(log, i, grace)
  }

  // -------------------------------------------------------------------------
  // Which processes were signalled
  // -------------------------------------------------------------------------

  /** A signal sent to pid. SIGKILL dooms its target; any other leaves the table alone. */
  function Struck(k: Kernel, pid: nat, sig: int): Kernel
    requires pid in k.table
  {
    if sig == SIGKILL then k.(table := k.table[pid := k.table[pid].(doomed := true)]) else k
  }

  /** A signal that reached a process: the birth number, and the signal. */
  type Reached = (nat, int)

  /** What the entries of signal_process_identity stand for. */
  function DeliveredOf(sent: seq<Sent>): seq<Reached> {
    if sent == [] then []
    else DeliveredOf(sent[..|sent| - 1]) + DeliveredBy(sent[|sent| - 1])
  }

  function DeliveredBy(s: Sent): seq<Reached> {
    if s.outcome.Delivered? then [(s.outcome.uid, s.sig)] else []
  }

  /** What the entries of the CLI's log stand for. */
  function HitsOf(log: seq<CliSignal>): seq<Reached> {
    seq(|log|, i requires 0 <= i < |log| => (log[i].hit, log[i].sig))
  }

  /** A process that is to die of a SIGKILL was so from the start, or was sent one. */
  ghost predicate DoomedOk(k: Kernel, byPidfd: seq<Reached>, byPid: seq<Reached>, doomedBefore: set<nat>) {
    forall p :: p in k.table && k.table[p].doomed ==>
      k.table[p].uid in doomedBefore || (k.table[p].uid, SIGKILL) in byPidfd || (k.table[p].uid, SIGKILL) in byPid
  }

  ghost predicate AllHonest(k: Kernel, sent: seq<Sent>) {
    forall s :: s in sent ==> Honest(k, s)
  }

  lemma {:induction false} DeliveredIsLogged(sent: seq<Sent>, uid: nat, sig: int)
    requires (uid, sig) in DeliveredOf(sent)
    ensures exists s :: s in sent && s.outcome == Delivered(uid) && s.sig == sig
    decreases |sent|
  {
    var last := sent[|sent| - 1];
    if !(last.outcome == Delivered(uid) && last.sig == sig) {
      DeliveredIsLogged(sent[..|sent| - 1], uid, sig);
    }
  }

  lemma HitIsLogged(log: seq<CliSignal>, uid: nat, sig: int)
    requires (uid, sig) in HitsOf(log)
    ensures exists c :: c in log && c.hit == uid && c.sig == sig
  {
    var i :| 0 <= i < |log| && HitsOf(log)[i] == (uid, sig);
    assert log[i] in log;
  }

  /** A signal sent through a pidfd reached the process it was recorded for: the one
      born as the (pid, start time) that was asked for. */
  lemma ReachedAsRecorded(k: Kernel, sent: seq<Sent>, uid: nat, sig: int)
    requires AllHonest(k, sent) && (uid, sig) in DeliveredOf(sent)
    ensures exists s :: s in sent && s.outcome == Delivered(uid) && s.sig == sig && uid < |k.born| && k.born[uid] == (s.pid, s.start)
  {
    DeliveredIsLogged(sent, uid, sig);
    var s :| s in sent && s.outcome == Delivered(uid) && s.sig == sig;
    assert Honest(k, s);
  }

  /** Whatever is dying of a SIGKILL was so from the start, or the log has a SIGKILL
      for its own birth, or it is what the CLI's signals hit. */
  lemma DoomedAsRecorded(k: Kernel, sent: seq<Sent>, cliLog: seq<CliSignal>, doomedBefore: set<nat>, p: nat)
    requires AllHonest(k, sent) && DoomedOk(k, DeliveredOf(sent), HitsOf(cliLog), doomedBefore)
    requires p in k.table && k.table[p].doomed && k.table[p].uid !in doomedBefore
    ensures var uid := k.table[p].uid;
      (exists s :: s in sent && s.outcome == Delivered(uid) && s.sig == SIGKILL && uid < |k.born| && k.born[uid] == (s.pid, s.start))
      || (exists c :: c in cliLog && c.hit == uid && c.sig == SIGKILL)
  {
    var uid := k.table[p].uid;
    if (uid, SIGKILL) in DeliveredOf(sent) {
      ReachedAsRecorded(k, sent, uid, SIGKILL);
    } else {
      HitIsLogged(cliLog, uid, SIGKILL);
    }
  }

  /** Nothing is doomed that was not. */
  ghost predicate NoNewDoom(k: Kernel, k': Kernel) {
    forall p :: p in k'.table && k'.table[p].doomed ==> p in k.table && k.table[p].uid == k'.table[p].uid && k.table[p].doomed
  }

  lemma StepDoomsNothing(k: Kernel, launcher: nat, e: Event)
    requires Wf(k) && Enabled(k, launcher, e)
    ensures NoNewDoom(k, Apply(k, launcher, e))
  {
  }

  lemma {:induction false} RunDoomsNothing(k: Kernel, launcher: nat, events: seq<Event>)
    requires Wf(k)
    ensures NoNewDoom(k, Run(k, launcher, events))
    decreases |events|
  {
    if events != [] {
      if Enabled(k, launcher, events[0]) {
        ApplyKeepsWf(k, launcher, events[0]);
        StepDoomsNothing(k, launcher, events[0]);
        RunDoomsNothing(Apply(k, launcher, events[0]), launcher, events[1..]);
      } else {
        RunDoomsNothing(k, launcher, events[1..]);
      }
    }
  }

  lemma LogsLater(k: Kernel, k': Kernel, sent: seq<Sent>, byPidfd: seq<Reached>, byPid: seq<Reached>, doomedBefore: set<nat>)
    requires AllHonest(k, sent) && DoomedOk(k, byPidfd, byPid, doomedBefore) && Later(k, k') && NoNewDoom(k, k')
    ensures AllHonest(k', sent) && DoomedOk(k', byPidfd, byPid, doomedBefore)
  {
    forall s | s in sent ensures Honest(k', s) {
      HonestLater(k, k', s);
    }
  }

  lemma StruckIsLater(k: Kernel, pid: nat, sig: int)
    requires Wf(k) && pid in k.table
    ensures Later(k, Struck(k, pid, sig))
  {
  }

  lemma OneMoreSent(sent: seq<Sent>, s: Sent)
    ensures DeliveredOf(sent + [s]) == DeliveredOf(sent) + DeliveredBy(s)
  {
    assert (sent + [s])[..|sent|] == sent;
  }

  lemma OneMoreHit(log: seq<CliSignal>, c: CliSignal)
    ensures HitsOf(log + [c]) == HitsOf(log) + [(c.hit, c.sig)]
  {
  }

  lemma OneMoreHonest(k: Kernel, sent: seq<Sent>, s: Sent)
    requires AllHonest(k, sent) && Honest(k, s)
    ensures AllHonest(k, sent + [s])
  {
  }

  // -------------------------------------------------------------------------
  // What _supervise_cli does about each wake
  // -------------------------------------------------------------------------

  datatype Woken = Woken(wake: Wake, at: int)

  /** The signals sent to the CLI so far, and kill_deadline. */
  datatype Answer = Answer(log: seq<CliSignal>, deadline: Option<int>)

  /** A first termination signal is forwarded and starts the grace period; when that
      is over the CLI is killed; nothing else is answered. */
  function OneAnswer(a: Answer, w: Woken, uid: nat, grace: int): Answer {
    match w.wake
    case TimedOut => Answer(a.log + [CliSignal(SIGKILL, uid, w.at)], None)
    case Got(sig) =>
      if IsTermination(sig) && a.deadline.None? then Answer(a.log + [CliSignal(sig, uid, w.at)], Some(w.at + grace)) else a
    case Blocked => a
  }

  function Answered(wakes: seq<Woken>, uid: nat, grace: int): Answer {
    if wakes == [] then Answer([], None)
    else OneAnswer(Answered(wakes[..|wakes| - 1], uid, grace), wakes[|wakes| - 1], uid, grace)
  }

  /** A wait times out only when there is a deadline, and not before it. */
  ghost predicate InTime(a: Answer, w: Woken) {
    w.wake.TimedOut? ==> a.deadline.Some? && w.at >= a.deadline.value
  }

  ghost predicate AllInTime(wakes: seq<Woken>, uid: nat, grace: int) {
    forall i :: 0 <= i < |wakes| ==> InTime(Answered(wakes[..i], uid, grace), wakes[i])
  }

  lemma OneMoreWake(wakes: seq<Woken>, w: Woken, uid: nat, grace: int)
    requires AllInTime(wakes, uid, grace) && InTime(Answered(wakes, uid, grace), w)
    ensures AllInTime(wakes + [w], uid, grace)
    ensures Answered(wakes + [w], uid, grace) == OneAnswer(Answered(wakes, uid, grace), w, uid, grace)
  {
    var more := wakes + [w];
    assert more[..|wakes|] == wakes;
    forall i | 0 <= i < |more| ensures InTime(Answered(more[..i], uid, grace), more[i]) {
      if i < |wakes| {
        assert more[..i] == wakes[..i];
      }
    }
  }

  ghost predicate AllHit(log: seq<CliSignal>, uid: nat) {
    forall s :: s in log ==> s.hit == uid
  }

  /** Forwards and kills alternate, each SIGKILL at least grace after its forward. */
  lemma {:induction false} AnswersAlternate(wakes: seq<Woken>, uid: nat, grace: int)
    requires AllInTime(wakes, uid, grace)
    ensures var a := Answered(wakes, uid, grace);
      && Alternates(a.log, grace) && AllHit(a.log, uid)
      && (a.deadline.Some? <==> |a.log| % 2 == 1)
      && (a.deadline.Some? ==> a.deadline.value == a.log[|a.log| - 1].at + grace)
    decreases |wakes|
  {
    if wakes != [] {
      var init, w := wakes[..|wakes| - 1], wakes[|wakes| - 1];
      forall i | 0 <= i < |init| ensures InTime(Answered(init[..i], uid, grace), init[i]) {
        assert init[..i] == wakes[..i];
      }
      AnswersAlternate(init, uid, grace);
      assert InTime(Answered(init, uid, grace), w);
      OneMoreAnswer(Answered(init, uid, grace), w, uid, grace);
    }
  }

  lemma OneMoreAnswer(a: Answer, w: Woken, uid: nat, grace: int)
    requires Alternates(a.log, grace) && AllHit(a.log, uid) && (a.deadline.Some? <==> |a.log| % 2 == 1)
    requires a.deadline.Some? ==> a.deadline.value == a.log[|a.log| - 1].at + grace
    requires InTime(a, w)
    ensures var b := OneAnswer(a, w, uid, grace);
      && Alternates(b.log, grace) && AllHit(b.log, uid)
      && (b.deadline.Some? <==> |b.log| % 2 == 1)
      && (b.deadline.Some? ==> b.deadline.value == b.log[|b.log| - 1].at + grace)
  {
    var b := OneAnswer(a, w, uid, grace);
    forall i | 0 <= i < |b.log| ensures AlternatesAt(b.log, i, grace) {
      if i < |a.log| {
        assert AlternatesAt(a.log, i, grace);
      }
    }
  }

  // -------------------------------------------------------------------------
  // Facts about one table and a later one
  // -------------------------------------------------------------------------

  lemma ChildStaysOneStep(k: Kernel, launcher: nat, e: Event, p: nat)
    requires Wf(k) && p in k.table && p != launcher && k.table[p].ppid == launcher && Enabled(k, launcher, e)
    ensures var k' := Apply(k, launcher, e);
      p in k'.table && k'.table[p].uid == k.table[p].uid && k'.table[p].ppid == launcher
  {
  }

  /** A child of the launcher stays its child, live or zombie, until the launcher reaps it. */
  lemma {:induction false} ChildStays(k: Kernel, launcher: nat, events: seq<Event>, p: nat)
    requires Wf(k) && p in k.table && p != launcher && k.table[p].ppid == launcher
    ensures var k' := Run(k, launcher, events);
      p in k'.table && k'.table[p].uid == k.table[p].uid && k'.table[p].ppid == launcher
    decreases |events|
  {
    if events != [] {
      if Enabled(k, launcher, events[0]) {
        ApplyKeepsWf(k, launcher, events[0]);
        ChildStaysOneStep(k, launcher, events[0], p);
        ChildStays(Apply(k, launcher, events[0]), launcher, events[1..], p);
      } else {
        ChildStays(k, launcher, events[1..], p);
      }
    }
  }

  /** At most one process was ever born with a given (pid, start time). */
  lemma SameBirth(k: Kernel, i: nat, j: nat)
    requires Wf(k) && i < |k.born| && j < |k.born| && k.born[i] == k.born[j]
    ensures i == j
  {
  }

  lemma BirthStays(k: Kernel, k': Kernel, i: nat)
    requires Later(k, k') && i < |k.born|
    ensures i < |k'.born| && k'.born[i] == k.born[i]
  {
    assert k'.born[i] == k'.born[..|k.born|][i];
  }

  /** pidfd_open in k0, the start-time check in k1, the send in k2, anything in
      between. A process the pidfd still reaches is the verified one. If the process
      was recorded before the open and is still there, the pidfd reaches it. */
  lemma PinnedSend(k0: Kernel, k1: Kernel, k2: Kernel, pid: nat, start: nat)
    requires Wf(k0) && Wf(k1) && Wf(k2) && Later(k0, k1) && Later(k1, k2)
    requires pid in k0.table && pid in k1.table && k1.table[pid].start == start
    ensures pid in k2.table && k2.table[pid].uid == k0.table[pid].uid ==>
              k2.table[pid].start == start && k2.born[k0.table[pid].uid] == (pid, start)
    ensures (pid, start) in k0.born && pid in k2.table && k2.table[pid].start == start ==>
              k2.table[pid].uid == k0.table[pid].uid
  {
    var fd := k0.table[pid].uid;
    BirthStays(k0, k1, fd);
    if pid in k2.table && k2.table[pid].uid == fd {
      assert SameProcess(k1, k2, pid);
    }
    if (pid, start) in k0.born && pid in k2.table && k2.table[pid].start == start {
      var i: nat :| i < |k0.born| && k0.born[i] == (pid, start);
      BirthStays(k0, k1, i);
      BirthStays(k1, k2, i);
      SameBirth(k2, i, k2.table[pid].uid);
      SameBirth(k1, i, k1.table[pid].uid);
      assert SameProcess(k0, k1, pid);
    }
  }

  /** A recorded process that is missing stays missing. */
  lemma GoneStaysGone(k: Kernel, k': Kernel, pid: nat, start: nat)
    requires Wf(k) && Wf(k') && Later(k, k') && (pid, start) in k.born
    requires !(pid in k.table && k.table[pid].start == start)
    ensures !(pid in k'.table && k'.table[pid].start == start)
  {
    assert k'.born[..|k.born|] == k.born;
  }

  lemma SettledLater(k: Kernel, k': Kernel, log: seq<Sent>, log': seq<Sent>, pid: nat, start: nat)
    requires Wf(k) && Wf(k') && Later(k, k') && (pid, start) in k.born
    requires Settled(k, log, pid, start) && log <= log'
    ensures Settled(k', log', pid, start)
  {
    if pid in k'.table && k'.table[pid].start == start {
      if pid in k.table && k.table[pid].start == start {
        var i: nat :| i < |k.born| && k.born[i] == (pid, start);
        BirthStays(k, k', i);
        SameBirth(k', i, k'.table[pid].uid);
        assert SameProcess(k, k', pid);
      } else {
        GoneStaysGone(k, k', pid, start);
      }
    }
  }

  lemma DueLater(k: Kernel, k': Kernel, s: Sent)
    requires Wf(k) && Wf(k') && Later(k, k') && (s.pid, s.start) in k.born && Due(k, s)
    ensures Due(k', s)
  {
    if s.outcome.NoSuchProcess? {
      GoneStaysGone(k, k', s.pid, s.start);
    }
  }

  lemma HonestLater(k: Kernel, k': Kernel, s: Sent)
    requires Later(k, k') && Honest(k, s)
    ensures Honest(k', s)
  {
    if s.outcome.Delivered? {
      BirthStays(k, k', s.outcome.uid);
    }
  }
}
