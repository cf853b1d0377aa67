// What terminate_descendants signals: one round of SIGTERM, then rounds of SIGKILL.

/** The rounds as values: what each walk saw, and the signals sent for it. */
module Rounds {
  import opened ProcessKernel
  import opened TreeWalk
  import opened Containment
  import opened Launcher

  /** Nothing else was signalled, nothing earlier than from, and what got no signal is
      gone or may not be signalled. */
  ghost predicate OnlyTargets(k: Kernel, log: seq<Sent>, targets: map<nat, nat>, sig: int, from: int) {
    forall s :: s in log ==> s.pid in targets && s.start == targets[s.pid] && s.sig == sig && s.at >= from && Due(k, s)
  }

  lemma OnlyTargetsGrows(k: Kernel, k': Kernel, log: seq<Sent>, s: Sent, targets: map<nat, nat>, sig: int, from: int)
    requires Wf(k) && Wf(k') && Later(k, k') && Recorded(k, targets) && OnlyTargets(k, log, targets, sig, from)
    requires s.pid in targets && s.start == targets[s.pid] && s.sig == sig && s.at >= from && Due(k', s)
    ensures OnlyTargets(k', log + [s], targets, sig, from)
  {
    forall t | t in log ensures Due(k', t) {
      DueLater(k, k', t);
    }
  }

  /** The table walked, what the walk listed, the clock then, the signals sent for it,
      and the table afterwards. */
  datatype Round = Round(walked: Kernel, targets: map<nat, nat>, at: int, log: seq<Sent>, after: Kernel)

  /** Everything the walk lists was sent sig, and nothing else anything. */
  ghost predicate RoundOf(r: Round, launcher: nat, sig: int) {
    && Contained(r.walked, launcher) && Contained(r.after, launcher) && Later(r.walked, r.after)
    && r.targets == Containment.Walk(r.walked, launcher)
    && AllSent(r.after, r.log, r.targets, {}, sig) && OnlyTargets(r.after, r.log, r.targets, sig, r.at)
  }

  /** What terminate_descendants did: the SIGTERM round and those of SIGKILL. */
  datatype Cleanup = Cleanup(first: Round, rounds: seq<Round>)

  function LogOf(rounds: seq<Round>): seq<Sent> {
    if rounds == [] then [] else LogOf(rounds[..|rounds| - 1]) + rounds[|rounds| - 1].log
  }

  function SentBy(c: Cleanup): seq<Sent> {
    c.first.log + LogOf(c.rounds)
  }

  /** SIGTERM once for the first walk; SIGKILL only when the grace period is over. */
  ghost predicate CleanupOf(c: Cleanup, launcher: nat, grace: int) {
    && AllRounds([c.first], launcher, SIGTERM, c.first.at)
    && AllRounds(c.rounds, launcher, SIGKILL, c.first.at + grace)
  }

  ghost predicate AllRounds(rounds: seq<Round>, launcher: nat, sig: int, from: int) {
    forall i {:trigger RoundSince(rounds[i], launcher, sig, from)} :: 0 <= i < |rounds| ==> RoundSince(rounds[i], launcher, sig, from)
  }

  ghost predicate RoundSince(r: Round, launcher: nat, sig: int, from: int) {
    RoundOf(r, launcher, sig) && r.at >= from
  }

  /** False: the kill timeout has passed since the first round of SIGKILL, and the
      survivors are what the last walk listed, all sent SIGKILL. */
  ghost predicate GivenUp(c: Cleanup, killTimeout: int, survivors: map<nat, nat>, k: Kernel, clock: int) {
    c.rounds != [] && clock >= c.rounds[0].at + killTimeout && survivors != map[] && StoppedAt(c, survivors, k)
  }

  /** The last round, and the table it left. */
  ghost predicate StoppedAt(c: Cleanup, survivors: map<nat, nat>, k: Kernel) {
    c.rounds != [] && survivors == c.rounds[|c.rounds| - 1].targets && k == c.rounds[|c.rounds| - 1].after
  }

  lemma FirstRound(r: Round, launcher: nat, grace: int)
    requires RoundOf(r, launcher, SIGTERM)
    ensures CleanupOf(Cleanup(r, []), launcher, grace) && SentBy(Cleanup(r, [])) == r.log
  {
    assert RoundSince(r, launcher, SIGTERM, r.at);
  }

  /** One more round of SIGKILL. */
  function More(c: Cleanup, r: Round): Cleanup {
    c.(rounds := c.rounds + [r])
  }

  lemma CleanupGrows(c: Cleanup, r: Round, launcher: nat, grace: int, base: seq<Sent>)
    requires CleanupOf(c, launcher, grace) && RoundOf(r, launcher, SIGKILL) && r.at >= c.first.at + grace
    ensures CleanupOf(More(c, r), launcher, grace)
    ensures base + SentBy(More(c, r)) == base + SentBy(c) + r.log
  {
    OneMoreRound(c.rounds, r, launcher, SIGKILL, c.first.at + grace);
    OneMoreLog(c, r, base);
  }

  lemma OneMoreRound(rounds: seq<Round>, r: Round, launcher: nat, sig: int, from: int)
    requires AllRounds(rounds, launcher, sig, from) && RoundOf(r, launcher, sig) && r.at >= from
    ensures AllRounds(rounds + [r], launcher, sig, from)
  {
    assert RoundSince(r, launcher, sig, from);
  }

  lemma OneMoreLog(c: Cleanup, r: Round, base: seq<Sent>)
    ensures base + SentBy(More(c, r)) == base + SentBy(c) + r.log
  {
    assert (c.rounds + [r])[..|c.rounds|] == c.rounds;
  }

  /** How long a loop with t left until its deadline still waits. */
  function Waiting(t: int): nat {
    if t <= 0 then 0 else t + 1
  }

  function AtLeast0(t: int): nat {
    if t < 0 then 0 else t
  }

  lemma LogGrows(k: Kernel, k': Kernel, log: seq<Sent>, s: Sent, pid: nat, start: nat, sig: int)
    requires Wf(k) && Wf(k') && Later(k, k') && (pid, start) in k.born
    requires if s.pid == pid then s.start == start && s.sig == sig && (sig == SIGKILL ==> Settled(k', [s], pid, start))
             else Attempted(log, pid, start, sig) && (sig == SIGKILL ==> Settled(k, log, pid, start))
    ensures Attempted(log + [s], pid, start, sig)
    ensures sig == SIGKILL ==> Settled(k', log + [s], pid, start)
  {
    if s.pid == pid {
      assert (log + [s])[|log|] == s;
    } else {
      var i :| 0 <= i < |log| && log[i].pid == pid && log[i].start == start && log[i].sig == sig;
      assert (log + [s])[i] == log[i];
      if sig == SIGKILL {
        SettledLater(k, k', log, log + [s], pid, start);
      }
    }
  }

  /** All targets but those in todo got the signal. */
  ghost predicate AllSent(k: Kernel, log: seq<Sent>, targets: map<nat, nat>, todo: set<nat>, sig: int) {
    forall p :: p in targets && p !in todo ==>
      Attempted(log, p, targets[p], sig) && (sig == SIGKILL ==> Settled(k, log, p, targets[p]))
  }

  lemma AllSentGrows(k: Kernel, k': Kernel, log: seq<Sent>, s: Sent, targets: map<nat, nat>, todo: set<nat>, sig: int)
    requires Wf(k) && Wf(k') && Later(k, k') && AllSent(k, log, targets, todo, sig)
    requires Recorded(k, targets)
    requires s.pid in targets && s.start == targets[s.pid] && s.sig == sig
    requires sig == SIGKILL ==> Settled(k', [s], s.pid, s.start)
    ensures AllSent(k', log + [s], targets, todo - {s.pid}, sig)
  {
    forall p | p in targets && p !in todo - {s.pid}
      ensures Attempted(log + [s], p, targets[p], sig) && (sig == SIGKILL ==> Settled(k', log + [s], p, targets[p]))
    {
      LogGrows(k, k', log, s, p, targets[p], sig);
    }
  }

  /** The targets were born, with these start times. */
  ghost predicate Recorded(k: Kernel, targets: map<nat, nat>) {
    forall p :: p in targets ==> (p, targets[p]) in k.born
  }

  lemma WalkIsRecorded(k: Kernel, launcher: nat)
    requires Wf(k)
    ensures Recorded(k, Containment.Walk(k, launcher))
  {
    ProcFsIsForest(k);
    forall p | p in Containment.Walk(k, launcher) ensures (p, Containment.Walk(k, launcher)[p]) in k.born {
      assert k.born[k.table[p].uid] == (p, k.table[p].start);
    }
  }

  lemma RecordedLater(k: Kernel, k': Kernel, targets: map<nat, nat>)
    requires Later(k, k') && Recorded(k, targets)
    ensures Recorded(k', targets)
  {
    forall p | p in targets ensures (p, targets[p]) in k'.born {
      var i: nat :| i < |k.born| && k.born[i] == (p, targets[p]);
      BirthStays(k, k', i);
    }
  }
}
