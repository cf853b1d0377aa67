// _reap_children of equipa/agent_launcher.py: one sweep of waitpid calls, and whose
// status it returns.

/** A sweep as a value: the table it starts from, the bursts of other processes'
    events that run before its waitpid calls, and the children they return. */
module Reaping {
  import opened Containment
  import opened ProcessKernel
  import opened Wrappers

  /** What happens between two system calls of the launcher: process events, time,
      and possibly a signal to the launcher. */
  datatype Burst = Burst(events: seq<Event>, elapsed: nat, signal: Option<nat>)

  /** One child taken by waitpid. */
  datatype Harvest = Harvest(pid: nat, uid: nat, status: int)

  /** What is left of the script after n bursts. */
  function Drop(script: seq<Burst>, n: nat): seq<Burst> {
    if n <= |script| then script[n..] else []
  }

  /** How long the rest of the script takes. */
  function Elapsed(script: seq<Burst>): (t: nat) {
    if script == [] then 0 else script[0].elapsed + Elapsed(script[1..])
  }

  function EventsAt(script: seq<Burst>, n: nat): seq<Event> {
    if n < |script| then script[n].events else []
  }

  function SignalAt(script: seq<Burst>): set<nat> {
    if script != [] && script[0].signal.Some? then {script[0].signal.value} else {}
  }

  /** p is a child of the launcher: the process with birth number uid. */
  ghost predicate ChildOf(k: Kernel, launcher: nat, p: nat, uid: nat) {
    p in k.table && p != launcher && k.table[p].ppid == launcher && k.table[p].uid == uid
  }

  /** waitpid may return h. */
  ghost predicate HasExited(k: Kernel, launcher: nat, h: Harvest) {
    ChildOf(k, launcher, h.pid, h.uid) && k.table[h.pid].run == Zombie(h.status)
  }

  ghost predicate NoneExited(k: Kernel, launcher: nat) {
    forall p :: p in k.table && p != launcher && k.table[p].ppid == launcher ==> k.table[p].run.Live?
  }

  function Reaped(k: Kernel, p: nat): (k': Kernel)
    requires Wf(k)
    ensures Wf(k')
  {
    if p in k.table && k.table[p].run.Zombie? then
      WithoutKeepsWf(k, p);
      Without(k, p)
    else k
  }

  /** The table after the children taken are gone. */
  function After(k: Kernel, launcher: nat, script: seq<Burst>, taken: seq<Harvest>): (k': Kernel)
    requires Wf(k)
    ensures Wf(k')
    decreases |taken|, 0
  {
    if taken == [] then k
    else Reaped(Seen(k, launcher, script, taken[..|taken| - 1]), taken[|taken| - 1].pid)
  }

  /** The table the next waitpid looks at. */
  function Seen(k: Kernel, launcher: nat, script: seq<Burst>, taken: seq<Harvest>): (k': Kernel)
    requires Wf(k)
    ensures Wf(k')
    decreases |taken|, 1
  {
    Run(After(k, launcher, script, taken), launcher, EventsAt(script, |taken|))
  }

  /** Each waitpid returned a child that had exited. */
  ghost predicate Taking(k: Kernel, launcher: nat, script: seq<Burst>, taken: seq<Harvest>)
    requires Wf(k)
  {
    forall i :: 0 <= i < |taken| ==> HasExited(Seen(k, launcher, script, taken[..i]), launcher, taken[i])
  }

  /** ... and the last one found none. */
  ghost predicate IsSweep(k: Kernel, launcher: nat, script: seq<Burst>, taken: seq<Harvest>)
    requires Wf(k)
  {
    Taking(k, launcher, script, taken) && NoneExited(Seen(k, launcher, script, taken), launcher)
  }

  lemma TakeOne(k: Kernel, launcher: nat, script: seq<Burst>, taken: seq<Harvest>, h: Harvest)
    requires Wf(k) && Taking(k, launcher, script, taken)
    requires HasExited(Seen(k, launcher, script, taken), launcher, h)
    ensures Taking(k, launcher, script, taken + [h])
    ensures After(k, launcher, script, taken + [h]) == Without(Seen(k, launcher, script, taken), h.pid)
  {
    var more := taken + [h];
    assert more[..|taken|] == taken;
    forall i | 0 <= i < |more| ensures HasExited(Seen(k, launcher, script, more[..i]), launcher, more[i]) {
      if i < |taken| {
        assert more[..i] == taken[..i];
      }
    }
  }

  // -------------------------------------------------------------------------
  // Which status comes back
  // -------------------------------------------------------------------------

  /** What _reap_children returns after reaping h in this order. */
  function LastStatus(h: seq<Harvest>, pid: int): Option<int> {
    if h == [] then None
    else if h[|h| - 1].pid == pid then Some(h[|h| - 1].status)
    else LastStatus(h[..|h| - 1], pid)
  }

  lemma LastStatusOneMore(h: seq<Harvest>, x: Harvest, pid: int)
    ensures LastStatus(h + [x], pid) == if x.pid == pid then Some(x.status) else LastStatus(h, pid)
  {
    assert (h + [x])[..|h|] == h;
  }

  /** The last entry with that pid decides. */
  lemma {:induction false} LastStatusIs(h: seq<Harvest>, pid: int, j: nat)
    requires j < |h| && h[j].pid == pid && forall i :: j < i < |h| ==> h[i].pid != pid
    ensures LastStatus(h, pid) == Some(h[j].status)
    decreases |h|
  {
    if j < |h| - 1 {
      LastStatusIs(h[..|h| - 1], pid, j);
    }
  }

  lemma {:induction false} NoneIffAbsent(h: seq<Harvest>, pid: int)
    ensures LastStatus(h, pid).None? <==> forall i :: 0 <= i < |h| ==> h[i].pid != pid
    decreases |h|
  {
    if h != [] {
      NoneIffAbsent(h[..|h| - 1], pid);
      assert forall i :: 0 <= i < |h| - 1 ==> h[..|h| - 1][i] == h[i];
    }
  }

  // -------------------------------------------------------------------------
  // What a sweep keeps
  // -------------------------------------------------------------------------

  lemma ReapedIsLater(k: Kernel, p: nat)
    requires Wf(k)
    ensures Later(k, Reaped(k, p))
  {
  }

  lemma {:induction false} SweepIsLater(k: Kernel, launcher: nat, script: seq<Burst>, taken: seq<Harvest>)
    requires Wf(k)
    ensures Later(k, After(k, launcher, script, taken)) && Later(k, Seen(k, launcher, script, taken))
    decreases |taken|
  {
    var a, s := After(k, launcher, script, taken), Seen(k, launcher, script, taken);
    if taken != [] {
      var init := taken[..|taken| - 1];
      SweepIsLater(k, launcher, script, init);
      ReapedIsLater(Seen(k, launcher, script, init), taken[|taken| - 1].pid);
      LaterIsTransitive(k, Seen(k, launcher, script, init), a);
    }
    RunIsLater(a, launcher, EventsAt(script, |taken|));
    LaterIsTransitive(k, a, s);
  }

  lemma {:induction false} LaterWithin(k: Kernel, launcher: nat, script: seq<Burst>, taken: seq<Harvest>, i: nat)
    requires Wf(k) && i <= |taken|
    ensures Later(After(k, launcher, script, taken[..i]), Seen(k, launcher, script, taken))
    decreases |taken|
  {
    var a, s := After(k, launcher, script, taken), Seen(k, launcher, script, taken);
    RunIsLater(a, launcher, EventsAt(script, |taken|));
    if i == |taken| {
      assert taken[..i] == taken;
    } else {
      var init := taken[..|taken| - 1];
      assert init[..i] == taken[..i];
      LaterWithin(k, launcher, script, init, i);
      ReapedIsLater(Seen(k, launcher, script, init), taken[|taken| - 1].pid);
      LaterIsTransitive(Seen(k, launcher, script, init), a, s);
      LaterIsTransitive(After(k, launcher, script, taken[..i]), Seen(k, launcher, script, init), s);
    }
  }
}
