// equipa/agent_runner.py: per-run config directories and the stop-signal
// handler; equipa/cli_isolation.py: create_run_config_dir.

/** A stop signal may arrive between any two statements of the directory's creation. */
module StopSignal {
  import opened Wrappers

  datatype Signal = SIGTERM | SIGINT

  datatype Previous = DefaultAction | Callable

  /** What signal.getsignal reports. */
  datatype Disposition = Default | Ignored | NotPython | Python | Cleanup(previous: Previous)

  /** _stop_cleanup_replacing: the disposition after _install_stop_signal_cleanup. */
  function Installed(sig: Signal, current: Disposition): (d: Disposition)
    ensures !d.Default?
    ensures d == current || d.Cleanup?
  {
    if current.Default? then Cleanup(DefaultAction)
    else if sig.SIGTERM? && current.Python? then Cleanup(Callable)
    else current
  }

  /** A signal, what a Python handler it reaches does (raise, or return), and whether
      the live agents can be stopped if a cleanup has to. */
  datatype Arrival = Arrival(sig: Signal, raises: bool, agentsStop: bool)

  /** How control goes on: to the next statement, by an exception, not at all. */
  datatype Flow = Goes | Raises | Dies

  /** mkdtemp and the checks on its result. */
  datatype Making = Fails | NotPrivate(dir: nat) | Makes(dir: nat)

  /** Cleaned: a cleanup ran; covered: every directory of this process was registered then. */
  datatype Event = Registered(dir: nat) | Resent(sig: Signal) | Cleaned(covered: bool)

  type Dispositions = map<Signal, Disposition>

  ghost predicate Ready(d: Dispositions) {
    SIGTERM in d && SIGINT in d && !d[SIGTERM].Default? && !d[SIGINT].Default?
  }

  /** A Python SIGINT handler is left alone, so it runs at once and may raise KeyboardInterrupt. */
  predicate RaisesAnyway(d: Dispositions, a: Arrival) {
    a.sig in d && d[a.sig].Python? && a.raises
  }

  predicate Owned(d: Dispositions, a: Arrival) {
    a.sig in d && d[a.sig].Cleanup?
  }

  /** While a directory is being created: an exception gets out. */
  predicate Interrupted(d: Dispositions, arrivals: seq<Arrival>) {
    arrivals != [] && (RaisesAnyway(d, arrivals[0]) || Interrupted(d, arrivals[1..]))
  }

  /** The signals our handler records until an exception gets out. */
  function Heard(d: Dispositions, arrivals: seq<Arrival>): seq<Signal> {
    if arrivals == [] || RaisesAnyway(d, arrivals[0]) then []
    else (if Owned(d, arrivals[0]) then [arrivals[0].sig] else []) + Heard(d, arrivals[1..])
  }

  /** The last of them, the only one _stop_signal_during_creation can hold. */
  function LastOf(sigs: seq<Signal>, before: Option<Signal>): Option<Signal> {
    if sigs == [] then before else Some(sigs[|sigs| - 1])
  }

  lemma LastOfConcat(a: seq<Signal>, b: seq<Signal>, before: Option<Signal>)
    ensures LastOf(a + b, before) == LastOf(b, LastOf(a, before)) && LastOf(a + [], before) == LastOf(a, before)
  {
    assert a + [] == a;
  }

  /** Outside a creation: what one arrival does to the flow. */
  function FlowOf(d: Dispositions, a: Arrival): Flow {
    if a.sig !in d then Goes
    else match d[a.sig]
      case Default => Dies
      case Ignored => Goes
      case NotPython => Goes
      case Python => if a.raises then Raises else Goes
      case Cleanup(DefaultAction) => Dies
      case Cleanup(Callable) => if a.raises then Raises else Goes
  }

  function FlowOfAll(d: Dispositions, arrivals: seq<Arrival>): Flow {
    if arrivals == [] then Goes
    else if FlowOf(d, arrivals[0]).Goes? then FlowOfAll(d, arrivals[1..])
    else FlowOf(d, arrivals[0])
  }

  /** A cleanup runs before the process dies or the handler it replaced raises. */
  predicate Runs(d: Dispositions, a: Arrival) {
    Owned(d, a) && !FlowOf(d, a).Goes?
  }

  /** It removes the directories, unless the process is to die and its agents cannot be
      stopped: they could go on writing. */
  predicate Removes(d: Dispositions, a: Arrival) {
    Runs(d, a) && (d[a.sig].previous.Callable? || a.agentsStop)
  }

  /** What arrivals outside a creation do: the flow, whether a cleanup runs, and whether it
      removes the directories. */
  datatype Effect = Effect(flow: Flow, runs: bool, removes: bool)

  const NOTHING := Effect(Goes, false, false)

  function EffectOf(d: Dispositions, a: Arrival): Effect {
    Effect(FlowOf(d, a), Runs(d, a), Removes(d, a))
  }

  /** Only where control goes on is anything further reached. */
  function Then(first: Effect, next: Effect): Effect {
    if first.flow.Goes? then next else first
  }

  function EffectOfAll(d: Dispositions, arrivals: seq<Arrival>): (e: Effect)
    ensures e.flow == FlowOfAll(d, arrivals)
    ensures e.flow.Goes? ==> e == NOTHING
  {
    if arrivals == [] then NOTHING else Then(EffectOf(d, arrivals[0]), EffectOfAll(d, arrivals[1..]))
  }

  /** The instants of the finally, and the signal that is sent again. */
  function EffectOfFinally(d: Dispositions, at: nat -> seq<Arrival>, recorded: Option<Signal>, again: Arrival): Effect {
    Then(EffectOfAll(d, at(4)), EffectOfTaking(d, at, recorded, again))
  }

  function EffectOfTaking(d: Dispositions, at: nat -> seq<Arrival>, recorded: Option<Signal>, again: Arrival): Effect {
    Then(EffectOfAll(d, at(5)), Then(EffectOfAll(d, at(6)), EffectOfResent(d, recorded, again)))
  }

  function EffectOfResent(d: Dispositions, recorded: Option<Signal>, again: Arrival): Effect {
    if recorded.Some? then EffectOf(d, again.(sig := recorded.value)) else NOTHING
  }

  /** The instants before, between and after the two installations. */
  function EffectOfInstalling(d: Dispositions, early: nat -> seq<Arrival>): Effect
    requires SIGTERM in d && SIGINT in d
  {
    Then(EffectOfAll(d, early(0)),
      Then(EffectOfAll(WithSigterm(d), early(1)), EffectOfAll(WithSigint(WithSigterm(d)), early(2))))
  }

  function WithSigterm(d: Dispositions): Dispositions
    requires SIGTERM in d
  {
    d[SIGTERM := Installed(SIGTERM, d[SIGTERM])]
  }

  function WithSigint(d: Dispositions): Dispositions
    requires SIGINT in d
  {
    d[SIGINT := Installed(SIGINT, d[SIGINT])]
  }

  /** The directories a cleanup takes away. */
  function Gone(e: Effect, own: set<nat>): set<nat> {
    if e.removes then own else {}
  }

  /** Nothing, or the one entry of a cleanup. */
  function CleanedBy(e: Effect, covered: bool): seq<Event> {
    if e.runs then [Cleaned(covered)] else []
  }

  /** The signals recorded at the instants of the creation that are reached: before mkdtemp,
      after it, after the checks, after the registration. */
  function HeardFrom2(d: Dispositions, at: nat -> seq<Arrival>): seq<Signal> {
    Heard(d, at(2)) + if Interrupted(d, at(2)) then [] else Heard(d, at(3))
  }

  function HeardFrom1(d: Dispositions, making: Making, at: nat -> seq<Arrival>): seq<Signal> {
    Heard(d, at(1)) + if Interrupted(d, at(1)) || making.NotPrivate? then [] else HeardFrom2(d, at)
  }

  function HeardInCreation(d: Dispositions, making: Making, at: nat -> seq<Arrival>): seq<Signal> {
    Heard(d, at(0)) + if Interrupted(d, at(0)) || making.Fails? then [] else HeardFrom1(d, making, at)
  }

  /** An exception gets out between mkdtemp and the registration (or the removal of a
      directory that fails the checks). */
  predicate Strands(d: Dispositions, making: Making, at: nat -> seq<Arrival>) {
    !Interrupted(d, at(0)) && !making.Fails? && (Interrupted(d, at(1)) || (making.Makes? && Interrupted(d, at(2))))
  }

  predicate Registers(d: Dispositions, making: Making, at: nat -> seq<Arrival>) {
    !Interrupted(d, at(0)) && RegistersFrom1(d, making, at)
  }

  predicate RegistersFrom1(d: Dispositions, making: Making, at: nat -> seq<Arrival>) {
    making.Makes? && !Interrupted(d, at(1)) && !Interrupted(d, at(2))
  }

  /** The directory the creation registers, and the one it leaves on disk. */
  function NewlyOwn(d: Dispositions, making: Making, at: nat -> seq<Arrival>): set<nat> {
    if Registers(d, making, at) then {making.dir} else {}
  }

  function LiveAfter(d: Dispositions, making: Making, at: nat -> seq<Arrival>, live: map<nat, nat>, pid: nat): map<nat, nat> {
    if Registers(d, making, at) then live[making.dir := pid] else live
  }

  function NewlyThere(d: Dispositions, making: Making, at: nat -> seq<Arrival>): set<nat> {
    if Registers(d, making, at) || Strands(d, making, at) then {making.dir} else {}
  }

  function LoggedBy(d: Dispositions, making: Making, at: nat -> seq<Arrival>): seq<Event> {
    if Registers(d, making, at) then [Registered(making.dir)] else []
  }

  function FlowOfMaking(d: Dispositions, making: Making, at: nat -> seq<Arrival>): Flow {
    if Registers(d, making, at) && !Interrupted(d, at(3)) then Goes else Raises
  }

  function ResentEvent(resent: Option<Signal>): seq<Event> {
    if resent.Some? then [Resent(resent.value)] else []
  }

  /** No instant of the finally ends the process or raises. */
  predicate Passes(d: Dispositions, at: nat -> seq<Arrival>) {
    FlowOfAll(d, at(4)).Goes? && FlowOfAll(d, at(5)).Goes? && FlowOfAll(d, at(6)).Goes?
  }

  /** The signal that is sent again, given the one recorded before the creation began. */
  function ResentOf(d: Dispositions, making: Making, at: nat -> seq<Arrival>, before: Option<Signal>): Option<Signal> {
    if Passes(d, at) then LastOf(HeardInCreation(d, making, at), before) else None
  }

  /** What is still recorded afterwards, for the next creation: the finally is left before
      it clears the record. */
  function KeptOf(d: Dispositions, making: Making, at: nat -> seq<Arrival>, before: Option<Signal>): Option<Signal> {
    if FlowOfAll(d, at(4)).Goes? && FlowOfAll(d, at(5)).Goes? then None
    else LastOf(HeardInCreation(d, making, at), before)
  }

  /** The first arrival that ends the process or raises. */
  function FirstActing(d: Dispositions, arrivals: seq<Arrival>): Option<Signal> {
    if arrivals == [] then None
    else if FlowOf(d, arrivals[0]).Goes? then FirstActing(d, arrivals[1..])
    else Some(arrivals[0].sig)
  }

  /** The signal the process reacts to in the finally, before it sends one again. */
  function ActedOn(d: Dispositions, at: nat -> seq<Arrival>): Option<Signal> {
    FirstActing(d, at(4) + at(5) + at(6))
  }

  /** sig was recorded, and that is the end of it: it is not sent again, not kept for later,
      and it is not what the process reacts to when it leaves the finally early. */
  predicate Lost(d: Dispositions, making: Making, at: nat -> seq<Arrival>, sig: Signal) {
    && sig in HeardInCreation(d, making, at)
    && ResentOf(d, making, at, None) != Some(sig) && KeptOf(d, making, at, None) != Some(sig) && ActedOn(d, at) != Some(sig)
  }

  /** One process and the module globals it has; a forked child starts with a copy. */
  class Process {
    const pid: nat
    /** The per-run directories this process created that exist. */
    var disk: set<nat>
    /** _LIVE_CLI_CONFIG_DIRS: directory to the pid that created it. */
    var live: map<nat, nat>
    /** _cli_config_dir_creator_pid and _stop_signal_during_creation. */
    var creator: Option<nat>
    var deferred: Option<Signal>
    var dispositions: Dispositions
    ghost var log: seq<Event>

    constructor (pid: nat, live: map<nat, nat>, creator: Option<nat>, deferred: Option<Signal>, dispositions: Dispositions)
      ensures this.pid == pid && disk == {} && log == []
      ensures this.live == live && this.creator == creator && this.deferred == deferred && this.dispositions == dispositions
    {
      this.pid, disk, this.live, this.creator, this.deferred, log := pid, {}, live, creator, deferred, [];
      this.dispositions := dispositions;
    }

    /** Every directory this process created is registered as its own. */
    ghost predicate Covered()
      reads this`disk, this`live
    {
      disk <= Own()
    }

    /** The directories registered as this process's own. */
    function Own(): set<nat>
      reads this`live
    {
      set dir | dir in live && live[dir] == pid
    }

    /** _remove_live_cli_config_dirs_on_stop */
    method RemoveLive(terminateAgents: bool, agentsStop: bool)
      modifies this`disk, this`live, this`log
      ensures log == old(log) + [Cleaned(old(Covered()))]
      ensures terminateAgents && !agentsStop ==> disk == old(disk) && live == old(live)
      ensures !(terminateAgents && !agentsStop) ==> live == old(live) - old(Own()) && disk == old(disk) - old(Own())
      ensures Covered() <==> old(Covered())
    {
      log := log + [Cleaned(Covered())];
      if terminateAgents && !agentsStop {
        return;
      }
      var todo := Own();
      while todo != {}
        invariant todo <= old(Own()) && log == old(log) + [Cleaned(old(Covered()))]
        invariant live == old(live) - (old(Own()) - todo)
        invariant disk == old(disk) - (old(Own()) - todo)
        decreases |todo|
      {
        var dir :| dir in todo;
        todo := todo - {dir};
        disk := disk - {dir};
        live := live - {dir};
      }
      assert old(Covered()) <==> old(disk) <= old(Own());
      assert Own() == {};
    }

    /** What one signal does. The handler is not interrupted: while it cleans up, another
        stop signal returns at once. */
    method Handle(a: Arrival) returns (flow: Flow)
      modifies this`disk, this`live, this`deferred, this`log
      ensures Covered() <==> old(Covered())
      ensures creator == Some(pid) && Ready(dispositions) ==>
                && disk == old(disk) && live == old(live)
                && flow == (if RaisesAnyway(dispositions, a) then Raises else Goes)
                && deferred == (if Owned(dispositions, a) then Some(a.sig) else old(deferred))
                && log == old(log)
      ensures creator != Some(pid) ==>
                && deferred == old(deferred) && flow == FlowOf(dispositions, a)
                && log == old(log) + CleanedBy(EffectOf(dispositions, a), old(Covered()))
                && live == old(live) - Gone(EffectOf(dispositions, a), old(Own()))
                && disk == old(disk) - Gone(EffectOf(dispositions, a), old(Own()))
    {
      if a.sig !in dispositions {
        return Goes;
      }
      assert a.sig == SIGTERM || a.sig == SIGINT;
      match dispositions[a.sig] {
        case Default => return Dies;
        case Ignored => return Goes;
        case NotPython => return Goes;
        case Python => return if a.raises then Raises else Goes;
        case Cleanup(previous) =>
          if creator == Some(pid) {
            deferred := Some(a.sig);
            return Goes;
          }
          if previous.Callable? {
            if !a.raises {
              return Goes;
            }
            RemoveLive(false, a.agentsStop);
            return Raises;
          }
          RemoveLive(true, a.agentsStop);
          return Dies;
      }
    }

    /** The signals that arrive between two statements while a directory is being created. */
    method DuringCreation(arrivals: seq<Arrival>) returns (flow: Flow)
      requires creator == Some(pid) && Ready(dispositions)
      modifies this`disk, this`live, this`deferred, this`log
      ensures disk == old(disk) && live == old(live)
      ensures flow == if Interrupted(dispositions, arrivals) then Raises else Goes
      ensures deferred == LastOf(Heard(dispositions, arrivals), old(deferred))
      ensures log == old(log)
      decreases arrivals
    {
      if arrivals == [] {
        return Goes;
      }
      flow := Handle(arrivals[0]);
      if flow.Goes? {
        flow := DuringCreation(arrivals[1..]);
      }
    }

    /** The signals that arrive between two other statements. */
    method Between(arrivals: seq<Arrival>) returns (flow: Flow)
      requires creator != Some(pid)
      modifies this`disk, this`live, this`deferred, this`log
      ensures (Covered() <==> old(Covered())) && deferred == old(deferred)
      ensures flow == FlowOfAll(dispositions, arrivals)
      ensures log == old(log) + CleanedBy(EffectOfAll(dispositions, arrivals), old(Covered()))
      ensures live == old(live) - Gone(EffectOfAll(dispositions, arrivals), old(Own()))
      ensures disk == old(disk) - Gone(EffectOfAll(dispositions, arrivals), old(Own()))
      decreases arrivals
    {
      if arrivals == [] {
        return Goes;
      }
      flow := Handle(arrivals[0]);
      if flow.Goes? {
        flow := Between(arrivals[1..]);
      }
    }
  
    /** The body of the try: the directory registered, or an exception. */
    method Make(making: Making, at: nat -> seq<Arrival>) returns (flow: Flow)
      requires creator == Some(pid) && Ready(dispositions) && Covered()
      requires !making.Fails? ==> making.dir !in disk && making.dir !in live
      modifies this`disk, this`live, this`deferred, this`log
      ensures flow == FlowOfMaking(dispositions, making, at)
      ensures deferred == LastOf(HeardInCreation(dispositions, making, at), old(deferred))
      ensures live == LiveAfter(dispositions, making, at, old(live), pid)
      ensures disk == old(disk) + NewlyThere(dispositions, making, at)
      ensures log == old(log) + LoggedBy(dispositions, making, at)
    {
      LastOfConcat(Heard(dispositions, at(0)), HeardFrom1(dispositions, making, at), deferred);
      flow := DuringCreation(at(0));
      if flow.Goes? && !making.Fails? {
        disk := disk + {making.dir};
        flow := MakeChecked(making, at);
      } else {
        flow := Raises;
      }
    }

    method MakeChecked(making: Making, at: nat -> seq<Arrival>) returns (flow: Flow)
      requires creator == Some(pid) && Ready(dispositions) && !making.Fails? && making.dir in disk
      modifies this`disk, this`live, this`deferred, this`log
      ensures flow == if RegistersFrom1(dispositions, making, at) && !Interrupted(dispositions, at(3)) then Goes else Raises
      ensures live == if RegistersFrom1(dispositions, making, at) then old(live)[making.dir := pid] else old(live)
      ensures log == old(log) + if RegistersFrom1(dispositions, making, at) then [Registered(making.dir)] else []
      ensures disk == if making.NotPrivate? && !Interrupted(dispositions, at(1)) then old(disk) - {making.dir} else old(disk)
      ensures deferred == LastOf(HeardFrom1(dispositions, making, at), old(deferred))
    {
      LastOfConcat(Heard(dispositions, at(1)), HeardFrom2(dispositions, at), deferred);
      flow := DuringCreation(at(1));
      if flow.Goes? && making.NotPrivate? {
        disk := disk - {making.dir};
        flow := Raises;
      } else if flow.Goes? {
        flow := MakeRegistered(making.dir, at);
      }
    }

    method MakeRegistered(dir: nat, at: nat -> seq<Arrival>) returns (flow: Flow)
      requires creator == Some(pid) && Ready(dispositions)
      modifies this`disk, this`live, this`deferred, this`log
      ensures disk == old(disk)
      ensures flow == if Interrupted(dispositions, at(2)) || Interrupted(dispositions, at(3)) then Raises else Goes
      ensures live == if Interrupted(dispositions, at(2)) then old(live) else old(live)[dir := pid]
      ensures log == old(log) + if Interrupted(dispositions, at(2)) then [] else [Registered(dir)]
      ensures deferred == LastOf(HeardFrom2(dispositions, at), old(deferred))
    {
      LastOfConcat(Heard(dispositions, at(2)), Heard(dispositions, at(3)), deferred);
      flow := DuringCreation(at(2));
      if flow.Goes? {
        live := live[dir := pid];
        log := log + [Registered(dir)];
        flow := DuringCreation(at(3));
      }
    }

    /** The finally: the signal recorded last is sent again, once nothing defers it any more. */
    method Finish(at: nat -> seq<Arrival>, again: Arrival) returns (flow: Flow, resent: Option<Signal>)
      requires creator == Some(pid) && Ready(dispositions)
      modifies this`disk, this`live, this`creator, this`deferred, this`log
      ensures creator == None && (Covered() <==> old(Covered()))
      ensures var effect := EffectOfFinally(dispositions, at, old(deferred), again);
              && flow == effect.flow
              && log == old(log) + ResentEvent(resent) + CleanedBy(effect, old(Covered()))
              && live == old(live) - Gone(effect, old(Own())) && disk == old(disk) - Gone(effect, old(Own()))
      ensures resent == if Passes(dispositions, at) then old(deferred) else None
      ensures deferred == if FlowOfAll(dispositions, at(4)).Goes? && FlowOfAll(dispositions, at(5)).Goes? then None else old(deferred)
    {
      resent := None;
      creator := None;
      flow := Between(at(4));
      if flow.Goes? {
        flow, resent := TakeRecord(at, again);
      }
    }

    /** The record is read and cleared. */
    method TakeRecord(at: nat -> seq<Arrival>, again: Arrival) returns (flow: Flow, resent: Option<Signal>)
      requires creator != Some(pid)
      modifies this`disk, this`live, this`deferred, this`log
      ensures Covered() <==> old(Covered())
      ensures resent == if FlowOfAll(dispositions, at(5)).Goes? && FlowOfAll(dispositions, at(6)).Goes? then old(deferred) else None
      ensures deferred == if FlowOfAll(dispositions, at(5)).Goes? then None else old(deferred)
      ensures var effect := EffectOfTaking(dispositions, at, old(deferred), again);
              && flow == effect.flow
              && log == old(log) + ResentEvent(resent) + CleanedBy(effect, old(Covered()))
              && live == old(live) - Gone(effect, old(Own())) && disk == old(disk) - Gone(effect, old(Own()))
    {
      resent := None;
      var last := deferred;
      flow := Between(at(5));
      if flow.Goes? {
        deferred := None;
        flow, resent := SendAgain(at(6), last, again);
      }
    }

    /** What is left once the record is cleared. */
    method SendAgain(arrivals: seq<Arrival>, last: Option<Signal>, again: Arrival) returns (flow: Flow, resent: Option<Signal>)
      requires creator != Some(pid)
      modifies this`disk, this`live, this`deferred, this`log
      ensures (Covered() <==> old(Covered())) && deferred == old(deferred)
      ensures resent == if FlowOfAll(dispositions, arrivals).Goes? then last else None
      ensures var effect := Then(EffectOfAll(dispositions, arrivals), EffectOfResent(dispositions, last, again));
              && flow == effect.flow
              && log == old(log) + ResentEvent(resent) + CleanedBy(effect, old(Covered()))
              && live == old(live) - Gone(effect, old(Own())) && disk == old(disk) - Gone(effect, old(Own()))
    {
      resent := None;
      flow := Between(arrivals);
      if flow.Goes? && last.Some? {
        resent := last;
        log := log + [Resent(last.value)];
        flow := Handle(again.(sig := last.value));
      }
    }

    /** _install_stop_signal_cleanup, on the main thread. */
    method Install(early: nat -> seq<Arrival>) returns (flow: Flow)
      requires creator != Some(pid) && SIGTERM in dispositions && SIGINT in dispositions
      modifies this`disk, this`live, this`deferred, this`log, this`dispositions
      ensures (Covered() <==> old(Covered())) && deferred == old(deferred)
      ensures flow.Goes? ==>
                dispositions == old(dispositions)[SIGTERM := Installed(SIGTERM, old(dispositions)[SIGTERM])]
                                [SIGINT := Installed(SIGINT, old(dispositions)[SIGINT])]
      ensures var effect := EffectOfInstalling(old(dispositions), early);
              && flow == effect.flow && log == old(log) + CleanedBy(effect, old(Covered()))
              && live == old(live) - Gone(effect, old(Own())) && disk == old(disk) - Gone(effect, old(Own()))
    {
      flow := Between(early(0));
      if !flow.Goes? {
        return;
      }
      dispositions := WithSigterm(dispositions);
      flow := InstallSigint(early);
    }

    /** The second half of it. */
    method InstallSigint(early: nat -> seq<Arrival>) returns (flow: Flow)
      requires creator != Some(pid) && SIGINT in dispositions
      modifies this`disk, this`live, this`deferred, this`log, this`dispositions
      ensures (Covered() <==> old(Covered())) && deferred == old(deferred)
      ensures flow.Goes? ==> dispositions == WithSigint(old(dispositions))
      ensures var effect := Then(EffectOfAll(old(dispositions), early(1)), EffectOfAll(WithSigint(old(dispositions)), early(2)));
              && flow == effect.flow && log == old(log) + CleanedBy(effect, old(Covered()))
              && live == old(live) - Gone(effect, old(Own())) && disk == old(disk) - Gone(effect, old(Own()))
    {
      flow := Between(early(1));
      if flow.Goes? {
        dispositions := WithSigint(dispositions);
        flow := Between(early(2));
      }
    }

    /** _create_cli_config_dir once the handlers are in place. A cleanup never sees an unregistered
        directory, and none is left behind, unless an exception got out while it was being made; the
        signal recorded last is sent again, after the registration. */
    method Create(making: Making, at: nat -> seq<Arrival>, again: Arrival) returns (flow: Flow, resent: Option<Signal>)
      requires creator == None && Ready(dispositions) && Covered()
      requires !making.Fails? ==> making.dir !in disk && making.dir !in live
      modifies this`disk, this`live, this`creator, this`deferred, this`log
      ensures creator == None
      ensures Covered() <==> !Strands(dispositions, making, at)
      ensures var recorded := LastOf(HeardInCreation(dispositions, making, at), old(deferred));
              var effect := EffectOfFinally(dispositions, at, recorded, again);
              var own := old(Own()) + NewlyOwn(dispositions, making, at);
              && log == old(log) + LoggedBy(dispositions, making, at) + ResentEvent(resent)
                        + CleanedBy(effect, !Strands(dispositions, making, at))
              && live == LiveAfter(dispositions, making, at, old(live), pid) - Gone(effect, own)
              && disk == old(disk) + NewlyThere(dispositions, making, at) - Gone(effect, own)
              && flow == if effect.flow.Goes? then FlowOfMaking(dispositions, making, at) else effect.flow
      ensures resent == ResentOf(dispositions, making, at, old(deferred))
      ensures deferred == KeptOf(dispositions, making, at, old(deferred))
    {
      flow := Begin(making, at);
      var last: Flow;
      last, resent := Finish(at, again);
      if !last.Goes? {
        flow := last;
      }
    }

    /** Up to the finally. */
    method Begin(making: Making, at: nat -> seq<Arrival>) returns (flow: Flow)
      requires Ready(dispositions) && Covered()
      requires !making.Fails? ==> making.dir !in disk && making.dir !in live
      modifies this`disk, this`live, this`creator, this`deferred, this`log
      ensures creator == Some(pid) && flow == FlowOfMaking(dispositions, making, at)
      ensures deferred == LastOf(HeardInCreation(dispositions, making, at), old(deferred))
      ensures live == LiveAfter(dispositions, making, at, old(live), pid)
      ensures disk == old(disk) + NewlyThere(dispositions, making, at)
      ensures log == old(log) + LoggedBy(dispositions, making, at)
      ensures Own() == old(Own()) + NewlyOwn(dispositions, making, at) && (Covered() <==> !Strands(dispositions, making, at))
    {
      creator := Some(pid);
      flow := Make(making, at);
      assert Own() == old(Own()) + NewlyOwn(dispositions, making, at);
    }
  }

  /** A creation that goes on has its directory, registered as this process's. */
  lemma GoesOnWithADirectory(d: Dispositions, making: Making, at: nat -> seq<Arrival>, recorded: Option<Signal>, again: Arrival)
    requires FlowOfMaking(d, making, at).Goes? && EffectOfFinally(d, at, recorded, again).flow.Goes?
    ensures making.Makes? && NewlyOwn(d, making, at) == NewlyThere(d, making, at) == {making.dir}
    ensures forall own :: Gone(EffectOfFinally(d, at, recorded, again), own) == {}
  {
  }

  // -------------------------------------------------------------------------
  // When the promises hold
  // -------------------------------------------------------------------------

  lemma {:induction false} NothingRaises(d: Dispositions, arrivals: seq<Arrival>)
    requires forall sig :: sig in d ==> !d[sig].Python?
    ensures !Interrupted(d, arrivals)
    decreases |arrivals|
  {
    if arrivals != [] {
      NothingRaises(d, arrivals[1..]);
    }
  }

  /** With the handlers installed, no timing of signals leaves a directory unregistered
      exactly when SIGINT has no Python handler of its own. */
  lemma NeverStrandsIff(before: Dispositions)
    requires SIGTERM in before && SIGINT in before
    ensures var d := map[SIGTERM := Installed(SIGTERM, before[SIGTERM]), SIGINT := Installed(SIGINT, before[SIGINT])];
            (forall making: Making, at: nat -> seq<Arrival> :: !Strands(d, making, at)) <==> !before[SIGINT].Python?
  {
    var d := map[SIGTERM := Installed(SIGTERM, before[SIGTERM]), SIGINT := Installed(SIGINT, before[SIGINT])];
    if before[SIGINT].Python? {
      var at: nat -> seq<Arrival> := i => if i == 1 then [Arrival(SIGINT, true, true)] else [];
      assert RaisesAnyway(d, at(1)[0]);
      assert Strands(d, Makes(0), at);
    } else {
      forall making: Making, at: nat -> seq<Arrival> ensures !Strands(d, making, at) {
        forall sig | sig in d ensures !d[sig].Python? {
          assert sig == SIGTERM || sig == SIGINT;
        }
        NothingRaises(d, at(1));
        NothingRaises(d, at(2));
      }
    }
  }

  /** Every signal recorded during a creation is sent again exactly when none was, or all
      were the same and nothing cuts the finally short. */
  lemma AllAreResentIff(d: Dispositions, making: Making, at: nat -> seq<Arrival>, before: Option<Signal>)
    ensures var heard := HeardInCreation(d, making, at);
            (forall sig :: sig in heard ==> ResentOf(d, making, at, before) == Some(sig))
            <==> heard == [] || (Passes(d, at) && forall sig :: sig in heard ==> sig == heard[0])
  {
    var heard := HeardInCreation(d, making, at);
    if heard != [] {
      assert heard[0] in heard && heard[|heard| - 1] in heard;
    }
  }

  lemma {:induction false} HeardIsOwned(d: Dispositions, arrivals: seq<Arrival>, sig: Signal)
    requires sig in Heard(d, arrivals)
    ensures sig in d && d[sig].Cleanup?
    decreases |arrivals|
  {
    if !(Owned(d, arrivals[0]) && arrivals[0].sig == sig) {
      HeardIsOwned(d, arrivals[1..], sig);
    }
  }

  lemma RecordedIsOwned(d: Dispositions, making: Making, at: nat -> seq<Arrival>, sig: Signal)
    requires sig in HeardInCreation(d, making, at)
    ensures sig in d && d[sig].Cleanup?
  {
    if sig in Heard(d, at(0)) {
      HeardIsOwned(d, at(0), sig);
    } else if sig in Heard(d, at(1)) {
      HeardIsOwned(d, at(1), sig);
    } else if sig in Heard(d, at(2)) {
      HeardIsOwned(d, at(2), sig);
    } else {
      HeardIsOwned(d, at(3), sig);
    }
  }

  lemma {:induction false} FirstActingSplit(d: Dispositions, a: seq<Arrival>, b: seq<Arrival>)
    ensures FirstActing(d, a + b) == if FirstActing(d, a).Some? then FirstActing(d, a) else FirstActing(d, b)
    decreases |a|
  {
    if a == [] {
      assert a + b == b;
    } else {
      assert (a + b)[1..] == a[1..] + b;
      FirstActingSplit(d, a[1..], b);
    }
  }

  lemma {:induction false} ActingStops(d: Dispositions, arrivals: seq<Arrival>)
    ensures FirstActing(d, arrivals).None? <==> FlowOfAll(d, arrivals).Goes?
    ensures FirstActing(d, arrivals).Some? ==>
              var sig := FirstActing(d, arrivals).value; sig in d && (d[sig].Cleanup? || d[sig].Python? || d[sig].Default?)
    decreases |arrivals|
  {
    if arrivals != [] {
      ActingStops(d, arrivals[1..]);
    }
  }

  /** The finally is cut short exactly when it reacts to some signal. */
  lemma ReactsIffCut(d: Dispositions, at: nat -> seq<Arrival>)
    ensures ActedOn(d, at).None? <==> Passes(d, at)
    ensures ActedOn(d, at).Some? ==>
              var sig := ActedOn(d, at).value; sig in d && (d[sig].Cleanup? || d[sig].Python? || d[sig].Default?)
  {
    FirstActingSplit(d, at(4) + at(5), at(6));
    FirstActingSplit(d, at(4), at(5));
    ActingStops(d, at(4));
    ActingStops(d, at(5));
    ActingStops(d, at(6));
    ActingStops(d, at(4) + at(5) + at(6));
  }

  /** One of the two signals does nothing: then none that is recorded is lost. */
  lemma OneSignalIsNotLost(d: Dispositions, making: Making, at: nat -> seq<Arrival>, sig: Signal)
    requires Ready(d) && (d[SIGTERM].Cleanup? ==> !d[SIGINT].Cleanup? && !d[SIGINT].Python?) && !d[SIGTERM].Python?
    ensures !Lost(d, making, at, sig)
  {
    var heard := HeardInCreation(d, making, at);
    if sig in heard {
      RecordedIsOwned(d, making, at, sig);
      ReactsIffCut(d, at);
      var other := if Passes(d, at) then heard[|heard| - 1] else ActedOn(d, at).value;
      if Passes(d, at) {
        RecordedIsOwned(d, making, at, other);
      }
      assert (sig == SIGTERM || sig == SIGINT) && (other == SIGTERM || other == SIGINT);
    }
  }

  function SigtermThenSigint(): nat -> seq<Arrival> {
    i => if i == 1 then [Arrival(SIGTERM, false, true), Arrival(SIGINT, false, true)] else []
  }

  /** SIGTERM while the directory is made; then, right before it would be sent again, a
      Python SIGINT handler raises. */
  function SigtermThenInterrupt(): nat -> seq<Arrival> {
    i => if i == 1 then [Arrival(SIGTERM, false, true)] else if i == 6 then [Arrival(SIGINT, true, true)] else []
  }

  lemma HeardOne(d: Dispositions, x: Arrival)
    requires Ready(d) && Owned(d, x)
    ensures Heard(d, [x]) == [x.sig] && !Interrupted(d, [x])
  {
    assert [x][1..] == [];
    assert Heard(d, [x]) == [x.sig] + Heard(d, []);
  }

  lemma HeardTwo(d: Dispositions, x: Arrival, y: Arrival)
    requires Ready(d) && Owned(d, x) && Owned(d, y)
    ensures Heard(d, [x, y]) == [x.sig, y.sig] && !Interrupted(d, [x, y])
  {
    HeardOne(d, y);
    assert [x, y][1..] == [y];
    assert Heard(d, [x, y]) == [x.sig] + Heard(d, [y]);
  }

  /** SIGTERM and then SIGINT while the directory is made, both with our handler: SIGTERM
      is recorded and lost. */
  lemma AnEarlierSignalIsLost(d: Dispositions)
    requires Ready(d) && d[SIGTERM].Cleanup? && d[SIGINT].Cleanup?
    ensures HeardInCreation(d, Makes(0), SigtermThenSigint()) == [SIGTERM, SIGINT]
    ensures ResentOf(d, Makes(0), SigtermThenSigint(), None) == Some(SIGINT) && Lost(d, Makes(0), SigtermThenSigint(), SIGTERM)
  {
    HeardTwo(d, Arrival(SIGTERM, false, true), Arrival(SIGINT, false, true));
  }

  /** A recorded SIGTERM is lost when a Python SIGINT handler raises between the clearing of
      the record and the sending. */
  lemma ACutSignalIsLost(d: Dispositions)
    requires Ready(d) && d[SIGTERM].Cleanup? && d[SIGINT].Python?
    ensures HeardInCreation(d, Makes(0), SigtermThenInterrupt()) == [SIGTERM]
    ensures ResentOf(d, Makes(0), SigtermThenInterrupt(), None) == None && Lost(d, Makes(0), SigtermThenInterrupt(), SIGTERM)
  {
    var x := Arrival(SIGTERM, false, true);
    HeardOne(d, x);
    var at := SigtermThenInterrupt();
    assert at(4) + at(5) + at(6) == [Arrival(SIGINT, true, true)];
  }

  /** With the handlers installed, no timing of signals loses a recorded one exactly when
      not both have something to react with: SIGTERM our handler, SIGINT ours or Python's. */
  lemma NeverLosesIff(before: Dispositions)
    requires SIGTERM in before && SIGINT in before
    ensures var d := map[SIGTERM := Installed(SIGTERM, before[SIGTERM]), SIGINT := Installed(SIGINT, before[SIGINT])];
            (forall making: Making, at: nat -> seq<Arrival>, sig: Signal :: !Lost(d, making, at, sig))
            <==> !(d[SIGTERM].Cleanup? && (d[SIGINT].Cleanup? || d[SIGINT].Python?))
  {
    var d := map[SIGTERM := Installed(SIGTERM, before[SIGTERM]), SIGINT := Installed(SIGINT, before[SIGINT])];
    if d[SIGTERM].Cleanup? && d[SIGINT].Cleanup? {
      AnEarlierSignalIsLost(d);
    } else if d[SIGTERM].Cleanup? && d[SIGINT].Python? {
      ACutSignalIsLost(d);
    } else {
      forall making: Making, at: nat -> seq<Arrival>, sig: Signal ensures !Lost(d, making, at, sig) {
        OneSignalIsNotLost(d, making, at, sig);
      }
    }
  }

  /** Some signal is recorded whenever one with our handler arrives while none raises. */
  lemma {:induction false} OwnedSignalsAreHeard(d: Dispositions, arrivals: seq<Arrival>, i: nat)
    requires !Interrupted(d, arrivals) && i < |arrivals| && Owned(d, arrivals[i])
    ensures arrivals[i].sig in Heard(d, arrivals)
    decreases |arrivals|
  {
    if i > 0 {
      assert arrivals[1..][i - 1] == arrivals[i];
      OwnedSignalsAreHeard(d, arrivals[1..], i - 1);
    }
  }
}
