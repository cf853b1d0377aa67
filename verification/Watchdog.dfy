// equipa/agent_runner.py: the no-edit watchdog of _run_agent_streaming_impl.

/** Thresholds, counters, warnings and kills over a stream of agent messages. */
module Watchdog {
  import opened Wrappers

  // -------------------------------------------------------------------------
  // Thresholds
  // -------------------------------------------------------------------------

  const WARN_TURNS := 12
  const FINAL_WARN_TURNS := 20
  const KILL_TURNS := 25
  const MONOLOGUE_THRESHOLD := 3
  const MONOLOGUE_EXEMPT_TURNS := 5

  function Min(a: int, b: int): int { if a < b then a else b }

  function Max(a: int, b: int): int { if a < b then b else a }

  /** What the watchdog of one run works with. */
  datatype Limits = Limits(warn: int, finalWarn: int, kill: int, fastReads: int, exempt: bool, retry: nat)

  /** The kill threshold before a paralysis retry lowers it. maxTurns 0 stands for None too. */
  function BaseKill(maxTurns: nat, scale: real): int {
    var budget := if maxTurns == 0 then KILL_TURNS else maxTurns;
    var kill := Min((KILL_TURNS as real * 1.25).Floor, Max(KILL_TURNS, (budget as real * 0.15).Floor));
    if scale != 1.0 then (kill as real * scale).Floor else kill
  }

  function KillAfter(base: int, retry: nat): int {
    if retry > 0 then Max(8, base - Min(retry, Max(1, base / 4))) else base
  }

  function LimitsFor(maxTurns: nat, scale: real, retry: nat, exempt: bool): Limits {
    var kill := KillAfter(BaseKill(maxTurns, scale), retry);
    Limits(Max(WARN_TURNS, (kill as real * 0.45).Floor), Max(FINAL_WARN_TURNS, (kill as real * 0.7).Floor), kill,
           (12.0 * scale).Floor, exempt, retry)
  }

  lemma BaseKillRange(maxTurns: nat, scale: real)
    requires 1.0 <= scale <= 3.0
    ensures 25 <= BaseKill(maxTurns, scale) <= 93
  {
    var budget := if maxTurns == 0 then KILL_TURNS else maxTurns;
    assert (KILL_TURNS as real * 1.25).Floor == 31;
    var kill := Min(31, Max(KILL_TURNS, (budget as real * 0.15).Floor));
    assert 25.0 <= kill as real * scale <= 93.0;
  }

  /** The final warning comes no later than the kill exactly when the kill threshold
      stays at 20 or more. */
  lemma FinalWarningComesBeforeTheKillIff(maxTurns: nat, scale: real, retry: nat, exempt: bool)
    requires 1.0 <= scale <= 3.0
    ensures var l, base := LimitsFor(maxTurns, scale, retry, exempt), BaseKill(maxTurns, scale);
            && l.warn <= l.finalWarn
            && (l.finalWarn <= l.kill <==> retry == 0 || base - Min(retry, base / 4) >= FINAL_WARN_TURNS)
            && 12 <= l.fastReads <= 36
  {
    BaseKillRange(maxTurns, scale);
    var l := LimitsFor(maxTurns, scale, retry, exempt);
    assert (l.kill as real * 0.45).Floor <= (l.kill as real * 0.7).Floor <= l.kill;
    assert 12.0 <= 12.0 * scale <= 36.0;
  }

  /** From the sixth retry on it may not: the default budget, at full speed, kills before
      the final warning is due. */
  lemma TheSixthRetryIsKilledFirst()
    ensures var l := LimitsFor(0, 1.0, 6, false); l.kill == 19 && l.finalWarn == 20
  {
    assert (KILL_TURNS as real * 1.25).Floor == 31;
    assert (KILL_TURNS as real * 0.15).Floor == 3;
    assert BaseKill(0, 1.0) == 25;
    FinalWarningComesBeforeTheKillIff(0, 1.0, 6, false);
  }

  /** The default budget and the largest one: what the fractions come to. */
  lemma ThresholdsAtTheEnds(exempt: bool)
    ensures LimitsFor(0, 1.0, 0, exempt) == Limits(12, 20, 25, 12, exempt, 0)
    ensures LimitsFor(500, 3.0, 0, exempt) == Limits(41, 65, 93, 36, exempt, 0)
  {
    assert (KILL_TURNS as real * 1.25).Floor == 31;
    assert (25 as real * 0.15).Floor == 3 && (500 as real * 0.15).Floor == 75;
    assert BaseKill(0, 1.0) == 25;
    assert (25 as real * 0.45).Floor == 11 && (25 as real * 0.7).Floor == 17;
    assert (31 as real * 3.0).Floor == 93;
    assert (93 as real * 0.45).Floor == 41 && (93 as real * 0.7).Floor == 65;
  }

  /** warn <= final warning <= kill <= 93 for every budget, scale and up to five retries. */
  lemma ThresholdsAreOrdered(maxTurns: nat, scale: real, retry: nat, exempt: bool)
    requires 1.0 <= scale <= 3.0 && retry <= 5
    ensures var l := LimitsFor(maxTurns, scale, retry, exempt); l.warn <= l.finalWarn <= l.kill <= 93
  {
    BaseKillRange(maxTurns, scale);
    FinalWarningComesBeforeTheKillIff(maxTurns, scale, retry, exempt);
  }

  // -------------------------------------------------------------------------
  // Messages and state
  // -------------------------------------------------------------------------

  /** bashWrites: a Bash command holding one of the words that count as a file change. */
  datatype Tool = Tool(name: string, param: string, bashWrites: bool)

  /** One message of the stream. elsewhere: another detector (stuck phrases, the Bash
      check, git) gives a reason to stop; loop: the repeated-operation detector does;
      done: the agent says it is finished. */
  datatype Message =
    | Assistant(tools: seq<Tool>, elsewhere: bool, loop: bool, done: bool)
    | ToolResults(gitChange: bool, elsewhere: bool)

  datatype Reason = Elsewhere | LoopDetected | PostWarningReads | ReadingRatio | NoFileChange | PostWarningText | Monologue

  datatype Watch = Watch(
    turns: nat, idle: nat, anyChange: bool, mustWrite: bool, postReads: nat, readStreak: nat,
    warned: bool, finalWarned: bool, textOnly: nat, history: seq<string>, reason: Option<Reason>, done: bool)

  const START := Watch(0, 0, false, false, 0, 0, false, false, 0, [], None, false)

  predicate IsReader(name: string) {
    name == "Read" || name == "Grep" || name == "Glob" || name == "Agent"
  }

  predicate Changes(t: Tool) {
    t.name == "Edit" || t.name == "Write" || t.name == "NotebookEdit" || (t.name == "Bash" && t.bashWrites)
  }

  predicate AnyChanges(tools: seq<Tool>) {
    exists i :: 0 <= i < |tools| && Changes(tools[i])
  }

  /** _build_tool_signature */
  function Signature(t: Tool): string {
    t.name + "|" + t.param
  }

  predicate HasPrefix(s: string, prefix: string) {
    |prefix| <= |s| && s[..|prefix|] == prefix
  }

  /** The test by which the reading ratio counts a signature. */
  predicate CountsAsRead(signature: string) {
    HasPrefix(signature, "Read:") || HasPrefix(signature, "Grep:") || HasPrefix(signature, "Glob:")
    || HasPrefix(signature, "Agent:")
  }

  function ReadsIn(history: seq<string>): nat {
    if history == [] then 0
    else ReadsIn(history[..|history| - 1]) + if CountsAsRead(history[|history| - 1]) then 1 else 0
  }

  /** At least three quarters of the recorded calls. */
  predicate RatioReached(history: seq<string>) {
    history != [] && 4 * ReadsIn(history) >= 3 * |history|
  }

  predicate Stopped(w: Watch) {
    w.reason.Some? || w.done
  }

  // -------------------------------------------------------------------------
  // What one message does
  // -------------------------------------------------------------------------

  /** A message that changed a file. */
  function AfterChange(w: Watch): Watch {
    w.(idle := 0, readStreak := 0, mustWrite := false, postReads := 0)
  }

  /** _evaluate_paralysis_retry_read_gate arms must-write. */
  predicate GateArms(l: Limits, w: Watch, last: Tool) {
    l.retry >= 2 && !w.anyChange && IsReader(last.name) && w.turns == 1 && !w.mustWrite
  }

  function StreakAfter(w: Watch, last: Tool): nat {
    w.readStreak + if IsReader(last.name) then 1 else 0
  }

  predicate FastEscalates(l: Limits, w: Watch, last: Tool) {
    StreakAfter(w, last) >= l.fastReads && !w.finalWarned && !GateArms(l, w, last)
  }

  /** Counting the message, and the two ways to skip to the final warning. */
  function Escalated(l: Limits, w: Watch, last: Tool): Watch {
    var now := GateArms(l, w, last) || FastEscalates(l, w, last);
    w.(idle := w.idle + 1, readStreak := StreakAfter(w, last), history := w.history + [Signature(last)],
       mustWrite := w.mustWrite || now, warned := w.warned || now, finalWarned := w.finalWarned || now)
  }

  predicate LateFinalWarning(l: Limits, w: Watch) {
    w.idle >= l.finalWarn && !w.finalWarned
  }

  function ReasonAfter(l: Limits, w: Watch, loop: bool): Option<Reason> {
    var looped := if loop then Some(LoopDetected) else w.reason;
    var posted := if w.mustWrite && w.postReads + 1 != 1 then Some(PostWarningReads) else looped;
    if w.idle >= l.kill then Some(NoFileChange)
    else if posted.None? && w.turns >= 8 && w.readStreak >= 4 && RatioReached(w.history) then Some(ReadingRatio)
    else posted
  }

  /** The post-warning check, the warnings by turns and the kills. */
  function Enforced(l: Limits, w: Watch, loop: bool): Watch {
    w.(postReads := w.postReads + (if w.mustWrite then 1 else 0),
       warned := w.warned || w.idle >= l.warn,
       mustWrite := w.mustWrite || LateFinalWarning(l, w),
       finalWarned := w.finalWarned || LateFinalWarning(l, w),
       reason := ReasonAfter(l, w, loop))
  }

  /** A message with tool calls that changed nothing; last is its last tool, w counts its turns already. */
  function AfterNoChange(l: Limits, w: Watch, last: Tool, loop: bool): Watch {
    Enforced(l, Escalated(l, w, last), loop)
  }

  function AfterText(l: Limits, w: Watch): Watch {
    var n := w.textOnly + 1;
    var told := if w.mustWrite && !l.exempt then Some(PostWarningText) else w.reason;
    w.(textOnly := n, reason := if w.turns > MONOLOGUE_EXEMPT_TURNS && n >= MONOLOGUE_THRESHOLD then Some(Monologue) else told)
  }

  /** The blocks of the message are read: turns, changes and what other detectors say. */
  function Seen(w: Watch, m: Message): Watch
    requires m.Assistant?
  {
    w.(turns := w.turns + |m.tools|, anyChange := w.anyChange || AnyChanges(m.tools),
       reason := if m.elsewhere then Some(Elsewhere) else w.reason, done := w.done || m.done)
  }

  function AfterTools(l: Limits, w: Watch, last: Tool, change: bool, loop: bool): Watch {
    (if l.exempt then w else if change then AfterChange(w) else AfterNoChange(l, w, last, loop)).(textOnly := 0)
  }

  /** One message; nothing happens once the stream was stopped. */
  function Step(l: Limits, w: Watch, m: Message): Watch {
    if Stopped(w) then w
    else match m
      case Assistant(tools, _, loop, _) =>
        if tools == [] then AfterText(l, Seen(w, m))
        else AfterTools(l, Seen(w, m), tools[|tools| - 1], AnyChanges(tools), loop)
      case ToolResults(gitChange, elsewhere) =>
        w.(idle := if gitChange then 0 else w.idle, anyChange := w.anyChange || gitChange,
           reason := if elsewhere then Some(Elsewhere) else w.reason)
  }

  function Run(l: Limits, w: Watch, ms: seq<Message>): Watch {
    if ms == [] then w else Step(l, Run(l, w, ms[..|ms| - 1]), ms[|ms| - 1])
  }

  /** The stream goes on after these messages. */
  predicate Live(l: Limits, ms: seq<Message>) {
    !Stopped(Run(l, START, ms))
  }

  // -------------------------------------------------------------------------
  // The monitor
  // -------------------------------------------------------------------------

  lemma QuotientAtLeast(t: real, c: real, q: real)
    requires c > 0.0
    ensures t / c >= q <==> t >= q * c
  {
    var x := t / c;
    assert x * c == t;
    if x >= q {
      assert (x - q) * c >= 0.0;
    } else {
      assert (q - x) * c > 0.0;
    }
  }

  lemma QuarterOf(total: nat, calls: nat)
    requires calls > 0
    ensures total as real / calls as real >= 0.75 <==> 4 * total >= 3 * calls
  {
    QuotientAtLeast(total as real, calls as real, 0.75);
  }

  method CountReads(history: seq<string>) returns (total: nat)
    ensures total == ReadsIn(history)
  {
    total := 0;
    for i := 0 to |history|
      invariant total == ReadsIn(history[..i])
    {
      assert history[..i + 1][..i] == history[..i];
      if CountsAsRead(history[i]) {
        total := total + 1;
      }
    }
    assert history[..|history|] == history;
  }

  method RatioIsHigh(history: seq<string>) returns (high: bool)
    ensures high == RatioReached(history)
  {
    if history == [] {
      return false;
    }
    var total := CountReads(history);
    var calls := |history|;
    high := total as real / calls as real >= 0.75;
    QuarterOf(total, calls);
  }

  method Escalate(l: Limits, w: Watch, last: Tool) returns (r: Watch)
    ensures r == Escalated(l, w, last)
  {
    r := w.(idle := w.idle + 1);
    if l.retry >= 2 && !r.anyChange && IsReader(last.name) && r.turns == 1 && !r.mustWrite {
      r := r.(mustWrite := true, warned := true, finalWarned := true);
    }
    if IsReader(last.name) {
      r := r.(readStreak := r.readStreak + 1);
    }
    if r.readStreak >= l.fastReads && !r.finalWarned {
      r := r.(warned := true, finalWarned := true, mustWrite := true);
    }
    r := r.(history := r.history + [Signature(last)]);
  }

  method Enforce(l: Limits, w: Watch, loop: bool) returns (r: Watch)
    ensures r == Enforced(l, w, loop)
  {
    var mustWrite, postReads, warned, finalWarned, reason := w.mustWrite, w.postReads, w.warned, w.finalWarned, w.reason;
    if loop {
      reason := Some(LoopDetected);
    }
    if mustWrite {
      postReads := postReads + 1;
      if postReads != 1 {
        reason := Some(PostWarningReads);
      }
    }
    if w.idle >= l.warn && !warned {
      warned := true;
    }
    if w.idle >= l.finalWarn && !finalWarned {
      finalWarned, mustWrite := true, true;
    }
    if w.turns >= 8 && reason.None? && w.readStreak >= 4 && w.history != [] {
      var high := RatioIsHigh(w.history);
      if high {
        reason := Some(ReadingRatio);
      }
    }
    if w.idle >= l.kill {
      reason := Some(NoFileChange);
    }
    r := w.(mustWrite := mustWrite, postReads := postReads, warned := warned, finalWarned := finalWarned, reason := reason);
  }

  /** The tool blocks of one message, in order. */
  method ReadBlocks(w: Watch, tools: seq<Tool>) returns (r: Watch, change: bool)
    ensures change == AnyChanges(tools)
    ensures r == w.(turns := w.turns + |tools|, anyChange := w.anyChange || change)
  {
    r, change := w, false;
    for i := 0 to |tools|
      invariant change == exists j :: 0 <= j < i && Changes(tools[j])
      invariant r == w.(turns := w.turns + i, anyChange := w.anyChange || change)
    {
      r := r.(turns := r.turns + 1);
      if Changes(tools[i]) {
        change := true;
        r := r.(anyChange := true);
      }
    }
  }

  method OnText(l: Limits, w: Watch) returns (r: Watch)
    ensures r == AfterText(l, w)
  {
    var textOnly, reason := w.textOnly + 1, w.reason;
    if w.mustWrite && !l.exempt {
      reason := Some(PostWarningText);
    }
    if w.turns > MONOLOGUE_EXEMPT_TURNS && textOnly >= MONOLOGUE_THRESHOLD {
      reason := Some(Monologue);
    }
    r := w.(textOnly := textOnly, reason := reason);
  }

  method OnToolCalls(l: Limits, w: Watch, last: Tool, change: bool, loop: bool) returns (r: Watch)
    ensures r == AfterTools(l, w, last, change, loop)
  {
    r := w;
    if !l.exempt {
      if change {
        r := r.(idle := 0, readStreak := 0, mustWrite := false, postReads := 0);
      } else {
        r := Escalate(l, r, last);
        r := Enforce(l, r, loop);
      }
    }
    r := r.(textOnly := 0);
  }

  method OnAssistant(l: Limits, w: Watch, m: Message) returns (r: Watch)
    requires m.Assistant? && !Stopped(w)
    ensures r == Step(l, w, m)
  {
    var reason, change := w.reason, false;
    if m.elsewhere {
      reason := Some(Elsewhere);
    }
    r, change := ReadBlocks(w, m.tools);
    r := r.(reason := reason, done := w.done || m.done);
    assert r == Seen(w, m);
    if m.tools == [] {
      r := OnText(l, r);
    } else {
      r := OnToolCalls(l, r, m.tools[|m.tools| - 1], change, m.loop);
    }
  }

  /** The stream is read until something stops it. */
  method Monitor(l: Limits, stream: seq<Message>) returns (count: nat, w: Watch)
    ensures count <= |stream| && w == Run(l, START, stream[..count])
    ensures count == |stream| || Stopped(w)
    ensures forall i :: 0 <= i < count ==> Live(l, stream[..i])
  {
    count, w := 0, START;
    while count < |stream| && !Stopped(w)
      invariant count <= |stream| && w == Run(l, START, stream[..count])
      invariant forall i :: 0 <= i < count ==> Live(l, stream[..i])
    {
      assert stream[..count + 1][..count] == stream[..count];
      match stream[count] {
        case Assistant(_, _, _, _) => w := OnAssistant(l, w, stream[count]);
        case ToolResults(gitChange, elsewhere) =>
          if gitChange {
            w := w.(anyChange := true, idle := 0);
          }
          if elsewhere {
            w := w.(reason := Some(Elsewhere));
          }
      }
      count := count + 1;
    }
  }

  // -------------------------------------------------------------------------
  // What every run keeps
  // -------------------------------------------------------------------------

  lemma {:induction false} RunConcat(l: Limits, w: Watch, a: seq<Message>, b: seq<Message>)
    ensures Run(l, w, a + b) == Run(l, Run(l, w, a), b)
    decreases |b|
  {
    if b == [] {
      assert a + b == a;
    } else {
      assert (a + b)[..|a + b| - 1] == a + b[..|b| - 1];
      RunConcat(l, w, a, b[..|b| - 1]);
    }
  }

  ghost predicate InBounds(l: Limits, w: Watch) {
    !Stopped(w) ==>
      && w.idle < l.kill
      && w.postReads <= 1
      && (!w.mustWrite ==> w.postReads == 0)
      && (w.turns > MONOLOGUE_EXEMPT_TURNS ==> w.textOnly < MONOLOGUE_THRESHOLD)
  }

  lemma StepStaysInBounds(l: Limits, w: Watch, m: Message)
    requires !l.exempt && l.kill > 0 && InBounds(l, w)
    ensures InBounds(l, Step(l, w, m))
  {
  }

  lemma {:induction false} RunStaysInBounds(l: Limits, w: Watch, ms: seq<Message>)
    requires !l.exempt && l.kill > 0 && InBounds(l, w)
    ensures InBounds(l, Run(l, w, ms))
    decreases |ms|
  {
    if ms != [] {
      RunStaysInBounds(l, w, ms[..|ms| - 1]);
      StepStaysInBounds(l, Run(l, w, ms[..|ms| - 1]), ms[|ms| - 1]);
    }
  }

  /** While the stream of a non-exempt role goes on, its turns without a change stay below
      the kill threshold, and it made at most one call since the final warning, none
      unless it must write. */
  lemma LiveRunIsInBounds(l: Limits, ms: seq<Message>)
    requires !l.exempt && l.kill > 0 && Live(l, ms)
    ensures var w := Run(l, START, ms);
            w.idle < l.kill && w.postReads <= 1 && (!w.mustWrite ==> w.postReads == 0)
  {
    RunStaysInBounds(l, START, ms);
  }

  /** The messages with tool calls. */
  function ToolCount(ms: seq<Message>): nat {
    if ms == [] then 0
    else ToolCount(ms[..|ms| - 1]) + if ms[|ms| - 1].Assistant? && ms[|ms| - 1].tools != [] then 1 else 0
  }

  function TextCount(ms: seq<Message>): nat {
    if ms == [] then 0
    else TextCount(ms[..|ms| - 1]) + if ms[|ms| - 1].Assistant? && ms[|ms| - 1].tools == [] then 1 else 0
  }

  predicate NoWrite(m: Message) {
    m.Assistant? ==> !AnyChanges(m.tools)
  }

  predicate NoChange(m: Message) {
    NoWrite(m) && (m.ToolResults? ==> !m.gitChange)
  }

  lemma {:induction false} IdleCountsCalls(l: Limits, w: Watch, ms: seq<Message>)
    requires !l.exempt && (forall m :: m in ms ==> NoChange(m)) && !Stopped(Run(l, w, ms))
    ensures Run(l, w, ms).idle == w.idle + ToolCount(ms)
    decreases |ms|
  {
    if ms != [] {
      IdleCountsCalls(l, w, ms[..|ms| - 1]);
      assert ms[|ms| - 1] in ms && NoChange(ms[|ms| - 1]);
    }
  }

  /** Past the first turns at most two text-only messages follow one another. */
  lemma {:induction false} TextsAreFew(l: Limits, w: Watch, ms: seq<Message>)
    requires !l.exempt && l.kill > 0 && InBounds(l, w) && w.turns > MONOLOGUE_EXEMPT_TURNS && !Stopped(Run(l, w, ms))
    ensures Run(l, w, ms).turns > MONOLOGUE_EXEMPT_TURNS
    ensures TextCount(ms) <= 2 * ToolCount(ms) + Run(l, w, ms).textOnly
    decreases |ms|
  {
    if ms != [] {
      var first := ms[..|ms| - 1];
      TextsAreFew(l, w, first);
      RunStaysInBounds(l, w, first);
    }
  }

  /** An agent that stops changing files is stopped: without a change found, fewer than kill
      messages with calls go by, and past the first turns fewer than three times as many messages. */
  lemma IdleStretchEnds(l: Limits, before: seq<Message>, stretch: seq<Message>)
    requires !l.exempt && l.kill > 0 && Live(l, before + stretch)
    requires forall m :: m in stretch ==> NoChange(m)
    ensures ToolCount(stretch) < l.kill
    ensures Run(l, START, before).turns > MONOLOGUE_EXEMPT_TURNS ==> ToolCount(stretch) + TextCount(stretch) < 3 * l.kill
  {
    var w := Run(l, START, before);
    RunConcat(l, START, before, stretch);
    RunStaysInBounds(l, START, before);
    RunStaysInBounds(l, w, stretch);
    IdleCountsCalls(l, w, stretch);
    if w.turns > MONOLOGUE_EXEMPT_TURNS {
      TextsAreFew(l, w, stretch);
    }
  }

  /** Once told to write, the agent is stopped at its first text-only message, and at its
      second message with calls, unless it writes in between. */
  lemma {:induction false} AfterTheFinalWarning(l: Limits, before: seq<Message>, after: seq<Message>)
    requires !l.exempt && l.kill > 0 && Live(l, before + after) && Run(l, START, before).mustWrite
    requires forall m :: m in after ==> NoWrite(m)
    ensures TextCount(after) == 0 && ToolCount(after) <= 1
    ensures Run(l, START, before + after).mustWrite
    ensures Run(l, START, before + after).postReads == Run(l, START, before).postReads + ToolCount(after)
    decreases |after|
  {
    if after == [] {
      assert before + after == before;
    } else {
      var first, m := after[..|after| - 1], after[|after| - 1];
      assert (before + after)[..|before + after| - 1] == before + first;
      AfterTheFinalWarning(l, before, first);
      assert m in after;
      RunStaysInBounds(l, START, before + after);
    }
  }

  // -------------------------------------------------------------------------
  // A run that keeps writing
  // -------------------------------------------------------------------------

  const WRITERS: set<string> := {"Edit", "Write", "NotebookEdit"}

  predicate Writes(m: Message) {
    m.Assistant? && exists i :: 0 <= i < |m.tools| && m.tools[i].name in WRITERS
  }

  lemma WritingResets(l: Limits, w: Watch, m: Message)
    requires !l.exempt && !Stopped(w) && Writes(m)
    ensures var r := Step(l, w, m);
            r.idle == 0 && r.readStreak == 0 && !r.mustWrite && r.anyChange && r.reason == (if m.elsewhere then Some(Elsewhere) else None)
  {
    var i :| 0 <= i < |m.tools| && m.tools[i].name in WRITERS;
    assert Changes(m.tools[i]);
  }

  /** The messages since the last one that writes. */
  function Since(ms: seq<Message>): (n: nat)
    ensures n <= |ms| && forall j :: |ms| - n <= j < |ms| ==> !Writes(ms[j])
  {
    if ms == [] || Writes(ms[|ms| - 1]) then 0 else Since(ms[..|ms| - 1]) + 1
  }

  /** n messages went by since the last one that writes, and the run was not stopped for
      changing no file. */
  ghost predicate RecentlyWrote(l: Limits, w: Watch, n: nat) {
    w.reason != Some(NoFileChange) && (!Stopped(w) ==> w.idle <= (if l.exempt then 0 else n))
  }

  /** One message raises the count by one at most, and only at the threshold is it the reason. */
  lemma IdleStep(l: Limits, w: Watch, m: Message)
    requires !Stopped(w)
    ensures Step(l, w, m).idle <= w.idle + (if l.exempt then 0 else 1)
    ensures Step(l, w, m).reason == Some(NoFileChange) ==> !l.exempt && w.idle + 1 >= l.kill
  {
    if m.Assistant? && m.tools != [] {
      var seen := Seen(w, m);
      assert seen.idle == w.idle && seen.reason != Some(NoFileChange);
    }
  }

  lemma RecentlyWroteStep(l: Limits, w: Watch, m: Message, n: nat)
    requires RecentlyWrote(l, w, n) && (!Writes(m) ==> n + 1 < l.kill)
    ensures RecentlyWrote(l, Step(l, w, m), if Writes(m) then 0 else n + 1)
  {
    if !Stopped(w) {
      IdleStep(l, w, m);
      if !l.exempt && Writes(m) {
        WritingResets(l, w, m);
      }
    }
  }

  lemma {:induction false} IdleIsRecent(l: Limits, ms: seq<Message>)
    requires forall n :: 0 <= n <= |ms| ==> Since(ms[..n]) < l.kill
    ensures RecentlyWrote(l, Run(l, START, ms), Since(ms))
    decreases |ms|
  {
    if ms != [] {
      var first, m := ms[..|ms| - 1], ms[|ms| - 1];
      forall n | 0 <= n <= |first| ensures Since(first[..n]) < l.kill {
        assert first[..n] == ms[..n];
      }
      IdleIsRecent(l, first);
      assert ms[..|ms|] == ms;
      RecentlyWroteStep(l, Run(l, START, first), m, Since(first));
    }
  }

  /** Every kill messages in a row hold one that writes. */
  ghost predicate KeepsWriting(l: Limits, ms: seq<Message>) {
    forall i :: 0 <= i <= |ms| - l.kill ==> WritesWithin(ms, i, l.kill)
  }

  ghost predicate WritesWithin(ms: seq<Message>, i: int, count: int)
    requires 0 <= i && i + count <= |ms|
  {
    exists j :: i <= j < i + count && Writes(ms[j])
  }

  lemma SinceIsShort(l: Limits, ms: seq<Message>, n: nat)
    requires l.kill > 0 && n <= |ms| && KeepsWriting(l, ms)
    ensures Since(ms[..n]) < l.kill
  {
    var t := ms[..n];
    if n >= l.kill {
      var i := n - l.kill;
      assert WritesWithin(ms, i, l.kill);
      var j :| i <= j < n && Writes(ms[j]);
      assert t[j] == ms[j];
    }
  }

  /** An agent that goes on writing is not stopped for changing no file. */
  lemma WritersAreNotStopped(l: Limits, ms: seq<Message>)
    requires l.kill > 0 && KeepsWriting(l, ms)
    ensures Run(l, START, ms).reason != Some(NoFileChange)
  {
    forall n | 0 <= n <= |ms| ensures Since(ms[..n]) < l.kill {
      SinceIsShort(l, ms, n);
    }
    IdleIsRecent(l, ms);
  }

  // -------------------------------------------------------------------------
  // A run that only reads
  // -------------------------------------------------------------------------

  predicate ReadsOnly(m: Message) {
    m.Assistant? && m.tools != [] ==> !AnyChanges(m.tools) && IsReader(m.tools[|m.tools| - 1].name)
  }

  /** calls read-only messages have gone by. */
  ghost predicate ReadingSoFar(l: Limits, w: Watch, calls: nat) {
    !Stopped(w) ==>
      && w.readStreak == calls <= l.fastReads
      && (w.finalWarned ==> w.mustWrite)
      && (w.mustWrite ==> w.postReads <= 1)
      && (w.postReads == 0 ==> calls < l.fastReads)
      && (!w.mustWrite ==> w.postReads == 0)
  }

  lemma {:induction false} ReadOnlyRun(l: Limits, ms: seq<Message>)
    requires !l.exempt && l.fastReads > 0 && forall m :: m in ms ==> ReadsOnly(m)
    ensures ReadingSoFar(l, Run(l, START, ms), ToolCount(ms))
    decreases |ms|
  {
    if ms != [] {
      ReadOnlyRun(l, ms[..|ms| - 1]);
      assert ms[|ms| - 1] in ms;
    }
  }

  /** A run whose messages are read-only from the start is stopped by its (fast + 1)-th one,
      whatever git reports in between. */
  lemma ReadOnlyRunEnds(l: Limits, ms: seq<Message>)
    requires !l.exempt && l.fastReads > 0 && (forall m :: m in ms ==> ReadsOnly(m)) && Live(l, ms)
    ensures ToolCount(ms) <= l.fastReads
  {
    ReadOnlyRun(l, ms);
  }

  // -------------------------------------------------------------------------
  // The reading ratio
  // -------------------------------------------------------------------------

  /** Signatures separate the name by a bar and the ratio looks for a colon: only a tool
      whose own name begins with Read:, Grep:, Glob: or Agent: is counted. */
  lemma CountedIff(t: Tool)
    ensures CountsAsRead(Signature(t)) <==>
            HasPrefix(t.name, "Read:") || HasPrefix(t.name, "Grep:") || HasPrefix(t.name, "Glob:") || HasPrefix(t.name, "Agent:")
  {
    CountedByPrefix(t, "Read:");
    CountedByPrefix(t, "Grep:");
    CountedByPrefix(t, "Glob:");
    CountedByPrefix(t, "Agent:");
  }

  lemma CountedByPrefix(t: Tool, prefix: string)
    requires '|' !in prefix
    ensures HasPrefix(Signature(t), prefix) <==> HasPrefix(t.name, prefix)
  {
    var s, n := Signature(t), |t.name|;
    assert s[..n] == t.name && s[n] == '|';
    if |prefix| <= n {
      assert s[..|prefix|] == t.name[..|prefix|];
    } else if |prefix| <= |s| {
      assert s[..|prefix|][n] == '|';
    }
  }

  lemma PlainNameIsUncounted(t: Tool)
    requires ':' !in t.name
    ensures !CountsAsRead(Signature(t))
  {
    CountedIff(t);
    assert "Read:"[4] == ':' && "Grep:"[4] == ':' && "Glob:"[4] == ':' && "Agent:"[5] == ':';
    forall prefix: string | ':' in prefix ensures !HasPrefix(t.name, prefix) {
      if |prefix| <= |t.name| {
        assert forall c :: c in t.name[..|prefix|] ==> c in t.name;
      }
    }
  }

  predicate PlainNames(m: Message) {
    m.Assistant? ==> forall i :: 0 <= i < |m.tools| ==> ':' !in m.tools[i].name
  }

  predicate Records(l: Limits, w: Watch, m: Message) {
    !Stopped(w) && !l.exempt && m.Assistant? && m.tools != [] && !AnyChanges(m.tools)
  }

  lemma {:induction false} NothingIsCounted(l: Limits, ms: seq<Message>)
    requires forall m :: m in ms ==> PlainNames(m)
    ensures ReadsIn(Run(l, START, ms).history) == 0 && Run(l, START, ms).reason != Some(ReadingRatio)
    decreases |ms|
  {
    if ms != [] {
      var w, m := Run(l, START, ms[..|ms| - 1]), ms[|ms| - 1];
      NothingIsCounted(l, ms[..|ms| - 1]);
      assert m in ms && PlainNames(m);
      if Records(l, w, m) {
        var last := m.tools[|m.tools| - 1];
        PlainNameIsUncounted(last);
        assert (w.history + [Signature(last)])[..|w.history|] == w.history;
      }
    }
  }

  /** So no run whose tool names hold no colon, as Read, Grep, Glob and Agent do not,
      is stopped for its reading ratio. */
  lemma ReadersNeverTripTheRatio(l: Limits, ms: seq<Message>)
    requires forall m :: m in ms ==> PlainNames(m)
    ensures Run(l, START, ms).reason != Some(ReadingRatio)
  {
    NothingIsCounted(l, ms);
  }

  // -------------------------------------------------------------------------
  // Relapse
  // -------------------------------------------------------------------------

  /** A single read, with nothing else to report. */
  predicate QuietRead(m: Message) {
    m.Assistant? && !m.elsewhere && !m.loop && !m.done && |m.tools| == 1 && IsReader(m.tools[0].name)
  }

  /** Warned, then wrote; nothing counts as a read by the ratio. */
  ghost predicate Recovered(w: Watch) {
    !Stopped(w) && w.finalWarned && !w.mustWrite && w.anyChange && ReadsIn(w.history) == 0
  }

  lemma QuietReadStep(l: Limits, w: Watch, m: Message)
    requires !l.exempt && Recovered(w) && QuietRead(m)
    ensures var r := Step(l, w, m);
            && r.idle == w.idle + 1
            && (if r.idle < l.kill then Recovered(r) else r.reason == Some(NoFileChange))
  {
    var last := m.tools[0];
    assert !AnyChanges(m.tools);
    assert ':' !in last.name;
    PlainNameIsUncounted(last);
    assert (w.history + [Signature(last)])[..|w.history|] == w.history;
  }

  /** The final warning is given once: an agent that wrote after it and then only reads is
      not warned into writing again, and is stopped exactly at the kill threshold. */
  lemma {:induction false} RelapseRunsToTheKill(l: Limits, w: Watch, ms: seq<Message>)
    requires !l.exempt && l.kill > 0 && forall m :: m in ms ==> QuietRead(m)
    requires Recovered(w) && w.idle == 0
    ensures !Stopped(Run(l, w, ms)) <==> |ms| < l.kill
    ensures |ms| < l.kill ==> Recovered(Run(l, w, ms)) && Run(l, w, ms).idle == |ms|
    decreases |ms|
  {
    if ms != [] {
      var first, m := ms[..|ms| - 1], ms[|ms| - 1];
      RelapseRunsToTheKill(l, w, first);
      assert m in ms;
      if |first| < l.kill {
        QuietReadStep(l, Run(l, w, first), m);
      }
    }
  }
}
