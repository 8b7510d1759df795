/**
  The loop inside the protocol: what the agent loop concludes is what the protocol lets a worker
  decide, and an attempt that nothing interrupts is a path of the protocol that ends with counters equal
  to its rows (internal/agentrun/agentrun.go, internal/agentrun/report.go, internal/agent/loop.go).
*/
module AttemptPath {
  import opened Prelude
  import opened Paths
  import opened RunRows
  import opened RunProtocol
  import Timeline = RunTimeline
  import StepReport
  import Loop = AgentLoop
  import Evidence

  // ---------------------------------------------------------------- verdicts

  function RowReason(stop: Loop.StopReason): StopReason {
    match stop
    case Completed => StopReason.Completed
    case MaxSteps => StopReason.MaxSteps
    case MaxToolCalls => StopReason.MaxToolCalls
    case Timeout => StopReason.Timeout
    case TokenBudget => StopReason.TokenBudget
    case Error => StopReason.Error
  }

  /** The outcome the worker writes for what the loop concluded; `explain` words a failure. */
  function RowOutcome(o: Loop.Outcome, explain: Loop.Failure -> Bytes): RunOutcome {
    RunOutcome(if o.status == Loop.Succeeded then RunStatus.Succeeded else RunStatus.Failed, RowReason(o.stop), o.final,
               if o.failure.Some? then Some(explain(o.failure.value)) else None,
               o.stepCount, o.toolCallCount, o.promptTokens, o.completionTokens)
  }

  /** The same reason, as the row spells it. */
  predicate SameReason(a: StopReason, b: Loop.StopReason) {
    && (a.Completed? <==> b.Completed?) && (a.MaxSteps? <==> b.MaxSteps?) && (a.MaxToolCalls? <==> b.MaxToolCalls?)
    && (a.Timeout? <==> b.Timeout?) && (a.TokenBudget? <==> b.TokenBudget?) && (a.Error? <==> b.Error?)
  }

  /**
    The row says what the loop concluded: a success has its result and no error, a failure its error and
    no result; the stop reason, the counts and the tokens are the loop's, and the attempt is the same one.
  */
  ghost predicate SaysTheVerdict(before: Run, after: Run, o: Loop.Outcome, explain: Loop.Failure -> Bytes, t: Time) {
    && (if o.status == Loop.Succeeded then
          && after.status == RunStatus.Succeeded && o.final.Some?
          && after.finalResult == Some(o.final.value) && after.error == None
        else
          && after.status == RunStatus.Failed && after.finalResult == None
          && o.failure.Some? && after.error == Some(explain(o.failure.value)))
    && after.stopReason.Some? && SameReason(after.stopReason.value, o.stop)
    && after.stepCount == o.stepCount && after.toolCallCount == o.toolCallCount
    && after.promptTokens == o.promptTokens && after.completionTokens == o.completionTokens
    && after.finishedAt == Some(t) && after.updatedAt == t
    && after.incident == before.incident && after.attempts == before.attempts && after.startedAt == before.startedAt
  }

  lemma TheRowSaysTheVerdict(w: Loop.World, trail: seq<Loop.Step>, toolCalls: nat, stop: Option<Loop.StopReason>,
                             o: Loop.Outcome, explain: Loop.Failure -> Bytes, before: Run, t: Time)
    requires Loop.Verdict(w, trail, toolCalls, stop, o)
    ensures SaysTheVerdict(before, FinishedRow(before, RowOutcome(o, explain), t), o, explain, t)
  {
    hide Loop.Timeline, Loop.TwoNones, Loop.ToolSteps, Loop.Diagnosis, Loop.OnlyForced;
  }

  /** Whether the attempt's last report failed. */
  predicate Unrecorded(o: Loop.Outcome) { o.failure.Some? && o.failure.value.NotRecorded? }

  /** Every verdict of the loop is one the protocol admits at the point its steps have brought it to. */
  lemma VerdictsMayBeDecided(w: Loop.World, trail: seq<Loop.Step>, toolCalls: nat, stop: Option<Loop.StopReason>,
                             o: Loop.Outcome, explain: Loop.Failure -> Bytes, attempt: nat)
    requires Loop.Verdict(w, trail, toolCalls, stop, o)
    requires o.stepCount == |trail| && o.toolCallCount == toolCalls
    ensures MayDecide(Looping(attempt, |trail|, Loop.ToolSteps(trail), Unrecorded(o)), RowOutcome(o, explain))
  {
    hide Loop.Timeline, Loop.TwoNones, Loop.ToolSteps;
  }

  // ---------------------------------------------------------------- paths

  /** One action of the protocol, or only one that is made inside its worker's lease. */
  ghost function Steps(lease: Duration, timely: bool): (State, Action, State) -> bool {
    (s, a, s') => Next(lease, s, a, s') && (timely ==> WritesInLease(lease, s, a))
  }

  ghost predicate InTime(lease: Duration, timely: bool, s: State, w: WorkerId)
    requires w in s.workers
  {
    timely ==> Unexpired(s, w, lease)
  }

  // ---------------------------------------------------------------- an attempt, uninterrupted

  function ReportActions(w: WorkerId, tool: bool): seq<Action> {
    RowActions(w, tool) + [EndReport(w)]
  }

  predicate IsTool(step: Loop.Step) { step.action == Evidence.CallTool }

  /** Step k is reported once what it takes has passed. */
  function TrailActions(w: WorkerId, trail: seq<Loop.Step>, took: nat -> nat): seq<Action> {
    if trail == [] then []
    else
      var n := |trail| - 1;
      TrailActions(w, trail[..n], took) + ([Tick(took(n))] + ReportActions(w, IsTool(trail[n])))
  }

  function Sum(took: nat -> nat, n: nat): nat { if n == 0 then 0 else Sum(took, n - 1) + took(n - 1) }

  /** Worker `w` stands between two steps: n of them recorded, c with a tool call. */
  ghost predicate Between(s: State, w: WorkerId, attempt: nat, n: nat, c: nat) {
    && w in s.workers && s.workers[w].phase == Looping(attempt, n, c, false)
    && s.workers[w].run in s.db.runs
    && Numbered(s.db.steps, s.workers[w].run, n) && Calls(s.db.steps, s.workers[w].run, n) == c
  }

  /** Only this worker has moved, and only step rows of its run were added. */
  ghost predicate OnlySteps(s: State, s': State, w: WorkerId) {
    && w in s.workers && w in s'.workers && s'.workers == s.workers[w := s'.workers[w]]
    && SameClaim(s'.workers[w], s.workers[w])
    && s'.db.runs == s.db.runs
    && forall key: StepKey :: key.0 != s.workers[w].run ==>
         ((key in s'.db.steps <==> key in s.db.steps) && (key in s.db.steps ==> s'.db.steps[key] == s.db.steps[key]))
  }

  /** The state after one whole report. */
  function Reported(s: State, w: WorkerId, tool: bool): State
    requires w in s.workers && s.workers[w].phase.Looping?
  {
    var k := s.workers[w];
    var p := k.phase;
    var id := s.db.nextId;
    var row := StepRow(id, if tool then 1 else 0);
    s.(db := s.db.(steps := s.db.steps[(k.run, p.steps + 1) := row], nextId := id + 1),
       writer := s.writer[id := k.own],
       workers := s.workers[w := k.(phase := Looping(p.attempt, p.steps + 1, if tool then p.calls + 1 else p.calls, false))])
  }

  /** The step row's insert, once the worker stands between two steps. */
  lemma StepIsAnAction(lease: Duration, s: State, w: WorkerId, tool: bool)
    requires w in s.workers && s.workers[w].phase.Looping? && !s.workers[w].phase.broken
    requires CreateStep(s.db, s.workers[w].run, s.workers[w].phase.steps + 1).Ok?
    ensures Enabled(s, WriteStep(w, tool)) && Apply(lease, s, WriteStep(w, tool)) == Timeline.StepWritten(s, w, tool)
  {
  }

  /** The tool call's insert under it. */
  lemma CallIsAnAction(lease: Duration, s: State, w: WorkerId)
    requires w in s.workers && s.workers[w].phase.Looping?
    requires s.workers[w].run in s.db.runs && (s.workers[w].run, s.workers[w].phase.steps + 1) !in s.db.steps
    ensures var t := Timeline.StepWritten(s, w, true);
            Enabled(t, WriteToolCall(w)) && Apply(lease, t, WriteToolCall(w)) == Timeline.ToolCallWritten(t, w)
  {
  }

  /** The state once the rows a step owes are written. */
  function RowsWritten(s: State, w: WorkerId, tool: bool): State
    requires w in s.workers && s.workers[w].phase.Looping?
  {
    var t := Timeline.StepWritten(s, w, tool);
    if tool then Timeline.ToolCallWritten(t, w) else t
  }

  function RowActions(w: WorkerId, tool: bool): seq<Action> {
    [WriteStep(w, tool)] + (if tool then [WriteToolCall(w)] else [])
  }

  lemma RowsAreAPath(lease: Duration, timely: bool, s: State, w: WorkerId, tool: bool)
    requires w in s.workers && s.workers[w].phase.Looping? && !s.workers[w].phase.broken && InTime(lease, timely, s, w)
    requires CreateStep(s.db, s.workers[w].run, s.workers[w].phase.steps + 1).Ok?
    ensures RunsTo(Steps(lease, timely), s, RowActions(w, tool), RowsWritten(s, w, tool))
  {
    hide Enabled, Apply, RunsTo;
    var t := Timeline.StepWritten(s, w, tool);
    StepIsAnAction(lease, s, w, tool);
    OneAction(lease, timely, s, WriteStep(w, tool));
    if tool {
      CallIsAnAction(lease, s, w);
      OneAction(lease, timely, t, WriteToolCall(w));
      Join(Steps(lease, timely), s, [WriteStep(w, tool)], t, [WriteToolCall(w)], RowsWritten(s, w, tool));
    } else {
      assert RowActions(w, tool) == [WriteStep(w, tool)];
    }
  }

  lemma ReportEnds(lease: Duration, s: State, w: WorkerId, tool: bool)
    requires w in s.workers && s.workers[w].phase.Looping?
    ensures var t := RowsWritten(s, w, tool);
            Enabled(t, EndReport(w)) && Apply(lease, t, EndReport(w)) == Reported(s, w, tool)
  {
    var t := RowsWritten(s, w, tool);
    assert t.db == Reported(s, w, tool).db;
    assert Apply(lease, t, EndReport(w)).workers == Reported(s, w, tool).workers;
  }

  lemma ReportIsAPath(lease: Duration, timely: bool, s: State, w: WorkerId, tool: bool)
    requires w in s.workers && s.workers[w].phase.Looping? && !s.workers[w].phase.broken && InTime(lease, timely, s, w)
    requires CreateStep(s.db, s.workers[w].run, s.workers[w].phase.steps + 1).Ok?
    ensures RunsTo(Steps(lease, timely), s, ReportActions(w, tool), Reported(s, w, tool))
  {
    hide Enabled, Apply, RunsTo, RowsWritten, Reported, CreateStep;
    RowsAreAPath(lease, timely, s, w, tool);
    ReportEnds(lease, s, w, tool);
    OneAction(lease, timely, RowsWritten(s, w, tool), EndReport(w));
    Join(Steps(lease, timely), s, RowActions(w, tool), RowsWritten(s, w, tool), [EndReport(w)], Reported(s, w, tool));
  }

  lemma OneAction(lease: Duration, timely: bool, s: State, a: Action)
    requires Enabled(s, a) && (timely ==> WritesInLease(lease, s, a))
    ensures RunsTo(Steps(lease, timely), s, [a], Apply(lease, s, a))
  {
    hide Enabled, Apply;
    One(Steps(lease, timely), s, a, Apply(lease, s, a));
  }

  lemma ReportedIsBetween(s: State, w: WorkerId, tool: bool, attempt: nat, n: nat, c: nat)
    requires Between(s, w, attempt, n, c)
    ensures CreateStep(s.db, s.workers[w].run, n + 1).Ok?
    ensures Between(Reported(s, w, tool), w, attempt, n + 1, c + (if tool then 1 else 0))
    ensures OnlySteps(s, Reported(s, w, tool), w)
  {
    var s' := Reported(s, w, tool);
    CallsDependOnlyOnTheirRows(s.db.steps, s'.db.steps, s.workers[w].run, n);
  }

  lemma OnlyStepsChains(a: State, b: State, c: State, w: WorkerId)
    requires OnlySteps(a, b, w) && OnlySteps(b, c, w)
    ensures OnlySteps(a, c, w)
  {
    assert b.workers[w := c.workers[w]] == a.workers[w := c.workers[w]];
  }

  /** Reporting a whole trail numbers its rows on from n and counts its tool calls. */
  lemma {:induction false} TrailIsAPath(lease: Duration, timely: bool, s: State, w: WorkerId, trail: seq<Loop.Step>,
                                        attempt: nat, took: nat -> nat)
    returns (s': State)
    requires Between(s, w, attempt, 0, 0)
    requires timely ==> s.now + Sum(took, |trail|) <= s.workers[w].since + lease
    ensures RunsTo(Steps(lease, timely), s, TrailActions(w, trail, took), s') && OnlySteps(s, s', w)
    ensures s'.now == s.now + Sum(took, |trail|)
    ensures Between(s', w, attempt, |trail|, Loop.ToolSteps(trail))
  {
    hide *;
    NumberedSoFar(s, w, attempt);
    if trail == [] {
      s' := s;
      NoActions(lease, timely, s, w, attempt, took);
    } else {
      var n := |trail| - 1;
      OneStepMore(w, trail, took);
      var m := TrailIsAPath(lease, timely, s, w, trail[..n], attempt, took);
      OnlyStepsIs(s, m, w);
      s' := OneStepIsAPath(lease, timely, m, w, IsTool(trail[n]), took(n), attempt, n, Loop.ToolSteps(trail[..n]));
      Join(Steps(lease, timely), s, TrailActions(w, trail[..n], took), m, [Tick(took(n))] + ReportActions(w, IsTool(trail[n])), s');
      OnlyStepsChains(s, m, s', w);
    }
  }

  lemma OneStepMore(w: WorkerId, trail: seq<Loop.Step>, took: nat -> nat)
    requires trail != []
    ensures var n := |trail| - 1;
            && TrailActions(w, trail, took)
               == TrailActions(w, trail[..n], took) + ([Tick(took(n))] + ReportActions(w, IsTool(trail[n])))
            && Sum(took, |trail|) == Sum(took, n) + took(n)
            && Loop.ToolSteps(trail) == Loop.ToolSteps(trail[..n]) + (if IsTool(trail[n]) then 1 else 0)
  {
    hide ReportActions;
  }

  lemma NumberedSoFar(s: State, w: WorkerId, attempt: nat)
    requires Between(s, w, attempt, 0, 0)
    ensures w in s.workers
  {
  }

  /** One step: the time it takes, then its report. */
  lemma OneStepIsAPath(lease: Duration, timely: bool, s: State, w: WorkerId, tool: bool, elapsed: nat,
                       attempt: nat, n: nat, c: nat)
    returns (s': State)
    requires Between(s, w, attempt, n, c) && w in s.workers
    requires timely ==> s.now + elapsed <= s.workers[w].since + lease
    ensures RunsTo(Steps(lease, timely), s, [Tick(elapsed)] + ReportActions(w, tool), s') && OnlySteps(s, s', w)
    ensures s'.now == s.now + elapsed && Between(s', w, attempt, n + 1, c + (if tool then 1 else 0))
  {
    hide RunsTo, ReportActions, Between, OnlySteps, Numbered, Calls, CreateStep;
    var t := Later(s, elapsed);
    OneAction(lease, timely, s, Tick(elapsed));
    LaterIsBetween(s, elapsed, w, attempt, n, c);
    ReportedIsBetween(t, w, tool, attempt, n, c);
    BetweenIs(t, w, attempt, n, c);
    ReportIsAPath(lease, timely, t, w, tool);
    s' := Reported(t, w, tool);
    Join(Steps(lease, timely), s, [Tick(elapsed)], t, ReportActions(w, tool), s');
    OnlyStepsChains(s, t, s', w);
  }

  /** Time passes. */
  function Later(s: State, elapsed: nat): State { s.(now := s.now + elapsed) }

  lemma LaterIsBetween(s: State, elapsed: nat, w: WorkerId, attempt: nat, n: nat, c: nat)
    requires Between(s, w, attempt, n, c)
    ensures Between(Later(s, elapsed), w, attempt, n, c) && OnlySteps(s, Later(s, elapsed), w)
  {
    assert s.workers == s.workers[w := s.workers[w]];
  }

  lemma OnlyStepsIs(s: State, s': State, w: WorkerId)
    requires OnlySteps(s, s', w)
    ensures w in s.workers && w in s'.workers && SameClaim(s'.workers[w], s.workers[w]) && s'.db.runs == s.db.runs
  {
  }

  lemma NoActions(lease: Duration, timely: bool, s: State, w: WorkerId, attempt: nat, took: nat -> nat)
    requires Between(s, w, attempt, 0, 0)
    ensures RunsTo(Steps(lease, timely), s, TrailActions(w, [], took), s) && OnlySteps(s, s, w)
    ensures Sum(took, 0) == 0 && Loop.ToolSteps([]) == 0
  {
    assert s.workers == s.workers[w := s.workers[w]];
  }

  lemma BetweenIs(s: State, w: WorkerId, attempt: nat, n: nat, c: nat)
    requires Between(s, w, attempt, n, c)
    ensures w in s.workers && s.workers[w].phase == Looping(attempt, n, c, false)
    ensures s.workers[w].run in s.db.runs && Numbered(s.db.steps, s.workers[w].run, n)
    ensures Calls(s.db.steps, s.workers[w].run, n) == c
  {
  }

  // ---------------------------------------------------------------- a report that fails

  /** The rows of a step that were in before its report failed. */
  datatype Written = NoRow | RowOnly | RowAndCall

  /** How far each of the report's errors lets it get. */
  function WrittenBefore(e: StepReport.ReportError, tool: bool): Written {
    match e
    case StepRefused => NoRow
    case ToolCallRefused => RowOnly
    case LookupFailed => if tool then RowAndCall else RowOnly
    case EvidenceRefused => if tool then RowAndCall else RowOnly
  }

  function RowsOf(written: Written): nat { if written == NoRow then 0 else 1 }

  function CallsOf(written: Written): nat { if written == RowAndCall then 1 else 0 }

  function FailedActions(w: WorkerId, tool: bool, written: Written): seq<Action> {
    match written
    case NoRow => [FailReport(w)]
    case RowOnly => [WriteStep(w, tool)] + [FailReport(w)]
    case RowAndCall => RowActions(w, true) + [FailReport(w)]
  }

  /** The state in which the report failed. */
  function FailedWith(s: State, w: WorkerId, tool: bool, written: Written): State
    requires w in s.workers && s.workers[w].phase.Looping?
  {
    match written
    case NoRow => s
    case RowOnly => Timeline.StepWritten(s, w, tool)
    case RowAndCall => RowsWritten(s, w, true)
  }

  /** Each error leaves the tables as the report does. */
  lemma FailedReportsLeaveTheirRows(s: State, w: WorkerId, tool: bool, e: StepReport.ReportError)
    requires w in s.workers && s.workers[w].phase.Looping? && (e.ToolCallRefused? ==> tool)
    requires CreateStep(s.db, s.workers[w].run, s.workers[w].phase.steps + 1).Ok?
    ensures var run, number := s.workers[w].run, s.workers[w].phase.steps + 1;
            var stepped := CreateStep(s.db, run, number).value;
            FailedWith(s, w, tool, WrittenBefore(e, tool)).db ==
              match e
              case StepRefused => s.db
              case ToolCallRefused => stepped
              case LookupFailed => StepReport.WithCall(stepped, run, number, s.db.nextId, tool)
              case EvidenceRefused => StepReport.WithCall(stepped, run, number, s.db.nextId, tool)
  {
  }

  /** The loop is over, after n recorded steps with c tool calls; the tables hold `rows` rows with `calls` of them. */
  ghost predicate Stopped(s: State, w: WorkerId, attempt: nat, n: nat, c: nat, broken: bool, rows: nat, calls: nat) {
    && w in s.workers && s.workers[w].phase == Looping(attempt, n, c, broken)
    && s.workers[w].run in s.db.runs
    && Numbered(s.db.steps, s.workers[w].run, rows) && Calls(s.db.steps, s.workers[w].run, rows) == calls
  }

  lemma FailedWithRows(s: State, w: WorkerId, tool: bool, written: Written, attempt: nat, n: nat, c: nat)
    requires Between(s, w, attempt, n, c)
    ensures var t := FailedWith(s, w, tool, written);
            && CreateStep(s.db, s.workers[w].run, n + 1).Ok?
            && w in t.workers && SameClaim(t.workers[w], s.workers[w]) && t.now == s.now && t.db.runs == s.db.runs
            && Numbered(t.db.steps, s.workers[w].run, n + RowsOf(written))
            && Calls(t.db.steps, s.workers[w].run, n + RowsOf(written)) == c + CallsOf(written)
            && (if written == NoRow then t.workers[w].phase == Looping(attempt, n, c, false)
                else t.workers[w].phase.Reporting? && t.workers[w].phase.attempt == attempt
                     && t.workers[w].phase.steps == n && t.workers[w].phase.calls == c)
  {
    var t := FailedWith(s, w, tool, written);
    CallsDependOnlyOnTheirRows(s.db.steps, t.db.steps, s.workers[w].run, n);
  }

  lemma RowsOfAFailedReportAreAPath(lease: Duration, timely: bool, s: State, w: WorkerId, tool: bool, written: Written)
    returns (acts: seq<Action>)
    requires w in s.workers && s.workers[w].phase.Looping? && !s.workers[w].phase.broken && InTime(lease, timely, s, w)
    requires CreateStep(s.db, s.workers[w].run, s.workers[w].phase.steps + 1).Ok?
    ensures RunsTo(Steps(lease, timely), s, acts, FailedWith(s, w, tool, written))
    ensures FailedActions(w, tool, written) == acts + [FailReport(w)]
  {
    hide Enabled, Apply, CreateStep;
    match written
    case NoRow => acts := [];
    case RowOnly =>
      StepIsAnAction(lease, s, w, tool);
      OneAction(lease, timely, s, WriteStep(w, tool));
      acts := [WriteStep(w, tool)];
    case RowAndCall =>
      RowsAreAPath(lease, timely, s, w, true);
      acts := RowActions(w, true);
  }

  /** A report that fails after some of its rows: they stay, and the loop counts the step no more than its call. */
  lemma FailedReportIsAPath(lease: Duration, timely: bool, s: State, w: WorkerId, tool: bool, written: Written,
                            attempt: nat, n: nat, c: nat)
    returns (s': State)
    requires Between(s, w, attempt, n, c) && w in s.workers && InTime(lease, timely, s, w)
    ensures RunsTo(Steps(lease, timely), s, FailedActions(w, tool, written), s')
    ensures Stopped(s', w, attempt, n, c, true, n + RowsOf(written), c + CallsOf(written))
    ensures s'.now == s.now && s'.db.runs == s.db.runs && SameClaim(s'.workers[w], s.workers[w])
  {
    hide RunsTo, FailedWith, FailedActions, Numbered, Calls, CreateStep;
    var t := FailedWith(s, w, tool, written);
    FailedWithRows(s, w, tool, written, attempt, n, c);
    var acts := RowsOfAFailedReportAreAPath(lease, timely, s, w, tool, written);
    OneAction(lease, timely, t, FailReport(w));
    s' := Apply(lease, t, FailReport(w));
    Join(Steps(lease, timely), s, acts, t, [FailReport(w)], s');
  }

  // ---------------------------------------------------------------- from the read-back to the terminal row

  /** What follows the recorded steps: perhaps a report that failed. */
  function LostActions(w: WorkerId, tool: bool, lost: Option<Written>): seq<Action> {
    match lost
    case None => []
    case Some(written) => FailedActions(w, tool, written)
  }

  function LostRows(lost: Option<Written>): nat { if lost.Some? then RowsOf(lost.value) else 0 }

  function LostCalls(lost: Option<Written>): nat { if lost.Some? then CallsOf(lost.value) else 0 }

  lemma LoopStops(lease: Duration, timely: bool, s: State, w: WorkerId, tool: bool, lost: Option<Written>, elapsed: nat,
                  attempt: nat, n: nat, c: nat)
    returns (s': State)
    requires Between(s, w, attempt, n, c) && w in s.workers
    requires timely ==> s.now + elapsed <= s.workers[w].since + lease
    ensures RunsTo(Steps(lease, timely), s, [Tick(elapsed)] + LostActions(w, tool, lost), s')
    ensures Stopped(s', w, attempt, n, c, lost.Some?, n + LostRows(lost), c + LostCalls(lost))
    ensures s'.now == s.now + elapsed && s'.db.runs == s.db.runs && SameClaim(s'.workers[w], s.workers[w])
  {
    hide RunsTo, Between, FailedActions, Numbered, Calls;
    var t := Later(s, elapsed);
    OneAction(lease, timely, s, Tick(elapsed));
    LaterIsBetween(s, elapsed, w, attempt, n, c);
    BetweenIs(t, w, attempt, n, c);
    if lost.Some? {
      s' := FailedReportIsAPath(lease, timely, t, w, tool, lost.value, attempt, n, c);
      Join(Steps(lease, timely), s, [Tick(elapsed)], t, FailedActions(w, tool, lost.value), s');
    } else {
      s' := t;
      assert [Tick(elapsed)] + LostActions(w, tool, lost) == [Tick(elapsed)];
    }
  }

  /** The time up to the terminal write, and the write, which lands: the run is in flight under this attempt. */
  lemma Concludes(lease: Duration, timely: bool, s: State, w: WorkerId, out: RunOutcome, broken: bool,
                  attempt: nat, n: nat, c: nat, rows: nat, calls: nat, ending: nat)
    returns (s': State)
    requires Stopped(s, w, attempt, n, c, broken, rows, calls) && MayDecide(Looping(attempt, n, c, broken), out)
    requires timely ==> s.now + ending <= s.workers[w].since + lease
    requires s.db.runs[s.workers[w].run].status.Running? && s.db.runs[s.workers[w].run].attempts == attempt
    ensures RunsTo(Steps(lease, timely), s, [Tick(ending)] + [Decide(w, out)] + [Finish(w)], s') && s'.now == s.now + ending
    ensures var r := s.workers[w].run;
            && s'.db.runs == s.db.runs[r := FinishedRow(s.db.runs[r], out, s'.now)]
            && Numbered(s'.db.steps, r, rows) && Calls(s'.db.steps, r, rows) == calls
  {
    hide RunsTo, Numbered, Calls;
    var u := Later(s, ending);
    OneAction(lease, timely, s, Tick(ending));
    OneAction(lease, timely, u, Decide(w, out));
    var d := Apply(lease, u, Decide(w, out));
    OneAction(lease, timely, d, Finish(w));
    s' := Apply(lease, d, Finish(w));
    Join(Steps(lease, timely), s, [Tick(ending)], u, [Decide(w, out)], d);
    Join(Steps(lease, timely), s, [Tick(ending)] + [Decide(w, out)], d, [Finish(w)], s');
  }

  function LoopActions(w: WorkerId, trail: seq<Loop.Step>, tool: bool, lost: Option<Written>, starting: nat,
                       took: nat -> nat, losing: nat): seq<Action> {
    [Tick(starting)] + [ReadBack(w)] + TrailActions(w, trail, took) + ([Tick(losing)] + LostActions(w, tool, lost))
  }

  /**
    The whole attempt: `starting` before the read-back, then the recorded steps; then `losing`, the time of
    calls that left no step, and a report that failed, if one did; then `ending` up to the terminal write.
  */
  function AttemptActions(w: WorkerId, trail: seq<Loop.Step>, out: RunOutcome, tool: bool, lost: Option<Written>,
                          starting: nat, took: nat -> nat, losing: nat, ending: nat): seq<Action> {
    LoopActions(w, trail, tool, lost, starting, took, losing) + ([Tick(ending)] + [Decide(w, out)] + [Finish(w)])
  }

  /** The step whose report failed called a tool: the loop had counted the call. */
  predicate LostATool(trail: seq<Loop.Step>, toolCalls: nat) { toolCalls > Loop.ToolSteps(trail) }

  /** Where the last report may have failed, if it did: a call is written only for a step that made one. */
  predicate MayLose(o: Loop.Outcome, trail: seq<Loop.Step>, lost: Option<Written>) {
    && (lost.Some? <==> Unrecorded(o))
    && (lost == Some(RowAndCall) ==> LostATool(trail, o.toolCallCount))
  }

  /**
    An attempt that has just claimed its run and that nothing interrupts reads back, records the loop's
    steps and writes its verdict, one enabled action after the other, in whatever time each takes, the
    rows of a report that failed part-way included. If it is over by the end of its lease then every one
    of its writes is made inside it. The row it leaves is terminal. The step rows under it are those it
    counts, and one more exactly if a report failed after its step row; their tool calls are those it
    counts, and one fewer exactly if a step that called a tool failed before its tool call row.
  */
  lemma AnUninterruptedAttemptTellsItsRun(lease: Duration, timely: bool, s: State, w: WorkerId, world: Loop.World,
      trail: seq<Loop.Step>, stop: Option<Loop.StopReason>, o: Loop.Outcome, lost: Option<Written>,
      explain: Loop.Failure -> Bytes, starting: nat, took: nat -> nat, losing: nat, ending: nat)
    returns (s': State)
    requires w in s.workers && s.workers[w].phase.Claimed? && s.workers[w].run in s.db.runs
    requires s.db.runs[s.workers[w].run].status.Running? && Numbered(s.db.steps, s.workers[w].run, 0)
    requires Loop.Verdict(world, trail, o.toolCallCount, stop, o) && o.stepCount == |trail| && MayLose(o, trail, lost)
    requires timely ==> s.now + starting + Sum(took, |trail|) + losing + ending <= s.workers[w].since + lease
    ensures RunsTo(Steps(lease, timely), s,
                   AttemptActions(w, trail, RowOutcome(o, explain), LostATool(trail, o.toolCallCount), lost,
                                  starting, took, losing, ending), s')
    ensures s'.now == s.now + starting + Sum(took, |trail|) + losing + ending
    ensures var r := s.workers[w].run;
            && s'.db.runs == s.db.runs[r := FinishedRow(s.db.runs[r], RowOutcome(o, explain), s'.now)]
            && SaysTheVerdict(s.db.runs[r], s'.db.runs[r], o, explain, s'.now)
            && TellsItsRun(s', r, LostATool(trail, o.toolCallCount), lost)
  {
    hide SaysTheVerdict, FinishedRow;
    hide Loop.Verdict, Loop.ToolSteps, RunsTo, Steps, Sum, TrailActions, LostActions, LoopActions, AttemptActions, MayLose;
    hide MayDecide, Stopped, Numbered, Calls, TellsItsRun, LostATool, RowOutcome;
    var r, n, c := s.workers[w].run, |trail|, Loop.ToolSteps(trail);
    var attempt := s.db.runs[r].attempts;
    var out, tool := RowOutcome(o, explain), LostATool(trail, o.toolCallCount);
    VerdictsMayBeDecided(world, trail, o.toolCallCount, stop, o, explain, attempt);
    VerdictCounts(world, trail, o.toolCallCount, stop, o);
    var u := LoopRuns(lease, timely, s, w, trail, tool, lost, starting, took, losing);
    MayLoseIs(o, trail, lost);
    StoppedIs(u, w, attempt, n, c, lost.Some?, n + LostRows(lost), c + LostCalls(lost));
    s' := Concludes(lease, timely, u, w, out, lost.Some?, attempt, n, c, n + LostRows(lost), c + LostCalls(lost), ending);
    Join(Steps(lease, timely), s, LoopActions(w, trail, tool, lost, starting, took, losing), u,
         [Tick(ending)] + [Decide(w, out)] + [Finish(w)], s');
    ActionsAre(w, trail, out, tool, lost, starting, took, losing, ending);
    Told(s, s', r, trail, o, lost, explain);
    TheRowSaysTheVerdict(world, trail, o.toolCallCount, stop, o, explain, s.db.runs[r], s'.now);
  }

  lemma MayLoseIs(o: Loop.Outcome, trail: seq<Loop.Step>, lost: Option<Written>)
    ensures MayLose(o, trail, lost) ==> (lost.Some? <==> Unrecorded(o))
  {
  }

  lemma ActionsAre(w: WorkerId, trail: seq<Loop.Step>, out: RunOutcome, tool: bool, lost: Option<Written>,
                   starting: nat, took: nat -> nat, losing: nat, ending: nat)
    ensures AttemptActions(w, trail, out, tool, lost, starting, took, losing, ending)
            == LoopActions(w, trail, tool, lost, starting, took, losing) + ([Tick(ending)] + [Decide(w, out)] + [Finish(w)])
  {
  }

  lemma Told(s: State, s': State, r: RunId, trail: seq<Loop.Step>, o: Loop.Outcome, lost: Option<Written>,
             explain: Loop.Failure -> Bytes)
    requires r in s.db.runs && o.stepCount == |trail| && MayLose(o, trail, lost)
    requires Loop.ToolSteps(trail) <= o.toolCallCount <= Loop.ToolSteps(trail) + (if Unrecorded(o) then 1 else 0)
    requires s'.db.runs == s.db.runs[r := FinishedRow(s.db.runs[r], RowOutcome(o, explain), s'.now)]
    requires var rows := |trail| + LostRows(lost);
             Numbered(s'.db.steps, r, rows) && Calls(s'.db.steps, r, rows) == Loop.ToolSteps(trail) + LostCalls(lost)
    ensures TellsItsRun(s', r, LostATool(trail, o.toolCallCount), lost)
  {
    hide Numbered, Calls, Loop.ToolSteps;
  }

  /** From the claim to the end of the loop. */
  lemma LoopRuns(lease: Duration, timely: bool, s: State, w: WorkerId, trail: seq<Loop.Step>, tool: bool,
                 lost: Option<Written>, starting: nat, took: nat -> nat, losing: nat)
    returns (u: State)
    requires w in s.workers && s.workers[w].phase.Claimed? && s.workers[w].run in s.db.runs
    requires Numbered(s.db.steps, s.workers[w].run, 0)
    requires timely ==> s.now + starting + Sum(took, |trail|) + losing <= s.workers[w].since + lease
    ensures RunsTo(Steps(lease, timely), s, LoopActions(w, trail, tool, lost, starting, took, losing), u)
    ensures Stopped(u, w, s.db.runs[s.workers[w].run].attempts, |trail|, Loop.ToolSteps(trail), lost.Some?,
                    |trail| + LostRows(lost), Loop.ToolSteps(trail) + LostCalls(lost))
    ensures u.now == s.now + starting + Sum(took, |trail|) + losing && u.db.runs == s.db.runs
    ensures w in u.workers && SameClaim(u.workers[w], s.workers[w])
  {
    hide Loop.ToolSteps, RunsTo, Steps, Sum, TrailActions, LostActions, LoopActions, OnlySteps, Between, Stopped;
    hide Numbered, Calls;
    var attempt := s.db.runs[s.workers[w].run].attempts;
    var next, first, middle := Steps(lease, timely), [Tick(starting)] + [ReadBack(w)], [Tick(losing)] + LostActions(w, tool, lost);
    var m := Begins(lease, timely, s, w, starting);
    BetweenIs(m, w, attempt, 0, 0);
    var t := TrailIsAPath(lease, timely, m, w, trail, attempt, took);
    OnlyStepsIs(m, t, w);
    u := LoopStops(lease, timely, t, w, tool, lost, losing, attempt, |trail|, Loop.ToolSteps(trail));
    StoppedIs(u, w, attempt, |trail|, Loop.ToolSteps(trail), lost.Some?,
              |trail| + LostRows(lost), Loop.ToolSteps(trail) + LostCalls(lost));
    Join(next, s, first, m, TrailActions(w, trail, took), t);
    Join(next, s, first + TrailActions(w, trail, took), t, middle, u);
    LoopActionsAre(w, trail, tool, lost, starting, took, losing);
    SameClaims(s, m, t, u, w);
  }

  lemma LoopActionsAre(w: WorkerId, trail: seq<Loop.Step>, tool: bool, lost: Option<Written>, starting: nat,
                       took: nat -> nat, losing: nat)
    ensures LoopActions(w, trail, tool, lost, starting, took, losing)
            == [Tick(starting)] + [ReadBack(w)] + TrailActions(w, trail, took) + ([Tick(losing)] + LostActions(w, tool, lost))
  {
  }

  lemma SameClaims(s: State, m: State, t: State, u: State, w: WorkerId)
    requires w in s.workers && w in m.workers && w in t.workers && w in u.workers
    requires SameClaim(m.workers[w], s.workers[w]) && SameClaim(t.workers[w], m.workers[w])
    requires SameClaim(u.workers[w], t.workers[w])
    ensures SameClaim(u.workers[w], s.workers[w]) && u.workers[w].run == s.workers[w].run
    ensures u.workers[w].since == s.workers[w].since
  {
  }

  /** A terminal row and the rows under it, by where the attempt's last report failed. */
  ghost predicate TellsItsRun(s: State, r: RunId, tool: bool, lost: Option<Written>) {
    && r in s.db.runs && Terminal(s.db.runs[r].status)
    && var row := s.db.runs[r];
       var rows := row.stepCount + LostRows(lost);
       && Numbered(s.db.steps, r, rows)
       && Calls(s.db.steps, r, rows) + (if tool && lost != Some(RowAndCall) then 1 else 0) == row.toolCallCount
  }

  lemma StoppedIs(s: State, w: WorkerId, attempt: nat, n: nat, c: nat, broken: bool, rows: nat, calls: nat)
    requires Stopped(s, w, attempt, n, c, broken, rows, calls)
    ensures w in s.workers && s.workers[w].run in s.db.runs
  {
  }

  /** The time before the read-back, and the read-back. */
  lemma Begins(lease: Duration, timely: bool, s: State, w: WorkerId, starting: nat) returns (m: State)
    requires w in s.workers && s.workers[w].phase.Claimed? && s.workers[w].run in s.db.runs
    requires Numbered(s.db.steps, s.workers[w].run, 0)
    requires timely ==> s.now + starting <= s.workers[w].since + lease
    ensures RunsTo(Steps(lease, timely), s, [Tick(starting)] + [ReadBack(w)], m)
    ensures Between(m, w, s.db.runs[s.workers[w].run].attempts, 0, 0)
    ensures m.db == s.db && m.now == s.now + starting && SameClaim(m.workers[w], s.workers[w])
  {
    hide RunsTo;
    var t := Later(s, starting);
    OneAction(lease, timely, s, Tick(starting));
    OneAction(lease, timely, t, ReadBack(w));
    m := Apply(lease, t, ReadBack(w));
    Join(Steps(lease, timely), s, [Tick(starting)], t, [ReadBack(w)], m);
  }

  lemma VerdictCounts(w: Loop.World, trail: seq<Loop.Step>, toolCalls: nat, stop: Option<Loop.StopReason>, o: Loop.Outcome)
    requires Loop.Verdict(w, trail, toolCalls, stop, o)
    ensures Loop.ToolSteps(trail) <= toolCalls <= Loop.ToolSteps(trail) + (if Unrecorded(o) then 1 else 0)
  {
    hide Loop.Timeline, Loop.TwoNones, Loop.ToolSteps;
  }
}
