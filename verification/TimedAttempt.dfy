/**
  The settings and the protocol together: under settings whose lease covers the worst attempt, every
  write of every attempt that nothing interrupts is made inside its lease
  (internal/config/agentworker.go, internal/agentrun/agentrun.go).
*/
module TimedAttempt {
  import opened Prelude
  import opened Paths
  import Rows = RunRows
  import Protocol = RunProtocol
  import Timelines = RunTimeline
  import opened AgentContext
  import opened AgentLoop
  import opened AttemptPath
  import opened WorkerConfig

  lemma ElapsedGrows(w: World, trail: seq<Step>, k: nat)
    requires k < |trail|
    ensures ElapsedAt(w, trail, k) <= ElapsedAt(w, trail, k + 1)
  {
    hide TimeSpent, Observes;
    assert trail[..k + 1][..k] == trail[..k];
    var acted := Acted(trail[..k]);
    OneCallLonger(w, k, acted, k);
    OneCallLonger(w, k + 1, acted, k);
    OneCallLonger(w, k + 1, acted, k + 1);
  }

  /** What step k takes: its model call, its action if it has one, and its report. */
  function StepTook(w: World, trail: seq<Step>, k: nat): nat {
    if k < |trail| then
      ElapsedGrows(w, trail, k);
      ElapsedAt(w, trail, k + 1) - ElapsedAt(w, trail, k)
    else 0
  }

  function StepsTook(w: World, trail: seq<Step>): nat -> nat { (k: nat) => StepTook(w, trail, k) }

  /** The steps' times add up to the clock. */
  lemma {:induction false} StepsAddUp(w: World, trail: seq<Step>, n: nat)
    requires n <= |trail|
    ensures Sum(StepsTook(w, trail), n) == ElapsedAt(w, trail, n)
  {
    if n == 0 {
      assert trail[..0] == [];
    } else {
      hide ElapsedAt;
      StepsAddUp(w, trail, n - 1);
    }
  }

  /** From the last recorded step to the end of the run: nothing, or the calls of a step that was not recorded. */
  function Remaining(w: World, start: Time, r: Ran): int { r.finished - start - ElapsedAt(w, r.trail, |r.trail|) }

  lemma SomeTimeRemains(w: World, wording: Wording, b: Budget, start: Time, r: Ran)
    requires Investigated(w, wording, b, start, r) && r.end.Done?
    ensures Remaining(w, start, r) >= 0
  {
    hide WentOn, StopAt, CancelledBy, Remembers, Verdict, PromptTokensOf, CompletionTokensOf, Diagnosis, Acted;
    var n := |r.trail|;
    assert r.trail[..n] == r.trail;
    assert Acted(r.trail) <= r.acts by {
      assert r.chats == n + 1 ==> r.trail[..r.chats - 1] == r.trail;
    }
    MoreCallsTakeLonger(w.chat, n, r.chats);
    MoreCallsTakeLonger(w.act, Acted(r.trail), r.acts);
    MoreCallsTakeLonger(w.report, n, r.reports);
  }

  lemma {:induction false} MoreCallsTakeLonger<T>(calls: nat -> Timed<T>, m: nat, n: nat)
    requires m <= n
    ensures Total(calls, m) <= Total(calls, n)
  {
    if m == n {
    } else {
      MoreCallsTakeLonger(calls, m, n - 1);
    }
  }

  /**
    A worker that has just claimed its run, under settings that leave room for the worst attempt: the
    loop's steps, at the durations this world gives them, the rows of a last report that failed
    part-way, and the terminal write are one path of the protocol on which every write is made inside
    the claim's lease, and which ends when the attempt does, with a terminal row that tells the rows
    under it.
  */
  lemma EveryAttemptStaysInItsLease(s: Settings, before: Protocol.State, worker: Protocol.WorkerId, w: World,
      wording: Wording, budget: Budget, r: Ran, lost: Option<Written>, explain: Failure -> Bytes, startDelay: nat,
      reportWrites: nat, terminalWrite: nat)
    returns (acts: seq<Protocol.Action>, after: Protocol.State)
    requires s.toolTimeout >= 0 && WorstAttempt(s, budget, startDelay, reportWrites) <= s.runLease
    requires Meets(w, StepLimits(s, reportWrites)) && terminalWrite <= TERMINAL_TIMEOUT
    requires worker in before.workers && before.workers[worker].phase.Claimed?
    requires before.workers[worker].since == before.now && before.workers[worker].run in before.db.runs
    requires before.db.runs[before.workers[worker].run].status.Running?
    requires Rows.Numbered(before.db.steps, before.workers[worker].run, 0)
    requires Investigated(w, wording, budget, before.now + startDelay, r) && r.end.Done?
    requires MayLose(r.end.outcome, r.trail, lost)
    ensures RunsTo(Steps(s.runLease, true), before, acts, after) && after.now == r.finished + terminalWrite
    ensures AttemptEnds(w, wording, budget, before.now + startDelay, terminalWrite, after.now)
    ensures var run := before.workers[worker].run;
            && after.db.runs ==
               before.db.runs[run := Rows.FinishedRow(before.db.runs[run], RowOutcome(r.end.outcome, explain), after.now)]
            && SaysTheVerdict(before.db.runs[run], after.db.runs[run], r.end.outcome, explain, after.now)
            && TellsItsRun(after, run, LostATool(r.trail, r.end.outcome.toolCallCount), lost)
  {
    hide *;
    var start, n, o := before.now + startDelay, |r.trail|, r.end.outcome;
    CancelledBeforeTheStart(w, wording, budget, start, r);
    EndsByTheWorst(w, wording, budget, StepLimits(s, reportWrites), start, r);
    SomeTimeRemains(w, wording, budget, start, r);
    StepsAddUp(w, r.trail, n);
    HasItsVerdict(w, wording, budget, start, r);
    WorstAttemptIs(s, budget, startDelay, reportWrites);
    RemainingIs(w, start, r);
    var losing := Remaining(w, start, r);
    acts := AttemptActions(worker, r.trail, RowOutcome(o, explain), LostATool(r.trail, o.toolCallCount), lost, startDelay,
                           StepsTook(w, r.trail), losing, terminalWrite);
    after := AnUninterruptedAttemptTellsItsRun(s.runLease, true, before, worker, w, r.trail,
      StopAt(w, wording, budget, r.trail, r.chats - 1), o, lost, explain, startDelay, StepsTook(w, r.trail), losing,
      terminalWrite);
    AttemptEndsWith(w, wording, budget, start, terminalWrite, r);
  }

  lemma HasItsVerdict(w: World, wording: Wording, b: Budget, start: Time, r: Ran)
    requires Investigated(w, wording, b, start, r) && r.end.Done?
    ensures 0 < r.chats <= |r.trail| + 1
    ensures Verdict(w, r.trail, r.toolCalls, StopAt(w, wording, b, r.trail, r.chats - 1), r.end.outcome)
    ensures r.end.outcome.stepCount == |r.trail| && r.end.outcome.toolCallCount == r.toolCalls
  {
    hide WentOn, StopAt, CancelledBy, Remembers, Verdict, PromptTokensOf, CompletionTokensOf, Diagnosis, Acted, TimeSpent;
  }

  lemma WorstAttemptIs(s: Settings, budget: Budget, startDelay: nat, reportWrites: nat)
    requires s.toolTimeout >= 0
    ensures WorstAttempt(s, budget, startDelay, reportWrites)
            == startDelay + WorstRun(budget, StepLimits(s, reportWrites)) + TERMINAL_TIMEOUT
  {
  }

  lemma RemainingIs(w: World, start: Time, r: Ran)
    ensures Remaining(w, start, r) == r.finished - start - ElapsedAt(w, r.trail, |r.trail|)
  {
  }

  lemma AttemptEndsWith(w: World, wording: Wording, b: Budget, start: Time, terminalWrite: nat, r: Ran)
    requires Investigated(w, wording, b, start, r) && r.end.Done?
    ensures AttemptEnds(w, wording, b, start, terminalWrite, r.finished + terminalWrite)
  {
    hide Investigated;
  }

  // ---------------------------------------------------------------- every behaviour of every worker

  /** What one claim's attempt meets: its world, what its loop came to, and how late it began. */
  datatype Plan = Plan(world: World, wording: Wording, budget: Budget, delay: nat, ran: Ran)

  /** The attempt of worker `k` is this one, within the settings' limits. */
  ghost predicate Carries(s: Settings, k: Protocol.Worker, p: Plan, startDelay: nat, reportWrites: nat)
    requires s.toolTimeout >= 0
  {
    && p.delay <= startDelay && Meets(p.world, StepLimits(s, reportWrites))
    && Investigated(p.world, p.wording, p.budget, k.since + p.delay, p.ran)
    && WorstAttempt(s, p.budget, startDelay, reportWrites) <= s.runLease
  }

  /** When the report of the step after n recorded ones is over. */
  function ReportedBy(k: Protocol.Worker, p: Plan, n: nat): Time {
    if n < |p.ran.trail| then k.since + p.delay + ElapsedAt(p.world, p.ran.trail, n + 1) else p.ran.finished
  }

  /**
    The action comes when its worker's own attempt gets to it: the read-back before the loop begins, the
    rows of a step by the end of its report, and the terminal write within its deadline after the loop.
  */
  ghost predicate OnTime(s: Settings, plan: (Rows.RunId, nat) -> Plan, startDelay: nat, reportWrites: nat,
                         at: Protocol.State, a: Protocol.Action)
    requires s.toolTimeout >= 0
  {
    (a.ReadBack? || a.WriteStep? || a.WriteToolCall? || a.Finish?) && a.w in at.workers ==> (
      var k := at.workers[a.w];
      var p := plan(k.run, k.own);
      && Carries(s, k, p, startDelay, reportWrites)
      && match a
         case ReadBack(_) => at.now <= k.since + p.delay
         case WriteStep(_, _) => k.phase.Looping? ==> at.now <= ReportedBy(k, p, k.phase.steps)
         case WriteToolCall(_) => k.phase.Reporting? ==> at.now <= ReportedBy(k, p, k.phase.steps)
         case Finish(_) => at.now <= p.ran.finished + TERMINAL_TIMEOUT
         case _ => true)
  }

  lemma APlanEndsInItsLease(s: Settings, k: Protocol.Worker, p: Plan, startDelay: nat, reportWrites: nat)
    requires s.toolTimeout >= 0 && Carries(s, k, p, startDelay, reportWrites)
    ensures k.since + p.delay <= k.since + s.runLease
    ensures p.ran.finished + TERMINAL_TIMEOUT <= k.since + s.runLease
  {
    hide Investigated, Meets, WorstRun, StepLimits, Counted;
    CancelledBeforeTheStart(p.world, p.wording, p.budget, k.since + p.delay, p.ran);
    EndsByTheWorst(p.world, p.wording, p.budget, StepLimits(s, reportWrites), k.since + p.delay, p.ran);
  }

  lemma AStepIsReportedInTheRun(s: Settings, k: Protocol.Worker, p: Plan, startDelay: nat, reportWrites: nat, n: nat)
    requires s.toolTimeout >= 0 && Carries(s, k, p, startDelay, reportWrites)
    ensures ReportedBy(k, p, n) <= p.ran.finished
  {
    hide Investigated, Meets, StepLimits, Counted, ElapsedAt;
    if n < |p.ran.trail| {
      CancelledBeforeTheStart(p.world, p.wording, p.budget, k.since + p.delay, p.ran);
      StepsEndInTheRun(p.world, p.wording, p.budget, k.since + p.delay, p.ran, n + 1);
    }
  }

  lemma StepsEndInTheRun(w: World, wording: Wording, b: Budget, start: Time, r: Ran, n: nat)
    requires Counted(w, wording, b, start, r) && n <= |r.trail|
    ensures start + ElapsedAt(w, r.trail, n) <= r.finished
  {
    hide WentOn, StopAt, CancelledBy, Acted;
    MoreCallsTakeLonger(w.chat, n, r.chats);
    MoreCallsTakeLonger(w.report, n, r.reports);
    MoreStepsAct(r.trail, n);
    MoreCallsTakeLonger(w.act, Acted(r.trail[..n]), r.acts);
  }

  lemma {:induction false} MoreStepsAct(trail: seq<Step>, n: nat)
    requires n <= |trail|
    ensures Acted(trail[..n]) <= Acted(trail)
    decreases |trail|
  {
    if n == |trail| {
      assert trail[..n] == trail;
    } else {
      assert trail[..|trail| - 1][..n] == trail[..n];
      MoreStepsAct(trail[..|trail| - 1], n);
    }
  }

  lemma OnTimeIsInLease(s: Settings, plan: (Rows.RunId, nat) -> Plan, startDelay: nat, reportWrites: nat,
                        at: Protocol.State, a: Protocol.Action)
    requires s.toolTimeout >= 0 && Protocol.Enabled(at, a) && OnTime(s, plan, startDelay, reportWrites, at, a)
    ensures Protocol.WritesInLease(s.runLease, at, a)
  {
    hide Carries, ReportedBy;
    if (a.ReadBack? || a.WriteStep? || a.WriteToolCall? || a.Finish?) && a.w in at.workers {
      var k := at.workers[a.w];
      var p := plan(k.run, k.own);
      APlanEndsInItsLease(s, k, p, startDelay, reportWrites);
      if k.phase.Looping? || k.phase.Reporting? {
        AStepIsReportedInTheRun(s, k, p, startDelay, reportWrites, k.phase.steps);
      }
    }
  }

  /**
    Over every behaviour, however many workers there are and however they interleave: if each worker's
    reads and writes come when its own attempt gets to them, under settings with room for the worst
    attempt, then every attempt ends in its lease.
  */
  lemma AttemptsOnTimeEndInTheirLeases(s: Settings, plan: (Rows.RunId, nat) -> Plan, startDelay: nat, reportWrites: nat,
                                       b: seq<Protocol.State>, acts: seq<Protocol.Action>)
    requires s.toolTimeout >= 0 && Protocol.Behavior(s.runLease, b, acts)
    requires forall i :: 0 <= i < |acts| ==> OnTime(s, plan, startDelay, reportWrites, b[i], acts[i])
    ensures Timelines.AttemptsEndInLease(s.runLease, b, acts)
  {
    hide OnTime, Protocol.WritesInLease, Protocol.Enabled, Protocol.Apply;
    forall i | 0 <= i < |acts| ensures Protocol.WritesInLease(s.runLease, b[i], acts[i]) {
      assert Protocol.Next(s.runLease, b[i], acts[i], b[i + 1]);
      OnTimeIsInLease(s, plan, startDelay, reportWrites, b[i], acts[i]);
    }
  }

  /** So in all of them a run's step rows are its current attempt's alone, numbered with no gap. */
  lemma AttemptsOnTimeTellTheirRuns(s: Settings, plan: (Rows.RunId, nat) -> Plan, startDelay: nat, reportWrites: nat,
                                    b: seq<Protocol.State>, acts: seq<Protocol.Action>, i: nat, r: Rows.RunId)
    requires s.toolTimeout >= 0 && Protocol.Behavior(s.runLease, b, acts)
    requires forall j :: 0 <= j < |acts| ==> OnTime(s, plan, startDelay, reportWrites, b[j], acts[j])
    requires i < |b| && r in b[i].db.runs
    ensures exists n: nat :: Rows.Numbered(b[i].db.steps, r, n)
    ensures forall k: nat :: (r, k) in b[i].db.steps ==>
      b[i].db.steps[(r, k)].id in b[i].writer
      && b[i].writer[b[i].db.steps[(r, k)].id] == b[i].db.runs[r].attempts
    ensures Rows.Terminal(b[i].db.runs[r].status) && r !in b[i].unrecorded ==>
              Rows.Numbered(b[i].db.steps, r, b[i].db.runs[r].stepCount)
              && Rows.Calls(b[i].db.steps, r, b[i].db.runs[r].stepCount) == b[i].db.runs[r].toolCallCount
  {
    hide *;
    AttemptsOnTimeEndInTheirLeases(s, plan, startDelay, reportWrites, b, acts);
    Timelines.TimelineIsPure(s.runLease, b, acts, i, r);
    if Rows.Terminal(b[i].db.runs[r].status) && r !in b[i].unrecorded {
      Timelines.TerminalCountersAreExact(s.runLease, b, acts, i, r);
    }
  }
}
