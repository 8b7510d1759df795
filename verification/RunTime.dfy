/**
  How long one investigation may last, and a run that lasts that long: the bound the worker's settings
  must leave room for is reached, not only respected (internal/agent/loop.go, internal/config/agentworker.go).
*/
module RunTime {
  import opened Prelude
  import opened AgentContext
  import opened Evidence
  import opened AgentLoop

  // ---------------------------------------------------------------- the slowest world

  /** When the slowest run's step i begins: as late as the time limit still lets one begin. */
  function HeadAt(b: Budget, l: Limits, i: nat): nat { Min(Max(0, b.maxRunDuration - 1), i * FullStep(l)) }

  /** What step i takes: up to the next head, and all it may from the last free step on. */
  function StepTime(b: Budget, l: Limits, i: nat): (t: nat)
    ensures t <= FullStep(l)
  {
    OneFactorMore(i + 1, FullStep(l));
    if i + 1 < b.maxSteps then HeadAt(b, l, i + 1) - HeadAt(b, l, i) else FullStep(l)
  }

  function ChatTime(b: Budget, l: Limits, i: nat): nat { Min(StepTime(b, l, i), l.llmStep) }

  function ActTime(b: Budget, l: Limits, i: nat): nat { Min(StepTime(b, l, i) - ChatTime(b, l, i), l.stepOverhead) }

  function ReportTime(b: Budget, l: Limits, i: nat): nat { StepTime(b, l, i) - ChatTime(b, l, i) - ActTime(b, l, i) }

  const SEARCH := ToolCall([], [], SEARCH_KNOWLEDGE, [])

  /** The call as the loop replays it. */
  const SEARCHED := ToolCall([], FUNCTION, SEARCH_KNOWLEDGE, EMPTY_ARGUMENTS)

  /** Nothing fails and nothing is cancelled; the model only ever searches, and finds nothing. */
  function SlowWorld(b: Budget, l: Limits): World {
    World((k: nat) => Timed(ChatTime(b, l, k), Answered([SEARCH], 0, 0)),
          (k: nat) => Timed(ActTime(b, l, k), Observation([], [], [])),
          (k: nat) => Timed(ReportTime(b, l, k), Result<StepRef, Bytes>.Ok(StepRef([], []))),
          None, (s: Bytes) => s, (_: Bytes) => true, (_: Bytes) => None, (_: nat) => [], (_: Reason) => [], (_: StopReason) => [])
  }

  lemma SlowWorldMeets(b: Budget, l: Limits)
    ensures Meets(SlowWorld(b, l), l)
  {
    hide StepTime;
  }

  // ---------------------------------------------------------------- what its steps are

  lemma EveryReplySearches(b: Budget, l: Limits, number: nat)
    ensures Decide(SlowWorld(b, l), number, [SEARCH]) == Chosen(SEARCHED)
  {
    hide ChatTime, ActTime, ReportTime;
  }

  predicate Searches(s: Step) { s.action == Retrieve && s.call == Some(SEARCHED) && s.observation == [] && s.reason == None }

  /** Every step recorded is a search, but for a forced one, which is blamed for not finishing. */
  lemma AStepSearches(b: Budget, l: Limits, s: Step, acted: nat)
    requires Follows(SlowWorld(b, l), s, acted)
    ensures Searches(s) || OnlyForced(s)
    ensures s.action != Finish
  {
    hide ChatTime, ActTime, ReportTime, Decide;
    EveryReplySearches(b, l, s.number);
    assert SEARCH_KNOWLEDGE != FINISH;
  }

  lemma StepsSearch(b: Budget, l: Limits, trail: seq<Step>, n: nat)
    requires Timeline(SlowWorld(b, l), trail) && n <= |trail| <= n + 1
    ensures forall k :: 0 <= k < n && !OnlyForced(trail[k]) ==> Searches(trail[k])
    ensures trail != [] ==> trail[|trail| - 1].action != Finish
    ensures trail != [] && !OnlyForced(trail[|trail| - 1]) ==> Searches(trail[|trail| - 1])
    ensures forall k :: 0 <= k < |trail| - 1 ==> Searches(trail[k])
  {
    hide Follows, OnlyForced, Searches;
    forall k | 0 <= k < |trail| ensures (Searches(trail[k]) || OnlyForced(trail[k])) && trail[k].action != Finish {
      AStepSearches(b, l, trail[k], Acted(trail[..k]));
    }
  }

  lemma {:induction false} SearchesAct(trail: seq<Step>)
    requires forall k :: 0 <= k < |trail| ==> Searches(trail[k])
    ensures Acted(trail) == |trail| && ToolSteps(trail) == 0
  {
    if trail == [] {
    } else {
      SearchesAct(trail[..|trail| - 1]);
    }
  }

  // ---------------------------------------------------------------- when they begin

  lemma TheClockAfterSteps(b: Budget, l: Limits, n: nat)
    requires n < b.maxSteps
    ensures TimeSpent(SlowWorld(b, l), n, n, n) == HeadAt(b, l, n)
    decreases n
  {
    hide StepTime, FullStep;
    if n == 0 {
    } else {
      TheClockAfterSteps(b, l, n - 1);
      OneStepOnTheClock(b, l, n - 1);
      StepTimeIs(b, l, n - 1);
    }
  }

  lemma StepTimeIs(b: Budget, l: Limits, i: nat)
    ensures StepTime(b, l, i) == if i + 1 < b.maxSteps then HeadAt(b, l, i + 1) - HeadAt(b, l, i) else FullStep(l)
  {
    hide HeadAt, FullStep;
  }

  lemma OneStepOnTheClock(b: Budget, l: Limits, n: nat)
    ensures TimeSpent(SlowWorld(b, l), n + 1, n + 1, n + 1) == TimeSpent(SlowWorld(b, l), n, n, n) + StepTime(b, l, n)
  {
    hide StepTime, TimeSpent;
    var w := SlowWorld(b, l);
    OneCallLonger(w, n, n, n);
    OneCallLonger(w, n + 1, n, n);
    OneCallLonger(w, n + 1, n + 1, n);
  }

  /** A forced call and its report take all they may. */
  lemma TheForcedCall(b: Budget, l: Limits, n: nat, acts: nat)
    requires n + 1 >= b.maxSteps
    ensures TimeSpent(SlowWorld(b, l), n + 1, acts, n + 1) == TimeSpent(SlowWorld(b, l), n, acts, n) + l.llmStep + l.reportWrites
  {
    hide TimeSpent;
    var w := SlowWorld(b, l);
    OneCallLonger(w, n, acts, n);
    OneCallLonger(w, n + 1, acts, n);
    assert StepTime(b, l, n) == FullStep(l);
  }

  // ---------------------------------------------------------------- nothing stops it early

  const QUIET: Wording := Plain([])

  lemma {:induction false} SearchesAreSmall(w: World, trail: seq<Step>)
    requires forall k :: 0 <= k < |trail| ==> Searches(trail[k])
    ensures ObservationBytes(QUIET, TurnsOf(w, trail)) == 0 && TurnsOverhead(QUIET, TurnsOf(w, trail)) == 39 * |trail|
  {
    var turns := TurnsOf(w, trail);
    if trail == [] {
    } else {
      var n := |trail| - 1;
      SearchesAreSmall(w, trail[..n]);
      assert turns[..n] == TurnsOf(w, trail[..n]);
      SearchTurn(w, trail[n]);
    }
  }

  lemma SearchTurn(w: World, s: Step)
    requires Searches(s)
    ensures TurnOverhead(QUIET, TurnOf(w, s)) == 39 && ObservationShown(QUIET, TurnOf(w, s)) == []
  {
  }

  lemma SearchesFitTheBudget(w: World, b: Budget, trail: seq<Step>, elapsed: Duration)
    requires Accepted(b) && |trail| < b.maxSteps && elapsed < b.maxRunDuration
    requires forall k :: 0 <= k < |trail| ==> Searches(trail[k])
    ensures HeadStop(w, QUIET, b, trail, elapsed) == None
  {
    hide Searches, TurnsOf, TurnsOverhead, ObservationBytes, PromptAfter, TotalBytes, Prompt;
    SearchesAct(trail);
    SearchesAreSmall(w, trail);
    PromptIs(w, QUIET, b, trail);
    OverBudgetIff(QUIET, b, TurnsOf(w, trail), Spent(|trail| + 1, ToolSteps(trail)));
    assert Overhead(QUIET, b, TurnsOf(w, trail), Spent(|trail| + 1, ToolSteps(trail))) == 14 + 39 * |trail|;
  }

  // ---------------------------------------------------------------- so it lasts as long as any run may

  /** It ends on a forced call: nothing else ends it. */
  lemma ItsLastCallIsForced(b: Budget, l: Limits, start: Time, r: Ran)
    requires Investigated(SlowWorld(b, l), QUIET, b, start, r)
    ensures r.end.Done? && r.chats > 0 && StopAt(SlowWorld(b, l), QUIET, b, r.trail, r.chats - 1).Some?
    ensures r.chats == r.reports == |r.trail| && r.acts == Acted(r.trail)
    ensures Timeline(SlowWorld(b, l), r.trail) && !Searches(r.trail[|r.trail| - 1])
  {
    hide ChatTime, ActTime, ReportTime, Follows, StopAt, WentOn, ElapsedAt, Remembers, Acted, TimeSpent, ToolSteps;
    hide Resolved, Diagnosis, PromptTokensOf, CompletionTokensOf;
    if r.end.Done? {
      StepsSearch(b, l, r.trail, |r.trail|);
    }
  }

  /** The steps before the forced one, and the clock at its head. */
  lemma BeforeTheForcedCall(b: Budget, l: Limits, trail: seq<Step>, n: nat)
    requires Accepted(b) && n <= b.maxSteps && |trail| == n + 1 && Timeline(SlowWorld(b, l), trail)
    requires StopAt(SlowWorld(b, l), QUIET, b, trail, n).Some? && !Searches(trail[n])
    ensures n == b.maxSteps && Acted(trail) == n
  {
    hide ChatTime, ActTime, ReportTime, Follows, TimeSpent, HeadStop, Searches, Timeline, HeadAt, SlowWorld, Accepted;
    var w := SlowWorld(b, l);
    StepsSearch(b, l, trail, n);
    var before := trail[..n];
    SearchesAct(before);
    assert trail[..|trail| - 1] == before;
    ForcedDoesNotAct(b, l, trail);
    if n < b.maxSteps {
      TheClockAfterSteps(b, l, n);
      BeforeTheTimeLimit(b, l, n);
      SearchesFitTheBudget(w, b, before, ElapsedAt(w, trail, n));
    }
  }

  lemma BeforeTheTimeLimit(b: Budget, l: Limits, n: nat)
    requires Accepted(b)
    ensures HeadAt(b, l, n) < b.maxRunDuration
  {
    hide FullStep;
  }

  lemma ForcedDoesNotAct(b: Budget, l: Limits, trail: seq<Step>)
    requires trail != [] && Timeline(SlowWorld(b, l), trail) && !Searches(trail[|trail| - 1])
    ensures !Observes(trail[|trail| - 1])
  {
    hide ChatTime, ActTime, ReportTime, Decide, Diagnosis;
    var k := |trail| - 1;
    var s := trail[k];
    assert Follows(SlowWorld(b, l), s, Acted(trail[..k]));
    AStepSearches(b, l, s, Acted(trail[..k]));
  }

  /** The slowest run's last free step begins as late as one may, and all that follows takes its longest. */
  lemma TheClockAtTheEnd(b: Budget, l: Limits)
    requires Accepted(b)
    ensures var m := b.maxSteps; TimeSpent(SlowWorld(b, l), m + 1, m, m + 1) == WorstRun(b, l)
  {
    hide TimeSpent, SlowWorld, FullStep;
    var m := b.maxSteps;
    TheClockAfterSteps(b, l, m - 1);
    OneStepOnTheClock(b, l, m - 1);
    StepTimeIs(b, l, m - 1);
    TheForcedCall(b, l, m, m);
  }

  lemma TheSlowestRun(b: Budget, l: Limits, start: Time, r: Ran)
    requires Accepted(b) && Investigated(SlowWorld(b, l), QUIET, b, start, r)
    ensures r.end.Done? && r.finished == start + WorstRun(b, l)
  {
    hide WorstRun, TimeSpent, SlowWorld, WentOn, StopAt, ElapsedAt, Remembers, Acted, Timeline, Searches, CancelledBy;
    hide Verdict, PromptTokensOf, CompletionTokensOf, Resolved, Diagnosis;
    ItsLastCallIsForced(b, l, start, r);
    assert r.chats - 1 <= b.maxSteps by { assert b.maxSteps >= 1; }
    BeforeTheForcedCall(b, l, r.trail, r.chats - 1);
    TheClockAtTheEnd(b, l);
  }

  // ---------------------------------------------------------------- the bound is sharp

  /** Whatever the world within these limits, every run is over in time. */
  ghost predicate RunsEndWithin(b: Budget, l: Limits, bound: Duration) {
    forall w: World, wording: Wording, start: Time, r: Ran ::
      Meets(w, l) && Investigated(w, wording, b, start, r) ==> r.finished <= start + bound
  }

  /** Runs the slowest world. */
  method TheWorstRunHappens(b: Budget, l: Limits, start: Time) returns (w: World, finished: Time, ghost r: Ran)
    requires Accepted(b)
    ensures Meets(w, l) && Investigated(w, QUIET, b, start, r) && r.end.Done?
    ensures finished == r.finished == start + WorstRun(b, l)
  {
    hide *;
    w := SlowWorld(b, l);
    SlowWorldMeets(b, l);
    var end, chats, acts, reports, toolCalls, records;
    ghost var trail;
    end, chats, acts, reports, toolCalls, finished, records, trail := Investigate(w, QUIET, b, start);
    r := Ran(end, chats, acts, reports, toolCalls, finished, records, trail);
    TheSlowestRun(b, l, start, r);
  }

  /** Every run is over in time exactly when the worst is. */
  method RunsEndWithinIff(b: Budget, l: Limits, bound: Duration) returns (worst: Time)
    requires Accepted(b)
    ensures worst == WorstRun(b, l)
    ensures RunsEndWithin(b, l, bound) <==> worst <= bound
  {
    hide Investigated, Meets, Counted, WorstRun, Accepted;
    var w;
    ghost var r;
    w, worst, r := TheWorstRunHappens(b, l, 0);
    if WorstRun(b, l) <= bound {
      forall w: World, wording: Wording, start: Time, r: Ran | Meets(w, l) && Investigated(w, wording, b, start, r)
        ensures r.finished <= start + bound {
        CancelledBeforeTheStart(w, wording, b, start, r);
        EndsByTheWorst(w, wording, b, l, start, r);
      }
    }
  }
}
