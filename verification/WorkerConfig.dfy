/**
  The agent worker's one relationship between settings, and what it guarantees: that an attempt is
  over before its lease is (internal/config/agentworker.go, internal/agentrun/agentrun.go).
*/
module WorkerConfig {
  import opened Prelude
  import opened AgentContext
  import opened AgentLoop
  import opened RunTime
  import Retry

  const REBALANCE_MARGIN: Duration := MINUTE

  /** agentrun's deadline on the write that records how a run ended. */
  const TERMINAL_TIMEOUT: Duration := 10 * SECOND

  datatype Settings = Settings(
    maxRunDuration: Duration,
    llmTimeout: nat, llmRetries: nat,
    embedTimeout: nat, embedRetries: nat,
    searchTimeout: nat,
    toolTimeout: Duration, runLease: Duration, runMaxAttempts: int, toolServerUrlOk: bool)

  function LlmStep(s: Settings): nat { s.llmTimeout * (1 + s.llmRetries) }

  function Retrieval(s: Settings): nat { s.embedTimeout * (1 + s.embedRetries) + s.searchTimeout }

  function WorstCase(s: Settings): Duration {
    s.maxRunDuration + 2 * LlmStep(s) + (if Retrieval(s) > s.toolTimeout then Retrieval(s) else s.toolTimeout)
  }

  datatype Problem = Lease | MaxAttempts | ToolTimeout | ToolServerUrl | LeaseTooShort

  datatype Worker = Worker(worstCase: Duration, rebalanceTimeout: Duration)

  /** Every problem is reported at once, in this order. */
  method LoadAgentWorker(s: Settings) returns (r: Result<Worker, seq<Problem>>)
    ensures r.Ok? <==> s.runLease > 0 && s.runMaxAttempts >= 1 && s.toolTimeout > 0 && s.toolServerUrlOk
                       && WorstCase(s) + REBALANCE_MARGIN < s.runLease
    ensures r.Ok? ==> r.value == Worker(WorstCase(s), WorstCase(s) + REBALANCE_MARGIN)
    ensures var tools, searches := s.toolTimeout, s.embedTimeout * (1 + s.embedRetries) + s.searchTimeout;
            var worst := s.maxRunDuration + 2 * (s.llmTimeout * (1 + s.llmRetries)) + Max(tools, searches);
            && (r.Ok? ==> r.value == Worker(worst, worst + 60_000_000_000) && worst + 60_000_000_000 < s.runLease)
            && (s.runLease > 0 && s.runLease <= worst + 60_000_000_000 ==> r.Err? && LeaseTooShort in r.error)
    ensures r.Err? ==> (
              && (Lease in r.error <==> s.runLease <= 0) && (MaxAttempts in r.error <==> s.runMaxAttempts < 1)
              && (ToolTimeout in r.error <==> s.toolTimeout <= 0) && (ToolServerUrl in r.error <==> !s.toolServerUrlOk)
              && (LeaseTooShort in r.error <==> 0 < s.runLease <= WorstCase(s) + REBALANCE_MARGIN))
  {
    var problems: seq<Problem> := [];
    if s.runLease <= 0 { problems := problems + [Lease]; }
    if s.runMaxAttempts < 1 { problems := problems + [MaxAttempts]; }
    if s.toolTimeout <= 0 { problems := problems + [ToolTimeout]; }
    if !s.toolServerUrlOk { problems := problems + [ToolServerUrl]; }
    var stepOverhead := s.toolTimeout;
    if Retrieval(s) > stepOverhead { stepOverhead := Retrieval(s); }
    var worst := s.maxRunDuration + 2 * LlmStep(s) + stepOverhead;
    if s.runLease > 0 && s.runLease <= worst + REBALANCE_MARGIN { problems := problems + [LeaseTooShort]; }
    if problems != [] {
      return Err(problems);
    }
    return Ok(Worker(worst, worst + REBALANCE_MARGIN));
  }

  ghost predicate Loaded(s: Settings) {
    && s.runLease > 0 && s.runMaxAttempts >= 1 && s.toolTimeout > 0 && s.maxRunDuration > 0
    && WorstCase(s) + REBALANCE_MARGIN < s.runLease
  }

  // ---------------------------------------------------------------- what the settings promise of a step

  /** The most an attempt sleeps between requests: in its two model calls, and in one embedding. */
  function LlmBackoff(s: Settings): nat { s.llmRetries * Retry.MAX_RETRY_DELAY }

  function EmbedBackoff(s: Settings): nat { s.embedRetries * Retry.MAX_RETRY_DELAY }

  /**
    The longest one model call, and one tool call or retrieval, may take, back-off included. Nothing
    in the search client applies searchTimeout; that a search ends by it is assumed here.
  */
  function StepLimits(s: Settings, reportWrites: nat): Limits
    requires s.toolTimeout >= 0
  {
    Limits(Retry.WorstCall(s.llmTimeout, s.llmRetries),
           Max(s.toolTimeout, Retry.WorstCall(s.embedTimeout, s.embedRetries) + s.searchTimeout),
           reportWrites)
  }

  /** The time an attempt may spend that the worst case does not count. */
  function Uncounted(s: Settings, startDelay: nat, reportWrites: nat): nat {
    startDelay + 2 * LlmBackoff(s) + EmbedBackoff(s) + 2 * reportWrites + TERMINAL_TIMEOUT
  }

  /** The latest an attempt may have written its outcome, from its claim. */
  function WorstAttempt(s: Settings, budget: Budget, startDelay: nat, reportWrites: nat): nat
    requires s.toolTimeout >= 0
  {
    startDelay + WorstRun(budget, StepLimits(s, reportWrites)) + TERMINAL_TIMEOUT
  }

  lemma TheWorstCaseAndWhatItLeavesOut(s: Settings, budget: Budget, startDelay: nat, reportWrites: nat)
    requires s.toolTimeout >= 0 && 0 < s.maxRunDuration && budget.maxRunDuration <= s.maxRunDuration
    ensures WorstAttempt(s, budget, startDelay, reportWrites) < WorstCase(s) + Uncounted(s, startDelay, reportWrites)
  {
  }

  /** An attempt on this row, begun at `start`: the loop, then the write of its outcome unless it was cancelled. */
  ghost predicate AttemptEnds(w: World, wording: Wording, budget: Budget, start: Time, terminalWrite: nat, finished: Time) {
    exists r: Ran :: Investigated(w, wording, budget, start, r) &&
      finished == r.finished + (if r.end.Done? then terminalWrite else 0)
  }

  /**
    One attempt: it starts at most `startDelay` after its claim, runs the loop under the row's budget,
    and writes its outcome within the terminal deadline. Under settings the loader accepts it has
    finished writing by the end of its lease whenever what the worst case leaves out, the back-off, the
    start and the row writes, fits in the lease's slack; RebalanceMargin is always part of that slack.
  */
  method Attempt(s: Settings, w: World, wording: Wording, budget: Budget, claimed: Time, startDelay: nat,
                 reportWrites: nat, terminalWrite: nat)
    returns (end: End, finished: Time)
    requires Loaded(s) && Meets(w, StepLimits(s, reportWrites)) && terminalWrite <= TERMINAL_TIMEOUT
    requires budget.maxRunDuration <= s.maxRunDuration
    ensures AttemptEnds(w, wording, budget, claimed + startDelay, terminalWrite, finished)
    ensures finished <= claimed + WorstAttempt(s, budget, startDelay, reportWrites)
    ensures finished < claimed + WorstCase(s) + Uncounted(s, startDelay, reportWrites)
    ensures Uncounted(s, startDelay, reportWrites) <= s.runLease - WorstCase(s) ==> finished < claimed + s.runLease
    ensures Uncounted(s, startDelay, reportWrites) <= REBALANCE_MARGIN ==> finished < claimed + s.runLease
  {
    hide Investigated, Meets, WorstRun;
    var chats, acts, reports, toolCalls, at, records;
    ghost var trail;
    end, chats, acts, reports, toolCalls, at, records, trail := Investigate(w, wording, budget, claimed + startDelay);
    finished := at + (if end.Done? then terminalWrite else 0);
    assert AttemptEnds(w, wording, budget, claimed + startDelay, terminalWrite, finished) by {
      var r := Ran(end, chats, acts, reports, toolCalls, at, records, trail);
      assert Investigated(w, wording, budget, claimed + startDelay, r);
    }
    TheWorstCaseAndWhatItLeavesOut(s, budget, startDelay, reportWrites);
  }

  // ---------------------------------------------------------------- exactly when every attempt is over in time

  /** An attempt within these limits, whatever the model, the tools, the callback and the prompts. */
  ghost predicate PossibleAttempt(s: Settings, w: World, wording: Wording, budget: Budget, startDelay: nat,
                                  reportWrites: nat, claimed: Time, finished: Time)
    requires s.toolTimeout >= 0
  {
    && Meets(w, StepLimits(s, reportWrites))
    && exists begun: Time, terminalWrite: nat :: AttemptEnds(w, wording, budget, begun, terminalWrite, finished) &&
         claimed <= begun <= claimed + startDelay && terminalWrite <= TERMINAL_TIMEOUT
  }

  ghost predicate AttemptsEndWithin(s: Settings, budget: Budget, startDelay: nat, reportWrites: nat, bound: Duration)
    requires s.toolTimeout >= 0
  {
    forall w: World, wording: Wording, claimed: Time, finished: Time ::
      PossibleAttempt(s, w, wording, budget, startDelay, reportWrites, claimed, finished) ==> finished <= claimed + bound
  }

  lemma AnAttemptEndsByTheWorst(s: Settings, w: World, wording: Wording, budget: Budget, startDelay: nat,
                                reportWrites: nat, claimed: Time, finished: Time)
    requires s.toolTimeout >= 0
    requires PossibleAttempt(s, w, wording, budget, startDelay, reportWrites, claimed, finished)
    ensures finished <= claimed + WorstAttempt(s, budget, startDelay, reportWrites)
  {
    hide Investigated, Meets, WorstRun, StepLimits, Counted;
    var begun: Time, terminalWrite: nat :| AttemptEnds(w, wording, budget, begun, terminalWrite, finished) &&
      claimed <= begun <= claimed + startDelay && terminalWrite <= TERMINAL_TIMEOUT;
    var r: Ran :| Investigated(w, wording, budget, begun, r) &&
      finished == r.finished + (if r.end.Done? then terminalWrite else 0);
    CancelledBeforeTheStart(w, wording, budget, begun, r);
    EndsByTheWorst(w, wording, budget, StepLimits(s, reportWrites), begun, r);
  }

  /** An attempt that takes as long as any may: every limit is reached, and nothing fails. */
  method TheWorstAttemptHappens(s: Settings, budget: Budget, claimed: Time, startDelay: nat, reportWrites: nat, terminalWrite: nat)
    returns (w: World, finished: Time)
    requires s.toolTimeout >= 0 && Accepted(budget)
    ensures Meets(w, StepLimits(s, reportWrites))
    ensures AttemptEnds(w, QUIET, budget, claimed + startDelay, terminalWrite, finished)
    ensures finished == claimed + startDelay + WorstRun(budget, StepLimits(s, reportWrites)) + terminalWrite
  {
    hide Investigated, Meets, WorstRun, StepLimits, Accepted;
    ghost var r;
    w, finished, r := TheWorstRunHappens(budget, StepLimits(s, reportWrites), claimed + startDelay);
    finished := finished + terminalWrite;
  }

  /** Every attempt is over within a bound exactly when the worst is: the bound on an attempt is sharp. */
  method AttemptsEndWithinIff(s: Settings, budget: Budget, startDelay: nat, reportWrites: nat, bound: Duration)
    returns (worst: Duration)
    requires s.toolTimeout >= 0 && Accepted(budget)
    ensures worst == WorstAttempt(s, budget, startDelay, reportWrites)
    ensures AttemptsEndWithin(s, budget, startDelay, reportWrites, bound) <==> worst <= bound
  {
    hide Meets, WorstRun, StepLimits, Accepted, AttemptEnds;
    var slow;
    slow, worst := TheWorstAttemptHappens(s, budget, 0, startDelay, reportWrites, TERMINAL_TIMEOUT);
    assert PossibleAttempt(s, slow, QUIET, budget, startDelay, reportWrites, 0, worst);
    if worst <= bound {
      forall w: World, wording: Wording, claimed: Time, finished: Time
        | PossibleAttempt(s, w, wording, budget, startDelay, reportWrites, claimed, finished)
        ensures finished <= claimed + bound {
        AnAttemptEndsByTheWorst(s, w, wording, budget, startDelay, reportWrites, claimed, finished);
      }
    }
  }

  // ---------------------------------------------------------------- where the margin falls short

  /** The row may take the time limit in full, and its steps can use it up. */
  predicate TimeIsTheBound(s: Settings, budget: Budget, reportWrites: nat)
    requires s.toolTimeout >= 0
  {
    && budget.maxRunDuration == s.maxRunDuration
    && s.maxRunDuration <= 1 + (budget.maxSteps - 1) * FullStep(StepLimits(s, reportWrites))
  }

  lemma AllTheTimeIsSpent(s: Settings, budget: Budget, startDelay: nat, reportWrites: nat)
    requires s.toolTimeout >= 0 && Accepted(budget) && TimeIsTheBound(s, budget, reportWrites)
    requires s.toolTimeout <= Retrieval(s)
    ensures WorstAttempt(s, budget, startDelay, reportWrites) == WorstCase(s) + Uncounted(s, startDelay, reportWrites) - 1
  {
    var l := StepLimits(s, reportWrites);
    assert Min(budget.maxRunDuration - 1, (budget.maxSteps - 1) * FullStep(l)) == s.maxRunDuration - 1;
    assert Retry.WorstCall(s.embedTimeout, s.embedRetries) + s.searchTimeout >= Retrieval(s);
  }

  /**
    The margin is said to absorb the back-off, forty seconds of it. It counts only the model calls: the
    retrieval's embedding sleeps too. Every attempt is over by the rebalance timeout exactly when all
    that the worst case leaves out, the back-off, the start and the row writes, is within the margin.
  */
  method MarginCoversTheAttemptIff(s: Settings, budget: Budget, startDelay: nat, reportWrites: nat)
    returns (worst: Duration)
    requires s.toolTimeout >= 0 && Accepted(budget) && TimeIsTheBound(s, budget, reportWrites)
    requires s.toolTimeout <= Retrieval(s)
    ensures worst == WorstCase(s) + Uncounted(s, startDelay, reportWrites) - 1
    ensures AttemptsEndWithin(s, budget, startDelay, reportWrites, WorstCase(s) + REBALANCE_MARGIN) <==>
              Uncounted(s, startDelay, reportWrites) <= REBALANCE_MARGIN + 1
  {
    hide AttemptsEndWithin, WorstRun;
    AllTheTimeIsSpent(s, budget, startDelay, reportWrites);
    worst := AttemptsEndWithinIff(s, budget, startDelay, reportWrites, WorstCase(s) + REBALANCE_MARGIN);
  }

  const DEFAULTS := Settings(5 * MINUTE, 60 * SECOND, 2, 30 * SECOND, 3, 10 * SECOND, 30 * SECOND, 15 * MINUTE, 3, true)

  const DEFAULT_BUDGET := Budget(8, 6, 5 * MINUTE, 60_000)

  lemma DefaultWorstRun(s: Settings, reportWrites: nat)
    requires s == DEFAULTS.(runLease := s.runLease)
    ensures Accepted(DEFAULT_BUDGET) && WorstCase(s) == 13 * MINUTE + 10 * SECOND
    ensures WorstRun(DEFAULT_BUDGET, StepLimits(s, reportWrites)) == 14 * MINUTE + 20 * SECOND - 1 + 2 * reportWrites
  {
    assert StepLimits(s, reportWrites) == Limits(200 * SECOND, 160 * SECOND, reportWrites);
  }

  /** At the defaults it is not: this attempt is still at work when the rebalance timeout is over. */
  method DefaultsOutlastTheRebalanceTimeout(claimed: Time) returns (w: World, finished: Time)
    ensures Loaded(DEFAULTS) && Meets(w, StepLimits(DEFAULTS, 0))
    ensures AttemptEnds(w, QUIET, DEFAULT_BUDGET, claimed, 0, finished)
    ensures finished > claimed + WorstCase(DEFAULTS) + REBALANCE_MARGIN
  {
    hide AttemptEnds, WorstRun, Meets;
    DefaultWorstRun(DEFAULTS, 0);
    w, finished := TheWorstAttemptHappens(DEFAULTS, DEFAULT_BUDGET, claimed, 0, 0, 0);
    assert claimed + 0 == claimed;
  }

  /** Every attempt ends in the default lease exactly when start and two row writes take at most 30 s and 1 ns. */
  method DefaultLeaseHoldsIff(startDelay: nat, reportWrites: nat) returns (worst: Duration)
    ensures worst == 14 * MINUTE + 30 * SECOND - 1 + startDelay + 2 * reportWrites
    ensures AttemptsEndWithin(DEFAULTS, DEFAULT_BUDGET, startDelay, reportWrites, DEFAULTS.runLease) <==>
              startDelay + 2 * reportWrites <= 30 * SECOND + 1
  {
    hide AttemptsEndWithin, WorstRun;
    DefaultWorstRun(DEFAULTS, reportWrites);
    worst := AttemptsEndWithinIff(DEFAULTS, DEFAULT_BUDGET, startDelay, reportWrites, DEFAULTS.runLease);
  }

  /** A lease the loader accepts, one second longer than it asks for, and an attempt that outlasts it on back-off alone. */
  method AnAcceptedLeaseMayBeOutlasted(claimed: Time) returns (s: Settings, w: World, finished: Time)
    ensures Loaded(s) && Meets(w, StepLimits(s, 0))
    ensures AttemptEnds(w, QUIET, DEFAULT_BUDGET, claimed, 0, finished)
    ensures finished > claimed + s.runLease
  {
    hide AttemptEnds, WorstRun, Meets;
    s := DEFAULTS.(runLease := 14 * MINUTE + 11 * SECOND);
    DefaultWorstRun(s, 0);
    w, finished := TheWorstAttemptHappens(s, DEFAULT_BUDGET, claimed, 0, 0, 0);
    assert claimed + 0 == claimed;
  }
}
