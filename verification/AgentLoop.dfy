/**
  The bounded investigation loop (internal/agent/loop.go). The model, the tools and the report
  callback are arbitrary: each is a function of how many calls were made before.
*/
module AgentLoop {
  import opened Prelude
  import opened AgentContext
  import opened Evidence

  // ---------------------------------------------------------------- the world the loop runs in

  datatype Reply = Unreachable(error: Bytes) | Answered(calls: seq<ToolCall>, promptTokens: nat, completionTokens: nat)

  datatype Observation = Observation(text: Bytes, hits: seq<Hit>, query: Bytes)

  datatype FinalResult = FinalResult(rootCause: Bytes, citations: seq<Citation>)

  datatype Timed<T> = Timed(took: nat, value: T)

  datatype World = World(
    chat: nat -> Timed<Reply>,
    act: nat -> Timed<Observation>,
    report: nat -> Timed<Result<StepRef, Bytes>>,
    cancelAt: Option<Time>,
    trim: Bytes -> Bytes,
    validJson: Bytes -> bool,
    decode: Bytes -> Option<FinalResult>,
    callId: nat -> Bytes,
    explain: Reason -> Bytes,
    forced: StopReason -> Bytes)

  /** How long one model call, one tool or retrieval, and one report may take. */
  datatype Limits = Limits(llmStep: nat, stepOverhead: nat, reportWrites: nat)

  ghost predicate Meets(w: World, l: Limits) {
    forall k :: w.chat(k).took <= l.llmStep && w.act(k).took <= l.stepOverhead && w.report(k).took <= l.reportWrites
  }

  /** How long the first n calls took. */
  function Total<T>(calls: nat -> Timed<T>, n: nat): nat { if n == 0 then 0 else Total(calls, n - 1) + calls(n - 1).took }

  function TimeSpent(w: World, chats: nat, acts: nat, reports: nat): nat {
    Total(w.chat, chats) + Total(w.act, acts) + Total(w.report, reports)
  }

  predicate CancelledBy(w: World, t: Time) { w.cancelAt.Some? && w.cancelAt.value <= t }

  // ---------------------------------------------------------------- what the loop decides and records

  datatype StopReason = Completed | MaxSteps | MaxToolCalls | Timeout | TokenBudget | Error

  datatype Status = Succeeded | Failed

  /** Why a response was unusable. */
  datatype Reason =
    | NoTool | NoName | BadArguments(name: Bytes) | UnreadableFinish | EmptyRootCause
    | ModelFailed(error: Bytes) | NotFinish(name: Bytes)

  datatype Failure =
    | ModelUnreachable(error: Bytes)
    | NotRecorded(step: nat, error: Bytes)
    | NoUsableTool(reason: Reason)
    | NoDiagnosis(stop: StopReason, reason: Reason)

  datatype Outcome = Outcome(
    status: Status, stop: StopReason, final: Option<Bytes>, failure: Option<Failure>,
    stepCount: nat, toolCallCount: nat, promptTokens: nat, completionTokens: nat)

  datatype End = Cancelled | Done(outcome: Outcome)

  /** One step as it is reported; `call` is what the model asked for, when it was usable. */
  datatype Step = Step(
    number: nat, action: Action, call: Option<ToolCall>, observation: Bytes, ok: bool, reason: Option<Reason>,
    evidence: seq<Row>)

  // "finish", "function", "{}"
  const FINISH: Bytes := [102, 105, 110, 105, 115, 104]
  const FUNCTION: Bytes := [102, 117, 110, 99, 116, 105, 111, 110]
  const EMPTY_ARGUMENTS: Bytes := [123, 125]

  datatype Decision = Rejected(reason: Reason) | Chosen(call: ToolCall)

  /** Reads a reply: its first call is taken, with a missing id or type filled in, or it is unusable. */
  function Decide(w: World, step: nat, calls: seq<ToolCall>): Decision {
    if calls == [] then Rejected(NoTool)
    else
      var name := w.trim(calls[0].name);
      var args := w.trim(calls[0].arguments);
      if name == [] then Rejected(NoName)
      else if args != [] && !w.validJson(args) then Rejected(BadArguments(name))
      else
        Chosen(ToolCall(
          if calls[0].id == [] then w.callId(step) else calls[0].id,
          if calls[0].kind == [] then FUNCTION else calls[0].kind,
          name,
          if args == [] then EMPTY_ARGUMENTS else args))
  }

  /** Whether finish's arguments hold a diagnosis, or why not. */
  function Diagnosis(w: World, args: Bytes): Result<FinalResult, Reason> {
    match w.decode(args)
    case None => Err(UnreadableFinish)
    case Some(final) => if w.trim(final.rootCause) == [] then Err(EmptyRootCause) else Ok(final)
  }

  // ---------------------------------------------------------------- what a reply asks for

  /** The call is the reply's first one, trimmed, and filled in where it left something out. */
  ghost predicate Asks(w: World, number: nat, calls: seq<ToolCall>, call: ToolCall) {
    && calls != [] && call.name != [] && call.name == w.trim(calls[0].name)
    && (var args := w.trim(calls[0].arguments);
        if args == [] then call.arguments == [123, 125] else call.arguments == args && w.validJson(args))
    && call.id == (if calls[0].id == [] then w.callId(number) else calls[0].id)
    && call.kind == (if calls[0].kind == [] then [102, 117, 110, 99, 116, 105, 111, 110] else calls[0].kind)
  }

  /** It asks for `finish`. */
  ghost predicate AsksToFinish(w: World, number: nat, calls: seq<ToolCall>, call: ToolCall) {
    Asks(w, number, calls, call) && call.name == [102, 105, 110, 105, 115, 104]
  }

  /** It asks for `search_knowledge`. */
  ghost predicate AsksToSearch(w: World, number: nat, calls: seq<ToolCall>, call: ToolCall) {
    && Asks(w, number, calls, call)
    && call.name == [115, 101, 97, 114, 99, 104, 95, 107, 110, 111, 119, 108, 101, 100, 103, 101]
  }

  /** The arguments decode to a root cause that is not blank. */
  predicate HoldsADiagnosis(w: World, args: Bytes) {
    w.decode(args).Some? && w.trim(w.decode(args).value.rootCause) != []
  }

  lemma DecideIs(w: World, number: nat, calls: seq<ToolCall>)
    ensures var d := Decide(w, number, calls);
            && (d == Rejected(NoTool) <==> calls == [])
            && (d == Rejected(NoName) <==> calls != [] && w.trim(calls[0].name) == [])
            && (forall name :: d == Rejected(BadArguments(name)) <==>
                  && calls != [] && name != [] && name == w.trim(calls[0].name)
                  && w.trim(calls[0].arguments) != [] && !w.validJson(w.trim(calls[0].arguments)))
            && (forall call :: d == Chosen(call) <==> Asks(w, number, calls, call))
            && (d.Rejected? ==> d.reason.NoTool? || d.reason.NoName? || d.reason.BadArguments?)
  {
  }

  lemma DiagnosisIs(w: World, args: Bytes)
    ensures Diagnosis(w, args).Ok? <==> HoldsADiagnosis(w, args)
    ensures Diagnosis(w, args).Ok? ==> w.decode(args) == Some(Diagnosis(w, args).value)
    ensures Diagnosis(w, args) == Err(UnreadableFinish) <==> w.decode(args) == None
    ensures Diagnosis(w, args) == Err(EmptyRootCause) <==>
              w.decode(args).Some? && w.trim(w.decode(args).value.rootCause) == []
    ensures Diagnosis(w, args).Err? ==> Diagnosis(w, args).error.UnreadableFinish? || Diagnosis(w, args).error.EmptyRootCause?
  {
  }

  // ---------------------------------------------------------------- what a run's steps say

  function ToolSteps(trail: seq<Step>): nat {
    if trail == [] then 0
    else ToolSteps(trail[..|trail| - 1]) + (if trail[|trail| - 1].action == CallTool then 1 else 0)
  }

  function TurnOf(w: World, s: Step): Turn {
    match s.call
    case Some(call) => Observed(s.number, call, s.observation)
    case None => Unusable(s.number, if s.reason.Some? then w.explain(s.reason.value) else [])
  }

  function TurnsOf(w: World, trail: seq<Step>): (turns: seq<Turn>)
    ensures |turns| == |trail| && forall k :: 0 <= k < |trail| ==> turns[k] == TurnOf(w, trail[k])
  {
    seq(|trail|, k requires 0 <= k < |trail| => TurnOf(w, trail[k]))
  }

  /** Two steps in a row in which the model called no usable tool. */
  predicate TwoNones(trail: seq<Step>) {
    exists k :: 0 < k < |trail| && trail[k - 1].action == NoAction && trail[k].action == NoAction
  }

  predicate EndsInNone(trail: seq<Step>) { trail != [] && trail[|trail| - 1].action == NoAction }

  predicate Observes(s: Step) { s.call.Some? && (s.action == CallTool || s.action == Retrieve) }

  /** A usable step carries its call and no reason; an unusable one the reverse, and is in error. */
  ghost predicate Shaped(s: Step) {
    && (s.ok <==> s.action != NoAction) && (s.reason.Some? <==> s.action == NoAction)
    && (s.call.None? <==> s.action == NoAction)
  }

  /** How many tools and retrievals the steps ran. */
  function Acted(trail: seq<Step>): nat {
    if trail == [] then 0
    else Acted(trail[..|trail| - 1]) + (if Observes(trail[|trail| - 1]) then 1 else 0)
  }

  /**
    The step is what the model's reply to its call asks for: search_knowledge retrieves, finish
    finishes, any other name is a tool, and an unusable reply is recorded with its reason. `acted` is
    how many tools and retrievals ran before.
  */
  ghost predicate Follows(w: World, s: Step, acted: nat) {
    && s.number > 0 && Shaped(s)
    && (Observes(s) ==> s.observation == w.act(acted).value.text)
    && match w.chat(s.number - 1).value
       case Unreachable(error) => s.reason == Some(ModelFailed(error))
       case Answered(calls, _, _) =>
         match Decide(w, s.number, calls)
         case Rejected(reason) => s.reason == Some(reason)
         case Chosen(call) =>
           if s.action == NoAction then
             if call.name == FINISH then Diagnosis(w, call.arguments) == Err(s.reason.value)
             else s.reason == Some(NotFinish(call.name))
           else
             && s.call == Some(call)
             && (s.action == Finish <==> call.name == FINISH)
             && (s.action == Finish ==> Diagnosis(w, call.arguments).Ok?)
             && (s.action == Retrieve <==> call.name == SEARCH_KNOWLEDGE)
  }

  /**
    What is recorded of a reply. It is unusable exactly when it calls nothing, or its first call has no
    name or arguments that are not JSON, or asks to finish with arguments that do not decode or whose
    root cause is blank; or, where only finish was on offer, asks for something else. A finish is
    recorded exactly for a diagnosis.
  */
  ghost predicate Answers(w: World, s: Step) {
    && s.number > 0
    && match w.chat(s.number - 1).value
       case Unreachable(error) => s.action == NoAction && s.reason == Some(ModelFailed(error))
       case Answered(calls, _, _) =>
         && (s.reason == Some(NoTool) <==> calls == [])
         && (s.reason == Some(NoName) <==> calls != [] && w.trim(calls[0].name) == [])
         && (forall name :: s.reason == Some(BadArguments(name)) <==>
               && calls != [] && name != [] && name == w.trim(calls[0].name)
               && w.trim(calls[0].arguments) != [] && !w.validJson(w.trim(calls[0].arguments)))
         && (s.reason == Some(UnreadableFinish) <==>
               exists call :: AsksToFinish(w, s.number, calls, call) && w.decode(call.arguments) == None)
         && (s.reason == Some(EmptyRootCause) <==>
               exists call :: AsksToFinish(w, s.number, calls, call) && w.decode(call.arguments).Some?
                              && w.trim(w.decode(call.arguments).value.rootCause) == [])
         && (s.action == Finish <==>
               exists call :: AsksToFinish(w, s.number, calls, call) && HoldsADiagnosis(w, call.arguments))
         && (s.action == Retrieve ==> exists call :: AsksToSearch(w, s.number, calls, call))
         && (s.action == CallTool ==>
               exists call :: Asks(w, s.number, calls, call) && !AsksToSearch(w, s.number, calls, call)
                              && !AsksToFinish(w, s.number, calls, call))
         && (forall name :: s.reason == Some(NotFinish(name)) ==>
               exists call :: Asks(w, s.number, calls, call) && call.name == name)
         && (s.call.Some? ==> Asks(w, s.number, calls, s.call.value))
  }

  lemma FollowingIsAnswering(w: World, s: Step, acted: nat)
    requires Follows(w, s, acted)
    ensures Answers(w, s)
    ensures s.action == Finish ==> s.call.Some? && HoldsADiagnosis(w, s.call.value.arguments)
  {
    hide Asks, Diagnosis, Decide, HoldsADiagnosis;
    var reply := w.chat(s.number - 1).value;
    if reply.Answered? {
      DecideIs(w, s.number, reply.calls);
      if Decide(w, s.number, reply.calls).Chosen? {
        var call := Decide(w, s.number, reply.calls).call;
        assert Asks(w, s.number, reply.calls, call);
        DiagnosisIs(w, call.arguments);
        assert s.action == Retrieve ==> AsksToSearch(w, s.number, reply.calls, call);
        assert s.action == CallTool ==>
                 !AsksToSearch(w, s.number, reply.calls, call) && !AsksToFinish(w, s.number, reply.calls, call);
      }
    }
  }

  /** A step only a forced call can leave: elsewhere an unreachable model ends the run, and any tool may be called. */
  predicate OnlyForced(s: Step) { s.reason.Some? && (s.reason.value.ModelFailed? || s.reason.value.NotFinish?) }

  /** A step after which the loop may go on. */
  predicate Continues(s: Step) { s.action != Finish && !OnlyForced(s) }

  /** Numbered 1, 2, 3 with no gap, each following from the model's reply; only the last may end the run. */
  ghost predicate Timeline(w: World, trail: seq<Step>) {
    && (forall k :: 0 <= k < |trail| ==> trail[k].number == k + 1 && Follows(w, trail[k], Acted(trail[..k])))
    && forall k :: 0 <= k < |trail| - 1 ==> Continues(trail[k])
  }

  ghost predicate Unended(trail: seq<Step>) { forall k :: 0 <= k < |trail| ==> Continues(trail[k]) }

  /** What a citation may later need: the tool's name, the hits and the query. */
  predicate KeepsObservation(rec: Record, s: Step, observed: Observation)
    requires Observes(s)
  {
    rec.toolName == s.call.value.name && rec.hits == observed.hits && rec.query == observed.query
  }

  /** Record k + 1 holds step k + 1's action and observation, and the ids the callback gave for it. */
  ghost predicate RemembersStep(w: World, records: map<int, Record>, trail: seq<Step>, k: nat)
    requires k < |trail|
  {
    && k + 1 in records && records[k + 1].action == trail[k].action
    && w.report(k).value.Ok? && records[k + 1].ref == w.report(k).value.value
    && records[k + 1].observation == trail[k].observation
    && (Observes(trail[k]) ==> KeepsObservation(records[k + 1], trail[k], w.act(Acted(trail[..k])).value))
  }

  /** The records are those of steps 1..n. */
  ghost predicate Remembers(w: World, records: map<int, Record>, trail: seq<Step>) {
    && (forall n :: n in records ==> 1 <= n <= |trail|)
    && forall k: nat :: k < |trail| ==> RemembersStep(w, records, trail, k)
  }

  function PromptTokensOf(w: World, n: nat): nat {
    if n == 0 then 0
    else PromptTokensOf(w, n - 1) + (match w.chat(n - 1).value case Answered(_, p, _) => p case Unreachable(_) => 0)
  }

  function CompletionTokensOf(w: World, n: nat): nat {
    if n == 0 then 0
    else CompletionTokensOf(w, n - 1) + (match w.chat(n - 1).value case Answered(_, _, c) => c case Unreachable(_) => 0)
  }

  /** The prompt after the steps of `trail`: exactly those steps, replayed. */
  function PromptAfter(w: World, wording: Wording, b: Budget, trail: seq<Step>): seq<Message> {
    Prompt(wording, b, TurnsOf(w, trail), Spent(|trail| + 1, ToolSteps(trail)))
  }

  /**
    Why the next call after `trail` is the last: the bounds in their order, then the token net.
    None means the loop goes on.
  */
  function HeadStop(w: World, wording: Wording, b: Budget, trail: seq<Step>, elapsed: Duration): Option<StopReason> {
    if |trail| >= b.maxSteps then Some(MaxSteps)
    else if ToolSteps(trail) >= b.maxToolCalls then Some(MaxToolCalls)
    else if elapsed >= b.maxRunDuration then Some(Timeout)
    else if TokensFor(TotalBytes(PromptAfter(w, wording, b, trail))) > b.maxPromptTokens then Some(TokenBudget)
    else None
  }

  /** Steps before tool calls before time before tokens; and none of them while all have room. */
  lemma TheBoundsInTheirOrder(w: World, wording: Wording, b: Budget, trail: seq<Step>, elapsed: Duration)
    ensures var stop := HeadStop(w, wording, b, trail, elapsed);
            && (stop == Some(MaxSteps) <==> |trail| >= b.maxSteps)
            && (stop == Some(MaxToolCalls) <==> |trail| < b.maxSteps && ToolSteps(trail) >= b.maxToolCalls)
            && (stop == Some(Timeout) <==>
                  |trail| < b.maxSteps && ToolSteps(trail) < b.maxToolCalls && elapsed >= b.maxRunDuration)
            && stop != Some(Completed) && stop != Some(Error)
            && (stop == None || stop == Some(TokenBudget) <==>
                  |trail| < b.maxSteps && ToolSteps(trail) < b.maxToolCalls && elapsed < b.maxRunDuration)
  {
    hide PromptAfter, TotalBytes, ToolSteps;
  }

  /** A step that observed is replayed with its call and observation, an unusable one with its reason's text. */
  lemma TurnsAreTheSteps(w: World, trail: seq<Step>, k: nat)
    requires Timeline(w, trail) && k < |trail|
    ensures |TurnsOf(w, trail)| == |trail|
    ensures TurnsOf(w, trail)[k] ==
              if trail[k].action == NoAction && trail[k].reason.Some? then
                Unusable(k + 1, w.explain(trail[k].reason.value))
              else Observed(k + 1, trail[k].call.GetOr(ToolCall([], [], [], [])), trail[k].observation)
  {
    hide Decide, Diagnosis;
    assert Follows(w, trail[k], Acted(trail[..k]));
  }

  /** How long the run has been going when the bounds are checked after n steps. */
  function ElapsedAt(w: World, trail: seq<Step>, n: nat): nat
    requires n <= |trail|
  {
    TimeSpent(w, n, Acted(trail[..n]), n)
  }

  function StopAt(w: World, wording: Wording, b: Budget, trail: seq<Step>, n: nat): Option<StopReason>
    requires n <= |trail|
  {
    HeadStop(w, wording, b, trail[..n], ElapsedAt(w, trail, n))
  }

  /** After n steps nothing stopped the loop: no bound was reached and nothing was cancelled. */
  ghost predicate WentOnAt(w: World, wording: Wording, b: Budget, start: Time, trail: seq<Step>, n: nat)
    requires n <= |trail|
  {
    StopAt(w, wording, b, trail, n) == None && !CancelledBy(w, start + ElapsedAt(w, trail, n))
  }

  ghost predicate WentOn(w: World, wording: Wording, b: Budget, start: Time, trail: seq<Step>, n: nat)
    requires n <= |trail|
  {
    forall k: nat :: k < n ==> WentOnAt(w, wording, b, start, trail, k)
  }

  function ForcedMessage(w: World, stop: Option<StopReason>): seq<Message> {
    match stop
    case None => []
    case Some(reason) => [Message(User, w.forced(reason), [], [])]
  }

  ghost predicate PromptAt(w: World, wording: Wording, b: Budget, trail: seq<Step>, prompts: seq<seq<Message>>,
                           stop: Option<StopReason>, k: nat)
    requires k < |prompts|
  {
    && k <= |trail|
    && prompts[k] == PromptAfter(w, wording, b, trail[..k])
                     + (if k == |prompts| - 1 then ForcedMessage(w, stop) else [])
  }

  /** What the model was shown at each call: the steps recorded before it; only a forced call, the last, adds more. */
  ghost predicate Prompted(w: World, wording: Wording, b: Budget, trail: seq<Step>, prompts: seq<seq<Message>>,
                           stop: Option<StopReason>) {
    forall k: nat :: k < |prompts| ==> PromptAt(w, wording, b, trail, prompts, stop, k)
  }

  /**
    How a run that was not cancelled ended, given the steps it recorded and the reason, if any, that
    its last call was forced.
  */
  ghost predicate Verdict(w: World, trail: seq<Step>, toolCalls: nat, stop: Option<StopReason>, o: Outcome) {
    && Timeline(w, trail)
    && (trail != [] && stop.None? ==> !OnlyForced(trail[|trail| - 1]))
    && (o.status == Succeeded <==> trail != [] && trail[|trail| - 1].action == Finish)
    && (match o.status
        case Succeeded =>
          && o.failure == None && o.stop == stop.GetOr(Completed)
          && var last := trail[|trail| - 1];
          && last.call.Some? && o.final == Some(last.call.value.arguments)
          && Diagnosis(w, last.call.value.arguments).Ok?
          && !TwoNones(trail)
          && toolCalls == ToolSteps(trail)
        case Failed =>
          && o.stop == Error && o.final == None && o.failure.Some?
          && (o.failure.value.NoUsableTool? <==> stop.None? && TwoNones(trail))
          && (match o.failure.value
              case ModelUnreachable(error) => w.chat(|trail|).value == Unreachable(error)
              case NotRecorded(step, error) => step == |trail| + 1 && w.report(|trail|).value == Err(error)
              case NoUsableTool(reason) => EndsInNone(trail) && trail[|trail| - 1].reason == Some(reason)
              case NoDiagnosis(bound, reason) =>
                stop == Some(bound) && EndsInNone(trail) && trail[|trail| - 1].reason == Some(reason))
          && ToolSteps(trail) <= toolCalls <= ToolSteps(trail) + (if o.failure.value.NotRecorded? then 1 else 0))
  }

  /** All that is left of a run: how it ended, the calls it made, when it was over, and what it recorded. */
  datatype Ran = Ran(
    end: End, chats: nat, acts: nat, reports: nat, toolCalls: nat, finished: Time, records: map<int, Record>,
    trail: seq<Step>)

  /**
    The clock shows exactly the calls made. How those stand to the steps recorded: nothing stopped the
    loop before its last model call, which was not made after a cancellation, and a forced call is
    followed by no action.
  */
  ghost predicate Counted(w: World, wording: Wording, b: Budget, start: Time, r: Ran) {
    && r.finished == start + TimeSpent(w, r.chats, r.acts, r.reports)
    && |r.trail| <= r.reports <= r.chats <= |r.trail| + 1 && Acted(r.trail) <= r.acts
    && (r.chats == 0 ==> r.acts == 0)
    && (r.chats > 0 ==>
          && WentOn(w, wording, b, start, r.trail, r.chats - 1)
          && !CancelledBy(w, start + ElapsedAt(w, r.trail, r.chats - 1))
          && var before := Acted(r.trail[..r.chats - 1]);
             before <= r.acts <= before + (if StopAt(w, wording, b, r.trail, r.chats - 1).None? then 1 else 0))
  }

  /** Which of the last step's calls were made, by how the run ended. */
  ghost predicate Finishing(r: Ran, o: Outcome) {
    match o.failure
    case Some(ModelUnreachable(_)) => r.chats == |r.trail| + 1 && r.reports == |r.trail| && r.acts == Acted(r.trail)
    case Some(NotRecorded(_, _)) => r.chats == r.reports == |r.trail| + 1
    case _ => r.chats == r.reports == |r.trail| && r.acts == Acted(r.trail)
  }

  /** What one investigation comes to, whatever the model, the tools and the callback do. */
  ghost predicate Investigated(w: World, wording: Wording, b: Budget, start: Time, r: Ran) {
    && r.chats <= Max(0, b.maxSteps) + 1 && r.toolCalls <= Max(0, b.maxToolCalls)
    && Counted(w, wording, b, start, r) && Remembers(w, r.records, r.trail)
    && match r.end
       case Cancelled => CancelledBy(w, r.finished) && Timeline(w, r.trail) && Unended(r.trail)
       case Done(o) =>
         && r.chats > 0 && Finishing(r, o)
         && o.stepCount == |r.trail| && o.toolCallCount == r.toolCalls
         && o.promptTokens == PromptTokensOf(w, r.chats) && o.completionTokens == CompletionTokensOf(w, r.chats)
         && Verdict(w, r.trail, r.toolCalls, StopAt(w, wording, b, r.trail, r.chats - 1), o)
         && (o.failure.Some? && (o.failure.value.ModelUnreachable? || o.failure.value.NotRecorded?) ==>
               !CancelledBy(w, r.finished))
         && (o.status == Succeeded ==>
               var last := r.trail[|r.trail| - 1];
               last.evidence == Resolved(r.records, Diagnosis(w, last.call.value.arguments).value.citations))
  }

  lemma OnePromptMore(w: World, wording: Wording, b: Budget, trail: seq<Step>, prompts: seq<seq<Message>>,
                      messages: seq<Message>, stop: Option<StopReason>)
    requires Prompted(w, wording, b, trail, prompts, None) && |prompts| == |trail|
    requires messages == PromptAfter(w, wording, b, trail) + ForcedMessage(w, stop)
    ensures Prompted(w, wording, b, trail, prompts + [messages], stop)
  {
    hide PromptAfter;
    assert trail[..|trail|] == trail;
    var after := prompts + [messages];
    forall k: nat | k < |after| ensures PromptAt(w, wording, b, trail, after, stop, k) {
      if k < |prompts| {
        assert PromptAt(w, wording, b, trail, prompts, None, k);
        assert after[k] == prompts[k] == PromptAfter(w, wording, b, trail[..k]) + [];
      }
    }
  }

  // ---------------------------------------------------------------- one step more

  lemma TimelineGrows(w: World, trail: seq<Step>, step: Step)
    requires Timeline(w, trail) && Unended(trail) && step.number == |trail| + 1 && Follows(w, step, Acted(trail))
    ensures Timeline(w, trail + [step])
  {
    hide Follows;
    var after := trail + [step];
    forall k | 0 <= k < |after| ensures after[k].number == k + 1 && Follows(w, after[k], Acted(after[..k])) {
      assert after[..k] == trail[..k];
      if k == |trail| { assert trail[..k] == trail; }
    }
  }

  lemma NonesAfter(trail: seq<Step>, step: Step)
    ensures Continues(step) && Unended(trail) ==> Unended(trail + [step])
    ensures TwoNones(trail + [step]) <==> TwoNones(trail) || (EndsInNone(trail) && step.action == NoAction)
  {
    var after := trail + [step];
    if TwoNones(trail) {
      var k :| 0 < k < |trail| && trail[k - 1].action == NoAction && trail[k].action == NoAction;
      assert after[k - 1].action == NoAction && after[k].action == NoAction;
    }
    if EndsInNone(trail) && step.action == NoAction {
      assert after[|trail| - 1].action == NoAction && after[|trail|].action == NoAction;
    }
  }

  lemma RememberedOneMore(w: World, records: map<int, Record>, trail: seq<Step>, step: Step, rec: Record)
    requires Remembers(w, records, trail) && w.report(|trail|).value.Ok?
    requires rec.action == step.action && rec.observation == step.observation
    requires rec.ref == w.report(|trail|).value.value
    requires Observes(step) ==> KeepsObservation(rec, step, w.act(Acted(trail)).value)
    ensures Remembers(w, records[|trail| + 1 := rec], trail + [step])
  {
    hide KeepsObservation, Acted, Observes;
    var after, grown := trail + [step], records[|trail| + 1 := rec];
    forall k: nat | k < |after| ensures RemembersStep(w, grown, after, k) {
      assert after[..k] == trail[..k];
      if k < |trail| {
        assert RemembersStep(w, records, trail, k);
      } else {
        assert trail[..k] == trail;
      }
    }
  }

  lemma KeptWhateverTheIds(rec: Record, ref: StepRef, s: Step, observed: Observation)
    requires Observes(s) && KeepsObservation(rec, s, observed)
    ensures KeepsObservation(rec.(ref := ref), s, observed)
  {
  }

  lemma PromptedStays(w: World, wording: Wording, b: Budget, trail: seq<Step>, prompts: seq<seq<Message>>,
                      stop: Option<StopReason>, step: Step)
    requires Prompted(w, wording, b, trail, prompts, stop)
    ensures Prompted(w, wording, b, trail + [step], prompts, stop)
  {
    hide PromptAfter;
    var after := trail + [step];
    forall k: nat | k < |prompts| ensures PromptAt(w, wording, b, after, prompts, stop, k) {
      assert PromptAt(w, wording, b, trail, prompts, stop, k);
      assert after[..k] == trail[..k];
    }
  }

  /** A run that fails with its last step unrecorded. */
  lemma NotFinished(w: World, trail: seq<Step>, toolCalls: nat, stop: Option<StopReason>, o: Outcome)
    requires Timeline(w, trail) && Unended(trail) && !TwoNones(trail)
    requires ToolSteps(trail) <= toolCalls
    requires o.status == Failed && o.stop == Error && o.final == None && o.failure.Some?
    requires match o.failure.value
             case NotRecorded(step, error) =>
               step == |trail| + 1 && toolCalls <= ToolSteps(trail) + 1 && w.report(|trail|).value == Err(error)
             case ModelUnreachable(error) => toolCalls == ToolSteps(trail) && w.chat(|trail|).value == Unreachable(error)
             case _ => false
    ensures Verdict(w, trail, toolCalls, stop, o)
  {
  }

  lemma OneCallMore(w: World, n: nat)
    ensures PromptTokensOf(w, n + 1) == PromptTokensOf(w, n)
              + (match w.chat(n).value case Answered(_, p, _) => p case Unreachable(_) => 0)
    ensures CompletionTokensOf(w, n + 1) == CompletionTokensOf(w, n)
              + (match w.chat(n).value case Answered(_, _, c) => c case Unreachable(_) => 0)
  {
  }

  lemma OneCallLonger(w: World, chats: nat, acts: nat, reports: nat)
    ensures TimeSpent(w, chats + 1, acts, reports) == TimeSpent(w, chats, acts, reports) + w.chat(chats).took
    ensures TimeSpent(w, chats, acts + 1, reports) == TimeSpent(w, chats, acts, reports) + w.act(acts).took
    ensures TimeSpent(w, chats, acts, reports + 1) == TimeSpent(w, chats, acts, reports) + w.report(reports).took
  {
  }

  lemma HeadsStay(w: World, wording: Wording, b: Budget, start: Time, trail: seq<Step>, step: Step, n: nat)
    requires n <= |trail| && WentOn(w, wording, b, start, trail, n)
    ensures WentOn(w, wording, b, start, trail + [step], n)
    ensures (trail + [step])[..n] == trail[..n]
    ensures ElapsedAt(w, trail + [step], n) == ElapsedAt(w, trail, n)
    ensures StopAt(w, wording, b, trail + [step], n) == StopAt(w, wording, b, trail, n)
  {
    hide HeadStop, TimeSpent, Acted, CancelledBy;
    assert (trail + [step])[..n] == trail[..n];
    forall k: nat | k < n ensures WentOnAt(w, wording, b, start, trail + [step], k) {
      assert WentOnAt(w, wording, b, start, trail, k);
      assert (trail + [step])[..k] == trail[..k];
    }
  }

  /** A run that fails on its second unusable reply in a row. */
  lemma TwiceNothing(w: World, trail: seq<Step>, toolCalls: nat, o: Outcome)
    requires Timeline(w, trail) && TwoNones(trail) && trail[|trail| - 1].action == NoAction
    requires !OnlyForced(trail[|trail| - 1]) && toolCalls == ToolSteps(trail)
    requires o.status == Failed && o.stop == Error && o.final == None && o.failure.Some? && o.failure.value.NoUsableTool?
    requires trail[|trail| - 1].reason == Some(o.failure.value.reason)
    ensures Verdict(w, trail, toolCalls, None, o)
  {
    hide Timeline, ToolSteps;
  }

  lemma OneTurnMore(w: World, trail: seq<Step>, step: Step)
    ensures TurnsOf(w, trail + [step]) == TurnsOf(w, trail) + [TurnOf(w, step)]
  {
  }

  lemma {:induction false} AFinishIsNeverCited(records: map<int, Record>, n: int, rec: Record, citations: seq<Citation>)
    requires n !in records && rec.action == Finish
    ensures Resolved(records[n := rec], citations) == Resolved(records, citations)
  {
    if citations == [] {
    } else {
      AFinishIsNeverCited(records, n, rec, citations[..|citations| - 1]);
    }
  }

  lemma ActedGrows(trail: seq<Step>, step: Step)
    ensures Acted(trail + [step]) == Acted(trail) + (if Observes(step) then 1 else 0)
  {
    assert (trail + [step])[..|trail|] == trail;
  }

  lemma ToolStepsGrow(trail: seq<Step>, step: Step)
    ensures ToolSteps(trail + [step]) == ToolSteps(trail) + (if step.action == CallTool then 1 else 0)
  {
    assert (trail + [step])[..|trail|] == trail;
  }

  lemma GoesOn(w: World, wording: Wording, b: Budget, trail: seq<Step>, elapsed: Duration)
    requires HeadStop(w, wording, b, trail, elapsed) == None
    ensures |trail| < b.maxSteps && ToolSteps(trail) < b.maxToolCalls && elapsed < b.maxRunDuration
  {
  }

  /** The bounds are looked at when exactly the recorded steps' calls are over. */
  lemma HeadIsNow(w: World, wording: Wording, b: Budget, trail: seq<Step>)
    ensures ElapsedAt(w, trail, |trail|) == TimeSpent(w, |trail|, Acted(trail), |trail|)
    ensures StopAt(w, wording, b, trail, |trail|) == None ==> |trail| < b.maxSteps && ToolSteps(trail) < b.maxToolCalls
  {
    hide HeadStop, TimeSpent, Acted, ToolSteps;
    assert trail[..|trail|] == trail;
    if StopAt(w, wording, b, trail, |trail|) == None {
      GoesOn(w, wording, b, trail, ElapsedAt(w, trail, |trail|));
    }
  }

  // ---------------------------------------------------------------- the run

  class Investigation {
    const w: World
    const wording: Wording
    const budget: Budget
    const start: Time

    var now: Time
    var chats: nat
    var acts: nat
    var reports: nat

    var turns: seq<Turn>
    var records: map<int, Record>
    var stepNumber: nat
    var stepCount: nat
    var toolCalls: nat
    var promptTokens: nat
    var completionTokens: nat
    var noToolStreak: nat

    /** The steps recorded so far, and the prompts given so far. */
    ghost var trail: seq<Step>
    ghost var prompts: seq<seq<Message>>

    constructor (w: World, wording: Wording, budget: Budget, start: Time)
      ensures LoopHead()
      ensures this.w == w && this.wording == wording && this.budget == budget && this.start == start
      ensures now == start && trail == [] && prompts == []
    {
      this.w, this.wording, this.budget, this.start := w, wording, budget, start;
      now, chats, acts, reports := start, 0, 0, 0;
      turns, records := [], map[];
      stepNumber, stepCount, toolCalls, promptTokens, completionTokens, noToolStreak := 0, 0, 0, 0, 0, 0;
      trail, prompts := [], [];
    }

    /** The clock shows exactly the calls made, and nothing stopped the loop after fewer than n steps. */
    ghost predicate Clocked(n: nat)
      requires n <= |trail|
      reads this
    {
      now == start + TimeSpent(w, chats, acts, reports) && WentOn(w, wording, budget, start, trail, n)
    }

    /** What holds whenever the last step started is not yet recorded, or every step is. */
    ghost predicate Base()
      reads this
    {
      && Timeline(w, trail) && Unended(trail) && Remembers(w, records, trail)
      && turns == TurnsOf(w, trail)
      && stepCount == reports == |trail|
      && noToolStreak == (if EndsInNone(trail) then 1 else 0) && !TwoNones(trail)
      && promptTokens == PromptTokensOf(w, chats) && completionTokens == CompletionTokensOf(w, chats)
      && chats == |prompts|
      && Clocked(|trail|)
    }

    /** Between steps: step number, step count, turns, records, calls and reports all agree. */
    ghost predicate LoopHead()
      reads this
    {
      && Base()
      && stepNumber == chats == |trail| && acts == Acted(trail)
      && toolCalls == ToolSteps(trail)
      && Prompted(w, wording, budget, trail, prompts, None)
      && stepNumber <= Max(0, budget.maxSteps) && toolCalls <= Max(0, budget.maxToolCalls)
    }

    ghost function Stop(n: nat): Option<StopReason>
      requires n <= |trail|
      reads this
    {
      StopAt(w, wording, budget, trail, n)
    }

    ghost predicate CancelledAt(n: nat)
      requires n <= |trail|
      reads this
    {
      CancelledBy(w, start + ElapsedAt(w, trail, n))
    }

    /** A step is under way: its number is taken and its model call made, and nothing is recorded yet. */
    ghost predicate InStep(stop: Option<StopReason>)
      reads this
    {
      && Base()
      && stepNumber == chats == |trail| + 1
      && Acted(trail) <= acts <= Acted(trail) + (if stop.None? then 1 else 0)
      && ToolSteps(trail) <= toolCalls <= ToolSteps(trail) + 1
      && stop == Stop(|trail|) && !CancelledAt(|trail|)
      && Prompted(w, wording, budget, trail, prompts, stop)
      && |trail| <= Max(0, budget.maxSteps) && toolCalls <= Max(0, budget.maxToolCalls)
      && (stop.None? ==> |trail| < budget.maxSteps && ToolSteps(trail) < budget.maxToolCalls)
    }

    /** The step is recorded; the loop has not yet taken it into its turns. */
    ghost predicate Recorded(stop: Option<StopReason>)
      reads this
    {
      && trail != []
      && var before := trail[..|trail| - 1];
      && Timeline(w, trail) && Remembers(w, records, trail)
      && turns == TurnsOf(w, before) && !TwoNones(before)
      && noToolStreak == (if EndsInNone(before) then 1 else 0)
      && stepNumber == stepCount == reports == chats == |prompts| == |trail|
      && Acted(before) <= acts <= Acted(before) + (if stop.None? then 1 else 0)
      && promptTokens == PromptTokensOf(w, chats) && completionTokens == CompletionTokensOf(w, chats)
      && stop == Stop(|trail| - 1) && !CancelledAt(|trail| - 1)
      && Clocked(|trail| - 1)
      && Prompted(w, wording, budget, trail, prompts, stop)
      && |trail| <= Max(0, budget.maxSteps) + 1 && toolCalls <= Max(0, budget.maxToolCalls)
      && (stop.None? ==> |trail| <= budget.maxSteps && !OnlyForced(trail[|trail| - 1]))
    }

    ghost function Result(end: End): Ran
      reads this
    {
      Ran(end, chats, acts, reports, toolCalls, now, records, trail)
    }

    /** The state a finished run leaves behind. */
    ghost predicate Ended(end: End)
      reads this
    {
      && Investigated(w, wording, budget, start, Result(end))
      && |prompts| == chats
      && (end.Done? ==> stepNumber == chats && Prompted(w, wording, budget, trail, prompts, Stop(chats - 1)))
    }

    predicate IsCancelled()
      reads this
    {
      CancelledBy(w, now)
    }

    method Bound() returns (reason: Option<StopReason>)
      requires LoopHead()
      ensures reason == if stepNumber >= budget.maxSteps then Some(MaxSteps)
                        else if toolCalls >= budget.maxToolCalls then Some(MaxToolCalls)
                        else if now - start >= budget.maxRunDuration then Some(Timeout)
                        else None
    {
      if stepNumber >= budget.maxSteps {
        return Some(MaxSteps);
      } else if toolCalls >= budget.maxToolCalls {
        return Some(MaxToolCalls);
      } else if now - start >= budget.maxRunDuration {
        return Some(Timeout);
      }
      return None;
    }

    function OutcomeOf(status: Status, stop: StopReason, failure: Option<Failure>, final: Option<Bytes>): Outcome
      reads this
    {
      Outcome(status, stop, final, failure, stepCount, toolCalls, promptTokens, completionTokens)
    }

    function FailedWith(failure: Failure): Outcome
      reads this
    {
      OutcomeOf(Failed, Error, Some(failure), None)
    }

    /** Takes the next step number and asks the model. */
    method Chat(messages: seq<Message>, ghost stop: Option<StopReason>) returns (reply: Reply)
      requires LoopHead() && stop == Stop(|trail|) && !CancelledBy(w, now)
      requires messages == PromptAfter(w, wording, budget, trail) + ForcedMessage(w, stop)
      modifies this`stepNumber, this`now, this`chats, this`promptTokens, this`completionTokens, this`prompts
      ensures InStep(stop) && toolCalls == ToolSteps(trail)
      ensures stepNumber == old(stepNumber) + 1
      ensures reply == w.chat(stepNumber - 1).value && acts == Acted(trail)
    {
      hide Prompted, PromptAfter, HeadStop, Timeline, Remembers, TwoNones, Unended, TurnsOf, ToolSteps, EndsInNone, Acted;
      hide PromptTokensOf, CompletionTokensOf, TimeSpent, WentOn, CancelledBy, ElapsedAt, StopAt;
      OneCallLonger(w, chats, acts, reports);
      OneCallMore(w, chats);
      OnePromptMore(w, wording, budget, trail, prompts, messages, stop);
      HeadIsNow(w, wording, budget, trail);
      stepNumber := stepNumber + 1;
      var answer := w.chat(chats);
      now := now + answer.took;
      chats := chats + 1;
      prompts := prompts + [messages];
      reply := answer.value;
      if reply.Answered? {
        promptTokens := promptTokens + reply.promptTokens;
        completionTokens := completionTokens + reply.completionTokens;
      }
    }

    /** How the run ends when the callback refuses a step: cancelled, or failed with the step unrecorded. */
    ghost function Unrecorded(number: nat, error: Bytes, t: Time): End
      reads this
    {
      if CancelledBy(w, t) then Cancelled else Done(FailedWith(NotRecorded(number, error)))
    }

    lemma UnrecordedEnds(stop: Option<StopReason>, error: Bytes)
      requires InStep(stop) && w.report(reports).value == Err(error)
      ensures var t := now + w.report(reports).took;
              var end := Unrecorded(stepNumber, error, t);
              && Investigated(w, wording, budget, start, Ran(end, chats, acts, reports + 1, toolCalls, t, records, trail))
              && stepNumber == chats == |prompts| == |trail| + 1
              && Prompted(w, wording, budget, trail, prompts, Stop(|trail|))
    {
      hide Prompted, HeadStop, Timeline, Remembers, TwoNones, Unended, TurnsOf, ToolSteps, EndsInNone, Acted;
      hide PromptTokensOf, CompletionTokensOf, Verdict, OnlyForced, TimeSpent, WentOn, CancelledBy, ElapsedAt, StopAt;
      OneCallLonger(w, chats, acts, reports);
      assert trail[..|trail|] == trail;
      NotFinished(w, trail, toolCalls, stop, FailedWith(NotRecorded(stepNumber, error)));
    }

    lemma StepGrows(step: Step, rec: Record, stop: Option<StopReason>)
      requires InStep(stop) && step.number == stepNumber && Follows(w, step, Acted(trail))
      requires rec.action == step.action && rec.observation == step.observation
      requires Observes(step) ==> KeepsObservation(rec, step, w.act(Acted(trail)).value)
      requires w.report(reports).value.Ok?
      ensures var after, grown := trail + [step], records[step.number := rec.(ref := w.report(reports).value.value)];
              && Timeline(w, after) && Remembers(w, grown, after) && after[..|trail|] == trail
              && Prompted(w, wording, budget, after, prompts, stop)
              && WentOn(w, wording, budget, start, after, |trail|)
              && ElapsedAt(w, after, |trail|) == ElapsedAt(w, trail, |trail|)
              && StopAt(w, wording, budget, after, |trail|) == StopAt(w, wording, budget, trail, |trail|)
    {
      hide Prompted, HeadStop, Timeline, Remembers, TwoNones, Unended, TurnsOf, ToolSteps, EndsInNone, Acted;
      hide PromptTokensOf, CompletionTokensOf, Follows, Observes, KeepsObservation, TimeSpent, WentOn, ElapsedAt, StopAt;
      TimelineGrows(w, trail, step);
      if Observes(step) {
        KeptWhateverTheIds(rec, w.report(reports).value.value, step, w.act(Acted(trail)).value);
      }
      RememberedOneMore(w, records, trail, step, rec.(ref := w.report(reports).value.value));
      PromptedStays(w, wording, budget, trail, prompts, stop, step);
      HeadsStay(w, wording, budget, start, trail, step, |trail|);
    }

    /** Reports the step; an accepted step joins `records` with its row ids, a refused one ends the run. */
    method Report(step: Step, rec: Record, ghost stop: Option<StopReason>) returns (end: Option<End>)
      requires InStep(stop) && (stop.None? ==> !OnlyForced(step))
      requires step.number == stepNumber && Follows(w, step, Acted(trail))
      requires rec.action == step.action && rec.observation == step.observation
      requires Observes(step) ==> KeepsObservation(rec, step, w.act(Acted(trail)).value)
      modifies this`now, this`reports, this`stepCount, this`records, this`trail
      ensures end.Some? ==> Ended(end.value)
      ensures end.Some? && end.value.Done? ==> end.value.outcome.status == Failed
      ensures end.None? ==> Recorded(stop) && trail == old(trail) + [step]
      ensures end.None? ==> exists ref :: records == old(records)[step.number := rec.(ref := ref)]
    {
      hide Prompted, HeadStop, Timeline, Remembers, TwoNones, Unended, TurnsOf, ToolSteps, EndsInNone, Acted;
      hide PromptTokensOf, CompletionTokensOf, Verdict, Follows, Observes, OnlyForced, TimeSpent, WentOn, ElapsedAt, StopAt;
      hide Investigated, CancelledBy, KeepsObservation;
      OneCallLonger(w, chats, acts, reports);
      if w.report(reports).value.Err? {
        UnrecordedEnds(stop, w.report(reports).value.error);
      } else {
        StepGrows(step, rec, stop);
      }
      assert trail[..|trail|] == trail;
      var answer := w.report(reports);
      now := now + answer.took;
      reports := reports + 1;
      match answer.value
      case Err(error) =>
        if IsCancelled() {
          return Some(Cancelled);
        }
        return Some(Done(FailedWith(NotRecorded(step.number, error))));
      case Ok(ref) =>
        stepCount := stepCount + 1;
        records := records[step.number := rec.(ref := ref)];
        trail := trail + [step];
        assert trail[..|trail| - 1] == old(trail);
        return None;
    }

    /** The model's reply at this step asks for this call. */
    ghost predicate Asked(call: ToolCall)
      reads this`stepNumber
    {
      && stepNumber > 0
      && w.chat(stepNumber - 1).value.Answered?
      && Decide(w, stepNumber, w.chat(stepNumber - 1).value.calls) == Chosen(call)
    }

    lemma AskedIs(call: ToolCall)
      ensures Asked(call) <==> stepNumber > 0 && w.chat(stepNumber - 1).value.Answered? &&
                               Decide(w, stepNumber, w.chat(stepNumber - 1).value.calls) == Chosen(call)
    {
      hide Decide;
    }

    /** Runs a tool or a retrieval. */
    method Act() returns (observation: Observation)
      requires InStep(None) && acts == Acted(trail)
      modifies this`now, this`acts
      ensures InStep(None) && acts == old(acts) + 1
      ensures observation == w.act(old(acts)).value
    {
      hide Prompted, HeadStop, Timeline, Remembers, TwoNones, Unended, TurnsOf, ToolSteps, EndsInNone, Acted;
      hide TimeSpent, WentOn, CancelledBy, ElapsedAt, StopAt;
      OneCallLonger(w, chats, acts, reports);
      now := now + w.act(acts).took;
      observation := w.act(acts).value;
      acts := acts + 1;
    }

    /** A tool that ran is counted before its step is recorded. */
    method CountTool()
      requires InStep(None) && toolCalls == ToolSteps(trail)
      modifies this`toolCalls
      ensures InStep(None) && toolCalls == old(toolCalls) + 1
    {
      hide Prompted, HeadStop, Timeline, Remembers, TwoNones, Unended, TurnsOf, ToolSteps, EndsInNone, Acted;
      hide TimeSpent, WentOn, CancelledBy, ElapsedAt, StopAt;
      toolCalls := toolCalls + 1;
    }

    /** A second unusable reply in a row is recorded: the run can only fail. */
    ghost predicate Worn()
      reads this
    {
      && trail != [] && trail[|trail| - 1].action == NoAction && !OnlyForced(trail[|trail| - 1])
      && TwoNones(trail) && Timeline(w, trail)
      && Remembers(w, records, trail)
      && toolCalls == ToolSteps(trail) && toolCalls <= Max(0, budget.maxToolCalls)
      && stepNumber == stepCount == reports == chats == |prompts| == |trail| <= Max(0, budget.maxSteps) + 1
      && acts == Acted(trail) && Acted(trail[..|trail| - 1]) <= acts <= Acted(trail[..|trail| - 1]) + 1
      && promptTokens == PromptTokensOf(w, chats) && completionTokens == CompletionTokensOf(w, chats)
      && Prompted(w, wording, budget, trail, prompts, None) && Stop(|trail| - 1) == None
      && !CancelledAt(|trail| - 1) && Clocked(|trail| - 1)
    }

    lemma WornEnds(reason: Reason)
      requires Worn() && trail[|trail| - 1].reason == Some(reason)
      ensures Ended(Done(FailedWith(NoUsableTool(reason))))
    {
      hide Prompted, HeadStop, Timeline, TwoNones, ToolSteps, PromptTokensOf, CompletionTokensOf, Verdict, Remembers;
      hide TimeSpent, WentOn, CancelledBy, ElapsedAt, StopAt, Acted, OnlyForced;
      TwiceNothing(w, trail, toolCalls, FailedWith(NoUsableTool(reason)));
    }

    /** Takes the recorded step into the turns. */
    method TakeTurn(turn: Turn, streak: nat)
      requires acts == Acted(trail)
      requires Recorded(None)
      requires trail[|trail| - 1].action != Finish
      requires turn == TurnOf(w, trail[|trail| - 1])
      requires streak == if trail[|trail| - 1].action == NoAction then noToolStreak + 1 else 0
      requires toolCalls == ToolSteps(trail)
      modifies this`turns, this`noToolStreak
      ensures noToolStreak == streak
      ensures streak <= 1 ==> LoopHead()
      ensures streak > 1 ==> Worn()
    {
      hide Prompted, HeadStop, Remembers, TurnsOf, ToolSteps, PromptTokensOf, CompletionTokensOf;
      hide Timeline, Unended, TwoNones, Acted, TurnOf, TimeSpent, WentOn, CancelledBy, ElapsedAt, StopAt, OnlyForced;
      BeforeTheLast(w, trail);
      WentOnOneMore(w, wording, budget, start, trail);
      Continuing(trail[|trail| - 1]);
      ghost var before, step := trail[..|trail| - 1], trail[|trail| - 1];
      assert trail == before + [step];
      NonesAfter(before, step);
      OneTurnMore(w, before, step);
      turns := turns + [turn];
      noToolStreak := streak;
    }

    /** Reports a step that observed something, and puts it in the next prompt. */
    method ObservedStep(call: ToolCall, action: Action, observation: Observation) returns (end: Option<End>)
      requires InStep(None) && (action == Retrieve || action == CallTool)
      requires toolCalls == ToolSteps(trail) + (if action == CallTool then 1 else 0)
      requires acts == Acted(trail) + 1 && observation == w.act(Acted(trail)).value
      requires Asked(call) && call.name != FINISH && (action == Retrieve <==> call.name == SEARCH_KNOWLEDGE)
      modifies this`now, this`reports, this`stepCount, this`records, this`trail, this`turns, this`noToolStreak
      ensures end.Some? ==> Ended(end.value)
      ensures end.None? ==> LoopHead() && stepNumber == old(stepNumber)
    {
      hide *;
      InStepIsCounted(None);
      var step := ObservedStepOf(stepNumber, action, call, observation);
      var rec := RecordOf(action, call, observation);
      AskedIs(call);
      ObservationFollows(w, stepNumber, action, call, observation, Acted(trail));
      end := Report(step, rec, None);
      if end.Some? {
        return;
      }
      ToolStepsGrow(old(trail), step);
      ActedGrows(old(trail), step);
      LastIs(old(trail), step);
      TakeTurn(Observed(stepNumber, call, observation.text), 0);
    }

    /** Reports an unusable reply; the second in a row ends the run. */
    method NoToolStep(reason: Reason) returns (end: Option<End>)
      requires InStep(None) && toolCalls == ToolSteps(trail) && acts == Acted(trail)
      requires Follows(w, Nothing(stepNumber, reason), Acted(trail)) && !OnlyForced(Nothing(stepNumber, reason))
      modifies this`now, this`reports, this`stepCount, this`records, this`trail, this`turns, this`noToolStreak
      ensures end.Some? ==> Ended(end.value)
      ensures end.None? ==> LoopHead() && stepNumber == old(stepNumber)
    {
      hide Prompted, HeadStop, Remembers, Unended, TurnsOf, EndsInNone, Acted, PromptTokensOf, CompletionTokensOf;
      hide ToolSteps, TwoNones, Verdict, Timeline, Follows, Acted, LoopHead, Ended, Worn;
      hide TimeSpent, WentOn, CancelledBy, ElapsedAt, StopAt, OnlyForced;
      var step := Nothing(stepNumber, reason);
      var rec := Record(StepRef([], []), NoAction, [], [], [], []);
      end := Report(step, rec, None);
      if end.Some? {
        return;
      }
      ToolStepsGrow(old(trail), step);
      ActedGrows(old(trail), step);
      TakeTurn(Unusable(stepNumber, w.explain(reason)), noToolStreak + 1);
      if noToolStreak > 1 {
        WornEnds(reason);
        end := Some(Done(FailedWith(NoUsableTool(reason))));
      }
    }

    /** Records a diagnosis as the run's last step. */
    method Succeed(call: ToolCall, stop: StopReason, ghost forced: Option<StopReason>) returns (end: End)
      requires InStep(forced) && toolCalls == ToolSteps(trail)
      requires acts == Acted(trail) && stop == if forced.None? then Completed else forced.value
      requires Asked(call) && call.name == FINISH && Diagnosis(w, call.arguments).Ok?
      modifies this`now, this`reports, this`stepCount, this`records, this`trail
      ensures Ended(end)
    {
      hide Prompted, HeadStop, Remembers, Unended, TurnsOf, EndsInNone, Acted, PromptTokensOf, CompletionTokensOf;
      hide ToolSteps, Diagnosis, Shaped, Resolved, Follows, Timeline, Decide;
      hide TimeSpent, WentOn, CancelledBy, ElapsedAt, StopAt;
      FinishFollows(w, stepNumber, call, Acted(trail));
      var citations := Diagnosis(w, call.arguments).value.citations;
      var evidence := ResolveEvidence(records, citations);
      var step := FinishStepOf(stepNumber, call, evidence);
      var rec := Record(StepRef([], []), Finish, [], [], [], []);
      ghost var before := records;
      UnusedKey(w, records, trail);
      var ended := Report(step, rec, forced);
      if ended.Some? {
        return ended.value;
      }
      ToolStepsGrow(old(trail), step);
      ActedGrows(old(trail), step);
      ghost var ref :| records == before[step.number := rec.(ref := ref)];
      AFinishIsNeverCited(before, step.number, rec.(ref := ref), citations);
      OnlyOneNoneBeforeTheEnd(old(trail), step);
      return Done(OutcomeOf(Succeeded, stop, None, Some(call.arguments)));
    }

    /** Ends the run with its diagnosis, or records that the arguments hold none. */
    method FinishStep(call: ToolCall) returns (end: Option<End>)
      requires InStep(None) && toolCalls == ToolSteps(trail) && acts == Acted(trail)
      requires Asked(call) && call.name == FINISH
      modifies this`now, this`reports, this`stepCount, this`records, this`trail, this`turns, this`noToolStreak
      ensures end.Some? ==> Ended(end.value)
      ensures end.None? ==> LoopHead() && stepNumber == old(stepNumber)
    {
      hide *;
      match Diagnosis(w, call.arguments)
      case Err(reason) =>
        AskedIs(call);
        DiagnosisBlames(w, stepNumber, call.arguments);
        Blamed(w, stepNumber, reason, acts);
        end := NoToolStep(reason);
      case Ok(final) =>
        var e := Succeed(call, Completed, None);
        end := Some(e);
    }

    /** One turn of the loop: one model call and at most one action. */
    method StepOnce(messages: seq<Message>) returns (end: Option<End>)
      requires LoopHead() && Stop(|trail|) == None && !CancelledBy(w, now)
      requires messages == PromptAfter(w, wording, budget, trail)
      modifies this`stepNumber, this`now, this`chats, this`acts, this`reports, this`promptTokens, this`completionTokens,
        this`stepCount, this`toolCalls, this`records, this`turns, this`noToolStreak, this`trail, this`prompts
      ensures end.Some? ==> Ended(end.value)
      ensures end.None? ==> LoopHead() && stepNumber == old(stepNumber) + 1
    {
      hide *;
      NoForcedMessage(w);
      assert messages == messages + ForcedMessage(w, None);
      var reply := Chat(messages, None);
      if reply.Unreachable? {
        InStepIsCounted(None);
        UnansweredEnds(reply.error);
        end := Some(Unanswered(reply.error));
        return;
      }
      match Decide(w, stepNumber, reply.calls)
      case Rejected(reason) =>
        DecisionBlames(w, stepNumber, reply.calls);
        Blamed(w, stepNumber, reason, acts);
        end := NoToolStep(reason);
      case Chosen(call) =>
        InStepIsCounted(None);
        AskedIs(call);
        if call.name == FINISH {
          end := FinishStep(call);
        } else {
          var observation := Act();
          if IsCancelled() {
            CancelledInAStep(None);
            end := Some(Cancelled);
            return;
          }
          if call.name == SEARCH_KNOWLEDGE {
            end := ObservedStep(call, Retrieve, observation);
          } else {
            CountTool();
            end := ObservedStep(call, CallTool, observation);
          }
        }
    }

    /** How the run ends when the model call fails: cancelled by then, or failed with that error. */
    function Unanswered(error: Bytes): End
      reads this
    {
      if CancelledBy(w, now) then Cancelled else Done(FailedWith(ModelUnreachable(error)))
    }

    lemma UnansweredEnds(error: Bytes)
      requires InStep(None) && toolCalls == ToolSteps(trail) && acts == Acted(trail)
      requires w.chat(stepNumber - 1).value == Unreachable(error)
      ensures Ended(Unanswered(error))
    {
      hide Prompted, HeadStop, Timeline, Remembers, TwoNones, Unended, TurnsOf, EndsInNone, Acted, Verdict;
      hide PromptTokensOf, CompletionTokensOf, ToolSteps, TimeSpent, WentOn, ElapsedAt, StopAt;
      assert trail[..|trail|] == trail;
      var o := FailedWith(ModelUnreachable(error));
      NotFinished(w, trail, toolCalls, None, o);
    }

    /** Past a bound the model is asked once more, with `finish` the only tool on offer. */
    method ForceFinish(stop: StopReason) returns (end: End)
      requires LoopHead() && Stop(|trail|) == Some(stop)
      modifies this`stepNumber, this`now, this`chats, this`reports, this`promptTokens, this`completionTokens,
        this`stepCount, this`records, this`trail, this`prompts
      ensures Ended(end)
    {
      hide *;
      CancellationIs();
      if IsCancelled() {
        CancelledAtTheHead();
        return Cancelled;
      }
      HeadFacts();
      var built := Build(wording, budget, turns, Spent(stepNumber + 1, toolCalls));
      PromptIs(w, wording, budget, trail);
      ForcedMessageIs(w, stop);
      var messages := built + [Message(User, w.forced(stop), [], [])];
      var reply := Chat(messages, Some(stop));
      match reply
      case Unreachable(error) =>
        if IsCancelled() {
          CancelledInAStep(Some(stop));
          return Cancelled;
        }
        Blamed(w, stepNumber, ModelFailed(error), acts);
        end := ForcedFinishFailed(stop, ModelFailed(error));
      case Answered(calls, _, _) =>
        match Decide(w, stepNumber, calls)
        case Rejected(reason) =>
          Blamed(w, stepNumber, reason, acts);
          end := ForcedFinishFailed(stop, reason);
        case Chosen(call) =>
          if call.name != FINISH {
            Blamed(w, stepNumber, NotFinish(call.name), acts);
            end := ForcedFinishFailed(stop, NotFinish(call.name));
            return;
          }
          match Diagnosis(w, call.arguments)
          case Err(reason) =>
            Blamed(w, stepNumber, reason, acts);
            end := ForcedFinishFailed(stop, reason);
          case Ok(final) =>
            AskedIs(call);
            end := Succeed(call, stop, Some(stop));
    }

    lemma CancellationIs()
      ensures IsCancelled() == CancelledBy(w, now)
    {
    }

    lemma CancelledAtTheHead()
      requires LoopHead() && IsCancelled()
      ensures Ended(Cancelled)
    {
      hide Prompted, HeadStop, Timeline, Remembers, TwoNones, Unended, TurnsOf, EndsInNone, Verdict, ToolSteps;
      hide TimeSpent, ElapsedAt, StopAt, Observes;
      if chats > 0 {
        assert WentOnAt(w, wording, budget, start, trail, chats - 1);
      }
    }

    lemma CancelledInAStep(stop: Option<StopReason>)
      requires InStep(stop) && IsCancelled()
      ensures Ended(Cancelled)
    {
      hide Prompted, HeadStop, Timeline, Remembers, TwoNones, Unended, TurnsOf, EndsInNone, Acted, Verdict, ToolSteps;
      hide TimeSpent, WentOn, ElapsedAt, StopAt;
      assert trail[..|trail|] == trail;
    }

    lemma InStepIsCounted(stop: Option<StopReason>)
      requires InStep(stop)
      ensures stepNumber == |trail| + 1
      ensures stop.None? ==> ToolSteps(trail) < budget.maxToolCalls
    {
      hide Base, Prompted, ToolSteps, Acted, StopAt, CancelledAt;
    }

    lemma ResultIs(end: End)
      requires Ended(end)
      ensures Result(end) == Ran(end, chats, acts, reports, toolCalls, now, records, trail)
      ensures Investigated(w, wording, budget, start, Result(end))
    {
      hide Investigated, Prompted, StopAt;
    }

    lemma HeadFacts()
      requires LoopHead()
      ensures turns == TurnsOf(w, trail) && stepNumber == |trail| && toolCalls == ToolSteps(trail)
    {
      hide Prompted, HeadStop, Timeline, Remembers, TwoNones, Unended, TurnsOf, EndsInNone, Acted, ToolSteps, Clocked;
    }

    /** Reports an unusable reply to the forced call, and ends the run failed. */
    method ForcedFinishFailed(stop: StopReason, reason: Reason) returns (end: End)
      requires acts == Acted(trail) && Follows(w, Nothing(stepNumber, reason), Acted(trail))
      requires InStep(Some(stop)) && toolCalls == ToolSteps(trail)
      modifies this`now, this`reports, this`stepCount, this`records, this`trail
      ensures Ended(end)
    {
      hide Prompted, HeadStop, Remembers, Unended, TurnsOf, PromptTokensOf, CompletionTokensOf, ToolSteps;
      hide TwoNones, Timeline, Follows, Acted, TimeSpent, WentOn, CancelledBy, ElapsedAt, StopAt;
      var step := Nothing(stepNumber, reason);
      var rec := Record(StepRef([], []), NoAction, [], [], [], []);
      var ended := Report(step, rec, Some(stop));
      if ended.Some? {
        return ended.value;
      }
      ToolStepsGrow(old(trail), step);
      ActedGrows(old(trail), step);
      return Done(FailedWith(NoDiagnosis(stop, reason)));
    }

    /** Investigates one incident and says how it ended; cancellation alone writes nothing terminal. */
    method Run() returns (end: End)
      requires LoopHead() && now == start
      modifies this
      ensures Ended(end)
    {
      hide *;
      while true
        invariant LoopHead()
        decreases budget.maxSteps - stepNumber
      {
        CancellationIs();
        if IsCancelled() {
          CancelledAtTheHead();
          return Cancelled;
        }
        HeadFacts();
        var reason := Bound();
        PromptIs(w, wording, budget, trail);
        if reason.Some? {
          BoundIsTheStop(reason);
          end := ForceFinish(reason.value);
          return;
        }
        var messages := Build(wording, budget, turns, Spent(stepNumber + 1, toolCalls));
        var tokens := EstimateTokens(messages);
        BoundIsTheStop(reason);
        if tokens > budget.maxPromptTokens {
          end := ForceFinish(TokenBudget);
          return;
        }
        var ended := StepOnce(messages);
        if ended.Some? {
          return ended.value;
        }
      }
    }

    /** The bounds, then the token net, are exactly what HeadStop says. */
    lemma BoundIsTheStop(reason: Option<StopReason>)
      requires LoopHead()
      requires reason == if stepNumber >= budget.maxSteps then Some(MaxSteps)
                         else if toolCalls >= budget.maxToolCalls then Some(MaxToolCalls)
                         else if now - start >= budget.maxRunDuration then Some(Timeout)
                         else None
      ensures reason.Some? ==> Stop(|trail|) == reason
      ensures reason.None? ==> stepNumber < budget.maxSteps
      ensures reason.None? ==>
                Stop(|trail|) == if TokensFor(TotalBytes(PromptAfter(w, wording, budget, trail))) > budget.maxPromptTokens
                                 then Some(TokenBudget) else None
    {
      hide Prompted, Timeline, Remembers, TwoNones, Unended, TurnsOf, EndsInNone, Acted, PromptAfter, ToolSteps, WentOn, TimeSpent;
      assert trail[..|trail|] == trail;
    }
  }

  /** The step an unusable reply is reported as. */
  function Nothing(number: nat, reason: Reason): Step { Step(number, NoAction, None, [], false, Some(reason), []) }

  /** A step that records why the reply to its call was unusable follows from that reply. */
  lemma Blamed(w: World, number: nat, reason: Reason, acted: nat)
    requires number > 0
    requires match w.chat(number - 1).value
             case Unreachable(error) => reason == ModelFailed(error)
             case Answered(calls, _, _) =>
               match Decide(w, number, calls)
               case Rejected(r) => reason == r
               case Chosen(call) =>
                 if call.name == FINISH then Diagnosis(w, call.arguments) == Err(reason)
                 else reason == NotFinish(call.name)
    ensures Follows(w, Nothing(number, reason), acted)
  {
    hide Decide, Diagnosis;
  }

  function ObservedStepOf(number: nat, action: Action, call: ToolCall, observation: Observation): (s: Step)
    ensures s.number == number && s.action == action && s.call == Some(call) && s.observation == observation.text
  {
    Step(number, action, Some(call), observation.text, true, None, [])
  }

  function RecordOf(action: Action, call: ToolCall, observation: Observation): (rec: Record)
    ensures rec.action == action && rec.observation == observation.text
  {
    Record(StepRef([], []), action, call.name, observation.text, observation.hits, observation.query)
  }

  lemma ObservationFollows(w: World, number: nat, action: Action, call: ToolCall, observation: Observation, acted: nat)
    requires number > 0 && (action == Retrieve || action == CallTool) && observation == w.act(acted).value
    requires call.name != FINISH && (action == Retrieve <==> call.name == SEARCH_KNOWLEDGE)
    requires w.chat(number - 1).value.Answered?
    requires Decide(w, number, w.chat(number - 1).value.calls) == Chosen(call)
    ensures var s := ObservedStepOf(number, action, call, observation);
            && Follows(w, s, acted) && Observes(s) && !OnlyForced(s)
            && KeepsObservation(RecordOf(action, call, observation), s, w.act(acted).value)
            && TurnOf(w, s) == Observed(number, call, observation.text)
  {
    hide Decide;
  }

  lemma WentOnOneMore(w: World, wording: Wording, b: Budget, start: Time, trail: seq<Step>)
    requires trail != [] && WentOn(w, wording, b, start, trail, |trail| - 1)
    ensures StopAt(w, wording, b, trail, |trail| - 1) == None && !CancelledBy(w, start + ElapsedAt(w, trail, |trail| - 1)) ==>
              WentOn(w, wording, b, start, trail, |trail|)
  {
    hide StopAt, CancelledBy, ElapsedAt;
  }

  lemma Continuing(s: Step)
    ensures Continues(s) <==> s.action != Finish && !OnlyForced(s)
  {
  }

  lemma NoForcedMessage(w: World)
    ensures forall messages: seq<Message> :: messages + ForcedMessage(w, None) == messages
  {
  }

  /** What is wrong with a reply is never that it does not finish, or that there was none. */
  lemma DecisionBlames(w: World, number: nat, calls: seq<ToolCall>)
    ensures Decide(w, number, calls).Rejected? ==> !OnlyForced(Nothing(number, Decide(w, number, calls).reason))
  {
  }

  lemma DiagnosisBlames(w: World, number: nat, args: Bytes)
    ensures Diagnosis(w, args).Err? ==> !OnlyForced(Nothing(number, Diagnosis(w, args).error))
  {
  }

  lemma LastIs(trail: seq<Step>, step: Step)
    ensures (trail + [step])[|trail + [step]| - 1] == step
  {
  }

  lemma FinishFollows(w: World, number: nat, call: ToolCall, acted: nat)
    requires number > 0 && call.name == FINISH && w.chat(number - 1).value.Answered?
    requires Decide(w, number, w.chat(number - 1).value.calls) == Chosen(call) && Diagnosis(w, call.arguments).Ok?
    ensures forall evidence :: Follows(w, FinishStepOf(number, call, evidence), acted)
  {
    hide Decide, Diagnosis;
  }

  lemma BeforeTheLast(w: World, trail: seq<Step>)
    requires Timeline(w, trail) && trail != []
    ensures Unended(trail[..|trail| - 1])
  {
    hide Follows;
  }

  function FinishStepOf(number: nat, call: ToolCall, evidence: seq<Row>): (s: Step)
    ensures Shaped(s) && s.number == number && s.action == Finish && s.call == Some(call) && s.evidence == evidence
  {
    Step(number, Finish, Some(call), [], true, None, evidence)
  }

  lemma PromptIs(w: World, wording: Wording, b: Budget, trail: seq<Step>)
    ensures PromptAfter(w, wording, b, trail) ==
            Prompt(wording, b, TurnsOf(w, trail), Spent(|trail| + 1, ToolSteps(trail)))
  {
  }

  lemma ForcedMessageIs(w: World, stop: StopReason)
    ensures ForcedMessage(w, Some(stop)) == [Message(User, w.forced(stop), [], [])]
  {
  }

  lemma UnusedKey(w: World, records: map<int, Record>, trail: seq<Step>)
    requires Remembers(w, records, trail)
    ensures |trail| + 1 !in records
  {
  }

  lemma OnlyOneNoneBeforeTheEnd(trail: seq<Step>, step: Step)
    requires !TwoNones(trail) && step.action == Finish
    ensures !TwoNones(trail + [step])
  {
  }

  // ---------------------------------------------------------------- how long a run takes

  /** The longest step. */
  function FullStep(l: Limits): nat { l.llmStep + l.stepOverhead + l.reportWrites }

  /**
    The latest a run may end, from its start: its last free step begins before the time limit and after
    MaxSteps - 1 others at most, and a forced call and its report follow it.
  */
  function WorstRun(b: Budget, l: Limits): nat {
    (if b.maxSteps >= 1 && b.maxToolCalls >= 1 && b.maxRunDuration >= 1
     then Min(b.maxRunDuration - 1, (b.maxSteps - 1) * FullStep(l)) + FullStep(l) else 0)
    + l.llmStep + l.reportWrites
  }

  lemma TookAtMost(w: World, l: Limits, k: nat)
    requires Meets(w, l)
    ensures w.chat(k).took <= l.llmStep && w.act(k).took <= l.stepOverhead && w.report(k).took <= l.reportWrites
  {
  }

  /** From the head after k steps to the next: one more call, one more report, and perhaps an action. */
  lemma OneStepLonger(w: World, l: Limits, trail: seq<Step>, k: nat)
    requires Meets(w, l) && k < |trail|
    ensures ElapsedAt(w, trail, k + 1) <= ElapsedAt(w, trail, k) + FullStep(l)
  {
    hide TimeSpent, Observes;
    assert trail[..k + 1][..k] == trail[..k];
    var acted := Acted(trail[..k]);
    OneCallLonger(w, k, acted, k);
    OneCallLonger(w, k + 1, acted, k);
    OneCallLonger(w, k + 1, acted, k + 1);
    TookAtMost(w, l, k);
    TookAtMost(w, l, acted);
  }

  lemma {:induction false} StepsTakeAtMost(w: World, l: Limits, trail: seq<Step>, k: nat)
    requires Meets(w, l) && k <= |trail|
    ensures ElapsedAt(w, trail, k) <= k * FullStep(l)
  {
    if k == 0 {
      assert trail[..0] == [];
    } else {
      hide *;
      StepsTakeAtMost(w, l, trail, k - 1);
      OneStepLonger(w, l, trail, k - 1);
      OneFactorMore(k, FullStep(l));
    }
  }

  /** The end of a step that was not forced. */
  lemma AFreeStepEndsBy(w: World, wording: Wording, b: Budget, l: Limits, trail: seq<Step>, k: nat)
    requires Meets(w, l) && k <= |trail| && StopAt(w, wording, b, trail, k) == None
    ensures b.maxSteps >= 1 && b.maxToolCalls >= 1 && b.maxRunDuration >= 1
    ensures ElapsedAt(w, trail, k) <= Min(b.maxRunDuration - 1, (b.maxSteps - 1) * FullStep(l))
  {
    hide ElapsedAt, FullStep, PromptAfter, TotalBytes, ToolSteps;
    StepsTakeAtMost(w, l, trail, k);
    GoesOn(w, wording, b, trail[..k], ElapsedAt(w, trail, k));
    MoreStepsTakeLonger(k, b.maxSteps - 1, FullStep(l));
  }

  lemma OneFactorMore(k: nat, step: nat)
    requires k > 0
    ensures k * step == (k - 1) * step + step
  {
  }

  lemma MoreStepsTakeLonger(k: nat, n: nat, step: nat)
    ensures k <= n ==> k * step <= n * step
  {
  }

  lemma EndsByTheWorst(w: World, wording: Wording, b: Budget, l: Limits, start: Time, r: Ran)
    requires Meets(w, l) && Counted(w, wording, b, start, r)
    ensures start <= r.finished <= start + WorstRun(b, l)
  {
    hide StopAt, Acted, CancelledBy, ElapsedAt, TimeSpent;
    if r.chats == 0 {
      NoTimeSpent(w);
    } else {
      var k := r.chats - 1;
      LastCall(w, wording, b, l, start, r);
      if StopAt(w, wording, b, r.trail, k).None? {
        AFreeStepEndsBy(w, wording, b, l, r.trail, k);
      } else if k > 0 {
        assert WentOnAt(w, wording, b, start, r.trail, k - 1);
        AFreeStepEndsBy(w, wording, b, l, r.trail, k - 1);
        OneStepLonger(w, l, r.trail, k - 1);
      } else {
        StepsTakeAtMost(w, l, r.trail, 0);
      }
    }
  }

  lemma NoTimeSpent(w: World)
    ensures TimeSpent(w, 0, 0, 0) == 0
  {
  }

  /** From the last head to the end: one call, at most one report, and an action only if the call was free. */
  lemma LastCall(w: World, wording: Wording, b: Budget, l: Limits, start: Time, r: Ran)
    requires Meets(w, l) && Counted(w, wording, b, start, r) && r.chats > 0
    ensures var k := r.chats - 1;
            start + ElapsedAt(w, r.trail, k) <= r.finished <= start + ElapsedAt(w, r.trail, k) + l.llmStep + l.reportWrites
              + (if StopAt(w, wording, b, r.trail, k).None? then l.stepOverhead else 0)
  {
    hide StopAt, Acted, CancelledBy, TimeSpent;
    var k := r.chats - 1;
    var acted := Acted(r.trail[..k]);
    OneCallLonger(w, k, acted, k);
    OneCallLonger(w, r.chats, acted, k);
    OneCallLonger(w, r.chats, acted, r.chats);
    OneCallLonger(w, r.chats, acted + 1, k);
    TookAtMost(w, l, k);
    TookAtMost(w, l, acted);
  }

  /**
    One run, whatever the model, the tools and the callback do. It makes at most MaxSteps + 1 model calls
    and MaxToolCalls tool calls and takes exactly as long as the calls it makes; it goes on exactly while
    no bound is reached; a context that is cancelled before it starts gets nothing done; and if it ends
    otherwise its outcome is the verdict on the steps recorded, with the stop reason the bounds give. Each
    step records what its reply asked for, and a success is the diagnosis its last reply gave.
  */
  method Investigate(w: World, wording: Wording, budget: Budget, start: Time)
    returns (end: End, chats: nat, acts: nat, reports: nat, toolCalls: nat, finished: Time, records: map<int, Record>,
             ghost trail: seq<Step>)
    ensures Investigated(w, wording, budget, start, Ran(end, chats, acts, reports, toolCalls, finished, records, trail))
    ensures CancelledBy(w, start) ==> end.Cancelled? && chats == 0
    ensures forall k :: 0 <= k < |trail| ==> Answers(w, trail[k])
    ensures end.Done? && end.outcome.status == Succeeded ==> Concluded(w, trail, records, end.outcome)
    ensures forall l: Limits :: Meets(w, l) ==> start <= finished <= start + WorstRun(budget, l)
  {
    hide *;
    var run := new Investigation(w, wording, budget, start);
    end := run.Run();
    ghost var r := run.Result(end);
    chats, acts, reports, toolCalls, finished, records := run.chats, run.acts, run.reports, run.toolCalls, run.now, run.records;
    trail := run.trail;
    run.ResultIs(end);
    CancelledBeforeTheStart(w, wording, budget, start, r);
    RunsAnswer(w, wording, budget, start, r);
    forall l: Limits | Meets(w, l) ensures start <= finished <= start + WorstRun(budget, l) {
      EndsByTheWorst(w, wording, budget, l, start, r);
    }
  }

  /** The last step's arguments are the result: they decode to a root cause, and its citations are the evidence. */
  ghost predicate Concluded(w: World, trail: seq<Step>, records: map<int, Record>, o: Outcome) {
    && trail != []
    && var last := trail[|trail| - 1];
    && last.action == Finish && last.call.Some? && o.final == Some(last.call.value.arguments)
    && HoldsADiagnosis(w, last.call.value.arguments)
    && last.evidence == Resolved(records, w.decode(last.call.value.arguments).value.citations)
  }

  lemma RunsAnswer(w: World, wording: Wording, b: Budget, start: Time, r: Ran)
    requires Investigated(w, wording, b, start, r)
    ensures forall k :: 0 <= k < |r.trail| ==> Answers(w, r.trail[k])
    ensures r.end.Done? && r.end.outcome.status == Succeeded ==> Concluded(w, r.trail, r.records, r.end.outcome)
  {
    hide Counted, Remembers, Unended, Finishing, PromptTokensOf, CompletionTokensOf, StopAt, CancelledBy, Follows, Answers;
    hide Diagnosis, HoldsADiagnosis, TwoNones, ToolSteps, OnlyForced, Continues;
    forall k | 0 <= k < |r.trail| ensures Answers(w, r.trail[k]) {
      FollowingIsAnswering(w, r.trail[k], Acted(r.trail[..k]));
    }
    if r.end.Done? && r.end.outcome.status == Succeeded {
      DiagnosisIs(w, r.trail[|r.trail| - 1].call.value.arguments);
    }
  }

  lemma CancelledBeforeTheStart(w: World, wording: Wording, b: Budget, start: Time, r: Ran)
    requires Investigated(w, wording, b, start, r)
    ensures Counted(w, wording, b, start, r)
    ensures CancelledBy(w, start) ==> r.end.Cancelled? && r.chats == 0
  {
    hide WentOn, StopAt, ElapsedAt, Remembers, Unended, Finishing, Verdict, PromptTokensOf, CompletionTokensOf;
  }

  // ---------------------------------------------------------------- the token net

  /** Under an accepted configuration the token bound stops no run whose prompts keep to their overhead. */
  lemma TokenBudgetStopsNoModestRun(w: World, wording: Wording, b: Budget, trail: seq<Step>, elapsed: Duration)
    requires Accepted(b)
    requires Overhead(wording, b, TurnsOf(w, trail), Spent(|trail| + 1, ToolSteps(trail))) <= PROMPT_OVERHEAD_BYTES
    ensures HeadStop(w, wording, b, trail, elapsed) != Some(TokenBudget)
  {
    hide *;
    if HeadStop(w, wording, b, trail, elapsed) == Some(TokenBudget) {
      TheTokenNetCatches(w, wording, b, trail, elapsed);
      PromptIs(w, wording, b, trail);
      StandardOverheadFits(wording, b, TurnsOf(w, trail), Spent(|trail| + 1, ToolSteps(trail)));
      assert false;
    }
  }

  lemma TheTokenNetCatches(w: World, wording: Wording, b: Budget, trail: seq<Step>, elapsed: Duration)
    ensures HeadStop(w, wording, b, trail, elapsed) == Some(TokenBudget) ==>
              |trail| < b.maxSteps && TokensFor(TotalBytes(PromptAfter(w, wording, b, trail))) > b.maxPromptTokens
  {
    hide PromptAfter, ToolSteps, TotalBytes;
  }

  /**
    Exactly when the token net stops a run: no bound has, and the overhead and the observations of the
    next prompt are together over four bytes a token.
  */
  lemma TheTokenNetStopsIff(w: World, wording: Wording, b: Budget, trail: seq<Step>, elapsed: Duration)
    ensures HeadStop(w, wording, b, trail, elapsed) == Some(TokenBudget) <==>
            && |trail| < b.maxSteps && ToolSteps(trail) < b.maxToolCalls && elapsed < b.maxRunDuration
            && Overhead(wording, b, TurnsOf(w, trail), Spent(|trail| + 1, ToolSteps(trail)))
               + ObservationBytes(wording, TurnsOf(w, trail)) > BYTES_PER_TOKEN * b.maxPromptTokens
  {
    hide PromptAfter, Overhead, ObservationBytes, TurnsOf, ToolSteps, TotalBytes, TokensFor;
    PromptIs(w, wording, b, trail);
    OverBudgetIff(wording, b, TurnsOf(w, trail), Spent(|trail| + 1, ToolSteps(trail)));
  }

  /** But a first search whose arguments are long enough does stop there, whatever the budget. */
  lemma ALongSearchReachesTheTokenBudget(w: World, wording: Wording, b: Budget, step: Step, elapsed: Duration)
    requires Accepted(b) && b.maxSteps >= 2 && elapsed < b.maxRunDuration
    requires Follows(w, step, 0) && step.number == 1 && step.action == Retrieve
    requires |step.call.value.arguments| > 4 * b.maxPromptTokens
    ensures Timeline(w, [step]) && HeadStop(w, wording, b, [step], elapsed) == Some(TokenBudget)
  {
    var trail := [step];
    assert trail[..0] == [] && ToolSteps(trail) == 0;
    assert TurnsOf(w, trail) == [Observed(1, step.call.value, step.observation)];
    PromptIs(w, wording, b, trail);
    hide Prompt, TotalBytes, Accepted, PromptAfter, Decide;
    LongArgumentsExceedAnyBudget(wording, b, step.call.value, step.observation, Spent(2, 0));
  }
}
