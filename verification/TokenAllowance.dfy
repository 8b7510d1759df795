/**
  The sharp form of the configuration's rule about prompts: which overhead keeps every run off the
  token bound, over the steps the loop can have recorded (internal/config/agent.go, internal/agent/loop.go).
*/
module TokenAllowance {
  import opened Prelude
  import opened AgentContext
  import opened Evidence
  import opened AgentLoop
  import Summary

  /** A call without an id is given one. */
  ghost predicate FillsIds(w: World) { forall n: nat :: w.callId(n) != [] }

  /** Steps the loop may have recorded when it looks at its bounds. */
  ghost predicate AtAHead(w: World, trail: seq<Step>) { Timeline(w, trail) && Unended(trail) && !TwoNones(trail) }

  /** What the next prompt holds besides observations. */
  function OverheadAfter(w: World, wording: Wording, b: Budget, trail: seq<Step>): nat {
    Overhead(wording, b, TurnsOf(w, trail), Spent(|trail| + 1, ToolSteps(trail)))
  }

  /** No run whose overhead keeps to the allowance is ever stopped on tokens. */
  ghost predicate AllowanceIsSafe(b: Budget, allowance: nat) {
    forall w: World, wording: Wording, trail: seq<Step>, elapsed: nat ::
      FillsIds(w) && AtAHead(w, trail) && OverheadAfter(w, wording, b, trail) <= allowance ==>
        HeadStop(w, wording, b, trail, elapsed) != Some(TokenBudget)
  }

  // ---------------------------------------------------------------- the least a turn can cost

  /** The roles of a prompt with no turn. */
  const LEAST_PROMPT: nat := 14

  /** The roles of a call and its reply, one byte of each of the call's four fields, and the id once more. */
  const LEAST_TOOL_TURN: nat := 18

  /** A search spells its name out. */
  const LEAST_SEARCH_TURN: nat := 33

  function Searches(trail: seq<Step>): nat {
    if trail == [] then 0
    else Searches(trail[..|trail| - 1]) + (if trail[|trail| - 1].action == Retrieve then 1 else 0)
  }

  lemma CallsAreFilledIn(w: World, step: nat, calls: seq<ToolCall>)
    requires FillsIds(w)
    ensures var d := Decide(w, step, calls);
            d.Chosen? ==> |d.call.id| >= 1 && |d.call.kind| >= 1 && |d.call.name| >= 1 && |d.call.arguments| >= 1
  {
  }

  lemma ATurnCosts(w: World, wording: Wording, s: Step, acted: nat)
    requires FillsIds(w) && Follows(w, s, acted) && Continues(s)
    ensures s.action == CallTool ==> TurnOverhead(wording, TurnOf(w, s)) >= LEAST_TOOL_TURN
    ensures s.action == Retrieve ==> TurnOverhead(wording, TurnOf(w, s)) >= LEAST_SEARCH_TURN
    ensures s.action == NoAction ==> ObservationShown(wording, TurnOf(w, s)) == []
    ensures |ObservationShown(wording, TurnOf(w, s))| <= OBSERVATION_CAP_BYTES
  {
    hide Decide, Diagnosis;
    ObservationIsCapped(wording, TurnOf(w, s));
    if w.chat(s.number - 1).value.Answered? {
      CallsAreFilledIn(w, s.number, w.chat(s.number - 1).value.calls);
    }
  }

  lemma OneTurnLonger(w: Wording, turns: seq<Turn>, t: Turn)
    ensures ObservationBytes(w, turns + [t]) == ObservationBytes(w, turns) + |ObservationShown(w, t)|
    ensures TurnsOverhead(w, turns + [t]) == TurnsOverhead(w, turns) + TurnOverhead(w, t)
  {
    hide TurnOverhead, ObservationShown;
    assert (turns + [t])[..|turns|] == turns;
  }

  lemma NoTurns(w: World, wording: Wording)
    ensures TurnsOf(w, []) == [] && ObservationBytes(wording, []) == 0 && TurnsOverhead(wording, []) == 0
    ensures ToolSteps([]) == 0 && Searches([]) == 0
  {
  }

  lemma OneStepMore(w: World, trail: seq<Step>, step: Step)
    ensures TurnsOf(w, trail + [step]) == TurnsOf(w, trail) + [TurnOf(w, step)]
    ensures ToolSteps(trail + [step]) == ToolSteps(trail) + (if step.action == CallTool then 1 else 0)
    ensures Searches(trail + [step]) == Searches(trail) + (if step.action == Retrieve then 1 else 0)
  {
    hide TurnOf;
    assert (trail + [step])[..|trail|] == trail;
  }

  lemma WithoutItsLast(w: World, trail: seq<Step>)
    requires trail != [] && Timeline(w, trail) && Unended(trail)
    ensures var n := |trail| - 1;
            && Timeline(w, trail[..n]) && Unended(trail[..n])
            && Follows(w, trail[n], Acted(trail[..n])) && Continues(trail[n])
  {
    hide Follows, Continues, Acted;
    var n := |trail| - 1;
    forall k | 0 <= k < n ensures trail[..n][k].number == k + 1 && Follows(w, trail[..n][k], Acted(trail[..n][..k])) {
      assert trail[..n][..k] == trail[..k];
    }
  }

  lemma {:induction false} TurnsCost(w: World, wording: Wording, trail: seq<Step>)
    requires FillsIds(w) && Timeline(w, trail) && Unended(trail)
    ensures ToolSteps(trail) + Searches(trail) <= |trail|
    ensures var turns := TurnsOf(w, trail);
            && TurnsOverhead(wording, turns) >= LEAST_TOOL_TURN * ToolSteps(trail) + LEAST_SEARCH_TURN * Searches(trail)
            && ObservationBytes(wording, turns) <= (ToolSteps(trail) + Searches(trail)) * OBSERVATION_CAP_BYTES
  {
    hide Follows, FillsIds, Timeline, Unended, Continues, Acted, TurnsOf, TurnOf, TurnsOverhead, TurnOverhead;
    hide ObservationBytes, ObservationShown, ToolSteps, Searches;
    if trail == [] {
      NoTurns(w, wording);
    } else {
      var n := |trail| - 1;
      WithoutItsLast(w, trail);
      TurnsCost(w, wording, trail[..n]);
      assert trail == trail[..n] + [trail[n]];
      OneStepMore(w, trail[..n], trail[n]);
      OneTurnLonger(wording, TurnsOf(w, trail[..n]), TurnOf(w, trail[n]));
      ATurnCosts(w, wording, trail[n], Acted(trail[..n]));
      AnAction(w, trail[n], Acted(trail[..n]));
    }
  }

  lemma AnAction(w: World, s: Step, acted: nat)
    requires Follows(w, s, acted) && Continues(s)
    ensures s.action == CallTool || s.action == Retrieve || s.action == NoAction
  {
  }

  // ---------------------------------------------------------------- how many observations an allowance has room for

  /** Tool turns are the cheapest, and at a head fewer than MaxToolCalls are done; searches fill what is left. */
  function ToolRoom(b: Budget, allowance: nat): nat {
    if b.maxSteps < 1 || b.maxToolCalls < 1 || allowance < LEAST_PROMPT then 0
    else Min(Min(b.maxToolCalls - 1, b.maxSteps - 1), (allowance - LEAST_PROMPT) / LEAST_TOOL_TURN)
  }

  function SearchRoom(b: Budget, allowance: nat): nat {
    if b.maxSteps < 1 || b.maxToolCalls < 1 || allowance < LEAST_PROMPT then 0
    else
      var tools := ToolRoom(b, allowance);
      Min(b.maxSteps - 1 - tools, (allowance - LEAST_PROMPT - LEAST_TOOL_TURN * tools) / LEAST_SEARCH_TURN)
  }

  function RoomFor(b: Budget, allowance: nat): nat { ToolRoom(b, allowance) + SearchRoom(b, allowance) }

  /** No mix of tool calls and searches gets in more. */
  lemma RoomIsTheMost(b: Budget, allowance: nat, tools: nat, searches: nat)
    requires tools < b.maxToolCalls && tools + searches < b.maxSteps
    requires LEAST_PROMPT + LEAST_TOOL_TURN * tools + LEAST_SEARCH_TURN * searches <= allowance
    ensures tools + searches <= RoomFor(b, allowance)
  {
  }

  // ---------------------------------------------------------------- a run that fills it

  function Bytes1(n: nat): (r: Bytes)
    ensures |r| == n
  {
    seq(n, _ => 48)
  }

  /** As little of a call as the loop replays: one byte a field, but for the name of a search. */
  function LeastCall(tool: bool): ToolCall { ToolCall([48], [48], if tool then [116] else SEARCH_KNOWLEDGE, [48]) }

  /** The model calls a tool `tools` times and then only searches; every answer is as long as the cap. */
  function WideWorld(tools: nat): World {
    World((k: nat) => Timed(0, Answered([LeastCall(k < tools)], 0, 0)),
          (_: nat) => Timed(0, Observation(Bytes1(OBSERVATION_CAP_BYTES), [], [])),
          (_: nat) => Timed(0, Result<StepRef, Bytes>.Ok(StepRef([], []))),
          None, (s: Bytes) => s, (_: Bytes) => true, (_: Bytes) => None, (_: nat) => [48], (_: Reason) => [],
          (_: StopReason) => [])
  }

  function WideStep(tools: nat, n: nat): Step {
    Step(n, if n <= tools then CallTool else Retrieve, Some(LeastCall(n <= tools)), Bytes1(OBSERVATION_CAP_BYTES), true, None, [])
  }

  function WideTrail(tools: nat, n: nat): seq<Step> { if n == 0 then [] else WideTrail(tools, n - 1) + [WideStep(tools, n)] }

  lemma {:induction false} WideTrailIs(tools: nat, n: nat)
    ensures |WideTrail(tools, n)| == n && forall k :: 0 <= k < n ==> WideTrail(tools, n)[k] == WideStep(tools, k + 1)
    ensures ToolSteps(WideTrail(tools, n)) == Min(tools, n)
  {
    hide WideStep;
    if n == 0 {
    } else {
      WideTrailIs(tools, n - 1);
      assert WideTrail(tools, n)[..n - 1] == WideTrail(tools, n - 1);
      WideAction(tools, n);
    }
  }

  lemma WideAction(tools: nat, n: nat)
    ensures WideStep(tools, n).action == (if n <= tools then CallTool else Retrieve)
  {
  }

  lemma WideStepFollows(tools: nat, n: nat, acted: nat)
    requires n > 0
    ensures Follows(WideWorld(tools), WideStep(tools, n), acted) && WideStep(tools, n).number == n
    ensures Continues(WideStep(tools, n)) && WideStep(tools, n).action != NoAction
  {
    hide Bytes1;
    assert SEARCH_KNOWLEDGE != FINISH && [116] != FINISH && [116] != SEARCH_KNOWLEDGE;
    assert Decide(WideWorld(tools), n, [LeastCall(n <= tools)]) == Chosen(LeastCall(n <= tools));
  }

  lemma WideTrailIsAtAHead(tools: nat, n: nat)
    ensures FillsIds(WideWorld(tools)) && AtAHead(WideWorld(tools), WideTrail(tools, n))
  {
    hide Follows, WideStep, WideTrail, Continues, Acted;
    var trail := WideTrail(tools, n);
    WideTrailIs(tools, n);
    forall k | 0 <= k < |trail|
      ensures trail[k].number == k + 1 && Follows(WideWorld(tools), trail[k], Acted(trail[..k]))
      ensures Continues(trail[k]) && trail[k].action != NoAction {
      WideStepFollows(tools, k + 1, Acted(trail[..k]));
    }
  }

  lemma WideTurn(tools: nat, n: nat, system: Bytes)
    ensures var t := TurnOf(WideWorld(tools), WideStep(tools, n));
            && TurnOverhead(Plain(system), t) == (if n <= tools then LEAST_TOOL_TURN else LEAST_SEARCH_TURN)
            && |ObservationShown(Plain(system), t)| == OBSERVATION_CAP_BYTES
  {
    var text := Bytes1(OBSERVATION_CAP_BYTES);
    assert Summary.Capped(text, Summary.LIMIT_BYTES) == text;
  }

  lemma {:induction false} WideTrailCosts(tools: nat, n: nat, system: Bytes)
    ensures var turns := TurnsOf(WideWorld(tools), WideTrail(tools, n));
            && ObservationBytes(Plain(system), turns) == n * OBSERVATION_CAP_BYTES
            && TurnsOverhead(Plain(system), turns) == LEAST_TOOL_TURN * Min(tools, n) + LEAST_SEARCH_TURN * (n - Min(tools, n))
  {
    hide WideStep, WideWorld, TurnOf, TurnsOf, TurnOverhead, ObservationShown, TurnsOverhead, ObservationBytes, Plain;
    var w := WideWorld(tools);
    if n == 0 {
      NoTurns(w, Plain(system));
    } else {
      WideTrailCosts(tools, n - 1, system);
      OneStepMore(w, WideTrail(tools, n - 1), WideStep(tools, n));
      OneTurnLonger(Plain(system), TurnsOf(w, WideTrail(tools, n - 1)), TurnOf(w, WideStep(tools, n)));
      WideTurn(tools, n, system);
    }
  }

  // ---------------------------------------------------------------- the sharp rule

  lemma WithinTheAllowance(w: World, wording: Wording, b: Budget, trail: seq<Step>, elapsed: nat, allowance: nat)
    requires FillsIds(w) && AtAHead(w, trail) && OverheadAfter(w, wording, b, trail) <= allowance
    requires allowance + RoomFor(b, allowance) * OBSERVATION_CAP_BYTES <= BYTES_PER_TOKEN * b.maxPromptTokens
    ensures HeadStop(w, wording, b, trail, elapsed) != Some(TokenBudget)
  {
    hide HeadStop, TurnsOf, TurnsOverhead, ObservationBytes, ToolSteps, Searches, RoomFor, FillsIds, Timeline, Unended;
    TheTokenNetStopsIff(w, wording, b, trail, elapsed);
    TurnsCost(w, wording, trail);
    if HeadStop(w, wording, b, trail, elapsed) == Some(TokenBudget) {
      RoomIsTheMost(b, allowance, ToolSteps(trail), Searches(trail));
    }
  }

  /**
    An overhead allowance keeps every run off the token bound exactly when it and the longest
    observations it has room for are within four bytes a token.
  */
  lemma AllowanceIsSafeIff(b: Budget, allowance: nat)
    requires b.maxSteps >= 1 && b.maxToolCalls >= 1 && b.maxRunDuration >= 1
    ensures AllowanceIsSafe(b, allowance) <==>
            allowance < LEAST_PROMPT ||
            allowance + RoomFor(b, allowance) * OBSERVATION_CAP_BYTES <= BYTES_PER_TOKEN * b.maxPromptTokens
  {
    hide *;
    SafeIs(b, allowance);
    if allowance < LEAST_PROMPT {
      forall w: World, wording: Wording, trail: seq<Step> ensures OverheadAfter(w, wording, b, trail) > allowance {
        APromptHasRoles(w, wording, b, trail);
      }
    } else if allowance + RoomFor(b, allowance) * OBSERVATION_CAP_BYTES <= BYTES_PER_TOKEN * b.maxPromptTokens {
      forall w: World, wording: Wording, trail: seq<Step>, elapsed: nat
        | FillsIds(w) && AtAHead(w, trail) && OverheadAfter(w, wording, b, trail) <= allowance
        ensures HeadStop(w, wording, b, trail, elapsed) != Some(TokenBudget) {
        WithinTheAllowance(w, wording, b, trail, elapsed, allowance);
      }
    } else {
      AWideRunIsStopped(b, allowance);
    }
  }

  lemma SafeIs(b: Budget, allowance: nat)
    ensures AllowanceIsSafe(b, allowance) <==>
              forall w: World, wording: Wording, trail: seq<Step>, elapsed: nat ::
                FillsIds(w) && AtAHead(w, trail) && OverheadAfter(w, wording, b, trail) <= allowance ==>
                  HeadStop(w, wording, b, trail, elapsed) != Some(TokenBudget)
  {
    hide FillsIds, AtAHead, OverheadAfter, HeadStop;
  }

  lemma APromptHasRoles(w: World, wording: Wording, b: Budget, trail: seq<Step>)
    ensures OverheadAfter(w, wording, b, trail) >= LEAST_PROMPT
  {
    hide TurnsOverhead, TurnsOf, ToolSteps;
  }

  lemma AWideRunIsStopped(b: Budget, allowance: nat)
    requires b.maxSteps >= 1 && b.maxToolCalls >= 1 && b.maxRunDuration >= 1 && allowance >= LEAST_PROMPT
    requires allowance + RoomFor(b, allowance) * OBSERVATION_CAP_BYTES > BYTES_PER_TOKEN * b.maxPromptTokens
    ensures exists w: World, wording: Wording, trail: seq<Step> ::
              FillsIds(w) && AtAHead(w, trail) && OverheadAfter(w, wording, b, trail) <= allowance &&
              HeadStop(w, wording, b, trail, 0) == Some(TokenBudget)
  {
    hide HeadStop, TurnsOf, TurnsOverhead, ObservationBytes, ToolSteps, WideTrail, WideWorld, FillsIds, AtAHead;
    var tools, n := ToolRoom(b, allowance), RoomFor(b, allowance);
    var used := LEAST_PROMPT + LEAST_TOOL_TURN * tools + LEAST_SEARCH_TURN * (n - tools);
    var system := Bytes1(allowance - used);
    var w, trail := WideWorld(tools), WideTrail(tools, n);
    WideTrailIs(tools, n);
    WideTrailIsAtAHead(tools, n);
    WideTrailCosts(tools, n, system);
    TheTokenNetStopsIff(w, Plain(system), b, trail, 0);
    assert OverheadAfter(w, Plain(system), b, trail) == allowance;
  }

  /** Once there is room for MaxSteps - 1 turns, it is safe exactly when MaxSteps - 1 full observations fit with it. */
  lemma AFullAllowanceIsSafeIff(b: Budget, allowance: nat)
    requires b.maxSteps >= 1 && b.maxToolCalls >= 1 && b.maxRunDuration >= 1
    requires allowance >= LEAST_PROMPT + (b.maxSteps - 1) * LEAST_SEARCH_TURN
    ensures AllowanceIsSafe(b, allowance) <==>
            allowance + (b.maxSteps - 1) * OBSERVATION_CAP_BYTES <= BYTES_PER_TOKEN * b.maxPromptTokens
  {
    hide AllowanceIsSafe;
    AllowanceIsSafeIff(b, allowance);
    assert RoomFor(b, allowance) == b.maxSteps - 1;
  }
}
