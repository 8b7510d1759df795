/** The prompt one model call is given, and its size (internal/agent/context.go, internal/config/agent.go). */
module AgentContext {
  import opened Prelude
  import Summary

  datatype Role = System | User | Assistant | Tool {
    /** The length of the role's name on the wire. */
    function Length(): nat {
      match this
      case System => 6
      case User => 4
      case Assistant => 9
      case Tool => 4
    }
  }

  datatype ToolCall = ToolCall(id: Bytes, kind: Bytes, name: Bytes, arguments: Bytes)

  datatype Message = Message(role: Role, content: Bytes, toolCalls: seq<ToolCall>, toolCallId: Bytes)

  /** What the prompt says again of a recorded step: its call and observation, or why it had none. */
  datatype Turn =
    | Observed(number: nat, call: ToolCall, observation: Bytes)
    | Unusable(number: nat, reason: Bytes)

  datatype Budget = Budget(maxSteps: int, maxToolCalls: int, maxRunDuration: Duration, maxPromptTokens: int)

  /** The number of the step being asked for, and the tool calls made before it. */
  datatype Spent = Spent(step: nat, toolCalls: nat)

  /** The wording of the prompt. None of it depends on what a tool answered. */
  datatype Wording = Wording(
    system: Bytes,
    incident: Bytes,
    stepLabel: nat -> Bytes,
    noTool: (nat, Bytes) -> Bytes,
    budget: (Spent, Budget) -> Bytes,
    blank: Bytes -> bool,
    noOutput: Bytes)

  /** A wording of nothing but a system prompt. */
  function Plain(system: Bytes): Wording { Wording(system, [], _ => [], (_, _) => [], (_, _) => [], _ => false, []) }

  // ---------------------------------------------------------------- the prompt

  function Labelled(w: Wording, number: nat, observation: Bytes): Bytes {
    w.stepLabel(number) + (if w.blank(observation) then w.noOutput else observation)
  }

  function TurnMessages(w: Wording, t: Turn): seq<Message> {
    match t
    case Unusable(n, reason) => [Message(User, w.noTool(n, reason), [], [])]
    case Observed(n, call, observation) =>
      [Message(Assistant, [], [call], []),
       Message(Tool, Labelled(w, n, Summary.Capped(observation, Summary.LIMIT_BYTES)), [], call.id)]
  }

  function History(w: Wording, turns: seq<Turn>): seq<Message> {
    if turns == [] then [] else History(w, turns[..|turns| - 1]) + TurnMessages(w, turns[|turns| - 1])
  }

  function Preamble(w: Wording): seq<Message> { [Message(System, w.system, [], []), Message(User, w.incident, [], [])] }

  function Prompt(w: Wording, b: Budget, turns: seq<Turn>, spent: Spent): seq<Message> {
    Preamble(w) + History(w, turns) + [Message(User, w.budget(spent, b), [], [])]
  }

  /** Where the messages of turn k start: an observed turn takes two, an unusable one takes one. */
  function Place(turns: seq<Turn>, k: nat): nat
    requires k <= |turns|
  {
    if k == 0 then 2 else Place(turns, k - 1) + (if turns[k - 1].Observed? then 2 else 1)
  }

  /** A call and its labelled reply, which is the capped observation or stands for a blank one; or the reason. */
  ghost predicate Says(w: Wording, messages: seq<Message>, at: nat, t: Turn) {
    match t
    case Unusable(n, reason) => at < |messages| && messages[at] == Message(User, w.noTool(n, reason), [], [])
    case Observed(n, call, observation) =>
      && at + 1 < |messages| && messages[at] == Message(Assistant, [], [call], [])
      && exists text :: Summary.IsCap(text, observation, 8192) && messages[at + 1] ==
           Message(Tool, w.stepLabel(n) + (if w.blank(text) then w.noOutput else text), [], call.id)
  }

  /** The system prompt, the incident, the turns in their order, and the budget line; nothing else. */
  ghost predicate Replays(w: Wording, b: Budget, turns: seq<Turn>, spent: Spent, messages: seq<Message>) {
    && |messages| == Place(turns, |turns|) + 1
    && messages[0] == Message(System, w.system, [], []) && messages[1] == Message(User, w.incident, [], [])
    && messages[|messages| - 1] == Message(User, w.budget(spent, b), [], [])
    && forall k :: 0 <= k < |turns| ==> Says(w, messages, Place(turns, k), turns[k])
  }

  lemma TurnSays(w: Wording, before: seq<Message>, t: Turn, after: seq<Message>)
    ensures Says(w, before + TurnMessages(w, t) + after, |before|, t)
    ensures |TurnMessages(w, t)| == if t.Observed? then 2 else 1
  {
    var messages := before + TurnMessages(w, t) + after;
    assert messages[|before|] == TurnMessages(w, t)[0];
    if t.Observed? {
      var text := Summary.Capped(t.observation, Summary.LIMIT_BYTES);
      Summary.CappedIsCap(t.observation, 8192);
      assert messages[|before| + 1] == TurnMessages(w, t)[1];
    }
  }

  lemma {:induction false} HistorySays(w: Wording, front: seq<Message>, turns: seq<Turn>, after: seq<Message>, k: nat)
    requires |front| == 2 && k < |turns|
    ensures |History(w, turns)| + 2 == Place(turns, |turns|)
    ensures Says(w, front + History(w, turns) + after, Place(turns, k), turns[k])
    decreases |turns|
  {
    hide TurnMessages, Says;
    var n := |turns| - 1;
    var last := TurnMessages(w, turns[n]);
    PlacesStay(turns, n);
    TurnSays(w, front + History(w, turns[..n]), turns[n], after);
    assert front + History(w, turns) + after == front + History(w, turns[..n]) + (last + after);
    assert front + History(w, turns) + after == (front + History(w, turns[..n])) + last + after;
    if n == 0 {
      assert turns[..0] == [];
    } else {
      HistorySays(w, front, turns[..n], last + after, if k < n then k else 0);
      PlacesStay(turns, k);
    }
  }

  lemma {:induction false} PlacesStay(turns: seq<Turn>, k: nat)
    requires k < |turns|
    ensures Place(turns[..|turns| - 1], k) == Place(turns, k)
  {
    if k == 0 {
    } else {
      PlacesStay(turns, k - 1);
    }
  }

  lemma PromptReplays(w: Wording, b: Budget, turns: seq<Turn>, spent: Spent)
    ensures Replays(w, b, turns, spent, Prompt(w, b, turns, spent))
  {
    hide Says, TurnMessages;
    var last := [Message(User, w.budget(spent, b), [], [])];
    forall k | 0 <= k < |turns| ensures Says(w, Prompt(w, b, turns, spent), Place(turns, k), turns[k]) {
      HistorySays(w, Preamble(w), turns, last, k);
    }
    if turns != [] {
      HistorySays(w, Preamble(w), turns, last, 0);
    }
  }

  method Build(w: Wording, b: Budget, turns: seq<Turn>, spent: Spent) returns (messages: seq<Message>)
    ensures messages == Prompt(w, b, turns, spent) && Replays(w, b, turns, spent, messages)
  {
    hide Replays, Summary.IsCap;
    PromptReplays(w, b, turns, spent);
    messages := [Message(System, w.system, [], []), Message(User, w.incident, [], [])];
    for i := 0 to |turns|
      invariant messages == Preamble(w) + History(w, turns[..i])
    {
      assert turns[..i + 1][..i] == turns[..i];
      match turns[i]
      case Unusable(n, reason) =>
        messages := messages + [Message(User, w.noTool(n, reason), [], [])];
      case Observed(n, call, text) =>
        var observation, _, _ := Summary.Cap(text);
        messages := messages + [Message(Assistant, [], [call], []), Message(Tool, Labelled(w, n, observation), [], call.id)];
    }
    assert turns[..|turns|] == turns;
    messages := messages + [Message(User, w.budget(spent, b), [], [])];
  }

  // ---------------------------------------------------------------- every call is followed by its reply

  /** The message at i carries one call, and the next is the labelled reply to it for this turn. */
  ghost predicate Replied(w: Wording, messages: seq<Message>, i: nat, t: Turn)
    requires i < |messages|
  {
    && t.Observed?
    && i + 1 < |messages|
    && messages[i] == Message(Assistant, [], [t.call], [])
    && messages[i + 1].role == Tool && messages[i + 1].toolCallId == t.call.id
    && w.stepLabel(t.number) <= messages[i + 1].content
  }

  ghost predicate Paired(w: Wording, messages: seq<Message>, turns: seq<Turn>) {
    && (forall i :: 0 <= i < |messages| && messages[i].toolCalls != [] ==>
          exists k :: 0 <= k < |turns| && Replied(w, messages, i, turns[k]))
    && (forall i :: 0 <= i < |messages| && messages[i].role == Tool ==>
          i > 0 && exists k :: 0 <= k < |turns| && Replied(w, messages, i - 1, turns[k]))
  }

  lemma {:induction false} HistoryIsPaired(w: Wording, turns: seq<Turn>)
    ensures Paired(w, History(w, turns), turns)
  {
    if turns == [] {
    } else {
      var n := |turns| - 1;
      var before, after := History(w, turns[..n]), History(w, turns);
      HistoryIsPaired(w, turns[..n]);
      EarlierPairsStay(w, before, TurnMessages(w, turns[n]), turns[..n], turns);
      NewPair(w, before, turns, n);
    }
  }

  lemma EarlierPairsStay(w: Wording, before: seq<Message>, more: seq<Message>, earlier: seq<Turn>, turns: seq<Turn>)
    requires Paired(w, before, earlier) && earlier <= turns
    ensures forall i :: 0 <= i < |before| && before[i].toolCalls != [] ==>
              exists k :: 0 <= k < |turns| && Replied(w, before + more, i, turns[k])
    ensures forall i :: 0 <= i < |before| && before[i].role == Tool ==>
              i > 0 && exists k :: 0 <= k < |turns| && Replied(w, before + more, i - 1, turns[k])
  {
    forall i | 0 <= i < |before| && before[i].toolCalls != []
      ensures exists k :: 0 <= k < |turns| && Replied(w, before + more, i, turns[k]) {
      var k :| 0 <= k < |earlier| && Replied(w, before, i, earlier[k]);
      assert Replied(w, before + more, i, turns[k]);
    }
    forall i | 0 <= i < |before| && before[i].role == Tool
      ensures i > 0 && exists k :: 0 <= k < |turns| && Replied(w, before + more, i - 1, turns[k]) {
      var k :| 0 <= k < |earlier| && Replied(w, before, i - 1, earlier[k]);
      assert Replied(w, before + more, i - 1, turns[k]);
    }
  }

  lemma NewPair(w: Wording, before: seq<Message>, turns: seq<Turn>, n: nat)
    requires n < |turns|
    ensures turns[n].Observed? ==> Replied(w, before + TurnMessages(w, turns[n]), |before|, turns[n])
  {
  }

  /** Every assistant tool call is immediately followed by the reply with its id and step label, and conversely. */
  lemma EveryCallIsFollowedByItsReply(w: Wording, b: Budget, turns: seq<Turn>, spent: Spent)
    ensures Paired(w, Prompt(w, b, turns, spent), turns)
  {
    var h := History(w, turns);
    var front, last := Preamble(w), [Message(User, w.budget(spent, b), [], [])];
    HistoryIsPaired(w, turns);
    assert Prompt(w, b, turns, spent) == front + h + last;
    hide History, Preamble, Prompt, TurnMessages;
    SurroundedPairsStay(w, front, h, last, turns);
  }

  lemma SurroundedPairsStay(w: Wording, front: seq<Message>, h: seq<Message>, last: seq<Message>, turns: seq<Turn>)
    requires Paired(w, h, turns)
    requires forall i :: 0 <= i < |front| ==> front[i].toolCalls == [] && front[i].role != Tool
    requires forall i :: 0 <= i < |last| ==> last[i].toolCalls == [] && last[i].role != Tool
    ensures Paired(w, front + h + last, turns)
  {
    var messages, n := front + h + last, |front|;
    forall i | 0 <= i < |h| ensures messages[i + n] == h[i] {
    }
    forall i | 0 <= i < |messages| && messages[i].toolCalls != []
      ensures exists k :: 0 <= k < |turns| && Replied(w, messages, i, turns[k]) {
      assert messages[i] == h[i - n];
      var k :| 0 <= k < |turns| && Replied(w, h, i - n, turns[k]);
      assert messages[i - n + 1 + n] == h[i - n + 1];
      assert Replied(w, messages, i, turns[k]);
    }
    forall i | 0 <= i < |messages| && messages[i].role == Tool
      ensures i > 0 && exists k :: 0 <= k < |turns| && Replied(w, messages, i - 1, turns[k]) {
      assert messages[i] == h[i - n];
      var k :| 0 <= k < |turns| && Replied(w, h, i - n - 1, turns[k]);
      assert messages[i - n - 1 + n] == h[i - n - 1];
      assert Replied(w, messages, i - 1, turns[k]);
    }
  }

  // ---------------------------------------------------------------- its size

  const BYTES_PER_TOKEN: nat := 4
  const OBSERVATION_CAP_BYTES: nat := 8 * 1024
  const PROMPT_OVERHEAD_BYTES: nat := 40 * 1024

  function CallBytes(calls: seq<ToolCall>): nat {
    if calls == [] then 0
    else
      var c := calls[|calls| - 1];
      CallBytes(calls[..|calls| - 1]) + |c.id| + |c.kind| + |c.name| + |c.arguments|
  }

  function MessageBytes(m: Message): nat {
    m.role.Length() + |m.content| + |m.toolCallId| + CallBytes(m.toolCalls)
  }

  function TotalBytes(messages: seq<Message>): nat {
    if messages == [] then 0 else TotalBytes(messages[..|messages| - 1]) + MessageBytes(messages[|messages| - 1])
  }

  /** Bytes to tokens, rounded up. */
  function TokensFor(bytes: int): int { (bytes + BYTES_PER_TOKEN - 1) / BYTES_PER_TOKEN }

  /** Every message counts its role's name, its content, the id it answers and the four fields of each call. */
  lemma MessagesAddUp(messages: seq<Message>, m: Message, calls: seq<ToolCall>, c: ToolCall)
    ensures TotalBytes([]) == 0 && CallBytes([]) == 0
    ensures TotalBytes(messages + [m]) == TotalBytes(messages)
              + (match m.role case System => 6 case User => 4 case Assistant => 9 case Tool => 4)
              + |m.content| + |m.toolCallId| + CallBytes(m.toolCalls)
    ensures CallBytes(calls + [c]) == CallBytes(calls) + |c.id| + |c.kind| + |c.name| + |c.arguments|
  {
    assert (messages + [m])[..|messages|] == messages && (calls + [c])[..|calls|] == calls;
  }

  method EstimateTokens(messages: seq<Message>) returns (tokens: int)
    ensures tokens == TokensFor(TotalBytes(messages))
    ensures 4 * (tokens - 1) < TotalBytes(messages) <= 4 * tokens
  {
    var bytes := 0;
    for i := 0 to |messages|
      invariant bytes == TotalBytes(messages[..i])
    {
      assert messages[..i + 1][..i] == messages[..i];
      var m := messages[i];
      bytes := bytes + m.role.Length() + |m.content| + |m.toolCallId|;
      ghost var before := bytes;
      for j := 0 to |m.toolCalls|
        invariant bytes == before + CallBytes(m.toolCalls[..j])
      {
        assert m.toolCalls[..j + 1][..j] == m.toolCalls[..j];
        var c := m.toolCalls[j];
        bytes := bytes + |c.id| + |c.kind| + |c.name| + |c.arguments|;
      }
      assert m.toolCalls[..|m.toolCalls|] == m.toolCalls;
    }
    assert messages[..|messages|] == messages;
    tokens := (bytes + BYTES_PER_TOKEN - 1) / BYTES_PER_TOKEN;
  }

  lemma {:induction false} TotalBytesOfConcat(a: seq<Message>, b: seq<Message>)
    ensures TotalBytes(a + b) == TotalBytes(a) + TotalBytes(b)
  {
    if b == [] {
      assert a + b == a;
    } else {
      var n := |b| - 1;
      assert (a + b)[..|a| + n] == a + b[..n];
      TotalBytesOfConcat(a, b[..n]);
    }
  }

  /** The observation text a turn puts in the prompt. */
  function ObservationShown(w: Wording, t: Turn): Bytes {
    if t.Unusable? then []
    else
      var text := Summary.Capped(t.observation, Summary.LIMIT_BYTES);
      if w.blank(text) then [] else text
  }

  /** Everything else it puts there: roles, labels, reasons, the call and the pairing ids. */
  function TurnOverhead(w: Wording, t: Turn): nat {
    match t
    case Unusable(n, reason) => User.Length() + |w.noTool(n, reason)|
    case Observed(n, call, observation) =>
      Assistant.Length() + |call.id| + |call.kind| + |call.name| + |call.arguments|
      + Tool.Length() + |w.stepLabel(n)| + |call.id|
      + (if w.blank(Summary.Capped(observation, Summary.LIMIT_BYTES)) then |w.noOutput| else 0)
  }

  function ObservationBytes(w: Wording, turns: seq<Turn>): nat {
    if turns == [] then 0
    else ObservationBytes(w, turns[..|turns| - 1]) + |ObservationShown(w, turns[|turns| - 1])|
  }

  function TurnsOverhead(w: Wording, turns: seq<Turn>): nat {
    if turns == [] then 0
    else TurnsOverhead(w, turns[..|turns| - 1]) + TurnOverhead(w, turns[|turns| - 1])
  }

  /** The bytes of a prompt that no observation accounts for. */
  function Overhead(w: Wording, b: Budget, turns: seq<Turn>, spent: Spent): nat {
    System.Length() + |w.system| + User.Length() + |w.incident| + TurnsOverhead(w, turns)
    + User.Length() + |w.budget(spent, b)|
  }

  lemma TurnBytes(w: Wording, t: Turn)
    ensures TotalBytes(TurnMessages(w, t)) == TurnOverhead(w, t) + |ObservationShown(w, t)|
  {
    var ms := TurnMessages(w, t);
    if t.Unusable? {
      assert ms[..0] == [];
    } else {
      var calls := [t.call];
      assert ms[..1] == [ms[0]] && ms[..1][..0] == [];
      assert calls[..0] == [];
      assert MessageBytes(ms[0]) == Assistant.Length() + CallBytes(calls);
      assert TotalBytes(ms) == TotalBytes(ms[..1]) + MessageBytes(ms[1]);
    }
  }

  lemma {:induction false} HistoryBytes(w: Wording, turns: seq<Turn>)
    ensures TotalBytes(History(w, turns)) == TurnsOverhead(w, turns) + ObservationBytes(w, turns)
  {
    if turns == [] {
    } else {
      hide TurnMessages, TurnOverhead, ObservationShown;
      var n := |turns| - 1;
      HistoryBytes(w, turns[..n]);
      TurnBytes(w, turns[n]);
      TotalBytesOfConcat(History(w, turns[..n]), TurnMessages(w, turns[n]));
    }
  }

  /** A prompt is its observations and its overhead, nothing else. */
  lemma PromptBytes(w: Wording, b: Budget, turns: seq<Turn>, spent: Spent)
    ensures TotalBytes(Prompt(w, b, turns, spent)) == Overhead(w, b, turns, spent) + ObservationBytes(w, turns)
  {
    var last := [Message(User, w.budget(spent, b), [], [])];
    HistoryBytes(w, turns);
    TotalBytesOfConcat(Preamble(w) + History(w, turns), last);
    TotalBytesOfConcat(Preamble(w), History(w, turns));
    assert Preamble(w)[..1] == [Preamble(w)[0]] && Preamble(w)[..1][..0] == [] && last[..0] == [];
  }

  lemma ObservationIsCapped(w: Wording, t: Turn)
    ensures |ObservationShown(w, t)| <= OBSERVATION_CAP_BYTES
  {
  }

  lemma {:induction false} ObservationsAreCapped(w: Wording, turns: seq<Turn>)
    ensures ObservationBytes(w, turns) <= |turns| * OBSERVATION_CAP_BYTES
  {
    if turns == [] {
    } else {
      hide ObservationShown;
      ObservationsAreCapped(w, turns[..|turns| - 1]);
      ObservationIsCapped(w, turns[|turns| - 1]);
    }
  }

  // ---------------------------------------------------------------- the configuration's invariant

  function WorstCasePromptTokens(b: Budget): int {
    TokensFor(b.maxSteps * OBSERVATION_CAP_BYTES + PROMPT_OVERHEAD_BYTES)
  }

  /** LoadAgent reports every problem at once; it accepts when there is none. */
  predicate Accepted(b: Budget) {
    && b.maxSteps >= 1 && b.maxToolCalls >= 1 && b.maxRunDuration > 0 && b.maxPromptTokens >= 1
    && WorstCasePromptTokens(b) <= b.maxPromptTokens
  }

  /** Every bound is positive, and MaxSteps observations of 8 KiB and 40 KiB besides are four bytes a token at most. */
  lemma AcceptedIff(b: Budget)
    ensures Accepted(b) <==>
              && b.maxSteps > 0 && b.maxToolCalls > 0 && b.maxRunDuration > 0 && b.maxPromptTokens > 0
              && 8192 * b.maxSteps + 40960 <= 4 * b.maxPromptTokens
  {
  }

  /** At a loop head fewer than MaxSteps steps are done, so a modest overhead keeps the prompt in budget. */
  lemma ModestPromptsFit(w: Wording, b: Budget, turns: seq<Turn>, spent: Spent)
    requires Accepted(b) && |turns| < b.maxSteps
    requires Overhead(w, b, turns, spent) <= PROMPT_OVERHEAD_BYTES + (b.maxSteps - |turns|) * OBSERVATION_CAP_BYTES
    ensures TokensFor(TotalBytes(Prompt(w, b, turns, spent))) <= b.maxPromptTokens
  {
    PromptBytes(w, b, turns, spent);
    ObservationsAreCapped(w, turns);
  }

  lemma StandardOverheadFits(w: Wording, b: Budget, turns: seq<Turn>, spent: Spent)
    requires Accepted(b) && |turns| < b.maxSteps && Overhead(w, b, turns, spent) <= PROMPT_OVERHEAD_BYTES
    ensures TokensFor(TotalBytes(Prompt(w, b, turns, spent))) <= b.maxPromptTokens
  {
    hide Overhead, Prompt, TotalBytes, Accepted;
    var unused := b.maxSteps - |turns|;
    assert unused * OBSERVATION_CAP_BYTES >= 0;
    ModestPromptsFit(w, b, turns, spent);
  }

  /** A prompt is over the token budget exactly when its overhead and its observations are over four bytes a token. */
  lemma OverBudgetIff(w: Wording, b: Budget, turns: seq<Turn>, spent: Spent)
    ensures TokensFor(TotalBytes(Prompt(w, b, turns, spent))) > b.maxPromptTokens <==>
            Overhead(w, b, turns, spent) + ObservationBytes(w, turns) > BYTES_PER_TOKEN * b.maxPromptTokens
  {
    hide *;
    PromptBytes(w, b, turns, spent);
    RoundedUp(TotalBytes(Prompt(w, b, turns, spent)), b.maxPromptTokens);
  }

  lemma RoundedUp(bytes: int, max: int)
    ensures TokensFor(bytes) > max <==> bytes > BYTES_PER_TOKEN * max
  {
  }

  /**
    The claim that an accepted configuration cannot reach the token bound is false: nothing caps a
    tool call's arguments. For every accepted budget of two steps or more there is a first step after
    which the prompt is over it.
  */
  lemma LongArgumentsExceedAnyBudget(w: Wording, b: Budget, call: ToolCall, observation: Bytes, spent: Spent)
    requires Accepted(b) && |call.arguments| > 4 * b.maxPromptTokens
    ensures TokensFor(TotalBytes(Prompt(w, b, [Observed(1, call, observation)], spent))) > b.maxPromptTokens
  {
    var t := Observed(1, call, observation);
    PromptBytes(w, b, [t], spent);
    assert [t][..0] == [] && TurnsOverhead(w, [t]) == TurnOverhead(w, t);
  }
}
