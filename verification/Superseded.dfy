/**
  What becomes of a run whose first claimer reads back too late: it carries its successor's attempt,
  and every outcome it may come to lands on the run the successor holds (internal/agentrun/agentrun.go).
*/
module Superseded {
  import opened Prelude
  import opened Paths
  import opened RunRows
  import opened RunProtocol
  import opened AttemptPath
  import Loop = AgentLoop
  import Evidence

  /** A path from a behaviour's last state makes it a longer behaviour. */
  lemma {:induction false} Continued(lease: Duration, b: seq<State>, acts: seq<Action>, more: seq<Action>, s': State)
    returns (b': seq<State>)
    requires Behavior(lease, b, acts) && RunsTo(Steps(lease, false), b[|acts|], more, s')
    ensures Behavior(lease, b', acts + more) && b <= b' && b'[|acts + more|] == s'
    decreases |more|
  {
    if more == [] {
      b' := b;
      assert acts + more == acts;
    } else {
      var m :| Next(lease, b[|acts|], more[0], m) && RunsTo(Steps(lease, false), m, more[1..], s');
      Extended(lease, b, acts, more[0]);
      b' := Continued(lease, b + [m], acts + [more[0]], more[1..], s');
      assert acts + [more[0]] + more[1..] == acts + more;
    }
  }

  /** Steps of which the first `calls` call a tool. */
  function SomeSteps(n: nat, calls: nat): seq<Loop.Step> {
    if n == 0 then []
    else
      SomeSteps(n - 1, calls) +
      [Loop.Step(n, if n <= calls then Evidence.CallTool else Evidence.Retrieve, None, [], true, None, [])]
  }

  lemma {:induction false} SomeStepsCount(n: nat, calls: nat)
    ensures |SomeSteps(n, calls)| == n && Loop.ToolSteps(SomeSteps(n, calls)) == Min(n, calls)
  {
    if n == 0 {
    } else {
      SomeStepsCount(n - 1, calls);
      assert SomeSteps(n, calls)[..n - 1] == SomeSteps(n - 1, calls);
    }
  }

  lemma LateReadBack(lease: nat) returns (b: seq<State>, acts: seq<Action>)
    ensures Behavior(lease, b, acts) && |acts| == 5
    ensures Between(b[5], 0, 2, 0, 0)
    ensures b[5].db.runs == map[0 := ClaimedRow(ClaimedRow(NewRun(0, 0), 0), lease + 1)]
    ensures 0 in b[5].workers && b[5].workers[0].run == 0 && b[5].workers[0].own == 1
    ensures 1 in b[5].workers && b[5].workers[1] == Worker(0, 2, lease + 1, Claimed)
  {
    b, acts := StalledClaim(lease);
    var s := Apply(lease, b[4], ReadBack(0));
    Extended(lease, b, acts, ReadBack(0));
    b, acts := b + [s], acts + [ReadBack(0)];
  }

  /**
    Worker 0 claims, stalls past the lease and reads back only after worker 1 has reclaimed the run: it
    then carries worker 1's attempt, records any number of steps and tool calls, and its terminal write
    lands on a run worker 1 still holds, whatever the outcome.
  */
  lemma ALateReadBackBreaksTheFence(lease: nat, out: RunOutcome) returns (b: seq<State>, acts: seq<Action>)
    requires Terminal(out.status) && out.toolCallCount <= out.stepCount
    ensures Behavior(lease, b, acts) && |acts| >= 2 && acts[|acts| - 1] == Finish(0)
    ensures var before, after := b[|acts| - 1], b[|acts|];
            && 0 in before.workers && 0 in before.db.runs && before.db.runs[0].status.Running?
            && before.workers[0].run == 0 && before.workers[0].own < before.db.runs[0].attempts
            && 0 in after.db.runs && after.db.runs[0] == FinishedRow(before.db.runs[0], out, before.now)
            && Concluded(before.db.runs[0], after.db.runs[0], out, before.now)
            && 1 in after.workers && after.workers[1].run == 0 && after.workers[1].own == after.db.runs[0].attempts
  {
    hide RunsTo, Between, OnlySteps, TrailActions, SomeSteps, Behavior;
    var trail := SomeSteps(out.stepCount, out.toolCallCount);
    SomeStepsCount(out.stepCount, out.toolCallCount);
    b, acts := LateReadBack(lease);
    var s := b[5];
    var m := TrailIsAPath(lease, false, s, 0, trail, 2, _ => 0);
    b := Continued(lease, b, acts, TrailActions(0, trail, _ => 0), m);
    acts := acts + TrailActions(0, trail, _ => 0);
    StepsLeaveTheRest(s, m);
    BetweenIs(m, 0, 2, out.stepCount, out.toolCallCount);
    Extended(lease, b, acts, Decide(0, out));
    var d := Apply(lease, m, Decide(0, out));
    b, acts := b + [d], acts + [Decide(0, out)];
    Extended(lease, b, acts, Finish(0));
    b, acts := b + [Apply(lease, d, Finish(0))], acts + [Finish(0)];
  }

  lemma StepsLeaveTheRest(s: State, m: State)
    requires OnlySteps(s, m, 0) && 1 in s.workers
    ensures m.db.runs == s.db.runs && 1 in m.workers && m.workers[1] == s.workers[1]
    ensures 0 in s.workers && 0 in m.workers && m.workers[0].run == s.workers[0].run && m.workers[0].own == s.workers[0].own
  {
  }
}
