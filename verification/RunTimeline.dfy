/**
  The step rows of a run tell one attempt's story: the claim deletes the previous attempt's rows,
  and while every attempt's writes end within its lease no other attempt can add to them
  (internal/store/runs.go, internal/agentrun/report.go).
*/
module RunTimeline {
  import opened Prelude
  import opened RunRows
  import opened RunProtocol

  /** The rows of one run, read through the program point of the worker that owns it. */
  ghost predicate Matches(steps: map<StepKey, StepRow>, k: Worker) {
    match k.phase
    case Claimed => Numbered(steps, k.run, 0)
    case Looping(_, n, calls, broken) => !broken ==> Tallied(steps, k.run, n, calls)
    case Reporting(_, n, calls, step, tool, owed) =>
      && Tallied(steps, k.run, n + 1, if tool && !owed then calls + 1 else calls)
      && steps[(k.run, n + 1)].id == step
      && (owed ==> tool && steps[(k.run, n + 1)].calls == 0)
    case Finishing(_, out, broken) => !broken ==> Tallied(steps, k.run, out.stepCount, out.toolCallCount)
  }

  /** The rows are numbered 1..n and carry `calls` tool calls between them. */
  ghost predicate Tallied(steps: map<StepKey, StepRow>, run: RunId, n: nat, calls: nat) {
    Numbered(steps, run, n) && Calls(steps, run, n) == calls
  }

  ghost predicate HasHeight(steps: map<StepKey, StepRow>, run: RunId) {
    exists n: nat :: Numbered(steps, run, n)
  }

  /** Every step row was written by the attempt the run's row names. */
  ghost predicate Pure(s: State) {
    forall key :: key in s.db.steps ==>
      && key.0 in s.db.runs
      && s.db.steps[key].id < s.db.nextId
      && s.db.steps[key].id in s.writer
      && s.writer[s.db.steps[key].id] == s.db.runs[key.0].attempts
  }

  /** What a row of agent_runs says about the step rows under it. */
  ghost predicate RunTold(s: State, r: RunId)
    requires r in s.db.runs
  {
    var row := s.db.runs[r];
    && HasHeight(s.db.steps, r)
    && (row.status.Pending? ==> Numbered(s.db.steps, r, 0))
    && (Terminal(row.status) && r !in s.unrecorded ==> Tallied(s.db.steps, r, row.stepCount, row.toolCallCount))
  }

  ghost predicate Owns(s: State, k: Worker) {
    k.run in s.db.runs && s.db.runs[k.run].status.Running? && k.own == s.db.runs[k.run].attempts
  }

  ghost predicate Told(s: State) {
    && Pure(s)
    && (forall r :: r in s.db.runs ==> RunTold(s, r))
    && (forall w :: w in s.workers && Owns(s, s.workers[w]) ==> Matches(s.db.steps, s.workers[w]))
  }

  ghost predicate SameRows(a: map<StepKey, StepRow>, b: map<StepKey, StepRow>, run: RunId) {
    forall k: nat :: ((run, k) in a <==> (run, k) in b) && ((run, k) in a ==> a[(run, k)] == b[(run, k)])
  }

  lemma TalliedFollowsRows(a: map<StepKey, StepRow>, b: map<StepKey, StepRow>, run: RunId, n: nat, calls: nat)
    requires SameRows(a, b, run) && Tallied(a, run, n, calls)
    ensures Tallied(b, run, n, calls)
  {
    CallsDependOnlyOnTheirRows(a, b, run, n);
  }

  lemma MatchesFollowsRows(a: map<StepKey, StepRow>, b: map<StepKey, StepRow>, k: Worker)
    requires SameRows(a, b, k.run) && Matches(a, k)
    ensures Matches(b, k)
  {
    match k.phase
    case Claimed =>
    case Looping(_, n, calls, broken) => if !broken { TalliedFollowsRows(a, b, k.run, n, calls); }
    case Reporting(_, n, calls, step, tool, owed) =>
      TalliedFollowsRows(a, b, k.run, n + 1, if tool && !owed then calls + 1 else calls);
    case Finishing(_, out, broken) =>
      if !broken { TalliedFollowsRows(a, b, k.run, out.stepCount, out.toolCallCount); }
  }

  lemma RunToldFollowsRows(s: State, s': State, r: RunId)
    requires r in s.db.runs && RunTold(s, r) && r in s'.db.runs && s'.db.runs[r] == s.db.runs[r]
    requires SameRows(s.db.steps, s'.db.steps, r) && (r in s'.unrecorded <==> r in s.unrecorded)
    ensures RunTold(s', r)
  {
    var n: nat :| Numbered(s.db.steps, r, n);
    assert Numbered(s'.db.steps, r, n);
    var row := s.db.runs[r];
    if Terminal(row.status) && r !in s.unrecorded {
      TalliedFollowsRows(s.db.steps, s'.db.steps, r, row.stepCount, row.toolCallCount);
    }
  }

  /** A worker inside its lease works on a running run and holds its latest claim. */
  lemma LiveWorkerOwns(lease: Duration, s: State, w: WorkerId)
    requires Inv(lease, s) && Fenced(lease, s) && w in s.workers && Unexpired(s, w, lease)
    ensures Owns(s, s.workers[w])
  {
    var k := s.workers[w];
    assert WorkerOk(s, k, lease) && WorkerFenced(s, k, lease);
    assert RowOk(s.db.runs[k.run], s.now);
  }

  // ---------------------------------------------------------------- one action at a time

  /** No row moves, and every worker but `w` stays where it is. */
  lemma MoveKeepsTold(s: State, s': State, w: WorkerId)
    requires Told(s) && s'.db == s.db && s'.writer == s.writer && s'.unrecorded == s.unrecorded
    requires forall v :: v in s'.workers && v != w ==> v in s.workers && s'.workers[v] == s.workers[v]
    requires w in s'.workers && Owns(s', s'.workers[w]) ==> Matches(s'.db.steps, s'.workers[w])
    ensures Told(s')
  {
    forall r | r in s'.db.runs ensures RunTold(s', r) {
      assert RunTold(s, r);
      RunToldFollowsRows(s, s', r);
    }
    forall v | v in s'.workers && Owns(s', s'.workers[v]) ensures Matches(s'.db.steps, s'.workers[v]) {
      assert v != w ==> Owns(s, s.workers[v]);
    }
  }

  lemma CreateKeepsTold(lease: Duration, s: State, id: RunId, incident: IncidentId, enqueued: bool)
    requires Inv(lease, s) && Told(s) && id !in s.db.runs
    ensures Told(DoCreate(s, id, incident, enqueued))
  {
    var s' := DoCreate(s, id, incident, enqueued);
    if CreateRun(s.db, id, incident, s.now).Ok? {
      assert s'.db.runs == s.db.runs[id := NewRun(incident, s.now)] && s'.db.steps == s.db.steps;
      forall r | r in s'.db.runs ensures RunTold(s', r) {
        if r == id {
          assert Numbered(s'.db.steps, id, 0);
        } else {
          assert RunTold(s, r);
          RunToldFollowsRows(s, s', r);
        }
      }
      forall v | v in s'.workers && Owns(s', s'.workers[v]) ensures Matches(s'.db.steps, s'.workers[v]) {
        assert WorkerOk(s, s.workers[v], lease);
        assert Owns(s, s.workers[v]);
      }
    }
  }

  lemma DeliverKeepsTold(lease: Duration, s: State, w: WorkerId, id: RunId)
    requires Inv(lease, s) && Told(s) && w !in s.workers
    ensures Told(DoDeliver(s, w, id, lease))
  {
    var s' := DoDeliver(s, w, id, lease);
    if id in s.db.runs && Claimable(s.db.runs[id], s.now, lease) {
      assert s'.db.steps == WithoutSteps(s.db.steps, id);
      forall r | r in s'.db.runs ensures RunTold(s', r) {
        if r == id {
          assert Numbered(s'.db.steps, id, 0);
        } else {
          assert RunTold(s, r);
          RunToldFollowsRows(s, s', r);
        }
      }
      forall v | v in s'.workers && Owns(s', s'.workers[v]) ensures Matches(s'.db.steps, s'.workers[v]) {
        if v != w {
          assert WorkerOk(s, s.workers[v], lease);
          assert s.workers[v].run != id && Owns(s, s.workers[v]);
          MatchesFollowsRows(s.db.steps, s'.db.steps, s.workers[v]);
        }
      }
    }
  }

  /** The attempt's next step row goes where no row is, so the insert is never refused. */
  lemma WriteStepIsAccepted(s: State, w: WorkerId)
    requires Told(s) && w in s.workers && Owns(s, s.workers[w])
    requires s.workers[w].phase.Looping? && !s.workers[w].phase.broken
    ensures CreateStep(s.db, s.workers[w].run, s.workers[w].phase.steps + 1).Ok?
  {
    assert Matches(s.db.steps, s.workers[w]);
  }

  lemma AddedRowIsTallied(steps: map<StepKey, StepRow>, run: RunId, n: nat, calls: nat, row: StepRow)
    requires Tallied(steps, run, n, calls) && row.calls == 0
    ensures Tallied(steps[(run, n + 1) := row], run, n + 1, calls)
  {
    var after := steps[(run, n + 1) := row];
    CallsDependOnlyOnTheirRows(steps, after, run, n);
    assert Numbered(after, run, n + 1);
  }

  /** Worker `w` changes one step row of the run it owns, and the rows still match its program point. */
  lemma ChangedRowKeepsTold(s: State, s': State, w: WorkerId, n: nat, row: StepRow)
    requires ClaimsDiffer(s) && Told(s) && w in s.workers && Owns(s, s.workers[w])
    requires s'.db.runs == s.db.runs && s'.unrecorded == s.unrecorded && Pure(s')
    requires s'.db.steps == s.db.steps[(s.workers[w].run, n) := row]
    requires w in s'.workers && s'.workers == s.workers[w := s'.workers[w]]
    requires SameClaim(s.workers[w], s'.workers[w]) && Matches(s'.db.steps, s'.workers[w])
    requires HasHeight(s'.db.steps, s.workers[w].run)
    ensures Told(s')
  {
    forall r | r in s'.db.runs ensures RunTold(s', r) {
      assert RunTold(s, r);
      if r != s.workers[w].run {
        RunToldFollowsRows(s, s', r);
      }
    }
    forall v | v in s'.workers && v != w && Owns(s', s'.workers[v]) ensures Matches(s'.db.steps, s'.workers[v]) {
      assert Owns(s, s.workers[v]);
      MatchesFollowsRows(s.db.steps, s'.db.steps, s.workers[v]);
    }
  }

  /** The state after an accepted step insert, written out. */
  function StepWritten(s: State, w: WorkerId, tool: bool): State
    requires w in s.workers && s.workers[w].phase.Looping?
  {
    var k := s.workers[w];
    var p := k.phase;
    var id := s.db.nextId;
    State(Db(s.db.runs, s.db.steps[(k.run, p.steps + 1) := StepRow(id, 0)], id + 1), s.now, s.inbox,
          s.workers[w := k.(phase := Reporting(p.attempt, p.steps, p.calls, id, tool, tool))],
          s.writer[id := k.own], s.unrecorded)
  }

  lemma StepWrittenKeepsPure(s: State, w: WorkerId, tool: bool)
    requires Pure(s) && w in s.workers && Owns(s, s.workers[w]) && s.workers[w].phase.Looping?
    ensures Pure(StepWritten(s, w, tool))
  {
  }

  lemma WriteStepKeepsTold(lease: Duration, s: State, w: WorkerId, tool: bool)
    requires Inv(lease, s) && Fenced(lease, s) && Told(s) && Enabled(s, WriteStep(w, tool))
    requires Unexpired(s, w, lease)
    ensures Told(DoWriteStep(s, w, tool))
  {
    LiveWorkerOwns(lease, s, w);
    WriteStepIsAccepted(s, w);
    assert DoWriteStep(s, w, tool) == StepWritten(s, w, tool);
    StepWrittenKeepsTold(s, w, tool);
  }

  lemma StepWrittenKeepsTold(s: State, w: WorkerId, tool: bool)
    requires ClaimsDiffer(s) && Told(s) && Enabled(s, WriteStep(w, tool)) && Owns(s, s.workers[w])
    ensures Told(StepWritten(s, w, tool))
  {
    var k := s.workers[w];
    var p := k.phase;
    var row := StepRow(s.db.nextId, 0);
    assert Matches(s.db.steps, k);
    AddedRowIsTallied(s.db.steps, k.run, p.steps, p.calls, row);
    StepWrittenKeepsPure(s, w, tool);
    ChangedRowKeepsTold(s, StepWritten(s, w, tool), w, p.steps + 1, row);
  }

  lemma AddedCallIsTallied(steps: map<StepKey, StepRow>, run: RunId, n: nat, calls: nat, row: StepRow)
    requires Tallied(steps, run, n + 1, calls) && row.calls == steps[(run, n + 1)].calls + 1
    ensures Tallied(steps[(run, n + 1) := row], run, n + 1, calls + 1)
  {
    var after := steps[(run, n + 1) := row];
    CallsDependOnlyOnTheirRows(steps, after, run, n);
    assert Numbered(after, run, n + 1);
  }

  /** The step row this attempt wrote is still there, so the foreign key is satisfied. */
  lemma WriteToolCallIsAccepted(s: State, w: WorkerId)
    requires Told(s) && w in s.workers && Owns(s, s.workers[w]) && s.workers[w].phase.Reporting?
    ensures CreateToolCall(s.db, s.workers[w].run, s.workers[w].phase.steps + 1, s.workers[w].phase.step).Ok?
  {
    assert Matches(s.db.steps, s.workers[w]);
  }

  /** The state after an accepted tool call insert, written out. */
  function ToolCallWritten(s: State, w: WorkerId): State
    requires w in s.workers && s.workers[w].phase.Reporting?
    requires (s.workers[w].run, s.workers[w].phase.steps + 1) in s.db.steps
  {
    var k := s.workers[w];
    var p := k.phase;
    var row := s.db.steps[(k.run, p.steps + 1)];
    State(Db(s.db.runs, s.db.steps[(k.run, p.steps + 1) := StepRow(row.id, row.calls + 1)], s.db.nextId),
          s.now, s.inbox,
          s.workers[w := k.(phase := Reporting(p.attempt, p.steps, p.calls, p.step, p.tool, false))],
          s.writer, s.unrecorded)
  }

  lemma ToolCallWrittenKeepsPure(s: State, w: WorkerId)
    requires Pure(s) && w in s.workers && s.workers[w].phase.Reporting?
    requires (s.workers[w].run, s.workers[w].phase.steps + 1) in s.db.steps
    ensures Pure(ToolCallWritten(s, w))
  {
  }

  lemma ToolCallWrittenMatches(s: State, w: WorkerId)
    requires Enabled(s, WriteToolCall(w)) && Matches(s.db.steps, s.workers[w])
    requires (s.workers[w].run, s.workers[w].phase.steps + 1) in s.db.steps
    ensures var s' := ToolCallWritten(s, w);
            HasHeight(s'.db.steps, s.workers[w].run) && Matches(s'.db.steps, s'.workers[w])
  {
    hide Calls, Numbered;
    var k := s.workers[w];
    var p := k.phase;
    var row := s.db.steps[(k.run, p.steps + 1)];
    AddedCallIsTallied(s.db.steps, k.run, p.steps, p.calls, StepRow(row.id, row.calls + 1));
  }

  lemma ToolCallWrittenKeepsTold(s: State, w: WorkerId)
    requires ClaimsDiffer(s) && Told(s) && Enabled(s, WriteToolCall(w)) && Owns(s, s.workers[w])
    requires (s.workers[w].run, s.workers[w].phase.steps + 1) in s.db.steps
    ensures Told(ToolCallWritten(s, w))
  {
    hide Matches, HasHeight, RunTold, Pure, ClaimsDiffer, Calls, Numbered;
    var k := s.workers[w];
    var row := s.db.steps[(k.run, k.phase.steps + 1)];
    assert Matches(s.db.steps, k);
    ToolCallWrittenKeepsPure(s, w);
    ToolCallWrittenMatches(s, w);
    ChangedRowKeepsTold(s, ToolCallWritten(s, w), w, k.phase.steps + 1, StepRow(row.id, row.calls + 1));
  }

  lemma WriteToolCallKeepsTold(lease: Duration, s: State, w: WorkerId)
    requires Inv(lease, s) && Fenced(lease, s) && Told(s) && Enabled(s, WriteToolCall(w))
    requires Unexpired(s, w, lease)
    ensures Told(DoWriteToolCall(s, w))
  {
    hide Inv, Fenced, Told, Owns, DoWriteToolCall, ToolCallWritten;
    LiveWorkerOwns(lease, s, w);
    InvGivesClaims(lease, s);
    WriteToolCallIsAccepted(s, w);
    AcceptedToolCallIsWritten(s, w);
    ToolCallWrittenKeepsTold(s, w);
  }

  lemma InvGivesClaims(lease: Duration, s: State)
    requires Inv(lease, s)
    ensures ClaimsDiffer(s)
  {
    hide ClaimsDiffer;
  }

  lemma AcceptedToolCallIsWritten(s: State, w: WorkerId)
    requires w in s.workers && s.workers[w].phase.Reporting?
    requires CreateToolCall(s.db, s.workers[w].run, s.workers[w].phase.steps + 1, s.workers[w].phase.step).Ok?
    ensures (s.workers[w].run, s.workers[w].phase.steps + 1) in s.db.steps && DoWriteToolCall(s, w) == ToolCallWritten(s, w)
  {
  }

  lemma FinishKeepsTold(lease: Duration, s: State, w: WorkerId)
    requires Inv(lease, s) && Fenced(lease, s) && Told(s) && Enabled(s, Finish(w))
    requires Unexpired(s, w, lease)
    ensures Told(DoFinish(s, w))
  {
    LiveWorkerOwns(lease, s, w);
    var k := s.workers[w];
    assert WorkerOk(s, k, lease) && WorkerFenced(s, k, lease) && Matches(s.db.steps, k);
    var s' := DoFinish(s, w);
    assert s'.db.runs == s.db.runs[k.run := FinishedRow(s.db.runs[k.run], k.phase.out, s.now)];
    assert Pure(s');
    forall r | r in s'.db.runs ensures RunTold(s', r) {
      assert RunTold(s, r);
      if r != k.run {
        RunToldFollowsRows(s, s', r);
      }
    }
    forall v | v in s'.workers && Owns(s', s'.workers[v]) ensures Matches(s'.db.steps, s'.workers[v]) {
      assert Owns(s, s.workers[v]);
    }
  }

  lemma HandlerStepKeepsTold(lease: Duration, s: State, a: Action)
    requires Told(s) && Enabled(s, a)
    requires a.ReadBack? || a.EndReport? || a.FailReport? || a.Decide?
    ensures Told(Apply(lease, s, a))
  {
    var s' := Apply(lease, s, a);
    var k := s.workers[a.w];
    if Owns(s, k) {
      assert Matches(s.db.steps, k);
    }
    MoveKeepsTold(s, s', a.w);
  }

  lemma BystanderKeepsTold(lease: Duration, s: State, a: Action)
    requires Told(s) && Enabled(s, a) && (a.Enqueue? || a.Commit? || a.Stop? || a.Tick?)
    ensures Told(Apply(lease, s, a))
  {
    var s' := Apply(lease, s, a);
    forall r | r in s'.db.runs ensures RunTold(s', r) {
      assert RunTold(s, r);
    }
    forall v | v in s'.workers && Owns(s', s'.workers[v]) ensures Matches(s'.db.steps, s'.workers[v]) {
      assert Owns(s, s.workers[v]);
    }
  }

  lemma NextKeepsTold(lease: Duration, s: State, a: Action)
    requires Inv(lease, s) && Fenced(lease, s) && Told(s) && Enabled(s, a) && WritesInLease(lease, s, a)
    ensures Told(Apply(lease, s, a))
  {
    match a
    case Create(id, incident, enqueued) => CreateKeepsTold(lease, s, id, incident, enqueued);
    case Deliver(w, id) => DeliverKeepsTold(lease, s, w, id);
    case WriteStep(w, tool) => WriteStepKeepsTold(lease, s, w, tool);
    case WriteToolCall(w) => WriteToolCallKeepsTold(lease, s, w);
    case Finish(w) => FinishKeepsTold(lease, s, w);
    case _ =>
      if a.ReadBack? || a.EndReport? || a.FailReport? || a.Decide? {
        HandlerStepKeepsTold(lease, s, a);
      } else {
        BystanderKeepsTold(lease, s, a);
      }
  }

  // ---------------------------------------------------------------- over whole behaviours

  /** Every attempt's reads and writes end within its lease. */
  ghost predicate AttemptsEndInLease(lease: Duration, b: seq<State>, acts: seq<Action>)
    requires |b| == |acts| + 1
  {
    forall i :: 0 <= i < |acts| ==> WritesInLease(lease, b[i], acts[i])
  }

  lemma TimelyAttemptsReadBackInLease(lease: Duration, b: seq<State>, acts: seq<Action>)
    requires |b| == |acts| + 1 && AttemptsEndInLease(lease, b, acts)
    ensures ReadBacksInLease(lease, b, acts)
  {
    forall j | 0 <= j < |acts| ensures ReadBackInLease(lease, b[j], acts[j]) {
      assert WritesInLease(lease, b[j], acts[j]);
    }
  }

  lemma NothingToTell(s: State)
    requires Init(s)
    ensures Told(s)
  {
  }

  lemma {:induction false} ReachableTold(lease: Duration, b: seq<State>, acts: seq<Action>, i: nat)
    requires Behavior(lease, b, acts) && AttemptsEndInLease(lease, b, acts) && i < |b|
    ensures Told(b[i])
  {
    hide Enabled, Apply, Inv, Fenced, Told, WritesInLease, ReadBackInLease;
    if i == 0 {
      NothingToTell(b[0]);
    } else {
      ReachableTold(lease, b, acts, i - 1);
      ReachableInv(lease, b, acts, i - 1);
      TimelyAttemptsReadBackInLease(lease, b, acts);
      ReachableFenced(lease, b, acts, i - 1);
      assert Next(lease, b[i - 1], acts[i - 1], b[i]) && WritesInLease(lease, b[i - 1], acts[i - 1]);
      NextKeepsTold(lease, b[i - 1], acts[i - 1]);
    }
  }

  /** In every reachable state a run's step rows are its current attempt's, numbered 1..n with no gap. */
  lemma TimelineIsPure(lease: Duration, b: seq<State>, acts: seq<Action>, i: nat, r: RunId)
    requires Behavior(lease, b, acts) && AttemptsEndInLease(lease, b, acts) && i < |b|
    requires r in b[i].db.runs
    ensures exists n: nat :: Numbered(b[i].db.steps, r, n)
    ensures forall k: nat :: (r, k) in b[i].db.steps ==>
      b[i].db.steps[(r, k)].id in b[i].writer
      && b[i].writer[b[i].db.steps[(r, k)].id] == b[i].db.runs[r].attempts
  {
    ReachableTold(lease, b, acts, i);
    assert RunTold(b[i], r);
  }

  /** No insert ever collides on (run, step number), and no tool call ever loses its step. */
  lemma NoReportWriteIsRefused(lease: Duration, b: seq<State>, acts: seq<Action>, i: nat)
    requires Behavior(lease, b, acts) && AttemptsEndInLease(lease, b, acts) && i < |acts|
    requires acts[i].WriteStep? || acts[i].WriteToolCall?
    ensures acts[i].w in b[i].workers
    ensures var k := b[i].workers[acts[i].w];
            if acts[i].WriteStep? then
              k.phase.Looping? && CreateStep(b[i].db, k.run, k.phase.steps + 1).Ok?
            else
              k.phase.Reporting? && CreateToolCall(b[i].db, k.run, k.phase.steps + 1, k.phase.step).Ok?
  {
    ReachableTold(lease, b, acts, i);
    ReachableInv(lease, b, acts, i);
    TimelyAttemptsReadBackInLease(lease, b, acts);
    ReachableFenced(lease, b, acts, i);
    assert Next(lease, b[i], acts[i], b[i + 1]) && WritesInLease(lease, b[i], acts[i]);
    LiveWorkerOwns(lease, b[i], acts[i].w);
    if acts[i].WriteStep? {
      WriteStepIsAccepted(b[i], acts[i].w);
    } else {
      WriteToolCallIsAccepted(b[i], acts[i].w);
    }
  }

  /** Unless a report failed, a terminal row's counters are the rows under it. */
  lemma TerminalCountersAreExact(lease: Duration, b: seq<State>, acts: seq<Action>, i: nat, r: RunId)
    requires Behavior(lease, b, acts) && AttemptsEndInLease(lease, b, acts) && i < |b|
    requires r in b[i].db.runs && Terminal(b[i].db.runs[r].status) && r !in b[i].unrecorded
    ensures Numbered(b[i].db.steps, r, b[i].db.runs[r].stepCount)
    ensures Calls(b[i].db.steps, r, b[i].db.runs[r].stepCount) == b[i].db.runs[r].toolCallCount
  {
    ReachableTold(lease, b, acts, i);
    assert RunTold(b[i], r);
  }
}
