/**
  The life of a run across processes: the API creates it, messages are delivered at least once,
  workers claim, read the row back, write steps and finish, any of them may stop at any point, and
  a sweep re-enqueues what looks stuck (internal/agentrun/agentrun.go, internal/agentrun/report.go,
  internal/mq/consumer.go). One action is one statement or one message operation; everything else
  may happen between two of them.
*/
module RunProtocol {
  import opened Prelude
  import opened RunRows

  type WorkerId = nat

  /**
    Where a worker is in Handle. Only `attempt` is what the worker itself knows: it is the attempt
    count it read back after its claim.
  */
  datatype Phase =
    | Claimed
    | Looping(attempt: nat, steps: nat, calls: nat, broken: bool)
    | Reporting(attempt: nat, steps: nat, calls: nat, step: StepId, tool: bool, callOwed: bool)
    | Finishing(attempt: nat, out: RunOutcome, broken: bool)

  /** `own` and `since` record what the claim wrote, for the statement of the properties. */
  datatype Worker = Worker(run: RunId, own: nat, since: Time, phase: Phase)

  /**
    `writer` and `unrecorded` are history: the attempt that wrote each step row, and the runs whose
    finishing attempt had a report fail.
  */
  datatype State = State(
    db: Db,
    now: Time,
    inbox: multiset<RunId>,
    workers: map<WorkerId, Worker>,
    writer: map<StepId, nat>,
    unrecorded: set<RunId>)

  datatype Action =
    | Create(id: RunId, incident: IncidentId, enqueued: bool)
    | Enqueue(id: RunId)
    | Deliver(w: WorkerId, id: RunId)
    | Commit(id: RunId)
    | ReadBack(w: WorkerId)
    | WriteStep(w: WorkerId, tool: bool)
    | WriteToolCall(w: WorkerId)
    | EndReport(w: WorkerId)
    | FailReport(w: WorkerId)
    | Decide(w: WorkerId, out: RunOutcome)
    | Finish(w: WorkerId)
    | Stop(w: WorkerId)
    | Tick(elapsed: nat)

  ghost predicate Init(s: State) {
    && s.db.runs == map[]
    && s.db.steps == map[]
    && s.inbox == multiset{}
    && s.workers == map[]
    && s.unrecorded == {}
  }

  // ---------------------------------------------------------------- the actions

  /** A worker reaches another program point. */
  function Moved(s: State, w: WorkerId, phase: Phase): State
    requires w in s.workers
  {
    s.(workers := s.workers[w := s.workers[w].(phase := phase)])
  }

  /** CreateRun, then a produce that may be lost. */
  function DoCreate(s: State, id: RunId, incident: IncidentId, enqueued: bool): State {
    match CreateRun(s.db, id, incident, s.now)
    case Err(_) => s
    case Ok(db) => s.(db := db, inbox := if enqueued then s.inbox + multiset{id} else s.inbox)
  }

  /** A message reaches an idle worker, which claims. The offset is committed separately. */
  function DoDeliver(s: State, w: WorkerId, id: RunId, lease: Duration): State {
    var (db, claimed) := ClaimRun(s.db, id, s.now, lease);
    if claimed then
      s.(db := db, workers := s.workers[w := Worker(id, db.runs[id].attempts, s.now, Claimed)])
    else s
  }

  /** GetRun after the claim: the attempt count is whatever the row holds by then. */
  function DoReadBack(s: State, w: WorkerId): State
    requires w in s.workers && s.workers[w].run in s.db.runs
  {
    Moved(s, w, Looping(s.db.runs[s.workers[w].run].attempts, 0, 0, false))
  }

  /** CreateStep. A refused insert ends the loop like any other failed report. */
  function DoWriteStep(s: State, w: WorkerId, tool: bool): State
    requires w in s.workers && s.workers[w].phase.Looping?
  {
    var k := s.workers[w];
    var p := k.phase;
    var r := CreateStep(s.db, k.run, p.steps + 1);
    if r.Err? then Moved(s, w, Looping(p.attempt, p.steps, p.calls, true))
    else
      var id := s.db.nextId;
      Moved(s.(db := r.value, writer := s.writer[id := k.own]), w,
            Reporting(p.attempt, p.steps, p.calls, id, tool, tool))
  }

  function DoWriteToolCall(s: State, w: WorkerId): State
    requires w in s.workers && s.workers[w].phase.Reporting?
  {
    var k := s.workers[w];
    var p := k.phase;
    var r := CreateToolCall(s.db, k.run, p.steps + 1, p.step);
    if r.Err? then Moved(s, w, Looping(p.attempt, p.steps, p.calls, true))
    else Moved(s.(db := r.value), w, Reporting(p.attempt, p.steps, p.calls, p.step, p.tool, false))
  }

  function DoEndReport(s: State, w: WorkerId): State
    requires w in s.workers && s.workers[w].phase.Reporting?
  {
    var p := s.workers[w].phase;
    Moved(s, w, Looping(p.attempt, p.steps + 1, if p.tool then p.calls + 1 else p.calls, false))
  }

  /** Any other write of a report fails: the step row, the tool call row or an evidence row. */
  function DoFailReport(s: State, w: WorkerId): State
    requires w in s.workers && (s.workers[w].phase.Looping? || s.workers[w].phase.Reporting?)
  {
    var p := s.workers[w].phase;
    Moved(s, w, Looping(p.attempt, p.steps, p.calls, true))
  }

  function DoFinish(s: State, w: WorkerId): State
    requires w in s.workers && s.workers[w].phase.Finishing?
  {
    var k := s.workers[w];
    var p := k.phase;
    var (db, written) := FinishRun(s.db, k.run, p.attempt, p.out, s.now);
    s.(db := db,
       workers := s.workers - {w},
       unrecorded := if written && p.broken then s.unrecorded + {k.run} else s.unrecorded)
  }

  /** The loop's verdict counts the steps it recorded, and a failed report always fails the run. */
  predicate MayDecide(p: Phase, out: RunOutcome) {
    && p.Looping?
    && Terminal(out.status)
    && out.stepCount == p.steps
    && (p.broken ==> out.status.Failed?)
    && (!p.broken ==> out.toolCallCount == p.calls)
  }

  function DoDecide(s: State, w: WorkerId, out: RunOutcome): State
    requires w in s.workers && s.workers[w].phase.Looping?
  {
    var p := s.workers[w].phase;
    Moved(s, w, Finishing(p.attempt, out, p.broken))
  }

  predicate Enabled(s: State, a: Action) {
    match a
    case Create(id, _, _) => id !in s.db.runs
    case Enqueue(id) => id in s.db.runs
    case Deliver(w, id) => w !in s.workers && id in s.inbox
    case Commit(id) => id in s.inbox
    case ReadBack(w) => w in s.workers && s.workers[w].phase.Claimed? && s.workers[w].run in s.db.runs
    case WriteStep(w, _) => w in s.workers && s.workers[w].phase.Looping? && !s.workers[w].phase.broken
    case WriteToolCall(w) => w in s.workers && s.workers[w].phase.Reporting? && s.workers[w].phase.callOwed
    case EndReport(w) => w in s.workers && s.workers[w].phase.Reporting? && !s.workers[w].phase.callOwed
    case FailReport(w) => w in s.workers &&
      ((s.workers[w].phase.Looping? && !s.workers[w].phase.broken) || s.workers[w].phase.Reporting?)
    case Decide(w, out) => w in s.workers && MayDecide(s.workers[w].phase, out)
    case Finish(w) => w in s.workers && s.workers[w].phase.Finishing?
    case Stop(w) => w in s.workers
    case Tick(_) => true
  }

  function Apply(lease: Duration, s: State, a: Action): State
    requires Enabled(s, a)
  {
    match a
    case Create(id, incident, enqueued) => DoCreate(s, id, incident, enqueued)
    case Enqueue(id) => s.(inbox := s.inbox + multiset{id})
    case Deliver(w, id) => DoDeliver(s, w, id, lease)
    case Commit(id) => s.(inbox := s.inbox - multiset{id})
    case ReadBack(w) => DoReadBack(s, w)
    case WriteStep(w, tool) => DoWriteStep(s, w, tool)
    case WriteToolCall(w) => DoWriteToolCall(s, w)
    case EndReport(w) => DoEndReport(s, w)
    case FailReport(w) => DoFailReport(s, w)
    case Decide(w, out) => DoDecide(s, w, out)
    case Finish(w) => DoFinish(s, w)
    case Stop(w) => s.(workers := s.workers - {w})
    case Tick(elapsed) => s.(now := s.now + elapsed)
  }

  ghost predicate Next(lease: Duration, s: State, a: Action, s': State) {
    Enabled(s, a) && s' == Apply(lease, s, a)
  }

  /** A finite run of the whole system. */
  ghost predicate Behavior(lease: Duration, b: seq<State>, acts: seq<Action>) {
    && |b| == |acts| + 1
    && Init(b[0])
    && forall i :: 0 <= i < |acts| ==> Next(lease, b[i], acts[i], b[i + 1])
  }

  // ---------------------------------------------------------------- the timing hypotheses

  predicate Unexpired(s: State, w: WorkerId, lease: Duration)
    requires w in s.workers
  {
    s.now <= s.workers[w].since + lease
  }

  /** The row is read back before this claim's own lease is over. */
  predicate ReadBackInLease(lease: Duration, s: State, a: Action) {
    a.ReadBack? && a.w in s.workers ==> Unexpired(s, a.w, lease)
  }

  /** Everything an attempt writes, it writes before its lease is over. */
  predicate WritesInLease(lease: Duration, s: State, a: Action) {
    && ReadBackInLease(lease, s, a)
    && ((a.WriteStep? || a.WriteToolCall? || a.Finish?) && a.w in s.workers ==> Unexpired(s, a.w, lease))
  }

  // ---------------------------------------------------------------- what every behaviour keeps

  ghost predicate RowOk(row: Run, now: Time) {
    && (row.status.Pending? ==> row.attempts == 0)
    && (row.status.Running? ==> row.startedAt.Some? && row.startedAt.value <= now && row.attempts >= 1)
    && (row.startedAt.Some? ==> row.startedAt.value <= now)
  }

  ghost predicate RowsOk(s: State) {
    forall r :: r in s.db.runs ==> RowOk(s.db.runs[r], s.now)
  }

  ghost predicate WorkerOk(s: State, k: Worker, lease: Duration) {
    && k.run in s.db.runs
    && 1 <= k.own <= s.db.runs[k.run].attempts
    && k.since <= s.now
    && (k.phase.Finishing? ==> Terminal(k.phase.out.status))
    && (s.db.runs[k.run].status.Running? ==>
          if k.own == s.db.runs[k.run].attempts then s.db.runs[k.run].startedAt == Some(k.since)
          else k.since + lease < s.now && k.since + lease < s.db.runs[k.run].startedAt.GetOr(s.now))
  }

  ghost predicate WorkersOk(lease: Duration, s: State) {
    forall w :: w in s.workers ==> WorkerOk(s, s.workers[w], lease)
  }

  /** No two workers made the same claim. */
  ghost predicate ClaimsDiffer(s: State) {
    forall w, v :: w in s.workers && v in s.workers && w != v ==>
      s.workers[w].run != s.workers[v].run || s.workers[w].own != s.workers[v].own
  }

  ghost predicate Inv(lease: Duration, s: State) {
    && OneActiveRun(s.db)
    && RowsOk(s)
    && (forall r :: r in s.inbox ==> r in s.db.runs)
    && WorkersOk(lease, s)
    && ClaimsDiffer(s)
  }

  predicate SameClaim(k: Worker, k': Worker) {
    k.run == k'.run && k.own == k'.own && k.since == k'.since
  }

  /** Neither a row of agent_runs nor a claim moves. */
  ghost predicate Quiet(s: State, s': State) {
    && s'.db.runs == s.db.runs && s.now <= s'.now
    && (forall r :: r in s'.inbox ==> r in s.inbox || r in s.db.runs)
    && forall w :: w in s'.workers ==> w in s.workers && QuietMove(s.workers[w], s'.workers[w])
  }

  predicate QuietMove(k: Worker, k': Worker) {
    && SameClaim(k', k)
    && (k'.phase.Finishing? ==> k == k' || Terminal(k'.phase.out.status))
    && (!k.phase.Claimed? ==> !k'.phase.Claimed? && k'.phase.attempt == k.phase.attempt)
  }

  ghost predicate NoReadBack(s: State, s': State) {
    forall w :: w in s'.workers && w in s.workers && s.workers[w].phase.Claimed? ==> s'.workers[w].phase.Claimed?
  }

  /** The report's actions, and those that make no write, are quiet. */
  lemma ReportIsQuiet(lease: Duration, s: State, a: Action)
    requires Enabled(s, a) && (a.WriteStep? || a.WriteToolCall? || a.EndReport? || a.FailReport?)
    ensures Quiet(s, Apply(lease, s, a)) && NoReadBack(s, Apply(lease, s, a))
  {
  }

  lemma MovedIsQuiet(s: State, w: WorkerId, phase: Phase)
    requires w in s.workers && QuietMove(s.workers[w], s.workers[w].(phase := phase))
    ensures Quiet(s, Moved(s, w, phase))
    ensures !s.workers[w].phase.Claimed? ==> NoReadBack(s, Moved(s, w, phase))
  {
  }

  lemma HandlerMovesQuietly(lease: Duration, s: State, a: Action)
    requires Enabled(s, a) && (a.ReadBack? || a.Decide?)
    ensures Quiet(s, Apply(lease, s, a)) && (a.Decide? ==> NoReadBack(s, Apply(lease, s, a)))
  {
    hide Quiet, NoReadBack;
    var k := s.workers[a.w];
    if a.ReadBack? {
      MovedIsQuiet(s, a.w, Looping(s.db.runs[k.run].attempts, 0, 0, false));
    } else {
      MovedIsQuiet(s, a.w, Finishing(k.phase.attempt, a.out, k.phase.broken));
    }
  }

  lemma HandlerIsQuiet(lease: Duration, s: State, a: Action)
    requires Enabled(s, a) && (a.Enqueue? || a.Commit? || a.ReadBack? || a.Decide? || a.Stop? || a.Tick?)
    ensures Quiet(s, Apply(lease, s, a)) && (!a.ReadBack? ==> NoReadBack(s, Apply(lease, s, a)))
  {
    if a.ReadBack? || a.Decide? {
      HandlerMovesQuietly(lease, s, a);
    } else {
      hide DoCreate, DoDeliver, DoReadBack, DoWriteStep, DoWriteToolCall, DoEndReport, DoFailReport, DoDecide, DoFinish;
    }
  }

  lemma QuietStepKeepsInv(lease: Duration, s: State, s': State)
    requires Inv(lease, s) && Quiet(s, s')
    ensures Inv(lease, s')
  {
    forall w | w in s'.workers ensures WorkerOk(s', s'.workers[w], lease) {
      assert WorkerOk(s, s.workers[w], lease) && QuietMove(s.workers[w], s'.workers[w]);
    }
    assert RowsOk(s') by {
      forall r | r in s'.db.runs ensures RowOk(s'.db.runs[r], s'.now) {
        assert RowOk(s.db.runs[r], s.now);
      }
    }
    assert ClaimsDiffer(s') by {
      forall w, v | w in s'.workers && v in s'.workers && w != v
        ensures s'.workers[w].run != s'.workers[v].run || s'.workers[w].own != s'.workers[v].own
      {
        assert QuietMove(s.workers[w], s'.workers[w]) && QuietMove(s.workers[v], s'.workers[v]);
      }
    }
  }

  lemma CreateKeepsInv(lease: Duration, s: State, id: RunId, incident: IncidentId, enqueued: bool)
    requires Inv(lease, s) && id !in s.db.runs
    ensures Inv(lease, DoCreate(s, id, incident, enqueued))
  {
    var s' := DoCreate(s, id, incident, enqueued);
    CreateKeepsOneActiveRun(s.db, id, incident, s.now);
    forall w | w in s'.workers ensures WorkerOk(s', s'.workers[w], lease) {
      assert WorkerOk(s, s.workers[w], lease);
    }
    assert RowsOk(s') by {
      forall r | r in s'.db.runs && r in s.db.runs ensures RowOk(s'.db.runs[r], s'.now) {
        assert RowOk(s.db.runs[r], s.now);
      }
    }
  }

  lemma DeliverKeepsRows(lease: Duration, s: State, w: WorkerId, id: RunId)
    requires RowsOk(s)
    ensures RowsOk(DoDeliver(s, w, id, lease))
  {
    var s' := DoDeliver(s, w, id, lease);
    forall r | r in s'.db.runs ensures RowOk(s'.db.runs[r], s'.now) {
      assert RowOk(s.db.runs[r], s.now);
    }
  }

  lemma DeliverKeepsWorkers(lease: Duration, s: State, w: WorkerId, id: RunId)
    requires RowsOk(s) && WorkersOk(lease, s) && w !in s.workers
    ensures WorkersOk(lease, DoDeliver(s, w, id, lease))
  {
    var s' := DoDeliver(s, w, id, lease);
    if s' != s {
      assert RowOk(s.db.runs[id], s.now);
      forall v | v in s.workers ensures WorkerOk(s', s.workers[v], lease) {
        assert WorkerOk(s, s.workers[v], lease);
      }
    }
  }

  lemma DeliverKeepsClaims(lease: Duration, s: State, w: WorkerId, id: RunId)
    requires WorkersOk(lease, s) && ClaimsDiffer(s) && w !in s.workers
    ensures ClaimsDiffer(DoDeliver(s, w, id, lease))
  {
    var s' := DoDeliver(s, w, id, lease);
    if s' != s {
      forall v | v in s.workers && s.workers[v].run == id ensures s.workers[v].own < s'.workers[w].own {
        assert WorkerOk(s, s.workers[v], lease);
      }
    }
  }

  lemma DeliverKeepsInv(lease: Duration, s: State, w: WorkerId, id: RunId)
    requires Inv(lease, s) && w !in s.workers
    ensures Inv(lease, DoDeliver(s, w, id, lease))
  {
    hide RowsOk, WorkersOk, ClaimsDiffer, OneActiveRun;
    DeliverKeepsRows(lease, s, w, id);
    DeliverKeepsWorkers(lease, s, w, id);
    DeliverKeepsClaims(lease, s, w, id);
    ClaimKeepsOneActiveRun(s.db, id, s.now, lease);
  }

  lemma CreateKeepsOneActiveRun(db: Db, id: RunId, incident: IncidentId, t: Time)
    requires OneActiveRun(db)
    ensures CreateRun(db, id, incident, t).Ok? ==> OneActiveRun(CreateRun(db, id, incident, t).value)
  {
  }

  lemma ClaimKeepsOneActiveRun(db: Db, id: RunId, t: Time, lease: Duration)
    requires OneActiveRun(db)
    ensures OneActiveRun(ClaimRun(db, id, t, lease).0)
  {
  }

  lemma FinishKeepsInv(lease: Duration, s: State, w: WorkerId)
    requires Inv(lease, s) && w in s.workers && s.workers[w].phase.Finishing?
    ensures Inv(lease, DoFinish(s, w))
  {
    var s' := DoFinish(s, w);
    var id := s.workers[w].run;
    assert WorkerOk(s, s.workers[w], lease);
    forall v | v in s'.workers ensures WorkerOk(s', s'.workers[v], lease) {
      assert WorkerOk(s, s.workers[v], lease);
    }
    assert RowsOk(s') by {
      forall r | r in s'.db.runs ensures RowOk(s'.db.runs[r], s'.now) {
        assert RowOk(s.db.runs[r], s.now);
      }
    }
  }

  lemma NextKeepsInv(lease: Duration, s: State, a: Action)
    requires Inv(lease, s) && Enabled(s, a)
    ensures Inv(lease, Apply(lease, s, a))
  {
    match a
    case Create(id, incident, enqueued) => CreateKeepsInv(lease, s, id, incident, enqueued);
    case Deliver(w, id) => DeliverKeepsInv(lease, s, w, id);
    case Finish(w) => FinishKeepsInv(lease, s, w);
    case _ =>
      if a.WriteStep? || a.WriteToolCall? || a.EndReport? || a.FailReport? {
        ReportIsQuiet(lease, s, a);
      } else {
        HandlerIsQuiet(lease, s, a);
      }
      QuietStepKeepsInv(lease, s, Apply(lease, s, a));
  }

  lemma {:induction false} ReachableInv(lease: Duration, b: seq<State>, acts: seq<Action>, i: nat)
    requires Behavior(lease, b, acts) && i < |b|
    ensures Inv(lease, b[i])
  {
    if i == 0 {
    } else {
      ReachableInv(lease, b, acts, i - 1);
      assert Next(lease, b[i - 1], acts[i - 1], b[i]);
      NextKeepsInv(lease, b[i - 1], acts[i - 1]);
    }
  }

  /** However the processes interleave, an incident never has two runs in flight. */
  lemma OneActiveRunPerIncident(lease: Duration, b: seq<State>, acts: seq<Action>, i: nat, r: RunId, q: RunId)
    requires Behavior(lease, b, acts) && i < |b|
    requires r in b[i].db.runs && q in b[i].db.runs && r != q
    requires b[i].db.runs[r].incident == b[i].db.runs[q].incident
    ensures Terminal(b[i].db.runs[r].status) || Terminal(b[i].db.runs[q].status)
  {
    ReachableInv(lease, b, acts, i);
  }

  /** A terminal row is never written again, whoever is still working on the run. */
  lemma {:induction false} TerminalRowsAreFinal(lease: Duration, b: seq<State>, acts: seq<Action>, i: nat, j: nat, r: RunId)
    requires Behavior(lease, b, acts) && i <= j < |b|
    requires r in b[i].db.runs && Terminal(b[i].db.runs[r].status)
    ensures r in b[j].db.runs && b[j].db.runs[r] == b[i].db.runs[r]
    decreases j
  {
    if i == j {
    } else {
      TerminalRowsAreFinal(lease, b, acts, i, j - 1, r);
      assert Next(lease, b[j - 1], acts[j - 1], b[j]);
    }
  }

  ghost predicate TurnsTerminal(s: State, s': State, r: RunId) {
    r in s.db.runs && r in s'.db.runs && !Terminal(s.db.runs[r].status) && Terminal(s'.db.runs[r].status)
  }

  /** A run turns terminal at most once, and only through a finish carrying its current attempt. */
  lemma TurnsTerminalAtMostOnce(lease: Duration, b: seq<State>, acts: seq<Action>, i: nat, j: nat, r: RunId)
    requires Behavior(lease, b, acts) && i < |acts| && j < |acts|
    requires TurnsTerminal(b[i], b[i + 1], r) && TurnsTerminal(b[j], b[j + 1], r)
    ensures i == j
    ensures acts[i].Finish? && acts[i].w in b[i].workers
    ensures var k := b[i].workers[acts[i].w];
            k.run == r && k.phase.Finishing? && k.phase.attempt == b[i].db.runs[r].attempts
  {
    assert Next(lease, b[i], acts[i], b[i + 1]);
    if i < j {
      TerminalRowsAreFinal(lease, b, acts, i + 1, j, r);
    } else if j < i {
      TerminalRowsAreFinal(lease, b, acts, j + 1, i, r);
    }
  }

  // ---------------------------------------------------------------- fencing

  /** A worker knows the attempt its own claim wrote, and no live worker is on a terminal run. */
  ghost predicate WorkerFenced(s: State, k: Worker, lease: Duration) {
    && (!k.phase.Claimed? ==> k.phase.attempt == k.own)
    && (k.run in s.db.runs && Terminal(s.db.runs[k.run].status) ==> k.since + lease < s.now)
  }

  ghost predicate Fenced(lease: Duration, s: State) {
    forall w :: w in s.workers ==> WorkerFenced(s, s.workers[w], lease)
  }

  lemma QuietStepKeepsFenced(lease: Duration, s: State, s': State)
    requires Fenced(lease, s) && Quiet(s, s') && NoReadBack(s, s')
    ensures Fenced(lease, s')
  {
    forall w | w in s'.workers ensures WorkerFenced(s', s'.workers[w], lease) {
      assert WorkerFenced(s, s.workers[w], lease) && QuietMove(s.workers[w], s'.workers[w]);
    }
  }

  lemma DeliverKeepsFenced(lease: Duration, s: State, w: WorkerId, id: RunId)
    requires Inv(lease, s) && Fenced(lease, s) && w !in s.workers
    ensures Fenced(lease, DoDeliver(s, w, id, lease))
  {
    var s' := DoDeliver(s, w, id, lease);
    forall v | v in s.workers ensures WorkerFenced(s', s.workers[v], lease) {
      assert WorkerFenced(s, s.workers[v], lease);
    }
  }

  lemma FinishKeepsFenced(lease: Duration, s: State, w: WorkerId)
    requires Inv(lease, s) && Fenced(lease, s) && w in s.workers && s.workers[w].phase.Finishing?
    ensures Fenced(lease, DoFinish(s, w))
  {
    var s' := DoFinish(s, w);
    forall v | v in s'.workers ensures WorkerFenced(s', s'.workers[v], lease) {
      assert WorkerFenced(s, s.workers[v], lease) && WorkerFenced(s, s.workers[w], lease);
      assert WorkerOk(s, s.workers[v], lease);
    }
  }

  lemma CreateKeepsFenced(lease: Duration, s: State, id: RunId, incident: IncidentId, enqueued: bool)
    requires Inv(lease, s) && Fenced(lease, s) && id !in s.db.runs
    ensures Fenced(lease, DoCreate(s, id, incident, enqueued))
  {
    var s' := DoCreate(s, id, incident, enqueued);
    forall v | v in s'.workers ensures WorkerFenced(s', s'.workers[v], lease) {
      assert WorkerFenced(s, s.workers[v], lease) && WorkerOk(s, s.workers[v], lease);
    }
  }

  lemma ReadBackKeepsFenced(lease: Duration, s: State, w: WorkerId)
    requires Inv(lease, s) && Fenced(lease, s) && Enabled(s, ReadBack(w))
    requires s.now <= s.workers[w].since + lease
    ensures Fenced(lease, DoReadBack(s, w))
  {
    var s' := DoReadBack(s, w);
    assert WorkerOk(s, s.workers[w], lease) && WorkerFenced(s, s.workers[w], lease);
    forall v | v in s'.workers ensures WorkerFenced(s', s'.workers[v], lease) {
      assert WorkerFenced(s, s.workers[v], lease);
    }
  }

  lemma NextKeepsFenced(lease: Duration, s: State, a: Action)
    requires Inv(lease, s) && Fenced(lease, s) && Enabled(s, a) && ReadBackInLease(lease, s, a)
    ensures Fenced(lease, Apply(lease, s, a))
  {
    match a
    case Create(id, incident, enqueued) => CreateKeepsFenced(lease, s, id, incident, enqueued);
    case Deliver(w, id) => DeliverKeepsFenced(lease, s, w, id);
    case Finish(w) => FinishKeepsFenced(lease, s, w);
    case ReadBack(w) => ReadBackKeepsFenced(lease, s, w);
    case _ =>
      if a.WriteStep? || a.WriteToolCall? || a.EndReport? || a.FailReport? {
        ReportIsQuiet(lease, s, a);
      } else {
        HandlerIsQuiet(lease, s, a);
      }
      QuietStepKeepsFenced(lease, s, Apply(lease, s, a));
  }

  /** Every read-back of the behaviour happens inside its claim's lease. */
  ghost predicate ReadBacksInLease(lease: Duration, b: seq<State>, acts: seq<Action>)
    requires |b| == |acts| + 1
  {
    forall i :: 0 <= i < |acts| ==> ReadBackInLease(lease, b[i], acts[i])
  }

  lemma {:induction false} ReachableFenced(lease: Duration, b: seq<State>, acts: seq<Action>, i: nat)
    requires Behavior(lease, b, acts) && ReadBacksInLease(lease, b, acts) && i < |b|
    ensures Fenced(lease, b[i])
  {
    if i == 0 {
    } else {
      ReachableFenced(lease, b, acts, i - 1);
      ReachableInv(lease, b, acts, i - 1);
      assert Next(lease, b[i - 1], acts[i - 1], b[i]) && ReadBackInLease(lease, b[i - 1], acts[i - 1]);
      NextKeepsFenced(lease, b[i - 1], acts[i - 1]);
    }
  }

  // ---------------------------------------------------------------- what the fence needs

  /** The read-back finds the row still carrying this claim's stamp, or already terminal. */
  ghost predicate ReadBackSeesItsClaim(s: State, a: Action) {
    a.ReadBack? && a.w in s.workers && s.workers[a.w].run in s.db.runs ==>
      var row := s.db.runs[s.workers[a.w].run];
      row.startedAt == Some(s.workers[a.w].since) || Terminal(row.status)
  }

  /** A worker goes by its own attempt, unless its run is over anyway. */
  ghost predicate KnowsItsAttempt(s: State, k: Worker) {
    !k.phase.Claimed? ==> k.phase.attempt == k.own || (k.run in s.db.runs && Terminal(s.db.runs[k.run].status))
  }

  ghost predicate AllKnow(s: State) {
    forall w :: w in s.workers ==> KnowsItsAttempt(s, s.workers[w])
  }

  lemma QuietStepKeepsKnowledge(s: State, s': State)
    requires AllKnow(s) && Quiet(s, s') && NoReadBack(s, s')
    ensures AllKnow(s')
  {
    forall w | w in s'.workers ensures KnowsItsAttempt(s', s'.workers[w]) {
      assert KnowsItsAttempt(s, s.workers[w]) && QuietMove(s.workers[w], s'.workers[w]);
    }
  }

  ghost predicate RowStep(s: State, s': State) {
    && (forall w :: w in s'.workers && w in s.workers ==> s'.workers[w] == s.workers[w])
    && (forall w :: w in s'.workers && w !in s.workers ==> s'.workers[w].phase.Claimed?)
    && forall r :: r in s.db.runs && Terminal(s.db.runs[r].status) ==> r in s'.db.runs && s'.db.runs[r] == s.db.runs[r]
  }

  lemma RowActionIsARowStep(lease: Duration, s: State, a: Action)
    requires Enabled(s, a) && (a.Create? || a.Deliver? || a.Finish?)
    ensures RowStep(s, Apply(lease, s, a))
  {
  }

  /** Rows come, are claimed or end; a worker that went by a terminal row's attempt still does. */
  lemma RowStepKeepsKnowledge(lease: Duration, s: State, s': State)
    requires WorkersOk(lease, s) && AllKnow(s) && RowStep(s, s')
    ensures AllKnow(s')
  {
    forall w | w in s'.workers && w in s.workers ensures KnowsItsAttempt(s', s'.workers[w]) {
      assert KnowsItsAttempt(s, s.workers[w]);
    }
  }

  lemma ReadBackKeepsKnowledge(lease: Duration, s: State, w: WorkerId)
    requires 0 <= lease && Inv(lease, s) && AllKnow(s) && Enabled(s, ReadBack(w)) && ReadBackSeesItsClaim(s, ReadBack(w))
    ensures AllKnow(DoReadBack(s, w))
  {
    var s' := DoReadBack(s, w);
    assert WorkerOk(s, s.workers[w], lease) && RowOk(s.db.runs[s.workers[w].run], s.now);
    forall v | v in s'.workers ensures KnowsItsAttempt(s', s'.workers[v]) {
      assert KnowsItsAttempt(s, s.workers[v]);
    }
  }

  lemma NextKeepsKnowledge(lease: Duration, s: State, a: Action)
    requires 0 <= lease && Inv(lease, s) && AllKnow(s) && Enabled(s, a) && ReadBackSeesItsClaim(s, a)
    ensures AllKnow(Apply(lease, s, a))
  {
    hide AllKnow, WorkersOk, RowsOk, ClaimsDiffer, OneActiveRun, RowStep, Quiet, NoReadBack, ReadBackSeesItsClaim;
    hide DoCreate, DoDeliver, DoWriteStep, DoWriteToolCall, DoEndReport, DoFailReport, DoDecide, DoFinish;
    if a.Create? || a.Deliver? || a.Finish? {
      RowActionIsARowStep(lease, s, a);
      RowStepKeepsKnowledge(lease, s, Apply(lease, s, a));
    } else if a.ReadBack? {
      ReadBackKeepsKnowledge(lease, s, a.w);
    } else {
      if a.WriteStep? || a.WriteToolCall? || a.EndReport? || a.FailReport? {
        ReportIsQuiet(lease, s, a);
      } else {
        HandlerIsQuiet(lease, s, a);
      }
      QuietStepKeepsKnowledge(s, Apply(lease, s, a));
    }
  }

  ghost predicate ReadBacksSeeTheirClaims(b: seq<State>, acts: seq<Action>)
    requires |b| == |acts| + 1
  {
    forall i :: 0 <= i < |acts| ==> ReadBackSeesItsClaim(b[i], acts[i])
  }

  lemma {:induction false} ReachableKnowledge(lease: Duration, b: seq<State>, acts: seq<Action>, i: nat)
    requires 0 <= lease && Behavior(lease, b, acts) && ReadBacksSeeTheirClaims(b, acts) && i < |b|
    ensures AllKnow(b[i])
  {
    hide Enabled, Apply, Inv, AllKnow, ReadBackSeesItsClaim;
    if i == 0 {
      assert AllKnow(b[0]) by { NobodyKnows(b[0]); }
    } else {
      ReachableKnowledge(lease, b, acts, i - 1);
      ReachableInv(lease, b, acts, i - 1);
      assert Next(lease, b[i - 1], acts[i - 1], b[i]) && ReadBackSeesItsClaim(b[i - 1], acts[i - 1]);
      NextKeepsKnowledge(lease, b[i - 1], acts[i - 1]);
    }
  }

  lemma NobodyKnows(s: State)
    requires Init(s)
    ensures AllKnow(s)
  {
  }

  /** A read-back inside its claim's lease sees its claim. */
  lemma TimelyReadBacksSeeTheirClaims(lease: Duration, b: seq<State>, acts: seq<Action>)
    requires Behavior(lease, b, acts) && ReadBacksInLease(lease, b, acts)
    ensures ReadBacksSeeTheirClaims(b, acts)
  {
    forall i | 0 <= i < |acts| ensures ReadBackSeesItsClaim(b[i], acts[i]) {
      ReachableInv(lease, b, acts, i);
      assert Next(lease, b[i], acts[i], b[i + 1]) && ReadBackInLease(lease, b[i], acts[i]);
      if acts[i].ReadBack? {
        assert WorkerOk(b[i], b[i].workers[acts[i].w], lease) && RowOk(b[i].db.runs[b[i].workers[acts[i].w].run], b[i].now);
      }
    }
  }

  /**
    Only the latest claimer can finish: a terminal write lands exactly when its worker made the
    run's latest claim and the run is still in flight, and otherwise it leaves every row alone, as long
    as each read-back finds the row under its own claim's stamp, or over.
  */
  lemma OnlyTheLatestClaimFinishes(lease: Duration, b: seq<State>, acts: seq<Action>, i: nat)
    requires 0 <= lease && Behavior(lease, b, acts) && ReadBacksSeeTheirClaims(b, acts)
    requires i < |acts| && acts[i].Finish?
    ensures acts[i].w in b[i].workers && b[i].workers[acts[i].w].run in b[i].db.runs
    ensures var k := b[i].workers[acts[i].w];
            var row := b[i].db.runs[k.run];
            if row.status.Running? && row.attempts == k.own then
              && b[i + 1].db == b[i].db.(runs := b[i].db.runs[k.run := FinishedRow(row, k.phase.out, b[i].now)])
              && Concluded(row, b[i + 1].db.runs[k.run], k.phase.out, b[i].now)
            else
              b[i + 1].db == b[i].db
  {
    ReachableKnowledge(lease, b, acts, i);
    ReachableInv(lease, b, acts, i);
    assert Next(lease, b[i], acts[i], b[i + 1]);
    var k := b[i].workers[acts[i].w];
    assert KnowsItsAttempt(b[i], k) && WorkerOk(b[i], k, lease);
  }

  /**
    What the read-back finds: this claim's own attempt exactly while the row still carries this
    claim's stamp, which a live claim always does.
  */
  lemma ReadBackFindsOwnAttempt(lease: Duration, b: seq<State>, acts: seq<Action>, i: nat, w: WorkerId)
    requires 0 <= lease && Behavior(lease, b, acts) && i < |b|
    requires w in b[i].workers && b[i].workers[w].run in b[i].db.runs
    requires b[i].db.runs[b[i].workers[w].run].status.Running?
    ensures var k := b[i].workers[w];
            var row := b[i].db.runs[k.run];
            && (row.attempts == k.own <==> row.startedAt == Some(k.since))
            && (b[i].now <= k.since + lease ==> row.attempts == k.own)
  {
    ReachableInv(lease, b, acts, i);
    assert WorkerOk(b[i], b[i].workers[w], lease) && RowOk(b[i].db.runs[b[i].workers[w].run], b[i].now);
  }

  lemma {:induction false} Extended(lease: Duration, b: seq<State>, acts: seq<Action>, a: Action)
    requires Behavior(lease, b, acts) && Enabled(b[|acts|], a)
    ensures Behavior(lease, b + [Apply(lease, b[|acts|], a)], acts + [a])
  {
    var b', acts' := b + [Apply(lease, b[|acts|], a)], acts + [a];
    forall i | 0 <= i < |acts'| ensures Next(lease, b'[i], acts'[i], b'[i + 1]) {
      if i < |acts| {
        assert Next(lease, b[i], acts[i], b[i + 1]);
      }
    }
  }

  /** Worker 0 claims at time 0 and stalls; worker 1 reclaims once the lease is over. */
  lemma StalledClaim(lease: nat) returns (b: seq<State>, acts: seq<Action>)
    ensures Behavior(lease, b, acts) && |acts| == 4
    ensures b[4].db == Db(map[0 := ClaimedRow(ClaimedRow(NewRun(0, 0), 0), lease + 1)], map[], 0)
    ensures b[4].workers == map[0 := Worker(0, 1, 0, Claimed), 1 := Worker(0, 2, lease + 1, Claimed)]
  {
    var row1 := ClaimedRow(NewRun(0, 0), 0);
    var s0 := State(Db(map[], map[], 0), 0, multiset{}, map[], map[], {});
    var s1 := s0.(db := Db(map[0 := NewRun(0, 0)], map[], 0), inbox := multiset{0});
    assert WithoutSteps(map[], 0) == map[];
    var s2 := s1.(db := Db(map[0 := row1], map[], 0), workers := map[0 := Worker(0, 1, 0, Claimed)]);
    var s3 := s2.(now := lease + 1);
    assert Apply(lease, s0, Create(0, 0, true)) == s1;
    assert Apply(lease, s1, Deliver(0, 0)) == s2;
    b, acts := [s0], [];
    Extended(lease, b, acts, Create(0, 0, true));
    b, acts := b + [s1], acts + [Create(0, 0, true)];
    Extended(lease, b, acts, Deliver(0, 0));
    b, acts := b + [s2], acts + [Deliver(0, 0)];
    Extended(lease, b, acts, Tick(lease + 1));
    b, acts := b + [s3], acts + [Tick(lease + 1)];
    Extended(lease, b, acts, Deliver(1, 0));
    b, acts := b + [Apply(lease, s3, Deliver(1, 0))], acts + [Deliver(1, 0)];
  }

  lemma AForeignFinishLands(lease: Duration, s: State, w: WorkerId, out: RunOutcome)
    requires 0 <= lease && Inv(lease, s) && Enabled(s, ReadBack(w)) && !ReadBackSeesItsClaim(s, ReadBack(w))
    requires Terminal(out.status) && out.stepCount == 0 && out.toolCallCount == 0
    ensures var s1 := Apply(lease, s, ReadBack(w));
            && Enabled(s1, Decide(w, out))
            && var s2 := Apply(lease, s1, Decide(w, out));
               && Enabled(s2, Finish(w))
               && var s3 := Apply(lease, s2, Finish(w));
                  var k := s.workers[w];
                  && k.own < s.db.runs[k.run].attempts
                  && k.run in s3.db.runs && s3.db.runs[k.run] == FinishedRow(s.db.runs[k.run], out, s.now)
  {
    hide OneActiveRun, ClaimsDiffer, RowsOk, DoCreate, DoDeliver, DoWriteStep, DoWriteToolCall, DoEndReport, DoFailReport;
    var k := s.workers[w];
    assert WorkerOk(s, k, lease);
    InvGivesRow(lease, s, k.run);
  }

  lemma InvGivesRow(lease: Duration, s: State, r: RunId)
    requires Inv(lease, s) && r in s.db.runs
    ensures RowOk(s.db.runs[r], s.now)
  {
  }

  /**
    And each must: from every state, however reached, in which a worker is about to read back and finds
    its run in flight under another stamp, it can go on to finish the run its successor holds, in any
    way that takes no step.
  */
  lemma ASupersededReadBackMayFinish(lease: Duration, b: seq<State>, acts: seq<Action>, w: WorkerId, out: RunOutcome)
    returns (b': seq<State>)
    requires 0 <= lease && Behavior(lease, b, acts) && Enabled(b[|acts|], ReadBack(w))
    requires !ReadBackSeesItsClaim(b[|acts|], ReadBack(w))
    requires Terminal(out.status) && out.stepCount == 0 && out.toolCallCount == 0
    ensures b <= b' && Behavior(lease, b', acts + [ReadBack(w), Decide(w, out), Finish(w)])
    ensures var s, s' := b[|acts|], b'[|acts| + 3];
            var k := s.workers[w];
            && k.own < s.db.runs[k.run].attempts
            && k.run in s'.db.runs && s'.db.runs[k.run] == FinishedRow(s.db.runs[k.run], out, s.now)
            && Concluded(s.db.runs[k.run], s'.db.runs[k.run], out, s.now)
  {
    var s := b[|acts|];
    ReachableInv(lease, b, acts, |acts|);
    var s1 := Apply(lease, s, ReadBack(w));
    AForeignFinishLands(lease, s, w, out);
    var s2 := Apply(lease, s1, Decide(w, out));
    var s3 := Apply(lease, s2, Finish(w));
    hide Enabled, Apply, Inv, ReadBackSeesItsClaim, FinishedRow;
    Extended(lease, b, acts, ReadBack(w));
    Extended(lease, b + [s1], acts + [ReadBack(w)], Decide(w, out));
    Extended(lease, b + [s1] + [s2], acts + [ReadBack(w)] + [Decide(w, out)], Finish(w));
    b' := b + [s1] + [s2] + [s3];
    assert acts + [ReadBack(w)] + [Decide(w, out)] + [Finish(w)] == acts + [ReadBack(w), Decide(w, out), Finish(w)];
  }
}
