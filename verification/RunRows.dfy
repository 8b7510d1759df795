/**
  The rows of agent_runs and agent_steps, and the conditional updates that are the only way they
  move (internal/store/runs.go, internal/store/steps.go).
  Each statement is given twice: as a function from one database state to the next, which the
  protocol and its invariants are about, and as a method of RunStore proved to compute it.
*/
module RunRows {
  import opened Prelude

  type RunId = nat
  type IncidentId = nat
  type StepId = nat

  datatype RunStatus = Pending | Running | Succeeded | Failed

  datatype StopReason = Completed | MaxSteps | MaxToolCalls | Timeout | TokenBudget | Error

  predicate Terminal(s: RunStatus) { s.Succeeded? || s.Failed? }

  predicate Active(s: RunStatus) { !Terminal(s) }

  /** What a finished run records at once. */
  datatype RunOutcome = RunOutcome(
    status: RunStatus,
    stopReason: StopReason,
    finalResult: Option<Bytes>,
    error: Option<Bytes>,
    stepCount: nat,
    toolCallCount: nat,
    promptTokens: nat,
    completionTokens: nat)

  datatype Run = Run(
    incident: IncidentId,
    status: RunStatus,
    stopReason: Option<StopReason>,
    finalResult: Option<Bytes>,
    error: Option<Bytes>,
    stepCount: nat,
    toolCallCount: nat,
    promptTokens: nat,
    completionTokens: nat,
    attempts: nat,
    startedAt: Option<Time>,
    finishedAt: Option<Time>,
    updatedAt: Time)

  /** uniq_step_number: a step row is found by its run and its number. */
  type StepKey = (RunId, nat)

  /** The tool_calls rows of a step hang under it, because deleting the step cascades to them. */
  datatype StepRow = StepRow(id: StepId, calls: nat)

  datatype Db = Db(runs: map<RunId, Run>, steps: map<StepKey, StepRow>, nextId: StepId)

  datatype StoreError = Conflict | Internal

  // ---------------------------------------------------------------- the statements

  /** What the unique key over active_incident_id refuses. */
  predicate HasActiveRun(db: Db, incident: IncidentId) {
    exists r :: r in db.runs && db.runs[r].incident == incident && Active(db.runs[r].status)
  }

  function NewRun(incident: IncidentId, t: Time): Run {
    Run(incident, Pending, None, None, None, 0, 0, 0, 0, 0, None, None, t)
  }

  function CreateRun(db: Db, id: RunId, incident: IncidentId, t: Time): Result<Db, StoreError> {
    if HasActiveRun(db, incident) then Err(Conflict)
    else if id in db.runs then Err(Internal)
    else Ok(db.(runs := db.runs[id := NewRun(incident, t)]))
  }

  /** A NULL started_at fails the comparison, so such a row is never reclaimed. */
  predicate Claimable(row: Run, t: Time, lease: Duration) {
    row.status.Pending?
    || (row.status.Running? && row.startedAt.Some? && row.startedAt.value < t - lease)
  }

  function ClaimedRow(row: Run, t: Time): Run {
    row.(status := Running, attempts := row.attempts + 1, startedAt := Some(t), updatedAt := t,
         stepCount := 0, toolCallCount := 0, promptTokens := 0, completionTokens := 0)
  }

  function WithoutSteps(steps: map<StepKey, StepRow>, run: RunId): map<StepKey, StepRow> {
    map k | k in steps && k.0 != run :: steps[k]
  }

  /** One transaction: the row and the previous attempt's steps move together or not at all. */
  function ClaimRun(db: Db, id: RunId, t: Time, lease: Duration): (Db, bool) {
    if id in db.runs && Claimable(db.runs[id], t, lease) then
      (db.(runs := db.runs[id := ClaimedRow(db.runs[id], t)], steps := WithoutSteps(db.steps, id)), true)
    else
      (db, false)
  }

  function FinishedRow(row: Run, out: RunOutcome, t: Time): Run {
    row.(status := out.status, stopReason := Some(out.stopReason), finalResult := out.finalResult,
         error := out.error, stepCount := out.stepCount, toolCallCount := out.toolCallCount,
         promptTokens := out.promptTokens, completionTokens := out.completionTokens,
         finishedAt := Some(t), updatedAt := t)
  }

  function FinishRun(db: Db, id: RunId, attempt: nat, out: RunOutcome, t: Time): (Db, bool) {
    if id in db.runs && db.runs[id].status.Running? && db.runs[id].attempts == attempt then
      (db.(runs := db.runs[id := FinishedRow(db.runs[id], out, t)]), true)
    else
      (db, false)
  }

  function CreateStep(db: Db, run: RunId, number: nat): Result<Db, StoreError> {
    if run !in db.runs || (run, number) in db.steps then Err(Internal)
    else Ok(db.(steps := db.steps[(run, number) := StepRow(db.nextId, 0)], nextId := db.nextId + 1))
  }

  /** The foreign key: the step row this attempt wrote must still be the one there. */
  function CreateToolCall(db: Db, run: RunId, number: nat, step: StepId): Result<Db, StoreError> {
    if (run, number) !in db.steps || db.steps[(run, number)].id != step then Err(Internal)
    else
      var row := db.steps[(run, number)];
      Ok(db.(steps := db.steps[(run, number) := row.(calls := row.calls + 1)]))
  }

  // ---------------------------------------------------------------- what they write, column by column

  /** A row just inserted: waiting, never attempted, and nothing recorded. */
  ghost predicate Waiting(row: Run, incident: IncidentId, t: Time) {
    && row.incident == incident && row.status == Pending && row.attempts == 0 && row.updatedAt == t
    && row.stopReason == None && row.finalResult == None && row.error == None
    && row.stepCount == 0 && row.toolCallCount == 0 && row.promptTokens == 0 && row.completionTokens == 0
    && row.startedAt == None && row.finishedAt == None
  }

  /** Waiting, or running since more than a lease ago. */
  ghost predicate Free(row: Run, t: Time, lease: Duration) {
    || row.status == Pending
    || (row.status == Running && exists since :: row.startedAt == Some(since) && since + lease < t)
  }

  /** One attempt more, begun at t with its four counters at zero; what it has of an earlier outcome stays. */
  ghost predicate Taken(before: Run, after: Run, t: Time) {
    && after.status == Running && after.attempts == before.attempts + 1
    && after.startedAt == Some(t) && after.updatedAt == t
    && after.stepCount == 0 && after.toolCallCount == 0 && after.promptTokens == 0 && after.completionTokens == 0
    && after.incident == before.incident && after.stopReason == before.stopReason
    && after.finalResult == before.finalResult && after.error == before.error && after.finishedAt == before.finishedAt
  }

  /** The outcome's every part in its column, at the time of the write; the attempt and its start stay. */
  ghost predicate Concluded(before: Run, after: Run, out: RunOutcome, t: Time) {
    && after.status == out.status && after.stopReason == Some(out.stopReason)
    && after.finalResult == out.finalResult && after.error == out.error
    && after.stepCount == out.stepCount && after.toolCallCount == out.toolCallCount
    && after.promptTokens == out.promptTokens && after.completionTokens == out.completionTokens
    && after.finishedAt == Some(t) && after.updatedAt == t
    && after.incident == before.incident && after.attempts == before.attempts && after.startedAt == before.startedAt
  }

  /** No row but this one's has changed. */
  ghost predicate OnlyRow(before: map<RunId, Run>, after: map<RunId, Run>, id: RunId) {
    id in after && after.Keys == before.Keys + {id} && forall r :: r in before && r != id ==> after[r] == before[r]
  }

  /** The step rows are as they were, but for one. */
  ghost predicate OnlyStep(before: map<StepKey, StepRow>, after: map<StepKey, StepRow>, key: StepKey) {
    key in after && after.Keys == before.Keys + {key} && forall k :: k in before && k != key ==> after[k] == before[k]
  }

  lemma RowsAreWritten(row: Run, incident: IncidentId, out: RunOutcome, t: Time, lease: Duration)
    ensures Waiting(NewRun(incident, t), incident, t)
    ensures Claimable(row, t, lease) <==> Free(row, t, lease)
    ensures Taken(row, ClaimedRow(row, t), t) && Concluded(row, FinishedRow(row, out, t), out, t)
  {
  }

  // ---------------------------------------------------------------- the store

  class RunStore {
    var runs: map<RunId, Run>
    var steps: map<StepKey, StepRow>
    var nextId: StepId

    function State(): Db
      reads this
    {
      Db(runs, steps, nextId)
    }

    constructor ()
      ensures State() == Db(map[], map[], 0)
    {
      runs, steps, nextId := map[], map[], 0;
    }

    method Create(id: RunId, incident: IncidentId, t: Time) returns (r: Result<Run, StoreError>)
      modifies this
      ensures match CreateRun(old(State()), id, incident, t)
              case Ok(db) => State() == db && r == Ok(NewRun(incident, t))
              case Err(e) => State() == old(State()) && r == Err(e)
      ensures r == Err(Conflict) <==>
                exists q :: q in old(runs) && old(runs)[q].incident == incident
                            && (old(runs)[q].status == Pending || old(runs)[q].status == Running)
      ensures r == Err(Internal) <==> r != Err(Conflict) && id in old(runs)
      ensures r.Err? ==> unchanged(this)
      ensures r.Ok? ==>
                && OnlyRow(old(runs), runs, id) && runs[id] == r.value && Waiting(r.value, incident, t)
                && steps == old(steps) && nextId == old(nextId)
    {
      if HasActiveRun(State(), incident) {
        return Err(Conflict);
      }
      if id in runs {
        return Err(Internal);
      }
      var row := NewRun(incident, t);
      runs := runs[id := row];
      r := Ok(row);
    }

    method Claim(id: RunId, t: Time, lease: Duration) returns (claimed: bool)
      modifies this
      ensures (State(), claimed) == ClaimRun(old(State()), id, t, lease)
      ensures !claimed ==> unchanged(this)
      ensures claimed <==> id in old(runs) && Free(old(runs)[id], t, lease)
      ensures claimed ==> OnlyRow(old(runs), runs, id) && Taken(old(runs)[id], runs[id], t)
      ensures claimed ==>
                && (forall k :: k in steps <==> k in old(steps) && k.0 != id)
                && (forall k :: k in steps ==> steps[k] == old(steps)[k])
                && nextId == old(nextId)
    {
      if id !in runs || !Claimable(runs[id], t, lease) {
        return false;
      }
      runs := runs[id := ClaimedRow(runs[id], t)];
      // DELETE FROM agent_steps, cascading to tool_calls
      steps := map k | k in steps && k.0 != id :: steps[k];
      claimed := true;
    }

    method Finish(id: RunId, attempt: nat, out: RunOutcome, t: Time) returns (written: bool)
      modifies this
      ensures (State(), written) == FinishRun(old(State()), id, attempt, out, t)
      ensures written <==> id in old(runs) && old(runs)[id].status.Running? && old(runs)[id].attempts == attempt
      ensures !written ==> unchanged(this)
      ensures written ==>
                && OnlyRow(old(runs), runs, id) && Concluded(old(runs)[id], runs[id], out, t)
                && steps == old(steps) && nextId == old(nextId)
    {
      written := id in runs && runs[id].status.Running? && runs[id].attempts == attempt;
      if written {
        runs := runs[id := FinishedRow(runs[id], out, t)];
      }
    }

    method WriteStep(run: RunId, number: nat) returns (r: Result<StepId, StoreError>)
      modifies this
      ensures match CreateStep(old(State()), run, number)
              case Ok(db) => State() == db && r == Ok(old(nextId))
              case Err(e) => State() == old(State()) && r == Err(e)
      ensures r.Ok? <==> run in old(runs) && (run, number) !in old(steps)
      ensures r.Err? ==> unchanged(this)
      ensures r.Ok? ==>
                && OnlyStep(old(steps), steps, (run, number)) && steps[(run, number)] == StepRow(r.value, 0)
                && r.value == old(nextId) < nextId && runs == old(runs)
    {
      if run !in runs || (run, number) in steps {
        return Err(Internal);
      }
      r := Ok(nextId);
      steps := steps[(run, number) := StepRow(nextId, 0)];
      nextId := nextId + 1;
    }

    method WriteToolCall(run: RunId, number: nat, step: StepId) returns (r: Result<(), StoreError>)
      modifies this`steps
      ensures match CreateToolCall(old(State()), run, number, step)
              case Ok(db) => State() == db && r == Ok(())
              case Err(e) => State() == old(State()) && r == Err(e)
      ensures r.Ok? <==> (run, number) in old(steps) && old(steps)[(run, number)].id == step
      ensures r.Err? ==> unchanged(this)
      ensures r.Ok? ==>
                && OnlyStep(old(steps), steps, (run, number))
                && steps[(run, number)] == StepRow(step, old(steps)[(run, number)].calls + 1)
    {
      if (run, number) !in steps || steps[(run, number)].id != step {
        return Err(Internal);
      }
      var row := steps[(run, number)];
      steps := steps[(run, number) := row.(calls := row.calls + 1)];
      r := Ok(());
    }
  }

  // ---------------------------------------------------------------- what one statement keeps

  /** uniq_active_run, as a property of the whole table. */
  ghost predicate OneActiveRun(db: Db) {
    forall r, q :: r in db.runs && q in db.runs && r != q
      && Active(db.runs[r].status) && Active(db.runs[q].status)
      ==> db.runs[r].incident != db.runs[q].incident
  }

  /** The step rows of a run are exactly those numbered 1..n. */
  ghost predicate Numbered(steps: map<StepKey, StepRow>, run: RunId, n: nat) {
    forall k: nat :: (run, k) in steps <==> 1 <= k <= n
  }

  /** How many tool_calls rows the first n steps of a run carry. */
  ghost function Calls(steps: map<StepKey, StepRow>, run: RunId, n: nat): nat {
    if n == 0 then 0
    else Calls(steps, run, n - 1) + (if (run, n) in steps then steps[(run, n)].calls else 0)
  }

  lemma {:induction false} CallsDependOnlyOnTheirRows(a: map<StepKey, StepRow>, b: map<StepKey, StepRow>, run: RunId, n: nat)
    requires forall k: nat :: 1 <= k <= n ==>
      ((run, k) in a <==> (run, k) in b) && ((run, k) in a ==> a[(run, k)] == b[(run, k)])
    ensures Calls(a, run, n) == Calls(b, run, n)
  {
    if n == 0 {
    } else {
      CallsDependOnlyOnTheirRows(a, b, run, n - 1);
    }
  }
}
