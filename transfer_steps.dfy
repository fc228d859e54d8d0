/**
 * The step state machine of a warm transfer (lib/transfer-orchestrator.ts), as
 * values: the six steps, what executing one step does, how a failure is
 * annotated, what cancelling does, and the state `start` leaves behind. The
 * classes in module TransferOrchestrator are proved against these functions.
 */
module TransferSteps {
  import opened Wrappers

  datatype Status = Pending | InProgress | Completed | Failed

  predicate IsTerminal(s: Status) {
    s == Completed || s == Failed
  }

  /** A `TransferStep` as a value; `timestamp` is absent until the step starts. */
  datatype StepState = StepState(id: string, name: string, status: Status, description: string, timestamp: Option<int>)

  /** How the action of a step ended: it returned, or it threw an error with this message. */
  datatype Outcome = Ok | Fail(message: string)

  const StepCount: nat := 6

  const StepIds: seq<string> := ["1", "2", "3", "4", "5", "6"]

  const StepNames: seq<string> := [
    "Generate Call Summary", "Create Transfer Room", "Connect Agent B",
    "Brief Agent B", "Transfer Caller", "Agent A Exit"]

  const StepDescriptions: seq<string> := [
    "AI generates comprehensive call summary for Agent B",
    "Create new LiveKit room for Agent A and Agent B briefing",
    "Agent B joins the transfer room",
    "Agent A explains call context to Agent B using AI-generated summary",
    "Move caller from original room to transfer room with Agent B",
    "Agent A leaves the call, completing the warm transfer"]

  const ErrorNote := " - Error: "
  const CancelNote := " - Transfer cancelled"

  /** The id `start` uses when no step is pending or in progress. */
  const UnknownId := "unknown"

  /** `initializeSteps` */
  function InitialSteps(): (r: seq<StepState>)
    ensures |r| == StepCount
  {
    seq(StepCount, i requires 0 <= i < StepCount => StepState(StepIds[i], StepNames[i], Pending, StepDescriptions[i], None))
  }

  /** Six steps carrying the ids "1" to "6" in that order. */
  predicate WellFormed(s: seq<StepState>) {
    |s| == StepCount && forall i :: 0 <= i < StepCount ==> s[i].id == StepIds[i]
  }

  /** The six ids differ from one another and from the fallback id. */
  lemma StepIdsDistinct()
    ensures forall i, j :: 0 <= i < j < StepCount ==> StepIds[i] != StepIds[j]
    ensures forall i :: 0 <= i < StepCount ==> StepIds[i] != UnknownId && StepIds[i] != ""
  {
  }

  /** A new process has six pending steps "1" to "6", in order, none with a timestamp. */
  lemma InitialStepsShape()
    ensures WellFormed(InitialSteps())
    ensures forall i :: 0 <= i < StepCount ==>
              InitialSteps()[i].status == Pending && InitialSteps()[i].timestamp == None
    ensures forall i, j :: 0 <= i < j < StepCount ==> InitialSteps()[i].id != InitialSteps()[j].id
  {
  }

  /** `steps.find(s => s.id === id)`, searching from index `from`: the first step with that id. */
  function FindFrom(s: seq<StepState>, id: string, from: nat): (r: Option<nat>)
    requires from <= |s|
    ensures r.Some? ==> from <= r.value < |s| && s[r.value].id == id
    ensures r.Some? ==> forall j :: from <= j < r.value ==> s[j].id != id
    ensures r.None? ==> forall j :: from <= j < |s| ==> s[j].id != id
    decreases |s| - from
  {
    if from == |s| then None
    else if s[from].id == id then Some(from)
    else FindFrom(s, id, from + 1)
  }

  function FindStep(s: seq<StepState>, id: string): Option<nat> {
    FindFrom(s, id, 0)
  }

  /** In a well-formed list the step with id `StepIds[k]` is the one at index `k`. */
  lemma FindCanonical(s: seq<StepState>, k: nat)
    requires WellFormed(s) && k < StepCount
    ensures FindStep(s, StepIds[k]) == Some(k)
  {
  }

  /** `steps.find(s => s.status === "in-progress" || s.status === "pending")`, from index `from`. */
  function FirstUnfinishedFrom(s: seq<StepState>, from: nat): (r: Option<nat>)
    requires from <= |s|
    ensures r.Some? ==> from <= r.value < |s| && !IsTerminal(s[r.value].status)
    ensures r.Some? ==> forall j :: from <= j < r.value ==> IsTerminal(s[j].status)
    ensures r.None? ==> forall j :: from <= j < |s| ==> IsTerminal(s[j].status)
    decreases |s| - from
  {
    if from == |s| then None
    else if s[from].status == InProgress || s[from].status == Pending then Some(from)
    else FirstUnfinishedFrom(s, from + 1)
  }

  /**
   * The id the `catch` of `start` marks failed: the id of the current step
   * (`getCurrentStep`), or "unknown" when there is none or its id is empty.
   */
  function CurrentId(s: seq<StepState>): (r: string)
    ensures r != ""
    ensures FirstUnfinishedFrom(s, 0).Some? && s[FirstUnfinishedFrom(s, 0).value].id != "" ==>
              r == s[FirstUnfinishedFrom(s, 0).value].id
    ensures r != UnknownId ==> FirstUnfinishedFrom(s, 0).Some? && s[FirstUnfinishedFrom(s, 0).value].id == r
    ensures (forall j :: 0 <= j < |s| ==> IsTerminal(s[j].status)) ==> r == UnknownId
  {
    match FirstUnfinishedFrom(s, 0)
    case Some(i) => if s[i].id != "" then s[i].id else UnknownId
    case None => UnknownId
  }

  /** The state after one `executeStep`, and the error it rethrows, if any. */
  datatype Execution = Execution(steps: seq<StepState>, error: Option<string>)

  /** `executeStep(id, action)`: the step state after the action ended, and the error it rethrew. */
  function Execute(s: seq<StepState>, id: string, now: int, outcome: Outcome): (r: Execution)
    ensures |r.steps| == |s|
  {
    match FindStep(s, id)
    case None => Execution(s, None)
    case Some(i) =>
      var started := s[i].(status := InProgress, timestamp := Some(now));
      match outcome
      case Ok => Execution(s[i := started.(status := Completed)], None)
      case Fail(message) => Execution(s[i := started.(status := Failed)], Some(message))
  }

  /**
   * An unknown id changes nothing and runs nothing; otherwise only that step
   * changes: it ends `completed` when the action returned and `failed` when
   * it threw, stamped with `now`, and the error is passed on.
   */
  lemma ExecuteEffect(s: seq<StepState>, id: string, now: int, outcome: Outcome)
    ensures var r := Execute(s, id, now, outcome);
            && (r.error.Some? <==> FindStep(s, id).Some? && outcome.Fail?)
            && (r.error.Some? ==> r.error.value == outcome.message)
            && (FindStep(s, id).None? ==> r.steps == s)
            && (FindStep(s, id).Some? ==>
                  var i := FindStep(s, id).value;
                  && (forall j :: 0 <= j < |s| && j != i ==> r.steps[j] == s[j])
                  && r.steps[i].id == s[i].id && r.steps[i].name == s[i].name
                  && r.steps[i].description == s[i].description
                  && r.steps[i].status == (if outcome.Ok? then Completed else Failed)
                  && r.steps[i].timestamp == Some(now))
  {
  }

  /** `markStepFailed(id, error)`: that step becomes `failed` and its description gains the message. */
  function MarkFailed(s: seq<StepState>, id: string, message: string): (r: seq<StepState>)
    ensures |r| == |s|
  {
    match FindStep(s, id)
    case None => s
    case Some(i) => s[i := s[i].(status := Failed, description := s[i].description + ErrorNote + message)]
  }

  /** An unknown id changes nothing; otherwise only that step changes, as `markStepFailed` says. */
  lemma MarkFailedEffect(s: seq<StepState>, id: string, message: string)
    ensures var r := MarkFailed(s, id, message);
            && (FindStep(s, id).None? ==> r == s)
            && (FindStep(s, id).Some? ==>
                  var i := FindStep(s, id).value;
                  && (forall j :: 0 <= j < |s| && j != i ==> r[j] == s[j])
                  && r[i].id == s[i].id && r[i].name == s[i].name && r[i].timestamp == s[i].timestamp
                  && r[i].status == Failed && r[i].description == s[i].description + ErrorNote + message)
  {
  }

  /** The body of the `forEach` in `cancel`, for one step. */
  function CancelStep(st: StepState): (r: StepState)
    ensures IsTerminal(r.status)
    ensures r.id == st.id && r.name == st.name && r.timestamp == st.timestamp
    ensures IsTerminal(st.status) ==> r == st
    ensures !IsTerminal(st.status) ==> r.description == st.description + CancelNote
  {
    if st.status == Pending || st.status == InProgress then
      st.(status := Failed, description := st.description + CancelNote)
    else st
  }

  /**
   * `cancel`: every pending or in-progress step becomes `failed` with the
   * cancellation note; finished steps keep their state.
   */
  function Cancelled(s: seq<StepState>): (r: seq<StepState>)
    ensures |r| == |s|
  {
    seq(|s|, i requires 0 <= i < |s| => CancelStep(s[i]))
  }

  /**
   * After `cancel` every step has finished: a pending or in-progress step is
   * now `failed` with the cancellation note appended, a finished step is
   * unchanged, and no step changes id or timestamp.
   */
  lemma CancelledSettles(s: seq<StepState>)
    ensures var r := Cancelled(s);
            && (forall i :: 0 <= i < |s| ==> IsTerminal(r[i].status))
            && (forall i :: 0 <= i < |s| && !IsTerminal(s[i].status) ==>
                  r[i] == s[i].(status := Failed, description := s[i].description + CancelNote))
            && (forall i :: 0 <= i < |s| && IsTerminal(s[i].status) ==> r[i] == s[i])
            && (forall i :: 0 <= i < |s| ==> r[i].id == s[i].id && r[i].timestamp == s[i].timestamp)
  {
  }

  /** A second `cancel` has no further effect on the steps. */
  lemma CancelIdempotent(s: seq<StepState>)
    ensures Cancelled(Cancelled(s)) == Cancelled(s)
  {
  }

  /** Cancelling a process whose steps have all finished changes nothing. */
  lemma CancelFinishedIsNoOp(s: seq<StepState>)
    requires forall i :: 0 <= i < |s| ==> IsTerminal(s[i].status)
    ensures Cancelled(s) == s
  {
  }

  /**
   * `start`, from step `k` on: execute step k with its outcome and time; on an
   * error, mark failed the step `getCurrentStep` then finds and stop.
   */
  function RunFrom(s: seq<StepState>, k: nat, outcomes: seq<Outcome>, times: seq<int>): (r: seq<StepState>)
    requires k <= StepCount && |outcomes| == StepCount && |times| == StepCount
    ensures |r| == |s|
    decreases StepCount - k
  {
    if k == StepCount then s
    else
      var e := Execute(s, StepIds[k], times[k], outcomes[k]);
      match e.error
      case Some(message) => MarkFailed(e.steps, CurrentId(e.steps), message)
      case None => RunFrom(e.steps, k + 1, outcomes, times)
  }

  /** One step of `start` whose action returned: the run goes on from the next step. */
  lemma RunStepOk(s: seq<StepState>, k: nat, outcomes: seq<Outcome>, times: seq<int>)
    requires k < StepCount && |outcomes| == StepCount && |times| == StepCount
    requires Execute(s, StepIds[k], times[k], outcomes[k]).error.None?
    ensures RunFrom(s, k, outcomes, times) == RunFrom(Execute(s, StepIds[k], times[k], outcomes[k]).steps, k + 1, outcomes, times)
  {
  }

  /** One step of `start` whose action threw: the run ends with the current step marked failed. */
  lemma RunStepFails(s: seq<StepState>, k: nat, outcomes: seq<Outcome>, times: seq<int>)
    requires k < StepCount && |outcomes| == StepCount && |times| == StepCount
    requires Execute(s, StepIds[k], times[k], outcomes[k]).error.Some?
    ensures var e := Execute(s, StepIds[k], times[k], outcomes[k]);
            RunFrom(s, k, outcomes, times) == MarkFailed(e.steps, CurrentId(e.steps), e.error.value)
  {
  }

  /** A run whose first action throws ends there: the outcomes of the later actions do not matter. */
  lemma RunStopsAtFailure(s: seq<StepState>, outcomes: seq<Outcome>, others: seq<Outcome>, times: seq<int>)
    requires WellFormed(s) && |outcomes| == StepCount && |others| == StepCount && |times| == StepCount
    requires outcomes[0].Fail? && others[0] == outcomes[0]
    ensures RunFrom(s, 0, outcomes, times) == RunFrom(s, 0, others, times)
  {
  }

  /** What a whole `start` leaves, given the outcome of each step's action and the clock reading at each start. */
  function Run(s: seq<StepState>, outcomes: seq<Outcome>, times: seq<int>): (r: seq<StepState>)
    requires |outcomes| == StepCount && |times| == StepCount
    ensures |r| == |s|
  {
    RunFrom(s, 0, outcomes, times)
  }

  /** The initial steps with the first `j` completed at their clock readings. */
  function CompletedUpTo(j: nat, times: seq<int>): (r: seq<StepState>)
    requires j <= StepCount && |times| == StepCount
    ensures WellFormed(r)
  {
    seq(StepCount, i requires 0 <= i < StepCount =>
      if i < j then InitialSteps()[i].(status := Completed, timestamp := Some(times[i])) else InitialSteps()[i])
  }

  lemma {:induction false} RunCompletesPrefix(j: nat, k: nat, outcomes: seq<Outcome>, times: seq<int>)
    requires j <= k <= StepCount && |outcomes| == StepCount && |times| == StepCount
    requires forall i :: j <= i < k ==> outcomes[i] == Ok
    ensures RunFrom(CompletedUpTo(j, times), j, outcomes, times) == RunFrom(CompletedUpTo(k, times), k, outcomes, times)
    decreases k - j
  {
    if j < k {
      var s := CompletedUpTo(j, times);
      FindCanonical(s, j);
      var e := Execute(s, StepIds[j], times[j], outcomes[j]);
      assert e.steps == CompletedUpTo(j + 1, times);
      RunCompletesPrefix(j + 1, k, outcomes, times);
    }
  }

  /** If every action succeeds, all six steps end `completed`, each stamped when it started. */
  lemma RunSucceeds(outcomes: seq<Outcome>, times: seq<int>)
    requires |outcomes| == StepCount && |times| == StepCount
    requires forall i :: 0 <= i < StepCount ==> outcomes[i] == Ok
    ensures var r := Run(InitialSteps(), outcomes, times);
            && WellFormed(r)
            && (forall i :: 0 <= i < StepCount ==>
                  r[i].status == Completed && r[i].timestamp == Some(times[i])
                  && r[i].name == StepNames[i] && r[i].description == StepDescriptions[i])
            && ((forall i, j :: 0 <= i <= j < StepCount ==> times[i] <= times[j]) ==>
                  forall i, j :: 0 <= i <= j < StepCount ==> r[i].timestamp.value <= r[j].timestamp.value)
  {
    assert CompletedUpTo(0, times) == InitialSteps();
    RunCompletesPrefix(0, StepCount, outcomes, times);
  }

  /** The initial steps with the first `k` completed and step `k` failed, all at their clock readings. */
  function StoppedAt(k: nat, times: seq<int>): (r: seq<StepState>)
    requires k < StepCount && |times| == StepCount
    ensures WellFormed(r)
  {
    CompletedUpTo(k, times)[k := InitialSteps()[k].(status := Failed, timestamp := Some(times[k]))]
  }

  lemma ExecuteFails(k: nat, message: string, times: seq<int>)
    requires k < StepCount && |times| == StepCount
    ensures Execute(CompletedUpTo(k, times), StepIds[k], times[k], Fail(message)) == Execution(StoppedAt(k, times), Some(message))
  {
  }

  /** After step k failed, `getCurrentStep` finds the next step, or none after the last. */
  lemma CurrentAfterStop(k: nat, times: seq<int>)
    requires k < StepCount && |times| == StepCount
    ensures CurrentId(StoppedAt(k, times)) == if k + 1 < StepCount then StepIds[k + 1] else UnknownId
  {
  }

  /** What a run whose first failure is at step k leaves, written out step by step. */
  function FailedAt(k: nat, message: string, times: seq<int>): seq<StepState>
    requires k < StepCount && |times| == StepCount
  {
    seq(StepCount, i requires 0 <= i < StepCount =>
      if i < k then InitialSteps()[i].(status := Completed, timestamp := Some(times[i]))
      else if i == k then InitialSteps()[i].(status := Failed, timestamp := Some(times[i]))
      else if i == k + 1 then InitialSteps()[i].(status := Failed, description := StepDescriptions[i] + ErrorNote + message)
      else InitialSteps()[i])
  }

  /** Annotating the step `getCurrentStep` finds after a failure at step k gives `FailedAt`. */
  lemma MarkAfterStop(k: nat, message: string, times: seq<int>)
    requires k < StepCount && |times| == StepCount
    ensures var stopped := StoppedAt(k, times);
            MarkFailed(stopped, CurrentId(stopped), message) == FailedAt(k, message, times)
  {
    var stopped := StoppedAt(k, times);
    CurrentAfterStop(k, times);
    if k + 1 < StepCount {
      FindCanonical(stopped, k + 1);
    } else {
      StepIdsDistinct();
      assert FindStep(stopped, UnknownId) == None;
    }
  }

  /** A run whose first failing action is that of step k ends in `FailedAt(k, ...)`. */
  lemma RunReachesFailedAt(outcomes: seq<Outcome>, times: seq<int>, k: nat)
    requires |outcomes| == StepCount && |times| == StepCount && k < StepCount
    requires forall i :: 0 <= i < k ==> outcomes[i] == Ok
    requires outcomes[k].Fail?
    ensures Run(InitialSteps(), outcomes, times) == FailedAt(k, outcomes[k].message, times)
  {
    assert CompletedUpTo(0, times) == InitialSteps();
    RunCompletesPrefix(0, k, outcomes, times);
    var message := outcomes[k].message;
    ExecuteFails(k, message, times);
    MarkAfterStop(k, message, times);
  }

  /**
   * If the action of step k (counting from 0) is the first to fail: the steps
   * before it are `completed`; it is `failed` with its description unchanged;
   * the next step, which `getCurrentStep` finds, is `failed` with the error
   * appended and no timestamp; the rest stay `pending`. When the last step
   * fails, no description changes.
   */
  lemma RunFailsAt(outcomes: seq<Outcome>, times: seq<int>, k: nat)
    requires |outcomes| == StepCount && |times| == StepCount && k < StepCount
    requires forall i :: 0 <= i < k ==> outcomes[i] == Ok
    requires outcomes[k].Fail?
    ensures var r := Run(InitialSteps(), outcomes, times);
            var init := InitialSteps();
            && WellFormed(r)
            && (forall i :: 0 <= i < k ==> r[i] == init[i].(status := Completed, timestamp := Some(times[i])))
            && r[k] == init[k].(status := Failed, timestamp := Some(times[k]))
            && (k + 1 < StepCount ==>
                  r[k + 1] == init[k + 1].(status := Failed,
                                           description := StepDescriptions[k + 1] + ErrorNote + outcomes[k].message))
            && (forall i :: k + 1 < i < StepCount ==> r[i] == init[i])
  {
    RunReachesFailedAt(outcomes, times, k);
  }

  /** Cancelling after a fully successful run changes nothing. */
  lemma CancelAfterSuccess(outcomes: seq<Outcome>, times: seq<int>)
    requires |outcomes| == StepCount && |times| == StepCount
    requires forall i :: 0 <= i < StepCount ==> outcomes[i] == Ok
    ensures Cancelled(Run(InitialSteps(), outcomes, times)) == Run(InitialSteps(), outcomes, times)
  {
    RunSucceeds(outcomes, times);
    CancelFinishedIsNoOp(Run(InitialSteps(), outcomes, times));
  }

  /**
   * Cancelling after step k failed: the steps left `pending` become `failed`
   * with the cancellation note; the steps the run settled are untouched.
   */
  lemma CancelAfterFailure(outcomes: seq<Outcome>, times: seq<int>, k: nat)
    requires |outcomes| == StepCount && |times| == StepCount && k < StepCount
    requires forall i :: 0 <= i < k ==> outcomes[i] == Ok
    requires outcomes[k].Fail?
    ensures var r := Run(InitialSteps(), outcomes, times);
            var c := Cancelled(r);
            && (forall i :: 0 <= i <= k + 1 && i < StepCount ==> c[i] == r[i])
            && (forall i :: k + 1 < i < StepCount ==>
                  c[i] == InitialSteps()[i].(status := Failed, description := StepDescriptions[i] + CancelNote))
  {
    RunFailsAt(outcomes, times, k);
    InitialStepsShape();
    var r := Run(InitialSteps(), outcomes, times);
    CancelSettledPrefix(r, if k + 2 < StepCount then k + 2 else StepCount);
  }

  /** `cancel` on steps settled up to `m` and pending from there on. */
  lemma CancelSettledPrefix(r: seq<StepState>, m: nat)
    requires m <= |r|
    requires forall i :: 0 <= i < m ==> IsTerminal(r[i].status)
    requires forall i :: m <= i < |r| ==> r[i].status == Pending
    ensures forall i :: 0 <= i < m ==> Cancelled(r)[i] == r[i]
    ensures forall i :: m <= i < |r| ==>
              Cancelled(r)[i] == r[i].(status := Failed, description := r[i].description + CancelNote)
  {
  }
}
