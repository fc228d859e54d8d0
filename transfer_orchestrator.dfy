/**
 * The warm-transfer engine of lib/transfer-orchestrator.ts as objects:
 * `Step` records mutated in place, `WarmTransferProcess` owning six of them
 * and running them in order, and `WarmTransferOrchestrator`, the registry of
 * processes by transfer id. The methods that build, run, search or change the
 * steps are proved against the value-level functions of module TransferSteps;
 * the lookups and the orchestrator's constructor are stated on its map and fields.
 */
module TransferOrchestrator {
  import opened Wrappers
  import opened TransferSteps
  import AiAgent

  /** One `TransferStep`; `status`, `description` and `timestamp` change in place. */
  class Step {
    const id: string
    const name: string
    var status: Status
    var description: string
    var timestamp: Option<int>
    /** The transfer whose process owns this step, and the step's place in its list. */
    ghost const transferId: string
    ghost const position: nat

    constructor (id: string, name: string, description: string, ghost transferId: string, ghost position: nat)
      ensures State() == StepState(id, name, Pending, description, None)
      ensures this.transferId == transferId && this.position == position
    {
      this.id := id;
      this.name := name;
      this.status := Pending;
      this.description := description;
      this.timestamp := None;
      this.transferId := transferId;
      this.position := position;
    }

    function State(): StepState
      reads this
    {
      StepState(id, name, status, description, timestamp)
    }
  }

  /** The current states of a list of step objects. */
  function States(ss: seq<Step>): (r: seq<StepState>)
    reads ss
    ensures |r| == |ss|
  {
    seq(|ss|, i requires 0 <= i < |ss| reads ss => ss[i].State())
  }

  /**
   * What the collaborators of `start` produce: the session id the agent
   * registry draws, the three text generations, the session's creation time,
   * whether speaking the transfer script ends or errors, and the clock reading
   * (`new Date()`) at the start of each of the six steps.
   */
  datatype Collaborators = Collaborators(
    sessionId: string,
    generations: AiAgent.Generations,
    sessionCreatedAt: int,
    speech: Outcome,
    times: seq<int>)

  /** How the action of step 1 ends: with the message of the error `initiateWarmTransfer` throws, if any. */
  function SummaryOutcome(ctx: AiAgent.CallContext, g: AiAgent.Generations): (o: Outcome)
    ensures o.Ok? <==> AiAgent.PrepareHandoff(ctx, g).Success?
    ensures o.Fail? ==> AiAgent.PrepareHandoff(ctx, g).Failure? && o.message == AiAgent.PrepareHandoff(ctx, g).error
  {
    match AiAgent.PrepareHandoff(ctx, g)
    case Failure(e) => Fail(e)
    case Success(_) => Ok
  }

  /**
   * The outcome of each step's action in `start`. Steps 2, 3, 5 and 6 only log
   * and wait, so they cannot fail; step 4 ends as speaking the script does (it
   * only runs after step 1 has stored a session).
   */
  function StartOutcomes(ctx: AiAgent.CallContext, env: Collaborators): (r: seq<Outcome>)
    ensures |r| == StepCount
    ensures r[1] == Ok && r[2] == Ok && r[4] == Ok && r[5] == Ok
  {
    [SummaryOutcome(ctx, env.generations), Ok, Ok, env.speech, Ok, Ok]
  }

  const AgentAPrefix := "agent_a_"
  const AgentBPrefix := "agent_b_"
  const AgentBName := "Agent B"

  /**
   * The session step 1 of `start` obtains for `transferId` when the handoff is
   * prepared: status `initiated`, the drawn id and creation time, the agent ids
   * of A and B, the call context, and the summary, script and opening that
   * preparing the handoff produced.
   */
  ghost predicate PreparedSession(session: AiAgent.TransferSession, transferId: string,
                                  callContext: AiAgent.CallContext, env: Collaborators)
    reads session
  {
    var handoff := AiAgent.PrepareHandoff(callContext, env.generations);
    && handoff.Success?
    && session.id == env.sessionId && session.status == AiAgent.Initiated
    && session.createdAt == env.sessionCreatedAt && session.callContext == callContext
    && session.agentAId == AgentAPrefix + transferId && session.agentBId == AgentBPrefix + transferId
    && session.transferSummary == handoff.value.summary
    && session.transferScript == handoff.value.script
    && session.agentBResponse == handoff.value.response
  }

  /**
   * What `start` of a new process for `transferId` leaves in the agent
   * registry, from its maps `agentsBefore` and `sessionsBefore`. Agents A and B
   * are registered. When the handoff is prepared, `session` is the new session
   * and is registered under its id; otherwise no session is kept or registered.
   */
  ghost predicate StartRegistered(agents: AiAgent.AgentOrchestrator, agentsBefore: map<string, AiAgent.Agent>,
                                  sessionsBefore: map<string, AiAgent.TransferSession>, transferId: string,
                                  agentAName: string, callContext: AiAgent.CallContext, env: Collaborators,
                                  session: AiAgent.TransferSession?)
    reads agents, session
  {
    && agents.agents ==
         agentsBefore[AgentAPrefix + transferId := AiAgent.Agent(AgentAPrefix + transferId, agentAName, AiAgent.AgentA)]
                     [AgentBPrefix + transferId := AiAgent.Agent(AgentBPrefix + transferId, AgentBName, AiAgent.AgentB)]
    && (AiAgent.PrepareHandoff(callContext, env.generations).Failure? ==>
          session == null && agents.activeTransfers == sessionsBefore)
    && (AiAgent.PrepareHandoff(callContext, env.generations).Success? ==>
          && session != null
          && agents.activeTransfers == sessionsBefore[env.sessionId := session]
          && PreparedSession(session, transferId, callContext, env))
  }

  class WarmTransferProcess {
    const transferId: string
    const originalRoomName: string
    const callerName: string
    const agentAName: string
    const callContext: AiAgent.CallContext
    const steps: seq<Step>
    var transferSession: AiAgent.TransferSession?

    /**
     * Six step objects with ids "1" to "6", in order, all owned by this
     * transfer; each knows its place, so no two are the same object.
     */
    ghost predicate Valid() {
      && |steps| == StepCount
      && (forall i :: 0 <= i < StepCount ==>
            steps[i].id == StepIds[i] && steps[i].transferId == transferId && steps[i].position == i)
      && StepsExclude(this)
    }

    /** None of the steps is the object `o`. */
    ghost predicate StepsExclude(o: object)
    {
      forall i :: 0 <= i < |steps| ==> steps[i] != o
    }

    /** The steps' current states, in order. */
    function Snapshot(): seq<StepState>
      reads steps
    {
      States(steps)
    }

    /** `initializeSteps`: six new pending step objects. */
    static method InitializeSteps(ghost transferId: string) returns (ss: seq<Step>)
      ensures |ss| == StepCount && States(ss) == InitialSteps()
      ensures forall i :: 0 <= i < StepCount ==> fresh(ss[i]) && ss[i].transferId == transferId && ss[i].position == i
    {
      var s1 := new Step(StepIds[0], StepNames[0], StepDescriptions[0], transferId, 0);
      var s2 := new Step(StepIds[1], StepNames[1], StepDescriptions[1], transferId, 1);
      var s3 := new Step(StepIds[2], StepNames[2], StepDescriptions[2], transferId, 2);
      var s4 := new Step(StepIds[3], StepNames[3], StepDescriptions[3], transferId, 3);
      var s5 := new Step(StepIds[4], StepNames[4], StepDescriptions[4], transferId, 4);
      var s6 := new Step(StepIds[5], StepNames[5], StepDescriptions[5], transferId, 5);
      ss := [s1, s2, s3, s4, s5, s6];
    }

    constructor (transferId: string, originalRoomName: string, callerName: string, agentAName: string,
                 callContext: AiAgent.CallContext)
      ensures Valid() && Snapshot() == InitialSteps()
      ensures forall i :: 0 <= i < |steps| ==> fresh(steps[i])
      ensures this.transferId == transferId && this.originalRoomName == originalRoomName
      ensures this.callerName == callerName && this.agentAName == agentAName
      ensures this.callContext == callContext && transferSession == null
    {
      this.transferId := transferId;
      this.originalRoomName := originalRoomName;
      this.callerName := callerName;
      this.agentAName := agentAName;
      this.callContext := callContext;
      this.transferSession := null;
      var ss := InitializeSteps(transferId);
      this.steps := ss;
      new;
      InitialStepsShape();
    }

    /** `steps.find(s => s.id === stepId)` */
    method FindStepById(stepId: string) returns (step: Step?)
      requires Valid()
      ensures step == null <==> FindStep(Snapshot(), stepId).None?
      ensures step != null ==> step == steps[FindStep(Snapshot(), stepId).value]
    {
      var i := 0;
      while i < |steps|
        invariant 0 <= i <= |steps|
        invariant FindFrom(Snapshot(), stepId, i) == FindStep(Snapshot(), stepId)
      {
        if steps[i].id == stepId {
          return steps[i];
        }
        i := i + 1;
      }
      return null;
    }

    /** `getCurrentStep`: the first step that is pending or in progress. */
    method GetCurrentStep() returns (step: Step?)
      requires Valid()
      ensures step == null <==> FirstUnfinishedFrom(Snapshot(), 0).None?
      ensures step != null ==> step == steps[FirstUnfinishedFrom(Snapshot(), 0).value]
    {
      var i := 0;
      while i < |steps|
        invariant 0 <= i <= |steps|
        invariant FirstUnfinishedFrom(Snapshot(), i) == FirstUnfinishedFrom(Snapshot(), 0)
      {
        if steps[i].status == InProgress || steps[i].status == Pending {
          return steps[i];
        }
        i := i + 1;
      }
      return null;
    }

    /**
     * `executeStep`: the step goes `in-progress` stamped with `now`, then
     * `completed` when the action returned or `failed` when it threw, in which
     * case the error is passed on. No other step changes.
     */
    method ExecuteStep(stepId: string, now: int, outcome: Outcome) returns (error: Option<string>)
      requires Valid()
      modifies steps
      ensures Execution(Snapshot(), error) == Execute(old(Snapshot()), stepId, now, outcome)
    {
      var step := FindStepById(stepId);
      if step == null {
        return None;
      }
      ghost var i := FindStep(Snapshot(), stepId).value;
      step.status := InProgress;
      step.timestamp := Some(now);
      match outcome {
        case Ok =>
          step.status := Completed;
          error := None;
        case Fail(message) =>
          step.status := Failed;
          error := Some(message);
      }
      assert forall j :: 0 <= j < |steps| && j != i ==> steps[j].State() == old(steps[j].State());
    }

    /** `markStepFailed`: that step becomes `failed` and its description gains " - Error: <message>". */
    method MarkStepFailed(stepId: string, message: string)
      requires Valid()
      modifies steps
      ensures Snapshot() == MarkFailed(old(Snapshot()), stepId, message)
    {
      var step := FindStepById(stepId);
      if step != null {
        ghost var i := FindStep(Snapshot(), stepId).value;
        step.status := Failed;
        step.description := step.description + ErrorNote + message;
        assert forall j :: 0 <= j < |steps| && j != i ==> steps[j].State() == old(steps[j].State());
      }
    }

    /** The `catch` of `start`: marks failed the step `getCurrentStep` finds, or none ("unknown"). */
    method MarkCurrentStepFailed(message: string)
      requires Valid()
      modifies steps
      ensures Snapshot() == MarkFailed(old(Snapshot()), CurrentId(old(Snapshot())), message)
    {
      var current := GetCurrentStep();
      var id := if current != null && current.id != "" then current.id else UnknownId;
      MarkStepFailed(id, message);
    }

    /** Runs step k (counting from 0) with the given outcome; on an error, runs the `catch` of `start`. */
    method RunStep(k: nat, now: int, outcome: Outcome, ghost outcomes: seq<Outcome>, ghost times: seq<int>)
      returns (failed: bool)
      requires Valid() && k < StepCount && |outcomes| == StepCount && |times| == StepCount
      requires outcomes[k] == outcome && times[k] == now
      modifies steps
      ensures failed <==> outcome.Fail?
      ensures failed ==> Snapshot() == RunFrom(old(Snapshot()), k, outcomes, times)
      ensures !failed ==> RunFrom(Snapshot(), k + 1, outcomes, times) == RunFrom(old(Snapshot()), k, outcomes, times)
    {
      ghost var s := Snapshot();
      FindCanonical(s, k);
      var error := ExecuteStep(StepIds[k], now, outcome);
      if error.Some? {
        RunStepFails(s, k, outcomes, times);
        MarkCurrentStepFailed(error.value);
        return true;
      }
      RunStepOk(s, k, outcomes, times);
      return false;
    }

    /**
     * Steps k+1 to 6 of `start` in order, each with its action's outcome, until
     * the first error (after which the `catch` has run). In `start` these are:
     * step 2 creates the transfer room (only logged), step 3 lets agent B join,
     * step 4 speaks the transfer script, step 5 moves the caller and step 6
     * lets agent A leave (delays only).
     */
    method RunSteps(k: nat, outcomes: seq<Outcome>, times: seq<int>)
      requires Valid() && k <= StepCount && |outcomes| == StepCount && |times| == StepCount
      modifies steps
      ensures Snapshot() == RunFrom(old(Snapshot()), k, outcomes, times)
      decreases StepCount - k
    {
      if k < StepCount {
        var failed := RunStep(k, times[k], outcomes[k], outcomes, times);
        if !failed {
          RunSteps(k + 1, outcomes, times);
        }
      }
    }

    /**
     * The action of step 1 of `start`: registers agents A ("agent_a_<id>", the
     * given name) and B ("agent_b_<id>", "Agent B") with `agents`, then asks it
     * for a session; a session obtained is kept for step 4, and a refusal is
     * the step's error. Both agents were just registered, so only the
     * generation of the handoff texts can refuse.
     */
    method PrepareTransfer(agents: AiAgent.AgentOrchestrator, env: Collaborators) returns (outcome: Outcome)
      requires agents.Valid()
      modifies this, agents
      ensures agents.Valid()
      ensures outcome == SummaryOutcome(callContext, env.generations)
      ensures agents.agents ==
                old(agents.agents)[AgentAPrefix + transferId := AiAgent.Agent(AgentAPrefix + transferId, agentAName, AiAgent.AgentA)]
                                  [AgentBPrefix + transferId := AiAgent.Agent(AgentBPrefix + transferId, AgentBName, AiAgent.AgentB)]
      ensures outcome.Fail? ==>
                transferSession == old(transferSession) && agents.activeTransfers == old(agents.activeTransfers)
      ensures outcome.Ok? ==>
                && transferSession != null && fresh(transferSession)
                && agents.activeTransfers == old(agents.activeTransfers)[env.sessionId := transferSession]
                && PreparedSession(transferSession, transferId, callContext, env)
    {
      var agentAId := AgentAPrefix + transferId;
      var agentBId := AgentBPrefix + transferId;
      var _ := agents.CreateAgent(agentAId, agentAName, AiAgent.AgentA);
      var _ := agents.CreateAgent(agentBId, AgentBName, AiAgent.AgentB);
      var session := agents.InitiateWarmTransfer(agentAId, agentBId, callContext, env.generations,
                                                 env.sessionId, env.sessionCreatedAt);
      if session.Success? {
        transferSession := session.value;
        outcome := Ok;
      } else {
        outcome := Fail(session.error);
      }
    }

    /**
     * `start`: runs the six steps in order and stops at the first error, then
     * marks failed the step `getCurrentStep` finds, with the error message.
     * Step 1 registers agents A and B with `agents` and prepares a session
     * there; the session is kept for step 4.
     */
    method Start(agents: AiAgent.AgentOrchestrator, env: Collaborators)
      requires Valid() && agents.Valid() && |env.times| == StepCount
      modifies this, steps, agents
      ensures Valid() && agents.Valid()
      ensures Snapshot() == Run(old(Snapshot()), StartOutcomes(callContext, env), env.times)
      ensures agents.agents ==
                old(agents.agents)[AgentAPrefix + transferId := AiAgent.Agent(AgentAPrefix + transferId, agentAName, AiAgent.AgentA)]
                                  [AgentBPrefix + transferId := AiAgent.Agent(AgentBPrefix + transferId, AgentBName, AiAgent.AgentB)]
      ensures AiAgent.PrepareHandoff(callContext, env.generations).Failure? ==>
                transferSession == old(transferSession) && agents.activeTransfers == old(agents.activeTransfers)
      ensures AiAgent.PrepareHandoff(callContext, env.generations).Success? ==>
                && transferSession != null && fresh(transferSession)
                && agents.activeTransfers == old(agents.activeTransfers)[env.sessionId := transferSession]
                && PreparedSession(transferSession, transferId, callContext, env)
    {
      ghost var outcomes := StartOutcomes(callContext, env);
      var times := env.times;
      var outcome := PrepareTransfer(agents, env);
      // Step 4 speaks only when a session is stored; only step 1 stores one.
      var speech := if transferSession != null then env.speech else Ok;
      ghost var registered, sessions, session := agents.agents, agents.activeTransfers, transferSession;
      var actions := [outcome, Ok, Ok, speech, Ok, Ok];
      if outcome.Ok? {
        assert actions == outcomes;
      } else {
        RunStopsAtFailure(old(Snapshot()), actions, outcomes, times);
      }
      assert Snapshot() == old(Snapshot());
      RunSteps(0, actions, times);
      assert agents.agents == registered && agents.activeTransfers == sessions && transferSession == session;
    }

    /**
     * `cancel`: every pending or in-progress step becomes `failed` with
     * " - Transfer cancelled"; finished steps are left alone. Stopping speech
     * has no effect on this state, and the room handles it would disconnect
     * are never assigned.
     */
    method Cancel()
      requires Valid()
      modifies steps
      ensures Snapshot() == Cancelled(old(Snapshot()))
    {
      for i := 0 to |steps|
        invariant forall j :: 0 <= j < i ==> steps[j].State() == CancelStep(old(steps[j].State()))
        invariant forall j :: i <= j < |steps| ==> steps[j].State() == old(steps[j].State())
      {
        var step := steps[i];
        if step.status == Pending || step.status == InProgress {
          step.status := Failed;
          step.description := step.description + CancelNote;
        }
      }
    }

    /** `getSteps`: a new list holding the same step objects, in order. */
    method GetSteps() returns (r: seq<Step>)
      requires Valid()
      ensures r == steps && |r| == StepCount
      ensures States(r) == Snapshot()
    {
      r := steps;
    }

    /** `getTransferSession` */
    method GetTransferSession() returns (session: AiAgent.TransferSession?)
      ensures session == transferSession
    {
      session := transferSession;
    }
  }

  /** `WarmTransferOrchestrator`: processes by transfer id. */
  class WarmTransferOrchestrator {
    var activeTransfers: map<string, WarmTransferProcess>

    /** Every process is valid and stored under its own transfer id. */
    ghost predicate Valid()
      reads this
    {
      forall id :: id in activeTransfers ==> activeTransfers[id].transferId == id && activeTransfers[id].Valid()
    }

    constructor ()
      ensures Valid() && activeTransfers == map[]
    {
      activeTransfers := map[];
    }

    /**
     * `initiateWarmTransfer`: registers a new process under `transferId` (the
     * drawn UUID), runs it to its end and returns the id. The entry stays
     * whether the run succeeded or failed; other entries keep their process,
     * and since no step object existing before the call is in the `modifies`
     * clause, their steps keep their states too.
     */
    method InitiateWarmTransfer(originalRoomName: string, callerName: string, agentAName: string,
                                callContext: AiAgent.CallContext, transferId: string,
                                agents: AiAgent.AgentOrchestrator, env: Collaborators)
      returns (id: string)
      requires Valid() && agents.Valid() && |env.times| == StepCount
      modifies this, agents
      ensures Valid() && agents.Valid()
      ensures id == transferId
      ensures activeTransfers.Keys == old(activeTransfers).Keys + {id}
      ensures fresh(activeTransfers[id])
      ensures activeTransfers[id].callerName == callerName && activeTransfers[id].callContext == callContext
      ensures activeTransfers[id].agentAName == agentAName && activeTransfers[id].originalRoomName == originalRoomName
      ensures activeTransfers[id].Snapshot() == Run(InitialSteps(), StartOutcomes(callContext, env), env.times)
      ensures forall k :: k in old(activeTransfers) && k != id ==> activeTransfers[k] == old(activeTransfers[k])
      ensures StartRegistered(agents, old(agents.agents), old(agents.activeTransfers), id, agentAName, callContext, env,
                              activeTransfers[id].transferSession)
      ensures activeTransfers[id].transferSession != null ==> fresh(activeTransfers[id].transferSession)
    {
      // `initiateWarmTransfer` stores the process before starting it; `start` never reads this
      // registry, so storing it once it has run ends in the same state.
      var process := Launch(originalRoomName, callerName, agentAName, callContext, transferId, agents, env);
      activeTransfers := activeTransfers[transferId := process];
      id := transferId;
    }

    /** A new process for `transferId`, started to its end. */
    static method Launch(originalRoomName: string, callerName: string, agentAName: string,
                         callContext: AiAgent.CallContext, transferId: string,
                         agents: AiAgent.AgentOrchestrator, env: Collaborators)
      returns (process: WarmTransferProcess)
      requires agents.Valid() && |env.times| == StepCount
      modifies agents
      ensures fresh(process) && process.Valid() && agents.Valid()
      ensures process.transferId == transferId && process.callerName == callerName
      ensures process.agentAName == agentAName && process.originalRoomName == originalRoomName
      ensures process.callContext == callContext
      ensures process.Snapshot() == Run(InitialSteps(), StartOutcomes(callContext, env), env.times)
      ensures StartRegistered(agents, old(agents.agents), old(agents.activeTransfers), transferId, agentAName,
                              callContext, env, process.transferSession)
      ensures process.transferSession != null ==> fresh(process.transferSession)
    {
      process := new WarmTransferProcess(transferId, originalRoomName, callerName, agentAName, callContext);
      process.Start(agents, env);
    }

    /** `getTransferProcess` */
    method GetTransferProcess(transferId: string) returns (process: WarmTransferProcess?)
      requires Valid()
      ensures process == null <==> transferId !in activeTransfers
      ensures process != null ==> process == activeTransfers[transferId] && process.transferId == transferId
    {
      process := if transferId in activeTransfers then activeTransfers[transferId] else null;
    }

    /**
     * `getTransferStatus`: no steps for an unknown id; otherwise a new list of
     * that process's six step objects, shared with the process.
     */
    method GetTransferStatus(transferId: string) returns (r: seq<Step>)
      requires Valid()
      ensures transferId !in activeTransfers ==> r == []
      ensures transferId in activeTransfers ==>
                r == activeTransfers[transferId].steps && |r| == StepCount
                && States(r) == activeTransfers[transferId].Snapshot()
    {
      if transferId in activeTransfers {
        r := activeTransfers[transferId].GetSteps();
      } else {
        r := [];
      }
    }

    /**
     * `cancelTransfer`: a registered process is cancelled and its entry
     * removed; other entries and their steps are untouched. An unknown id is
     * ignored, so cancelling twice is harmless.
     */
    method CancelTransfer(transferId: string)
      requires Valid()
      modifies this, if transferId in activeTransfers then activeTransfers[transferId].steps else []
      ensures Valid()
      ensures activeTransfers == old(activeTransfers) - {transferId}
      ensures transferId in old(activeTransfers) ==>
                old(activeTransfers)[transferId].Snapshot() == Cancelled(old(activeTransfers[transferId].Snapshot()))
      ensures forall k :: k in activeTransfers ==> activeTransfers[k].Snapshot() == old(activeTransfers[k].Snapshot())
    {
      if transferId in activeTransfers {
        var process := activeTransfers[transferId];
        process.Cancel();
        activeTransfers := activeTransfers - {transferId};
      }
    }
  }
}
