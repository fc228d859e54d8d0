/**
 * The assistant side of a warm transfer (lib/ai-agent.ts): the call context,
 * the briefing assembled from three text generations, and `AgentOrchestrator`,
 * the registry of agents and of prepared transfer sessions.
 *
 * Each text generation is a collaborator call; it is given here as a
 * `Generation` value (the text produced, or a failure). What the key-points
 * and recommended-actions regular expressions capture from the summary text is
 * given as `Option<string>` beside it; the split/trim/filter/slice pipeline that
 * follows the match is modelled.
 */
module AiAgent {
  import opened Wrappers
  import opened JsString

  datatype Role = AgentA | AgentB
  datatype Urgency = Low | Medium | High
  datatype Sentiment = Positive | Neutral | Negative

  datatype CallContext = CallContext(
    callId: string,
    callerName: string,
    callDuration: nat,
    keyTopics: seq<string>,
    customerIssue: string,
    resolutionAttempts: seq<string>,
    urgencyLevel: Urgency,
    customerSentiment: Sentiment)

  datatype TransferSummary = TransferSummary(
    summary: string,
    keyPoints: seq<string>,
    recommendedActions: seq<string>,
    customerContext: string)

  /** An `AIAgent`: its three fields are set once by the constructor and never change. */
  datatype Agent = Agent(agentId: string, agentName: string, role: Role)

  datatype SessionStatus = Initiated | Briefing | Transferring | Completed | Failed

  /** What one text-generation call produced. */
  datatype Generation = Generated(text: string) | GenerationFailed

  /**
   * The three generations one transfer needs, in call order, and what the two
   * section regular expressions capture from the summary text (`None` when the
   * expression does not match).
   */
  datatype Generations = Generations(
    summary: Generation,
    keyPointsCapture: Option<string>,
    actionsCapture: Option<string>,
    script: Generation,
    opening: Generation)

  /** Everything `initiateWarmTransfer` prepares before it registers a session. */
  datatype Handoff = Handoff(summary: TransferSummary, script: string, response: string)

  const KeyPointsLimit: nat := 5
  const RecommendedActionsLimit: nat := 3

  const SummaryError := "Failed to generate call summary"
  const ScriptError := "Failed to generate transfer script"
  const OpeningError := "Failed to process incoming transfer"
  const AgentsNotFound := "Agents not found"

  /** No character of `e` is one the list is split on. */
  predicate NoSeparator(e: string) {
    forall i :: 0 <= i < |e| ==> !IsListSeparator(e[i])
  }

  /** Trims every piece and keeps the non-empty ones, in order. */
  function CleanPieces(pieces: seq<string>): (r: seq<string>)
    ensures |r| <= |pieces|
    ensures forall k :: 0 <= k < |r| ==> r[k] != [] && Trim(r[k]) == r[k]
  {
    if pieces == [] then []
    else
      var t := Trim(pieces[0]);
      TrimIdempotent(pieces[0]);
      var rest := CleanPieces(pieces[1..]);
      if |t| > 0 then [t] + rest else rest
  }

  /** Trimming adds no character, so a piece free of separators stays free of them. */
  lemma TrimKeepsNoSeparator(e: string)
    requires NoSeparator(e)
    ensures NoSeparator(Trim(e))
  {
    TrimSlice(e);
    var a, r := |e| - |TrimStart(e)|, Trim(e);
    assert forall i :: 0 <= i < |r| ==> r[i] == e[a + i];
  }

  lemma {:induction false} CleanPiecesKeepNoSeparator(pieces: seq<string>)
    requires forall k :: 0 <= k < |pieces| ==> NoSeparator(pieces[k])
    ensures forall k :: 0 <= k < |CleanPieces(pieces)| ==> NoSeparator(CleanPieces(pieces)[k])
  {
    if pieces != [] {
      var t, rest := Trim(pieces[0]), CleanPieces(pieces[1..]);
      assert forall k :: 0 <= k < |pieces[1..]| ==> NoSeparator(pieces[1..][k]) by {
        forall k | 0 <= k < |pieces[1..]| ensures NoSeparator(pieces[1..][k]) {
          assert pieces[1..][k] == pieces[k + 1];
        }
      }
      CleanPiecesKeepNoSeparator(pieces[1..]);
      TrimKeepsNoSeparator(pieces[0]);
      if |t| > 0 {
        assert CleanPieces(pieces) == [t] + rest;
      } else {
        assert CleanPieces(pieces) == rest;
      }
    }
  }

  /**
   * Every piece whose trim is non-empty is kept as that trim, and nothing
   * else is kept.
   */
  lemma {:induction false} CleanPiecesMembers(pieces: seq<string>)
    ensures forall e :: e in CleanPieces(pieces) <==> exists p :: p in pieces && Trim(p) == e && e != []
  {
    if pieces != [] {
      CleanPiecesMembers(pieces[1..]);
      assert pieces == [pieces[0]] + pieces[1..];
    }
  }

  /** Cleaning keeps the order of the pieces: it distributes over concatenation. */
  lemma {:induction false} CleanPiecesAppend(a: seq<string>, b: seq<string>)
    ensures CleanPieces(a + b) == CleanPieces(a) + CleanPieces(b)
  {
    if a == [] {
      assert a + b == b;
    } else {
      assert (a + b)[1..] == a[1..] + b;
      CleanPiecesAppend(a[1..], b);
    }
  }

  /**
   * The list pipeline shared by the two extractors: split the captured section,
   * trim, drop empty entries, keep the first `limit`.
   */
  function ExtractList(capture: Option<string>, limit: nat): (r: seq<string>)
    ensures |r| <= limit
    ensures capture.None? ==> r == []
    ensures forall k :: 0 <= k < |r| ==> r[k] != [] && Trim(r[k]) == r[k] && NoSeparator(r[k])
    ensures capture.Some? ==>
              var all := CleanPieces(SplitOnSeparators(capture.value));
              r <= all && (|r| == limit || r == all)
  {
    match capture
    case None => []
    case Some(section) =>
      var pieces := SplitOnSeparators(section);
      assert forall k :: 0 <= k < |pieces| ==> NoSeparator(pieces[k]);
      CleanPiecesKeepNoSeparator(pieces);
      var all := CleanPieces(pieces);
      if |all| <= limit then all else all[..limit]
  }

  /** `extractKeyPoints`: at most five trimmed, non-empty entries; none without a match. */
  function ExtractKeyPoints(capture: Option<string>): (r: seq<string>)
    ensures |r| <= 5
    ensures capture.None? ==> r == []
    ensures forall k :: 0 <= k < |r| ==> r[k] != [] && Trim(r[k]) == r[k]
  {
    ExtractList(capture, KeyPointsLimit)
  }

  /** `extractRecommendedActions`: at most three trimmed, non-empty entries; none without a match. */
  function ExtractRecommendedActions(capture: Option<string>): (r: seq<string>)
    ensures |r| <= 3
    ensures capture.None? ==> r == []
    ensures forall k :: 0 <= k < |r| ==> r[k] != [] && Trim(r[k]) == r[k]
  {
    ExtractList(capture, RecommendedActionsLimit)
  }

  function SentimentText(s: Sentiment): string {
    match s
    case Positive => "positive"
    case Neutral => "neutral"
    case Negative => "negative"
  }

  function UrgencyText(u: Urgency): string {
    match u
    case Low => "low"
    case Medium => "medium"
    case High => "high"
  }

  const DurationLead := " has been on the call for "
  const IssueLead := " minutes regarding "
  const SentimentLead := ". Customer sentiment is "
  const UrgencyLead := " with "
  const UrgencyTail := " urgency."

  /** The pieces of the customer-context sentence, in order: five fields between fixed texts. */
  function ContextParts(ctx: CallContext): seq<string> {
    [ctx.callerName, DurationLead, NatToString(ctx.callDuration), IssueLead, ctx.customerIssue,
     SentimentLead, SentimentText(ctx.customerSentiment), UrgencyLead, UrgencyText(ctx.urgencyLevel), UrgencyTail]
  }

  /**
   * `extractCustomerContext`: the pieces joined. The sentence opens with the
   * caller's name and closes with " urgency."; CustomerContextFields places
   * every field.
   */
  function ExtractCustomerContext(ctx: CallContext): (r: string)
    ensures ctx.callerName <= r
    ensures |UrgencyTail| <= |r| && r[|r| - |UrgencyTail|..] == UrgencyTail
  {
    var parts := ContextParts(ctx);
    ConcatSplit(parts[..UrgencyField + 1], [UrgencyTail]);
    assert parts[..UrgencyField + 1] + [UrgencyTail] == parts;
    Concat(parts)
  }

  /** The indices in `ContextParts` of the caller name, duration, issue, sentiment and urgency. */
  const NameField: nat := 0
  const DurationField: nat := 2
  const IssueField: nat := 4
  const SentimentField: nat := 6
  const UrgencyField: nat := 8

  /**
   * The sentence holds caller name, duration, issue, sentiment and urgency,
   * each right after the pieces before it, and the duration written there reads
   * back as the number.
   */
  lemma CustomerContextFields(ctx: CallContext)
    ensures
      var r, parts := ExtractCustomerContext(ctx), ContextParts(ctx);
      && |r| == |Concat(parts[..UrgencyField + 1])| + |UrgencyTail|
      && (forall i :: 0 <= i < |parts| ==> Occurs(r, |Concat(parts[..i])|, parts[i]))
      && parts[NameField] == ctx.callerName && parts[IssueField] == ctx.customerIssue
      && parts[SentimentField] == SentimentText(ctx.customerSentiment)
      && parts[UrgencyField] == UrgencyText(ctx.urgencyLevel)
      && ParseDecimal(parts[DurationField]) == ctx.callDuration
  {
    var parts := ContextParts(ctx);
    forall i | 0 <= i < |parts| ensures Occurs(Concat(parts), |Concat(parts[..i])|, parts[i]) {
      ConcatOccurs(parts, i);
    }
    ConcatSplit(parts[..UrgencyField + 1], [UrgencyTail]);
    assert parts[..UrgencyField + 1] + [UrgencyTail] == parts;
    DecimalRoundTrip(ctx.callDuration);
  }

  /**
   * `generateCallSummary`: the summary is the generated text itself, the lists
   * come from the captured sections, the customer context from the call
   * context; any generation error becomes one fixed message.
   */
  function GenerateCallSummary(ctx: CallContext, g: Generations): (r: Result<TransferSummary, string>)
    ensures r.Success? <==> g.summary.Generated?
    ensures r.Failure? ==> r.error == SummaryError
    ensures r.Success? ==>
              && r.value.summary == g.summary.text
              && r.value.keyPoints == ExtractKeyPoints(g.keyPointsCapture)
              && r.value.recommendedActions == ExtractRecommendedActions(g.actionsCapture)
              && r.value.customerContext == ExtractCustomerContext(ctx)
              && |r.value.keyPoints| <= 5 && |r.value.recommendedActions| <= 3
  {
    match g.summary
    case GenerationFailed => Failure(SummaryError)
    case Generated(text) =>
      Success(TransferSummary(
        text,
        ExtractKeyPoints(g.keyPointsCapture),
        ExtractRecommendedActions(g.actionsCapture),
        ExtractCustomerContext(ctx)))
  }

  /** `generateTransferScript` and `processIncomingTransfer`: the trimmed text, or the given error. */
  function TrimmedGeneration(gen: Generation, error: string): (r: Result<string, string>)
    ensures r.Success? <==> gen.Generated?
    ensures r.Failure? ==> r.error == error
    ensures r.Success? ==> r.value == Trim(gen.text) && Trim(r.value) == r.value
  {
    match gen
    case GenerationFailed => Failure(error)
    case Generated(text) => TrimIdempotent(text); Success(Trim(text))
  }

  /**
   * The three generations `initiateWarmTransfer` awaits in order; the first
   * failure stops the sequence and its message is the result.
   */
  function PrepareHandoff(ctx: CallContext, g: Generations): (r: Result<Handoff, string>)
    ensures r.Success? <==> g.summary.Generated? && g.script.Generated? && g.opening.Generated?
    ensures r.Failure? ==>
              r.error == (if g.summary.GenerationFailed? then SummaryError
                          else if g.script.GenerationFailed? then ScriptError
                          else OpeningError)
    ensures r.Success? ==>
              && GenerateCallSummary(ctx, g).Success? && r.value.summary == GenerateCallSummary(ctx, g).value
              && r.value.summary.summary == g.summary.text
              && r.value.script == Trim(g.script.text)
              && r.value.response == Trim(g.opening.text)
  {
    match GenerateCallSummary(ctx, g)
    case Failure(e) => Failure(e)
    case Success(summary) =>
      match TrimmedGeneration(g.script, ScriptError)
      case Failure(e) => Failure(e)
      case Success(script) =>
        match TrimmedGeneration(g.opening, OpeningError)
        case Failure(e) => Failure(e)
        case Success(response) => Success(Handoff(summary, script, response))
  }

  /** A `TransferSession` record: every field is fixed at creation except `status`. */
  class TransferSession {
    const id: string
    const agentAId: string
    const agentBId: string
    const callContext: CallContext
    const transferSummary: TransferSummary
    const transferScript: string
    const agentBResponse: string
    var status: SessionStatus
    const createdAt: int

    constructor (id: string, agentAId: string, agentBId: string, callContext: CallContext,
                 handoff: Handoff, createdAt: int)
      ensures this.id == id && this.agentAId == agentAId && this.agentBId == agentBId
      ensures this.callContext == callContext && this.createdAt == createdAt
      ensures transferSummary == handoff.summary && transferScript == handoff.script
      ensures agentBResponse == handoff.response
      ensures status == Initiated
    {
      this.id := id;
      this.agentAId := agentAId;
      this.agentBId := agentBId;
      this.callContext := callContext;
      this.transferSummary := handoff.summary;
      this.transferScript := handoff.script;
      this.agentBResponse := handoff.response;
      this.status := Initiated;
      this.createdAt := createdAt;
    }
  }

  /** `AgentOrchestrator`: agents by id and prepared sessions by session id. */
  class AgentOrchestrator {
    var agents: map<string, Agent>
    var activeTransfers: map<string, TransferSession>

    /** Every session is stored under its own id. */
    ghost predicate Valid()
      reads this
    {
      forall id :: id in activeTransfers ==> activeTransfers[id].id == id
    }

    constructor ()
      ensures Valid() && agents == map[] && activeTransfers == map[]
    {
      agents := map[];
      activeTransfers := map[];
    }

    /** `createAgent`: stores the agent under its id, replacing any agent already there. */
    method CreateAgent(agentId: string, agentName: string, role: Role) returns (agent: Agent)
      requires Valid()
      modifies this
      ensures Valid()
      ensures agent == Agent(agentId, agentName, role)
      ensures agents == old(agents)[agentId := agent]
      ensures activeTransfers == old(activeTransfers)
    {
      agent := Agent(agentId, agentName, role);
      agents := agents[agentId := agent];
    }

    /** `getAgent` */
    method GetAgent(agentId: string) returns (agent: Option<Agent>)
      ensures agent.Some? <==> agentId in agents
      ensures agent.Some? ==> agent.value == agents[agentId]
    {
      agent := if agentId in agents then Some(agents[agentId]) else None;
    }

    /**
     * `initiateWarmTransfer`: both agents must be registered; the briefing is
     * prepared; the new session is registered under `sessionId` with status
     * `Initiated`. On any error nothing is registered.
     */
    method InitiateWarmTransfer(agentAId: string, agentBId: string, callContext: CallContext,
                                g: Generations, sessionId: string, now: int)
      returns (r: Result<TransferSession, string>)
      requires Valid()
      modifies this
      ensures Valid()
      ensures agents == old(agents)
      ensures r.Failure? ==> activeTransfers == old(activeTransfers)
      ensures agentAId !in agents || agentBId !in agents ==> r == Failure(AgentsNotFound)
      ensures agentAId in agents && agentBId in agents ==>
                match PrepareHandoff(callContext, g)
                case Failure(e) => r == Failure(e)
                case Success(b) =>
                  && r.Success? && fresh(r.value)
                  && activeTransfers == old(activeTransfers)[sessionId := r.value]
                  && r.value.id == sessionId && r.value.status == Initiated
                  && r.value.agentAId == agentAId && r.value.agentBId == agentBId
                  && r.value.callContext == callContext && r.value.createdAt == now
                  && r.value.transferSummary == b.summary
                  && r.value.transferScript == b.script && r.value.agentBResponse == b.response
    {
      if agentAId !in agents || agentBId !in agents {
        return Failure(AgentsNotFound);
      }
      // The summary, script and opening generations, awaited in that order.
      var handoff := PrepareHandoff(callContext, g);
      if handoff.Failure? {
        return Failure(handoff.error);
      }
      var session := new TransferSession(sessionId, agentAId, agentBId, callContext, handoff.value, now);
      activeTransfers := activeTransfers[session.id := session];
      r := Success(session);
    }

    /** `getTransferSession` */
    method GetTransferSession(transferId: string) returns (session: TransferSession?)
      requires Valid()
      ensures session != null <==> transferId in activeTransfers
      ensures session != null ==> session == activeTransfers[transferId] && session.id == transferId
    {
      session := if transferId in activeTransfers then activeTransfers[transferId] else null;
    }

    /** `updateTransferStatus`: only the status of that one session changes; unknown ids are ignored. */
    method UpdateTransferStatus(transferId: string, status: SessionStatus)
      requires Valid()
      modifies if transferId in activeTransfers then {activeTransfers[transferId]} else {}
      ensures Valid()
      ensures transferId in activeTransfers ==> activeTransfers[transferId].status == status
      ensures forall id :: id in activeTransfers && id != transferId ==>
                activeTransfers[id].status == old(activeTransfers[id].status)
    {
      if transferId in activeTransfers {
        var session := activeTransfers[transferId];
        session.status := status;
      }
    }
  }
}
