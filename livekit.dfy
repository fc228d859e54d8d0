/**
 * The call-session registry of lib/livekit.ts: `LiveKitManager` keeps sessions
 * by id; a session's participant list grows by appending and shrinks by
 * filtering out an id, and its status is overwritten in place.
 */
module LiveKit {
  import opened Wrappers

  datatype ParticipantRole = Caller | AgentA | AgentB
  datatype SessionStatus = Active | Transferring | Completed

  datatype CallParticipant = CallParticipant(id: string, name: string, role: ParticipantRole, isConnected: bool)

  /** `participants.filter(p => p.id !== participantId)` */
  function Without(ps: seq<CallParticipant>, participantId: string): (r: seq<CallParticipant>)
    ensures |r| <= |ps|
  {
    if ps == [] then []
    else if ps[0].id == participantId then Without(ps[1..], participantId)
    else [ps[0]] + Without(ps[1..], participantId)
  }

  /** The filter keeps exactly the participants with another id. */
  lemma {:induction false} WithoutMembers(ps: seq<CallParticipant>, participantId: string)
    ensures forall p :: p in Without(ps, participantId) <==> p in ps && p.id != participantId
  {
    if ps != [] {
      WithoutMembers(ps[1..], participantId);
      assert ps == [ps[0]] + ps[1..];
    }
  }

  predicate HasId(ps: seq<CallParticipant>, participantId: string) {
    exists p :: p in ps && p.id == participantId
  }

  /** Filtering distributes over concatenation: relative order is kept. */
  lemma {:induction false} WithoutAppend(a: seq<CallParticipant>, b: seq<CallParticipant>, participantId: string)
    ensures Without(a + b, participantId) == Without(a, participantId) + Without(b, participantId)
  {
    if a != [] {
      WithoutAppend(a[1..], b, participantId);
      assert (a + b)[1..] == a[1..] + b;
    } else {
      assert a + b == b;
    }
  }

  /** Removing an id nobody has leaves the list as it was. */
  lemma {:induction false} WithoutAbsent(ps: seq<CallParticipant>, participantId: string)
    requires !HasId(ps, participantId)
    ensures Without(ps, participantId) == ps
  {
    if ps != [] {
      assert ps[0] in ps;
      assert !HasId(ps[1..], participantId) by {
        forall p | p in ps[1..] ensures p.id != participantId {
          assert p in ps;
        }
      }
      WithoutAbsent(ps[1..], participantId);
    }
  }

  /** Removing the same id twice is removing it once. */
  lemma WithoutIdempotent(ps: seq<CallParticipant>, participantId: string)
    ensures Without(Without(ps, participantId), participantId) == Without(ps, participantId)
  {
  }

  /** Appending a participant with a new id and then removing that id restores the list. */
  lemma AddThenRemove(ps: seq<CallParticipant>, p: CallParticipant)
    requires !HasId(ps, p.id)
    ensures Without(ps + [p], p.id) == ps
  {
    WithoutAppend(ps, [p], p.id);
    WithoutAbsent(ps, p.id);
    assert Without([p], p.id) == Without([], p.id);
  }

  /** A `CallSession` record: `participants`, `status` and `summary` may change in place. */
  class CallSession {
    const id: string
    const roomName: string
    var participants: seq<CallParticipant>
    var status: SessionStatus
    var summary: Option<string>
    const createdAt: int

    constructor (id: string, roomName: string, participants: seq<CallParticipant>, createdAt: int)
      ensures this.id == id && this.roomName == roomName && this.createdAt == createdAt
      ensures this.participants == participants && status == Active && summary == None
    {
      this.id := id;
      this.roomName := roomName;
      this.participants := participants;
      this.status := Active;
      this.summary := None;
      this.createdAt := createdAt;
    }
  }

  class LiveKitManager {
    var sessions: map<string, CallSession>

    /** Every session is stored under its own id. */
    ghost predicate Valid()
      reads this
    {
      forall id :: id in sessions ==> sessions[id].id == id
    }

    constructor ()
      ensures Valid() && sessions == map[]
    {
      sessions := map[];
    }

    /**
     * `createSession`: a new active session with the caller and then "Agent A",
     * both connected, registered under its own id. The three ids stand for
     * `crypto.randomUUID()` and `now` for `new Date()`.
     */
    method CreateSession(roomName: string, callerName: string,
                         sessionId: string, callerId: string, agentId: string, now: int)
      returns (session: CallSession)
      requires Valid()
      modifies this
      ensures Valid() && fresh(session)
      ensures sessions == old(sessions)[sessionId := session]
      ensures session.id == sessionId && session.roomName == roomName && session.createdAt == now
      ensures session.status == Active && session.summary == None
      ensures |session.participants| == 2
      ensures session.participants[0] == CallParticipant(callerId, callerName, Caller, true)
      ensures session.participants[1] == CallParticipant(agentId, "Agent A", AgentA, true)
    {
      session := new CallSession(sessionId, roomName,
        [CallParticipant(callerId, callerName, Caller, true), CallParticipant(agentId, "Agent A", AgentA, true)],
        now);
      sessions := sessions[session.id := session];
    }

    /** `getSession` */
    method GetSession(sessionId: string) returns (session: CallSession?)
      requires Valid()
      ensures session != null <==> sessionId in sessions
      ensures session != null ==> session == sessions[sessionId] && session.id == sessionId
    {
      session := if sessionId in sessions then sessions[sessionId] else null;
    }

    /** `updateSessionStatus`: only that session's status changes; an unknown id is ignored. */
    method UpdateSessionStatus(sessionId: string, status: SessionStatus)
      requires Valid()
      modifies if sessionId in sessions then {sessions[sessionId]} else {}
      ensures Valid()
      ensures sessionId in sessions ==> sessions[sessionId].status == status
      ensures forall id :: id in sessions ==> sessions[id].participants == old(sessions[id].participants)
      ensures forall id :: id in sessions && id != sessionId ==> sessions[id].status == old(sessions[id].status)
      ensures forall id :: id in sessions ==> sessions[id].summary == old(sessions[id].summary)
    {
      if sessionId in sessions {
        var session := sessions[sessionId];
        session.status := status;
      }
    }

    /** `addParticipant`: appends at the end, duplicates included; an unknown session is ignored. */
    method AddParticipant(sessionId: string, participant: CallParticipant)
      requires Valid()
      modifies if sessionId in sessions then {sessions[sessionId]} else {}
      ensures Valid()
      ensures sessionId in sessions ==>
                sessions[sessionId].participants == old(sessions[sessionId].participants) + [participant]
      ensures forall id :: id in sessions ==>
                sessions[id].status == old(sessions[id].status) && sessions[id].summary == old(sessions[id].summary)
      ensures forall id :: id in sessions && id != sessionId ==>
                sessions[id].participants == old(sessions[id].participants)
    {
      if sessionId in sessions {
        var session := sessions[sessionId];
        session.participants := session.participants + [participant];
      }
    }

    /** `removeParticipant`: drops every participant with that id, keeping the others in order. */
    method RemoveParticipant(sessionId: string, participantId: string)
      requires Valid()
      modifies if sessionId in sessions then {sessions[sessionId]} else {}
      ensures Valid()
      ensures sessionId in sessions ==>
                sessions[sessionId].participants == Without(old(sessions[sessionId].participants), participantId)
      ensures forall id :: id in sessions ==>
                sessions[id].status == old(sessions[id].status) && sessions[id].summary == old(sessions[id].summary)
      ensures forall id :: id in sessions && id != sessionId ==>
                sessions[id].participants == old(sessions[id].participants)
    {
      if sessionId in sessions {
        var session := sessions[sessionId];
        session.participants := Without(session.participants, participantId);
      }
    }
  }
}
