/**
 The in-memory session store shared by all calls (lib/callControlSessionStore.js): sessions by
 inbound call id, the winner claims, the side-effect tokens, the leg index and the agent entries.
 */
module SessionStore {
  import opened Options
  import opened CallState

  /** What `claimConnectedLeg` reports. */
  datatype ClaimResult = ClaimResult(claimed: bool, leg: CallId, isDuplicateWinnerEvent: bool, lostRace: bool)

  /** The scan of `findSession` takes this session for the leg or the carrier's session id. */
  predicate ScanMatches(s: Session, leg: Option<CallId>, sessionId: Option<nat>) {
    || (sessionId.Some? && s.callSessionId == sessionId.value)
    || (leg.Some? && ScansLeg(s, leg.value))
  }

  class Store {
    var sessions: map<CallId, Session>
    var winnerClaims: map<CallId, CallId>
    var sideEffects: set<(CallId, CallId)>
    var legIndex: map<CallId, CallId>
    var agentPending: map<Sip, CallId>
    var activeAgents: map<Sip, (CallId, CallId)>

    constructor ()
      ensures sessions == map[] && winnerClaims == map[] && sideEffects == {}
      ensures legIndex == map[] && agentPending == map[] && activeAgents == map[]
    {
      sessions, winnerClaims, sideEffects := map[], map[], {};
      legIndex, agentPending, activeAgents := map[], map[], map[];
    }

    function EffectsOf(id: CallId): set<CallId>
      reads this
    {
      set t | t in sideEffects && t.0 == id :: t.1
    }

    function IndexOf(id: CallId): set<CallId>
      reads this
    {
      set leg | leg in legIndex && legIndex[leg] == id
    }

    function PendingOf(id: CallId): set<Sip>
      reads this
    {
      set sip | sip in agentPending && agentPending[sip] == id
    }

    function ActiveOf(id: CallId): map<Sip, CallId>
      reads this
    {
      map sip | sip in activeAgents && activeAgents[sip].0 == id :: activeAgents[sip].1
    }

    /** `claimConnectedLeg`: only the first leg to ask gets the claim. */
    method ClaimConnectedLeg(id: CallId, leg: CallId) returns (r: ClaimResult)
      modifies this`winnerClaims
      ensures r.claimed <==> id !in old(winnerClaims)
      ensures winnerClaims == if r.claimed then old(winnerClaims)[id := leg] else old(winnerClaims)
      ensures r.leg == winnerClaims[id]
      ensures r.isDuplicateWinnerEvent <==> !r.claimed && r.leg == leg
      ensures r.lostRace <==> r.leg != leg
    {
      if id !in winnerClaims {
        winnerClaims := winnerClaims[id := leg];
        return ClaimResult(true, leg, false, false);
      }
      var existing := winnerClaims[id];
      return ClaimResult(false, existing, existing == leg, existing != leg);
    }

    /** `claimAnswerSideEffects`: true for the first caller with this leg only. */
    method ClaimAnswerSideEffects(id: CallId, leg: CallId) returns (claimed: bool)
      modifies this`sideEffects
      ensures claimed <==> (id, leg) !in old(sideEffects)
      ensures sideEffects == old(sideEffects) + {(id, leg)}
      ensures EffectsOf(id) == old(EffectsOf(id)) + {leg}
    {
      claimed := (id, leg) !in sideEffects;
      sideEffects := sideEffects + {(id, leg)};
      assert EffectsOf(id) == old(EffectsOf(id)) + {leg} by {
        assert (id, leg) in sideEffects;
      }
    }

    method IndexOutboundLeg(id: CallId, leg: CallId)
      modifies this`legIndex
      ensures legIndex == old(legIndex)[leg := id]
      ensures IndexOf(id) == old(IndexOf(id)) + {leg}
    {
      legIndex := legIndex[leg := id];
    }

    method IndexPendingAgentRing(id: CallId, sip: Sip)
      modifies this`agentPending
      ensures agentPending == old(agentPending)[sip := id]
      ensures PendingOf(id) == old(PendingOf(id)) + {sip}
    {
      agentPending := agentPending[sip := id];
    }

    method IndexActiveAgentCall(id: CallId, sip: Sip, leg: CallId)
      modifies this`activeAgents
      ensures activeAgents == old(activeAgents)[sip := (id, leg)]
      ensures ActiveOf(id) == old(ActiveOf(id))[sip := leg]
    {
      activeAgents := activeAgents[sip := (id, leg)];
    }

    /** `clearPendingAgentRing` and `clearActiveAgentCall` */
    method ClearAgent(sip: Sip)
      modifies this`agentPending, this`activeAgents
      ensures agentPending == old(agentPending) - {sip}
      ensures activeAgents == old(activeAgents) - {sip}
      ensures forall id :: PendingOf(id) == old(PendingOf(id)) - {sip} && ActiveOf(id) == old(ActiveOf(id)) - {sip}
    {
      agentPending := agentPending - {sip};
      activeAgents := activeAgents - {sip};
    }

    /** `clearSessionClaims` */
    method ClearSessionClaims(id: CallId, session: Option<Session>)
      modifies this`winnerClaims, this`legIndex, this`sideEffects
      ensures var legs := if session.Some? then ClaimedLegs(session.value) else {};
              && winnerClaims == old(winnerClaims) - {id}
              && legIndex == old(legIndex) - legs
              && forall t :: t in sideEffects <==> t in old(sideEffects) && !(t.0 == id && t.1 in legs)
    {
      var legIds: set<CallId> := {};
      if session.Some? {
        legIds := CollectLegIds(session.value);
      }
      winnerClaims := winnerClaims - {id};
      ClearLegs(id, legIds);
    }

    /** Every leg the session's record names, on its list or in its fields. */
    method CollectLegIds(s: Session) returns (legIds: set<CallId>)
      ensures legIds == ClaimedLegs(s)
      ensures forall leg :: leg in legIds <==>
                || s.connectedLeg == Some(leg) || s.primaryLeg == Some(leg)
                || (s.legs.Some? && exists i :: 0 <= i < |s.legs.value| && s.legs.value[i].leg == Some(leg))
    {
      legIds := {};
      if s.legs.Some? {
        var i := 0;
        while i < |s.legs.value|
          invariant 0 <= i <= |s.legs.value|
          invariant legIds == LegIds(s.legs.value[..i])
        {
          var leg := s.legs.value[i].leg;
          var before, after := s.legs.value[..i], s.legs.value[..i + 1];
          assert after == before + [s.legs.value[i]];
          LegIdsPush(before, s.legs.value[i]);
          if leg.Some? {
            legIds := legIds + {leg.value};
          }
          i := i + 1;
        }
        assert s.legs.value[..i] == s.legs.value;
      }
      if s.connectedLeg.Some? {
        legIds := legIds + {s.connectedLeg.value};
      }
      if s.primaryLeg.Some? {
        legIds := legIds + {s.primaryLeg.value};
      }
    }

    method ClearLegs(id: CallId, legs: set<CallId>)
      modifies this`legIndex, this`sideEffects
      ensures legIndex == old(legIndex) - legs
      ensures forall t :: t in sideEffects <==> t in old(sideEffects) && !(t.0 == id && t.1 in legs)
    {
      var todo := legs;
      while todo != {}
        invariant todo <= legs
        invariant legIndex.Keys == old(legIndex).Keys - (legs - todo)
        invariant forall leg :: leg in legIndex ==> legIndex[leg] == old(legIndex)[leg]
        invariant forall t :: t in sideEffects <==> t in old(sideEffects) && !(t.0 == id && t.1 in legs - todo)
        decreases todo
      {
        var leg :| leg in todo;
        legIndex := legIndex - {leg};
        sideEffects := sideEffects - {(id, leg)};
        todo := todo - {leg};
      }
      assert legIndex == old(legIndex) - legs;
    }

    /** `deleteSession` */
    method DeleteSession(id: CallId)
      modifies this`sessions, this`winnerClaims, this`legIndex, this`sideEffects
      ensures var legs := if id in old(sessions) then ClaimedLegs(old(sessions)[id]) else {};
              && sessions == old(sessions) - {id}
              && winnerClaims == old(winnerClaims) - {id}
              && legIndex == old(legIndex) - legs
              && (forall t :: t in sideEffects <==> t in old(sideEffects) && !(t.0 == id && t.1 in legs))
              && EffectsOf(id) == old(EffectsOf(id)) - legs && IndexOf(id) == old(IndexOf(id)) - legs
    {
      ClearSessionClaims(id, if id in sessions then Some(sessions[id]) else None);
      sessions := sessions - {id};
    }

    /** Every leg the scan would find for a session is indexed to that session. */
    predicate IndexComplete()
      reads this
    {
      forall id :: id in sessions ==>
        forall leg :: leg in ClaimedLegs(sessions[id]) ==> leg in legIndex && legIndex[leg] == id
    }

    /**
     `findSession`: by the leg itself, by the index, by `link_to`, and last by a scan over the
     sessions, whose order does not matter to this contract. With a complete index, a leg that
     some session scans is found by the index, as that session.
     */
    method FindSession(leg: Option<CallId>, linkTo: Option<CallId>, sessionId: Option<nat>) returns (r: Option<CallId>)
      ensures r.Some? ==> r.value in sessions
      ensures leg.Some? && leg.value in sessions ==> r == leg
      ensures leg.Some? && leg.value !in sessions && leg.value in legIndex && legIndex[leg.value] in sessions
              ==> r == Some(legIndex[leg.value])
      ensures r.None? ==> forall id :: id in sessions ==> !ScanMatches(sessions[id], leg, sessionId)
      ensures r.Some? && r != leg && r != linkTo && !(leg.Some? && leg.value in legIndex && r == Some(legIndex[leg.value]))
              ==> ScanMatches(sessions[r.value], leg, sessionId)
      ensures IndexComplete() && leg.Some? && leg.value !in sessions ==>
              forall id :: id in sessions && ScansLeg(sessions[id], leg.value) ==> r == Some(id)
    {
      if leg.Some? {
        forall id | id in sessions
          ensures ScansLeg(sessions[id], leg.value) <==> leg.value in ClaimedLegs(sessions[id])
        {
          ScannedIsClaimed(sessions[id], leg.value);
        }
        if leg.value in sessions {
          return leg;
        }
        if leg.value in legIndex && legIndex[leg.value] in sessions {
          return Some(legIndex[leg.value]);
        }
      }
      if linkTo.Some? && linkTo.value in sessions {
        return linkTo;
      }
      var todo := sessions.Keys;
      while todo != {}
        invariant todo <= sessions.Keys
        invariant forall id :: id in sessions && id !in todo ==> !ScanMatches(sessions[id], leg, sessionId)
        decreases todo
      {
        var id :| id in todo;
        if ScanMatches(sessions[id], leg, sessionId) {
          return Some(id);
        }
        todo := todo - {id};
      }
      return None;
    }
  }
}
