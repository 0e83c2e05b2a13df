/**
 The webhook handlers of lib/inboundCallControl.js over the shared session store. `View(id)` is
 what the store holds about one call; each handler takes it from one state to the next as the rule
 of the same name in InboundRules.dfy says, and touches no other call's session, claim, tokens or
 commands (`Rest`), nor its entries in the shared maps but to take over agents (`Aside`).
 */
module InboundController {
  import opened Options
  import opened CallState
  import opened InboundRules
  import InboundRuns
  import opened SessionStore

  /** Another call beside a handler of one, and the legs whose index entries the handler may write. */
  datatype Bystander = Bystander(other: CallId, id: CallId, legs: set<CallId>)

  class Controller {
    const store: Store
    var commands: map<CallId, seq<Command>>

    constructor ()
      ensures fresh(store) && commands == map[]
      ensures forall id :: View(id) == Call(None, None, {}, {}, {}, map[], [])
    {
      store := new Store();
      commands := map[];
    }

    function Trace(id: CallId): seq<Command>
      reads this
    {
      if id in commands then commands[id] else []
    }

    function View(id: CallId): Call
      reads this, store
    {
      Call(if id in store.sessions then Some(store.sessions[id]) else None,
           if id in store.winnerClaims then Some(store.winnerClaims[id]) else None,
           store.EffectsOf(id), store.IndexOf(id), store.PendingOf(id), store.ActiveOf(id), Trace(id))
    }

    /** What belongs to the other calls. */
    ghost function Rest(id: CallId)
      : (map<CallId, Session>, map<CallId, CallId>, set<(CallId, CallId)>, map<CallId, seq<Command>>)
      reads this, store
    {
      (store.sessions - {id}, store.winnerClaims - {id}, (set t | t in store.sideEffects && t.0 != id), commands - {id})
    }

    /**
     What a handler of one call does to the entries that others hold in the shared maps: agents may
     be taken over, legs outside the given ones stay, and nothing is added.
     */
    twostate predicate Aside(id: CallId, legs: set<CallId>)
      reads this, store
    {
      && (forall sip :: sip in store.agentPending && store.agentPending[sip] != id ==>
            sip in old(store.agentPending) && old(store.agentPending)[sip] == store.agentPending[sip])
      && (forall sip :: sip in store.activeAgents && store.activeAgents[sip].0 != id ==>
            sip in old(store.activeAgents) && old(store.activeAgents)[sip] == store.activeAgents[sip])
      && (forall leg :: leg in store.legIndex && store.legIndex[leg] != id ==>
            leg in old(store.legIndex) && old(store.legIndex)[leg] == store.legIndex[leg])
      && (forall leg :: leg in old(store.legIndex) && old(store.legIndex)[leg] != id && leg !in legs ==>
            leg in store.legIndex && store.legIndex[leg] == old(store.legIndex)[leg])
    }

    /**
     So another call sees a handler, of whose legs none is indexed to it, as nothing or as the loss
     of agent entries.
     */
    twostate lemma OthersOnlyLose(b: Bystander) returns (rung: set<Sip>, talking: set<Sip>)
      requires b.other != b.id && Rest(b.id) == old(Rest(b.id)) && Aside(b.id, b.legs)
      requires old(store.IndexOf(b.other)) !! b.legs
      ensures View(b.other) == InboundRuns.LoseAgents(old(View(b.other)), rung, talking)
    {
      var other, id := b.other, b.id;
      rung := old(store.PendingOf(other)) - store.PendingOf(other);
      talking := old(store.ActiveOf(other)).Keys - store.ActiveOf(other).Keys;
      assert other in store.sessions - {id} <==> other in store.sessions;
      assert other in old(store.sessions) - {id} <==> other in old(store.sessions);
      assert other in store.winnerClaims - {id} <==> other in store.winnerClaims;
      assert other in old(store.winnerClaims) - {id} <==> other in old(store.winnerClaims);
      assert other in commands - {id} <==> other in commands;
      assert other in old(commands) - {id} <==> other in old(commands);
      assert store.EffectsOf(other) == set t | t in Rest(id).2 && t.0 == other :: t.1;
      assert old(store.EffectsOf(other)) == set t | t in old(Rest(id)).2 && t.0 == other :: t.1;
      assert store.IndexOf(other) == old(store.IndexOf(other));
      assert store.PendingOf(other) == old(store.PendingOf(other)) - rung;
      assert store.ActiveOf(other) == old(store.ActiveOf(other)) - talking;
    }

    function RecordLegs(id: CallId): set<CallId>
      reads store
    {
      if id in store.sessions then ClaimedLegs(store.sessions[id]) else {}
    }

    method Save(id: CallId, s: Session)
      modifies store`sessions
      ensures View(id) == With(old(View(id)), s) && Rest(id) == old(Rest(id)) && Aside(id, {})
      ensures id in store.sessions && store.sessions[id] == s
    {
      store.sessions := store.sessions[id := s];
      assert store.sessions - {id} == old(store.sessions) - {id};
    }

    method Send(id: CallId, command: Command)
      modifies this`commands
      ensures View(id) == Issue(old(View(id)), [command]) && Rest(id) == old(Rest(id)) && Aside(id, {})
    {
      SendAll(id, [command]);
    }

    method SendAll(id: CallId, cmds: seq<Command>)
      modifies this`commands
      ensures View(id) == Issue(old(View(id)), cmds) && Rest(id) == old(Rest(id)) && Aside(id, {})
    {
      commands := commands[id := Trace(id) + cmds];
      assert commands - {id} == old(commands) - {id};
    }

    method EnsurePstnAnsweredForMedia(id: CallId)
      requires id in store.sessions
      modifies this`commands, store
      ensures View(id) == EnsureAnswered(old(View(id))) && Rest(id) == old(Rest(id)) && Aside(id, {})
    {
      var session := store.sessions[id];
      if session.pstnAnswered || !session.deferAnswer {
        return;
      }
      Save(id, session.(pstnAnswered := true, deferAnswer := false));
      Send(id, AnswerCaller);
    }

    method HasActiveWinner(id: CallId, now: nat) returns (active: bool)
      requires id in store.sessions
      ensures active == ActiveWinner(View(id), now)
    {
      var session := store.sessions[id];
      active := BridgedState(session) || BridgePending(session, now) || id in store.winnerClaims;
    }

    method RouteToVoicemailOrHangup(id: CallId, now: nat)
      requires id in store.sessions
      modifies this`commands, store
      ensures View(id) == Route(old(View(id)), now) && Rest(id) == old(Rest(id)) && Aside(id, {})
    {
      var active := HasActiveWinner(id, now);
      if active {
        return;
      }
      EnsurePstnAnsweredForMedia(id);
      var session := store.sessions[id];
      if session.cfg.ringGroup {
        Send(id, GroupMissed);
      }
      if session.cfg.voicemailAllowed {
        Save(id, session.(stage := VoicemailPrompt));
        Send(id, Speak(VoicemailGreeting));
      } else {
        Send(id, Speak(Goodbye));
      }
    }

    method MarkSessionConnecting(id: CallId, now: nat)
      requires id in store.sessions
      modifies store
      ensures View(id) == MarkConnecting(old(View(id)), now) && Rest(id) == old(Rest(id)) && Aside(id, {})
    {
      var session := store.sessions[id];
      if session.stage != Bridged && session.stage != Connecting {
        var since := if session.connectingSince.Some? then session.connectingSince else Some(now);
        Save(id, session.(stage := Connecting, connectingSince := since));
      }
    }

    method MarkSessionBridged(id: CallId, leg: CallId)
      requires id in store.sessions
      modifies store
      ensures View(id) == MarkBridged(old(View(id)), leg) && Rest(id) == old(Rest(id)) && Aside(id, {})
    {
      var session := store.sessions[id];
      session := session.(stage := Bridged, activeBridge := true, connectedAt := true);
      session := session.(winnerLeg := Some(leg), connectedLeg := Some(leg), primaryLeg := Some(leg));
      Save(id, session);
      var sip := AgentSip(session, leg);
      if sip.Some? {
        store.IndexActiveAgentCall(id, sip.value, leg);
      }
    }

    method ApplyAnswerSideEffectsOnce(id: CallId, leg: CallId)
      requires id in store.sessions
      modifies this`commands, store
      ensures View(id) == ApplyEffects(old(View(id)), leg) && Rest(id) == old(Rest(id)) && Aside(id, {})
    {
      var claimed := store.ClaimAnswerSideEffects(id, leg);
      assert claimed <==> leg !in old(View(id)).effects;
      assert Rest(id) == old(Rest(id)) by {
        assert (set t | t in store.sideEffects && t.0 != id) == old(set t | t in store.sideEffects && t.0 != id);
      }
      if claimed && store.sessions[id].cfg.recordingAllowed {
        Send(id, RecordCall);
      }
    }

    method SaveSlots(id: CallId, slots: seq<Slot>)
      requires id in store.sessions
      modifies store`sessions
      ensures View(id) == SetSlots(old(View(id)), slots) && Rest(id) == old(Rest(id)) && Aside(id, {})
    {
      Save(id, store.sessions[id].(legs := Some(slots)));
    }

    /** The loop of `cancelRemainingOutboundLegs` and `cancelAllRingingOutboundLegs`. */
    method CancelLegs(id: CallId, keep: set<CallId>)
      requires id in store.sessions
      modifies this`commands, store
      ensures var c := old(View(id));
              var slots := Slots(c.session.value);
              View(id) == Issue(SetSlots(c, CancelPending(slots, keep)), HangupsFor(slots, keep))
      ensures Rest(id) == old(Rest(id)) && Aside(id, {})
    {
      var legs := Slots(store.sessions[id]);
      var hangups: seq<Command> := [];
      ghost var before := legs;
      var i := 0;
      while i < |legs|
        invariant 0 <= i <= |legs| == |before|
        invariant forall k :: 0 <= k < i ==> legs[k] == CancelPending(before, keep)[k]
        invariant forall k :: i <= k < |legs| ==> legs[k] == before[k]
        invariant hangups == HangupsFor(before[..i], keep)
        modifies {}
      {
        assert before[..i + 1][..i] == before[..i] && before[..i + 1][i] == before[i];
        if Cancellable(legs[i], keep) {
          hangups := hangups + [Hangup(legs[i].leg.value)];
          legs := legs[i := legs[i].(status := Cancelled)];
        }
        i := i + 1;
      }
      assert before[..i] == before && legs == CancelPending(before, keep);
      SendAll(id, hangups);
      SaveSlots(id, legs);
    }

    /** In a simultaneous ring, what winning does to the other legs. */
    method SettleSlots(id: CallId, leg: CallId)
      requires id in store.sessions
      modifies this`commands, store
      ensures View(id) == SettleRace(old(View(id)), leg) && Rest(id) == old(Rest(id)) && Aside(id, {})
    {
      var session := store.sessions[id];
      var slot := FindLeg(Slots(session), leg);
      var target := if slot.Some? && Slots(session)[slot.value].target < |session.cfg.targets|
                    then Some(Slots(session)[slot.value].target) else None;
      Save(id, session.(activeTarget := target, legs := Some(MarkLeg(Slots(session), leg, Answered))));
      CancelLegs(id, Keep(store.sessions[id], leg));
    }

    /** The winning branch of `onOutboundLegAnswered`. */
    method WinCall(id: CallId, leg: CallId)
      requires id in store.sessions && id in store.winnerClaims && store.winnerClaims[id] == leg
      modifies this`commands, store
      ensures View(id) == Win(old(View(id)), leg) && Rest(id) == old(Rest(id)) && Aside(id, {})
    {
      MarkSessionBridged(id, leg);
      var session := store.sessions[id];
      if session.cfg.simultaneous {
        SettleSlots(id, leg);
      }
      ApplyAnswerSideEffectsOnce(id, leg);
      if session.cfg.ringGroup {
        Send(id, GroupAnswered(CreditedMember(store.sessions[id])));
      }
    }

    method ClaimCall(id: CallId, leg: CallId, kind: AnswerKind)
      requires id in store.sessions
      modifies this`commands, store
      ensures View(id) == Claim(old(View(id)), leg, kind) && Rest(id) == old(Rest(id)) && Aside(id, {})
    {
      var claim := store.ClaimConnectedLeg(id, leg);
      assert Rest(id) == old(Rest(id)) by {
        assert store.winnerClaims - {id} == old(store.winnerClaims) - {id};
      }
      if claim.claimed {
        assert View(id) == old(View(id)).(winner := Some(leg));
        assert Win(View(id), leg) == Win(old(View(id)), leg);
        WinCall(id, leg);
        return;
      }
      assert View(id) == old(View(id));
      if claim.isDuplicateWinnerEvent {
        if store.sessions[id].stage != Bridged {
          MarkSessionBridged(id, claim.leg);
        }
        ApplyAnswerSideEffectsOnce(id, claim.leg);
      } else if kind == CallBridged {
        if store.sessions[id].stage != Bridged {
          MarkSessionBridged(id, claim.leg);
        }
      } else {
        Send(id, Hangup(leg));
        SaveSlots(id, MarkLeg(Slots(store.sessions[id]), leg, Cancelled));
      }
    }

    method OnOutboundLegAnswered(id: CallId, leg: CallId, kind: AnswerKind, now: nat, bridgeAccepted: bool)
      modifies this`commands, store
      ensures View(id) == LegAnswered(old(View(id)), leg, kind, now, bridgeAccepted)
      ensures Rest(id) == old(Rest(id)) && Aside(id, {})
    {
      if id !in store.sessions {
        return;
      }
      MarkSessionConnecting(id, now);
      var session := store.sessions[id];
      if AlreadyBridgedTo(session, leg) {
        ApplyAnswerSideEffectsOnce(id, leg);
        return;
      }
      if !Heard(session, leg) {
        return;
      }
      if Confirms(kind) {
        ClaimCall(id, leg, kind);
        return;
      }
      SaveSlots(id, MarkLeg(Slots(session), leg, Answered));
      session := store.sessions[id];
      if session.deferAnswer && !session.pstnAnswered {
        Send(id, BridgeCaller(leg, bridgeAccepted));
        if bridgeAccepted {
          Save(id, session.(pstnAnswered := true));
        }
      }
    }

    /** `handleCallAnswered`, `handleDialAnswered` and `handleCallBridged`, with the session found. */
    method HandleAnswer(id: CallId, leg: CallId, kind: AnswerKind, now: nat, bridgeAccepted: bool)
      modifies this`commands, store
      ensures View(id) == AnswerEvent(old(View(id)), leg, kind, now, bridgeAccepted)
      ensures Rest(id) == old(Rest(id)) && Aside(id, {})
    {
      if id in store.sessions && kind == CallAnswered && !HoldsLeg(Slots(store.sessions[id]), leg) {
        return;
      }
      OnOutboundLegAnswered(id, leg, kind, now, bridgeAccepted);
    }

    /** `markAgentWebRtcAccepted`: the agent's pending entry says which call. */
    method MarkAgentWebRtcAccepted(sip: Sip, now: nat)
      modifies store
      ensures forall id :: View(id) == AgentAccepted(old(View(id)), sip, now)
      ensures sip in old(store.agentPending) ==>
                var id := old(store.agentPending)[sip];
                Rest(id) == old(Rest(id)) && Aside(id, {})
    {
      if sip !in store.agentPending {
        return;
      }
      var id := store.agentPending[sip];
      if id !in store.sessions {
        return;
      }
      var session := store.sessions[id];
      var since := if session.connectingSince.Some? then session.connectingSince else Some(now);
      store.sessions := store.sessions[id := session.(stage := Connecting, connectingSince := since)];
      forall other ensures View(other) == AgentAccepted(old(View(other)), sip, now) {
        assert sip in old(View(other)).pending <==> other == id;
      }
      assert store.sessions - {id} == old(store.sessions) - {id};
    }

    // ---- dialling ----

    /** `dialAllTargetsSimultaneously` up to its dials: reserve the slots, then dial each target. */
    method DialAllTargetsSimultaneously(id: CallId, now: nat)
      requires id in store.sessions
      modifies this`commands, store
      ensures View(id) == StartSimultaneous(old(View(id)), now) && Rest(id) == old(Rest(id)) && Aside(id, {})
    {
      var session := store.sessions[id];
      var targets := session.cfg.targets;
      if targets == [] || !session.cfg.appConfigured {
        RouteToVoicemailOrHangup(id, now);
        return;
      }
      session := session.(stage := Ringing, connectedLeg := None, primaryLeg := None, activeTarget := None);
      var legs: seq<Slot> := [];
      var dials: seq<Command> := [];
      var i := 0;
      while i < |targets|
        invariant 0 <= i <= |targets|
        invariant legs == Reserved(i)
        invariant dials == DialCommands(targets[..i])
        modifies {}
      {
        assert targets[..i + 1][..i] == targets[..i];
        legs := legs + [Slot(None, i, Pending)];
        if targets[i].dialable {
          dials := dials + [Dial(i)];
        }
        i := i + 1;
      }
      assert targets[..i] == targets;
      Save(id, session.(legs := Some(legs)));
      SendAll(id, dials);
    }

    /** `dialSingleTarget` once the carrier accepted: index the agent's pending ring. */
    method IndexAgentRing(id: CallId, sip: Option<Sip>)
      modifies store
      ensures View(id) == DialAccepted(old(View(id)), sip) && Rest(id) == old(Rest(id)) && Aside(id, {})
    {
      if sip.Some? {
        store.IndexPendingAgentRing(id, sip.value);
      }
    }

    method RegisterOutboundDialResult(id: CallId, target: nat, result: Option<CallId>)
      modifies this`commands, store
      ensures View(id) == RegisterDial(old(View(id)), target, result)
      ensures Rest(id) == old(Rest(id)) && Aside(id, ResultLeg(result))
    {
      if id !in store.sessions {
        return;
      }
      var session := store.sessions[id];
      var slots := Slots(session);
      if result.None? {
        SaveSlots(id, MarkTarget(slots, target, Failed));
        return;
      }
      var leg := result.value;
      var winner := if id in store.winnerClaims then Some(store.winnerClaims[id]) else None;
      if winner.Some? || session.connectedLeg.Some? || session.stage == Bridged {
        if winner == Some(leg) || session.winnerLeg == Some(leg) || session.connectedLeg == Some(leg) {
          Save(id, session.(legs := Some(MarkTarget(slots, target, Answered)), winnerLeg := Some(leg),
                            connectedLeg := Some(leg), primaryLeg := Some(leg), activeBridge := true,
                            connectedAt := true, stage := Bridged));
        } else {
          Send(id, Hangup(leg));
          SaveSlots(id, MarkTarget(slots, target, Cancelled));
        }
        return;
      }
      SaveSlots(id, UpsertLeg(slots, target, leg));
      store.IndexOutboundLeg(id, leg);
    }

    /** The end of `dialAllTargetsSimultaneously`. */
    method FinishSimultaneousDialling(id: CallId, now: nat)
      modifies this`commands, store
      ensures View(id) == FinishDialling(old(View(id)), now) && Rest(id) == old(Rest(id)) && Aside(id, {})
    {
      if id !in store.sessions {
        return;
      }
      var session := store.sessions[id];
      var slots := Slots(session);
      var primary := if slots != [] && slots[0].leg.Some? then slots[0].leg else session.primaryLeg;
      Save(id, session.(primaryLeg := primary));
      var ringing := 0;
      var i := 0;
      while i < |slots|
        invariant 0 <= i <= |slots|
        invariant 0 <= ringing
        invariant ringing == 0 <==> NoneRinging(slots[..i])
        modifies {}
      {
        if slots[i].status == Pending && slots[i].leg.Some? {
          assert slots[..i + 1][i] == slots[i];
          ringing := ringing + 1;
        } else {
          assert forall k :: 0 <= k < i ==> slots[..i][k] == slots[..i + 1][k];
        }
        i := i + 1;
      }
      assert slots[..i] == slots;
      if ringing == 0 && id !in store.winnerClaims {
        RouteToVoicemailOrHangup(id, now);
      }
    }

    /** `dialNextTarget`, with the carrier's answer to each dial it may issue. */
    method DialNextTarget(id: CallId, outcomes: seq<Option<CallId>>, now: nat)
      requires id in store.sessions
      modifies this`commands, store
      ensures View(id) == DialNext(old(View(id)), outcomes, now)
      ensures Rest(id) == old(Rest(id)) && Aside(id, OutcomeLegs(outcomes))
      decreases |store.sessions[id].cfg.targets| - store.sessions[id].ringIndex
    {
      var session := store.sessions[id];
      var i, targets := session.ringIndex, session.cfg.targets;
      if i >= |targets| {
        EnsurePstnAnsweredForMedia(id);
        Send(id, Speak(Goodbye));
        return;
      }
      session := session.(stage := Ringing, activeTarget := Some(i));
      Save(id, session);
      if targets[i].dialable && !session.cfg.appConfigured {
        RouteToVoicemailOrHangup(id, now);
        return;
      }
      if targets[i].dialable {
        Send(id, Dial(i));
        var result := Outcome(outcomes, i);
        if result.Some? {
          NoteRinging(id, targets[i].sip, result.value);
          return;
        }
      }
      SkipTarget(id, outcomes, now);
    }

    /** The carrier accepted the dial of the active target. */
    method NoteRinging(id: CallId, sip: Option<Sip>, leg: CallId)
      requires id in store.sessions
      modifies this`commands, store
      ensures var c := old(View(id));
              View(id) == DialAccepted(With(c, c.session.value.(primaryLeg := Some(leg))), sip).(index := c.index + {leg})
      ensures Rest(id) == old(Rest(id)) && Aside(id, {leg})
    {
      Save(id, store.sessions[id].(primaryLeg := Some(leg)));
      IndexAgentRing(id, sip);
      store.IndexOutboundLeg(id, leg);
    }

    /** Go on with the next target, or give up after the last. */
    method SkipTarget(id: CallId, outcomes: seq<Option<CallId>>, now: nat)
      requires id in store.sessions && store.sessions[id].ringIndex < |store.sessions[id].cfg.targets|
      modifies this`commands, store
      ensures View(id) == DialAfter(old(View(id)), outcomes, now)
      ensures Rest(id) == old(Rest(id)) && Aside(id, OutcomeLegs(outcomes))
      decreases |store.sessions[id].cfg.targets| - store.sessions[id].ringIndex, 0
    {
      var session := store.sessions[id];
      if session.ringIndex + 1 < |session.cfg.targets| {
        Save(id, session.(ringIndex := session.ringIndex + 1));
        DialNextTarget(id, outcomes, now);
        return;
      }
      GiveUp(id, now);
    }

    /** After the last target: the advanced index is stored only with one of the fallback's own saves. */
    method GiveUp(id: CallId, now: nat)
      requires id in store.sessions
      modifies this`commands, store
      ensures View(id) == AfterLast(old(View(id)), now) && Rest(id) == old(Rest(id)) && Aside(id, {})
    {
      var session := store.sessions[id];
      var active := HasActiveWinner(id, now);
      if !active && (session.cfg.voicemailAllowed || (session.deferAnswer && !session.pstnAnswered)) {
        Save(id, session.(ringIndex := session.ringIndex + 1));
      }
      RouteToVoicemailOrHangup(id, now);
    }

    // ---- endings ----

    /** Sequential mode: advance the stored index, then dial or give up. */
    method RingNext(id: CallId, outcomes: seq<Option<CallId>>, now: nat)
      requires id in store.sessions
      modifies this`commands, store
      ensures View(id) == Advance(old(View(id)), outcomes, now)
      ensures Rest(id) == old(Rest(id)) && Aside(id, OutcomeLegs(outcomes))
    {
      var session := store.sessions[id];
      Save(id, session.(ringIndex := session.ringIndex + 1));
      if session.ringIndex + 1 < |session.cfg.targets| {
        DialNextTarget(id, outcomes, now);
      } else {
        RouteToVoicemailOrHangup(id, now);
      }
    }

    method HandleSimultaneousLegEnded(id: CallId, leg: CallId, now: nat)
      requires id in store.sessions
      modifies this`commands, store
      ensures View(id) == SimultaneousLegEnded(old(View(id)), leg, now) && Rest(id) == old(Rest(id)) && Aside(id, {})
    {
      var session := store.sessions[id];
      if BridgePending(session, now) || id in store.winnerClaims || session.connectedLeg.Some? || session.stage == Bridged {
        return;
      }
      var slots := Slots(session);
      var slot := FindLeg(slots, leg);
      if slot.None? || slots[slot.value].status in {Cancelled, Answered, Failed} {
        return;
      }
      slots := MarkLeg(slots, leg, NoAnswer);
      SaveSlots(id, slots);
      if (exists i :: 0 <= i < |slots| && slots[i].status == Answered) || !Settled(slots) {
        return;
      }
      RouteToVoicemailOrHangup(id, now);
    }

    method HandleDialEnded(id: CallId, leg: CallId, answered: bool, outcomes: seq<Option<CallId>>, now: nat)
      modifies this`commands, store
      ensures View(id) == DialEnded(old(View(id)), leg, answered, outcomes, now)
      ensures Rest(id) == old(Rest(id)) && Aside(id, OutcomeLegs(outcomes))
    {
      if id !in store.sessions || answered {
        return;
      }
      var session := store.sessions[id];
      var active := HasActiveWinner(id, now);
      if active || session.stage != Ringing {
        return;
      }
      if session.cfg.simultaneous {
        if HoldsLeg(Slots(session), leg) {
          HandleSimultaneousLegEnded(id, leg, now);
        }
        return;
      }
      RingNext(id, outcomes, now);
    }

    /** `cleanupInboundSession` */
    method CleanupInboundSession(id: CallId)
      requires id in store.sessions
      modifies this`commands, store
      ensures View(id) == Cleanup(old(View(id))) && Rest(id) == old(Rest(id)) && Aside(id, old(RecordLegs(id)))
    {
      var session := store.sessions[id];
      var targets := session.cfg.targets;
      ghost var sips: set<Sip> := {};
      var i := 0;
      while i < |targets|
        invariant 0 <= i <= |targets|
        invariant sips == set k | 0 <= k < i && targets[k].sip.Some? :: targets[k].sip.value
        invariant store.PendingOf(id) == old(store.PendingOf(id)) - sips
        invariant store.ActiveOf(id) == old(store.ActiveOf(id)) - sips
        invariant store.agentPending == old(store.agentPending) - sips && store.activeAgents == old(store.activeAgents) - sips
        modifies store`agentPending, store`activeAgents
      {
        var sip := targets[i].sip;
        if sip.Some? {
          store.ClearAgent(sip.value);
          sips := sips + {sip.value};
        }
        i := i + 1;
      }
      assert sips == AgentSips(session.cfg);
      store.DeleteSession(id);
      assert Rest(id) == old(Rest(id)) by {
        assert (set t | t in store.sideEffects && t.0 != id) == old(set t | t in store.sideEffects && t.0 != id);
        assert store.sessions - {id} == old(store.sessions) - {id};
        assert store.winnerClaims - {id} == old(store.winnerClaims) - {id};
      }
    }

    /** `handleHangup` for the caller's own leg */
    method HandleCallerHangup(id: CallId, now: nat)
      modifies this`commands, store
      ensures View(id) == CallerHangup(old(View(id)), now) && Rest(id) == old(Rest(id)) && Aside(id, old(RecordLegs(id)))
    {
      if id !in store.sessions || store.sessions[id].stage == Connecting {
        return;
      }
      var active := HasActiveWinner(id, now);
      if store.sessions[id].stage == Ringing && store.sessions[id].cfg.simultaneous && !active {
        CancelLegs(id, {});
      }
      CleanupInboundSession(id);
    }

    /** `handleHangup` for any other leg */
    method HandleLegHangup(id: CallId, leg: CallId, outcomes: seq<Option<CallId>>, now: nat)
      modifies this`commands, store
      ensures View(id) == LegHangup(old(View(id)), leg, outcomes, now)
      ensures Rest(id) == old(Rest(id)) && Aside(id, old(RecordLegs(id)) + OutcomeLegs(outcomes))
    {
      if id !in store.sessions || store.sessions[id].stage == Connecting {
        return;
      }
      var session := store.sessions[id];
      var slots := Slots(session);
      var active := HasActiveWinner(id, now);
      var isOutboundLeg := HoldsLeg(slots, leg);
      if session.stage == Ringing && isOutboundLeg {
        if BridgePending(session, now) {
          return;
        }
        if active {
          if session.winnerLeg != Some(leg) && session.connectedLeg != Some(leg) {
            SaveSlots(id, MarkLeg(slots, leg, Cancelled));
          }
          return;
        }
        if session.cfg.simultaneous {
          HandleSimultaneousLegEnded(id, leg, now);
        } else {
          RingNext(id, outcomes, now);
        }
        return;
      }
      if isOutboundLeg && session.connectedLeg.Some? && session.connectedLeg != Some(leg) {
        SaveSlots(id, MarkLeg(slots, leg, Cancelled));
        return;
      }
      CleanupInboundSession(id);
    }

    method HandleSpeakEnded(id: CallId, prompt: Prompt)
      modifies this`commands, store
      ensures View(id) == SpeakEnded(old(View(id)), prompt) && Rest(id) == old(Rest(id)) && Aside(id, {})
    {
      if id !in store.sessions {
        return;
      }
      if prompt == Goodbye {
        Send(id, HangupCaller);
      } else {
        Save(id, store.sessions[id].(stage := VoicemailRecord));
        Send(id, RecordVoicemail);
      }
    }
  }

  function ResultLeg(result: Option<CallId>): set<CallId> {
    if result.Some? then {result.value} else {}
  }

  /** The legs that the dials of a hunt may get. */
  function OutcomeLegs(outcomes: seq<Option<CallId>>): set<CallId> {
    set i | 0 <= i < |outcomes| && outcomes[i].Some? :: outcomes[i].value
  }
}
