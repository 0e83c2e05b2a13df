/**
 The transfer handlers of lib/callTransferControl.js over the stored records of one call: each
 method does to the desk what its rule in TransferRules.dfy says.
 */
module TransferDesk {
  import opened Options
  import opened CallState
  import opened InboundRules
  import opened TransferRules

  class TransferControl {
    const inbound: CallId
    var call: Call
    var transfers: seq<Transfer>
    var inboundIndex: map<CallId, nat>

    constructor (inbound: CallId, call: Call)
      ensures View() == Desk(inbound, call, [], None)
    {
      this.inbound, this.call, transfers, inboundIndex := inbound, call, [], map[];
    }

    function View(): Desk
      reads this
    {
      Desk(inbound, call, transfers, if inbound in inboundIndex then Some(inboundIndex[inbound]) else None)
    }

    method TransitionTransferStage(id: nat, next: TransferStage) returns (ok: bool)
      requires id < |transfers|
      modifies this`transfers
      ensures var stage := old(transfers)[id].stage;
              ok <==> || (stage == Idle && next in {Transferring, TransferCancelled})
                      || (stage == Transferring && next in {Completed, TransferFailed, TransferCancelled})
      ensures ok ==> transfers == old(transfers)[id := old(transfers)[id].(stage := next)]
      ensures ok ==> Transition(old(View()), id, next) == Some(View())
      ensures !ok ==> View() == old(View())
    {
      ok := MayBecome(transfers[id].stage, next);
      if ok {
        transfers := transfers[id := transfers[id].(stage := next)];
      }
    }

    /**
     The transfer that the webhook's client state names, or else the first recorded that runs in the
     webhook's call session or has its leg as caller, agent or target.
     */
    method FindTransferSessionForPayload(hook: Webhook) returns (r: Option<nat>)
      ensures r == Find(View(), hook)
      ensures hook.tag.Some? && hook.tag.value < |transfers| ==> r == hook.tag
      ensures var about := (t: Transfer) =>
                t.callerLeg == hook.leg || t.agentLeg == hook.leg || t.destination == Some(hook.leg)
                || (t.stage == Transferring && hook.sessionId == Some(t.callSessionId));
              hook.tag.None? || hook.tag.value >= |transfers| ==>
                && (r.None? <==> forall j :: 0 <= j < |transfers| ==> !about(transfers[j]))
                && (r.Some? ==> r.value < |transfers| && about(transfers[r.value])
                                && forall j :: 0 <= j < r.value ==> !about(transfers[j]))
    {
      if hook.tag.Some? && hook.tag.value < |transfers| {
        return hook.tag;
      }
      var i := 0;
      while i < |transfers|
        invariant 0 <= i <= |transfers|
        invariant forall j :: 0 <= j < i ==> !Matches(transfers[j], hook.leg, hook.sessionId)
      {
        if Matches(transfers[i], hook.leg, hook.sessionId) {
          return Some(i);
        }
        i := i + 1;
      }
      return None;
    }

    method FinalizeTransferFailure(id: nat)
      requires id < |transfers|
      modifies this
      ensures View() == Fail(old(View()), id)
    {
      var ok := TransitionTransferStage(id, TransferFailed);
      if ok && call.session.Some? {
        call := call.(session := Some(call.session.value.(transferMarker := None)));
      }
    }

    method FinalizeTransferSuccess(id: nat)
      requires id < |transfers|
      modifies this
      ensures View() == Succeed(old(View()), id)
    {
      if transfers[id].stage != Completed {
        var ok := TransitionTransferStage(id, Completed);
        if !ok {
          return;
        }
      }
      transfers := transfers[id := transfers[id].(agentReleased := true)];
      if call.session.Some? {
        ReleaseAgents(call.session.value.cfg.targets);
        var session := call.session.value;
        var legs := ClaimedLegs(session);
        call := Call(None, None, call.effects - legs, call.index - legs, call.pending,
                     call.active - {transfers[id].agentSip}, call.trace);
      }
    }

    /** Clear the pending ring of every agent the call rang. */
    method ReleaseAgents(targets: seq<Target>)
      modifies this`call
      ensures call == old(call).(pending := old(call).pending
                - set k | 0 <= k < |targets| && targets[k].sip.Some? :: targets[k].sip.value)
    {
      var i := 0;
      while i < |targets|
        invariant 0 <= i <= |targets|
        invariant call == old(call).(pending := old(call).pending
                    - set k | 0 <= k < i && targets[k].sip.Some? :: targets[k].sip.value)
      {
        if targets[i].sip.Some? {
          call := call.(pending := call.pending - {targets[i].sip.value});
        }
        i := i + 1;
      }
    }

    /** `initiateBlindTransfer` up to the transfer command; the id of the new transfer, if any. */
    method InitiateBlindTransfer(sip: Sip, destinationOk: bool) returns (id: Option<nat>)
      modifies this
      ensures View() == Initiate(old(View()), sip, destinationOk)
      ensures id == if MayInitiate(old(View()), sip) && destinationOk then Some(|old(transfers)|) else None
    {
      id := None;
      if sip !in call.active {
        return;
      }
      if call.session.None? || call.session.value.stage != Bridged {
        call := call.(active := call.active - {sip});
        return;
      }
      var session := call.session.value;
      if inbound in inboundIndex {
        var existing := inboundIndex[inbound];
        if existing < |transfers| && transfers[existing].stage == Transferring {
          return;
        }
      }
      if !destinationOk {
        return;
      }
      var agent := if session.connectedLeg.Some? then session.connectedLeg.value
                   else if session.winnerLeg.Some? then session.winnerLeg.value else call.active[sip];
      var new_ := |transfers|;
      transfers := transfers + [Transfer(Idle, inbound, agent, sip, session.callSessionId, None, false, false, false)];
      inboundIndex := inboundIndex[inbound := new_];
      call := call.(session := Some(session.(transferMarker := Some(new_))));
      var ok := TransitionTransferStage(new_, Transferring);
      assert transfers == old(transfers) + [NewTransfer(old(View()), sip)];
      id := Some(new_);
    }

    method HandleTransferCallControlEvent(hook: Webhook) returns (handled: bool)
      modifies this
      ensures handled == HandleTransfer(old(View()), hook).Some?
      ensures View() == if handled then HandleTransfer(old(View()), hook).value else old(View())
    {
      var found := FindTransferSessionForPayload(hook);
      if found.None? {
        return false;
      }
      var id := found.value;
      var t := transfers[id];
      var awaitingAgentCleanup := AwaitsAgent(t, hook);
      if Terminal(t.stage) && !awaitingAgentCleanup {
        return false;
      }
      if hook.tag.None? && t.stage != Transferring && !awaitingAgentCleanup {
        return false;
      }
      match hook.report
      case Initiated(outgoing) =>
        if !outgoing || hook.leg == t.callerLeg || hook.leg == t.agentLeg {
          return false;
        }
        transfers := transfers[id := t.(destination := Some(hook.leg))];
        return true;
      case LegAnswered =>
        if t.destination == Some(hook.leg) || (hook.tag == Some(id) && hook.leg != t.agentLeg) {
          transfers := transfers[id := t.(targetAnswered := true)];
          return true;
        }
        return false;
      case LegBridged =>
        if t.stage != Transferring {
          return false;
        }
        if Joins(t, hook.leg) {
          transfers := transfers[id := t.(callerBridged := true)];
          var ok := TransitionTransferStage(id, Completed);
          return true;
        }
        return false;
      case LegHungUp =>
        if t.destination == Some(hook.leg) && !t.callerBridged {
          FinalizeTransferFailure(id);
          return true;
        }
        if hook.leg == t.agentLeg && (t.callerBridged || t.stage == Completed) {
          FinalizeTransferSuccess(id);
          return true;
        }
        return false;
    }
  }
}
