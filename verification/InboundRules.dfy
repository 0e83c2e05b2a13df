/**
 What each handler of lib/inboundCallControl.js makes of one call, as functions on `Call`.
 The handlers themselves, as methods over the shared stores, are in InboundController.dfy.
 Commands to the carrier are appended to the trace in the order they are issued.
 */
module InboundRules {
  import opened Options
  import opened CallState

  datatype AnswerKind = CallAnswered | DialAnswered | CallBridged | Untyped

  function With(c: Call, s: Session): Call {
    c.(session := Some(s))
  }

  function Issue(c: Call, cmds: seq<Command>): Call {
    c.(trace := c.trace + cmds)
  }

  /** `ensurePstnAnsweredForMedia` */
  function EnsureAnswered(c: Call): Call
    requires c.session.Some?
  {
    var s := c.session.value;
    if s.pstnAnswered || !s.deferAnswer then c
    else Issue(With(c, s.(pstnAnswered := true, deferAnswer := false)), [AnswerCaller])
  }

  /** `routeToVoicemailOrHangup` past its guards; extension forwarding does not apply. */
  function PlayFallback(c: Call): Call
    requires c.session.Some?
  {
    var c1 := EnsureAnswered(c);
    var s := c1.session.value;
    var c2 := if s.cfg.ringGroup then Issue(c1, [GroupMissed]) else c1;
    if s.cfg.voicemailAllowed
    then Issue(With(c2, s.(stage := VoicemailPrompt)), [Speak(VoicemailGreeting)])
    else Issue(c2, [Speak(Goodbye)])
  }

  /** `routeToVoicemailOrHangup` */
  function Route(c: Call, now: nat): Call
    requires c.session.Some?
  {
    if ActiveWinner(c, now) then c else PlayFallback(c)
  }

  // ---- answering ----

  /** `markSessionConnecting` */
  function MarkConnecting(c: Call, now: nat): Call
    requires c.session.Some?
  {
    var s := c.session.value;
    if s.stage == Bridged || s.stage == Connecting then c
    else With(c, s.(stage := Connecting, connectingSince := OrElse(s.connectingSince, Some(now))))
  }

  /** `markSessionBridged` */
  function MarkBridged(c: Call, leg: CallId): Call
    requires c.session.Some?
  {
    var s := c.session.value.(stage := Bridged, activeBridge := true, connectedAt := true,
                              winnerLeg := Some(leg), connectedLeg := Some(leg), primaryLeg := Some(leg));
    var sip := AgentSip(s, leg);
    With(c, s).(active := if sip.Some? then c.active[sip.value := leg] else c.active)
  }

  /** `applyAnswerSideEffectsOnce` with `claimAnswerSideEffects` */
  function ApplyEffects(c: Call, leg: CallId): Call
    requires c.session.Some?
  {
    if leg in c.effects then c
    else
      var c1 := c.(effects := c.effects + {leg});
      if c.session.value.cfg.recordingAllowed then Issue(c1, [RecordCall]) else c1
  }

  function SetSlots(c: Call, slots: seq<Slot>): Call
    requires c.session.Some?
  {
    With(c, c.session.value.(legs := Some(slots)))
  }

  /** An answer that does not yet confirm the bridge: note it, and bridge a parked caller. */
  function NoteAnswer(c: Call, leg: CallId, bridgeAccepted: bool): Call
    requires c.session.Some?
  {
    var c1 := SetSlots(c, MarkLeg(Slots(c.session.value), leg, Answered));
    var s := c1.session.value;
    if s.deferAnswer && !s.pstnAnswered then
      Issue(With(c1, s.(pstnAnswered := bridgeAccepted)), [BridgeCaller(leg, bridgeAccepted)])
    else c1
  }

  function Keep(s: Session, leg: CallId): set<CallId> {
    {leg} + (if s.winnerLeg.Some? then {s.winnerLeg.value} else {})
    + (if s.connectedLeg.Some? then {s.connectedLeg.value} else {})
  }

  /** `cancelRemainingOutboundLegs` */
  function CancelRemaining(c: Call, leg: CallId): Call
    requires c.session.Some?
  {
    var s := c.session.value;
    var keep := Keep(s, leg);
    Issue(SetSlots(c, CancelPending(Slots(s), keep)), HangupsFor(Slots(s), keep))
  }

  /** In a simultaneous ring: the winner's target becomes the active one, the others stop ringing. */
  function SettleRace(c: Call, leg: CallId): Call
    requires c.session.Some?
  {
    var s := c.session.value;
    var slot := FindLeg(Slots(s), leg);
    var target := if slot.Some? && Slots(s)[slot.value].target < |s.cfg.targets|
                  then Some(Slots(s)[slot.value].target) else None;
    CancelRemaining(
      With(c, s.(activeTarget := target, legs := Some(MarkLeg(Slots(s), leg, Answered)))), leg)
  }

  /** The member `recordRingGroupAnswered` credits. */
  function CreditedMember(s: Session): Option<Member> {
    OrElse(MemberOf(s.cfg, s.activeTarget), MemberOf(s.cfg, Some(s.ringIndex)))
  }

  /** The first leg to claim the call. */
  function Win(c: Call, leg: CallId): Call
    requires c.session.Some?
  {
    var c1 := MarkBridged(c.(winner := Some(leg)), leg);
    var c2 := if c1.session.value.cfg.simultaneous then SettleRace(c1, leg) else c1;
    var c3 := ApplyEffects(c2, leg);
    if c3.session.value.cfg.ringGroup then Issue(c3, [GroupAnswered(CreditedMember(c3.session.value))]) else c3
  }

  function RebridgeIfNeeded(c: Call, winner: CallId): Call
    requires c.session.Some?
  {
    if c.session.value.stage == Bridged then c else MarkBridged(c, winner)
  }

  /** `claimConnectedLeg` and what follows its outcome */
  function Claim(c: Call, leg: CallId, kind: AnswerKind): Call
    requires c.session.Some?
  {
    match c.winner
    case None => Win(c, leg)
    case Some(winner) =>
      if winner == leg then ApplyEffects(RebridgeIfNeeded(c, winner), winner)
      else if kind == CallBridged then RebridgeIfNeeded(c, winner)
      else Issue(SetSlots(c, MarkLeg(Slots(c.session.value), leg, Cancelled)), [Hangup(leg)])
  }

  predicate Confirms(kind: AnswerKind) {
    kind == CallBridged || kind == Untyped
  }

  /** In a simultaneous ring only a leg that is on the list and not written off counts. */
  predicate Heard(s: Session, leg: CallId) {
    s.cfg.simultaneous ==>
      var slot := FindLeg(Slots(s), leg);
      slot.Some? && Slots(s)[slot.value].status != Cancelled && Slots(s)[slot.value].status != Failed
  }

  predicate AlreadyBridgedTo(s: Session, leg: CallId) {
    s.stage == Bridged && (s.connectedLeg == Some(leg) || s.winnerLeg == Some(leg))
  }

  /** `onOutboundLegAnswered` */
  function LegAnswered(c: Call, leg: CallId, kind: AnswerKind, now: nat, bridgeAccepted: bool): Call {
    if c.session.None? then c
    else
      var c1 := MarkConnecting(c, now);
      var s := c1.session.value;
      if AlreadyBridgedTo(s, leg) then ApplyEffects(c1, leg)
      else if !Heard(s, leg) then c1
      else if !Confirms(kind) then NoteAnswer(c1, leg, bridgeAccepted)
      else Claim(c1, leg, kind)
  }

  /** `handleCallAnswered` drops legs that are not on the list; the other two handlers do not. */
  function AnswerEvent(c: Call, leg: CallId, kind: AnswerKind, now: nat, bridgeAccepted: bool): Call {
    if c.session.Some? && kind == CallAnswered && !HoldsLeg(Slots(c.session.value), leg) then c
    else LegAnswered(c, leg, kind, now, bridgeAccepted)
  }

  /** The five outcomes of an answer event. */
  lemma AnswerCases(c: Call, leg: CallId, kind: AnswerKind, now: nat, ok: bool)
    requires c.session.Some?
    ensures var c1, c' := MarkConnecting(c, now), AnswerEvent(c, leg, kind, now, ok);
            || c' == c
            || c' == c1
            || (AlreadyBridgedTo(c1.session.value, leg) && c' == ApplyEffects(c1, leg))
            || (Heard(c1.session.value, leg) && Confirms(kind) && c' == Claim(c1, leg, kind))
            || (Heard(c1.session.value, leg) && !Confirms(kind) && c' == NoteAnswer(c1, leg, ok))
  {
  }

  /** `markAgentWebRtcAccepted` */
  function AgentAccepted(c: Call, sip: Sip, now: nat): Call {
    if sip !in c.pending || c.session.None? then c
    else
      var s := c.session.value;
      With(c, s.(stage := Connecting, connectingSince := OrElse(s.connectingSince, Some(now))))
  }

  // ---- dialling ----

  /** `dialAllTargetsSimultaneously` up to its dials */
  function StartSimultaneous(c: Call, now: nat): Call
    requires c.session.Some?
  {
    var s := c.session.value;
    if s.cfg.targets == [] || !s.cfg.appConfigured then Route(c, now)
    else
      Issue(With(c, s.(stage := Ringing, legs := Some(Reserved(|s.cfg.targets|)),
                       connectedLeg := None, primaryLeg := None, activeTarget := None)),
            DialCommands(s.cfg.targets))
  }

  /** One dial command for every target that has a dial string. */
  function DialCommands(targets: seq<Target>): seq<Command> {
    if targets == [] then []
    else
      var n := |targets| - 1;
      DialCommands(targets[..n]) + if targets[n].dialable then [Dial(n)] else []
  }

  /** `dialSingleTarget` once the carrier accepted the dial: the agent has a pending ring. */
  function DialAccepted(c: Call, sip: Option<Sip>): Call {
    if sip.Some? then c.(pending := c.pending + {sip.value}) else c
  }

  predicate AlreadyConnected(c: Call)
    requires c.session.Some?
  {
    c.winner.Some? || c.session.value.connectedLeg.Some? || c.session.value.stage == Bridged
  }

  predicate IsConnectedLeg(c: Call, leg: CallId)
    requires c.session.Some?
  {
    c.winner == Some(leg) || c.session.value.winnerLeg == Some(leg) || c.session.value.connectedLeg == Some(leg)
  }

  /** `registerOutboundDialResult` */
  function RegisterDial(c: Call, target: nat, result: Option<CallId>): Call {
    if c.session.None? then c
    else
      var s := c.session.value;
      match result
      case None => SetSlots(c, MarkTarget(Slots(s), target, Failed))
      case Some(leg) =>
        if !AlreadyConnected(c) then
          SetSlots(c, UpsertLeg(Slots(s), target, leg)).(index := c.index + {leg})
        else if IsConnectedLeg(c, leg) then
          With(c, s.(legs := Some(MarkTarget(Slots(s), target, Answered)), winnerLeg := Some(leg),
                     connectedLeg := Some(leg), primaryLeg := Some(leg), activeBridge := true,
                     connectedAt := true, stage := Bridged))
        else Issue(SetSlots(c, MarkTarget(Slots(s), target, Cancelled)), [Hangup(leg)])
  }

  predicate NoneRinging(slots: seq<Slot>) {
    forall i :: 0 <= i < |slots| ==> slots[i].status != Pending || slots[i].leg.None?
  }

  /** `dialAllTargetsSimultaneously` after every dial was registered */
  function FinishDialling(c: Call, now: nat): Call {
    if c.session.None? then c
    else
      var s := c.session.value;
      var slots := Slots(s);
      var c1 := With(c, s.(primaryLeg := if slots != [] && slots[0].leg.Some? then slots[0].leg else s.primaryLeg));
      if NoneRinging(slots) && c.winner.None? then Route(c1, now) else c1
  }

  function Outcome(outcomes: seq<Option<CallId>>, target: nat): Option<CallId> {
    if target < |outcomes| then outcomes[target] else None
  }

  /**
   `dialNextTarget`: dial the target at `ringIndex`; when it has no dial string or the carrier
   refuses, go on with the next. `outcomes` says what leg, if any, each dial would get.
   */
  function DialNext(c: Call, outcomes: seq<Option<CallId>>, now: nat): Call
    requires c.session.Some?
    decreases |c.session.value.cfg.targets| - c.session.value.ringIndex
  {
    var s := c.session.value;
    var i := s.ringIndex;
    if i >= |s.cfg.targets| then Issue(EnsureAnswered(c), [Speak(Goodbye)])
    else
      var c1 := With(c, s.(stage := Ringing, activeTarget := Some(i)));
      if !s.cfg.targets[i].dialable then DialAfter(c1, outcomes, now)
      else if !s.cfg.appConfigured then Route(c1, now)
      else
        var c2 := Issue(c1, [Dial(i)]);
        match Outcome(outcomes, i)
        case Some(leg) =>
          DialAccepted(With(c2, c2.session.value.(primaryLeg := Some(leg))), s.cfg.targets[i].sip)
            .(index := c.index + {leg})
        case None => DialAfter(c2, outcomes, now)
  }

  /**
   When no target is left, the increment is on a record that is no longer the stored one, so it
   reaches the store only if the fallback saves it.
   */
  function AfterLast(c: Call, now: nat): Call
    requires c.session.Some?
  {
    var s := c.session.value;
    var next := With(c, s.(ringIndex := s.ringIndex + 1));
    if s.cfg.voicemailAllowed || (s.deferAnswer && !s.pstnAnswered) then
      if ActiveWinner(next, now) then c else PlayFallback(next)
    else Route(c, now)
  }

  /** Move on inside `dialNextTarget`. */
  function DialAfter(c: Call, outcomes: seq<Option<CallId>>, now: nat): Call
    requires c.session.Some? && c.session.value.ringIndex < |c.session.value.cfg.targets|
    decreases |c.session.value.cfg.targets| - c.session.value.ringIndex, 0
  {
    var s := c.session.value;
    if s.ringIndex + 1 < |s.cfg.targets| then DialNext(With(c, s.(ringIndex := s.ringIndex + 1)), outcomes, now)
    else AfterLast(c, now)
  }

  /** `startRinging` */
  function StartRinging(c: Call, outcomes: seq<Option<CallId>>, now: nat): Call
    requires c.session.Some?
  {
    if c.session.value.cfg.simultaneous then StartSimultaneous(c, now) else DialNext(c, outcomes, now)
  }

  // ---- endings ----

  /** Sequential mode: the ringing target is gone, ring the next one. */
  function Advance(c: Call, outcomes: seq<Option<CallId>>, now: nat): Call
    requires c.session.Some?
  {
    var s := c.session.value;
    var next := With(c, s.(ringIndex := s.ringIndex + 1));
    if s.ringIndex + 1 < |s.cfg.targets| then DialNext(next, outcomes, now) else Route(next, now)
  }

  /** `handleSimultaneousLegEnded` */
  function SimultaneousLegEnded(c: Call, leg: CallId, now: nat): Call
    requires c.session.Some?
  {
    var s := c.session.value;
    var slot := FindLeg(Slots(s), leg);
    if BridgePending(s, now) || c.winner.Some? || s.connectedLeg.Some? || s.stage == Bridged then c
    else if slot.None? || Slots(s)[slot.value].status in {Cancelled, Answered, Failed} then c
    else
      var slots := MarkLeg(Slots(s), leg, NoAnswer);
      var c1 := SetSlots(c, slots);
      if (exists i :: 0 <= i < |slots| && slots[i].status == Answered) || !Settled(slots) then c1
      else Route(c1, now)
  }

  /** `handleDialEnded`; `answered` when the reported dial status is answered or bridged. */
  function DialEnded(c: Call, leg: CallId, answered: bool, outcomes: seq<Option<CallId>>, now: nat): Call {
    if c.session.None? || answered || ActiveWinner(c, now) then c
    else
      var s := c.session.value;
      if s.stage != Ringing then c
      else if !s.cfg.simultaneous then Advance(c, outcomes, now)
      else if !HoldsLeg(Slots(s), leg) then c
      else SimultaneousLegEnded(c, leg, now)
  }

  /** `cleanupInboundSession` with `deleteSession` and `clearSessionClaims` */
  function Cleanup(c: Call): Call
    requires c.session.Some?
  {
    var s := c.session.value;
    var sips := AgentSips(s.cfg);
    var legs := ClaimedLegs(s);
    Call(None, None, c.effects - legs, c.index - legs, c.pending - sips, c.active - sips, c.trace)
  }

  /** `cancelAllRingingOutboundLegs` */
  function CancelAll(c: Call): Call
    requires c.session.Some?
  {
    var slots := Slots(c.session.value);
    Issue(SetSlots(c, CancelPending(slots, {})), HangupsFor(slots, {}))
  }

  /** `handleHangup` for the caller's own leg */
  function CallerHangup(c: Call, now: nat): Call {
    if c.session.None? || c.session.value.stage == Connecting then c
    else if c.session.value.stage == Ringing && c.session.value.cfg.simultaneous && !ActiveWinner(c, now)
    then Cleanup(CancelAll(c))
    else Cleanup(c)
  }

  /** `handleHangup` for any other leg */
  function LegHangup(c: Call, leg: CallId, outcomes: seq<Option<CallId>>, now: nat): Call {
    if c.session.None? || c.session.value.stage == Connecting then c
    else
      var s := c.session.value;
      var listed := HoldsLeg(Slots(s), leg);
      var written := SetSlots(c, MarkLeg(Slots(s), leg, Cancelled));
      if s.stage == Ringing && listed then
        if BridgePending(s, now) then c
        else if ActiveWinner(c, now) then
          if s.winnerLeg != Some(leg) && s.connectedLeg != Some(leg) then written else c
        else if s.cfg.simultaneous then SimultaneousLegEnded(c, leg, now)
        else Advance(c, outcomes, now)
      else if listed && s.connectedLeg.Some? && s.connectedLeg != Some(leg) then written
      else Cleanup(c)
  }

  /** `handleSpeakEnded` for the prompts of this file */
  function SpeakEnded(c: Call, prompt: Prompt): Call {
    if c.session.None? then c
    else if prompt == Goodbye then Issue(c, [HangupCaller])
    else Issue(With(c, c.session.value.(stage := VoicemailRecord)), [RecordVoicemail])
  }
}
