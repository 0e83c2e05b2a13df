/**
 Blind transfer of one inbound call (lib/callTransferControl.js) as a machine layered over the
 call: the transfer handler sees each webhook first and passes on what it does not handle.
 A transfer's id is its position in the list of records, which is their insertion order.
 */
module TransferRules {
  import opened Options
  import opened CallState
  import opened InboundRules

  datatype TransferStage = Idle | Transferring | Completed | TransferFailed | TransferCancelled

  datatype Transfer = Transfer(
    stage: TransferStage,
    callerLeg: CallId,
    agentLeg: CallId,
    agentSip: Sip,
    callSessionId: nat,
    destination: Option<CallId>,
    targetAnswered: bool,
    callerBridged: bool,
    agentReleased: bool)

  /** The call, the transfers made of it, and the one its transfer index names. */
  datatype Desk = Desk(
    inbound: CallId,
    call: Call,
    transfers: seq<Transfer>,
    current: Option<nat>)

  datatype Report = Initiated(outgoing: bool) | LegAnswered | LegBridged | LegHungUp

  /** A carrier webhook: the leg, the transfer its client state names, and its call session. */
  datatype Webhook = Webhook(report: Report, leg: CallId, tag: Option<nat>, sessionId: Option<nat>)

  predicate Terminal(s: TransferStage) {
    s == Completed || s == TransferFailed || s == TransferCancelled
  }

  /** `canTransitionTransferStage` over the table of allowed transitions. */
  predicate MayBecome(s: TransferStage, next: TransferStage) {
    match s
    case Idle => next == Transferring || next == TransferCancelled
    case Transferring => Terminal(next)
    case _ => false
  }

  function Put(d: Desk, i: nat, t: Transfer): Desk
    requires i < |d.transfers|
  {
    d.(transfers := d.transfers[i := t])
  }

  /** `transitionTransferStage`; None when the table forbids it and the code throws. */
  function Transition(d: Desk, i: nat, next: TransferStage): Option<Desk>
    requires i < |d.transfers|
  {
    if MayBecome(d.transfers[i].stage, next) then Some(Put(d, i, d.transfers[i].(stage := next))) else None
  }

  // ---- which transfer a webhook is about ----

  predicate Matches(t: Transfer, leg: CallId, sessionId: Option<nat>) {
    || (sessionId == Some(t.callSessionId) && t.stage == Transferring)
    || t.callerLeg == leg || t.agentLeg == leg || t.destination == Some(leg)
  }

  /** The scan: the first record in insertion order that matches. */
  function Scan(ts: seq<Transfer>, leg: CallId, sessionId: Option<nat>): (r: Option<nat>)
    ensures r.Some? ==> r.value < |ts| && Matches(ts[r.value], leg, sessionId)
    ensures r.Some? ==> forall i :: 0 <= i < r.value ==> !Matches(ts[i], leg, sessionId)
    ensures r.None? ==> forall i :: 0 <= i < |ts| ==> !Matches(ts[i], leg, sessionId)
  {
    if ts == [] then None
    else
      var n := |ts| - 1;
      var r := Scan(ts[..n], leg, sessionId);
      if r.Some? then r else if Matches(ts[n], leg, sessionId) then Some(n) else None
  }

  /** `findTransferSessionForPayload` */
  function Find(d: Desk, w: Webhook): (r: Option<nat>)
    ensures r.Some? ==> r.value < |d.transfers|
  {
    if w.tag.Some? && w.tag.value < |d.transfers| then w.tag
    else Scan(d.transfers, w.leg, w.sessionId)
  }

  // ---- endings ----

  /** `finalizeTransferFailure` for a record that is not terminal */
  function Fail(d: Desk, i: nat): Desk
    requires i < |d.transfers|
  {
    match Transition(d, i, TransferFailed)
    case None => d
    case Some(d') =>
      if d.call.session.None? then d'
      else d'.(call := With(d.call, d.call.session.value.(transferMarker := None)))
  }

  /** What is left of the call when the agent's leg of a completed transfer is gone. */
  function CloseCall(c: Call, agentSip: Sip): Call {
    if c.session.None? then c
    else
      var s := c.session.value;
      var legs := ClaimedLegs(s);
      Call(None, None, c.effects - legs, c.index - legs, c.pending - AgentSips(s.cfg), c.active - {agentSip}, c.trace)
  }

  /** `finalizeTransferSuccess` */
  function Succeed(d: Desk, i: nat): Desk
    requires i < |d.transfers|
  {
    var done := if d.transfers[i].stage == Completed then Some(d) else Transition(d, i, Completed);
    match done
    case None => d
    case Some(d') =>
      Put(d', i, d'.transfers[i].(agentReleased := true)).(call := CloseCall(d.call, d.transfers[i].agentSip))
  }

  // ---- the operations ----

  /** `resolveActiveBridgedCallForAgent` finds this call. */
  predicate BridgedFor(d: Desk, sip: Sip) {
    sip in d.call.active && d.call.session.Some? && d.call.session.value.stage == Bridged
  }

  predicate InProgress(d: Desk) {
    d.current.Some? && d.current.value < |d.transfers| && d.transfers[d.current.value].stage == Transferring
  }

  predicate MayInitiate(d: Desk, sip: Sip) {
    BridgedFor(d, sip) && !InProgress(d)
  }

  function NewTransfer(d: Desk, sip: Sip): Transfer
    requires BridgedFor(d, sip)
  {
    var s := d.call.session.value;
    var agent := if s.connectedLeg.Some? then s.connectedLeg.value
                 else if s.winnerLeg.Some? then s.winnerLeg.value else d.call.active[sip];
    Transfer(Transferring, d.inbound, agent, sip, s.callSessionId, None, false, false, false)
  }

  /** `initiateBlindTransfer` up to the transfer command. */
  function Initiate(d: Desk, sip: Sip, destinationOk: bool): Desk {
    if sip !in d.call.active then d
    else if !BridgedFor(d, sip) then d.(call := d.call.(active := d.call.active - {sip}))
    else if InProgress(d) || !destinationOk then d
    else
      var id := |d.transfers|;
      d.(transfers := d.transfers + [NewTransfer(d, sip)],
         current := Some(id),
         call := With(d.call, d.call.session.value.(transferMarker := Some(id))))
  }

  /** The transfer command was refused: whatever the webhooks made of the record by then. */
  function Refused(d: Desk, i: nat): Desk {
    if i < |d.transfers| then Fail(d, i) else d
  }

  predicate AwaitsAgent(t: Transfer, w: Webhook) {
    w.report == LegHungUp && t.stage == Completed && w.leg == t.agentLeg && !t.agentReleased
  }

  /** `handleTransferCallControlEvent`; None when it leaves the webhook to the call's handlers. */
  function HandleTransfer(d: Desk, w: Webhook): Option<Desk> {
    match Find(d, w)
    case None => None
    case Some(i) =>
      var t := d.transfers[i];
      if Terminal(t.stage) && !AwaitsAgent(t, w) then None
      else if w.tag.None? && t.stage != Transferring && !AwaitsAgent(t, w) then None
      else match w.report
        case Initiated(outgoing) =>
          if !outgoing || w.leg == t.callerLeg || w.leg == t.agentLeg then None
          else Some(Put(d, i, t.(destination := Some(w.leg))))
        case LegAnswered =>
          if t.destination == Some(w.leg) || (w.tag == Some(i) && w.leg != t.agentLeg)
          then Some(Put(d, i, t.(targetAnswered := true)))
          else None
        case LegBridged =>
          if t.stage == Transferring && Joins(t, w.leg)
          then Some(Put(d, i, t.(callerBridged := true, stage := Completed)))
          else None
        case LegHungUp =>
          if t.destination == Some(w.leg) && !t.callerBridged then Some(Fail(d, i))
          else if w.leg == t.agentLeg && (t.callerBridged || t.stage == Completed) then Some(Succeed(d, i))
          else None
  }

  /** This leg's bridging joins the caller to the transfer's target. */
  predicate Joins(t: Transfer, leg: CallId) {
    t.destination == Some(leg) || (t.callerLeg == leg && t.targetAnswered)
  }

  /** The call's own handlers get what the transfer does not handle. */
  function PassOn(d: Desk, w: Webhook, linked: bool, outcomes: seq<Option<CallId>>, now: nat, ok: bool): Desk {
    var c := d.call;
    var found := c.session.Some? && (w.leg in c.index || linked || ScansLeg(c.session.value, w.leg));
    match w.report
    case Initiated(_) => d
    case LegAnswered =>
      if found && w.leg != d.inbound then d.(call := AnswerEvent(c, w.leg, CallAnswered, now, ok)) else d
    case LegBridged =>
      if found && w.leg != d.inbound then d.(call := AnswerEvent(c, w.leg, CallBridged, now, ok)) else d
    case LegHungUp =>
      if w.leg == d.inbound then d.(call := CallerHangup(c, now))
      else if found then d.(call := LegHangup(c, w.leg, outcomes, now))
      else d
  }
}
