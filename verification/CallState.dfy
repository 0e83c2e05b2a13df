/**
 The record kept for one inbound call while its agents' legs ring
 (lib/inboundCallControl.js, lib/callControlSessionStore.js), and the operations on its list of
 outbound legs. Call-control ids, SIP user names and ring-group members are opaque: only their
 equality matters, so they are numbers here.
 */
module CallState {
  import opened Options

  type CallId = nat
  type Sip = nat
  type Member = nat

  datatype Stage = Connect | Ringing | Connecting | Bridged | VoicemailPrompt | VoicemailRecord

  datatype Status = Pending | Answered | Failed | Cancelled | NoAnswer

  /** One entry of `outboundLegs`. A slot is reserved before its dial returns a leg id. */
  datatype Slot = Slot(leg: Option<CallId>, target: nat, status: Status)

  /** A ring target: the agent's SIP user, if it has one; whether it has a dial string. */
  datatype Target = Target(sip: Option<Sip>, member: Option<Member>, dialable: bool)

  /** What the session carries unchanged from `startConnectFlow`. */
  datatype Config = Config(
    simultaneous: bool,
    targets: seq<Target>,
    appConfigured: bool,
    voicemailAllowed: bool,
    recordingAllowed: bool,
    ringGroup: bool,
    ringFirst: bool,
    grace: nat)

  datatype Session = Session(
    cfg: Config,
    callSessionId: nat,
    stage: Stage,
    legs: Option<seq<Slot>>,
    ringIndex: nat,
    connectedLeg: Option<CallId>,
    winnerLeg: Option<CallId>,
    primaryLeg: Option<CallId>,
    activeTarget: Option<nat>,
    activeBridge: bool,
    connectedAt: bool,
    connectingSince: Option<nat>,
    pstnAnswered: bool,
    deferAnswer: bool,
    transferMarker: Option<nat>)

  datatype Prompt = VoicemailGreeting | Goodbye

  /** What a handler does outside the session store: commands to the carrier, counter updates. */
  datatype Command =
    | Dial(target: nat)
    | Hangup(leg: CallId)
    | HangupCaller
    | AnswerCaller
    | BridgeCaller(leg: CallId, accepted: bool)
    | Speak(prompt: Prompt)
    | RecordCall
    | RecordVoicemail
    | GroupAnswered(member: Option<Member>)
    | GroupMissed

  /**
   Everything the stores hold about one call. `effects` are the side-effect tokens, `index` the
   legs the leg index maps to this call, `pending` and `active` the agent entries that name it.
   */
  datatype Call = Call(
    session: Option<Session>,
    winner: Option<CallId>,
    effects: set<CallId>,
    index: set<CallId>,
    pending: set<Sip>,
    active: map<Sip, CallId>,
    trace: seq<Command>)

  // ---- the list of outbound legs ----

  /** `getOutboundLegs`: the list, or one entry made up from the primary leg. */
  function Slots(s: Session): seq<Slot> {
    match s.legs
    case Some(legs) => legs
    case None =>
      match s.primaryLeg
      case Some(leg) => [Slot(Some(leg), s.ringIndex, if s.connectedLeg == Some(leg) then Answered else Pending)]
      case None => []
  }

  /** `findOutboundLeg`: where the first slot holding this leg is. */
  function FindLeg(slots: seq<Slot>, leg: CallId): (r: Option<nat>)
    ensures r.Some? ==> r.value < |slots| && slots[r.value].leg == Some(leg)
    ensures r.Some? ==> forall i :: 0 <= i < r.value ==> slots[i].leg != Some(leg)
    ensures r.None? ==> forall i :: 0 <= i < |slots| ==> slots[i].leg != Some(leg)
  {
    if slots == [] then None
    else if slots[0].leg == Some(leg) then Some(0)
    else match FindLeg(slots[1..], leg)
      case None => (assert forall i :: 1 <= i < |slots| ==> slots[i] == slots[1..][i - 1]; None)
      case Some(i) => (assert forall j :: 1 <= j < |slots| ==> slots[j] == slots[1..][j - 1]; Some(i + 1))
  }

  /** Where the slot reserved for a target is. */
  function FindTarget(slots: seq<Slot>, target: nat): (r: Option<nat>)
    ensures r.Some? ==> r.value < |slots| && slots[r.value].target == target
    ensures r.Some? ==> forall i :: 0 <= i < r.value ==> slots[i].target != target
    ensures r.None? ==> forall i :: 0 <= i < |slots| ==> slots[i].target != target
  {
    if slots == [] then None
    else if slots[0].target == target then Some(0)
    else match FindTarget(slots[1..], target)
      case None => (assert forall i :: 1 <= i < |slots| ==> slots[i] == slots[1..][i - 1]; None)
      case Some(i) => (assert forall j :: 1 <= j < |slots| ==> slots[j] == slots[1..][j - 1]; Some(i + 1))
  }

  predicate HoldsLeg(slots: seq<Slot>, leg: CallId) {
    exists i :: 0 <= i < |slots| && slots[i].leg == Some(leg)
  }

  function LegIds(slots: seq<Slot>): set<CallId> {
    set i | 0 <= i < |slots| && slots[i].leg.Some? :: slots[i].leg.value
  }

  /** A slot of that leg has the status, any other is as it was. */
  predicate IsMarked(slot: Slot, slot': Slot, leg: CallId, status: Status) {
    && slot'.leg == slot.leg && slot'.target == slot.target
    && slot'.status == if slot.leg == Some(leg) then status else slot.status
  }

  /** `markOutboundLeg`: every slot holding the leg gets the status, and nothing else changes. */
  function MarkLeg(slots: seq<Slot>, leg: CallId, status: Status): (r: seq<Slot>)
    ensures |r| == |slots| && forall i :: 0 <= i < |slots| ==> IsMarked(slots[i], r[i], leg, status)
  {
    seq(|slots|, i requires 0 <= i < |slots| =>
      if slots[i].leg == Some(leg) then slots[i].(status := status) else slots[i])
  }

  /** `markOutboundLegByIndex` */
  function MarkTarget(slots: seq<Slot>, target: nat, status: Status): seq<Slot> {
    match FindTarget(slots, target)
    case Some(i) => slots[i := slots[i].(status := status)]
    case None => slots + [Slot(None, target, status)]
  }

  /** `upsertOutboundLeg` for a dial that returned a leg. */
  function UpsertLeg(slots: seq<Slot>, target: nat, leg: CallId): seq<Slot> {
    match FindTarget(slots, target)
    case Some(i) => slots[i := Slot(Some(leg), target, Pending)]
    case None => slots + [Slot(Some(leg), target, Pending)]
  }

  /** `upsertOutboundLeg` in the reserving loop: one ringing slot per target. */
  function Reserved(n: nat): (r: seq<Slot>)
    ensures |r| == n
  {
    seq(n, i requires 0 <= i < n => Slot(None, i, Pending))
  }

  predicate Cancellable(slot: Slot, keep: set<CallId>) {
    slot.leg.Some? && slot.leg.value !in keep && slot.status == Pending
  }

  /** A slot that rings outside `keep` is cancelled, any other is as it was. */
  predicate IsSpared(slot: Slot, slot': Slot, keep: set<CallId>) {
    && slot'.leg == slot.leg && slot'.target == slot.target
    && slot'.status == (if Cancellable(slot, keep) then Cancelled else slot.status)
    && !Cancellable(slot', keep)
  }

  /** The slots after the cancelling loops: ringing legs outside `keep` are cancelled. */
  function CancelPending(slots: seq<Slot>, keep: set<CallId>): (r: seq<Slot>)
    ensures |r| == |slots| && forall i :: 0 <= i < |slots| ==> IsSpared(slots[i], r[i], keep)
  {
    seq(|slots|, i requires 0 <= i < |slots| =>
      if Cancellable(slots[i], keep) then slots[i].(status := Cancelled) else slots[i])
  }

  /** The hangups those loops issue, in slot order. */
  function HangupsFor(slots: seq<Slot>, keep: set<CallId>): seq<Command> {
    if slots == [] then []
    else
      var last := slots[|slots| - 1];
      HangupsFor(slots[..|slots| - 1], keep)
        + if Cancellable(last, keep) then [Hangup(last.leg.value)] else []
  }

  lemma {:induction false} HangupsForExact(slots: seq<Slot>, keep: set<CallId>, c: Command)
    ensures c in HangupsFor(slots, keep) <==>
            c.Hangup? && exists i :: 0 <= i < |slots| && Cancellable(slots[i], keep) && slots[i].leg == Some(c.leg)
  {
    if slots != [] {
      var front, last := slots[..|slots| - 1], slots[|slots| - 1];
      HangupsForExact(front, keep, c);
      assert forall i :: 0 <= i < |front| ==> front[i] == slots[i];
    }
  }

  predicate Settled(slots: seq<Slot>) {
    slots != [] && forall i :: 0 <= i < |slots| ==> slots[i].status != Pending
  }

  // ---- predicates on the session ----

  /** `isBridgeGraceActive` */
  predicate GraceActive(s: Session, now: nat) {
    s.stage != Bridged && s.connectingSince.Some? && now as int - s.connectingSince.value < s.cfg.grace
  }

  /** `shouldBlockVoicemailRouting`, `shouldIgnoreLegTerminationDuringBridgeGrace` */
  predicate BridgePending(s: Session, now: nat) {
    s.stage == Connecting || GraceActive(s, now)
  }

  /** `hasBridgedState` */
  predicate BridgedState(s: Session) {
    s.stage == Bridged || s.activeBridge || s.winnerLeg.Some? || s.connectedAt || s.connectedLeg.Some?
  }

  /** `hasActiveWinner` */
  predicate ActiveWinner(c: Call, now: nat)
    requires c.session.Some?
  {
    BridgedState(c.session.value) || BridgePending(c.session.value, now) || c.winner.Some?
  }

  function TargetSip(cfg: Config, target: Option<nat>): Option<Sip> {
    if target.Some? && target.value < |cfg.targets| then cfg.targets[target.value].sip else None
  }

  function FirstSip(targets: seq<Target>): (r: Option<Sip>)
    ensures r.Some? ==> exists i :: 0 <= i < |targets| && targets[i].sip == r
  {
    if targets == [] then None
    else if targets[0].sip.Some? then targets[0].sip
    else
      var r := FirstSip(targets[1..]);
      assert forall i :: 1 <= i < |targets| ==> targets[i] == targets[1..][i - 1];
      r
  }

  /** `resolveAgentSipUsernameForSession` */
  function AgentSip(s: Session, leg: CallId): Option<Sip> {
    var slot := FindLeg(Slots(s), leg);
    var ofLeg := if slot.Some? then TargetSip(s.cfg, Some(Slots(s)[slot.value].target)) else None;
    OrElse(TargetSip(s.cfg, s.activeTarget), OrElse(ofLeg, FirstSip(s.cfg.targets)))
  }

  /** Every agent the call's targets name. */
  function AgentSips(cfg: Config): set<Sip> {
    set i | 0 <= i < |cfg.targets| && cfg.targets[i].sip.Some? :: cfg.targets[i].sip.value
  }

  lemma AgentSipIsTargets(s: Session, leg: CallId)
    ensures AgentSip(s, leg).Some? ==> AgentSip(s, leg).value in AgentSips(s.cfg)
  {
  }

  function MemberOf(cfg: Config, target: Option<nat>): Option<Member> {
    if target.Some? && target.value < |cfg.targets| then cfg.targets[target.value].member else None
  }

  // ---- which legs belong to a session ----

  /** The legs `clearSessionClaims` forgets with a session. */
  function ClaimedLegs(s: Session): set<CallId> {
    (if s.legs.Some? then LegIds(s.legs.value) else {})
    + (if s.connectedLeg.Some? then {s.connectedLeg.value} else {})
    + (if s.primaryLeg.Some? then {s.primaryLeg.value} else {})
  }

  /** The scan of `findSession` takes this session for the leg. */
  predicate ScansLeg(s: Session, leg: CallId) {
    || s.connectedLeg == Some(leg)
    || s.primaryLeg == Some(leg)
    || (s.legs.Some? && HoldsLeg(s.legs.value, leg))
  }

  /** Cleanup forgets exactly the legs the scan would find. */
  lemma ScannedIsClaimed(s: Session, leg: CallId)
    ensures ScansLeg(s, leg) <==> leg in ClaimedLegs(s)
  {
    if s.legs.Some? && HoldsLeg(s.legs.value, leg) {
      var i :| 0 <= i < |s.legs.value| && s.legs.value[i].leg == Some(leg);
      assert s.legs.value[i].leg.Some?;
    }
  }

  lemma LegIdsPush(slots: seq<Slot>, slot: Slot)
    ensures LegIds(slots + [slot]) == LegIds(slots) + if slot.leg.Some? then {slot.leg.value} else {}
  {
    var all := slots + [slot];
    forall leg: CallId | leg in LegIds(slots) ensures leg in LegIds(all) {
      var i :| 0 <= i < |slots| && slots[i].leg == Some(leg);
      assert all[i].leg == Some(leg);
    }
    if slot.leg.Some? {
      assert all[|slots|].leg.Some?;
    }
  }
}
