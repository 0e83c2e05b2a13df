/**
 As long as no transfer is completed, the transfers of a call leave no trace in it but a marker:
 the call is what the events that the transfers did not take would have made of it on their own.
 */
module TransferErasure {
  import opened Options
  import opened CallState
  import opened InboundRules
  import opened InboundAgreement
  import opened TransferRules
  import opened TransferRuns
  import opened TransferResults

  /** The call without its transfer marker. */
  function Bare(c: Call): Call {
    if c.session.None? then c else With(c, c.session.value.(transferMarker := None))
  }

  // ---- no handler of the call looks at the marker ----

  lemma EnsureBare(c: Call)
    requires c.session.Some?
    ensures EnsureAnswered(Bare(c)) == Bare(EnsureAnswered(c))
  {
  }

  lemma FallbackBare(c: Call)
    requires c.session.Some?
    ensures PlayFallback(Bare(c)) == Bare(PlayFallback(c))
  {
    EnsureBare(c);
    PromptBare(EnsureAnswered(c), EnsureAnswered(Bare(c)));
  }

  /** The fallback past the answering of the caller. */
  function Prompted(c: Call): Call
    requires c.session.Some?
  {
    var s := c.session.value;
    var c1 := if s.cfg.ringGroup then Issue(c, [GroupMissed]) else c;
    if s.cfg.voicemailAllowed then Issue(With(c1, s.(stage := VoicemailPrompt)), [Speak(VoicemailGreeting)])
    else Issue(c1, [Speak(Goodbye)])
  }

  lemma PromptBare(c: Call, b: Call)
    requires c.session.Some? && b.session.Some? && Bare(b) == Bare(c)
    ensures Bare(Prompted(b)) == Bare(Prompted(c)) && (b == Bare(b) ==> Prompted(b) == Bare(Prompted(b)))
  {
  }

  lemma ActiveBare(c: Call, now: nat)
    requires c.session.Some?
    ensures ActiveWinner(Bare(c), now) == ActiveWinner(c, now)
    ensures BridgePending(Bare(c).session.value, now) == BridgePending(c.session.value, now)
  {
  }

  lemma RouteBare(c: Call, now: nat)
    requires c.session.Some?
    ensures Route(Bare(c), now) == Bare(Route(c, now))
  {
    ActiveBare(c, now);
    FallbackBare(c);
  }

  lemma WinBare(c: Call, leg: CallId)
    requires c.session.Some?
    ensures Win(Bare(c), leg) == Bare(Win(c, leg))
  {
    var c1 := MarkBridged(c.(winner := Some(leg)), leg);
    MarkBridgedBare(c.(winner := Some(leg)), leg);
    var c2 := if c1.session.value.cfg.simultaneous then SettleRace(c1, leg) else c1;
    if c1.session.value.cfg.simultaneous {
      SettleBare(c1, leg);
    }
    EffectsBare(c2, leg);
  }

  lemma MarkBridgedBare(c: Call, leg: CallId)
    requires c.session.Some?
    ensures MarkBridged(Bare(c), leg) == Bare(MarkBridged(c, leg))
    ensures RebridgeIfNeeded(Bare(c), leg) == Bare(RebridgeIfNeeded(c, leg))
  {
    assert AgentSip(c.session.value.(stage := Bridged, activeBridge := true, connectedAt := true,
             winnerLeg := Some(leg), connectedLeg := Some(leg), primaryLeg := Some(leg), transferMarker := None), leg)
           == AgentSip(c.session.value.(stage := Bridged, activeBridge := true, connectedAt := true,
             winnerLeg := Some(leg), connectedLeg := Some(leg), primaryLeg := Some(leg)), leg);
  }

  lemma CancelBare(c: Call, leg: CallId)
    requires c.session.Some?
    ensures CancelRemaining(Bare(c), leg) == Bare(CancelRemaining(c, leg))
  {
  }

  /** The winner's record before the others are cancelled. */
  function Settling(c: Call, leg: CallId): Call
    requires c.session.Some?
  {
    var s := c.session.value;
    var slot := FindLeg(Slots(s), leg);
    var target := if slot.Some? && Slots(s)[slot.value].target < |s.cfg.targets|
                  then Some(Slots(s)[slot.value].target) else None;
    With(c, s.(activeTarget := target, legs := Some(MarkLeg(Slots(s), leg, Answered))))
  }

  lemma SettlingBare(c: Call, leg: CallId)
    requires c.session.Some?
    ensures Settling(Bare(c), leg) == Bare(Settling(c, leg))
  {
  }

  lemma SettleParts(c: Call, leg: CallId)
    requires c.session.Some?
    ensures SettleRace(c, leg) == CancelRemaining(Settling(c, leg), leg)
  {
  }

  lemma SettleBare(c: Call, leg: CallId)
    requires c.session.Some?
    ensures SettleRace(Bare(c), leg) == Bare(SettleRace(c, leg))
  {
    SettleParts(c, leg);
    SettleParts(Bare(c), leg);
    SettlingBare(c, leg);
    CancelBare(Settling(c, leg), leg);
  }

  lemma EffectsBare(c: Call, leg: CallId)
    requires c.session.Some?
    ensures ApplyEffects(Bare(c), leg) == Bare(ApplyEffects(c, leg))
  {
  }

  lemma ClaimBare(c: Call, leg: CallId, kind: AnswerKind)
    requires c.session.Some?
    ensures Claim(Bare(c), leg, kind) == Bare(Claim(c, leg, kind))
  {
    match c.winner
    case None => WinBare(c, leg);
    case Some(winner) =>
      MarkBridgedBare(c, winner);
      EffectsBare(RebridgeIfNeeded(c, winner), winner);
  }

  lemma NoteBare(c: Call, leg: CallId, ok: bool)
    requires c.session.Some?
    ensures NoteAnswer(Bare(c), leg, ok) == Bare(NoteAnswer(c, leg, ok))
  {
  }

  lemma ConnectBare(c: Call, leg: CallId, now: nat)
    requires c.session.Some?
    ensures MarkConnecting(Bare(c), now) == Bare(MarkConnecting(c, now))
    ensures Heard(Bare(c).session.value, leg) == Heard(c.session.value, leg)
    ensures AlreadyBridgedTo(Bare(c).session.value, leg) == AlreadyBridgedTo(c.session.value, leg)
  {
  }

  /** An answer event once the stage is set. */
  function AfterConnecting(c1: Call, leg: CallId, kind: AnswerKind, ok: bool): Call
    requires c1.session.Some?
  {
    if AlreadyBridgedTo(c1.session.value, leg) then ApplyEffects(c1, leg)
    else if !Heard(c1.session.value, leg) then c1
    else if !Confirms(kind) then NoteAnswer(c1, leg, ok)
    else Claim(c1, leg, kind)
  }

  lemma AnsweredBare(c: Call, leg: CallId, kind: AnswerKind, ok: bool)
    requires c.session.Some?
    ensures AfterConnecting(Bare(c), leg, kind, ok) == Bare(AfterConnecting(c, leg, kind, ok))
  {
    ConnectBare(c, leg, 0);
    if AlreadyBridgedTo(c.session.value, leg) {
      EffectsBare(c, leg);
    } else if Confirms(kind) {
      ClaimBare(c, leg, kind);
    } else {
      NoteBare(c, leg, ok);
    }
  }

  lemma AnswerBare(c: Call, leg: CallId, kind: AnswerKind, now: nat, ok: bool)
    ensures AnswerEvent(Bare(c), leg, kind, now, ok) == Bare(AnswerEvent(c, leg, kind, now, ok))
  {
    if c.session.Some? {
      ConnectBare(c, leg, now);
      AnsweredBare(MarkConnecting(c, now), leg, kind, ok);
      AnswerIs(c, leg, kind, now, ok);
      AnswerIs(Bare(c), leg, kind, now, ok);
    }
  }

  lemma AnswerIs(c: Call, leg: CallId, kind: AnswerKind, now: nat, ok: bool)
    requires c.session.Some?
    ensures AnswerEvent(c, leg, kind, now, ok)
            == if kind == CallAnswered && !HoldsLeg(Slots(c.session.value), leg) then c
               else AfterConnecting(MarkConnecting(c, now), leg, kind, ok)
  {
  }

  /** The call while the target at `ringIndex` is tried. */
  function Trying(c: Call): Call
    requires c.session.Some?
  {
    With(c, c.session.value.(stage := Ringing, activeTarget := Some(c.session.value.ringIndex)))
  }

  lemma RingBare(c: Call, outcomes: seq<Option<CallId>>, now: nat)
    requires c.session.Some?
    requires var s := c.session.value;
             s.ringIndex >= |s.cfg.targets|
             || (s.cfg.targets[s.ringIndex].dialable && s.cfg.appConfigured && Outcome(outcomes, s.ringIndex).Some?)
    ensures DialNext(Bare(c), outcomes, now) == Bare(DialNext(c, outcomes, now))
  {
    EnsureBare(c);
  }

  lemma {:induction false} DialNextBare(c: Call, outcomes: seq<Option<CallId>>, now: nat)
    requires c.session.Some?
    ensures DialNext(Bare(c), outcomes, now) == Bare(DialNext(c, outcomes, now))
    decreases |c.session.value.cfg.targets| - c.session.value.ringIndex
  {
    var s := c.session.value;
    var i := s.ringIndex;
    var c1 := Trying(c);
    assert Trying(Bare(c)) == Bare(c1);
    if i >= |s.cfg.targets| || (s.cfg.targets[i].dialable && s.cfg.appConfigured && Outcome(outcomes, i).Some?) {
      RingBare(c, outcomes, now);
    } else if !s.cfg.targets[i].dialable {
      DialAfterBare(c1, outcomes, now);
    } else if !s.cfg.appConfigured {
      RouteBare(c1, now);
    } else {
      assert Issue(Bare(c1), [Dial(i)]) == Bare(Issue(c1, [Dial(i)]));
      DialAfterBare(Issue(c1, [Dial(i)]), outcomes, now);
    }
  }

  function NextUp(c: Call): Call
    requires c.session.Some?
  {
    With(c, c.session.value.(ringIndex := c.session.value.ringIndex + 1))
  }

  lemma NextUpBare(c: Call)
    requires c.session.Some?
    ensures NextUp(Bare(c)) == Bare(NextUp(c))
  {
  }

  lemma {:induction false} DialAfterBare(c: Call, outcomes: seq<Option<CallId>>, now: nat)
    requires c.session.Some? && c.session.value.ringIndex < |c.session.value.cfg.targets|
    ensures DialAfter(Bare(c), outcomes, now) == Bare(DialAfter(c, outcomes, now))
    decreases |c.session.value.cfg.targets| - c.session.value.ringIndex, 0
  {
    var s := c.session.value;
    NextUpBare(c);
    if s.ringIndex + 1 < |s.cfg.targets| {
      DialNextBare(NextUp(c), outcomes, now);
    } else if s.cfg.voicemailAllowed || (s.deferAnswer && !s.pstnAnswered) {
      ActiveBare(NextUp(c), now);
      FallbackBare(NextUp(c));
    } else {
      RouteBare(c, now);
    }
  }

  lemma AdvanceBare(c: Call, outcomes: seq<Option<CallId>>, now: nat)
    requires c.session.Some?
    ensures Advance(Bare(c), outcomes, now) == Bare(Advance(c, outcomes, now))
  {
    NextUpBare(c);
    if c.session.value.ringIndex + 1 < |c.session.value.cfg.targets| {
      DialNextBare(NextUp(c), outcomes, now);
    } else {
      RouteBare(NextUp(c), now);
    }
  }

  lemma LegEndedBare(c: Call, leg: CallId, now: nat)
    requires c.session.Some?
    ensures SimultaneousLegEnded(Bare(c), leg, now) == Bare(SimultaneousLegEnded(c, leg, now))
  {
    var marked := SetSlots(c, MarkLeg(Slots(c.session.value), leg, NoAnswer));
    SlotsBare(c, MarkLeg(Slots(c.session.value), leg, NoAnswer));
    RouteBare(marked, now);
    assert Bare(marked) == SetSlots(Bare(c), MarkLeg(Slots(Bare(c).session.value), leg, NoAnswer));
  }

  lemma DialEndedBare(c: Call, leg: CallId, answered: bool, outcomes: seq<Option<CallId>>, now: nat)
    ensures DialEnded(Bare(c), leg, answered, outcomes, now) == Bare(DialEnded(c, leg, answered, outcomes, now))
  {
    if c.session.Some? {
      ActiveBare(c, now);
      if c.session.value.cfg.simultaneous {
        LegEndedBare(c, leg, now);
      } else {
        AdvanceBare(c, outcomes, now);
      }
    }
  }

  lemma CleanupBare(c: Call)
    requires c.session.Some?
    ensures Cleanup(Bare(c)) == Bare(Cleanup(c)) && CancelAll(Bare(c)) == Bare(CancelAll(c))
  {
    assert ClaimedLegs(Bare(c).session.value) == ClaimedLegs(c.session.value);
  }

  lemma CallerHangupBare(c: Call, now: nat)
    ensures CallerHangup(Bare(c), now) == Bare(CallerHangup(c, now))
  {
    if c.session.Some? {
      CleanupBare(c);
      CleanupBare(CancelAll(c));
    }
  }

  lemma SlotsBare(c: Call, slots: seq<Slot>)
    requires c.session.Some?
    ensures SetSlots(Bare(c), slots) == Bare(SetSlots(c, slots))
  {
  }

  lemma LegHangupBare(c: Call, leg: CallId, outcomes: seq<Option<CallId>>, now: nat)
    ensures LegHangup(Bare(c), leg, outcomes, now) == Bare(LegHangup(c, leg, outcomes, now))
  {
    if c.session.Some? {
      SlotsBare(c, MarkLeg(Slots(c.session.value), leg, Cancelled));
      ActiveBare(c, now);
      if c.session.value.stage == Ringing && HoldsLeg(Slots(c.session.value), leg) {
        AdvanceBare(c, outcomes, now);
        LegEndedBare(c, leg, now);
      } else {
        CleanupBare(c);
      }
    }
  }

  lemma RegisterBare(c: Call, target: nat, result: Option<CallId>)
    ensures RegisterDial(Bare(c), target, result) == Bare(RegisterDial(c, target, result))
  {
    if c.session.Some? {
      var slots := Slots(c.session.value);
      assert Slots(Bare(c).session.value) == slots;
      match result
      case None => SlotsBare(c, MarkTarget(slots, target, Failed));
      case Some(leg) =>
        SlotsBare(c, UpsertLeg(slots, target, leg));
        SlotsBare(c, MarkTarget(slots, target, Cancelled));
        if AlreadyConnected(c) && IsConnectedLeg(c, leg) {
          ConnectedBare(c, target, leg);
        }
    }
  }

  lemma ConnectedBare(c: Call, target: nat, leg: CallId)
    requires c.session.Some? && AlreadyConnected(c) && IsConnectedLeg(c, leg)
    ensures RegisterDial(Bare(c), target, Some(leg)) == Bare(RegisterDial(c, target, Some(leg)))
  {
  }

  /** The call with its primary leg entered after all dials. */
  function Finished(c: Call): Call
    requires c.session.Some?
  {
    var s := c.session.value;
    var slots := Slots(s);
    With(c, s.(primaryLeg := if slots != [] && slots[0].leg.Some? then slots[0].leg else s.primaryLeg))
  }

  lemma FinishBare(c: Call, now: nat)
    ensures FinishDialling(Bare(c), now) == Bare(FinishDialling(c, now))
  {
    if c.session.Some? {
      FinishedBare(c);
      RouteBare(Finished(c), now);
    }
  }

  lemma FinishedBare(c: Call)
    requires c.session.Some?
    ensures Finished(Bare(c)) == Bare(Finished(c))
    ensures Slots(Bare(c).session.value) == Slots(c.session.value)
  {
  }

  lemma CallEventBare(c: Call, e: CallEvent)
    ensures ApplyCall(Bare(c), e) == Bare(ApplyCall(c, e))
  {
    match e
    case DialAnswer(leg, now, ok) => AnswerBare(c, leg, DialAnswered, now, ok);
    case DialEnd(leg, answered, outcomes, now) => DialEndedBare(c, leg, answered, outcomes, now);
    case DialResult(target, result) => RegisterBare(c, target, result);
    case DialsDone(now) => FinishBare(c, now);
    case _ =>
  }

  lemma PassOnBare(d: Desk, hook: Webhook, linked: bool, outcomes: seq<Option<CallId>>, now: nat, ok: bool)
    ensures PassOn(d.(call := Bare(d.call)), hook, linked, outcomes, now, ok)
            == d.(call := Bare(PassOn(d, hook, linked, outcomes, now, ok).call))
  {
    match hook.report
    case Initiated(_) =>
    case LegAnswered => AnswerBare(d.call, hook.leg, CallAnswered, now, ok);
    case LegBridged => AnswerBare(d.call, hook.leg, CallBridged, now, ok);
    case LegHungUp =>
      CallerHangupBare(d.call, now);
      LegHangupBare(d.call, hook.leg, outcomes, now);
  }

  // ---- erasing the transfers ----

  /** The event is the call's: no transfer takes it, and a request only drops a stale agent entry. */
  predicate CallsOwn(w: World, e: Event) {
    match e
    case Ask(sip, _) => !BridgedFor(w.desk, sip)
    case CommandAnswered(_, _) => false
    case Carrier(hook, _, _, _, _) => HandleTransfer(w.desk, hook).None?
    case Other(_) => true
  }

  function Erased(w: World, es: seq<Event>): seq<Event> {
    if es == [] then []
    else
      var front, last := es[..|es| - 1], es[|es| - 1];
      Erased(w, front) + if CallsOwn(Run(w, front), last) then [last] else []
  }

  predicate NoTransfers(w: World) {
    w.desk.transfers == [] && w.desk.current.None? && w.commands == {}
  }

  predicate NoneCompleted(w: World) {
    forall i :: 0 <= i < |w.desk.transfers| ==> w.desk.transfers[i].stage != Completed
  }

  /** The call's own events do the same to a desk that never made a transfer. */
  lemma OwnEventSame(u: World, v: World, e: Event)
    requires NoTransfers(u) && u.desk.inbound == v.desk.inbound && Bare(u.desk.call) == Bare(v.desk.call)
    requires CallsOwn(v, e)
    ensures NoTransfers(Apply(u, e)) && Apply(u, e).desk.inbound == u.desk.inbound
    ensures Bare(Apply(u, e).desk.call) == Bare(Apply(v, e).desk.call)
  {
    match e
    case Ask(sip, _) =>
    case Carrier(hook, linked, outcomes, now, ok) =>
      PassOnBare(u.desk, hook, linked, outcomes, now, ok);
      PassOnBare(v.desk, hook, linked, outcomes, now, ok);
      PassOnCall(u.desk.(call := Bare(u.desk.call)), v.desk.(call := Bare(v.desk.call)), hook, linked, outcomes, now, ok);
      PassOnKeeps(u.desk, hook, linked, outcomes, now, ok);
    case Other(e) =>
      CallEventBare(u.desk.call, e);
      CallEventBare(v.desk.call, e);
  }

  lemma PassOnCall(d: Desk, d': Desk, hook: Webhook, linked: bool, outcomes: seq<Option<CallId>>, now: nat, ok: bool)
    requires d.inbound == d'.inbound && d.call == d'.call
    ensures PassOn(d, hook, linked, outcomes, now, ok).call == PassOn(d', hook, linked, outcomes, now, ok).call
  {
  }

  lemma PassOnKeeps(d: Desk, hook: Webhook, linked: bool, outcomes: seq<Option<CallId>>, now: nat, ok: bool)
    ensures PassOn(d, hook, linked, outcomes, now, ok) == d.(call := PassOn(d, hook, linked, outcomes, now, ok).call)
  {
  }

  /** A transfer's events leave the call alone, marker aside, until one is completed. */
  lemma TransferEventSpares(v: World, e: Event, cfg: Config)
    requires DeskInv(v.desk, cfg) && NoneCompleted(v) && !CallsOwn(v, e)
    ensures Bare(Apply(v, e).desk.call) == Bare(v.desk.call) && Apply(v, e).desk.inbound == v.desk.inbound
  {
    match e
    case Carrier(hook, _, _, _, _) => HandleCases(v.desk, hook, cfg);
    case _ =>
  }

  lemma NoneCompletedBefore(v: World, e: Event, cfg: Config)
    requires DeskInv(v.desk, cfg) && NoneCompleted(Apply(v, e))
    ensures NoneCompleted(v)
  {
    forall i | 0 <= i < |v.desk.transfers| ensures v.desk.transfers[i].stage != Completed {
      StepRecord(v, e, i, cfg);
    }
  }

  /** A desk without transfers beside one with them, whose calls differ in the marker at most. */
  predicate Twins(u: World, v: World) {
    NoTransfers(u) && u.desk.inbound == v.desk.inbound && Bare(u.desk.call) == Bare(v.desk.call)
  }

  lemma TwinsStep(u: World, v: World, e: Event, cfg: Config)
    requires Twins(u, v) && DeskInv(v.desk, cfg) && NoneCompleted(v)
    ensures Twins(if CallsOwn(v, e) then Apply(u, e) else u, Apply(v, e))
  {
    if CallsOwn(v, e) {
      OwnEventSame(u, v, e);
      InboundStays(v, e);
    } else {
      TransferEventSpares(v, e, cfg);
    }
  }

  lemma InboundStays(v: World, e: Event)
    ensures Apply(v, e).desk.inbound == v.desk.inbound
  {
  }

  lemma ErasedNext(w: World, es: seq<Event>, e: Event)
    ensures Run(w, Erased(w, es + [e]))
            == if CallsOwn(Run(w, es), e) then Apply(Run(w, Erased(w, es)), e) else Run(w, Erased(w, es))
  {
    assert (es + [e])[..|es|] == es;
    var kept := Erased(w, es);
    assert (kept + [e])[..|kept|] == kept;
    assert kept + [] == kept;
  }

  /**
   Take out of a run everything its transfers took, and start it without any: as long as none was
   completed the call ends up the same, marker aside.
   */
  lemma {:induction false} TransfersErase(w: World, es: seq<Event>, cfg: Config)
    requires Opened(w, cfg) && NoneCompleted(Run(w, es))
    ensures Twins(Run(w, Erased(w, es)), Run(w, es))
  {
    if es != [] {
      var front, last := es[..|es| - 1], es[|es| - 1];
      assert es == front + [last];
      RunInv(w, front, cfg);
      NoneCompletedBefore(Run(w, front), last, cfg);
      TransfersErase(w, front, cfg);
      TwinsStep(Run(w, Erased(w, front)), Run(w, front), last, cfg);
      ErasedNext(w, front, last);
    }
  }

  /**
   After failed transfers only, an agent may ask for a transfer exactly when she might had there
   been none.
   */
  lemma FailuresLeaveNothing(w: World, es: seq<Event>, sip: Sip, cfg: Config)
    requires Opened(w, cfg)
    requires forall i :: 0 <= i < |Run(w, es).desk.transfers| ==> Run(w, es).desk.transfers[i].stage == TransferFailed
    ensures MayInitiate(Run(w, es).desk, sip) <==> MayInitiate(Run(w, Erased(w, es)).desk, sip)
    ensures Bare(Run(w, es).desk.call) == Bare(Run(w, Erased(w, es)).desk.call)
  {
    TransfersErase(w, es, cfg);
    SameBridged(Run(w, es).desk, Run(w, Erased(w, es)).desk, sip);
  }

  lemma SameBridged(d: Desk, d': Desk, sip: Sip)
    requires Bare(d.call) == Bare(d'.call)
    ensures BridgedFor(d, sip) <==> BridgedFor(d', sip)
  {
  }
}
