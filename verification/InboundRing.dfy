/**
 A simultaneous ring: what each slot's status says about its leg, that no leg is forgotten, what
 is left of the call after cleanup, and who is credited with it.
 */
module InboundRing {
  import opened Options
  import opened CallState
  import opened InboundRules
  import opened InboundRuns
  import opened InboundAgreement

  /** Slot `i` against the dial it was reserved for and what has been issued and reported. */
  predicate SlotOk(slot: Slot, i: nat, dial: DialPhase, c: Call, answered: set<CallId>, ended: set<CallId>) {
    && slot.target == i
    && match slot.leg
       case Some(leg) =>
         (&& dial == Registered(Some(leg)) && leg in c.index
          && slot.status != Failed
          && (slot.status == Answered ==> leg in answered)
          && (slot.status == NoAnswer ==> leg in ended)
          && (slot.status == Cancelled ==> Hangup(leg) in c.trace || leg in ended))
       case None =>
         match dial
         case Registered(Some(leg)) => slot.status == Cancelled && Hangup(leg) in c.trace
         case Registered(None) => slot.status == Failed
         case _ => slot.status == Pending
  }

  predicate SlotsOk(w: World)
    requires w.call.session.Some?
  {
    var slots := Slots(w.call.session.value);
    && |slots| == |w.dials|
    && forall i :: 0 <= i < |slots| ==> SlotOk(slots[i], i, w.dials[i], w.call, w.answered, w.ended)
  }

  /** Everything that names a leg of the call names a leg on its list. */
  predicate Listed(c: Call)
    requires c.session.Some?
  {
    var s := c.session.value;
    && (forall leg :: leg in c.index ==> HoldsLeg(Slots(s), leg))
    && (c.winner.Some? ==> HoldsLeg(Slots(s), c.winner.value))
    && (s.primaryLeg.Some? ==> HoldsLeg(Slots(s), s.primaryLeg.value))
    && (s.legs.None? ==> s.primaryLeg.None?)
  }

  /** With a winner, a slot that still rings has no leg yet. */
  predicate RaceSettled(c: Call)
    requires c.session.Some?
  {
    c.winner.Some? ==> NoneRinging(Slots(c.session.value))
  }

  predicate AgentsKnown(w: World) {
    if w.call.session.Some? then
      w.call.pending <= AgentSips(w.cfg) && w.call.active.Keys <= AgentSips(w.cfg)
    else
      && w.call.active == map[] && w.call.index == {}
      && forall sip :: sip in w.call.pending ==> exists i :: i in w.late && TargetSip(w.cfg, Some(i)) == Some(sip)
  }

  predicate DistinctLegs(dials: seq<DialPhase>) {
    forall i, j :: 0 <= i < j < |dials| && LegOf(dials[i]).Some? ==> LegOf(dials[i]) != LegOf(dials[j])
  }

  predicate RingInv(w: World) {
    && w.cfg.simultaneous && |w.dials| <= |w.cfg.targets|
    && Sound(w.call, w.cfg)
    && DistinctLegs(w.dials)
    && AgentsKnown(w)
    && (w.call.session.Some? ==> SlotsOk(w) && Listed(w.call) && RaceSettled(w.call))
  }

  // ---- rules that leave the slots alone ----

  /** Same legs list, claim and index; more may have been issued and reported. */
  lemma SameSlots(w: World, c: Call, answered: set<CallId>, ended: set<CallId>)
    requires RingInv(w) && w.call.session.Some? && c.session.Some?
    requires Slots(c.session.value) == Slots(w.call.session.value) && c.session.value.cfg == w.cfg
    requires c.session.value.legs == w.call.session.value.legs
    requires c.session.value.primaryLeg == w.call.session.value.primaryLeg || c.winner == c.session.value.primaryLeg
    requires c.winner == w.call.winner && c.index == w.call.index
    requires c.pending <= AgentSips(w.cfg) && c.active.Keys <= AgentSips(w.cfg)
    requires w.call.trace <= c.trace && w.answered <= answered && w.ended <= ended
    requires Sound(c, w.cfg)
    ensures RingInv(w.(call := c, answered := answered, ended := ended))
  {
    var w' := w.(call := c, answered := answered, ended := ended);
    var slots := Slots(c.session.value);
    forall i | 0 <= i < |slots| ensures SlotOk(slots[i], i, w'.dials[i], w'.call, w'.answered, w'.ended) {
      assert SlotOk(slots[i], i, w.dials[i], w.call, w.answered, w.ended);
    }
  }

  /** The same legs, claim and agents; only the stage, the parked leg and the trace may differ. */
  predicate SameLegs(c: Call, c': Call) {
    && c.session.Some? && c'.session.Some?
    && c'.session.value.cfg == c.session.value.cfg && c'.session.value.legs == c.session.value.legs
    && c'.session.value.primaryLeg == c.session.value.primaryLeg
    && Slots(c'.session.value) == Slots(c.session.value)
    && c'.winner == c.winner && c'.index == c.index && c'.pending == c.pending && c'.active == c.active
    && c.trace <= c'.trace
  }

  lemma EnsureFrame(c: Call, c': Call)
    requires c.session.Some? && c' == EnsureAnswered(c)
    ensures SameLegs(c, c')
  {
  }

  lemma FallbackFrame(c: Call, c1: Call)
    requires c.session.Some? && c1 == EnsureAnswered(c) && SameLegs(c, c1)
    ensures SameLegs(c, PlayFallback(c))
  {
  }

  lemma RouteFrame(c: Call, c': Call, now: nat)
    requires c.session.Some? && c' == Route(c, now)
    ensures SameLegs(c, c')
  {
    EnsureFrame(c, EnsureAnswered(c));
    FallbackFrame(c, EnsureAnswered(c));
  }

  lemma RouteRing(w: World, now: nat)
    requires RingInv(w) && w.call.session.Some?
    ensures RingInv(w.(call := Route(w.call, now)))
  {
    RouteSound(w.call, now, w.cfg);
    RoutedRing(w, Route(w.call, now), now);
  }

  lemma RoutedRing(w: World, c: Call, now: nat)
    requires RingInv(w) && w.call.session.Some? && c == Route(w.call, now) && Sound(c, w.cfg)
    ensures RingInv(w.(call := c))
  {
    RouteFrame(w.call, c, now);
    SameSlots(w, c, w.answered, w.ended);
  }

  // ---- rules that rewrite the slots ----

  /** New statuses for the same legs. */
  lemma NewStatuses(w: World, c: Call)
    requires RingInv(w) && w.call.session.Some? && c.session.Some?
    requires var slots, slots' := Slots(w.call.session.value), Slots(c.session.value);
             |slots'| == |slots| && forall i :: 0 <= i < |slots| ==>
               slots'[i].leg == slots[i].leg && SlotOk(slots'[i], i, w.dials[i], c, w.answered, w.ended)
    requires c.session.value.legs.Some?
    requires c.winner.Some? ==> HoldsLeg(Slots(w.call.session.value), c.winner.value)
    requires c.session.value.primaryLeg == w.call.session.value.primaryLeg || c.session.value.primaryLeg == c.winner
    requires c.index == w.call.index
    requires c.pending <= AgentSips(w.cfg) && c.active.Keys <= AgentSips(w.cfg)
    requires RaceSettled(c)
    requires Sound(c, w.cfg)
    ensures RingInv(w.(call := c))
  {
    var slots, slots' := Slots(w.call.session.value), Slots(c.session.value);
    forall leg: CallId | HoldsLeg(slots, leg) ensures HoldsLeg(slots', leg) {
      var i :| 0 <= i < |slots| && slots[i].leg == Some(leg);
      assert slots'[i].leg == Some(leg);
    }
  }

  lemma MarkRing(w: World, leg: CallId, status: Status)
    requires RingInv(w) && w.call.session.Some?
    requires status == Answered ==> leg in w.answered
    requires status == NoAnswer ==> leg in w.ended
    requires status == Cancelled ==> leg in w.ended || Hangup(leg) in w.call.trace
    requires status != Failed && status != Pending
    ensures RingInv(w.(call := SetSlots(w.call, MarkLeg(Slots(w.call.session.value), leg, status))))
  {
    var slots := Slots(w.call.session.value);
    SetSlotsSound(w.call, MarkLeg(slots, leg, status), w.cfg);
    forall i | 0 <= i < |slots| ensures SlotOk(slots[i], i, w.dials[i], w.call, w.answered, w.ended) {}
    NewStatuses(w, SetSlots(w.call, MarkLeg(slots, leg, status)));
  }

  lemma CancelExact(slots: seq<Slot>, keep: set<CallId>, i: nat)
    requires i < |slots| && Cancellable(slots[i], keep)
    ensures Hangup(slots[i].leg.value) in HangupsFor(slots, keep)
  {
    HangupsForExact(slots, keep, Hangup(slots[i].leg.value));
  }

  /** The slots after the cancelling loop, given that `keep` is settled already. */
  lemma CancelledSlotsOk(w: World, slots: seq<Slot>, keep: set<CallId>, c: Call)
    requires w.call.session.Some? && |slots| == |w.dials|
    requires forall i :: 0 <= i < |slots| ==> SlotOk(slots[i], i, w.dials[i], w.call, w.answered, w.ended)
    requires forall leg: CallId :: leg in keep ==> forall i :: 0 <= i < |slots| && slots[i].leg == Some(leg) ==> slots[i].status != Pending
    requires c.index == w.call.index && c.trace == w.call.trace + HangupsFor(slots, keep)
    ensures var slots' := CancelPending(slots, keep);
            && (forall i :: 0 <= i < |slots| ==> slots'[i].leg == slots[i].leg)
            && (forall i :: 0 <= i < |slots| ==> SlotOk(slots'[i], i, w.dials[i], c, w.answered, w.ended))
            && NoneRinging(slots')
  {
    forall i | 0 <= i < |slots|
      ensures SlotOk(CancelPending(slots, keep)[i], i, w.dials[i], c, w.answered, w.ended)
    {
      if Cancellable(slots[i], keep) {
        CancelExact(slots, keep, i);
      }
    }
  }

  lemma MarkedSlotsOk(w: World, leg: CallId)
    requires RingInv(w) && w.call.session.Some? && leg in w.answered
    ensures var slots := Slots(w.call.session.value);
            var marked := MarkLeg(slots, leg, Answered);
            forall i :: 0 <= i < |slots| ==>
              marked[i].leg == slots[i].leg && SlotOk(marked[i], i, w.dials[i], w.call, w.answered, w.ended)
  {
    var slots := Slots(w.call.session.value);
    forall i | 0 <= i < |slots| ensures SlotOk(slots[i], i, w.dials[i], w.call, w.answered, w.ended) {}
  }

  /** The claim's own bookkeeping, and the slots it leaves to the cancelling loop. */
  lemma ClaimFrame(c: Call, leg: CallId, cfg: Config)
    requires Sound(c, cfg) && c.session.Some? && c.winner.None?
    requires c.session.value.legs.Some? && c.active.Keys <= AgentSips(cfg)
    ensures var c1 := MarkBridged(c.(winner := Some(leg)), leg);
            && Slots(c1.session.value) == Slots(c.session.value)
            && Keep(c1.session.value, leg) == {leg}
            && c1.session.value.primaryLeg == Some(leg) && c1.session.value.cfg == cfg
            && c1.active.Keys <= AgentSips(cfg)
            && c1.index == c.index && c1.pending == c.pending && c1.trace == c.trace
  {
    AgentSipIsTargets(MarkBridged(c.(winner := Some(leg)), leg).session.value, leg);
  }

  lemma SettleFrame(c: Call, leg: CallId)
    requires c.session.Some? && Keep(c.session.value, leg) == {leg}
    ensures var c1, marked := SettleRace(c, leg), MarkLeg(Slots(c.session.value), leg, Answered);
            && c1.session.Some? && c1.session.value.legs == Some(CancelPending(marked, {leg}))
            && c1.trace == c.trace + HangupsFor(marked, {leg})
            && c1.session.value.primaryLeg == c.session.value.primaryLeg
            && c1.active == c.active && c1.index == c.index && c1.pending == c.pending && c1.winner == c.winner
  {
    assert Keep(c.session.value, leg) == {leg};
  }

  lemma RaceWonRing(w: World, leg: CallId)
    requires RingInv(w) && w.call.session.Some? && w.call.winner.None?
    requires leg in w.answered && HoldsLeg(Slots(w.call.session.value), leg)
    ensures var c2 := SettleRace(MarkBridged(w.call.(winner := Some(leg)), leg), leg);
            RingInv(w.(call := c2)) && c2.session.Some? && c2.winner == Some(leg)
  {
    var c1 := MarkBridged(w.call.(winner := Some(leg)), leg);
    ClaimFrame(w.call, leg, w.cfg);
    BridgedSound(w.call, leg, w.cfg);
    SettleSound(c1, leg, w.cfg);
    RaceSettledRing(w, leg, c1, SettleRace(c1, leg));
  }

  lemma RaceSettledRing(w: World, leg: CallId, c1: Call, c2: Call)
    requires RingInv(w) && w.call.session.Some? && leg in w.answered && HoldsLeg(Slots(w.call.session.value), leg)
    requires c1.session.Some? && Slots(c1.session.value) == Slots(w.call.session.value)
    requires Keep(c1.session.value, leg) == {leg} && c1.session.value.primaryLeg == Some(leg) && c1.winner == Some(leg)
    requires c1.active.Keys <= AgentSips(w.cfg) && c1.pending == w.call.pending
    requires c1.index == w.call.index && c1.trace == w.call.trace
    requires c2 == SettleRace(c1, leg) && Sound(c2, w.cfg)
    ensures RingInv(w.(call := c2))
  {
    SettleFrame(c1, leg);
    MarkedSlotsOk(w, leg);
    CancelledSlotsOk(w, MarkLeg(Slots(w.call.session.value), leg, Answered), {leg}, c2);
    NewStatuses(w, c2);
  }

  /** The four actions of the winning branch. */
  lemma WinInParts(c: Call, leg: CallId, c2: Call, c3: Call)
    requires c.session.Some? && c.session.value.cfg.simultaneous
    requires c2 == SettleRace(MarkBridged(c.(winner := Some(leg)), leg), leg) && c3 == ApplyEffects(c2, leg)
    ensures c3.session.Some? && Win(c, leg) == Credited(c3)
  {
  }

  function Credited(c: Call): Call
    requires c.session.Some?
  {
    if c.session.value.cfg.ringGroup then Issue(c, [GroupAnswered(CreditedMember(c.session.value))]) else c
  }

  lemma CreditRing(w: World)
    requires RingInv(w) && w.call.session.Some? && Sound(Credited(w.call), w.cfg)
    ensures RingInv(w.(call := Credited(w.call)))
  {
    SameSlots(w, Credited(w.call), w.answered, w.ended);
  }

  lemma WinRing(w: World, leg: CallId)
    requires RingInv(w) && w.call.session.Some? && w.call.winner.None?
    requires leg in w.answered && Heard(w.call.session.value, leg)
    ensures RingInv(w.(call := Win(w.call, leg)))
  {
    RaceWonRing(w, leg);
    WinSound(w.call, leg, w.cfg);
    var c2 := SettleRace(MarkBridged(w.call.(winner := Some(leg)), leg), leg);
    WinTail(w, leg, w.(call := c2));
  }

  lemma WinTail(w: World, leg: CallId, w2: World)
    requires w.call.session.Some? && w.call.session.value.cfg.simultaneous
    requires w2 == w.(call := SettleRace(MarkBridged(w.call.(winner := Some(leg)), leg), leg))
    requires RingInv(w2) && w2.call.winner == Some(leg) && Sound(Win(w.call, leg), w.cfg)
    ensures RingInv(w.(call := Win(w.call, leg)))
  {
    var c3 := ApplyEffects(w2.call, leg);
    ApplyEffectsRing(w2, leg);
    WinInParts(w.call, leg, w2.call, c3);
    CreditRing(w2.(call := c3));
  }

  lemma ApplyEffectsRing(w: World, leg: CallId)
    requires RingInv(w) && w.call.session.Some? && w.call.winner == Some(leg)
    ensures RingInv(w.(call := ApplyEffects(w.call, leg)))
  {
    ApplyEffectsSound(w.call, leg, w.cfg);
    SameSlots(w, ApplyEffects(w.call, leg), w.answered, w.ended);
  }

  lemma RebridgeRing(w: World)
    requires RingInv(w) && w.call.session.Some? && w.call.winner.Some?
    ensures RingInv(w.(call := RebridgeIfNeeded(w.call, w.call.winner.value)))
  {
    var leg := w.call.winner.value;
    BridgedSound(w.call, leg, w.cfg);
    var c := RebridgeIfNeeded(w.call, leg);
    AgentSipIsTargets(w.call.session.value.(stage := Bridged, activeBridge := true, connectedAt := true,
      winnerLeg := Some(leg), connectedLeg := Some(leg), primaryLeg := Some(leg)), leg);
    SameSlots(w, c, w.answered, w.ended);
  }

  lemma ClaimRing(w: World, leg: CallId, kind: AnswerKind)
    requires RingInv(w) && w.call.session.Some?
    requires leg in w.answered && Heard(w.call.session.value, leg)
    ensures RingInv(w.(call := Claim(w.call, leg, kind)))
  {
    match w.call.winner
    case None => WinRing(w, leg);
    case Some(winner) =>
      if winner == leg || kind == CallBridged {
        RebridgeRing(w);
        if winner == leg {
          ApplyEffectsRing(w.(call := RebridgeIfNeeded(w.call, winner)), winner);
        }
      } else {
        LoserRing(w, leg);
      }
  }

  lemma LoserRing(w: World, leg: CallId)
    requires RingInv(w) && w.call.session.Some?
    ensures var lost := SetSlots(w.call, MarkLeg(Slots(w.call.session.value), leg, Cancelled));
            RingInv(w.(call := Issue(lost, [Hangup(leg)])))
  {
    var c1 := Issue(w.call, [Hangup(leg)]);
    IssueQuiet(w.call, [Hangup(leg)], w.cfg);
    SameSlots(w, c1, w.answered, w.ended);
    MarkRing(w.(call := c1), leg, Cancelled);
  }

  lemma NoteAnswerRing(w: World, leg: CallId, ok: bool)
    requires RingInv(w) && w.call.session.Some? && leg in w.answered
    requires w.call.session.value.stage in {Connecting, Bridged}
    ensures RingInv(w.(call := NoteAnswer(w.call, leg, ok)))
  {
    MarkRing(w, leg, Answered);
    var w1 := w.(call := SetSlots(w.call, MarkLeg(Slots(w.call.session.value), leg, Answered)));
    NoteAnswerSound(w.call, leg, ok, w.cfg);
    SameSlots(w1, NoteAnswer(w.call, leg, ok), w.answered, w.ended);
  }

  lemma HeardRing(w: World, leg: CallId, kind: AnswerKind, ok: bool)
    requires RingInv(w) && leg in w.answered && w.call.session.Some? && Heard(w.call.session.value, leg)
    requires w.call.session.value.stage in {Connecting, Bridged}
    ensures Confirms(kind) ==> RingInv(w.(call := Claim(w.call, leg, kind)))
    ensures !Confirms(kind) ==> RingInv(w.(call := NoteAnswer(w.call, leg, ok)))
  {
    if Confirms(kind) {
      ClaimRing(w, leg, kind);
    } else {
      NoteAnswerRing(w, leg, ok);
    }
  }

  lemma ConnectRing(w: World, now: nat)
    requires RingInv(w) && w.call.session.Some?
    ensures RingInv(w.(call := MarkConnecting(w.call, now)))
    ensures MarkConnecting(w.call, now).session.value.stage in {Connecting, Bridged}
  {
    SameSlots(w, MarkConnecting(w.call, now), w.answered, w.ended);
  }

  lemma AnswerRing(w: World, leg: CallId, kind: AnswerKind, now: nat, ok: bool)
    requires RingInv(w) && leg in w.answered
    ensures RingInv(w.(call := AnswerEvent(w.call, leg, kind, now, ok)))
  {
    if w.call.session.Some? {
      var c1 := MarkConnecting(w.call, now);
      var w1 := w.(call := c1);
      ConnectRing(w, now);
      if AlreadyBridgedTo(c1.session.value, leg) {
        ApplyEffectsRing(w1, leg);
      } else if Heard(c1.session.value, leg) {
        HeardRing(w1, leg, kind, ok);
      }
      AnswerCases(w.call, leg, kind, now, ok);
    }
  }

  lemma EndOutcomes(c: Call, leg: CallId, now: nat, marked: Call)
    requires c.session.Some? && marked == SetSlots(c, MarkLeg(Slots(c.session.value), leg, NoAnswer))
    ensures SimultaneousLegEnded(c, leg, now) in {c, marked, Route(marked, now)}
  {
  }

  lemma EndRing(w: World, leg: CallId, now: nat)
    requires RingInv(w) && w.call.session.Some? && leg in w.ended
    ensures RingInv(w.(call := SimultaneousLegEnded(w.call, leg, now)))
  {
    MarkRing(w, leg, NoAnswer);
    var marked := SetSlots(w.call, MarkLeg(Slots(w.call.session.value), leg, NoAnswer));
    RouteRing(w.(call := marked), now);
    EndOutcomes(w.call, leg, now, marked);
  }

  lemma CleanupRing(w: World)
    requires RingInv(w) && w.call.session.Some?
    ensures RingInv(w.(call := Cleanup(w.call)))
    ensures var c := Cleanup(w.call); c.pending == {} && c.active == map[] && c.index == {} && c.effects == {} && c.winner.None?
  {
    CleanupSound(w.call, w.cfg);
    var s := w.call.session.value;
    forall leg: CallId | leg in w.call.index ensures leg in ClaimedLegs(s) {
      var i :| 0 <= i < |Slots(s)| && Slots(s)[i].leg == Some(leg);
      assert s.legs.Some?;
    }
  }

  // ---- dials ----

  lemma SlotIsTargets(w: World, i: nat)
    requires RingInv(w) && w.call.session.Some? && i < |w.dials|
    ensures FindTarget(Slots(w.call.session.value), i) == Some(i)
  {
    var slots := Slots(w.call.session.value);
    assert SlotOk(slots[i], i, w.dials[i], w.call, w.answered, w.ended);
    forall j | 0 <= j < i ensures slots[j].target == j {
      assert SlotOk(slots[j], j, w.dials[j], w.call, w.answered, w.ended);
    }
  }

  /** One dial moves on, and its slot with it. */
  lemma OneSlot(w: World, i: nat, dial: DialPhase, slot: Slot, c: Call)
    requires RingInv(w) && w.call.session.Some? && i < |w.dials| && w.dials[i].Returned?
    requires c.session == Some(w.call.session.value.(legs := Some(Slots(w.call.session.value)[i := slot])))
    requires dial == Registered(w.dials[i].result)
    requires slot.leg == None || (slot.leg == w.dials[i].result && c.index == w.call.index + {slot.leg.value})
    requires slot.leg == None ==> c.index == w.call.index
    requires c.winner == w.call.winner && c.effects == w.call.effects && c.pending == w.call.pending && c.active == w.call.active
    requires w.call.trace <= c.trace && Sound(c, w.cfg)
    requires SlotOk(slot, i, dial, c, w.answered, w.ended)
    requires c.winner.Some? ==> slot.leg.None?
    ensures RingInv(w.(dials := w.dials[i := dial], call := c))
  {
    var w' := w.(dials := w.dials[i := dial], call := c);
    var slots, slots' := Slots(w.call.session.value), Slots(c.session.value);
    assert SlotOk(slots[i], i, w.dials[i], w.call, w.answered, w.ended);
    forall j | 0 <= j < |slots'| ensures SlotOk(slots'[j], j, w'.dials[j], c, w.answered, w.ended) {
      assert SlotOk(slots[j], j, w.dials[j], w.call, w.answered, w.ended);
    }
    forall leg: CallId | HoldsLeg(slots, leg) ensures HoldsLeg(slots', leg) {
      var j :| 0 <= j < |slots| && slots[j].leg == Some(leg);
      assert slots'[j].leg == Some(leg);
    }
    assert slots'[i] == slot;
    forall leg | leg in c.index ensures HoldsLeg(slots', leg) {
      assert leg in w.call.index || slot.leg == Some(leg);
    }
  }

  lemma RegisterRing(w: World, i: nat)
    requires RingInv(w) && i < |w.dials| && w.dials[i].Returned?
    ensures var result := w.dials[i].result;
            RingInv(w.(dials := w.dials[i := Registered(result)], call := RegisterDial(w.call, i, result)))
  {
    var result := w.dials[i].result;
    var dial := Registered(result);
    if w.call.session.Some? {
      var slots := Slots(w.call.session.value);
      var c := RegisterDial(w.call, i, result);
      RegisterSound(w.call, i, result, w.cfg);
      SlotIsTargets(w, i);
      assert SlotOk(slots[i], i, w.dials[i], w.call, w.answered, w.ended);
      if result.None? {
        OneSlot(w, i, dial, slots[i].(status := Failed), c);
      } else if !AlreadyConnected(w.call) {
        OneSlot(w, i, dial, Slot(result, i, Pending), c);
      } else {
        UnregisteredNotConnected(w, i);
        OneSlot(w, i, dial, slots[i].(status := Cancelled), c);
      }
    }
  }

  /** A leg that was not registered yet cannot be the connected one. */
  lemma UnregisteredNotConnected(w: World, i: nat)
    requires RingInv(w) && w.call.session.Some? && i < |w.dials| && w.dials[i].Returned? && w.dials[i].result.Some?
    ensures !IsConnectedLeg(w.call, w.dials[i].result.value)
  {
    var slots := Slots(w.call.session.value);
    forall j | 0 <= j < |slots| ensures slots[j].leg != w.dials[i].result {
      assert SlotOk(slots[j], j, w.dials[j], w.call, w.answered, w.ended);
      assert j < i ==> LegOf(w.dials[j]).Some? ==> LegOf(w.dials[j]) != LegOf(w.dials[i]);
      assert i < j ==> LegOf(w.dials[i]) != LegOf(w.dials[j]);
    }
  }

  /**
   A dial that comes back while the call lasts fills its target's slot: failed without a leg; ringing
   and indexed while nobody has won; and cancelled and hung up afterwards.
   */
  lemma RegisterExactly(w: World, i: nat)
    requires RingInv(w) && w.call.session.Some? && i < |w.dials| && w.dials[i].Returned?
    ensures var slots, result, won := Slots(w.call.session.value), w.dials[i].result, w.call.winner.Some?;
            var call := Apply(w, DialRegistered(i)).call;
            && call.session.Some? && i < |slots|
            && call.session.value.legs
               == Some(slots[i := if result.None? then slots[i].(status := Failed)
                                  else if won then slots[i].(status := Cancelled) else Slot(result, i, Pending)])
            && call.index == w.call.index + (if result.Some? && !won then {result.value} else {})
            && call.trace == w.call.trace + (if result.Some? && won then [Hangup(result.value)] else [])
            && call.winner == w.call.winner && call.session.value.stage == w.call.session.value.stage
  {
    SlotIsTargets(w, i);
    assert w.call.index + {} == w.call.index && w.call.trace + [] == w.call.trace;
    if w.dials[i].result.Some? {
      UnregisteredNotConnected(w, i);
    }
  }

  lemma DialStepRing(w: World, i: nat, dial: DialPhase)
    requires RingInv(w) && i < |w.dials| && !w.dials[i].Registered? && !dial.Registered?
    requires DistinctLegs(w.dials[i := dial])
    ensures RingInv(w.(dials := w.dials[i := dial]))
  {
    if w.call.session.Some? {
      var slots := Slots(w.call.session.value);
      forall j | 0 <= j < |slots| ensures SlotOk(slots[j], j, w.dials[i := dial][j], w.call, w.answered, w.ended) {
        assert SlotOk(slots[j], j, w.dials[j], w.call, w.answered, w.ended);
      }
    }
  }

  lemma ReturnRing(w: World, i: nat)
    requires RingInv(w) && Enabled(w, DialReturned(i))
    ensures RingInv(Apply(w, DialReturned(i)))
  {
    var w1 := w.(dials := w.dials[i := Returned(LegOf(w.dials[i]))]);
    DialStepRing(w, i, Returned(LegOf(w.dials[i])));
    if w.dials[i].Created? {
      var sip := TargetSip(w.cfg, Some(i));
      var c := DialAccepted(w.call, sip);
      assert Sound(c, w.cfg);
      if w.call.session.Some? {
        SameSlots(w1, c, w.answered, w.ended);
      }
    }
  }

  /** The dialling function ends by noting the first leg, and with the fallback at most. */
  lemma FinishCases(c: Call, now: nat) returns (c1: Call)
    requires c.session.Some?
    ensures var s, slots := c.session.value, Slots(c.session.value);
            && c1 == With(c, s.(primaryLeg := if slots != [] && slots[0].leg.Some? then slots[0].leg else s.primaryLeg))
            && (FinishDialling(c, now) == c1 || FinishDialling(c, now) == Route(c1, now))
  {
    var s, slots := c.session.value, Slots(c.session.value);
    c1 := With(c, s.(primaryLeg := if slots != [] && slots[0].leg.Some? then slots[0].leg else s.primaryLeg));
  }

  lemma FinishRing(w: World, now: nat)
    requires RingInv(w)
    ensures RingInv(w.(call := FinishDialling(w.call, now)))
  {
    if w.call.session.Some? {
      var c1 := FinishCases(w.call, now);
      AlikeSound(w.call, c1, w.cfg);
      FirstLegRing(w, c1);
      RouteRing(w.(call := c1), now);
    }
  }

  lemma FirstLegRing(w: World, c: Call)
    requires RingInv(w) && w.call.session.Some? && Sound(c, w.cfg)
    requires var s, slots := w.call.session.value, Slots(w.call.session.value);
             c == With(w.call, s.(primaryLeg := if slots != [] && slots[0].leg.Some? then slots[0].leg else s.primaryLeg))
    ensures RingInv(w.(call := c))
  {
    var s := w.call.session.value;
    assert s.legs.None? ==> Slots(s) == [];
    PrimaryRing(w, c);
  }

  lemma PrimaryRing(w: World, c: Call)
    requires RingInv(w) && w.call.session.Some? && Sound(c, w.cfg)
    requires c.session.Some? && c == With(w.call, w.call.session.value.(primaryLeg := c.session.value.primaryLeg))
    requires c.session.value.primaryLeg == w.call.session.value.primaryLeg
             || (c.session.value.legs.Some? && c.session.value.primaryLeg.Some?
                 && HoldsLeg(Slots(w.call.session.value), c.session.value.primaryLeg.value))
    ensures RingInv(w.(call := c))
  {
    var slots := Slots(w.call.session.value);
    assert Slots(c.session.value) == slots;
    forall i | 0 <= i < |slots| ensures SlotOk(slots[i], i, w.dials[i], c, w.answered, w.ended) {
      assert SlotOk(slots[i], i, w.dials[i], w.call, w.answered, w.ended);
    }
  }

  lemma CallerHangupRing(w: World, now: nat)
    requires RingInv(w)
    ensures RingInv(w.(call := CallerHangup(w.call, now)))
  {
    if w.call.session.Some? {
      CleanupRing(w);
      var slots := Slots(w.call.session.value);
      CallerHangupSound(w.call, now, w.cfg);
      HangupsAreQuiet(slots, {});
      SetSlotsSound(w.call, CancelPending(slots, {}), w.cfg);
      IssueQuiet(SetSlots(w.call, CancelPending(slots, {})), HangupsFor(slots, {}), w.cfg);
      CancelledSlotsOk(w, slots, {}, CancelAll(w.call));
      NewStatuses(w, CancelAll(w.call));
      CleanupRing(w.(call := CancelAll(w.call)));
    }
  }

  /** What a leg's end can come to in a simultaneous ring. */
  lemma EndCases(c: Call, leg: CallId, answered: bool, outcomes: seq<Option<CallId>>, now: nat)
    requires c.session.Some? && c.session.value.cfg.simultaneous
    ensures DialEnded(c, leg, answered, outcomes, now) in {c, SimultaneousLegEnded(c, leg, now)}
    ensures LegHangup(c, leg, outcomes, now)
            in {c, SetSlots(c, MarkLeg(Slots(c.session.value), leg, Cancelled)), SimultaneousLegEnded(c, leg, now), Cleanup(c)}
  {
  }

  lemma HangupRing(w: World, leg: CallId, outcomes: seq<Option<CallId>>, now: nat)
    requires RingInv(w) && leg in w.ended
    ensures RingInv(w.(call := LegHangup(w.call, leg, outcomes, now)))
  {
    if w.call.session.Some? {
      EndCases(w.call, leg, false, outcomes, now);
      EndRing(w, leg, now);
      MarkRing(w, leg, Cancelled);
      CleanupRing(w);
    }
  }

  lemma DialEndRing(w: World, leg: CallId, answered: bool, outcomes: seq<Option<CallId>>, now: nat)
    requires RingInv(w) && leg in w.ended
    ensures RingInv(w.(call := DialEnded(w.call, leg, answered, outcomes, now)))
  {
    if w.call.session.Some? {
      EndCases(w.call, leg, answered, outcomes, now);
      EndRing(w, leg, now);
    }
  }

  lemma Reported(w: World, answered: set<CallId>, ended: set<CallId>)
    requires RingInv(w) && w.answered <= answered && w.ended <= ended
    ensures RingInv(w.(answered := answered, ended := ended))
  {
    if w.call.session.Some? {
      SameSlots(w, w.call, answered, ended);
    }
  }

  lemma TouchRing(w: World, c: Call, stage: Stage, since: Option<nat>, cmds: seq<Command>)
    requires RingInv(w) && w.call.session.Some?
    requires c == Issue(With(w.call, w.call.session.value.(stage := stage, connectingSince := since)), cmds)
    requires Sound(c, w.cfg)
    ensures RingInv(w.(call := c))
  {
    SameSlots(w, c, w.answered, w.ended);
  }

  lemma TapRing(w: World, sip: Sip, now: nat)
    requires RingInv(w) && w.call.session.Some? && Sound(AgentAccepted(w.call, sip, now), w.cfg)
    ensures RingInv(w.(call := AgentAccepted(w.call, sip, now)))
  {
    if sip in w.call.pending {
      var since := OrElse(w.call.session.value.connectingSince, Some(now));
      TouchRing(w, AgentAccepted(w.call, sip, now), Connecting, since, []);
    }
  }

  lemma PromptRing(w: World, prompt: Prompt)
    requires RingInv(w) && w.call.session.Some? && Sound(SpeakEnded(w.call, prompt), w.cfg)
    ensures RingInv(w.(call := SpeakEnded(w.call, prompt)))
  {
    var s := w.call.session.value;
    if prompt == Goodbye {
      assert w.call.session == Some(s.(stage := s.stage, connectingSince := s.connectingSince));
      TouchRing(w, SpeakEnded(w.call, prompt), s.stage, s.connectingSince, [HangupCaller]);
    } else {
      TouchRing(w, SpeakEnded(w.call, prompt), VoicemailRecord, s.connectingSince, [RecordVoicemail]);
    }
  }

  lemma LostRing(w: World, rung: set<Sip>, talking: set<Sip>)
    requires RingInv(w) && w.call.session.Some? && Sound(LoseAgents(w.call, rung, talking), w.cfg)
    ensures RingInv(w.(call := LoseAgents(w.call, rung, talking)))
  {
    SameSlots(w, LoseAgents(w.call, rung, talking), w.answered, w.ended);
  }

  lemma DialStep(w: World, e: Event)
    requires RingInv(w) && Enabled(w, e)
    requires e.LegCreated? || e.DialReturned? || e.DialRegistered? || e.DialsFinished?
    ensures RingInv(Apply(w, e))
  {
    match e
    case LegCreated(i, leg) => DialStepRing(w, i, Created(leg));
    case DialReturned(i) => ReturnRing(w, i);
    case DialRegistered(i) => RegisterRing(w, i);
    case DialsFinished(now) =>
      FinishRing(w, now);
      assert Apply(w, e) == w.(call := FinishDialling(w.call, now), finished := true);
  }

  lemma LegStep(w: World, e: Event)
    requires RingInv(w) && Enabled(w, e)
    requires e.AnswerReported? || e.DialEndReported? || e.HangupReported?
    ensures RingInv(Apply(w, e))
  {
    match e
    case AnswerReported(leg, kind, _, now, ok) =>
      Reported(w, w.answered + {leg}, w.ended);
      AnswerRing(w.(answered := w.answered + {leg}), leg, kind, now, ok);
    case DialEndReported(leg, answered, _, outcomes, now) =>
      Reported(w, w.answered, w.ended + {leg});
      DialEndRing(w.(ended := w.ended + {leg}), leg, answered, outcomes, now);
    case HangupReported(leg, _, outcomes, now) =>
      Reported(w, w.answered, w.ended + {leg});
      HangupRing(w.(ended := w.ended + {leg}), leg, outcomes, now);
  }

  lemma AsideStep(w: World, e: Event)
    requires RingInv(w) && Enabled(w, e) && w.call.session.Some?
    requires e.AgentTapped? || e.PromptEnded? || e.AgentEntriesLost?
    ensures RingInv(Apply(w, e))
  {
    StepSound(w, e);
    match e
    case AgentTapped(sip, now) => TapRing(w, sip, now);
    case PromptEnded(prompt) => PromptRing(w, prompt);
    case AgentEntriesLost(rung, talking) => LostRing(w, rung, talking);
  }

  lemma GoneStep(w: World, e: Event)
    requires RingInv(w) && w.call.session.None?
    requires e.AgentTapped? || e.PromptEnded? || e.AgentEntriesLost?
    ensures RingInv(Apply(w, e))
  {
    StepSound(w, e);
  }

  lemma StepRing(w: World, e: Event)
    requires RingInv(w)
    ensures RingInv(Apply(w, e))
  {
    if Enabled(w, e) {
      if e.LegCreated? || e.DialReturned? || e.DialRegistered? || e.DialsFinished? {
        DialStep(w, e);
      } else if e.AnswerReported? || e.DialEndReported? || e.HangupReported? {
        LegStep(w, e);
      } else if e.CallerHungUp? {
        CallerHangupRing(w, e.now);
      } else if w.call.session.Some? {
        AsideStep(w, e);
      } else {
        GoneStep(w, e);
      }
    }
  }

  lemma StartRing(c: Call, outcomes: seq<Option<CallId>>, now: nat)
    requires Fresh(c) && c.session.value.cfg.simultaneous
    ensures RingInv(Start(c, outcomes, now))
  {
    StartSound(c, outcomes, now);
    var w := Start(c, outcomes, now);
    assert w.dials == [] ==> Slots(w.call.session.value) == [];
  }

  lemma {:induction false} RunRing(w: World, es: seq<Event>)
    requires RingInv(w)
    ensures RingInv(Run(w, es))
  {
    if es != [] {
      RunRing(w, es[..|es| - 1]);
      StepRing(Run(w, es[..|es| - 1]), es[|es| - 1]);
    }
  }

  // ---- main results: no leg is forgotten ----

  /** What became of a leg the carrier created. */
  predicate AccountedFor(w: World, leg: CallId) {
    w.call.winner == Some(leg) || Hangup(leg) in w.call.trace || leg in w.ended || leg in w.answered
  }

  /**
   Once a winner holds the claim, a slot still ringing belongs to a dial in flight. When all dials
   have been registered none rings, and every leg they created is the winner, was hung up by us,
   or was reported ended or answered.
   */
  lemma NoLegForgotten(c: Call, outcomes: seq<Option<CallId>>, now: nat, es: seq<Event>)
    requires Fresh(c) && c.session.value.cfg.simultaneous
    ensures var w := Run(Start(c, outcomes, now), es);
            w.call.session.Some? && w.call.winner.Some? ==>
              var slots := Slots(w.call.session.value);
              && |slots| == |w.dials|
              && (forall i :: 0 <= i < |slots| && slots[i].status == Pending ==> !w.dials[i].Registered?)
              && (AllRegistered(w) ==>
                   forall i :: 0 <= i < |w.dials| ==>
                     slots[i].status != Pending
                     && (LegOf(w.dials[i]).Some? ==> AccountedFor(w, LegOf(w.dials[i]).value)))
  {
    var w := Run(Start(c, outcomes, now), es);
    StartRing(c, outcomes, now);
    RunRing(Start(c, outcomes, now), es);
    if w.call.session.Some? && w.call.winner.Some? {
      var slots := Slots(w.call.session.value);
      forall i | 0 <= i < |slots|
        ensures slots[i].status == Pending ==> !w.dials[i].Registered?
        ensures w.dials[i].Registered? && LegOf(w.dials[i]).Some? ==> AccountedFor(w, LegOf(w.dials[i]).value)
      {
        assert SlotOk(slots[i], i, w.dials[i], w.call, w.answered, w.ended);
      }
    }
  }

  /** While the call lasts, the leg index names exactly the legs the scan over sessions finds. */
  lemma IndexIsScan(c: Call, outcomes: seq<Option<CallId>>, now: nat, es: seq<Event>, leg: CallId)
    requires Fresh(c) && c.session.value.cfg.simultaneous
    ensures var call := Run(Start(c, outcomes, now), es).call;
            leg in call.index <==> Scanned(call, leg)
  {
    var w := Run(Start(c, outcomes, now), es);
    StartRing(c, outcomes, now);
    RunRing(Start(c, outcomes, now), es);
    if w.call.session.Some? {
      var slots := Slots(w.call.session.value);
      if HoldsLeg(slots, leg) {
        var i :| 0 <= i < |slots| && slots[i].leg == Some(leg);
        assert SlotOk(slots[i], i, w.dials[i], w.call, w.answered, w.ended);
      }
    }
  }

  lemma {:induction false} LateOnlyAfterwards(w: World, es: seq<Event>)
    requires w.late == {}
    ensures Run(w, es).call.session.Some? ==> Run(w, es).late == {}
  {
    if es != [] {
      LateOnlyAfterwards(w, es[..|es| - 1]);
      StepKeepsWinner(Run(w, es[..|es| - 1]), es[|es| - 1]);
    }
  }

  lemma {:induction false} QuietDialsStayQuiet(w: World, es: seq<Event>, j: nat)
    requires j <= |es| && NoDialInFlight(Run(w, es[..j]))
    ensures NoDialInFlight(Run(w, es)) && Run(w, es).late == Run(w, es[..j]).late
  {
    if j == |es| {
      assert es[..j] == es;
    } else {
      var front := es[..|es| - 1];
      assert front[..j] == es[..j];
      QuietDialsStayQuiet(w, front, j);
    }
  }

  predicate NothingLeft(c: Call) {
    c.session.None? && c.winner.None? && c.effects == {} && c.index == {} && c.pending == {} && c.active == map[]
  }

  /**
   If at some moment of the call no dial was in flight, then after its cleanup no store holds
   anything of it, for good. In any case, an agent entry that is left comes from a dial that
   returned after the cleanup.
   */
  lemma CleanupLeavesNothing(c: Call, outcomes: seq<Option<CallId>>, now: nat, es: seq<Event>, j: nat)
    requires Fresh(c) && c.session.value.cfg.simultaneous && j <= |es|
    requires Run(Start(c, outcomes, now), es).call.session.None?
    ensures var w0 := Start(c, outcomes, now);
            var w := Run(w0, es);
            && (Run(w0, es[..j]).call.session.Some? && NoDialInFlight(Run(w0, es[..j])) ==> NothingLeft(w.call))
            && (forall sip :: sip in w.call.pending ==> exists i :: i in w.late && TargetSip(w.cfg, Some(i)) == Some(sip))
            && NothingLeft(w.call.(pending := {}))
  {
    var w0 := Start(c, outcomes, now);
    StartRing(c, outcomes, now);
    RunRing(w0, es);
    if Run(w0, es[..j]).call.session.Some? && NoDialInFlight(Run(w0, es[..j])) {
      LateOnlyAfterwards(w0, es[..j]);
      QuietDialsStayQuiet(w0, es, j);
    }
  }

  // ---- who is credited ----

  lemma WinnersSlot(w: World, i: nat, leg: CallId)
    requires RingInv(w) && w.call.session.Some? && i < |Slots(w.call.session.value)|
    requires Slots(w.call.session.value)[i].leg == Some(leg)
    ensures FindLeg(Slots(w.call.session.value), leg) == Some(i) && Slots(w.call.session.value)[i].target == i
    ensures i < |w.call.session.value.cfg.targets|
  {
    var slots := Slots(w.call.session.value);
    var k := FindLeg(slots, leg).value;
    assert SlotOk(slots[i], i, w.dials[i], w.call, w.answered, w.ended);
    assert SlotOk(slots[k], k, w.dials[k], w.call, w.answered, w.ended);
  }

  /**
   The ring group credits the member of the winning leg's target; a target without a member of
   its own passes the credit to the member of the target at `ringIndex`, if that one has any.
   */
  lemma WinnerIsCredited(c: Call, outcomes: seq<Option<CallId>>, now: nat, es: seq<Event>, i: nat, leg: CallId)
    requires Fresh(c) && c.session.value.cfg.simultaneous && c.session.value.cfg.ringGroup
    requires var call := Run(Start(c, outcomes, now), es).call;
             && call.session.Some? && call.winner.None?
             && i < |Slots(call.session.value)| && Slots(call.session.value)[i].leg == Some(leg)
    ensures var call := Run(Start(c, outcomes, now), es).call;
            var own, first := MemberOf(c.session.value.cfg, Some(i)), MemberOf(c.session.value.cfg, Some(call.session.value.ringIndex));
            var trace := Win(call, leg).trace;
            && trace != [] && trace[|trace| - 1] == GroupAnswered(if own.Some? then own else first)
            && (trace[|trace| - 1] == GroupAnswered(own) <==> own.Some? || first.None?)
  {
    var w := Run(Start(c, outcomes, now), es);
    StartRing(c, outcomes, now);
    RunRing(Start(c, outcomes, now), es);
    StartSound(c, outcomes, now);
    RunSound(Start(c, outcomes, now), es);
    WinnersSlot(w, i, leg);
    CreditOf(w.call, i, leg);
  }

  lemma CreditOf(c: Call, i: nat, leg: CallId)
    requires c.session.Some? && c.session.value.cfg.simultaneous && c.session.value.cfg.ringGroup
    requires FindLeg(Slots(c.session.value), leg) == Some(i) && Slots(c.session.value)[i].target == i
    requires i < |c.session.value.cfg.targets|
    ensures var s, trace := c.session.value, Win(c, leg).trace;
            trace != [] && trace[|trace| - 1] == GroupAnswered(OrElse(MemberOf(s.cfg, Some(i)), MemberOf(s.cfg, Some(s.ringIndex))))
  {
    var c1 := MarkBridged(c.(winner := Some(leg)), leg);
    var c2 := SettleRace(c1, leg);
    assert c2.session.value.activeTarget == Some(i) && c2.session.value.ringIndex == c.session.value.ringIndex;
    assert ApplyEffects(c2, leg).session == c2.session;
  }
}
