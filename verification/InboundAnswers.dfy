/**
 What an answer or a bridge of a leg does to its call, in the fields of the record: it wins the call,
 comes after the win, is only noted, or does not count.
 */
module InboundAnswers {
  import opened Options
  import opened CallState
  import opened InboundRules
  import opened InboundRuns
  import opened InboundAgreement
  import opened InboundExclusion
  import opened InboundCommands

  /** The race is settled: the leg's slot has answered, and no other leg rings. */
  predicate SettledBy(slot: Slot, slot': Slot, leg: CallId) {
    && slot'.leg == slot.leg && slot'.target == slot.target
    && slot'.status == if slot.leg == Some(leg) then Answered
                       else if slot.leg.Some? && slot.status == Pending then Cancelled else slot.status
  }

  /** The leg holds the call: the bridge is up, and every field says that it is this leg's. */
  predicate Holds(s: Session, leg: CallId) {
    && s.stage == Bridged && s.activeBridge && s.connectedAt
    && s.winnerLeg == Some(leg) && s.connectedLeg == Some(leg) && s.primaryLeg == Some(leg)
  }

  lemma BridgedFields(c: Call, leg: CallId)
    requires c.session.Some?
    ensures var s, c' := c.session.value, MarkBridged(c, leg);
            && c'.session.Some? && Holds(c'.session.value, leg) && c'.trace == c.trace && c'.winner == c.winner
            && c'.session.value.cfg == s.cfg && c'.session.value.legs == s.legs && c'.effects == c.effects
            && c'.session.value.ringIndex == s.ringIndex && c'.session.value.activeTarget == s.activeTarget
  {
  }

  lemma SettleSlot(slots: seq<Slot>, leg: CallId, keep: set<CallId>, i: nat)
    requires i < |slots| && leg in keep && keep <= {leg}
    ensures SettledBy(slots[i], CancelPending(MarkLeg(slots, leg, Answered), keep)[i], leg)
  {
    assert IsMarked(slots[i], MarkLeg(slots, leg, Answered)[i], leg, Answered);
  }

  lemma KeepsItself(s: Session, leg: CallId)
    requires Holds(s, leg)
    ensures Keep(s, leg) == {leg}
  {
  }

  /** Settling the race of a call that this leg holds. */
  lemma SettleFields(c: Call, leg: CallId, i: nat)
    requires c.session.Some? && c.session.value.legs.Some? && Holds(c.session.value, leg)
    ensures var s, c', legs := c.session.value, SettleRace(c, leg), c.session.value.legs.value;
            && c'.session.Some? && Holds(c'.session.value, leg) && c'.session.value.cfg == s.cfg
            && c'.session.value.legs.Some? && |c'.session.value.legs.value| == |legs|
            && (i < |legs| ==> SettledBy(legs[i], c'.session.value.legs.value[i], leg))
            && (i < |legs| && legs[i].leg.Some? && legs[i].leg != Some(leg) && legs[i].status == Pending ==>
                  Hangup(legs[i].leg.value) in c'.trace)
  {
    var s, legs := c.session.value, c.session.value.legs.value;
    var marked := MarkLeg(legs, leg, Answered);
    KeepsItself(s, leg);
    if i < |legs| {
      SettleSlot(legs, leg, {leg}, i);
      if legs[i].leg.Some? {
        assert IsMarked(legs[i], marked[i], leg, Answered);
        HangupsForExact(marked, {leg}, Hangup(legs[i].leg.value));
      }
    }
  }

  lemma EffectsFields(c: Call, leg: CallId)
    requires c.session.Some?
    ensures ApplyEffects(c, leg).session == c.session && c.trace <= ApplyEffects(c, leg).trace
    ensures ApplyEffects(c, leg).winner == c.winner
  {
  }

  /** In a simultaneous ring. */
  lemma WinFields(c: Call, leg: CallId, i: nat)
    requires c.session.Some? && c.session.value.legs.Some? && c.session.value.cfg.simultaneous
    ensures var c', legs := Win(c, leg), c.session.value.legs.value;
            && c'.winner == Some(leg) && c'.session.Some? && Holds(c'.session.value, leg)
            && c'.session.value.legs.Some? && |c'.session.value.legs.value| == |legs|
            && (i < |legs| ==> SettledBy(legs[i], c'.session.value.legs.value[i], leg))
            && (i < |legs| && legs[i].leg.Some? && legs[i].leg != Some(leg) && legs[i].status == Pending ==>
                  Hangup(legs[i].leg.value) in c'.trace)
  {
    var c1 := MarkBridged(c.(winner := Some(leg)), leg);
    BridgedFields(c.(winner := Some(leg)), leg);
    SettleFields(c1, leg, i);
    EffectsFields(SettleRace(c1, leg), leg);
  }

  /** In a hunt the record's list stays as it is. */
  lemma HuntWinFields(c: Call, leg: CallId)
    requires c.session.Some? && !c.session.value.cfg.simultaneous
    ensures var c' := Win(c, leg);
            c'.winner == Some(leg) && c'.session.Some? && Holds(c'.session.value, leg)
            && c'.session.value.legs == c.session.value.legs
  {
    var c1 := MarkBridged(c.(winner := Some(leg)), leg);
    BridgedFields(c.(winner := Some(leg)), leg);
    EffectsFields(c1, leg);
  }

  /** A confirming answer of a leg that counts, after `markSessionConnecting`. */
  lemma ConfirmingAnswer(c: Call, leg: CallId, kind: AnswerKind, now: nat, ok: bool, c1: Call)
    requires c.session.Some? && c1 == MarkConnecting(c, now) && kind in {CallBridged, Untyped}
    requires Counts(c.session.value, leg) && !(c.session.value.stage == Bridged && c.winner == Some(leg))
    requires Agrees(c)
    ensures AnswerEvent(c, leg, kind, now, ok) == Claim(c1, leg, kind)
  {
    CountsIsHeard(c.session.value, leg);
    assert Slots(c1.session.value) == Slots(c.session.value);
    assert Heard(c1.session.value, leg) && !AlreadyBridgedTo(c1.session.value, leg);
  }

  /** Such an answer is a claim of the call as `markSessionConnecting` left it. */
  lemma ConfirmedCall(w: World, leg: CallId, kind: AnswerKind, linked: bool, now: nat, ok: bool) returns (c1: Call)
    requires Sound(w.call, w.cfg) && w.call.session.Some? && Finds(w.call, leg, linked)
    requires kind in {CallBridged, Untyped} && Counts(w.call.session.value, leg)
    requires !(w.call.session.value.stage == Bridged && w.call.winner == Some(leg))
    ensures c1.session.Some? && c1.session.value.cfg == w.cfg && c1.session.value.legs == w.call.session.value.legs
    ensures c1.winner == w.call.winner && c1.trace == w.call.trace && c1.effects == w.call.effects && Agrees(c1)
    ensures Apply(w, AnswerReported(leg, kind, linked, now, ok)).call == Claim(c1, leg, kind)
  {
    c1 := MarkConnecting(w.call, now);
    ConfirmingAnswer(w.call, leg, kind, now, ok, c1);
  }

  /**
   The first confirmed bridge wins the call: the record names that leg in every field; in a
   simultaneous ring its slot has answered, and every other leg that rang is hung up and cancelled.
   */
  lemma AnswerWins(w: World, leg: CallId, kind: AnswerKind, linked: bool, now: nat, ok: bool, i: nat)
    requires Sound(w.call, w.cfg) && w.call.session.Some? && w.call.winner.None? && Finds(w.call, leg, linked)
    requires kind in {CallBridged, Untyped} && Counts(w.call.session.value, leg) && w.call.session.value.legs.Some?
    ensures var call, legs := Apply(w, AnswerReported(leg, kind, linked, now, ok)).call, w.call.session.value.legs.value;
            && call.winner == Some(leg) && call.session.Some?
            && var s := call.session.value;
               && s.stage == Bridged && s.activeBridge && s.connectedAt
               && s.winnerLeg == Some(leg) && s.connectedLeg == Some(leg) && s.primaryLeg == Some(leg)
               && s.legs.Some? && |s.legs.value| == |legs|
               && (w.cfg.simultaneous && i < |legs| ==>
                     && s.legs.value[i] == legs[i].(status :=
                          if legs[i].leg == Some(leg) then Answered
                          else if legs[i].leg.Some? && legs[i].status == Pending then Cancelled else legs[i].status)
                     && (legs[i].leg.Some? && legs[i].leg != Some(leg) && legs[i].status == Pending ==>
                           Hangup(legs[i].leg.value) in call.trace))
               && (!w.cfg.simultaneous ==> s.legs.value == legs)
  {
    var c1 := ConfirmedCall(w, leg, kind, linked, now, ok);
    assert Claim(c1, leg, kind) == Win(c1, leg);
    if w.cfg.simultaneous {
      WinFields(c1, leg, i);
    } else {
      HuntWinFields(c1, leg);
    }
  }

  lemma RebridgeFields(c: Call, winner: CallId)
    requires c.session.Some? && Agrees(c) && c.winner == Some(winner)
    ensures var c' := RebridgeIfNeeded(c, winner);
            && c'.session.Some? && c'.session.value.stage == Bridged && c'.session.value.legs == c.session.value.legs
            && c'.trace == c.trace && c'.winner == c.winner && c'.effects == c.effects
  {
  }

  lemma ClaimedAgain(c: Call, leg: CallId, kind: AnswerKind)
    requires c.session.Some? && Agrees(c) && Claimed(c) && c.winner.Some? && (c.winner == Some(leg) || kind == CallBridged)
    ensures var c' := Claim(c, leg, kind);
            && c'.session.Some? && c'.session.value.stage == Bridged && c'.session.value.legs == c.session.value.legs
            && c'.trace == c.trace && c'.winner == c.winner
  {
    RebridgeFields(c, c.winner.value);
  }

  /** A further report of the leg that holds a bridged call changes nothing, and issues nothing. */
  lemma AnswerOfHolder(w: World, leg: CallId, kind: AnswerKind, linked: bool, now: nat, ok: bool)
    requires Sound(w.call, w.cfg) && Claimed(w.call) && w.call.session.Some?
    requires w.call.session.value.stage == Bridged && w.call.winner == Some(leg)
    ensures Apply(w, AnswerReported(leg, kind, linked, now, ok)).call == w.call
  {
    assert MarkConnecting(w.call, now) == w.call;
    assert Agrees(w.call);
  }

  /**
   A further bridge of the winner, or the bridge of the call's other leg that goes with it, issues
   nothing and leaves the claim and the list alone; the call is bridged afterwards.
   */
  lemma AnswerAfterWin(w: World, leg: CallId, kind: AnswerKind, linked: bool, now: nat, ok: bool)
    requires Sound(w.call, w.cfg) && Claimed(w.call) && w.call.session.Some? && Finds(w.call, leg, linked)
    requires kind in {CallBridged, Untyped} && Counts(w.call.session.value, leg)
    requires w.call.winner.Some? && (w.call.winner == Some(leg) || kind == CallBridged)
    ensures var call := Apply(w, AnswerReported(leg, kind, linked, now, ok)).call;
            && call.session.Some? && call.session.value.stage == Bridged && call.session.value.legs == w.call.session.value.legs
            && call.trace == w.call.trace && call.winner == w.call.winner
  {
    if w.call.session.value.stage == Bridged && w.call.winner == Some(leg) {
      AnswerOfHolder(w, leg, kind, linked, now, ok);
    } else {
      var c1 := ConfirmedCall(w, leg, kind, linked, now, ok);
      ClaimedAgain(c1, leg, kind);
    }
  }

  lemma NotHeard(c: Call, leg: CallId, kind: AnswerKind, now: nat, ok: bool, c1: Call)
    requires c.session.Some? && c1 == MarkConnecting(c, now)
    requires !Heard(c1.session.value, leg) && !AlreadyBridgedTo(c1.session.value, leg)
    ensures AnswerEvent(c, leg, kind, now, ok) in {c, c1}
  {
  }

  lemma ConnectingFields(c: Call, now: nat)
    requires c.session.Some?
    ensures var s, c1 := c.session.value, MarkConnecting(c, now);
            && c1.session.Some? && Slots(c1.session.value) == Slots(s)
            && c1 == With(c, s.(stage := c1.session.value.stage, connectingSince := c1.session.value.connectingSince))
            && (c1.session.value.stage == Bridged ==> s.stage == Bridged)
  {
  }

  /** An answer of a leg that does not count, and does not hold the call, changes the stage at most. */
  lemma AnswerUncounted(w: World, leg: CallId, kind: AnswerKind, linked: bool, now: nat, ok: bool)
    requires Sound(w.call, w.cfg) && w.call.session.Some? && !Counts(w.call.session.value, leg)
    requires !(w.call.session.value.stage == Bridged && w.call.winner == Some(leg))
    ensures var call := Apply(w, AnswerReported(leg, kind, linked, now, ok)).call;
            && call.session.Some?
            && call == With(w.call, w.call.session.value.(stage := call.session.value.stage,
                                                          connectingSince := call.session.value.connectingSince))
  {
    var c := w.call;
    var c1 := MarkConnecting(c, now);
    CountsIsHeard(c.session.value, leg);
    ConnectingFields(c, now);
    assert Agrees(c);
    assert !Heard(c1.session.value, leg) && !AlreadyBridgedTo(c1.session.value, leg);
    NotHeard(c, leg, kind, now, ok, c1);
    assert Apply(w, AnswerReported(leg, kind, linked, now, ok)).call in {c, c1};
    assert c == With(c, c.session.value.(stage := c.session.value.stage, connectingSince := c.session.value.connectingSince));
  }

  /** The webhook `call.answered` of a leg that is not on the list is dropped. */
  lemma AnswerOffList(w: World, leg: CallId, linked: bool, now: nat, ok: bool)
    requires w.call.session.Some?
    requires forall i :: 0 <= i < |Slots(w.call.session.value)| ==> Slots(w.call.session.value)[i].leg != Some(leg)
    ensures Apply(w, AnswerReported(leg, CallAnswered, linked, now, ok)).call == w.call
  {
  }

  /** An agent's accept counts exactly while her phone rings for the call; it then is connecting, whatever it was. */
  lemma TapExactly(w: World, sip: Sip, now: nat)
    ensures var call := Apply(w, AgentTapped(sip, now)).call;
            if w.call.session.Some? && sip in w.call.pending
            then
              var since := w.call.session.value.connectingSince;
              call == w.call.(session := Some(w.call.session.value.(
                        stage := Connecting, connectingSince := if since.Some? then since else Some(now))))
            else call == w.call
  {
  }
}
