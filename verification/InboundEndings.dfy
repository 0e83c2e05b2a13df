/**
 How a call goes on and ends: when the fallback of a simultaneous ring has been played, what keeps
 it away, which reports end the call, what becomes of the leg that loses, and that a sequential hunt
 goes on.
 */
module InboundEndings {
  import opened Options
  import opened CallState
  import opened InboundRules
  import opened InboundRuns
  import opened InboundAgreement
  import opened InboundRing
  import opened InboundExclusion
  import opened InboundHunt

  // ---- a ring that nobody answers ----

  predicate Silent(e: Event) {
    !e.AnswerReported? && !e.AgentTapped?
  }

  predicate SilentRun(es: seq<Event>) {
    forall k :: 0 <= k < |es| ==> Silent(es[k])
  }

  predicate SomeRings(slots: seq<Slot>) {
    exists i :: 0 <= i < |slots| && slots[i].status == Pending
  }

  /** No bridge is up or under way, and no leg has answered. */
  predicate Unbridged(c: Call) {
    c.session.Some? ==>
      var s := c.session.value;
      && !BridgedState(s) && s.stage != Connecting && s.connectingSince.None? && c.winner.None?
      && (Prompts(c) == 0 ==> s.stage == Ringing)
      && forall i :: 0 <= i < |Slots(s)| ==> Slots(s)[i].status != Answered
  }

  /** Once the dialling is over, a leg rings or the fallback has been played. */
  predicate Waits(w: World) {
    && Unbridged(w.call)
    && (w.finished ==> AllRegistered(w))
    && (w.finished && w.call.session.Some? && Prompts(w.call) == 0 ==> SomeRings(Slots(w.call.session.value)))
  }

  lemma FallbackPrompts(c: Call)
    requires c.session.Some?
    ensures Prompts(PlayFallback(c)) > 0
  {
    var c1 := EnsureAnswered(c);
    var c2 := if c1.session.value.cfg.ringGroup then Issue(c1, [GroupMissed]) else c1;
    var c3 := if c2.session.value.cfg.voicemailAllowed then With(c2, c2.session.value.(stage := VoicemailPrompt)) else c2;
    PromptsPush(c3, if c2.session.value.cfg.voicemailAllowed then Speak(VoicemailGreeting) else Speak(Goodbye));
  }

  lemma RouteWaits(c: Call, now: nat)
    requires c.session.Some? && Unbridged(c)
    ensures Unbridged(Route(c, now)) && Prompts(Route(c, now)) > 0
  {
    FallbackPrompts(c);
    RouteFrame(c, Route(c, now), now);
    FallbackState(c);
  }

  lemma FallbackState(c: Call)
    requires c.session.Some?
    ensures var s, s' := c.session.value, PlayFallback(c).session.value;
            && s'.stage in {s.stage, VoicemailPrompt} && s'.connectingSince == s.connectingSince
            && (BridgedState(s') ==> BridgedState(s))
  {
  }

  /** The end of a leg, where none has answered: the fallback, or some slot still rings. */
  lemma LegEndedRings(c: Call, leg: CallId, now: nat, slots: seq<Slot>)
    requires c.session.Some? && slots == MarkLeg(Slots(c.session.value), leg, NoAnswer)
    requires forall i :: 0 <= i < |slots| ==> slots[i].status != Answered
    ensures var c' := SimultaneousLegEnded(c, leg, now);
            c' == c || c' == Route(SetSlots(c, slots), now) || (c' == SetSlots(c, slots) && SomeRings(slots))
  {
    if slots != [] && !SomeRings(slots) {
      assert Settled(slots);
    }
  }

  lemma EndWaits(w: World, leg: CallId, now: nat)
    requires RingInv(w) && Waits(w) && w.call.session.Some?
    ensures Waits(w.(call := SimultaneousLegEnded(w.call, leg, now)))
  {
    var slots := MarkLeg(Slots(w.call.session.value), leg, NoAnswer);
    var marked := SetSlots(w.call, slots);
    assert Unbridged(marked);
    RouteWaits(marked, now);
    LegEndedRings(w.call, leg, now, slots);
  }

  lemma FinishWaits(w: World, now: nat)
    requires RingInv(w) && Waits(w) && AllRegistered(w)
    ensures Waits(w.(call := FinishDialling(w.call, now), finished := true))
  {
    if w.call.session.Some? {
      var c1 := FinishCases(w.call, now);
      var slots := Slots(w.call.session.value);
      assert w.call.session.value.legs.None? ==> slots == [];
      assert Slots(c1.session.value) == slots && Unbridged(c1);
      RouteWaits(c1, now);
      if !NoneRinging(slots) {
        var i :| 0 <= i < |slots| && !(slots[i].status != Pending || slots[i].leg.None?);
        assert slots[i].status == Pending;
      }
    }
  }

  lemma RegisterWaits(w: World, i: nat)
    requires RingInv(w) && Waits(w) && i < |w.dials| && w.dials[i].Returned?
    ensures Unbridged(RegisterDial(w.call, i, w.dials[i].result))
    ensures !w.finished
  {
    assert !w.dials[i].Registered?;
    RegisterQuiet(w.call, i, w.dials[i].result);
    if w.call.session.Some? {
      SlotIsTargets(w, i);
    }
  }

  lemma QuietWaits(w: World, c: Call)
    requires Waits(w) && c.session.Some? && w.call.session.Some? && Prompts(c) >= Prompts(w.call)
    requires c.winner == w.call.winner
    requires var s, s' := w.call.session.value, c.session.value;
             && Slots(s') == Slots(s) && BridgedState(s') == BridgedState(s) && s'.connectingSince == s.connectingSince
             && s'.stage in {s.stage, VoicemailRecord} && (s'.stage != s.stage ==> Prompts(c) > 0)
    ensures Waits(w.(call := c))
  {
  }

  lemma PromptWaits(w: World, prompt: Prompt)
    requires Waits(w) && w.call.session.Some? && Speak(prompt) in w.call.trace
    ensures Waits(w.(call := SpeakEnded(w.call, prompt)))
  {
    SomePrompt(w.call.trace);
    SpeakEndedPrompts(w.call, prompt);
    QuietWaits(w, SpeakEnded(w.call, prompt));
  }

  lemma EndStepWaits(w: World, e: Event)
    requires RingInv(w) && Waits(w) && w.call.session.Some? && Enabled(w, e)
    requires e.DialEndReported? || e.HangupReported? || e.CallerHungUp?
    ensures Waits(Apply(w, e))
  {
    match e
    case DialEndReported(leg, answered, _, outcomes, now) =>
      EndCases(w.call, leg, answered, outcomes, now);
      EndWaits(w, leg, now);
    case HangupReported(leg, _, outcomes, now) =>
      HangupCases(w.call, leg, outcomes, now);
      EndWaits(w, leg, now);
    case CallerHungUp(now) =>
  }

  /** With no bridge about, a leg's hangup only ends the leg or the call. */
  lemma HangupCases(c: Call, leg: CallId, outcomes: seq<Option<CallId>>, now: nat)
    requires c.session.Some? && c.session.value.cfg.simultaneous && Unbridged(c)
    ensures var c' := LegHangup(c, leg, outcomes, now);
            c' == c || c' == SimultaneousLegEnded(c, leg, now) || c'.session.None?
  {
  }

  lemma StepWaits(w: World, e: Event)
    requires RingInv(w) && Waits(w) && Silent(e)
    ensures Waits(Apply(w, e))
  {
    if w.call.session.None? {
      StepKeepsWinner(w, e);
      StepRegistered(w, e);
    } else if Enabled(w, e) {
      if e.DialEndReported? || e.HangupReported? || e.CallerHungUp? {
        EndStepWaits(w, e);
      } else if e.DialsFinished? {
        FinishWaits(w, e.now);
      } else if e.PromptEnded? {
        PromptWaits(w, e.prompt);
      } else if e.DialRegistered? {
        RegisterWaits(w, e.target);
      } else {
        DialWaits(w, e);
      }
    }
  }

  lemma StepRegistered(w: World, e: Event)
    requires w.finished ==> AllRegistered(w)
    ensures Apply(w, e).finished ==> AllRegistered(Apply(w, e))
  {
  }

  lemma DialWaits(w: World, e: Event)
    requires RingInv(w) && Waits(w) && w.call.session.Some? && Enabled(w, e)
    requires e.LegCreated? || e.DialReturned? || e.AgentEntriesLost?
    ensures Waits(Apply(w, e))
  {
    StepRegistered(w, e);
    var c := Apply(w, e).call;
    assert c.session == w.call.session && c.trace == w.call.trace && c.winner == w.call.winner;
  }

  lemma {:induction false} RunWaits(w: World, es: seq<Event>)
    requires RingInv(w) && Waits(w) && Apart(w.call) && SilentRun(es)
    ensures RingInv(Run(w, es)) && Waits(Run(w, es)) && Apart(Run(w, es).call)
  {
    if es != [] {
      var front, e := es[..|es| - 1], es[|es| - 1];
      RunWaits(w, front);
      StepRing(Run(w, front), e);
      StepWaits(Run(w, front), e);
      StepApart(Run(w, front), e);
    }
  }

  lemma StartWaits(c: Call, outcomes: seq<Option<CallId>>, now: nat)
    requires Fresh(c) && c.session.value.cfg.simultaneous
    requires c.session.value.cfg.targets != [] && c.session.value.cfg.appConfigured
    ensures Waits(Start(c, outcomes, now))
  {
  }

  /**
   A simultaneous ring that nobody answers: when its dialling is over, the fallback has been played
   exactly if no leg rings any more.
   */
  lemma FallbackExactly(c: Call, outcomes: seq<Option<CallId>>, now: nat, es: seq<Event>)
    requires Fresh(c) && c.session.value.cfg.simultaneous && SilentRun(es)
    requires c.session.value.cfg.targets != [] && c.session.value.cfg.appConfigured
    requires var w := Run(Start(c, outcomes, now), es); w.finished && w.call.session.Some?
    ensures var call := Run(Start(c, outcomes, now), es).call;
            (exists i :: 0 <= i < |call.trace| && call.trace[i].Speak?)
            <==> forall i :: 0 <= i < |Slots(call.session.value)| ==> Slots(call.session.value)[i].status != Pending
  {
    StartRing(c, outcomes, now);
    StartApart(c, outcomes, now);
    StartWaits(c, outcomes, now);
    RunWaits(Start(c, outcomes, now), es);
    SomePrompt(Run(Start(c, outcomes, now), es).call.trace);
  }

  // ---- what keeps the fallback away ----

  /** A bridge is up, or was reported less than the grace period ago. */
  predicate BridgeAbout(c: Call, now: nat) {
    && c.session.Some?
    && var s := c.session.value;
       || c.winner.Some? || s.connectedLeg.Some? || s.stage in {Connecting, Bridged}
       || (s.connectingSince.Some? && now < s.connectingSince.value + s.cfg.grace)
  }

  /** The moment of the events that can play a prompt. */
  function Moment(e: Event): Option<nat> {
    match e
    case DialsFinished(now) => Some(now)
    case DialEndReported(_, _, _, _, now) => Some(now)
    case HangupReported(_, _, _, now) => Some(now)
    case _ => None
  }

  lemma RouteHeld(c: Call, now: nat)
    requires c.session.Some? && BridgeAbout(c, now)
    ensures Route(c, now) == c
  {
  }

  lemma FinishHeld(c: Call, now: nat)
    requires BridgeAbout(c, now)
    ensures FinishDialling(c, now).trace == c.trace
  {
    var c1 := FinishCases(c, now);
    RouteHeld(c1, now);
  }

  lemma EndHeld(c: Call, leg: CallId, answered: bool, outcomes: seq<Option<CallId>>, now: nat)
    requires BridgeAbout(c, now)
    ensures DialEnded(c, leg, answered, outcomes, now) == c
    ensures LegHangup(c, leg, outcomes, now).trace == c.trace
  {
  }

  /** Only the end of a leg or of the dialling plays a prompt, and only with no bridge about. */
  lemma PromptsOnlyAtEnds(w: World, e: Event)
    requires Prompts(Apply(w, e).call) != Prompts(w.call)
    ensures Moment(e).Some? && w.call.session.Some? && !BridgeAbout(w.call, Moment(e).value)
  {
    var c := w.call;
    if Enabled(w, e) && c.session.Some? {
      match e
      case DialRegistered(i) => RegisterQuiet(c, i, w.dials[i].result);
      case AnswerReported(leg, kind, _, now, ok) => AnswerPrompts(c, leg, kind, now, ok);
      case CallerHungUp(now) => CallerHangupPrompts(c, now);
      case PromptEnded(prompt) => SpeakEndedPrompts(c, prompt);
      case DialsFinished(now) => HeldAtFinish(c, now);
      case DialEndReported(leg, answered, _, outcomes, now) => HeldAtEnd(c, leg, answered, outcomes, now);
      case HangupReported(leg, _, outcomes, now) => HeldAtEnd(c, leg, false, outcomes, now);
      case _ =>
    }
  }

  lemma HeldAtFinish(c: Call, now: nat)
    ensures BridgeAbout(c, now) ==> Prompts(FinishDialling(c, now)) == Prompts(c)
  {
    if BridgeAbout(c, now) {
      FinishHeld(c, now);
    }
  }

  lemma HeldAtEnd(c: Call, leg: CallId, answered: bool, outcomes: seq<Option<CallId>>, now: nat)
    ensures BridgeAbout(c, now) ==> Prompts(DialEnded(c, leg, answered, outcomes, now)) == Prompts(c)
    ensures BridgeAbout(c, now) ==> Prompts(LegHangup(c, leg, outcomes, now)) == Prompts(c)
  {
    if BridgeAbout(c, now) {
      EndHeld(c, leg, answered, outcomes, now);
    }
  }

  // ---- what ends a call ----

  predicate OnList(c: Call, leg: CallId)
    requires c.session.Some?
  {
    exists i :: 0 <= i < |Slots(c.session.value)| && Slots(c.session.value)[i].leg == Some(leg)
  }

  /** The reports that end a call: of its caller, or of a leg that is not merely one of its list. */
  predicate EndsCall(w: World, e: Event)
    requires w.call.session.Some?
  {
    var s := w.call.session.value;
    && s.stage != Connecting
    && match e
       case CallerHungUp(_) => true
       case HangupReported(leg, linked, _, _) =>
         Finds(w.call, leg, linked)
         && (OnList(w.call, leg) ==> s.stage != Ringing && (s.connectedLeg.None? || s.connectedLeg == Some(leg)))
       case _ => false
  }

  lemma LegHangupEnds(c: Call, leg: CallId, outcomes: seq<Option<CallId>>, now: nat)
    requires c.session.Some?
    ensures var s := c.session.value;
            LegHangup(c, leg, outcomes, now).session.None? <==>
              && s.stage != Connecting
              && (OnList(c, leg) ==> s.stage != Ringing && (s.connectedLeg.None? || s.connectedLeg == Some(leg)))
  {
    AdvanceKeepsWinner(c, outcomes, now);
  }

  lemma DialEndedGoesOn(c: Call, leg: CallId, answered: bool, outcomes: seq<Option<CallId>>, now: nat)
    requires c.session.Some?
    ensures DialEnded(c, leg, answered, outcomes, now).session.Some?
  {
    AdvanceKeepsWinner(c, outcomes, now);
  }

  lemma CallEndsExactly(w: World, e: Event)
    requires w.call.session.Some?
    ensures Apply(w, e).call.session.None? <==> EndsCall(w, e)
  {
    match e
    case AnswerReported(leg, kind, _, now, ok) => AnswerKeepsWinner(w.call, leg, kind, now, ok);
    case DialEndReported(leg, answered, _, outcomes, now) => DialEndedGoesOn(w.call, leg, answered, outcomes, now);
    case HangupReported(leg, _, outcomes, now) => LegHangupEnds(w.call, leg, outcomes, now);
    case _ =>
  }

  /** When the caller of a simultaneous ring gives up, every leg that rings is hung up. */
  lemma CallerGivesUp(w: World, now: nat, i: nat)
    requires w.call.session.Some? && w.call.session.value.cfg.simultaneous && w.call.session.value.stage == Ringing
    requires !BridgeAbout(w.call, now) && !BridgedState(w.call.session.value)
    requires var slots := Slots(w.call.session.value);
             i < |slots| && slots[i].status == Pending && slots[i].leg.Some?
    ensures var call := Apply(w, CallerHungUp(now)).call;
            call.session.None? && Hangup(Slots(w.call.session.value)[i].leg.value) in call.trace
  {
    CancelExact(Slots(w.call.session.value), {}, i);
  }

  // ---- the end of one leg of a ring ----

  /** Nothing but this leg's slots has changed in the list: they are settled as not answered. */
  predicate EndedIn(slots: seq<Slot>, slots': seq<Slot>, leg: CallId) {
    && |slots'| == |slots|
    && forall i :: 0 <= i < |slots| ==>
         slots'[i] == slots[i].(status := if slots[i].leg == Some(leg) then NoAnswer else slots[i].status)
  }

  /** A leg of a simultaneous ring that rings, and nothing is bridged or being bridged. */
  predicate RingsAlone(c: Call, leg: CallId, now: nat) {
    && c.session.Some? && c.session.value.cfg.simultaneous && c.session.value.stage == Ringing
    && !BridgeAbout(c, now) && !BridgedState(c.session.value) && c.session.value.legs.Some?
    && exists i :: 0 <= i < |c.session.value.legs.value| && FirstPending(c.session.value.legs.value, i, leg)
  }

  predicate FirstPending(slots: seq<Slot>, i: nat, leg: CallId) {
    && i < |slots| && slots[i].leg == Some(leg) && slots[i].status == Pending
    && forall j :: 0 <= j < i ==> slots[j].leg != Some(leg)
  }

  lemma EndCommands(c: Call, now: nat)
    requires c.session.Some? && !ActiveWinner(c, now)
    ensures var c' := Route(c, now);
            && c'.session.Some? && c'.session.value.legs == c.session.value.legs && Prompts(c') > Prompts(c)
  {
    var c1 := EnsureAnswered(c);
    var c2 := if c1.session.value.cfg.ringGroup then Issue(c1, [GroupMissed]) else c1;
    PromptsPush(c, AnswerCaller);
    PromptsPush(c1, GroupMissed);
    var c3 := if c2.session.value.cfg.voicemailAllowed then With(c2, c2.session.value.(stage := VoicemailPrompt)) else c2;
    PromptsPush(c3, if c2.session.value.cfg.voicemailAllowed then Speak(VoicemailGreeting) else Speak(Goodbye));
  }

  lemma EndRoutes(c: Call, leg: CallId, now: nat)
    requires RingsAlone(c, leg, now)
    ensures var slots := MarkLeg(Slots(c.session.value), leg, NoAnswer);
            var answered, rings := exists i :: 0 <= i < |slots| && slots[i].status == Answered,
                                   exists i :: 0 <= i < |slots| && slots[i].status == Pending;
            SimultaneousLegEnded(c, leg, now) ==
              if answered || rings then SetSlots(c, slots) else Route(SetSlots(c, slots), now)
  {
    var legs := c.session.value.legs.value;
    var i :| 0 <= i < |legs| && FirstPending(legs, i, leg);
    var found := FindLeg(legs, leg);
    assert found == Some(i);
    assert !BridgePending(c.session.value, now);
  }

  predicate EndsLeg(e: Event, leg: CallId, now: nat) {
    (e.DialEndReported? && e.leg == leg && !e.wasAnswered && e.now == now) || (e.HangupReported? && e.leg == leg && e.now == now)
  }

  lemma EndIsLegEnded(w: World, leg: CallId, e: Event, now: nat)
    requires RingsAlone(w.call, leg, now) && Enabled(w, e) && EndsLeg(e, leg, now)
    ensures Apply(w, e).call == SimultaneousLegEnded(w.call, leg, now)
  {
    var legs := w.call.session.value.legs.value;
    var i :| 0 <= i < |legs| && FirstPending(legs, i, leg);
    assert HoldsLeg(legs, leg);
  }

  lemma EndSlots(c: Call, leg: CallId, now: nat, slots: seq<Slot>)
    requires RingsAlone(c, leg, now) && slots == MarkLeg(c.session.value.legs.value, leg, NoAnswer)
    ensures EndedIn(c.session.value.legs.value, slots, leg)
    ensures !ActiveWinner(SetSlots(c, slots), now) && Prompts(SetSlots(c, slots)) == Prompts(c)
  {
    var legs := c.session.value.legs.value;
    assert forall i :: 0 <= i < |slots| ==> IsMarked(legs[i], slots[i], leg, NoAnswer);
  }

  /**
   When a leg of a ring ends, reported as the end of its dial or of its call, its slot is settled as
   not answered; and the fallback is played exactly if no leg rings any more and none has answered.
   */
  lemma LegEndsItsSlot(w: World, leg: CallId, e: Event, now: nat)
    requires RingsAlone(w.call, leg, now) && Enabled(w, e) && EndsLeg(e, leg, now)
    ensures var call, legs := Apply(w, e).call, w.call.session.value.legs.value;
            && call.session.Some? && call.session.value.legs.Some? && EndedIn(legs, call.session.value.legs.value, leg)
            && (Prompts(call) > Prompts(w.call) <==>
                  forall i :: 0 <= i < |legs| ==> call.session.value.legs.value[i].status !in {Pending, Answered})
            && (Prompts(call) <= Prompts(w.call) ==> call.trace == w.call.trace)
  {
    EndIsLegEnded(w, leg, e, now);
    LegEndedFields(w.call, leg, now, SimultaneousLegEnded(w.call, leg, now));
  }

  lemma LegEndedFields(c: Call, leg: CallId, now: nat, c': Call)
    requires RingsAlone(c, leg, now) && c' == SimultaneousLegEnded(c, leg, now)
    ensures var legs := c.session.value.legs.value;
            && c'.session.Some? && c'.session.value.legs.Some? && EndedIn(legs, c'.session.value.legs.value, leg)
            && (Prompts(c') > Prompts(c) <==>
                  forall i :: 0 <= i < |legs| ==> c'.session.value.legs.value[i].status !in {Pending, Answered})
            && (Prompts(c') <= Prompts(c) ==> c'.trace == c.trace)
  {
    var slots := MarkLeg(c.session.value.legs.value, leg, NoAnswer);
    EndRoutes(c, leg, now);
    EndSlots(c, leg, now, slots);
    EndCommands(SetSlots(c, slots), now);
  }

  /**
   The hangup of a listed leg: during the grace period it is ignored; in a call that another leg
   holds it settles the leg's slots as cancelled, and changes nothing else.
   */
  lemma HangupOfListed(w: World, leg: CallId, linked: bool, outcomes: seq<Option<CallId>>, now: nat)
    requires w.call.session.Some? && w.call.session.value.stage != Connecting
    requires Finds(w.call, leg, linked) && OnList(w.call, leg)
    ensures var s, call := w.call.session.value, Apply(w, HangupReported(leg, linked, outcomes, now)).call;
            var grace := s.stage == Ringing && s.connectingSince.Some? && now < s.connectingSince.value + s.cfg.grace;
            && (grace ==> call == w.call)
            && (!grace && s.connectedLeg.Some? && s.connectedLeg != Some(leg) && s.winnerLeg != Some(leg) ==>
                  && call.session.Some? && call.session.value.legs.Some?
                  && call == With(w.call, s.(legs := call.session.value.legs))
                  && CancelledIn(Slots(s), call.session.value.legs.value, leg))
  {
    MarkedCancelled(Slots(w.call.session.value), leg);
  }

  /** Nothing but this leg's slots has changed in the list: they are cancelled. */
  predicate CancelledIn(slots: seq<Slot>, slots': seq<Slot>, leg: CallId) {
    && |slots'| == |slots|
    && forall i :: 0 <= i < |slots| ==>
         slots'[i] == slots[i].(status := if slots[i].leg == Some(leg) then Cancelled else slots[i].status)
  }

  lemma MarkedCancelled(slots: seq<Slot>, leg: CallId)
    ensures CancelledIn(slots, MarkLeg(slots, leg, Cancelled), leg)
  {
    var marked := MarkLeg(slots, leg, Cancelled);
    assert forall i :: 0 <= i < |slots| ==> IsMarked(slots[i], marked[i], leg, Cancelled);
  }

  // ---- the agents that ring ----

  /** Once the carrier has accepted the dial of a target its agent has a pending ring, and nothing else changes. */
  lemma AgentRings(w: World, i: nat)
    requires i < |w.dials| && w.dials[i].Created?
    ensures var sip := if i < |w.cfg.targets| then w.cfg.targets[i].sip else None;
            Apply(w, DialReturned(i)).call
            == w.call.(pending := w.call.pending + if sip.Some? then {sip.value} else {})
  {
    assert w.call.pending + {} == w.call.pending;
  }

  /** A call without targets only plays its prompt; in a hunt that is the goodbye. */
  lemma NoTargets(c: Call, outcomes: seq<Option<CallId>>, now: nat)
    requires Fresh(c) && c.session.value.cfg.targets == []
    ensures var cfg, call := c.session.value.cfg, Start(c, outcomes, now).call;
            && call.session.Some?
            && call.trace == (if cfg.ringFirst then [AnswerCaller] else [])
                             + (if cfg.simultaneous && cfg.ringGroup then [GroupMissed] else [])
                             + [Speak(if cfg.simultaneous && cfg.voicemailAllowed then VoicemailGreeting else Goodbye)]
  {
  }

  // ---- a bridged call ----

  predicate BridgedCall(c: Call) {
    c.session.Some? && c.session.value.stage == Bridged
  }

  lemma ClaimBridged(c: Call, leg: CallId, kind: AnswerKind)
    requires BridgedCall(c)
    ensures BridgedCall(Claim(c, leg, kind))
  {
  }

  lemma AnswerBridged(c: Call, leg: CallId, kind: AnswerKind, now: nat, ok: bool)
    requires BridgedCall(c)
    ensures BridgedCall(AnswerEvent(c, leg, kind, now, ok))
  {
    AnswerCases(c, leg, kind, now, ok);
    ClaimBridged(c, leg, kind);
  }

  lemma EndBridged(c: Call, leg: CallId, answered: bool, outcomes: seq<Option<CallId>>, now: nat)
    requires BridgedCall(c)
    ensures DialEnded(c, leg, answered, outcomes, now) == c
    ensures var c' := LegHangup(c, leg, outcomes, now); c'.session.Some? ==> BridgedCall(c')
  {
  }

  /** A bridged call stays so until it ends, but for an agent's accept and the end of a prompt. */
  lemma BridgedStays(w: World, e: Event)
    requires BridgedCall(w.call) && !e.AgentTapped? && !e.PromptEnded?
    ensures Apply(w, e).call.session.Some? ==> BridgedCall(Apply(w, e).call)
  {
    if Enabled(w, e) {
      match e
      case AnswerReported(leg, kind, _, now, ok) => AnswerBridged(w.call, leg, kind, now, ok);
      case DialEndReported(leg, answered, _, outcomes, now) => EndBridged(w.call, leg, answered, outcomes, now);
      case HangupReported(leg, _, outcomes, now) => EndBridged(w.call, leg, false, outcomes, now);
      case _ =>
    }
  }

  // ---- the answers that do not win ----

  /** A leg that answers after another has won is hung up, and written off. */
  lemma LoserIsHungUp(w: World, leg: CallId, linked: bool, now: nat, ok: bool)
    requires Sound(w.call, w.cfg) && w.call.session.Some? && Finds(w.call, leg, linked)
    requires w.call.winner.Some? && w.call.winner != Some(leg) && Counts(w.call.session.value, leg)
    ensures var call := Apply(w, AnswerReported(leg, Untyped, linked, now, ok)).call;
            && call.winner == w.call.winner && call.session.Some?
            && call.trace == w.call.trace + [Hangup(leg)]
            && forall i :: 0 <= i < |Slots(w.call.session.value)| && Slots(w.call.session.value)[i].leg == Some(leg) ==>
                 i < |Slots(call.session.value)| && Slots(call.session.value)[i].status == Cancelled
  {
    CountsIsHeard(w.call.session.value, leg);
    var c1 := MarkConnecting(w.call, now);
    assert Slots(c1.session.value) == Slots(w.call.session.value) && Heard(c1.session.value, leg);
    assert AnswerEvent(w.call, leg, Untyped, now, ok) == Claim(c1, leg, Untyped);
  }

  lemma NoteOutcome(c: Call, leg: CallId, ok: bool)
    requires c.session.Some?
    ensures var s, c' := c.session.value, NoteAnswer(c, leg, ok);
            var parked := s.deferAnswer && !s.pstnAnswered;
            && c'.session.Some? && c'.winner == c.winner
            && c'.trace == c.trace + (if parked then [BridgeCaller(leg, ok)] else [])
            && c'.session.value.pstnAnswered == (if parked then ok else s.pstnAnswered)
            && c'.session.value.stage == s.stage && c'.session.value.connectingSince == s.connectingSince
            && c'.session.value.legs.Some? && NotedIn(Slots(s), c'.session.value.legs.value, leg)
  {
    var slots := Slots(c.session.value);
    var marked := MarkLeg(slots, leg, Answered);
    assert forall i :: 0 <= i < |slots| ==> IsMarked(slots[i], marked[i], leg, Answered);
  }

  /** Nothing but this leg's slots has changed in the list: they have answered. */
  predicate NotedIn(slots: seq<Slot>, slots': seq<Slot>, leg: CallId) {
    && |slots'| == |slots|
    && forall i :: 0 <= i < |slots| ==>
         slots'[i] == slots[i].(status := if slots[i].leg == Some(leg) then Answered else slots[i].status)
  }

  /** A counting leg that answers before the bridge, and does not hold it already, is noted. */
  lemma AnswerIsNoted(c: Call, leg: CallId, kind: AnswerKind, now: nat, ok: bool, c1: Call, cfg: Config)
    requires Sound(c, cfg) && c.session.Some? && c1 == MarkConnecting(c, now)
    requires kind in {CallAnswered, DialAnswered} && OnList(c, leg) && Counts(c.session.value, leg)
    requires c.session.value.stage == Bridged ==> c.winner != Some(leg)
    ensures AnswerEvent(c, leg, kind, now, ok) == NoteAnswer(c1, leg, ok)
  {
    CountsIsHeard(c.session.value, leg);
    assert Slots(c1.session.value) == Slots(c.session.value);
    assert Heard(c1.session.value, leg) && !AlreadyBridgedTo(c1.session.value, leg);
  }

  /**
   An answer before the bridge is noted on the leg's slots, takes a parked caller off hold, and starts
   the grace period.
   */
  lemma AnswerBridgesCaller(w: World, leg: CallId, kind: AnswerKind, linked: bool, now: nat, ok: bool)
    requires Sound(w.call, w.cfg) && w.call.session.Some? && Finds(w.call, leg, linked)
    requires kind in {CallAnswered, DialAnswered} && OnList(w.call, leg) && Counts(w.call.session.value, leg)
    requires w.call.session.value.stage == Bridged ==> w.call.winner != Some(leg)
    ensures var s, call := w.call.session.value, Apply(w, AnswerReported(leg, kind, linked, now, ok)).call;
            var parked := s.deferAnswer && !s.pstnAnswered;
            && call.session.Some? && call.winner == w.call.winner
            && call.trace == w.call.trace + (if parked then [BridgeCaller(leg, ok)] else [])
            && call.session.value.pstnAnswered == (if parked then ok else s.pstnAnswered)
            && call.session.value.legs.Some? && NotedIn(Slots(s), call.session.value.legs.value, leg)
            && (s.stage !in {Connecting, Bridged} ==>
                  && call.session.value.stage == Connecting
                  && call.session.value.connectingSince == Some(OrNow(s.connectingSince, now)))
  {
    var c1 := NotedCall(w, leg, kind, linked, now, ok);
    NoteOutcome(c1, leg, ok);
  }

  lemma NotedCall(w: World, leg: CallId, kind: AnswerKind, linked: bool, now: nat, ok: bool) returns (c1: Call)
    requires Sound(w.call, w.cfg) && w.call.session.Some? && Finds(w.call, leg, linked)
    requires kind in {CallAnswered, DialAnswered} && OnList(w.call, leg) && Counts(w.call.session.value, leg)
    requires w.call.session.value.stage == Bridged ==> w.call.winner != Some(leg)
    ensures c1.session.Some? && c1.winner == w.call.winner && c1.trace == w.call.trace
    ensures var s, s1 := w.call.session.value, c1.session.value;
            && s1.pstnAnswered == s.pstnAnswered && s1.deferAnswer == s.deferAnswer && Slots(s1) == Slots(s)
            && (s.stage !in {Connecting, Bridged} ==>
                  s1.stage == Connecting && s1.connectingSince == Some(OrNow(s.connectingSince, now)))
    ensures Apply(w, AnswerReported(leg, kind, linked, now, ok)).call == NoteAnswer(c1, leg, ok)
  {
    c1 := MarkConnecting(w.call, now);
    AnswerIsNoted(w.call, leg, kind, now, ok, c1, w.cfg);
  }

  function OrNow(since: Option<nat>, now: nat): nat {
    if since.Some? then since.value else now
  }

  // ---- the winner's agent ----

  /** In a simultaneous ring the agent of the winning leg's target is on the call. */
  lemma WinnersAgentIsActive(c: Call, outcomes: seq<Option<CallId>>, now: nat, es: seq<Event>, i: nat, leg: CallId)
    requires Fresh(c) && c.session.value.cfg.simultaneous
    requires var call := Run(Start(c, outcomes, now), es).call;
             && call.session.Some? && call.winner.None?
             && i < |Slots(call.session.value)| && Slots(call.session.value)[i].leg == Some(leg)
             && i < |c.session.value.cfg.targets| && c.session.value.cfg.targets[i].sip.Some?
    ensures var call, sip := Win(Run(Start(c, outcomes, now), es).call, leg), c.session.value.cfg.targets[i].sip.value;
            sip in call.active && call.active[sip] == leg
  {
    var w := Run(Start(c, outcomes, now), es);
    StartRing(c, outcomes, now);
    RunRing(Start(c, outcomes, now), es);
    StartSound(c, outcomes, now);
    RunSound(Start(c, outcomes, now), es);
    WinnersSlot(w, i, leg);
    RunTarget(Start(c, outcomes, now), es);
    ActiveAgent(w.call, leg, i);
  }

  /** Only winning makes a target the active one. */
  predicate SameTarget(c: Call, c': Call) {
    c'.session.Some? ==>
      && c.session.Some?
      && (c'.winner.None? ==> c.winner.None? && c'.session.value.activeTarget == c.session.value.activeTarget)
  }

  lemma ClaimTarget(c: Call, leg: CallId, kind: AnswerKind)
    requires c.session.Some?
    ensures SameTarget(c, Claim(c, leg, kind))
  {
    ClaimKeepsWinner(c, leg, kind);
  }

  lemma NoteTarget(c: Call, leg: CallId, ok: bool)
    requires c.session.Some?
    ensures SameTarget(c, NoteAnswer(c, leg, ok)) && SameTarget(c, ApplyEffects(c, leg))
  {
  }

  lemma AnswerTarget(c: Call, leg: CallId, kind: AnswerKind, now: nat, ok: bool)
    ensures SameTarget(c, AnswerEvent(c, leg, kind, now, ok))
  {
    if c.session.Some? {
      var c1 := MarkConnecting(c, now);
      assert SameTarget(c, c1);
      AnswerCases(c, leg, kind, now, ok);
      ClaimTarget(c1, leg, kind);
      NoteTarget(c1, leg, ok);
    }
  }

  lemma RouteTarget(c: Call, now: nat)
    requires c.session.Some?
    ensures SameTarget(c, Route(c, now))
  {
  }

  lemma EndTarget(c: Call, leg: CallId, answered: bool, outcomes: seq<Option<CallId>>, now: nat)
    requires c.session.Some? ==> c.session.value.cfg.simultaneous
    ensures SameTarget(c, DialEnded(c, leg, answered, outcomes, now)) && SameTarget(c, LegHangup(c, leg, outcomes, now))
  {
    if c.session.Some? {
      var marked := SetSlots(c, MarkLeg(Slots(c.session.value), leg, NoAnswer));
      EndCases(c, leg, answered, outcomes, now);
      EndOutcomes(c, leg, now, marked);
      RouteTarget(marked, now);
    }
  }

  lemma FinishTarget(c: Call, now: nat)
    ensures SameTarget(c, FinishDialling(c, now))
  {
    if c.session.Some? {
      var c1 := FinishCases(c, now);
      RouteTarget(c1, now);
    }
  }

  lemma RegisterTarget(c: Call, target: nat, result: Option<CallId>)
    ensures SameTarget(c, RegisterDial(c, target, result))
  {
  }

  lemma StepTarget(w: World, e: Event)
    requires w.call.session.Some? ==> w.call.session.value.cfg.simultaneous
    ensures SameTarget(w.call, Apply(w, e).call)
  {
    if Enabled(w, e) {
      match e
      case DialRegistered(i) => RegisterTarget(w.call, i, w.dials[i].result);
      case DialsFinished(now) => FinishTarget(w.call, now);
      case AnswerReported(leg, kind, _, now, ok) => AnswerTarget(w.call, leg, kind, now, ok);
      case DialEndReported(leg, answered, _, outcomes, now) => EndTarget(w.call, leg, answered, outcomes, now);
      case HangupReported(leg, _, outcomes, now) => EndTarget(w.call, leg, false, outcomes, now);
      case _ =>
    }
  }

  predicate NoTarget(w: World) {
    w.call.session.Some? && w.call.winner.None? ==> w.call.session.value.activeTarget.None?
  }

  lemma {:induction false} RunTarget(w: World, es: seq<Event>)
    requires Sound(w.call, w.cfg) && w.cfg.simultaneous && NoTarget(w)
    ensures NoTarget(Run(w, es))
  {
    if es != [] {
      RunTarget(w, es[..|es| - 1]);
      RunSound(w, es[..|es| - 1]);
      StepTarget(Run(w, es[..|es| - 1]), es[|es| - 1]);
    }
  }

  lemma ActiveAgent(c: Call, leg: CallId, i: nat)
    requires c.session.Some? && c.session.value.activeTarget.None?
    requires FindLeg(Slots(c.session.value), leg) == Some(i) && Slots(c.session.value)[i].target == i
    requires i < |c.session.value.cfg.targets| && c.session.value.cfg.targets[i].sip.Some?
    requires c.session.value.legs.Some?
    ensures var call, sip := Win(c, leg), c.session.value.cfg.targets[i].sip.value;
            sip in call.active && call.active[sip] == leg
  {
  }

  // ---- a sequential hunt goes on ----

  /**
   The end of the leg that rings, with no bridge about: the next targets are tried, or the fallback is
   played. It is the same whether the dial or the call of a listed leg is reported as ended.
   */
  lemma HuntResumes(c: Call, leg: CallId, outcomes: seq<Option<CallId>>, now: nat) returns (stop: nat)
    requires c.session.Some? && !c.session.value.cfg.simultaneous && c.session.value.stage == Ringing
    requires !BridgeAbout(c, now) && !BridgedState(c.session.value) && c.session.value.cfg.appConfigured
    ensures var next := With(c, c.session.value.(ringIndex := c.session.value.ringIndex + 1));
            var c' := DialEnded(c, leg, false, outcomes, now);
            if next.session.value.ringIndex < |c.session.value.cfg.targets| then StopsAt(next, c', outcomes, stop)
            else EndsInPrompt(c')
    ensures OnList(c, leg) ==> LegHangup(c, leg, outcomes, now) == DialEnded(c, leg, false, outcomes, now)
  {
    var next := With(c, c.session.value.(ringIndex := c.session.value.ringIndex + 1));
    stop := 0;
    if next.session.value.ringIndex < |c.session.value.cfg.targets| {
      stop := HuntStops(next, outcomes, now);
    }
  }
}
