/**
 A simultaneous ring in which every leg reports its answer, if at all, before its end: no run both
 plays the fallback (voicemail or goodbye) and claims a winner.
 */
module InboundExclusion {
  import opened Options
  import opened CallState
  import opened InboundRules
  import opened InboundRuns
  import opened InboundAgreement
  import opened InboundRing

  predicate Orderly(w: World, e: Event) {
    e.AnswerReported? ==> e.leg !in w.ended
  }

  predicate OrderlyRun(w: World, es: seq<Event>) {
    forall k :: 0 <= k < |es| ==> Orderly(Run(w, es[..k]), es[k])
  }

  predicate WrittenOff(slots: seq<Slot>) {
    forall i :: 0 <= i < |slots| ==> slots[i].status in {Failed, Cancelled, NoAnswer}
  }

  /** How many prompts a trace plays. */
  function Spoken(trace: seq<Command>): nat {
    if trace == [] then 0 else Spoken(trace[..|trace| - 1]) + if trace[|trace| - 1].Speak? then 1 else 0
  }

  function Prompts(c: Call): nat {
    Spoken(c.trace)
  }

  lemma SpokenPush(trace: seq<Command>, c: Command)
    ensures Spoken(trace + [c]) == Spoken(trace) + if c.Speak? then 1 else 0
  {
    assert (trace + [c])[..|trace + [c]| - 1] == trace;
  }

  lemma {:induction false} SpokenQuiet(trace: seq<Command>, cmds: seq<Command>)
    requires forall x :: x in cmds ==> Quiet(x)
    ensures Spoken(trace + cmds) == Spoken(trace)
  {
    if cmds == [] {
      assert trace + cmds == trace;
    } else {
      var front, last := cmds[..|cmds| - 1], cmds[|cmds| - 1];
      SpokenQuiet(trace, front);
      SpokenPush(trace + front, last);
      assert trace + cmds == trace + front + [last];
      assert last in cmds;
    }
  }

  lemma {:induction false} SomePrompt(trace: seq<Command>)
    ensures Spoken(trace) > 0 <==> exists i :: 0 <= i < |trace| && trace[i].Speak?
  {
    if trace != [] {
      var front := trace[..|trace| - 1];
      SomePrompt(front);
      if exists i :: 0 <= i < |front| && front[i].Speak? {
        var i :| 0 <= i < |front| && front[i].Speak?;
        assert trace[i].Speak?;
      }
    }
  }

  /** An answered leg means a bridge is under way; a prompt means every leg is written off. */
  predicate Apart(c: Call) {
    c.session.Some? ==>
      var s := c.session.value;
      && (forall i :: 0 <= i < |Slots(s)| && Slots(s)[i].status == Answered ==> s.stage in {Connecting, Bridged})
      && (Prompts(c) > 0 ==> c.winner.None? && WrittenOff(Slots(s)))
  }

  lemma PromptsAfter(c: Call, cmds: seq<Command>)
    requires forall x :: x in cmds ==> Quiet(x)
    ensures Prompts(Issue(c, cmds)) == Prompts(c)
  {
    SpokenQuiet(c.trace, cmds);
  }

  /** One more command. */
  lemma PromptsPush(c: Call, x: Command)
    ensures Prompts(Issue(c, [x])) == Prompts(c) + if x.Speak? then 1 else 0
  {
    SpokenPush(c.trace, x);
  }

  lemma WrittenOffApart(c: Call)
    requires c.session.Some? && c.winner.None? && WrittenOff(Slots(c.session.value))
    ensures Apart(c)
  {
  }

  lemma RouteApart(c: Call, now: nat)
    requires c.session.Some? && Apart(c)
    requires !ActiveWinner(c, now) ==> WrittenOff(Slots(c.session.value))
    ensures Apart(Route(c, now))
  {
    if !ActiveWinner(c, now) {
      RouteFrame(c, Route(c, now), now);
      WrittenOffApart(Route(c, now));
    }
  }

  lemma MarkApart(c: Call, leg: CallId, status: Status)
    requires c.session.Some? && Apart(c)
    requires status == Answered ==> Prompts(c) == 0 && c.session.value.stage in {Connecting, Bridged}
    requires status in {Answered, Cancelled, NoAnswer}
    ensures Apart(SetSlots(c, MarkLeg(Slots(c.session.value), leg, status)))
  {
  }

  lemma EffectsPrompts(c: Call, leg: CallId)
    requires c.session.Some?
    ensures Prompts(ApplyEffects(c, leg)) == Prompts(c)
    ensures ApplyEffects(c, leg).session == c.session
  {
    PromptsPush(c.(effects := c.effects + {leg}), RecordCall);
  }

  /** A win leaves the call bridged and adds no prompt. */
  lemma WinPrompts(c: Call, leg: CallId)
    requires c.session.Some?
    ensures var c' := Win(c, leg); c'.session.Some? && c'.session.value.stage == Bridged && Prompts(c') == Prompts(c)
  {
    var c1 := MarkBridged(c.(winner := Some(leg)), leg);
    var c2 := if c1.session.value.cfg.simultaneous then SettleRace(c1, leg) else c1;
    SettlePrompts(c1, leg);
    EffectsPrompts(c2, leg);
    var c3 := ApplyEffects(c2, leg);
    PromptsPush(c3, GroupAnswered(CreditedMember(c3.session.value)));
  }

  lemma SettlePrompts(c: Call, leg: CallId)
    requires c.session.Some? && c.session.value.stage == Bridged
    ensures var c' := SettleRace(c, leg); c'.session.Some? && c'.session.value.stage == Bridged && Prompts(c') == Prompts(c)
  {
    var slots := MarkLeg(Slots(c.session.value), leg, Answered);
    HangupsAreQuiet(slots, Keep(c.session.value, leg));
    SpokenQuiet(c.trace, HangupsFor(slots, Keep(c.session.value, leg)));
  }

  lemma ClaimPrompts(c: Call, leg: CallId, kind: AnswerKind)
    requires c.session.Some?
    ensures var c' := Claim(c, leg, kind); c'.session.Some? && Prompts(c') == Prompts(c)
    ensures kind == CallBridged || c.winner in {None, Some(leg)} ==> Claim(c, leg, kind).session.value.stage == Bridged
  {
    match c.winner
    case None => WinPrompts(c, leg);
    case Some(winner) =>
      if winner == leg {
        EffectsPrompts(RebridgeIfNeeded(c, winner), winner);
      } else if kind != CallBridged {
        PromptsPush(SetSlots(c, MarkLeg(Slots(c.session.value), leg, Cancelled)), Hangup(leg));
      }
  }

  lemma NotePrompts(c: Call, leg: CallId, ok: bool)
    requires c.session.Some?
    ensures Prompts(NoteAnswer(c, leg, ok)) == Prompts(c)
    ensures var c1 := SetSlots(c, MarkLeg(Slots(c.session.value), leg, Answered));
            Apart(c1) ==> Apart(NoteAnswer(c, leg, ok))
  {
    SpokenPush(c.trace, BridgeCaller(leg, ok));
    var c1 := SetSlots(c, MarkLeg(Slots(c.session.value), leg, Answered));
    assert Slots(NoteAnswer(c, leg, ok).session.value) == Slots(c1.session.value);
  }

  lemma AnswerPrompts(c: Call, leg: CallId, kind: AnswerKind, now: nat, ok: bool)
    ensures Prompts(AnswerEvent(c, leg, kind, now, ok)) == Prompts(c)
  {
    if c.session.Some? {
      var c1 := MarkConnecting(c, now);
      EffectsPrompts(c1, leg);
      ClaimPrompts(c1, leg, kind);
      NotePrompts(c1, leg, ok);
    }
  }

  /** A heard leg that has not ended is ringing or answered, so nothing was written off. */
  lemma HeardMeansNoPrompt(w: World, leg: CallId)
    requires RingInv(w) && Apart(w.call) && w.call.session.Some?
    requires leg !in w.ended && Heard(w.call.session.value, leg)
    ensures Prompts(w.call) == 0
  {
    var slots := Slots(w.call.session.value);
    var i := FindLeg(slots, leg).value;
    assert SlotOk(slots[i], i, w.dials[i], w.call, w.answered, w.ended);
  }

  lemma AnswerApart(w: World, leg: CallId, kind: AnswerKind, now: nat, ok: bool)
    requires RingInv(w) && Apart(w.call) && leg !in w.ended
    ensures Apart(AnswerEvent(w.call, leg, kind, now, ok))
  {
    if w.call.session.Some? {
      var c1 := MarkConnecting(w.call, now);
      if AlreadyBridgedTo(c1.session.value, leg) {
        EffectsPrompts(c1, leg);
      } else if Heard(c1.session.value, leg) {
        HeardMeansNoPrompt(w, leg);
        if Confirms(kind) {
          ClaimApart(c1, leg, kind);
        } else {
          NoteApart(c1, leg, ok);
        }
      }
      AnswerCases(w.call, leg, kind, now, ok);
    }
  }

  lemma NoteApart(c: Call, leg: CallId, ok: bool)
    requires c.session.Some? && Apart(c) && c.session.value.stage in {Connecting, Bridged} && Prompts(c) == 0
    ensures Apart(NoteAnswer(c, leg, ok))
  {
    MarkApart(c, leg, Answered);
    NotePrompts(c, leg, ok);
  }

  lemma ClaimApart(c: Call, leg: CallId, kind: AnswerKind)
    requires c.session.Some? && c.session.value.stage in {Connecting, Bridged} && Prompts(c) == 0
    ensures Apart(Claim(c, leg, kind))
  {
    ClaimPrompts(c, leg, kind);
  }

  /** A slot that rang and is filled in: nothing was written off yet. */
  lemma SlotApart(c: Call, i: nat, slot: Slot, c': Call)
    requires Apart(c) && c.session.Some? && i < |Slots(c.session.value)| && Slots(c.session.value)[i].status == Pending
    requires c'.session == Some(c.session.value.(legs := Some(Slots(c.session.value)[i := slot])))
    requires slot.status != Answered && Prompts(c') == Prompts(c) && c'.winner == c.winner
    ensures Apart(c')
  {
    assert Prompts(c) == 0;
  }

  lemma RegisterApart(w: World, i: nat)
    requires RingInv(w) && Apart(w.call) && i < |w.dials| && w.dials[i].Returned?
    ensures Apart(RegisterDial(w.call, i, w.dials[i].result))
  {
    var c, result := w.call, w.dials[i].result;
    RegisterQuiet(c, i, result);
    if c.session.Some? {
      var slots := Slots(c.session.value);
      assert SlotOk(slots[i], i, w.dials[i], c, w.answered, w.ended);
      SlotIsTargets(w, i);
      if result.None? {
        SlotApart(c, i, slots[i].(status := Failed), RegisterDial(c, i, result));
      } else if !AlreadyConnected(c) {
        SlotApart(c, i, Slot(result, i, Pending), RegisterDial(c, i, result));
      } else {
        UnregisteredNotConnected(w, i);
        SlotApart(c, i, slots[i].(status := Cancelled), RegisterDial(c, i, result));
      }
    }
  }

  lemma RegisterQuiet(c: Call, target: nat, result: Option<CallId>)
    ensures Prompts(RegisterDial(c, target, result)) == Prompts(c)
  {
    if c.session.Some? && result.Some? {
      PromptsPush(SetSlots(c, MarkTarget(Slots(c.session.value), target, Cancelled)), Hangup(result.value));
    }
  }

  lemma FinishApart(w: World, now: nat)
    requires RingInv(w) && Apart(w.call) && AllRegistered(w)
    ensures Apart(FinishDialling(w.call, now))
  {
    if w.call.session.Some? {
      var s := w.call.session.value;
      var slots := Slots(s);
      forall i | 0 <= i < |slots| && (slots[i].status != Pending || slots[i].leg.None?)
        ensures slots[i].status != Pending
      {
        assert SlotOk(slots[i], i, w.dials[i], w.call, w.answered, w.ended);
      }
      var primary := if slots != [] && slots[0].leg.Some? then slots[0].leg else s.primaryLeg;
      var c := With(w.call, s.(primaryLeg := primary));
      assert Slots(c.session.value) == slots;
      if NoneRinging(slots) && w.call.winner.None? {
        RouteApart(c, now);
      }
    }
  }

  lemma EndApart(c: Call, leg: CallId, now: nat)
    requires c.session.Some? && Apart(c)
    ensures Apart(SimultaneousLegEnded(c, leg, now))
  {
    MarkApart(c, leg, NoAnswer);
    var slots := MarkLeg(Slots(c.session.value), leg, NoAnswer);
    if Settled(slots) && !exists i :: 0 <= i < |slots| && slots[i].status == Answered {
      RouteApart(SetSlots(c, slots), now);
    }
  }

  lemma CallerHangupPrompts(c: Call, now: nat)
    ensures Prompts(CallerHangup(c, now)) == Prompts(c)
  {
    if c.session.Some? {
      var slots := Slots(c.session.value);
      HangupsAreQuiet(slots, {});
      PromptsAfter(SetSlots(c, CancelPending(slots, {})), HangupsFor(slots, {}));
    }
  }

  lemma SpeakEndedPrompts(c: Call, prompt: Prompt)
    ensures Prompts(SpeakEnded(c, prompt)) == Prompts(c)
  {
    if c.session.Some? {
      PromptsPush(c, HangupCaller);
      PromptsPush(With(c, c.session.value.(stage := VoicemailRecord)), RecordVoicemail);
    }
  }

  lemma HangupApart(c: Call, leg: CallId, outcomes: seq<Option<CallId>>, now: nat)
    requires c.session.Some? && c.session.value.cfg.simultaneous && Apart(c)
    ensures Apart(LegHangup(c, leg, outcomes, now))
  {
    EndApart(c, leg, now);
    MarkApart(c, leg, Cancelled);
  }

  /** The call lasts, in simultaneous mode. */
  predicate RingsAll(c: Call) {
    c.session.Some? && c.session.value.cfg.simultaneous
  }

  lemma EndStepApart(w: World, e: Event)
    requires Apart(w.call) && RingsAll(w.call) && Enabled(w, e) && (e.DialEndReported? || e.HangupReported?)
    ensures Apart(Apply(w, e).call)
  {
    match e
    case DialEndReported(leg, answered, _, outcomes, now) =>
      EndCases(w.call, leg, answered, outcomes, now);
      EndApart(w.call, leg, now);
    case HangupReported(leg, _, outcomes, now) => HangupApart(w.call, leg, outcomes, now);
  }

  lemma PromptEndedApart(c: Call, prompt: Prompt)
    requires Apart(c) && c.session.Some? && Speak(prompt) in c.trace
    ensures Apart(SpeakEnded(c, prompt))
  {
    SomePrompt(c.trace);
    SpeakEndedPrompts(c, prompt);
  }

  lemma TapApart(c: Call, sip: Sip, now: nat)
    requires Apart(c)
    ensures Apart(AgentAccepted(c, sip, now))
  {
  }

  lemma CallerHangupApart(c: Call, now: nat)
    requires Apart(c)
    ensures Apart(CallerHangup(c, now))
  {
  }

  lemma StepAside(w: World, e: Event)
    requires Apart(w.call) && w.call.session.Some? && Enabled(w, e)
    requires e.LegCreated? || e.DialReturned? || e.CallerHungUp? || e.AgentTapped? || e.PromptEnded? || e.AgentEntriesLost?
    ensures Apart(Apply(w, e).call)
  {
    match e
    case CallerHungUp(now) => CallerHangupApart(w.call, now);
    case AgentTapped(sip, now) => TapApart(w.call, sip, now);
    case PromptEnded(prompt) => PromptEndedApart(w.call, prompt);
    case _ =>
  }

  lemma StepApart(w: World, e: Event)
    requires RingInv(w) && Apart(w.call) && Orderly(w, e)
    ensures Apart(Apply(w, e).call)
  {
    if w.call.session.None? {
      StepKeepsWinner(w, e);
    } else if Enabled(w, e) {
      if e.DialRegistered? {
        RegisterApart(w, e.target);
      } else if e.DialsFinished? {
        FinishApart(w, e.now);
      } else if e.AnswerReported? {
        AnswerApart(w, e.leg, e.kind, e.now, e.bridgeAccepted);
      } else if e.DialEndReported? || e.HangupReported? {
        EndStepApart(w, e);
      } else {
        StepAside(w, e);
      }
    }
  }

  lemma EndQuiet(c: Call, leg: CallId, now: nat)
    requires c.session.Some? && c.winner.Some?
    ensures SimultaneousLegEnded(c, leg, now).trace == c.trace
  {
  }

  lemma EndsQuiet(c: Call, leg: CallId, answered: bool, outcomes: seq<Option<CallId>>, now: nat)
    requires c.session.Some? && c.session.value.cfg.simultaneous && c.winner.Some?
    ensures DialEnded(c, leg, answered, outcomes, now).trace == c.trace
    ensures LegHangup(c, leg, outcomes, now).trace == c.trace
  {
    EndCases(c, leg, answered, outcomes, now);
    EndQuiet(c, leg, now);
  }

  lemma FinishQuiet(c: Call, now: nat)
    requires c.session.Some? && c.winner.Some?
    ensures FinishDialling(c, now).trace == c.trace
  {
  }

  /** With a winner, no event plays a prompt. */
  lemma WonIsQuiet(w: World, e: Event)
    requires RingsAll(w.call) && w.call.winner.Some?
    ensures Prompts(Apply(w, e).call) == Prompts(w.call)
  {
    if Enabled(w, e) {
      match e
      case DialRegistered(i) => RegisterQuiet(w.call, i, w.dials[i].result);
      case DialsFinished(now) => FinishQuiet(w.call, now);
      case AnswerReported(leg, kind, _, now, ok) => AnswerPrompts(w.call, leg, kind, now, ok);
      case DialEndReported(leg, answered, _, outcomes, now) => EndsQuiet(w.call, leg, answered, outcomes, now);
      case HangupReported(leg, _, outcomes, now) => EndsQuiet(w.call, leg, false, outcomes, now);
      case CallerHungUp(now) => CallerHangupPrompts(w.call, now);
      case PromptEnded(prompt) => SpeakEndedPrompts(w.call, prompt);
      case _ =>
    }
  }

  lemma StartApart(c: Call, outcomes: seq<Option<CallId>>, now: nat)
    requires Fresh(c) && c.session.value.cfg.simultaneous
    ensures Apart(Start(c, outcomes, now).call)
  {
    var s := c.session.value;
    if s.cfg.targets == [] || !s.cfg.appConfigured {
      RouteApart(c, now);
    } else {
      DialsAreQuiet(s.cfg.targets);
      PromptsAfter(c, DialCommands(s.cfg.targets));
    }
  }

  lemma {:induction false} RunApart(w: World, es: seq<Event>)
    requires RingInv(w) && Apart(w.call) && OrderlyRun(w, es)
    ensures RingInv(Run(w, es)) && Apart(Run(w, es).call)
  {
    if es != [] {
      var front := es[..|es| - 1];
      OrderlyFront(w, es);
      RunApart(w, front);
      StepApart(Run(w, front), es[|es| - 1]);
      StepRing(Run(w, front), es[|es| - 1]);
    }
  }

  lemma OrderlyFront(w: World, es: seq<Event>)
    requires OrderlyRun(w, es) && es != []
    ensures OrderlyRun(w, es[..|es| - 1]) && Orderly(Run(w, es[..|es| - 1]), es[|es| - 1])
  {
    var front := es[..|es| - 1];
    forall k | 0 <= k < |front| ensures Orderly(Run(w, front[..k]), front[k]) {
      assert front[..k] == es[..k];
    }
  }

  /** After a claim no prompt is ever issued. */
  lemma {:induction false} NoPromptAfterClaim(w: World, es: seq<Event>, j: nat)
    requires RingInv(w) && Apart(w.call) && OrderlyRun(w, es)
    requires j <= |es| && Run(w, es[..j]).call.winner.Some?
    ensures Prompts(Run(w, es).call) == 0
  {
    RunApart(w, es);
    if j == |es| {
      assert es[..j] == es;
    } else {
      var front, last := es[..|es| - 1], es[|es| - 1];
      assert front[..j] == es[..j];
      OrderlyFront(w, es);
      NoPromptAfterClaim(w, front, j);
      RunApart(w, front);
      StepKeepsWinner(Run(w, front), last);
      if Run(w, front).call.session.Some? {
        WinnerStays(w, front, j);
        WonIsQuiet(Run(w, front), last);
      }
    }
  }

  /** No run both plays the fallback and, earlier or later, claims a winner. */
  lemma FallbackExcludesWinner(c: Call, outcomes: seq<Option<CallId>>, now: nat, es: seq<Event>, j: nat, k: nat)
    requires Fresh(c) && c.session.value.cfg.simultaneous
    requires OrderlyRun(Start(c, outcomes, now), es) && j <= |es|
    requires Run(Start(c, outcomes, now), es[..j]).call.winner.Some?
    requires k < |Run(Start(c, outcomes, now), es).call.trace|
    ensures !Run(Start(c, outcomes, now), es).call.trace[k].Speak?
  {
    var w := Start(c, outcomes, now);
    StartRing(c, outcomes, now);
    StartApart(c, outcomes, now);
    NoPromptAfterClaim(w, es, j);
    SomePrompt(Run(w, es).call.trace);
  }

  // ---- the order is needed ----

  lemma RunTwo(w: World, a: Event, b: Event)
    ensures Run(w, [a, b]) == Apply(Apply(w, a), b)
  {
    assert [a, b][..1] == [a];
    assert Run(w, [a]) == Apply(Run(w, []), a);
  }

  lemma {:induction false} RunOn(w: World, es: seq<Event>, more: seq<Event>)
    ensures Run(w, es + more) == Run(Run(w, es), more)
  {
    if more == [] {
      assert es + more == es;
    } else {
      RunOn(w, es, more[..|more| - 1]);
      assert (es + more)[..|es + more| - 1] == es + more[..|more| - 1];
    }
  }

  /** One target, ringing with leg 7. */
  predicate RingsOne(w: World) {
    && w.dials == [Registered(Some(7))] && w.answered == w.ended == {}
    && w.call.session.Some? && w.call.winner.None? && w.call.index == {7}
    && var s := w.call.session.value;
       (s.stage == Ringing && s.legs == Some([Slot(Some(7), 0, Pending)]) && s.connectingSince.None? && !BridgedState(s)
        && s.cfg.simultaneous && s.cfg.voicemailAllowed)
  }

  lemma OneTargetRings(c: Call)
    requires Fresh(c) && c.session.value.cfg.targets == [Target(None, None, true)]
    requires c.session.value.cfg.simultaneous && c.session.value.cfg.appConfigured && c.session.value.cfg.voicemailAllowed
    ensures RingsOne(Run(Start(c, [], 0), [LegCreated(0, 7), DialReturned(0), DialRegistered(0)]))
  {
    var w0 := Start(c, [], 0);
    var es := [LegCreated(0, 7), DialReturned(0), DialRegistered(0)];
    assert es[..2] == [es[0], es[1]];
    RunTwo(w0, es[0], es[1]);
    assert w0.dials == [Requested];
    assert Reserved(1) == [Slot(None, 0, Pending)];
    assert Apply(w0, es[0]).dials == [Created(7)];
    assert Run(w0, es[..2]).dials == [Returned(Some(7))];
    assert [Slot(None, 0, Pending)][0 := Slot(Some(7), 0, Pending)] == [Slot(Some(7), 0, Pending)];
  }

  lemma EndPlaysVoicemail(w: World)
    requires RingsOne(w)
    ensures var c := DialEnded(w.call, 7, false, [], 1);
            && c.session.Some? && c.winner.None? && 7 in c.index && Speak(VoicemailGreeting) in c.trace
            && c.session.value.legs == Some([Slot(Some(7), 0, NoAnswer)]) && c.session.value.stage == VoicemailPrompt
  {
    var slots, ended := Slots(w.call.session.value), [Slot(Some(7), 0, NoAnswer)];
    assert slots[0].leg == Some(7) && FindLeg(slots, 7) == Some(0);
    assert MarkLeg(slots, 7, NoAnswer) == ended;
    assert DialEnded(w.call, 7, false, [], 1) == PlayFallback(SetSlots(w.call, ended));
  }

  lemma EndedLegWins(c: Call)
    requires c.session.Some? && c.winner.None?
    requires c.session.value.legs == Some([Slot(Some(7), 0, NoAnswer)]) && c.session.value.stage == VoicemailPrompt
    ensures var c' := AnswerEvent(c, 7, CallBridged, 2, true); c'.winner == Some(7) && c.trace <= c'.trace
  {
    var c1 := MarkConnecting(c, 2);
    assert Slots(c1.session.value)[0].leg == Some(7);
    assert Heard(c1.session.value, 7);
    WinTrace(c1, 7);
    assert AnswerEvent(c, 7, CallBridged, 2, true) == Win(c1, 7);
  }

  /** A leg bridged after it was reported ended wins a call that is already at voicemail. */
  lemma LateBridgeWins(w: World)
    requires RingsOne(w)
    ensures var end, bridge := DialEndReported(7, false, false, [], 1), AnswerReported(7, CallBridged, false, 2, true);
            && Apply(Apply(w, end), bridge).call.winner == Some(7)
            && Speak(VoicemailGreeting) in Apply(Apply(w, end), bridge).call.trace
  {
    var ended := Apply(w, DialEndReported(7, false, false, [], 1));
    EndReported(w);
    EndedLegWins(ended.call);
    assert Apply(ended, AnswerReported(7, CallBridged, false, 2, true)).call == AnswerEvent(ended.call, 7, CallBridged, 2, true);
  }

  lemma EndReported(w: World)
    requires RingsOne(w)
    ensures var c := Apply(w, DialEndReported(7, false, false, [], 1)).call;
            && c.session.Some? && c.winner.None? && 7 in c.index && Speak(VoicemailGreeting) in c.trace
            && c.session.value.legs == Some([Slot(Some(7), 0, NoAnswer)]) && c.session.value.stage == VoicemailPrompt
  {
    EndPlaysVoicemail(w);
  }

  lemma WinTrace(c: Call, leg: CallId)
    requires c.session.Some?
    ensures Win(c, leg).winner == Some(leg) && c.trace <= Win(c, leg).trace
  {
  }

  lemma OrderIsNeeded(c: Call)
    requires Fresh(c) && c.session.value.cfg.targets == [Target(None, None, true)]
    requires c.session.value.cfg.simultaneous && c.session.value.cfg.appConfigured && c.session.value.cfg.voicemailAllowed
    ensures exists es :: Run(Start(c, [], 0), es).call.winner.Some?
                         && Speak(VoicemailGreeting) in Run(Start(c, [], 0), es).call.trace
  {
    var w := Start(c, [], 0);
    var ring := [LegCreated(0, 7), DialReturned(0), DialRegistered(0)];
    var end, bridge := DialEndReported(7, false, false, [], 1), AnswerReported(7, CallBridged, false, 2, true);
    OneTargetRings(c);
    LateBridgeWins(Run(w, ring));
    RunOn(w, ring, [end, bridge]);
    RunTwo(Run(w, ring), end, bridge);
    assert Run(w, ring + [end, bridge]).call.winner.Some?;
  }

  // ---- exactly when a run does both ----

  /** The leg is on the list of a simultaneous ring, and its first slot not written off. */
  predicate Counts(s: Session, leg: CallId) {
    s.cfg.simultaneous ==>
      exists i :: 0 <= i < |Slots(s)| && CountsAt(Slots(s), i, leg)
  }

  predicate CountsAt(slots: seq<Slot>, i: nat, leg: CallId)
    requires i < |slots|
  {
    && slots[i].leg == Some(leg) && slots[i].status in {Pending, Answered, NoAnswer}
    && forall j :: 0 <= j < i ==> slots[j].leg != Some(leg)
  }

  lemma CountsIsHeard(s: Session, leg: CallId)
    ensures Counts(s, leg) <==> Heard(s, leg)
  {
    var slot := FindLeg(Slots(s), leg);
    if slot.Some? && Heard(s, leg) && s.cfg.simultaneous {
      assert CountsAt(Slots(s), slot.value, leg);
    }
  }

  /** Some prompt has been played, and the event claims a winner all the same. */
  predicate LateClaim(w: World, e: Event) {
    && w.call.session.Some? && w.call.winner.None? && Prompts(w.call) > 0
    && Enabled(w, e) && e.AnswerReported? && e.kind in {CallBridged, Untyped} && Counts(w.call.session.value, e.leg)
  }

  lemma AnswerClaims(w: World, leg: CallId, kind: AnswerKind, now: nat, ok: bool)
    requires RingInv(w) && w.call.session.Some? && w.call.winner.None?
    ensures AnswerEvent(w.call, leg, kind, now, ok).winner.Some? <==> Confirms(kind) && Heard(w.call.session.value, leg)
  {
    AnswerCases(w.call, leg, kind, now, ok);
    var c1 := MarkConnecting(w.call, now);
    assert Heard(c1.session.value, leg) == Heard(w.call.session.value, leg);
    ClaimKeepsWinner(c1, leg, kind);
    NoteAnswerKeepsWinner(c1, leg, ok);
  }

  /** What claims a winner is a confirming answer on a leg that counts. */
  lemma ClaimStep(w: World, e: Event)
    requires RingInv(w) && w.call.session.Some? && w.call.winner.None?
    ensures Apply(w, e).call.winner.Some? <==>
              Enabled(w, e) && e.AnswerReported? && e.kind in {CallBridged, Untyped} && Counts(w.call.session.value, e.leg)
  {
    if Enabled(w, e) {
      match e
      case AnswerReported(leg, kind, _, now, ok) =>
        CountsIsHeard(w.call.session.value, leg);
        AnswerClaims(w, leg, kind, now, ok);
      case _ => NoClaim(w, e);
    }
  }

  lemma NoClaim(w: World, e: Event)
    requires RingInv(w) && w.call.session.Some? && w.call.winner.None? && !e.AnswerReported? && Enabled(w, e)
    ensures Apply(w, e).call.winner.None?
  {
    match e
    case DialEndReported(leg, answered, _, outcomes, now) => DialEndNoClaim(w.call, leg, answered, outcomes, now);
    case HangupReported(leg, _, outcomes, now) => HangupNoClaim(w.call, leg, outcomes, now);
    case _ =>
  }

  lemma DialEndNoClaim(c: Call, leg: CallId, answered: bool, outcomes: seq<Option<CallId>>, now: nat)
    requires c.session.Some? && c.winner.None? && c.session.value.cfg.simultaneous
    ensures DialEnded(c, leg, answered, outcomes, now).winner.None?
  {
  }

  lemma HangupNoClaim(c: Call, leg: CallId, outcomes: seq<Option<CallId>>, now: nat)
    requires c.session.Some? && c.winner.None? && c.session.value.cfg.simultaneous
    ensures LegHangup(c, leg, outcomes, now).winner.None?
  {
  }

  lemma {:induction false} QuietAfterClaim(w: World, es: seq<Event>, j: nat)
    requires RingInv(w) && j <= |es| && Run(w, es[..j]).call.winner.Some?
    ensures Prompts(Run(w, es).call) == Prompts(Run(w, es[..j]).call)
  {
    if j == |es| {
      assert es[..j] == es;
    } else {
      var front, last := es[..|es| - 1], es[|es| - 1];
      assert front[..j] == es[..j];
      QuietAfterClaim(w, front, j);
      RunRing(w, front);
      StepKeepsWinner(Run(w, front), last);
      if Run(w, front).call.session.Some? {
        WinnerStays(w, front, j);
        WonIsQuiet(Run(w, front), last);
      }
    }
  }

  /** The step at which the winner was claimed. */
  lemma {:induction false} WhenClaimed(w: World, es: seq<Event>, j: nat) returns (k: nat)
    requires w.call.winner.None? && j <= |es| && Run(w, es[..j]).call.winner.Some?
    ensures k < j && Run(w, es[..k]).call.winner.None? && Run(w, es[..k + 1]).call.winner.Some?
  {
    assert es[..0] == [];
    if Run(w, es[..j - 1]).call.winner.None? {
      k := j - 1;
    } else {
      k := WhenClaimed(w, es, j - 1);
    }
  }

  predicate Plays(w: World) {
    exists i :: 0 <= i < |w.call.trace| && w.call.trace[i].Speak?
  }

  predicate ClaimsIn(w: World, es: seq<Event>) {
    exists j :: 0 <= j <= |es| && Run(w, es[..j]).call.winner.Some?
  }

  predicate LateClaimIn(w: World, es: seq<Event>) {
    exists k :: 0 <= k < |es| && LateClaim(Run(w, es[..k]), es[k])
  }

  lemma StepAt(w: World, es: seq<Event>, k: nat)
    requires k < |es|
    ensures Run(w, es[..k + 1]) == Apply(Run(w, es[..k]), es[k])
  {
    assert es[..k + 1][..k] == es[..k];
  }

  lemma AnswerIsQuiet(v: World, e: Event)
    requires e.AnswerReported?
    ensures Prompts(Apply(v, e).call) == Prompts(v.call)
  {
    AnswerPrompts(v.call, e.leg, e.kind, e.now, e.bridgeAccepted);
  }

  lemma GoneClaimsNothing(v: World, e: Event)
    requires RingInv(v) && v.call.session.None?
    ensures Apply(v, e).call.winner.None?
  {
    StepSound(v, e);
    StepKeepsWinner(v, e);
  }

  lemma ClaimIsQuiet(v: World, e: Event)
    requires RingInv(v) && v.call.winner.None?
    ensures LateClaim(v, e) ==> Apply(v, e).call.winner.Some? && Prompts(Apply(v, e).call) == Prompts(v.call)
    ensures Apply(v, e).call.winner.Some? && Prompts(Apply(v, e).call) > 0 ==>
              LateClaim(v, e) && Prompts(Apply(v, e).call) == Prompts(v.call)
  {
    if v.call.session.None? {
      GoneClaimsNothing(v, e);
    } else {
      ClaimStep(v, e);
      if e.AnswerReported? {
        AnswerIsQuiet(v, e);
      }
    }
  }

  /** A late claim leaves both behind. */
  lemma LateClaimDoesBoth(w: World, es: seq<Event>, k: nat)
    requires RingInv(w) && k < |es| && LateClaim(Run(w, es[..k]), es[k])
    ensures Plays(Run(w, es)) && ClaimsIn(w, es)
  {
    RunRing(w, es[..k]);
    ClaimIsQuiet(Run(w, es[..k]), es[k]);
    StepAt(w, es, k);
    QuietAfterClaim(w, es, k + 1);
    SomePrompt(Run(w, es).call.trace);
  }

  lemma BothMeansLateClaim(w: World, es: seq<Event>, j: nat)
    requires RingInv(w) && w.call.winner.None? && Plays(Run(w, es))
    requires j <= |es| && Run(w, es[..j]).call.winner.Some?
    ensures LateClaimIn(w, es)
  {
    var k := WhenClaimed(w, es, j);
    RunRing(w, es[..k]);
    StepAt(w, es, k);
    QuietAfterClaim(w, es, k + 1);
    SomePrompt(Run(w, es).call.trace);
    ClaimIsQuiet(Run(w, es[..k]), es[k]);
  }

  /**
   A run plays a prompt and claims a winner exactly when at some moment after a prompt a bridge is
   confirmed on a leg that is on the list and neither cancelled nor failed.
   */
  lemma BothExactly(c: Call, outcomes: seq<Option<CallId>>, now: nat, es: seq<Event>)
    requires Fresh(c) && c.session.value.cfg.simultaneous
    ensures var w := Start(c, outcomes, now);
            Plays(Run(w, es)) && ClaimsIn(w, es) <==> LateClaimIn(w, es)
  {
    var w := Start(c, outcomes, now);
    StartRing(c, outcomes, now);
    if LateClaimIn(w, es) {
      var k :| 0 <= k < |es| && LateClaim(Run(w, es[..k]), es[k]);
      LateClaimDoesBoth(w, es, k);
    }
    if Plays(Run(w, es)) && ClaimsIn(w, es) {
      var j :| 0 <= j <= |es| && Run(w, es[..j]).call.winner.Some?;
      StartHasNoWinner(c, outcomes, now);
      BothMeansLateClaim(w, es, j);
    }
  }

  lemma StartHasNoWinner(c: Call, outcomes: seq<Option<CallId>>, now: nat)
    requires Fresh(c) && c.session.value.cfg.simultaneous
    ensures Start(c, outcomes, now).call.winner.None?
  {
  }

  lemma CountsWrittenOff(s: Session, leg: CallId)
    requires s.cfg.simultaneous && WrittenOff(Slots(s))
    ensures Counts(s, leg) <==> FindLeg(Slots(s), leg).Some? && Slots(s)[FindLeg(Slots(s), leg).value].status == NoAnswer
  {
    CountsIsHeard(s, leg);
  }

  /** After an orderly run that is a leg whose end has been reported before: its slot says so. */
  lemma LateClaimIsEndedLeg(c: Call, outcomes: seq<Option<CallId>>, now: nat, es: seq<Event>, e: Event)
    requires Fresh(c) && c.session.value.cfg.simultaneous && OrderlyRun(Start(c, outcomes, now), es)
    requires var call := Run(Start(c, outcomes, now), es).call;
             call.session.Some? && Prompts(call) > 0
    ensures var w := Run(Start(c, outcomes, now), es);
            var slots := Slots(w.call.session.value);
            Apply(w, e).call.winner.Some? <==>
              && Enabled(w, e) && e.AnswerReported? && e.kind in {CallBridged, Untyped} && FindLeg(slots, e.leg).Some?
              && slots[FindLeg(slots, e.leg).value].status == NoAnswer
  {
    StartRing(c, outcomes, now);
    StartApart(c, outcomes, now);
    RunApart(Start(c, outcomes, now), es);
    RunSound(Start(c, outcomes, now), es);
    var w := Run(Start(c, outcomes, now), es);
    ClaimStep(w, e);
    if e.AnswerReported? {
      CountsWrittenOff(w.call.session.value, e.leg);
    }
  }
}
