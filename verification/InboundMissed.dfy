/** A ring group's missed calls: one is noted with every prompt that a call of a group falls back to. */
module InboundMissed {
  import opened Options
  import opened CallState
  import opened InboundRules
  import opened InboundRuns
  import opened InboundAgreement
  import opened InboundCommands

  function Prompts(trace: seq<Command>): nat {
    multiset(trace)[Speak(VoicemailGreeting)] + multiset(trace)[Speak(Goodbye)]
  }

  predicate Noted(cfg: Config, trace: seq<Command>) {
    multiset(trace)[GroupMissed] == if cfg.ringGroup then Prompts(trace) else 0
  }

  lemma AddsNoted(cfg: Config, a: seq<Command>, b: seq<Command>, kinds: set<Kind>)
    requires Noted(cfg, a) && Adds(a, b, kinds) && Greeting !in kinds && Parting !in kinds && Missing !in kinds
    ensures Noted(cfg, b)
  {
    AddsKeeps(a, b, kinds, GroupMissed);
    AddsKeeps(a, b, kinds, Speak(VoicemailGreeting));
    AddsKeeps(a, b, kinds, Speak(Goodbye));
  }

  lemma PromptNoted(cfg: Config, a: seq<Command>, b: seq<Command>, prompt: Prompt)
    requires Noted(cfg, a) && b == a + (if cfg.ringGroup then [GroupMissed] else []) + [Speak(prompt)]
    ensures Noted(cfg, b)
  {
  }

  lemma FallbackTrace(c: Call)
    requires c.session.Some?
    ensures var cfg := c.session.value.cfg;
            && Adds(c.trace, EnsureAnswered(c).trace, {Other})
            && PlayFallback(c).trace == EnsureAnswered(c).trace + (if cfg.ringGroup then [GroupMissed] else [])
                                        + [Speak(if cfg.voicemailAllowed then VoicemailGreeting else Goodbye)]
  {
    var c1 := EnsureAnswered(c);
    assert c1.trace + [] == c1.trace;
  }

  lemma FallbackNoted(c: Call)
    requires c.session.Some? && Noted(c.session.value.cfg, c.trace)
    ensures Noted(c.session.value.cfg, PlayFallback(c).trace)
  {
    var cfg, answered := c.session.value.cfg, EnsureAnswered(c).trace;
    FallbackTrace(c);
    AddsNoted(cfg, c.trace, answered, {Other});
    PromptNoted(cfg, answered, PlayFallback(c).trace, if cfg.voicemailAllowed then VoicemailGreeting else Goodbye);
  }

  lemma RouteNoted(c: Call, now: nat)
    requires c.session.Some? && Noted(c.session.value.cfg, c.trace)
    ensures Noted(c.session.value.cfg, Route(c, now).trace)
  {
    FallbackNoted(c);
  }

  lemma {:induction false} DialNextNoted(c: Call, outcomes: seq<Option<CallId>>, now: nat)
    requires c.session.Some? && c.session.value.ringIndex < |c.session.value.cfg.targets|
    requires Noted(c.session.value.cfg, c.trace)
    ensures Noted(c.session.value.cfg, DialNext(c, outcomes, now).trace)
    decreases |c.session.value.cfg.targets| - c.session.value.ringIndex
  {
    var s := c.session.value;
    var i := s.ringIndex;
    var c1 := With(c, s.(stage := Ringing, activeTarget := Some(i)));
    var c2 := Issue(c1, [Dial(i)]);
    AddsNoted(s.cfg, c.trace, c2.trace, {Dialling});
    RouteNoted(c1, now);
    if !s.cfg.targets[i].dialable {
      DialAfterNoted(c1, outcomes, now);
    } else if s.cfg.appConfigured && Outcome(outcomes, i).None? {
      DialAfterNoted(c2, outcomes, now);
    }
  }

  lemma {:induction false} DialAfterNoted(c: Call, outcomes: seq<Option<CallId>>, now: nat)
    requires c.session.Some? && c.session.value.ringIndex < |c.session.value.cfg.targets|
    requires Noted(c.session.value.cfg, c.trace)
    ensures Noted(c.session.value.cfg, DialAfter(c, outcomes, now).trace)
    decreases |c.session.value.cfg.targets| - c.session.value.ringIndex, 0
  {
    var s := c.session.value;
    var next := With(c, s.(ringIndex := s.ringIndex + 1));
    if s.ringIndex + 1 < |s.cfg.targets| {
      DialNextNoted(next, outcomes, now);
    } else {
      RouteNoted(c, now);
      FallbackNoted(next);
    }
  }

  lemma AdvanceNoted(c: Call, outcomes: seq<Option<CallId>>, now: nat)
    requires c.session.Some? && Noted(c.session.value.cfg, c.trace)
    ensures Noted(c.session.value.cfg, Advance(c, outcomes, now).trace)
  {
    var next := With(c, c.session.value.(ringIndex := c.session.value.ringIndex + 1));
    if next.session.value.ringIndex < |c.session.value.cfg.targets| {
      DialNextNoted(next, outcomes, now);
    } else {
      RouteNoted(next, now);
    }
  }

  lemma LegEndedNoted(c: Call, leg: CallId, now: nat)
    requires c.session.Some? && Noted(c.session.value.cfg, c.trace)
    ensures Noted(c.session.value.cfg, SimultaneousLegEnded(c, leg, now).trace)
  {
    RouteNoted(SetSlots(c, MarkLeg(Slots(c.session.value), leg, NoAnswer)), now);
  }

  lemma FinishNoted(c: Call, now: nat)
    requires c.session.Some? && Noted(c.session.value.cfg, c.trace)
    ensures Noted(c.session.value.cfg, FinishDialling(c, now).trace)
  {
    var s, slots := c.session.value, Slots(c.session.value);
    RouteNoted(With(c, s.(primaryLeg := if slots != [] && slots[0].leg.Some? then slots[0].leg else s.primaryLeg)), now);
  }

  lemma DialEndNoted(c: Call, leg: CallId, answered: bool, outcomes: seq<Option<CallId>>, now: nat)
    requires c.session.Some? && Noted(c.session.value.cfg, c.trace)
    ensures Noted(c.session.value.cfg, DialEnded(c, leg, answered, outcomes, now).trace)
  {
    LegEndedNoted(c, leg, now);
    AdvanceNoted(c, outcomes, now);
  }

  lemma HangupNoted(c: Call, leg: CallId, outcomes: seq<Option<CallId>>, now: nat)
    requires c.session.Some? && Noted(c.session.value.cfg, c.trace)
    ensures Noted(c.session.value.cfg, LegHangup(c, leg, outcomes, now).trace)
  {
    LegEndedNoted(c, leg, now);
    AdvanceNoted(c, outcomes, now);
  }

  /** The ends of legs and of the dialling. */
  lemma EndNoted(w: World, e: Event)
    requires w.call.session.Some? && w.call.session.value.cfg == w.cfg && Noted(w.cfg, w.call.trace)
    requires e.DialsFinished? || e.DialEndReported? || e.HangupReported?
    ensures Noted(w.cfg, Apply(w, e).call.trace)
  {
    match e
    case DialsFinished(now) => FinishNoted(w.call, now);
    case DialEndReported(leg, answered, _, outcomes, now) => DialEndNoted(w.call, leg, answered, outcomes, now);
    case HangupReported(leg, _, outcomes, now) => HangupNoted(w.call, leg, outcomes, now);
    case _ =>
  }

  /** The other events issue neither prompts nor notes. */
  lemma AsideNoted(w: World, e: Event)
    requires Sound(w.call, w.cfg) && Claimed(w.call) && Noted(w.cfg, w.call.trace)
    requires !(e.DialsFinished? || e.DialEndReported? || e.HangupReported?)
    ensures Noted(w.cfg, Apply(w, e).call.trace)
  {
    var a, b := w.call.trace, Apply(w, e).call.trace;
    match e
    case AnswerReported(_, _, _, _, _) =>
      AnswerStepAdds(w, e);
      AddsNoted(w.cfg, a, b, {Recording, Crediting, Other});
    case PromptEnded(_) =>
      PromptStepAdds(w, e);
      AddsNoted(w.cfg, a, b, {HangingUp, Voicemail});
    case DialRegistered(i) =>
      if Enabled(w, e) {
        RegisterAdds(w.call, i, w.dials[i].result);
      }
      AddsNoted(w.cfg, a, b, {Other});
    case CallerHungUp(now) =>
      CallerHangupAdds(w.call, now);
      AddsNoted(w.cfg, a, b, {Other});
    case _ =>
  }

  lemma EventNoted(w: World, e: Event)
    requires Sound(w.call, w.cfg) && Claimed(w.call) && Noted(w.cfg, w.call.trace)
    ensures Noted(w.cfg, Apply(w, e).call.trace)
  {
    if w.call.session.None? {
      StepKeepsWinner(w, e);
    } else if e.DialsFinished? || e.DialEndReported? || e.HangupReported? {
      EndNoted(w, e);
    } else {
      AsideNoted(w, e);
    }
  }

  lemma StartNoted(c: Call, outcomes: seq<Option<CallId>>, now: nat)
    requires Fresh(c) && (c.session.value.cfg.simultaneous || c.session.value.cfg.targets != [])
    ensures Noted(c.session.value.cfg, Start(c, outcomes, now).call.trace)
  {
    var cfg := c.session.value.cfg;
    RouteNoted(c, now);
    if cfg.simultaneous {
      DialsAdd(cfg.targets);
      AddsNoted(cfg, [], DialCommands(cfg.targets), {Dialling});
    } else {
      DialNextNoted(c, outcomes, now);
    }
  }

  /**
   Over every run of a call with targets, a missed call is noted as often as a prompt is played if
   the call rings a group, and never if it does not.
   */
  lemma {:induction false} MissedExactly(c: Call, outcomes: seq<Option<CallId>>, now: nat, es: seq<Event>)
    requires Fresh(c) && (c.session.value.cfg.simultaneous || c.session.value.cfg.targets != [])
    ensures var trace := multiset(Run(Start(c, outcomes, now), es).call.trace);
            trace[GroupMissed] == if c.session.value.cfg.ringGroup
                                  then trace[Speak(VoicemailGreeting)] + trace[Speak(Goodbye)] else 0
  {
    var w := Start(c, outcomes, now);
    if es == [] {
      StartNoted(c, outcomes, now);
    } else {
      var front := es[..|es| - 1];
      MissedExactly(c, outcomes, now, front);
      StartSound(c, outcomes, now);
      StartMarks(c, outcomes, now);
      RunMarks(w, front);
      EventNoted(Run(w, front), es[|es| - 1]);
    }
  }
}
