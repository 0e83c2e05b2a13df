/**
 What holds of a call in every state, in both ring modes: agreement on the winner, effects that
 happen at most once, and ring-first calls answered before any prompt.
 */
module InboundAgreement {
  import opened Options
  import opened CallState
  import opened InboundRules
  import opened InboundRuns

  /** How often each once-only command is in a trace; `answeredFirst` watches the prompts. */
  datatype Tally = Tally(records: nat, wins: nat, answers: nat, bridges: nat, prompts: nat, answeredFirst: bool)

  function Add(t: Tally, c: Command): Tally {
    match c
    case RecordCall => t.(records := t.records + 1)
    case GroupAnswered(_) => t.(wins := t.wins + 1)
    case AnswerCaller => t.(answers := t.answers + 1)
    case BridgeCaller(_, accepted) => if accepted then t.(bridges := t.bridges + 1) else t
    case Speak(_) => t.(prompts := t.prompts + 1, answeredFirst := t.answeredFirst && t.answers > 0)
    case _ => t
  }

  function TallyOf(trace: seq<Command>): Tally {
    if trace == [] then Tally(0, 0, 0, 0, 0, true)
    else Add(TallyOf(trace[..|trace| - 1]), trace[|trace| - 1])
  }

  lemma TallyPush(trace: seq<Command>, c: Command)
    ensures TallyOf(trace + [c]) == Add(TallyOf(trace), c)
  {
    assert (trace + [c])[..|trace + [c]| - 1] == trace;
  }

  predicate Quiet(c: Command) {
    c.Dial? || c.Hangup? || c.HangupCaller? || c.RecordVoicemail? || c.GroupMissed?
  }

  lemma {:induction false} TallyQuiet(trace: seq<Command>, cmds: seq<Command>)
    requires forall c :: c in cmds ==> Quiet(c)
    ensures TallyOf(trace + cmds) == TallyOf(trace)
  {
    if cmds == [] {
      assert trace + cmds == trace;
    } else {
      var front, last := cmds[..|cmds| - 1], cmds[|cmds| - 1];
      TallyQuiet(trace, front);
      TallyPush(trace + front, last);
      assert trace + cmds == trace + front + [last];
      assert last in cmds;
    }
  }

  lemma {:induction false} PromptsCounted(trace: seq<Command>, p: Prompt)
    requires Speak(p) in trace
    ensures TallyOf(trace).prompts > 0
  {
    var front, last := trace[..|trace| - 1], trace[|trace| - 1];
    if last != Speak(p) {
      assert trace == front + [last];
      PromptsCounted(front, p);
    }
  }

  /** The session's record of the winner is the claim's, or there is neither. */
  predicate Agrees(c: Call) {
    match c.session
    case None => c.winner.None? && c.effects == {}
    case Some(s) =>
      && s.winnerLeg == c.winner && s.connectedLeg == c.winner
      && s.activeBridge == s.connectedAt == c.winner.Some?
      && (s.stage == Bridged ==> c.winner.Some?)
      && forall leg :: leg in c.effects ==> c.winner == Some(leg)
  }

  /** Recording and the ring group's answer happened at most once, and only with a winner. */
  predicate Once(c: Call, t: Tally) {
    && t.records <= 1 && t.wins <= 1
    && (c.session.Some? ==> (t.records == 1 ==> c.effects != {}) && (t.wins == 1 ==> c.winner.Some?))
  }

  /** The parked leg is either answered or bridged, once; prompts need it answered. */
  predicate Parked(c: Call, ringFirst: bool, t: Tally) {
    if !ringFirst then
      t.answers == t.bridges == 0 && (c.session.Some? ==> c.session.value.pstnAnswered)
    else
      && t.answers + t.bridges <= 1
      && t.answeredFirst
      && (t.prompts > 0 ==> t.answers == 1)
      && (c.session.Some? ==>
           var s := c.session.value;
           && s.pstnAnswered == (t.answers + t.bridges == 1)
           && (!s.pstnAnswered ==> s.deferAnswer)
           && (t.bridges == 1 ==> s.stage == Connecting || s.stage == Bridged))
  }

  /** With the tally of the trace as an argument. */
  predicate SoundWith(c: Call, cfg: Config, t: Tally) {
    && Agrees(c) && Once(c, t) && Parked(c, cfg.ringFirst, t)
    && (c.session.Some? ==> c.session.value.cfg == cfg)
  }

  predicate Sound(c: Call, cfg: Config) {
    SoundWith(c, cfg, TallyOf(c.trace))
  }

  predicate SameStage(a: Stage, b: Stage) {
    a == b || (a !in {Connecting, Bridged} && b !in {Connecting, Bridged})
  }

  /** What is sound of one is sound of the other. */
  predicate Alike(c: Call, c': Call) {
    && c.session.Some? && c'.session.Some?
    && c'.winner == c.winner && c'.effects == c.effects && c'.trace == c.trace
    && var s, s' := c.session.value, c'.session.value;
       && s'.cfg == s.cfg && s'.winnerLeg == s.winnerLeg && s'.connectedLeg == s.connectedLeg
       && s'.activeBridge == s.activeBridge && s'.connectedAt == s.connectedAt
       && s'.pstnAnswered == s.pstnAnswered && s'.deferAnswer == s.deferAnswer
       && SameStage(s.stage, s'.stage)
  }

  lemma AlikeSound(c: Call, c': Call, cfg: Config)
    requires Sound(c, cfg) && Alike(c, c')
    ensures Sound(c', cfg)
  {
    AlikeWith(c, c', cfg, TallyOf(c.trace));
  }

  lemma AlikeWith(c: Call, c': Call, cfg: Config, t: Tally)
    requires SoundWith(c, cfg, t) && Alike(c, c')
    ensures SoundWith(c', cfg, t)
  {
  }

  // ---- each rule keeps it ----

  lemma IssueQuiet(c: Call, cmds: seq<Command>, cfg: Config)
    requires Sound(c, cfg)
    requires forall x :: x in cmds ==> Quiet(x)
    ensures Sound(Issue(c, cmds), cfg)
  {
    TallyQuiet(c.trace, cmds);
  }

  lemma HangupsAreQuiet(slots: seq<Slot>, keep: set<CallId>)
    ensures forall c :: c in HangupsFor(slots, keep) ==> Quiet(c)
  {
    forall c | c in HangupsFor(slots, keep) ensures Quiet(c) {
      HangupsForExact(slots, keep, c);
    }
  }

  lemma {:induction false} DialsAreQuiet(targets: seq<Target>)
    ensures forall c :: c in DialCommands(targets) ==> Quiet(c)
  {
    if targets != [] {
      DialsAreQuiet(targets[..|targets| - 1]);
    }
  }

  lemma AnswerCallerWith(c: Call, cfg: Config, t: Tally)
    requires SoundWith(c, cfg, t) && c.session.Some?
    requires !c.session.value.pstnAnswered && c.session.value.deferAnswer
    ensures SoundWith(EnsureAnswered(c), cfg, Add(t, AnswerCaller))
  {
  }

  lemma EnsureSound(c: Call, cfg: Config)
    requires Sound(c, cfg) && c.session.Some?
    ensures Sound(EnsureAnswered(c), cfg)
    ensures EnsureAnswered(c).session.value.pstnAnswered
    ensures EnsureAnswered(c).winner == c.winner
    ensures EnsureAnswered(c).session.value.stage == c.session.value.stage
  {
    TallyPush(c.trace, AnswerCaller);
    if !c.session.value.pstnAnswered {
      AnswerCallerWith(c, cfg, TallyOf(c.trace));
    }
  }

  lemma PromptSound(c: Call, p: Prompt, cfg: Config)
    requires Sound(c, cfg) && c.session.Some? && c.session.value.pstnAnswered
    requires c.session.value.stage !in {Connecting, Bridged}
    ensures Sound(Issue(c, [Speak(p)]), cfg)
  {
    TallyPush(c.trace, Speak(p));
  }

  lemma PlayFallbackSound(c: Call, cfg: Config)
    requires Sound(c, cfg) && c.session.Some? && c.session.value.stage !in {Connecting, Bridged}
    ensures Sound(PlayFallback(c), cfg)
  {
    var c1 := EnsureAnswered(c);
    EnsureSound(c, cfg);
    var c2 := if cfg.ringGroup then Issue(c1, [GroupMissed]) else c1;
    IssueQuiet(c1, [GroupMissed], cfg);
    var s := c2.session.value;
    if cfg.voicemailAllowed {
      PromptSound(With(c2, s.(stage := VoicemailPrompt)), VoicemailGreeting, cfg);
    } else {
      PromptSound(c2, Goodbye, cfg);
    }
  }

  lemma RouteSound(c: Call, now: nat, cfg: Config)
    requires Sound(c, cfg) && c.session.Some?
    ensures Sound(Route(c, now), cfg)
  {
    if !ActiveWinner(c, now) {
      PlayFallbackSound(c, cfg);
    }
  }

  lemma EffectsWith(c: Call, leg: CallId, cfg: Config, t: Tally)
    requires SoundWith(c, cfg, t) && c.session.Some? && c.winner == Some(leg) && leg !in c.effects
    ensures SoundWith(ApplyEffects(c, leg), cfg, if c.session.value.cfg.recordingAllowed then Add(t, RecordCall) else t)
  {
    assert c.effects == {};
  }

  lemma ApplyEffectsSound(c: Call, leg: CallId, cfg: Config)
    requires Sound(c, cfg) && c.session.Some? && c.winner == Some(leg)
    ensures Sound(ApplyEffects(c, leg), cfg)
  {
    if leg !in c.effects {
      TallyPush(c.trace, RecordCall);
      EffectsWith(c, leg, cfg, TallyOf(c.trace));
    }
  }

  /** The winner's record right after its claim: only the tallies of `Once` still lag behind. */
  lemma BridgedSound(c: Call, leg: CallId, cfg: Config)
    requires Sound(c, cfg) && c.session.Some? && (c.winner.None? || c.winner == Some(leg))
    ensures var c1 := MarkBridged(c.(winner := Some(leg)), leg);
            Sound(c1, cfg) && c1.session.Some? && c1.winner == Some(leg) && c1.trace == c.trace
  {
  }

  lemma SettleSound(c: Call, leg: CallId, cfg: Config)
    requires Sound(c, cfg) && c.session.Some? && c.winner == Some(leg)
    ensures var c1 := SettleRace(c, leg);
            Sound(c1, cfg) && c1.session.Some? && c1.winner == Some(leg) && TallyOf(c1.trace) == TallyOf(c.trace)
  {
    var s := c.session.value;
    var slots := MarkLeg(Slots(s), leg, Answered);
    HangupsAreQuiet(slots, Keep(s, leg));
    TallyQuiet(c.trace, HangupsFor(slots, Keep(s, leg)));
  }

  lemma GroupAnsweredSound(c: Call, member: Option<Member>, cfg: Config)
    requires Sound(c, cfg) && c.winner.Some? && TallyOf(c.trace).wins == 0
    ensures Sound(Issue(c, [GroupAnswered(member)]), cfg)
  {
    TallyPush(c.trace, GroupAnswered(member));
  }

  lemma EffectsTally(c: Call, leg: CallId)
    requires c.session.Some?
    ensures TallyOf(ApplyEffects(c, leg).trace).wins == TallyOf(c.trace).wins
    ensures ApplyEffects(c, leg).winner == c.winner
  {
    TallyPush(c.trace, RecordCall);
  }

  lemma WinSound(c: Call, leg: CallId, cfg: Config)
    requires Sound(c, cfg) && c.session.Some? && c.winner.None?
    ensures Sound(Win(c, leg), cfg)
  {
    var c1 := MarkBridged(c.(winner := Some(leg)), leg);
    BridgedSound(c, leg, cfg);
    SettleSound(c1, leg, cfg);
    var c2 := if c1.session.value.cfg.simultaneous then SettleRace(c1, leg) else c1;
    ApplyEffectsSound(c2, leg, cfg);
    EffectsTally(c2, leg);
    var c3 := ApplyEffects(c2, leg);
    GroupAnsweredSound(c3, CreditedMember(c3.session.value), cfg);
  }

  lemma SetSlotsSound(c: Call, slots: seq<Slot>, cfg: Config)
    requires Sound(c, cfg) && c.session.Some?
    ensures Sound(SetSlots(c, slots), cfg)
  {
  }

  lemma ClaimSound(c: Call, leg: CallId, kind: AnswerKind, cfg: Config)
    requires Sound(c, cfg) && c.session.Some?
    ensures Sound(Claim(c, leg, kind), cfg)
  {
    match c.winner
    case None => WinSound(c, leg, cfg);
    case Some(winner) =>
      if winner == leg || kind == CallBridged {
        BridgedSound(c, winner, cfg);
        ApplyEffectsSound(RebridgeIfNeeded(c, winner), winner, cfg);
      } else {
        var slots := MarkLeg(Slots(c.session.value), leg, Cancelled);
        SetSlotsSound(c, slots, cfg);
        IssueQuiet(SetSlots(c, slots), [Hangup(leg)], cfg);
      }
  }

  lemma BridgeCallerSound(c: Call, leg: CallId, ok: bool, cfg: Config)
    requires Sound(c, cfg) && c.session.Some? && c.session.value.stage in {Connecting, Bridged}
    requires c.session.value.deferAnswer && !c.session.value.pstnAnswered
    ensures Sound(Issue(With(c, c.session.value.(pstnAnswered := ok)), [BridgeCaller(leg, ok)]), cfg)
  {
    TallyPush(c.trace, BridgeCaller(leg, ok));
  }

  lemma NoteAnswerSound(c: Call, leg: CallId, ok: bool, cfg: Config)
    requires Sound(c, cfg) && c.session.Some? && c.session.value.stage in {Connecting, Bridged}
    ensures Sound(NoteAnswer(c, leg, ok), cfg)
  {
    var c1 := SetSlots(c, MarkLeg(Slots(c.session.value), leg, Answered));
    SetSlotsSound(c, MarkLeg(Slots(c.session.value), leg, Answered), cfg);
    if c1.session.value.deferAnswer && !c1.session.value.pstnAnswered {
      BridgeCallerSound(c1, leg, ok, cfg);
    }
  }

  lemma AnswerSound(c: Call, leg: CallId, kind: AnswerKind, now: nat, ok: bool, cfg: Config)
    requires Sound(c, cfg)
    ensures Sound(AnswerEvent(c, leg, kind, now, ok), cfg)
  {
    if c.session.Some? {
      var c1 := MarkConnecting(c, now);
      ConnectingSound(c, now, cfg);
      if AlreadyBridgedTo(c1.session.value, leg) {
        ApplyEffectsSound(c1, leg, cfg);
      } else if Confirms(kind) {
        ClaimSound(c1, leg, kind, cfg);
      } else {
        NoteAnswerSound(c1, leg, ok, cfg);
      }
    }
  }

  lemma ConnectingSound(c: Call, now: nat, cfg: Config)
    requires Sound(c, cfg) && c.session.Some?
    ensures Sound(MarkConnecting(c, now), cfg)
    ensures MarkConnecting(c, now).session.value.stage in {Connecting, Bridged}
  {
  }

  lemma RegisterSound(c: Call, target: nat, result: Option<CallId>, cfg: Config)
    requires Sound(c, cfg)
    ensures Sound(RegisterDial(c, target, result), cfg)
  {
    if c.session.Some? && result.Some? {
      IssueQuiet(SetSlots(c, MarkTarget(Slots(c.session.value), target, Cancelled)), [Hangup(result.value)], cfg);
    }
  }

  /** The steps of `dialNextTarget` around its dial. */
  lemma TryTarget(c: Call, i: nat, cfg: Config) returns (c1: Call, c2: Call)
    requires Sound(c, cfg) && c.session.Some? && c.session.value.stage !in {Connecting, Bridged}
    ensures c1 == With(c, c.session.value.(stage := Ringing, activeTarget := Some(i))) && c2 == Issue(c1, [Dial(i)])
    ensures Sound(c1, cfg) && Sound(c2, cfg) && c1.session.value.cfg == cfg
  {
    c1 := With(c, c.session.value.(stage := Ringing, activeTarget := Some(i)));
    c2 := Issue(c1, [Dial(i)]);
    AlikeSound(c, c1, cfg);
    IssueQuiet(c1, [Dial(i)], cfg);
  }

  lemma DialledSound(c: Call, leg: CallId, sip: Option<Sip>, index: set<CallId>, cfg: Config)
    requires Sound(c, cfg) && c.session.Some?
    ensures Sound(DialAccepted(With(c, c.session.value.(primaryLeg := Some(leg))), sip).(index := index), cfg)
  {
    AlikeSound(c, DialAccepted(With(c, c.session.value.(primaryLeg := Some(leg))), sip).(index := index), cfg);
  }

  lemma {:induction false} DialNextSound(c: Call, outcomes: seq<Option<CallId>>, now: nat, cfg: Config)
    requires Sound(c, cfg) && c.session.Some? && c.session.value.stage !in {Connecting, Bridged}
    ensures Sound(DialNext(c, outcomes, now), cfg)
    decreases |cfg.targets| - c.session.value.ringIndex
  {
    var i := c.session.value.ringIndex;
    if i >= |cfg.targets| {
      EnsureSound(c, cfg);
      PromptSound(EnsureAnswered(c), Goodbye, cfg);
    } else {
      var c1, c2 := TryTarget(c, i, cfg);
      if !cfg.targets[i].dialable {
        DialAfterSound(c1, outcomes, now, cfg);
      } else if !cfg.appConfigured {
        RouteSound(c1, now, cfg);
      } else {
        match Outcome(outcomes, i)
        case None => DialAfterSound(c2, outcomes, now, cfg);
        case Some(leg) => DialledSound(c2, leg, cfg.targets[i].sip, c.index + {leg}, cfg);
      }
    }
  }

  lemma {:induction false} DialAfterSound(c: Call, outcomes: seq<Option<CallId>>, now: nat, cfg: Config)
    requires Sound(c, cfg) && c.session.Some? && c.session.value.stage !in {Connecting, Bridged}
    requires c.session.value.ringIndex < |cfg.targets|
    ensures Sound(DialAfter(c, outcomes, now), cfg)
    decreases |cfg.targets| - c.session.value.ringIndex, 0
  {
    var next := With(c, c.session.value.(ringIndex := c.session.value.ringIndex + 1));
    AlikeSound(c, next, cfg);
    if c.session.value.ringIndex + 1 < |cfg.targets| {
      DialNextSound(next, outcomes, now, cfg);
    } else {
      LastTargetSound(c, next, now, cfg);
    }
  }

  lemma LastCases(c: Call, next: Call, now: nat)
    requires c.session.Some? && next == With(c, c.session.value.(ringIndex := c.session.value.ringIndex + 1))
    ensures AfterLast(c, now) in {c, PlayFallback(next), Route(c, now)}
  {
  }

  lemma LastTargetSound(c: Call, next: Call, now: nat, cfg: Config)
    requires Sound(c, cfg) && c.session.Some? && c.session.value.stage !in {Connecting, Bridged}
    requires next == With(c, c.session.value.(ringIndex := c.session.value.ringIndex + 1)) && Sound(next, cfg)
    ensures Sound(AfterLast(c, now), cfg)
  {
    LastCases(c, next, now);
    PlayFallbackSound(next, cfg);
    RouteSound(c, now, cfg);
    OneOfSound(AfterLast(c, now), c, PlayFallback(next), Route(c, now), cfg);
  }

  lemma OneOfSound(c: Call, a: Call, b: Call, d: Call, cfg: Config)
    requires c in {a, b, d} && Sound(a, cfg) && Sound(b, cfg) && Sound(d, cfg)
    ensures Sound(c, cfg)
  {
  }

  lemma AdvanceSound(c: Call, outcomes: seq<Option<CallId>>, now: nat, cfg: Config)
    requires Sound(c, cfg) && c.session.Some? && c.session.value.stage !in {Connecting, Bridged}
    ensures Sound(Advance(c, outcomes, now), cfg)
  {
    var s := c.session.value;
    var next := With(c, s.(ringIndex := s.ringIndex + 1));
    DialNextSound(next, outcomes, now, cfg);
    RouteSound(next, now, cfg);
  }

  lemma SimultaneousEndSound(c: Call, leg: CallId, now: nat, cfg: Config)
    requires Sound(c, cfg) && c.session.Some?
    ensures Sound(SimultaneousLegEnded(c, leg, now), cfg)
  {
    RouteSound(SetSlots(c, MarkLeg(Slots(c.session.value), leg, NoAnswer)), now, cfg);
  }

  lemma CleanupSound(c: Call, cfg: Config)
    requires Sound(c, cfg) && c.session.Some?
    ensures Sound(Cleanup(c), cfg)
  {
  }

  lemma StartSound(c: Call, outcomes: seq<Option<CallId>>, now: nat)
    requires Fresh(c)
    ensures Sound(Start(c, outcomes, now).call, c.session.value.cfg)
  {
    var s := c.session.value;
    assert Sound(c, s.cfg);
    if s.cfg.simultaneous {
      RouteSound(c, now, s.cfg);
      DialsAreQuiet(s.cfg.targets);
      IssueQuiet(With(c, s.(stage := Ringing, legs := Some(Reserved(|s.cfg.targets|)),
                            connectedLeg := None, primaryLeg := None, activeTarget := None)),
                 DialCommands(s.cfg.targets), s.cfg);
    } else {
      DialNextSound(c, outcomes, now, s.cfg);
    }
  }

  lemma DialEndSound(c: Call, leg: CallId, answered: bool, outcomes: seq<Option<CallId>>, now: nat, cfg: Config)
    requires Sound(c, cfg)
    ensures Sound(DialEnded(c, leg, answered, outcomes, now), cfg)
  {
    if c.session.Some? && c.session.value.stage == Ringing {
      AdvanceSound(c, outcomes, now, cfg);
      SimultaneousEndSound(c, leg, now, cfg);
    }
  }

  lemma LegHangupSound(c: Call, leg: CallId, outcomes: seq<Option<CallId>>, now: nat, cfg: Config)
    requires Sound(c, cfg)
    ensures Sound(LegHangup(c, leg, outcomes, now), cfg)
  {
    if c.session.Some? {
      CleanupSound(c, cfg);
      SetSlotsSound(c, MarkLeg(Slots(c.session.value), leg, Cancelled), cfg);
      if c.session.value.stage == Ringing {
        AdvanceSound(c, outcomes, now, cfg);
        SimultaneousEndSound(c, leg, now, cfg);
      }
    }
  }

  lemma CallerHangupSound(c: Call, now: nat, cfg: Config)
    requires Sound(c, cfg)
    ensures Sound(CallerHangup(c, now), cfg)
  {
    if c.session.Some? {
      var slots := Slots(c.session.value);
      HangupsAreQuiet(slots, {});
      IssueQuiet(SetSlots(c, CancelPending(slots, {})), HangupsFor(slots, {}), cfg);
      CleanupSound(CancelAll(c), cfg);
      CleanupSound(c, cfg);
    }
  }

  lemma FinishSound(c: Call, now: nat, cfg: Config)
    requires Sound(c, cfg)
    ensures Sound(FinishDialling(c, now), cfg)
  {
    if c.session.Some? {
      var s := c.session.value;
      var slots := Slots(s);
      var primary := if slots != [] && slots[0].leg.Some? then slots[0].leg else s.primaryLeg;
      RouteSound(With(c, s.(primaryLeg := primary)), now, cfg);
    }
  }

  lemma PromptEndedSound(c: Call, prompt: Prompt, cfg: Config)
    requires Sound(c, cfg) && Speak(prompt) in c.trace
    ensures Sound(SpeakEnded(c, prompt), cfg)
  {
    PromptsCounted(c.trace, prompt);
    IssueQuiet(c, [HangupCaller], cfg);
    if c.session.Some? {
      IssueQuiet(With(c, c.session.value.(stage := VoicemailRecord)), [RecordVoicemail], cfg);
    }
  }

  lemma StepSound(w: World, e: Event)
    requires Sound(w.call, w.cfg)
    ensures Sound(Apply(w, e).call, w.cfg) && Apply(w, e).cfg == w.cfg
  {
    if Enabled(w, e) {
      match e
      case AnswerReported(leg, kind, _, now, ok) => AnswerSound(w.call, leg, kind, now, ok, w.cfg);
      case DialRegistered(i) => RegisterSound(w.call, i, w.dials[i].result, w.cfg);
      case DialsFinished(now) => FinishSound(w.call, now, w.cfg);
      case DialEndReported(leg, answered, _, outcomes, now) => DialEndSound(w.call, leg, answered, outcomes, now, w.cfg);
      case HangupReported(leg, _, outcomes, now) => LegHangupSound(w.call, leg, outcomes, now, w.cfg);
      case CallerHungUp(now) => CallerHangupSound(w.call, now, w.cfg);
      case PromptEnded(prompt) => PromptEndedSound(w.call, prompt, w.cfg);
      case _ =>
    }
  }

  lemma {:induction false} RunSound(w: World, es: seq<Event>)
    requires Sound(w.call, w.cfg)
    ensures Sound(Run(w, es).call, w.cfg) && Run(w, es).cfg == w.cfg
  {
    if es != [] {
      RunSound(w, es[..|es| - 1]);
      StepSound(Run(w, es[..|es| - 1]), es[|es| - 1]);
    }
  }

  // ---- a claim is for good ----

  lemma {:induction false} DialNextKeepsWinner(c: Call, outcomes: seq<Option<CallId>>, now: nat)
    requires c.session.Some?
    ensures DialNext(c, outcomes, now).session.Some? && DialNext(c, outcomes, now).winner == c.winner
    decreases |c.session.value.cfg.targets| - c.session.value.ringIndex
  {
    var s := c.session.value;
    var i := s.ringIndex;
    if i < |s.cfg.targets| {
      var c1 := With(c, s.(stage := Ringing, activeTarget := Some(i)));
      if !s.cfg.targets[i].dialable {
        DialAfterKeepsWinner(c1, outcomes, now);
      } else if s.cfg.appConfigured && Outcome(outcomes, i).None? {
        DialAfterKeepsWinner(Issue(c1, [Dial(i)]), outcomes, now);
      }
    }
  }

  lemma {:induction false} DialAfterKeepsWinner(c: Call, outcomes: seq<Option<CallId>>, now: nat)
    requires c.session.Some? && c.session.value.ringIndex < |c.session.value.cfg.targets|
    ensures DialAfter(c, outcomes, now).session.Some? && DialAfter(c, outcomes, now).winner == c.winner
    decreases |c.session.value.cfg.targets| - c.session.value.ringIndex, 0
  {
    var s := c.session.value;
    if s.ringIndex + 1 < |s.cfg.targets| {
      DialNextKeepsWinner(With(c, s.(ringIndex := s.ringIndex + 1)), outcomes, now);
    }
  }

  lemma AdvanceKeepsWinner(c: Call, outcomes: seq<Option<CallId>>, now: nat)
    requires c.session.Some?
    ensures Advance(c, outcomes, now).session.Some? && Advance(c, outcomes, now).winner == c.winner
  {
    var s := c.session.value;
    DialNextKeepsWinner(With(c, s.(ringIndex := s.ringIndex + 1)), outcomes, now);
  }

  lemma ClaimKeepsWinner(c: Call, leg: CallId, kind: AnswerKind)
    requires c.session.Some?
    ensures Claim(c, leg, kind).session.Some?
    ensures Claim(c, leg, kind).winner == if c.winner.Some? then c.winner else Some(leg)
  {
  }

  lemma NoteAnswerKeepsWinner(c: Call, leg: CallId, ok: bool)
    requires c.session.Some?
    ensures NoteAnswer(c, leg, ok).session.Some? && NoteAnswer(c, leg, ok).winner == c.winner
  {
  }

  lemma AnswerKeepsWinner(c: Call, leg: CallId, kind: AnswerKind, now: nat, ok: bool)
    ensures AnswerEvent(c, leg, kind, now, ok).session.Some? == c.session.Some?
    ensures c.winner.Some? ==> AnswerEvent(c, leg, kind, now, ok).winner == c.winner
  {
    if c.session.Some? {
      var c1 := MarkConnecting(c, now);
      if AlreadyBridgedTo(c1.session.value, leg) {
      } else if Confirms(kind) {
        ClaimKeepsWinner(c1, leg, kind);
      } else {
        NoteAnswerKeepsWinner(c1, leg, ok);
      }
    }
  }

  /** Nothing revives a cleaned-up call, and nothing moves a claim while the call lasts. */
  lemma StepKeepsWinner(w: World, e: Event)
    ensures var c, c' := w.call, Apply(w, e).call;
            && (c.session.None? ==> c'.session.None? && c'.trace == c.trace)
            && (c.winner.Some? && c'.session.Some? ==> c'.winner == c.winner)
  {
    if Enabled(w, e) && w.call.session.Some? {
      match e
      case AnswerReported(leg, kind, _, now, ok) => AnswerKeepsWinner(w.call, leg, kind, now, ok);
      case DialEndReported(_, _, _, outcomes, now) => AdvanceKeepsWinner(w.call, outcomes, now);
      case HangupReported(_, _, outcomes, now) => AdvanceKeepsWinner(w.call, outcomes, now);
      case _ =>
    }
  }

  lemma {:induction false} GoneStaysGone(w: World, es: seq<Event>, j: nat)
    requires j <= |es| && Run(w, es[..j]).call.session.None?
    ensures Run(w, es).call.session.None? && Run(w, es).call.trace == Run(w, es[..j]).call.trace
  {
    if j == |es| {
      assert es[..j] == es;
    } else {
      var front := es[..|es| - 1];
      assert front[..j] == es[..j];
      GoneStaysGone(w, front, j);
      StepKeepsWinner(Run(w, front), es[|es| - 1]);
    }
  }

  lemma {:induction false} WinnerStays(w: World, es: seq<Event>, j: nat)
    requires j <= |es| && Run(w, es[..j]).call.winner.Some? && Run(w, es).call.session.Some?
    ensures Run(w, es).call.winner == Run(w, es[..j]).call.winner
  {
    if j == |es| {
      assert es[..j] == es;
    } else {
      var front, last := es[..|es| - 1], es[|es| - 1];
      assert front[..j] == es[..j];
      StepKeepsWinner(Run(w, front), last);
      WinnerStays(w, front, j);
    }
  }

  // ---- the main results, for both ring modes ----

  /**
   In every state of every run, the winner and connected leg on the record are the claimed leg;
   and once a leg holds the claim, it is the one recorded until the call is cleaned up.
   */
  lemma WinnerAgreement(c: Call, outcomes: seq<Option<CallId>>, now: nat, es: seq<Event>, j: nat)
    requires Fresh(c) && j <= |es|
    ensures var w := Start(c, outcomes, now);
            Run(w, es).call.session.Some? ==>
              && var s, then_, end := Run(w, es).call.session.value, Run(w, es[..j]).call, Run(w, es).call;
                 s.winnerLeg == s.connectedLeg == end.winner && (then_.winner.Some? ==> end.winner == then_.winner)
  {
    var w := Start(c, outcomes, now);
    StartSound(c, outcomes, now);
    RunSound(w, es);
    if Run(w, es).call.session.Some? && Run(w, es[..j]).call.winner.Some? {
      WinnerStays(w, es, j);
    }
  }

  lemma {:induction false} TallyAtMostOne(trace: seq<Command>, i: nat, j: nat)
    requires i < j < |trace|
    ensures trace[i].RecordCall? && trace[j].RecordCall? ==> TallyOf(trace).records >= 2
    ensures trace[i].GroupAnswered? && trace[j].GroupAnswered? ==> TallyOf(trace).wins >= 2
    ensures IsAccepting(trace[i]) && IsAccepting(trace[j]) ==> TallyOf(trace).answers + TallyOf(trace).bridges >= 2
  {
    var front := trace[..|trace| - 1];
    if j < |front| {
      TallyAtMostOne(front, i, j);
    } else {
      TallyCounts(front, i);
    }
  }

  /** The two commands that take the parked caller off hold. */
  predicate IsAccepting(c: Command) {
    c.AnswerCaller? || (c.BridgeCaller? && c.accepted)
  }

  lemma {:induction false} TallyCounts(trace: seq<Command>, i: nat)
    requires i < |trace|
    ensures trace[i].RecordCall? ==> TallyOf(trace).records >= 1
    ensures trace[i].GroupAnswered? ==> TallyOf(trace).wins >= 1
    ensures trace[i].Speak? ==> TallyOf(trace).prompts >= 1
    ensures IsAccepting(trace[i]) ==> TallyOf(trace).answers + TallyOf(trace).bridges >= 1
  {
    if i < |trace| - 1 {
      TallyCounts(trace[..|trace| - 1], i);
    }
  }

  /**
   Over a whole run, the call recording starts at most once and the ring group's answer is
   recorded at most once; either one while the call lasts means that a leg holds the claim.
   */
  lemma EffectsHappenOnce(c: Call, outcomes: seq<Option<CallId>>, now: nat, es: seq<Event>)
    requires Fresh(c)
    ensures var end := Run(Start(c, outcomes, now), es).call;
            && (forall i, j :: 0 <= i < j < |end.trace| ==> !(end.trace[i].RecordCall? && end.trace[j].RecordCall?))
            && (forall i, j :: 0 <= i < j < |end.trace| ==> !(end.trace[i].GroupAnswered? && end.trace[j].GroupAnswered?))
            && (end.session.Some? && (exists i :: 0 <= i < |end.trace| && (end.trace[i].RecordCall? || end.trace[i].GroupAnswered?))
                ==> end.winner.Some?)
  {
    var w := Start(c, outcomes, now);
    StartSound(c, outcomes, now);
    RunSound(w, es);
    var trace := Run(w, es).call.trace;
    forall i, j | 0 <= i < j < |trace|
      ensures !(trace[i].RecordCall? && trace[j].RecordCall?) && !(trace[i].GroupAnswered? && trace[j].GroupAnswered?)
    {
      TallyAtMostOne(trace, i, j);
    }
    forall i | 0 <= i < |trace|
      ensures trace[i].RecordCall? ==> TallyOf(trace).records >= 1
      ensures trace[i].GroupAnswered? ==> TallyOf(trace).wins >= 1
    {
      TallyCounts(trace, i);
    }
  }

  lemma {:induction false} AnsweredFirstMeans(trace: seq<Command>, k: nat)
    requires TallyOf(trace).answeredFirst && k < |trace| && trace[k].Speak?
    ensures exists j :: 0 <= j < k && trace[j] == AnswerCaller
  {
    var front := trace[..|trace| - 1];
    if k < |front| {
      AnsweredFirstMeans(front, k);
      var j :| 0 <= j < k && front[j] == AnswerCaller;
      assert trace[j] == AnswerCaller;
    } else {
      SomeAnswer(front);
    }
  }

  lemma {:induction false} SomeAnswer(trace: seq<Command>)
    requires TallyOf(trace).answers > 0
    ensures exists j :: 0 <= j < |trace| && trace[j] == AnswerCaller
  {
    var front := trace[..|trace| - 1];
    if trace[|trace| - 1] != AnswerCaller {
      SomeAnswer(front);
      var j :| 0 <= j < |front| && front[j] == AnswerCaller;
      assert trace[j] == AnswerCaller;
    }
  }

  /**
   Ring-first calls: every prompt comes after answering the parked caller, and of answering it
   and bridging it to a leg, one happens at most, at most once.
   */
  lemma ParkedCallerAnsweredBeforePrompts(c: Call, outcomes: seq<Option<CallId>>, now: nat, es: seq<Event>)
    requires Fresh(c) && c.session.value.cfg.ringFirst
    ensures var trace := Run(Start(c, outcomes, now), es).call.trace;
            && (forall k :: 0 <= k < |trace| && trace[k].Speak? ==> exists j :: 0 <= j < k && trace[j] == AnswerCaller)
            && (forall i, j :: 0 <= i < j < |trace| ==> !(IsAccepting(trace[i]) && IsAccepting(trace[j])))
  {
    var w := Start(c, outcomes, now);
    StartSound(c, outcomes, now);
    RunSound(w, es);
    var trace := Run(w, es).call.trace;
    forall k | 0 <= k < |trace| && trace[k].Speak?
      ensures exists j :: 0 <= j < k && trace[j] == AnswerCaller
    {
      AnsweredFirstMeans(trace, k);
    }
    forall i, j | 0 <= i < j < |trace| ensures !(IsAccepting(trace[i]) && IsAccepting(trace[j])) {
      TallyAtMostOne(trace, i, j);
    }
  }

  /** Any other call was answered before it rang: no handler here answers or bridges it again. */
  lemma AnsweredCallNeverReanswered(c: Call, outcomes: seq<Option<CallId>>, now: nat, es: seq<Event>, k: nat)
    requires Fresh(c) && !c.session.value.cfg.ringFirst
    requires k < |Run(Start(c, outcomes, now), es).call.trace|
    ensures !IsAccepting(Run(Start(c, outcomes, now), es).call.trace[k])
  {
    StartSound(c, outcomes, now);
    RunSound(Start(c, outcomes, now), es);
    TallyCounts(Run(Start(c, outcomes, now), es).call.trace, k);
  }
}
