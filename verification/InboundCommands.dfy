/**
 Which commands a call issues, and on which events: the dials of a simultaneous ring, the recording
 and the ring group's answer of a won call, and what follows a prompt.
 */
module InboundCommands {
  import opened Options
  import opened CallState
  import opened InboundRules
  import opened InboundRuns
  import opened InboundAgreement

  datatype Kind = Dialling | Recording | Crediting | HangingUp | Voicemail | Greeting | Parting | Missing | Other

  function KindOf(c: Command): Kind {
    match c
    case Dial(_) => Dialling
    case RecordCall => Recording
    case GroupAnswered(_) => Crediting
    case HangupCaller => HangingUp
    case RecordVoicemail => Voicemail
    case Speak(prompt) => if prompt == VoicemailGreeting then Greeting else Parting
    case GroupMissed => Missing
    case _ => Other
  }

  /** The kinds that leave the recording, the credit and the ends of prompts alone. */
  const ASIDE: set<Kind> := {Dialling, Greeting, Parting, Missing, Other}

  /** What the fallback of a call issues: its prompt is the greeting where voicemail is allowed. */
  function FallbackKinds(cfg: Config): set<Kind> {
    {if cfg.voicemailAllowed then Greeting else Parting, Missing, Other}
  }

  /** A trace that was continued with commands of these kinds. */
  predicate Adds(a: seq<Command>, b: seq<Command>, kinds: set<Kind>) {
    a <= b && forall i :: |a| <= i < |b| ==> KindOf(b[i]) in kinds
  }

  lemma AddsOn(a: seq<Command>, b: seq<Command>, c: seq<Command>, kinds: set<Kind>)
    requires Adds(a, b, kinds) && Adds(b, c, kinds)
    ensures Adds(a, c, kinds)
  {
  }

  lemma AddsMore(a: seq<Command>, b: seq<Command>, kinds: set<Kind>, more: set<Kind>)
    requires Adds(a, b, kinds) && kinds <= more
    ensures Adds(a, b, more)
  {
  }

  /** Commands of other kinds are there as often as before. */
  lemma AddsKeeps(a: seq<Command>, b: seq<Command>, kinds: set<Kind>, x: Command)
    requires Adds(a, b, kinds) && KindOf(x) !in kinds
    ensures multiset(b)[x] == multiset(a)[x] && (x in b <==> x in a)
  {
    assert b == a + b[|a|..];
    assert x !in b[|a|..];
  }

  // ---- what each rule adds ----

  lemma RouteAdds(c: Call, now: nat)
    requires c.session.Some?
    ensures var kinds := FallbackKinds(c.session.value.cfg);
            Adds(c.trace, Route(c, now).trace, kinds) && Adds(c.trace, PlayFallback(c).trace, kinds)
  {
    var c1 := EnsureAnswered(c);
    assert Adds(c.trace, c1.trace, {Other});
    FallbackAdds(c, c1);
  }

  lemma FallbackAdds(c: Call, c1: Call)
    requires c.session.Some? && c1 == EnsureAnswered(c) && Adds(c.trace, c1.trace, {Other})
    ensures Adds(c.trace, PlayFallback(c).trace, FallbackKinds(c.session.value.cfg))
  {
    var kinds := FallbackKinds(c.session.value.cfg);
    var c2 := if c1.session.value.cfg.ringGroup then Issue(c1, [GroupMissed]) else c1;
    AddsOn(c.trace, c1.trace, c2.trace, kinds);
    AddsOn(c.trace, c2.trace, PlayFallback(c).trace, kinds);
  }

  lemma HangupsAdd(trace: seq<Command>, slots: seq<Slot>, keep: set<CallId>)
    ensures Adds(trace, trace + HangupsFor(slots, keep), {Other})
  {
    forall c | c in HangupsFor(slots, keep) ensures KindOf(c) == Other {
      HangupsForExact(slots, keep, c);
    }
  }

  lemma EffectsAdd(c: Call, leg: CallId)
    requires c.session.Some?
    ensures ApplyEffects(c, leg).trace
            == c.trace + if leg !in c.effects && c.session.value.cfg.recordingAllowed then [RecordCall] else []
  {
  }

  lemma SettleAdds(c: Call, leg: CallId)
    requires c.session.Some?
    ensures Adds(c.trace, SettleRace(c, leg).trace, {Other})
    ensures var c' := SettleRace(c, leg);
            c'.session.Some? && c'.session.value.cfg == c.session.value.cfg && c'.effects == c.effects
  {
    HangupsAdd(c.trace, MarkLeg(Slots(c.session.value), leg, Answered), Keep(c.session.value, leg));
  }

  /** Winning hangs others up, and then records the call and credits the group where that applies. */
  lemma WinAdds(c: Call, leg: CallId) returns (settled: seq<Command>, member: Option<Member>)
    requires c.session.Some? && c.effects == {}
    ensures Adds(c.trace, settled, {Other})
    ensures var cfg := c.session.value.cfg;
            Win(c, leg).trace == settled + (if cfg.recordingAllowed then [RecordCall] else [])
                                 + if cfg.ringGroup then [GroupAnswered(member)] else []
    ensures Win(c, leg).winner == Some(leg)
  {
    var c1 := MarkBridged(c.(winner := Some(leg)), leg);
    SettleAdds(c1, leg);
    var c2 := if c1.session.value.cfg.simultaneous then SettleRace(c1, leg) else c1;
    EffectsAdd(c2, leg);
    settled := c2.trace;
    var c3 := ApplyEffects(c2, leg);
    member := CreditedMember(c3.session.value);
    WonTrace(c, leg, c1, c2, c3);
  }

  lemma WonTrace(c: Call, leg: CallId, c1: Call, c2: Call, c3: Call)
    requires c.session.Some? && c1 == MarkBridged(c.(winner := Some(leg)), leg)
    requires c2 == if c1.session.value.cfg.simultaneous then SettleRace(c1, leg) else c1
    requires c3 == ApplyEffects(c2, leg)
    ensures c3.session.Some?
    ensures Win(c, leg).trace
            == c3.trace + if c.session.value.cfg.ringGroup then [GroupAnswered(CreditedMember(c3.session.value))] else []
    ensures Win(c, leg).winner == Some(leg)
  {
  }

  /** Other answers record nothing: the winner's side effects were claimed with the call. */
  lemma NoWinAdds(c: Call, leg: CallId, kind: AnswerKind)
    requires c.session.Some? && c.winner.Some? && c.winner.value in c.effects
    ensures Adds(c.trace, Claim(c, leg, kind).trace, {Other})
  {
  }

  lemma NoteAdds(c: Call, leg: CallId, ok: bool)
    requires c.session.Some?
    ensures Adds(c.trace, NoteAnswer(c, leg, ok).trace, {Other})
  {
  }

  lemma RegisterAdds(c: Call, target: nat, result: Option<CallId>)
    ensures Adds(c.trace, RegisterDial(c, target, result).trace, {Other})
  {
  }

  /** What the end of a leg, or of the dialling, can issue. */
  function RingKinds(c: Call): set<Kind> {
    if c.session.None? then {Other}
    else FallbackKinds(c.session.value.cfg) + if c.session.value.cfg.simultaneous then {} else {Dialling}
  }

  lemma FinishAdds(c: Call, now: nat)
    ensures Adds(c.trace, FinishDialling(c, now).trace, RingKinds(c))
  {
    if c.session.Some? {
      var s, slots := c.session.value, Slots(c.session.value);
      var c1 := With(c, s.(primaryLeg := if slots != [] && slots[0].leg.Some? then slots[0].leg else s.primaryLeg));
      RouteAdds(c1, now);
    }
  }

  lemma {:induction false} DialNextAdds(c: Call, outcomes: seq<Option<CallId>>, now: nat)
    requires c.session.Some? && c.session.value.ringIndex < |c.session.value.cfg.targets|
    ensures Adds(c.trace, DialNext(c, outcomes, now).trace, FallbackKinds(c.session.value.cfg) + {Dialling})
    decreases |c.session.value.cfg.targets| - c.session.value.ringIndex
  {
    var s := c.session.value;
    var i, kinds := s.ringIndex, FallbackKinds(s.cfg) + {Dialling};
    var c1 := With(c, s.(stage := Ringing, activeTarget := Some(i)));
    var c2 := Issue(c1, [Dial(i)]);
    assert Adds(c.trace, c2.trace, kinds);
    RouteAdds(c1, now);
    if !s.cfg.targets[i].dialable {
      DialAfterAdds(c1, outcomes, now);
    } else if s.cfg.appConfigured && Outcome(outcomes, i).None? {
      DialAfterAdds(c2, outcomes, now);
      AddsOn(c.trace, c2.trace, DialAfter(c2, outcomes, now).trace, kinds);
    }
  }

  lemma {:induction false} DialAfterAdds(c: Call, outcomes: seq<Option<CallId>>, now: nat)
    requires c.session.Some? && c.session.value.ringIndex < |c.session.value.cfg.targets|
    ensures Adds(c.trace, DialAfter(c, outcomes, now).trace, FallbackKinds(c.session.value.cfg) + {Dialling})
    decreases |c.session.value.cfg.targets| - c.session.value.ringIndex, 0
  {
    var s := c.session.value;
    var next := With(c, s.(ringIndex := s.ringIndex + 1));
    if s.ringIndex + 1 < |s.cfg.targets| {
      DialNextAdds(next, outcomes, now);
    } else {
      RouteAdds(c, now);
      RouteAdds(next, now);
    }
  }

  lemma AdvanceAdds(c: Call, outcomes: seq<Option<CallId>>, now: nat)
    requires c.session.Some?
    ensures Adds(c.trace, Advance(c, outcomes, now).trace, FallbackKinds(c.session.value.cfg) + {Dialling})
  {
    var next := With(c, c.session.value.(ringIndex := c.session.value.ringIndex + 1));
    if next.session.value.ringIndex < |c.session.value.cfg.targets| {
      DialNextAdds(next, outcomes, now);
    } else {
      RouteAdds(next, now);
    }
  }

  lemma LegEndedAdds(c: Call, leg: CallId, now: nat)
    requires c.session.Some?
    ensures Adds(c.trace, SimultaneousLegEnded(c, leg, now).trace, FallbackKinds(c.session.value.cfg))
  {
    RouteAdds(SetSlots(c, MarkLeg(Slots(c.session.value), leg, NoAnswer)), now);
  }

  lemma DialEndedAdds(c: Call, leg: CallId, answered: bool, outcomes: seq<Option<CallId>>, now: nat)
    ensures Adds(c.trace, DialEnded(c, leg, answered, outcomes, now).trace, RingKinds(c))
  {
    if c.session.Some? {
      if c.session.value.cfg.simultaneous {
        LegEndedAdds(c, leg, now);
      } else {
        AdvanceAdds(c, outcomes, now);
      }
    }
  }

  lemma LegHangupAdds(c: Call, leg: CallId, outcomes: seq<Option<CallId>>, now: nat)
    ensures Adds(c.trace, LegHangup(c, leg, outcomes, now).trace, RingKinds(c))
  {
    if c.session.Some? {
      if c.session.value.cfg.simultaneous {
        LegEndedAdds(c, leg, now);
      } else {
        AdvanceAdds(c, outcomes, now);
      }
    }
  }

  lemma CallerHangupAdds(c: Call, now: nat)
    ensures Adds(c.trace, CallerHangup(c, now).trace, {Other})
  {
    if c.session.Some? {
      HangupsAdd(c.trace, Slots(c.session.value), {});
    }
  }

  // ---- one event ----

  /** The winner's side effects are claimed together with the call. */
  predicate Claimed(c: Call) {
    c.session.Some? && c.winner.Some? ==> c.winner.value in c.effects
  }

  predicate HasCredit(trace: seq<Command>) {
    exists i :: 0 <= i < |trace| && trace[i].GroupAnswered?
  }

  /** Which of the four single commands are in a trace. */
  datatype Marks = Marks(recorded: bool, credited: bool, hungUp: bool, voicemail: bool)

  function MarksOf(trace: seq<Command>): Marks {
    Marks(RecordCall in trace, HasCredit(trace), HangupCaller in trace, RecordVoicemail in trace)
  }

  lemma AddsMarks(a: seq<Command>, b: seq<Command>)
    requires Adds(a, b, ASIDE)
    ensures MarksOf(b) == MarksOf(a)
  {
    AddsKeeps(a, b, ASIDE, RecordCall);
    AddsKeeps(a, b, ASIDE, HangupCaller);
    AddsKeeps(a, b, ASIDE, RecordVoicemail);
    forall i | 0 <= i < |a| && a[i].GroupAnswered? ensures b[i].GroupAnswered? {}
    if HasCredit(b) {
      var i :| 0 <= i < |b| && b[i].GroupAnswered?;
      assert a[i].GroupAnswered?;
    }
  }

  lemma MarksPush(trace: seq<Command>, c: Command)
    ensures MarksOf(trace + [c])
            == Marks(MarksOf(trace).recorded || c.RecordCall?, MarksOf(trace).credited || c.GroupAnswered?,
                     MarksOf(trace).hungUp || c.HangupCaller?, MarksOf(trace).voicemail || c.RecordVoicemail?)
  {
    var all := trace + [c];
    assert all[|trace|] == c;
    if HasCredit(trace) {
      var i :| 0 <= i < |trace| && trace[i].GroupAnswered?;
      assert all[i].GroupAnswered?;
    }
  }

  /** What winning leaves in the trace. */
  function WonMarks(m: Marks, cfg: Config): Marks {
    m.(recorded := m.recorded || cfg.recordingAllowed, credited := m.credited || cfg.ringGroup)
  }

  lemma WinMarks(c: Call, leg: CallId)
    requires c.session.Some? && c.effects == {}
    ensures MarksOf(Win(c, leg).trace) == WonMarks(MarksOf(c.trace), c.session.value.cfg)
  {
    var settled, member := WinAdds(c, leg);
    AddsMore(c.trace, settled, {Other}, ASIDE);
    AddsMarks(c.trace, settled);
    var cfg := c.session.value.cfg;
    var recorded := if cfg.recordingAllowed then settled + [RecordCall] else settled;
    MarksPush(settled, RecordCall);
    MarksPush(recorded, GroupAnswered(member));
    assert Win(c, leg).trace == if cfg.ringGroup then recorded + [GroupAnswered(member)] else recorded;
  }

  /** An answer claims the call, with its effects, or leaves the four commands alone. */
  predicate AnswerMarks(c: Call, c': Call, cfg: Config) {
    && Claimed(c')
    && MarksOf(c'.trace) == if c.winner.None? && c'.winner.Some? then WonMarks(MarksOf(c.trace), cfg) else MarksOf(c.trace)
  }

  lemma QuietMarks(c: Call, c': Call, cfg: Config)
    requires Adds(c.trace, c'.trace, {Other}) && Claimed(c') && (c.winner.None? ==> c'.winner.None?)
    ensures AnswerMarks(c, c', cfg)
  {
    AddsMore(c.trace, c'.trace, {Other}, ASIDE);
    AddsMarks(c.trace, c'.trace);
  }

  lemma ClaimMarks(c: Call, leg: CallId, kind: AnswerKind, cfg: Config)
    requires Sound(c, cfg) && c.session.Some? && Claimed(c)
    ensures AnswerMarks(c, Claim(c, leg, kind), cfg)
  {
    match c.winner
    case None =>
      WinMarks(c, leg);
      WinClaims(c, leg);
    case Some(winner) =>
      NoWinAdds(c, leg, kind);
      ClaimStays(c, leg, kind);
      QuietMarks(c, Claim(c, leg, kind), cfg);
  }

  lemma WinClaims(c: Call, leg: CallId)
    requires c.session.Some?
    ensures Claimed(Win(c, leg)) && Win(c, leg).winner == Some(leg)
  {
  }

  lemma ClaimStays(c: Call, leg: CallId, kind: AnswerKind)
    requires c.session.Some? && c.winner.Some? && Claimed(c)
    ensures Claimed(Claim(c, leg, kind))
  {
  }

  lemma NoteMarks(c: Call, leg: CallId, ok: bool, cfg: Config)
    requires c.session.Some? && Claimed(c)
    ensures AnswerMarks(c, NoteAnswer(c, leg, ok), cfg)
  {
    NoteAdds(c, leg, ok);
    NoteAnswerKeepsWinner(c, leg, ok);
    assert NoteAnswer(c, leg, ok).effects == c.effects;
    QuietMarks(c, NoteAnswer(c, leg, ok), cfg);
  }

  lemma AnswerEventMarks(c: Call, leg: CallId, kind: AnswerKind, now: nat, ok: bool, cfg: Config)
    requires Sound(c, cfg) && Claimed(c)
    ensures AnswerMarks(c, AnswerEvent(c, leg, kind, now, ok), cfg)
  {
    if c.session.Some? {
      var c1 := MarkConnecting(c, now);
      ConnectingSound(c, now, cfg);
      QuietMarks(c, c, cfg);
      QuietMarks(c, c1, cfg);
      AnswerCases(c, leg, kind, now, ok);
      ClaimMarks(c1, leg, kind, cfg);
      NoteMarks(c1, leg, ok, cfg);
      if AlreadyBridgedTo(c1.session.value, leg) {
        assert c1.winner == Some(leg) && ApplyEffects(c1, leg) == c1;
      }
    }
  }

  /** Some leg claims the call. */
  predicate Wins(w: World, e: Event) {
    w.call.winner.None? && Apply(w, e).call.winner.Some?
  }

  /** The prompt has been played, and its end is reported, while the call lasts. */
  predicate Ends(w: World, e: Event, prompt: Prompt) {
    e == PromptEnded(prompt) && Speak(prompt) in w.call.trace && w.call.session.Some?
  }

  function StepMarks(m: Marks, cfg: Config, wins: bool, goodbye: bool, voicemail: bool): Marks {
    var won := if wins then WonMarks(m, cfg) else m;
    won.(hungUp := won.hungUp || goodbye, voicemail := won.voicemail || voicemail)
  }

  lemma DialNextKeepsEffects(c: Call, outcomes: seq<Option<CallId>>, now: nat)
    requires c.session.Some?
    ensures DialNext(c, outcomes, now).effects == c.effects
    decreases |c.session.value.cfg.targets| - c.session.value.ringIndex
  {
    var s := c.session.value;
    var i := s.ringIndex;
    if i < |s.cfg.targets| {
      var c1 := With(c, s.(stage := Ringing, activeTarget := Some(i)));
      if !s.cfg.targets[i].dialable {
        DialAfterKeepsEffects(c1, outcomes, now);
      } else if s.cfg.appConfigured && Outcome(outcomes, i).None? {
        DialAfterKeepsEffects(Issue(c1, [Dial(i)]), outcomes, now);
      }
    }
  }

  lemma DialAfterKeepsEffects(c: Call, outcomes: seq<Option<CallId>>, now: nat)
    requires c.session.Some? && c.session.value.ringIndex < |c.session.value.cfg.targets|
    ensures DialAfter(c, outcomes, now).effects == c.effects
    decreases |c.session.value.cfg.targets| - c.session.value.ringIndex, 0
  {
    var s := c.session.value;
    if s.ringIndex + 1 < |s.cfg.targets| {
      DialNextKeepsEffects(With(c, s.(ringIndex := s.ringIndex + 1)), outcomes, now);
    }
  }

  lemma AdvanceKeepsEffects(c: Call, outcomes: seq<Option<CallId>>, now: nat)
    requires c.session.Some?
    ensures Advance(c, outcomes, now).effects == c.effects
  {
    DialNextKeepsEffects(With(c, c.session.value.(ringIndex := c.session.value.ringIndex + 1)), outcomes, now);
  }

  /** The end of a leg changes neither the claim nor its effects while the call lasts. */
  predicate SameClaim(c: Call, c': Call) {
    c'.session.Some? ==> c.session.Some? && c'.winner == c.winner && c'.effects == c.effects
  }

  lemma DialEndedClaim(c: Call, leg: CallId, answered: bool, outcomes: seq<Option<CallId>>, now: nat)
    ensures SameClaim(c, DialEnded(c, leg, answered, outcomes, now))
  {
    if c.session.Some? {
      AdvanceKeepsEffects(c, outcomes, now);
      AdvanceKeepsWinner(c, outcomes, now);
    }
  }

  lemma LegHangupClaim(c: Call, leg: CallId, outcomes: seq<Option<CallId>>, now: nat)
    ensures SameClaim(c, LegHangup(c, leg, outcomes, now))
  {
    if c.session.Some? {
      AdvanceKeepsEffects(c, outcomes, now);
      AdvanceKeepsWinner(c, outcomes, now);
    }
  }

  /** Neither an answer nor the end of a prompt. */
  lemma AsideAdds(w: World, e: Event)
    requires !e.AnswerReported? && !e.PromptEnded?
    ensures Adds(w.call.trace, Apply(w, e).call.trace, RingKinds(w.call))
  {
    var c, c' := w.call, Apply(w, e).call;
    if Enabled(w, e) {
      match e
      case DialRegistered(i) =>
        RegisterAdds(c, i, w.dials[i].result);
        AddsMore(c.trace, c'.trace, {Other}, RingKinds(c));
      case DialsFinished(now) => FinishAdds(c, now);
      case DialEndReported(leg, answered, _, outcomes, now) => DialEndedAdds(c, leg, answered, outcomes, now);
      case HangupReported(leg, _, outcomes, now) => LegHangupAdds(c, leg, outcomes, now);
      case CallerHungUp(now) =>
        CallerHangupAdds(c, now);
        AddsMore(c.trace, c'.trace, {Other}, RingKinds(c));
      case _ =>
    }
  }

  lemma AsideClaim(w: World, e: Event)
    requires !e.AnswerReported? && !e.PromptEnded?
    ensures SameClaim(w.call, Apply(w, e).call)
  {
    if Enabled(w, e) {
      match e
      case DialEndReported(leg, answered, _, outcomes, now) => DialEndedClaim(w.call, leg, answered, outcomes, now);
      case HangupReported(leg, _, outcomes, now) => LegHangupClaim(w.call, leg, outcomes, now);
      case _ =>
    }
  }

  lemma AsideMarks(w: World, e: Event)
    requires !e.AnswerReported? && !e.PromptEnded?
    ensures MarksOf(Apply(w, e).call.trace) == MarksOf(w.call.trace)
  {
    AsideAdds(w, e);
    AddsMore(w.call.trace, Apply(w, e).call.trace, RingKinds(w.call), ASIDE);
    AddsMarks(w.call.trace, Apply(w, e).call.trace);
  }

  lemma PromptMarks(c: Call, prompt: Prompt)
    requires c.session.Some?
    ensures MarksOf(SpeakEnded(c, prompt).trace)
            == StepMarks(MarksOf(c.trace), c.session.value.cfg, false, prompt == Goodbye, prompt == VoicemailGreeting)
    ensures SameClaim(c, SpeakEnded(c, prompt))
  {
    MarksPush(c.trace, HangupCaller);
    MarksPush(c.trace, RecordVoicemail);
  }

  /** What an event does to the four commands. */
  predicate MarksStep(w: World, w': World, wins: bool, goodbye: bool, voicemail: bool) {
    && Claimed(w'.call)
    && MarksOf(w'.call.trace) == StepMarks(MarksOf(w.call.trace), w.cfg, wins, goodbye, voicemail)
  }

  lemma AnswerStepMarks(w: World, e: Event)
    requires Sound(w.call, w.cfg) && Claimed(w.call) && e.AnswerReported?
    ensures MarksStep(w, Apply(w, e), Wins(w, e), false, false)
  {
    AnswerEventMarks(w.call, e.leg, e.kind, e.now, e.bridgeAccepted, w.cfg);
  }

  lemma PromptStepMarks(w: World, e: Event)
    requires Sound(w.call, w.cfg) && Claimed(w.call) && e.PromptEnded?
    ensures MarksStep(w, Apply(w, e), false, Ends(w, e, Goodbye), Ends(w, e, VoicemailGreeting)) && !Wins(w, e)
  {
    if w.call.session.Some? {
      PromptMarks(w.call, e.prompt);
    }
  }

  lemma AsideStepMarks(w: World, e: Event)
    requires Sound(w.call, w.cfg) && Claimed(w.call) && !e.AnswerReported? && !e.PromptEnded?
    ensures MarksStep(w, Apply(w, e), false, false, false) && !Wins(w, e)
  {
    AsideMarks(w, e);
    AsideClaim(w, e);
    StepSound(w, e);
  }

  lemma EventMarks(w: World, e: Event)
    requires Sound(w.call, w.cfg) && Claimed(w.call)
    ensures MarksStep(w, Apply(w, e), Wins(w, e), Ends(w, e, Goodbye), Ends(w, e, VoicemailGreeting))
  {
    if e.AnswerReported? {
      AnswerStepMarks(w, e);
    } else if e.PromptEnded? {
      PromptStepMarks(w, e);
    } else {
      AsideStepMarks(w, e);
    }
  }

  // ---- whole runs ----

  predicate WinsIn(w: World, es: seq<Event>) {
    exists k :: 0 <= k < |es| && Wins(Run(w, es[..k]), es[k])
  }

  predicate EndsIn(w: World, es: seq<Event>, prompt: Prompt) {
    exists k :: 0 <= k < |es| && Ends(Run(w, es[..k]), es[k], prompt)
  }

  lemma InFront(es: seq<Event>, k: nat)
    requires k < |es| - 1
    ensures es[..|es| - 1][..k] == es[..k] && es[..|es| - 1][k] == es[k]
  {
  }

  lemma WinsInStep(w: World, es: seq<Event>)
    requires es != []
    ensures WinsIn(w, es) <==> WinsIn(w, es[..|es| - 1]) || Wins(Run(w, es[..|es| - 1]), es[|es| - 1])
  {
    var front := es[..|es| - 1];
    if WinsIn(w, es) {
      var k :| 0 <= k < |es| && Wins(Run(w, es[..k]), es[k]);
      if k < |front| {
        InFront(es, k);
        assert Wins(Run(w, front[..k]), front[k]);
      }
    }
    if WinsIn(w, front) {
      var k :| 0 <= k < |front| && Wins(Run(w, front[..k]), front[k]);
      InFront(es, k);
      assert Wins(Run(w, es[..k]), es[k]);
    }
  }

  lemma EndsInStep(w: World, es: seq<Event>, prompt: Prompt)
    requires es != []
    ensures EndsIn(w, es, prompt) <==>
              EndsIn(w, es[..|es| - 1], prompt) || Ends(Run(w, es[..|es| - 1]), es[|es| - 1], prompt)
  {
    var front := es[..|es| - 1];
    if EndsIn(w, es, prompt) {
      var k :| 0 <= k < |es| && Ends(Run(w, es[..k]), es[k], prompt);
      if k < |front| {
        InFront(es, k);
        assert Ends(Run(w, front[..k]), front[k], prompt);
      }
    }
    if EndsIn(w, front, prompt) {
      var k :| 0 <= k < |front| && Ends(Run(w, front[..k]), front[k], prompt);
      InFront(es, k);
      assert Ends(Run(w, es[..k]), es[k], prompt);
    }
  }

  lemma {:induction false} RunMarks(w: World, es: seq<Event>)
    requires Sound(w.call, w.cfg) && Claimed(w.call)
    ensures Sound(Run(w, es).call, w.cfg) && Claimed(Run(w, es).call) && Run(w, es).cfg == w.cfg
    ensures MarksOf(Run(w, es).call.trace)
            == StepMarks(MarksOf(w.call.trace), w.cfg, WinsIn(w, es), EndsIn(w, es, Goodbye), EndsIn(w, es, VoicemailGreeting))
  {
    if es != [] {
      var front := es[..|es| - 1];
      RunMarks(w, front);
      StepSound(Run(w, front), es[|es| - 1]);
      EventMarks(Run(w, front), es[|es| - 1]);
      WinsInStep(w, es);
      EndsInStep(w, es, Goodbye);
      EndsInStep(w, es, VoicemailGreeting);
    }
  }

  lemma StartMarks(c: Call, outcomes: seq<Option<CallId>>, now: nat)
    requires Fresh(c)
    ensures MarksOf(Start(c, outcomes, now).call.trace) == Marks(false, false, false, false)
    ensures Start(c, outcomes, now).call.winner.None?
  {
    var s := c.session.value;
    DialNextKeepsWinner(c, outcomes, now);
    StartAdds(c, outcomes, now);
    AddsMarks(c.trace, Start(c, outcomes, now).call.trace);
    assert MarksOf([]) == Marks(false, false, false, false);
  }

  lemma StartAdds(c: Call, outcomes: seq<Option<CallId>>, now: nat)
    requires Fresh(c)
    ensures Adds(c.trace, Start(c, outcomes, now).call.trace, ASIDE)
  {
    var s := c.session.value;
    RouteAdds(c, now);
    if s.cfg.simultaneous {
      DialsAdd(s.cfg.targets);
    } else if s.cfg.targets != [] {
      DialNextAdds(c, outcomes, now);
    }
  }

  lemma {:induction false} DialsAdd(targets: seq<Target>)
    ensures Adds([], DialCommands(targets), {Dialling})
  {
    if targets != [] {
      DialsAdd(targets[..|targets| - 1]);
    }
  }

  /**
   Over a whole run, in both ring modes: the call is recorded exactly if recording is allowed and
   some leg claimed it, and the ring group is credited exactly if there is one and some leg claimed
   it. The caller is hung up exactly if the end of the goodbye was reported, and a message is
   recorded exactly if the end of the voicemail greeting was, while the call lasted.
   */
  lemma CommandsExactly(c: Call, outcomes: seq<Option<CallId>>, now: nat, es: seq<Event>)
    requires Fresh(c)
    ensures var w, cfg := Start(c, outcomes, now), c.session.value.cfg;
            var trace := Run(w, es).call.trace;
            && (RecordCall in trace <==> cfg.recordingAllowed && WinsIn(w, es))
            && ((exists i :: 0 <= i < |trace| && trace[i].GroupAnswered?) <==> cfg.ringGroup && WinsIn(w, es))
            && (HangupCaller in trace <==> EndsIn(w, es, Goodbye))
            && (RecordVoicemail in trace <==> EndsIn(w, es, VoicemailGreeting))
  {
    StartSound(c, outcomes, now);
    StartMarks(c, outcomes, now);
    RunMarks(Start(c, outcomes, now), es);
  }

  // ---- the dials of a simultaneous ring ----

  lemma {:induction false} DialCommandsCount(targets: seq<Target>, t: nat)
    ensures multiset(DialCommands(targets))[Dial(t)] == if t < |targets| && targets[t].dialable then 1 else 0
  {
    if targets != [] {
      DialCommandsCount(targets[..|targets| - 1], t);
    }
  }

  lemma StartDials(c: Call, outcomes: seq<Option<CallId>>, now: nat, t: nat)
    requires Fresh(c) && c.session.value.cfg.simultaneous
    requires c.session.value.cfg.targets != [] && c.session.value.cfg.appConfigured
    ensures var targets := c.session.value.cfg.targets;
            multiset(Start(c, outcomes, now).call.trace)[Dial(t)] == if t < |targets| && targets[t].dialable then 1 else 0
  {
    DialCommandsCount(c.session.value.cfg.targets, t);
    assert Start(c, outcomes, now).call.trace == DialCommands(c.session.value.cfg.targets);
  }

  lemma WonAdds(a: seq<Command>, settled: seq<Command>, recorded: seq<Command>, b: seq<Command>, member: Option<Member>)
    requires Adds(a, settled, {Other})
    requires recorded == settled || recorded == settled + [RecordCall]
    requires b == recorded || b == recorded + [GroupAnswered(member)]
    ensures Adds(a, b, {Recording, Crediting, Other})
  {
  }

  lemma ClaimAdds(c: Call, leg: CallId, kind: AnswerKind)
    requires c.session.Some? && Claimed(c) && (c.winner.None? ==> c.effects == {})
    ensures Adds(c.trace, Claim(c, leg, kind).trace, {Recording, Crediting, Other})
  {
    if c.winner.None? {
      var settled, member := WinAdds(c, leg);
      var recorded := settled + if c.session.value.cfg.recordingAllowed then [RecordCall] else [];
      WonAdds(c.trace, settled, recorded, Win(c, leg).trace, member);
    } else {
      NoWinAdds(c, leg, kind);
      AddsMore(c.trace, Claim(c, leg, kind).trace, {Other}, {Recording, Crediting, Other});
    }
  }

  lemma HeardAdds(c: Call, c': Call, leg: CallId, kind: AnswerKind, ok: bool)
    requires c.session.Some? && Claimed(c) && (c.winner.None? ==> c.effects == {})
    requires c' in {c, ApplyEffects(c, leg), Claim(c, leg, kind), NoteAnswer(c, leg, ok)}
    ensures Adds(c.trace, c'.trace, {Recording, Crediting, Other})
  {
    EffectsAdd(c, leg);
    NoteAdds(c, leg, ok);
    ClaimAdds(c, leg, kind);
    AddsMore(c.trace, NoteAnswer(c, leg, ok).trace, {Other}, {Recording, Crediting, Other});
  }

  lemma AnswerAdds(c: Call, leg: CallId, kind: AnswerKind, now: nat, ok: bool, cfg: Config)
    requires Sound(c, cfg) && Claimed(c)
    ensures Adds(c.trace, AnswerEvent(c, leg, kind, now, ok).trace, {Recording, Crediting, Other})
  {
    if c.session.Some? {
      var c1 := MarkConnecting(c, now);
      AnswerCases(c, leg, kind, now, ok);
      if AnswerEvent(c, leg, kind, now, ok) != c {
        HeardAdds(c1, AnswerEvent(c, leg, kind, now, ok), leg, kind, ok);
      }
    }
  }

  lemma PromptAdds(c: Call, prompt: Prompt)
    ensures Adds(c.trace, SpeakEnded(c, prompt).trace, {HangingUp, Voicemail})
  {
  }

  lemma AnswerStepAdds(w: World, e: Event)
    requires Sound(w.call, w.cfg) && Claimed(w.call) && e.AnswerReported?
    ensures Adds(w.call.trace, Apply(w, e).call.trace, {Recording, Crediting, Other})
  {
    AnswerAdds(w.call, e.leg, e.kind, e.now, e.bridgeAccepted, w.cfg);
  }

  lemma PromptStepAdds(w: World, e: Event)
    requires e.PromptEnded?
    ensures Adds(w.call.trace, Apply(w, e).call.trace, {HangingUp, Voicemail})
  {
    PromptAdds(w.call, e.prompt);
  }

  /** In simultaneous mode no event dials. */
  lemma EventDialsNothing(w: World, e: Event, t: nat)
    requires Sound(w.call, w.cfg) && Claimed(w.call) && w.cfg.simultaneous
    ensures multiset(Apply(w, e).call.trace)[Dial(t)] == multiset(w.call.trace)[Dial(t)]
  {
    var a, b := w.call.trace, Apply(w, e).call.trace;
    if w.call.session.None? {
      StepKeepsWinner(w, e);
    } else if e.AnswerReported? {
      AnswerStepAdds(w, e);
      AddsKeeps(a, b, {Recording, Crediting, Other}, Dial(t));
    } else if e.PromptEnded? {
      PromptStepAdds(w, e);
      AddsKeeps(a, b, {HangingUp, Voicemail}, Dial(t));
    } else {
      AsideAdds(w, e);
      AddsKeeps(a, b, RingKinds(w.call), Dial(t));
    }
  }

  predicate DialOk(cfg: Config, t: nat, dial: DialPhase) {
    t < |cfg.targets| && (!cfg.targets[t].dialable ==> !dial.Requested? && LegOf(dial).None?)
  }

  /** A target that cannot be dialled never gets a leg. */
  predicate OnlyDialled(w: World) {
    forall t :: 0 <= t < |w.dials| ==> DialOk(w.cfg, t, w.dials[t])
  }

  lemma EventOnlyDialled(w: World, e: Event)
    requires OnlyDialled(w)
    ensures OnlyDialled(Apply(w, e))
  {
    var w' := Apply(w, e);
    assert |w'.dials| == |w.dials| && w'.cfg == w.cfg;
    forall t | 0 <= t < |w.dials| ensures DialOk(w.cfg, t, w'.dials[t]) {
      assert DialOk(w.cfg, t, w.dials[t]);
    }
  }

  lemma {:induction false} RunDials(w: World, es: seq<Event>, t: nat)
    requires Sound(w.call, w.cfg) && Claimed(w.call) && w.cfg.simultaneous && OnlyDialled(w)
    ensures OnlyDialled(Run(w, es))
    ensures multiset(Run(w, es).call.trace)[Dial(t)] == multiset(w.call.trace)[Dial(t)]
  {
    if es != [] {
      var front := es[..|es| - 1];
      RunDials(w, front, t);
      RunMarks(w, front);
      EventDialsNothing(Run(w, front), es[|es| - 1], t);
      EventOnlyDialled(Run(w, front), es[|es| - 1]);
    }
  }

  /**
   A simultaneous ring dials each target that has a dial string exactly once, and nothing else, over
   its whole run; and a leg only exists for a target that was dialled.
   */
  lemma DialsExactly(c: Call, outcomes: seq<Option<CallId>>, now: nat, es: seq<Event>, t: nat)
    requires Fresh(c) && c.session.value.cfg.simultaneous
    requires c.session.value.cfg.targets != [] && c.session.value.cfg.appConfigured
    ensures var w, targets := Run(Start(c, outcomes, now), es), c.session.value.cfg.targets;
            && multiset(w.call.trace)[Dial(t)] == (if t < |targets| && targets[t].dialable then 1 else 0)
            && (t < |w.dials| && LegOf(w.dials[t]).Some? ==> Dial(t) in w.call.trace)
  {
    var w := Start(c, outcomes, now);
    StartSound(c, outcomes, now);
    StartMarks(c, outcomes, now);
    StartDials(c, outcomes, now, t);
    RunMarks(w, es);
    RunDials(w, es, t);
  }

  // ---- which prompt ----

  predicate RightPrompt(cfg: Config, prompt: Prompt) {
    prompt == VoicemailGreeting <==> cfg.voicemailAllowed
  }

  lemma EventPromptsRight(w: World, e: Event, prompt: Prompt)
    requires Sound(w.call, w.cfg) && Claimed(w.call) && !RightPrompt(w.cfg, prompt)
    ensures Speak(prompt) in Apply(w, e).call.trace <==> Speak(prompt) in w.call.trace
  {
    var a, b := w.call.trace, Apply(w, e).call.trace;
    if w.call.session.None? {
      StepKeepsWinner(w, e);
    } else if e.AnswerReported? {
      AnswerStepAdds(w, e);
      AddsKeeps(a, b, {Recording, Crediting, Other}, Speak(prompt));
    } else if e.PromptEnded? {
      PromptStepAdds(w, e);
      AddsKeeps(a, b, {HangingUp, Voicemail}, Speak(prompt));
    } else {
      AsideAdds(w, e);
      AddsKeeps(a, b, RingKinds(w.call), Speak(prompt));
    }
  }

  lemma StartPromptsRight(c: Call, outcomes: seq<Option<CallId>>, now: nat, prompt: Prompt)
    requires Fresh(c) && (c.session.value.cfg.simultaneous || c.session.value.cfg.targets != [])
    requires !RightPrompt(c.session.value.cfg, prompt)
    ensures Speak(prompt) !in Start(c, outcomes, now).call.trace
  {
    var cfg, b := c.session.value.cfg, Start(c, outcomes, now).call.trace;
    RouteAdds(c, now);
    if cfg.simultaneous {
      DialsAdd(cfg.targets);
      AddsMore(c.trace, DialCommands(cfg.targets), {Dialling}, FallbackKinds(cfg) + {Dialling});
      AddsMore(c.trace, Route(c, now).trace, FallbackKinds(cfg), FallbackKinds(cfg) + {Dialling});
    } else {
      DialNextAdds(c, outcomes, now);
    }
    AddsKeeps(c.trace, b, FallbackKinds(cfg) + {Dialling}, Speak(prompt));
  }

  /** A call with targets greets for voicemail where that is allowed, and else says goodbye. */
  lemma {:induction false} PromptsAreRight(c: Call, outcomes: seq<Option<CallId>>, now: nat, es: seq<Event>, prompt: Prompt)
    requires Fresh(c) && (c.session.value.cfg.simultaneous || c.session.value.cfg.targets != [])
    ensures Speak(prompt) in Run(Start(c, outcomes, now), es).call.trace ==>
              (prompt == VoicemailGreeting <==> c.session.value.cfg.voicemailAllowed)
  {
    var w := Start(c, outcomes, now);
    if !RightPrompt(c.session.value.cfg, prompt) {
      if es == [] {
        StartPromptsRight(c, outcomes, now, prompt);
      } else {
        var front := es[..|es| - 1];
        PromptsAreRight(c, outcomes, now, front, prompt);
        StartSound(c, outcomes, now);
        StartMarks(c, outcomes, now);
        RunMarks(w, front);
        EventPromptsRight(Run(w, front), es[|es| - 1], prompt);
      }
    }
  }
}
