/**
 Sequential hunting: the targets of one ring phase are dialled in strictly increasing order, each
 at most once, and a hunt step stops at the first target the carrier accepts or at the fallback.
 */
module InboundHunt {
  import opened Options
  import opened CallState
  import opened InboundRules
  import opened InboundRuns
  import opened InboundAgreement

  predicate Increasing(trace: seq<Command>) {
    forall i, j :: 0 <= i < j < |trace| && trace[i].Dial? && trace[j].Dial? ==> trace[i].target < trace[j].target
  }

  predicate Below(trace: seq<Command>, bound: nat) {
    forall i :: 0 <= i < |trace| && trace[i].Dial? ==> trace[i].target < bound
  }

  predicate Hunting(c: Call) {
    && Increasing(c.trace)
    && (c.session.Some? ==>
         !c.session.value.cfg.simultaneous && Below(c.trace, c.session.value.ringIndex + 1))
  }

  /** Anything but a dial keeps the order. */
  lemma NoDial(trace: seq<Command>, trace': seq<Command>, bound: nat)
    requires trace <= trace' && Increasing(trace) && Below(trace, bound)
    requires forall i :: |trace| <= i < |trace'| ==> !trace'[i].Dial?
    ensures Increasing(trace') && Below(trace', bound)
  {
  }

  lemma RouteHunting(c: Call, now: nat)
    requires c.session.Some? && Hunting(c)
    ensures Hunting(Route(c, now)) && Hunting(PlayFallback(c))
  {
    NoDial(c.trace, PlayFallback(c).trace, c.session.value.ringIndex + 1);
  }

  lemma {:induction false} DialNextHunting(c: Call, outcomes: seq<Option<CallId>>, now: nat)
    requires c.session.Some? && !c.session.value.cfg.simultaneous
    requires Increasing(c.trace) && Below(c.trace, c.session.value.ringIndex)
    ensures Hunting(DialNext(c, outcomes, now))
    decreases |c.session.value.cfg.targets| - c.session.value.ringIndex
  {
    var s := c.session.value;
    var i := s.ringIndex;
    if i >= |s.cfg.targets| {
      NoDial(c.trace, DialNext(c, outcomes, now).trace, i + 1);
    } else {
      var c1 := With(c, s.(stage := Ringing, activeTarget := Some(i)));
      var c2 := Issue(c1, [Dial(i)]);
      if !s.cfg.targets[i].dialable {
        DialAfterHunting(c1, outcomes, now);
      } else if !s.cfg.appConfigured {
        RouteHunting(c1, now);
      } else if Outcome(outcomes, i).None? {
        DialAfterHunting(c2, outcomes, now);
      }
    }
  }

  lemma {:induction false} DialAfterHunting(c: Call, outcomes: seq<Option<CallId>>, now: nat)
    requires c.session.Some? && Hunting(c) && c.session.value.ringIndex < |c.session.value.cfg.targets|
    ensures Hunting(DialAfter(c, outcomes, now))
    decreases |c.session.value.cfg.targets| - c.session.value.ringIndex, 0
  {
    var s := c.session.value;
    var next := With(c, s.(ringIndex := s.ringIndex + 1));
    if s.ringIndex + 1 < |s.cfg.targets| {
      DialNextHunting(next, outcomes, now);
    } else {
      RouteHunting(next, now);
      RouteHunting(c, now);
    }
  }

  lemma AdvanceHunting(c: Call, outcomes: seq<Option<CallId>>, now: nat)
    requires c.session.Some? && Hunting(c)
    ensures Hunting(Advance(c, outcomes, now))
  {
    var s := c.session.value;
    var next := With(c, s.(ringIndex := s.ringIndex + 1));
    DialNextHunting(next, outcomes, now);
    RouteHunting(next, now);
  }

  /** Neither dials nor moves on. */
  predicate NoNewDial(c: Call, c': Call)
    requires c.session.Some?
  {
    && c'.session.Some? && c'.session.value.cfg == c.session.value.cfg
    && c'.session.value.ringIndex == c.session.value.ringIndex
    && c.trace <= c'.trace
    && forall i :: |c.trace| <= i < |c'.trace| ==> !c'.trace[i].Dial?
  }

  lemma WinNoDial(c: Call, leg: CallId)
    requires c.session.Some? && !c.session.value.cfg.simultaneous
    ensures NoNewDial(c, Win(c, leg))
  {
    var c1 := MarkBridged(c.(winner := Some(leg)), leg);
    var c2 := ApplyEffects(c1, leg);
    assert c2.session == c1.session;
  }

  lemma EffectsNoDial(c: Call, leg: CallId)
    requires c.session.Some?
    ensures NoNewDial(c, ApplyEffects(c, leg))
  {
  }

  lemma RebridgeNoDial(c: Call, leg: CallId)
    requires c.session.Some?
    ensures NoNewDial(c, RebridgeIfNeeded(c, leg)) && RebridgeIfNeeded(c, leg).trace == c.trace
  {
  }

  lemma ClaimNoDial(c: Call, leg: CallId, kind: AnswerKind)
    requires c.session.Some? && !c.session.value.cfg.simultaneous
    ensures NoNewDial(c, Claim(c, leg, kind))
  {
    match c.winner
    case None => WinNoDial(c, leg);
    case Some(winner) =>
      RebridgeNoDial(c, winner);
      if winner == leg {
        EffectsNoDial(RebridgeIfNeeded(c, winner), winner);
      } else if kind != CallBridged {
        var marked := SetSlots(c, MarkLeg(Slots(c.session.value), leg, Cancelled));
        assert Claim(c, leg, kind) == Issue(marked, [Hangup(leg)]);
      }
  }

  lemma NoteNoDial(c: Call, leg: CallId, ok: bool)
    requires c.session.Some?
    ensures NoNewDial(c, NoteAnswer(c, leg, ok))
  {
  }

  lemma HeardNoDial(c: Call, leg: CallId, kind: AnswerKind, ok: bool)
    requires c.session.Some? && !c.session.value.cfg.simultaneous
    ensures NoNewDial(c, if Confirms(kind) then Claim(c, leg, kind) else NoteAnswer(c, leg, ok))
  {
    if Confirms(kind) {
      ClaimNoDial(c, leg, kind);
    } else {
      NoteNoDial(c, leg, ok);
    }
  }

  lemma AnswerNoDial(c: Call, leg: CallId, kind: AnswerKind, now: nat, ok: bool)
    requires c.session.Some? && !c.session.value.cfg.simultaneous
    ensures NoNewDial(c, AnswerEvent(c, leg, kind, now, ok))
  {
    var c1 := MarkConnecting(c, now);
    assert NoNewDial(c, c1) && c1.trace == c.trace;
    AnswerCases(c, leg, kind, now, ok);
    HeardNoDial(c1, leg, kind, ok);
    EffectsNoDial(c1, leg);
  }

  lemma DialEndHunting(c: Call, leg: CallId, answered: bool, outcomes: seq<Option<CallId>>, now: nat)
    requires Hunting(c)
    ensures Hunting(DialEnded(c, leg, answered, outcomes, now))
  {
    if c.session.Some? {
      AdvanceHunting(c, outcomes, now);
    }
  }

  lemma LegHangupHunting(c: Call, leg: CallId, outcomes: seq<Option<CallId>>, now: nat)
    requires Hunting(c)
    ensures Hunting(LegHangup(c, leg, outcomes, now))
  {
    if c.session.Some? {
      AdvanceHunting(c, outcomes, now);
    }
  }

  lemma StepHunting(w: World, e: Event)
    requires Hunting(w.call) && !w.cfg.simultaneous && w.dials == []
    ensures Hunting(Apply(w, e).call)
    ensures Apply(w, e).cfg == w.cfg && Apply(w, e).dials == []
  {
    var c := w.call;
    if Enabled(w, e) && c.session.Some? {
      var bound := c.session.value.ringIndex + 1;
      match e
      case AnswerReported(leg, kind, _, now, ok) =>
        AnswerNoDial(c, leg, kind, now, ok);
        NoDial(c.trace, AnswerEvent(c, leg, kind, now, ok).trace, bound);
      case DialEndReported(leg, answered, _, outcomes, now) => DialEndHunting(c, leg, answered, outcomes, now);
      case HangupReported(leg, _, outcomes, now) => LegHangupHunting(c, leg, outcomes, now);
      case CallerHungUp(_) =>
      case PromptEnded(prompt) => NoDial(c.trace, SpeakEnded(c, prompt).trace, bound);
      case _ =>
    }
  }

  lemma {:induction false} RunHunting(w: World, es: seq<Event>)
    requires Hunting(w.call) && !w.cfg.simultaneous && w.dials == []
    ensures Hunting(Run(w, es).call) && Run(w, es).cfg == w.cfg && Run(w, es).dials == []
  {
    if es != [] {
      RunHunting(w, es[..|es| - 1]);
      StepHunting(Run(w, es[..|es| - 1]), es[|es| - 1]);
    }
  }

  /** Over a whole run of a sequential call, dials go strictly upwards: no target is dialled twice. */
  lemma TargetsDialledInOrder(c: Call, outcomes: seq<Option<CallId>>, now: nat, es: seq<Event>, i: nat, j: nat)
    requires Fresh(c) && !c.session.value.cfg.simultaneous
    requires var trace := Run(Start(c, outcomes, now), es).call.trace;
             i < j < |trace| && trace[i].Dial? && trace[j].Dial?
    ensures var trace := Run(Start(c, outcomes, now), es).call.trace; trace[i].target < trace[j].target
  {
    DialNextHunting(c, outcomes, now);
    RunHunting(Start(c, outcomes, now), es);
  }

  // ---- where one hunt step stops ----

  predicate Accepts(cfg: Config, outcomes: seq<Option<CallId>>, t: nat) {
    t < |cfg.targets| && cfg.targets[t].dialable && Outcome(outcomes, t).Some?
  }

  /** No target from `i` up to `stop` would ring. */
  predicate NoneBefore(cfg: Config, outcomes: seq<Option<CallId>>, i: nat, stop: nat) {
    forall t :: i <= t < stop ==> !Accepts(cfg, outcomes, t)
  }

  /** The commands from position `from` on dial exactly the dialable targets in `[i, stop)`. */
  ghost predicate Dialled(trace: seq<Command>, from: nat, cfg: Config, i: nat, stop: nat) {
    forall t: nat :: (exists k :: from <= k < |trace| && trace[k] == Dial(t)) <==>
      i <= t < stop && t < |cfg.targets| && cfg.targets[t].dialable
  }

  /** The hunt ended with a leg ringing at `stop`. */
  predicate RingsAt(c: Call, outcomes: seq<Option<CallId>>, stop: nat) {
    && c.session.Some? && c.session.value.stage == Ringing && c.session.value.ringIndex == stop
    && Accepts(c.session.value.cfg, outcomes, stop)
    && c.session.value.primaryLeg == Outcome(outcomes, stop)
    && c.session.value.primaryLeg.value in c.index
    && (c.session.value.cfg.targets[stop].sip.Some? ==> c.session.value.cfg.targets[stop].sip.value in c.pending)
  }

  predicate EndsInPrompt(c: Call) {
    c.trace != [] && c.trace[|c.trace| - 1].Speak?
  }

  ghost predicate StopsAt(c: Call, c': Call, outcomes: seq<Option<CallId>>, stop: nat)
    requires c.session.Some?
  {
    var s := c.session.value;
    && s.ringIndex <= stop && NoneBefore(s.cfg, outcomes, s.ringIndex, stop)
    && (if stop < |s.cfg.targets| then RingsAt(c', outcomes, stop) else EndsInPrompt(c'))
    && c.trace <= c'.trace && Dialled(c'.trace, |c.trace|, s.cfg, s.ringIndex, stop + 1)
  }

  /** A call without a winner whose hunt has targets left. */
  predicate CanHunt(c: Call, now: nat) {
    && c.session.Some? && c.session.value.cfg.appConfigured
    && c.session.value.ringIndex < |c.session.value.cfg.targets|
    && !BridgedState(c.session.value) && c.winner.None? && !GraceActive(c.session.value, now)
  }

  /**
   `dialNextTarget` terminates in one of two ways: a leg rings at the first target from `ringIndex`
   on that the carrier accepts, or there is none and the fallback prompt is issued; and it dials
   exactly the dialable targets up to there.
   */
  lemma {:induction false} HuntStops(c: Call, outcomes: seq<Option<CallId>>, now: nat) returns (stop: nat)
    requires CanHunt(c, now)
    ensures StopsAt(c, DialNext(c, outcomes, now), outcomes, stop)
    decreases |c.session.value.cfg.targets| - c.session.value.ringIndex
  {
    var s := c.session.value;
    if Accepts(s.cfg, outcomes, s.ringIndex) {
      stop := s.ringIndex;
      HuntAccepted(c, outcomes, now);
    } else if s.ringIndex + 1 < |s.cfg.targets| {
      var next := Onward(c);
      stop := HuntStops(next, outcomes, now);
      HuntOn(c, outcomes, now, stop);
    } else {
      stop := |s.cfg.targets|;
      HuntOver(c, outcomes, now);
    }
  }

  /** The call as the hunt goes on to the next target. */
  function Onward(c: Call): Call
    requires c.session.Some? && c.session.value.ringIndex < |c.session.value.cfg.targets|
  {
    With(Skipped(c), Skipped(c).session.value.(ringIndex := c.session.value.ringIndex + 1))
  }

  lemma HuntOn(c: Call, outcomes: seq<Option<CallId>>, now: nat, stop: nat)
    requires CanHunt(c, now) && c.session.value.ringIndex + 1 < |c.session.value.cfg.targets|
    requires !Accepts(c.session.value.cfg, outcomes, c.session.value.ringIndex)
    requires StopsAt(Onward(c), DialNext(Onward(c), outcomes, now), outcomes, stop)
    ensures StopsAt(c, DialNext(c, outcomes, now), outcomes, stop)
  {
    var s := c.session.value;
    SkippedNext(c, outcomes, now);
    assert DialNext(c, outcomes, now) == DialNext(Onward(c), outcomes, now);
    DialledFrom(c.trace, Onward(c).trace, DialNext(c, outcomes, now).trace, s.cfg, s.ringIndex, stop + 1);
  }

  lemma HuntOver(c: Call, outcomes: seq<Option<CallId>>, now: nat)
    requires CanHunt(c, now) && c.session.value.ringIndex + 1 == |c.session.value.cfg.targets|
    requires !Accepts(c.session.value.cfg, outcomes, c.session.value.ringIndex)
    ensures StopsAt(c, DialNext(c, outcomes, now), outcomes, |c.session.value.cfg.targets|)
  {
    var s := c.session.value;
    SkippedNext(c, outcomes, now);
    LastFallback(Skipped(c), outcomes, now);
    DialledFrom(c.trace, Skipped(c).trace, DialNext(c, outcomes, now).trace, s.cfg, s.ringIndex, s.ringIndex + 2);
  }

  /** The call when the target at `ringIndex` has been tried in vain. */
  function Skipped(c: Call): Call
    requires c.session.Some? && c.session.value.ringIndex < |c.session.value.cfg.targets|
  {
    var s := c.session.value;
    var c1 := With(c, s.(stage := Ringing, activeTarget := Some(s.ringIndex)));
    if s.cfg.targets[s.ringIndex].dialable then Issue(c1, [Dial(s.ringIndex)]) else c1
  }

  lemma SkippedNext(c: Call, outcomes: seq<Option<CallId>>, now: nat)
    requires c.session.Some? && c.session.value.cfg.appConfigured
    requires c.session.value.ringIndex < |c.session.value.cfg.targets|
    requires !Accepts(c.session.value.cfg, outcomes, c.session.value.ringIndex)
    ensures DialNext(c, outcomes, now) == DialAfter(Skipped(c), outcomes, now)
  {
  }

  lemma HuntAccepted(c: Call, outcomes: seq<Option<CallId>>, now: nat)
    requires c.session.Some? && c.session.value.cfg.appConfigured
    requires Accepts(c.session.value.cfg, outcomes, c.session.value.ringIndex)
    ensures var i, c' := c.session.value.ringIndex, DialNext(c, outcomes, now);
            && RingsAt(c', outcomes, i) && c.trace <= c'.trace
            && Dialled(c'.trace, |c.trace|, c.session.value.cfg, i, i + 1)
  {
    var i, c' := c.session.value.ringIndex, DialNext(c, outcomes, now);
    assert c'.trace == c.trace + [Dial(i)];
    assert c'.trace[|c.trace|] == Dial(i);
  }

  /** The hunt's first step prepended to the rest of it. */
  lemma DialledFrom(trace0: seq<Command>, trace1: seq<Command>, trace2: seq<Command>, cfg: Config, i: nat, stop: nat)
    requires i < |cfg.targets| && i < stop
    requires trace1 == trace0 + (if cfg.targets[i].dialable then [Dial(i)] else []) && trace1 <= trace2
    requires Dialled(trace2, |trace1|, cfg, i + 1, stop)
    ensures Dialled(trace2, |trace0|, cfg, i, stop)
  {
    forall t: nat
      ensures (exists k :: |trace0| <= k < |trace2| && trace2[k] == Dial(t)) <==>
              i <= t < stop && t < |cfg.targets| && cfg.targets[t].dialable
    {
      if t == i && cfg.targets[i].dialable {
        assert trace2[|trace0|] == Dial(t);
      }
    }
  }

  lemma LastFallback(c: Call, outcomes: seq<Option<CallId>>, now: nat)
    requires c.session.Some? && c.session.value.ringIndex + 1 == |c.session.value.cfg.targets|
    requires !BridgedState(c.session.value) && c.winner.None? && !GraceActive(c.session.value, now)
    requires c.session.value.stage == Ringing
    ensures var c' := DialAfter(c, outcomes, now);
            && EndsInPrompt(c') && c.trace <= c'.trace
            && forall k :: |c.trace| <= k < |c'.trace| ==> !c'.trace[k].Dial?
  {
  }
}
