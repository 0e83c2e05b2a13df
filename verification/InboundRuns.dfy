/**
 One inbound call over time. Webhooks, dial completions and the agent's accept arrive in any
 order; a run is any sequence of events, and an event that cannot occur changes nothing.
 */
module InboundRuns {
  import opened Options
  import opened CallState
  import opened InboundRules

  /** The carrier's side of one dial of a simultaneous ring. */
  datatype DialPhase =
    | Requested
    | Created(leg: CallId)
    | Returned(result: Option<CallId>)
    | Registered(result: Option<CallId>)

  /**
   The call with its surroundings: the state of each dial, which legs have been reported answered
   or ended, which targets' dials returned after the session was gone, and whether the dialling
   function has come to its end.
   */
  datatype World = World(
    cfg: Config,
    call: Call,
    dials: seq<DialPhase>,
    answered: set<CallId>,
    ended: set<CallId>,
    late: set<nat>,
    finished: bool)

  datatype Event =
    | LegCreated(target: nat, leg: CallId)
    | DialReturned(target: nat)
    | DialRegistered(target: nat)
    | DialsFinished(now: nat)
    | AnswerReported(leg: CallId, kind: AnswerKind, linked: bool, now: nat, bridgeAccepted: bool)
    | DialEndReported(leg: CallId, wasAnswered: bool, linked: bool, outcomes: seq<Option<CallId>>, now: nat)
    | HangupReported(leg: CallId, linked: bool, outcomes: seq<Option<CallId>>, now: nat)
    | CallerHungUp(now: nat)
    | AgentTapped(sip: Sip, now: nat)
    | PromptEnded(prompt: Prompt)
    | AgentEntriesLost(rung: set<Sip>, talking: set<Sip>)

  /** Other calls have taken over agents that this call rang or was connected to. */
  function LoseAgents(c: Call, rung: set<Sip>, talking: set<Sip>): Call {
    c.(pending := c.pending - rung, active := c.active - talking)
  }

  /** The leg the carrier made for a dial, once there is one. */
  function LegOf(d: DialPhase): Option<CallId> {
    match d
    case Requested => None
    case Created(leg) => Some(leg)
    case Returned(result) => result
    case Registered(result) => result
  }

  /** `findSession` finds this call: by the leg index, by the payload's links, or by the scan. */
  predicate Scanned(c: Call, leg: CallId) {
    c.session.Some? && ScansLeg(c.session.value, leg)
  }

  predicate Finds(c: Call, leg: CallId, linked: bool) {
    leg in c.index || linked || Scanned(c, leg)
  }

  predicate Enabled(w: World, e: Event) {
    match e
    case LegCreated(i, leg) =>
      i < |w.dials| && w.dials[i].Requested? && forall j :: 0 <= j < |w.dials| ==> LegOf(w.dials[j]) != Some(leg)
    case DialReturned(i) => i < |w.dials| && (w.dials[i].Requested? || w.dials[i].Created?)
    case DialRegistered(i) => i < |w.dials| && w.dials[i].Returned?
    case DialsFinished(_) => w.dials != [] && AllRegistered(w) && !w.finished
    case AnswerReported(leg, _, linked, _, _) => Finds(w.call, leg, linked)
    case DialEndReported(leg, _, linked, _, _) => Finds(w.call, leg, linked)
    case HangupReported(leg, linked, _, _) => Finds(w.call, leg, linked)
    case CallerHungUp(_) => true
    case AgentTapped(_, _) => true
    case PromptEnded(prompt) => Speak(prompt) in w.call.trace
    case AgentEntriesLost(_, _) => true
  }

  predicate AllRegistered(w: World) {
    forall i :: 0 <= i < |w.dials| ==> w.dials[i].Registered?
  }

  /** Every dial has come back from the carrier, registered or not. */
  predicate NoDialInFlight(w: World) {
    forall i :: 0 <= i < |w.dials| ==> w.dials[i].Registered? || w.dials[i].Returned?
  }

  function Apply(w: World, e: Event): World {
    if !Enabled(w, e) then w
    else match e
      case LegCreated(i, leg) => w.(dials := w.dials[i := Created(leg)])
      case DialReturned(i) =>
        var w1 := w.(dials := w.dials[i := Returned(LegOf(w.dials[i]))]);
        if w.dials[i].Created?
        then w1.(call := DialAccepted(w.call, TargetSip(w.cfg, Some(i))),
                 late := if w.call.session.None? then w.late + {i} else w.late)
        else w1
      case DialRegistered(i) =>
        w.(dials := w.dials[i := Registered(w.dials[i].result)],
           call := RegisterDial(w.call, i, w.dials[i].result))
      case DialsFinished(now) => w.(call := FinishDialling(w.call, now), finished := true)
      case AnswerReported(leg, kind, _, now, ok) =>
        w.(call := AnswerEvent(w.call, leg, kind, now, ok), answered := w.answered + {leg})
      case DialEndReported(leg, wasAnswered, _, outcomes, now) =>
        w.(call := DialEnded(w.call, leg, wasAnswered, outcomes, now), ended := w.ended + {leg})
      case HangupReported(leg, _, outcomes, now) =>
        w.(call := LegHangup(w.call, leg, outcomes, now), ended := w.ended + {leg})
      case CallerHungUp(now) => w.(call := CallerHangup(w.call, now))
      case AgentTapped(sip, now) => w.(call := AgentAccepted(w.call, sip, now))
      case PromptEnded(prompt) => w.(call := SpeakEnded(w.call, prompt))
      case AgentEntriesLost(rung, talking) => w.(call := LoseAgents(w.call, rung, talking))
  }

  /** A call that is about to ring its targets. */
  predicate Fresh(c: Call) {
    && c.session.Some? && Unrung(c.session.value)
    && c.winner.None? && c.effects == {} && c.index == {}
    && c.pending == {} && c.active == map[] && c.trace == []
  }

  predicate Unrung(s: Session) {
    && s.stage == Connect && s.legs.None? && s.ringIndex == 0
    && s.connectedLeg.None? && s.winnerLeg.None? && s.primaryLeg.None? && s.activeTarget.None?
    && !s.activeBridge && !s.connectedAt && s.connectingSince.None? && s.transferMarker.None?
    && s.deferAnswer == s.cfg.ringFirst && s.pstnAnswered == !s.cfg.ringFirst
  }

  /** The world once `startRinging` has issued its dials. */
  function Start(c: Call, outcomes: seq<Option<CallId>>, now: nat): World
    requires Fresh(c)
  {
    var s := c.session.value;
    var c1 := StartRinging(c, outcomes, now);
    var dials :=
      if s.cfg.simultaneous && s.cfg.appConfigured
      then seq(|s.cfg.targets|, i requires 0 <= i < |s.cfg.targets| =>
             if s.cfg.targets[i].dialable then Requested else Returned(None))
      else [];
    World(s.cfg, c1, dials, {}, {}, {}, false)
  }

  function Run(w: World, es: seq<Event>): World {
    if es == [] then w else Apply(Run(w, es[..|es| - 1]), es[|es| - 1])
  }
}
