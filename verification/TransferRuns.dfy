/**
 Runs of a call together with its transfers: what each transfer record's stage says about what
 happened, and how the transfers and the call stay in step.
 */
module TransferRuns {
  import opened Options
  import opened CallState
  import opened InboundRules
  import opened InboundAgreement
  import InboundRuns
  import opened TransferRules

  /** The desk, and the transfer commands the carrier has not answered yet. */
  datatype World = World(desk: Desk, commands: set<nat>)

  /** What reaches the call's handlers without passing the transfer handler. */
  datatype CallEvent =
    | DialAnswer(leg: CallId, now: nat, bridgeAccepted: bool)
    | DialEnd(leg: CallId, wasAnswered: bool, outcomes: seq<Option<CallId>>, now: nat)
    | DialResult(target: nat, result: Option<CallId>)
    | DialsDone(now: nat)
    | Tapped(sip: Sip, now: nat)
    | DialTaken(agent: Option<Sip>)
    | PromptOver(prompt: Prompt)
    | EntriesLost(rung: set<Sip>, talking: set<Sip>)

  datatype Event =
    | Ask(sip: Sip, destinationOk: bool)
    | CommandAnswered(transfer: nat, accepted: bool)
    | Carrier(webhook: Webhook, linked: bool, outcomes: seq<Option<CallId>>, now: nat, bridgeAccepted: bool)
    | Other(e: CallEvent)

  function ApplyCall(c: Call, e: CallEvent): Call {
    match e
    case DialAnswer(leg, now, ok) => AnswerEvent(c, leg, DialAnswered, now, ok)
    case DialEnd(leg, wasAnswered, outcomes, now) => DialEnded(c, leg, wasAnswered, outcomes, now)
    case DialResult(target, result) => RegisterDial(c, target, result)
    case DialsDone(now) => FinishDialling(c, now)
    case Tapped(sip, now) => AgentAccepted(c, sip, now)
    case DialTaken(agent) => DialAccepted(c, agent)
    case PromptOver(prompt) => if Speak(prompt) in c.trace then SpeakEnded(c, prompt) else c
    case EntriesLost(rung, talking) => InboundRuns.LoseAgents(c, rung, talking)
  }

  function Apply(w: World, e: Event): World {
    var d := w.desk;
    match e
    case Ask(sip, ok) =>
      World(Initiate(d, sip, ok), if MayInitiate(d, sip) && ok then w.commands + {|d.transfers|} else w.commands)
    case CommandAnswered(i, accepted) =>
      if i !in w.commands then w
      else World(if accepted then d else Refused(d, i), w.commands - {i})
    case Carrier(hook, linked, outcomes, now, ok) =>
      var handled := HandleTransfer(d, hook);
      w.(desk := if handled.Some? then handled.value else PassOn(d, hook, linked, outcomes, now, ok))
    case Other(e) => w.(desk := d.(call := ApplyCall(d.call, e)))
  }

  function Run(w: World, es: seq<Event>): World {
    if es == [] then w else Apply(Run(w, es[..|es| - 1]), es[|es| - 1])
  }

  // ---- the invariant ----

  predicate RecordOk(t: Transfer, inbound: CallId) {
    && t.callerLeg == inbound
    && (t.stage == Transferring || t.stage == Completed || t.stage == TransferFailed)
    && (t.callerBridged <==> t.stage == Completed)
    && (t.agentReleased ==> t.stage == Completed)
    && t.destination != Some(t.callerLeg) && t.destination != Some(t.agentLeg)
  }

  predicate Linked(d: Desk) {
    && (d.current.Some? ==> d.current.value < |d.transfers|)
    && (forall i :: 0 <= i < |d.transfers| && d.transfers[i].stage == Transferring ==> d.current == Some(i))
  }

  /** While the call lasts: its marker names the running transfer, its winner is every agent leg. */
  predicate InStep(d: Desk) {
    d.call.session.Some? ==>
      var s := d.call.session.value;
      && (forall i :: 0 <= i < |d.transfers| && d.transfers[i].stage == Transferring ==> s.transferMarker == Some(i))
      && (forall i :: 0 <= i < |d.transfers| ==> d.call.winner == Some(d.transfers[i].agentLeg))
  }

  predicate DeskInv(d: Desk, cfg: Config) {
    && Sound(d.call, cfg)
    && (forall i :: 0 <= i < |d.transfers| ==> RecordOk(d.transfers[i], d.inbound))
    && Linked(d) && InStep(d)
  }

  // ---- the call's steps ----

  /** What a step of the call may do to what transfers rely on. */
  predicate CallStep(c: Call, c': Call) {
    c'.session.Some? ==>
      && c.session.Some?
      && c'.session.value.transferMarker == c.session.value.transferMarker
      && (c.winner.Some? ==> c'.winner == c.winner)
  }

  lemma {:induction false} DialNextMarker(c: Call, outcomes: seq<Option<CallId>>, now: nat)
    requires c.session.Some?
    ensures CallStep(c, DialNext(c, outcomes, now))
    decreases |c.session.value.cfg.targets| - c.session.value.ringIndex
  {
    var s := c.session.value;
    var i := s.ringIndex;
    DialNextKeepsWinner(c, outcomes, now);
    if i < |s.cfg.targets| {
      var c1 := With(c, s.(stage := Ringing, activeTarget := Some(i)));
      if !s.cfg.targets[i].dialable {
        DialAfterMarker(c1, outcomes, now);
      } else if s.cfg.appConfigured && Outcome(outcomes, i).None? {
        DialAfterMarker(Issue(c1, [Dial(i)]), outcomes, now);
      }
    }
  }

  lemma {:induction false} DialAfterMarker(c: Call, outcomes: seq<Option<CallId>>, now: nat)
    requires c.session.Some? && c.session.value.ringIndex < |c.session.value.cfg.targets|
    ensures CallStep(c, DialAfter(c, outcomes, now))
    decreases |c.session.value.cfg.targets| - c.session.value.ringIndex, 0
  {
    var s := c.session.value;
    DialAfterKeepsWinner(c, outcomes, now);
    if s.ringIndex + 1 < |s.cfg.targets| {
      DialNextMarker(With(c, s.(ringIndex := s.ringIndex + 1)), outcomes, now);
    }
  }

  lemma AdvanceMarker(c: Call, outcomes: seq<Option<CallId>>, now: nat)
    requires c.session.Some?
    ensures CallStep(c, Advance(c, outcomes, now))
  {
    DialNextMarker(With(c, c.session.value.(ringIndex := c.session.value.ringIndex + 1)), outcomes, now);
  }

  lemma ClaimMarker(c: Call, leg: CallId, kind: AnswerKind)
    requires c.session.Some?
    ensures CallStep(c, Claim(c, leg, kind))
  {
  }

  lemma AnswerMarker(c: Call, leg: CallId, kind: AnswerKind, now: nat, ok: bool)
    ensures CallStep(c, AnswerEvent(c, leg, kind, now, ok))
  {
    if c.session.Some? {
      AnswerCases(c, leg, kind, now, ok);
      var c1 := MarkConnecting(c, now);
      ClaimMarker(c1, leg, kind);
      NoteAnswerKeepsWinner(c1, leg, ok);
    }
  }

  lemma DialEndMarker(c: Call, leg: CallId, answered: bool, outcomes: seq<Option<CallId>>, now: nat)
    ensures CallStep(c, DialEnded(c, leg, answered, outcomes, now))
  {
    if c.session.Some? {
      AdvanceMarker(c, outcomes, now);
    }
  }

  lemma LegHangupMarker(c: Call, leg: CallId, outcomes: seq<Option<CallId>>, now: nat)
    ensures CallStep(c, LegHangup(c, leg, outcomes, now))
  {
    if c.session.Some? {
      AdvanceMarker(c, outcomes, now);
    }
  }

  lemma CallEventSound(c: Call, e: CallEvent, cfg: Config)
    requires Sound(c, cfg)
    ensures Sound(ApplyCall(c, e), cfg)
  {
    match e
    case DialAnswer(leg, now, ok) => AnswerSound(c, leg, DialAnswered, now, ok, cfg);
    case DialEnd(leg, answered, outcomes, now) => DialEndSound(c, leg, answered, outcomes, now, cfg);
    case DialResult(target, result) => RegisterSound(c, target, result, cfg);
    case DialsDone(now) => FinishSound(c, now, cfg);
    case PromptOver(prompt) =>
      if Speak(prompt) in c.trace {
        PromptEndedSound(c, prompt, cfg);
      }
    case _ =>
  }

  lemma CallEventMarker(c: Call, e: CallEvent)
    ensures CallStep(c, ApplyCall(c, e))
  {
    match e
    case DialAnswer(leg, now, ok) => AnswerMarker(c, leg, DialAnswered, now, ok);
    case DialEnd(leg, answered, outcomes, now) => DialEndMarker(c, leg, answered, outcomes, now);
    case _ =>
  }

  lemma PassOnSound(d: Desk, hook: Webhook, linked: bool, outcomes: seq<Option<CallId>>, now: nat, ok: bool, cfg: Config)
    requires Sound(d.call, cfg)
    ensures var d' := PassOn(d, hook, linked, outcomes, now, ok);
            Sound(d'.call, cfg) && CallStep(d.call, d'.call) && d' == d.(call := d'.call)
  {
    match hook.report
    case Initiated(_) =>
    case LegAnswered =>
      AnswerSound(d.call, hook.leg, CallAnswered, now, ok, cfg);
      AnswerMarker(d.call, hook.leg, CallAnswered, now, ok);
    case LegBridged =>
      AnswerSound(d.call, hook.leg, CallBridged, now, ok, cfg);
      AnswerMarker(d.call, hook.leg, CallBridged, now, ok);
    case LegHungUp =>
      CallerHangupSound(d.call, now, cfg);
      LegHangupSound(d.call, hook.leg, outcomes, now, cfg);
      LegHangupMarker(d.call, hook.leg, outcomes, now);
  }

  lemma CallStepInv(d: Desk, c: Call, cfg: Config)
    requires DeskInv(d, cfg) && Sound(c, cfg) && CallStep(d.call, c)
    ensures DeskInv(d.(call := c), cfg)
  {
  }

  // ---- the transfers' steps ----

  /** A record may change, but neither its legs nor into a running transfer. */
  lemma PutInv(d: Desk, i: nat, t: Transfer, cfg: Config)
    requires DeskInv(d, cfg) && i < |d.transfers| && RecordOk(t, d.inbound)
    requires t.agentLeg == d.transfers[i].agentLeg
    requires t.stage == Transferring ==> d.transfers[i].stage == Transferring
    ensures DeskInv(Put(d, i, t), cfg)
  {
  }

  lemma FailInv(d: Desk, i: nat, cfg: Config)
    requires DeskInv(d, cfg) && i < |d.transfers|
    ensures DeskInv(Fail(d, i), cfg)
  {
    if d.transfers[i].stage == Transferring {
      var d' := Put(d, i, d.transfers[i].(stage := TransferFailed));
      assert d.current == Some(i);
      PutInv(d, i, d.transfers[i].(stage := TransferFailed), cfg);
      assert forall j :: 0 <= j < |d'.transfers| ==> d'.transfers[j].stage != Transferring;
    }
  }

  lemma CloseSound(c: Call, sip: Sip, cfg: Config)
    requires Sound(c, cfg)
    ensures Sound(CloseCall(c, sip), cfg)
  {
  }

  lemma SucceedInv(d: Desk, i: nat, cfg: Config)
    requires DeskInv(d, cfg) && i < |d.transfers| && d.transfers[i].stage == Completed
    ensures DeskInv(Succeed(d, i), cfg)
  {
    var t := d.transfers[i].(agentReleased := true);
    PutInv(d, i, t, cfg);
    CloseSound(d.call, t.agentSip, cfg);
  }

  /** What the handler does with a webhook it takes, as one change to one record. */
  lemma HandleCases(d: Desk, hook: Webhook, cfg: Config)
    requires DeskInv(d, cfg) && HandleTransfer(d, hook).Some?
    ensures var i := Find(d, hook).value;
            var t, d' := d.transfers[i], HandleTransfer(d, hook).value;
            || (t.stage == Transferring && hook.leg !in {t.callerLeg, t.agentLeg} && d' == Put(d, i, t.(destination := Some(hook.leg))))
            || (t.stage == Transferring && d' == Put(d, i, t.(targetAnswered := true)))
            || (t.stage == Transferring && d' == Put(d, i, t.(callerBridged := true, stage := Completed)))
            || (t.stage == Transferring && d' == Fail(d, i))
            || (t.stage == Completed && !t.agentReleased && d' == Succeed(d, i))
  {
    var i := Find(d, hook).value;
    assert RecordOk(d.transfers[i], d.inbound);
  }

  lemma HandleInv(d: Desk, hook: Webhook, cfg: Config)
    requires DeskInv(d, cfg) && HandleTransfer(d, hook).Some?
    ensures DeskInv(HandleTransfer(d, hook).value, cfg)
  {
    var i := Find(d, hook).value;
    var t := d.transfers[i];
    HandleCases(d, hook, cfg);
    if t.stage == Transferring {
      PutInv(d, i, t.(targetAnswered := true), cfg);
      PutInv(d, i, t.(callerBridged := true, stage := Completed), cfg);
      FailInv(d, i, cfg);
      if hook.leg !in {t.callerLeg, t.agentLeg} {
        PutInv(d, i, t.(destination := Some(hook.leg)), cfg);
      }
    } else {
      SucceedInv(d, i, cfg);
    }
  }

  lemma InitiateInv(d: Desk, sip: Sip, ok: bool, cfg: Config)
    requires DeskInv(d, cfg)
    ensures DeskInv(Initiate(d, sip, ok), cfg)
  {
    if MayInitiate(d, sip) && ok {
      var d' := Initiate(d, sip, ok);
      assert forall i :: 0 <= i < |d.transfers| ==> d.transfers[i].stage != Transferring;
    }
  }

  lemma StepInv(w: World, e: Event, cfg: Config)
    requires DeskInv(w.desk, cfg)
    ensures DeskInv(Apply(w, e).desk, cfg)
  {
    match e
    case Ask(sip, ok) => InitiateInv(w.desk, sip, ok, cfg);
    case CommandAnswered(i, _) =>
      if i < |w.desk.transfers| {
        FailInv(w.desk, i, cfg);
      }
    case Carrier(hook, linked, outcomes, now, ok) =>
      if HandleTransfer(w.desk, hook).Some? {
        HandleInv(w.desk, hook, cfg);
      } else {
        PassOnSound(w.desk, hook, linked, outcomes, now, ok, cfg);
        CallStepInv(w.desk, PassOn(w.desk, hook, linked, outcomes, now, ok).call, cfg);
      }
    case Other(e) =>
      CallEventSound(w.desk.call, e, cfg);
      CallEventMarker(w.desk.call, e);
      CallStepInv(w.desk, ApplyCall(w.desk.call, e), cfg);
  }

  lemma {:induction false} RunInv(w: World, es: seq<Event>, cfg: Config)
    requires DeskInv(w.desk, cfg)
    ensures DeskInv(Run(w, es).desk, cfg)
  {
    if es != [] {
      RunInv(w, es[..|es| - 1], cfg);
      StepInv(Run(w, es[..|es| - 1]), es[|es| - 1], cfg);
    }
  }
}
