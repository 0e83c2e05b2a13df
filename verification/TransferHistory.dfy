/**
 The stages of a transfer told by the webhooks of a run alone: which leg was named as its target,
 whether that target answered, and what then completed the transfer, failed it, or released the
 agent.
 */
module TransferHistory {
  import opened Options
  import opened CallState
  import opened InboundRules
  import opened InboundAgreement
  import opened TransferRules
  import opened TransferRuns
  import opened TransferResults
  import R = InboundRuns

  /** A webhook that finds transfer i while it runs. */
  predicate Finds(w: World, e: Event, i: nat) {
    Running(w, i) && e.Carrier? && Find(w.desk, e.webhook) == Some(i)
  }

  /** An outgoing leg is initiated, other than the caller's and the agent's. */
  predicate Names(w: World, e: Event, i: nat) {
    && Finds(w, e, i) && e.webhook.report == Initiated(true)
    && e.webhook.leg != w.desk.inbound && e.webhook.leg != w.desk.transfers[i].agentLeg
  }

  /** The leg named last. */
  function NamedLeg(w: World, es: seq<Event>, i: nat): Option<CallId> {
    if es == [] then None
    else
      var front, last := es[..|es| - 1], es[|es| - 1];
      if Names(Run(w, front), last, i) then Some(last.webhook.leg) else NamedLeg(w, front, i)
  }

  /** After these events, this one says that the target has answered. */
  predicate Answers(w: World, es: seq<Event>, e: Event, i: nat) {
    && Finds(Run(w, es), e, i) && e.webhook.report == LegAnswered
    && (NamedLeg(w, es, i) == Some(e.webhook.leg)
        || (e.webhook.tag == Some(i) && e.webhook.leg != Run(w, es).desk.transfers[i].agentLeg))
  }

  predicate AnsweredAt(w: World, es: seq<Event>, k: nat, i: nat) {
    k < |es| && Answers(w, es[..k], es[k], i)
  }

  predicate AnsweredIn(w: World, es: seq<Event>, i: nat) {
    exists k :: 0 <= k < |es| && AnsweredAt(w, es, k, i)
  }

  /** This one bridges the target's leg, or the caller's after the target has answered. */
  predicate Joined(w: World, es: seq<Event>, e: Event, i: nat) {
    && Finds(Run(w, es), e, i) && e.webhook.report == LegBridged
    && (NamedLeg(w, es, i) == Some(e.webhook.leg) || (e.webhook.leg == w.desk.inbound && AnsweredIn(w, es, i)))
  }

  /** This one hangs the target's leg up, or refuses the command that asked for the transfer. */
  predicate Lost(w: World, es: seq<Event>, e: Event, i: nat) {
    || (Finds(Run(w, es), e, i) && e.webhook.report == LegHungUp && NamedLeg(w, es, i) == Some(e.webhook.leg))
    || (Running(Run(w, es), i) && e == CommandAnswered(i, false) && i in Run(w, es).commands)
  }

  predicate JoinedIn(w: World, es: seq<Event>, i: nat) {
    exists k :: 0 <= k < |es| && Joined(w, es[..k], es[k], i)
  }

  predicate LostIn(w: World, es: seq<Event>, i: nat) {
    exists k :: 0 <= k < |es| && Lost(w, es[..k], es[k], i)
  }

  // ---- the record keeps this history ----

  lemma AnsweredInStep(w: World, es: seq<Event>, i: nat)
    requires es != []
    ensures AnsweredIn(w, es, i) <==> AnsweredIn(w, es[..|es| - 1], i) || Answers(w, es[..|es| - 1], es[|es| - 1], i)
  {
    var front := es[..|es| - 1];
    forall k: nat ensures AnsweredAt(w, es, k, i) <==> AnsweredAt(w, front, k, i) || (k == |front| && Answers(w, front, es[k], i)) {
      if k < |front| {
        assert front[..k] == es[..k];
      }
    }
    if AnsweredIn(w, front, i) {
      var k :| 0 <= k < |front| && AnsweredAt(w, front, k, i);
      assert AnsweredAt(w, es, k, i);
    }
    assert AnsweredAt(w, es, |front|, i) <==> Answers(w, front, es[|front|], i);
  }

  /** The target's leg and its answer, before and after one event. */
  predicate TargetStep(w: World, e: Event, i: nat, t: Transfer, t': Transfer) {
    && t'.destination == (if Names(w, e, i) then Some(e.webhook.leg) else t.destination)
    && (t'.targetAnswered <==>
          || t.targetAnswered
          || (&& Finds(w, e, i) && e.webhook.report == LegAnswered
              && (t.destination == Some(e.webhook.leg) || (e.webhook.tag == Some(i) && e.webhook.leg != t.agentLeg))))
  }

  lemma FoundTarget(w: World, e: Event, i: nat, cfg: Config)
    requires DeskInv(w.desk, cfg) && e.Carrier? && Find(w.desk, e.webhook) == Some(i)
    requires HandleTransfer(w.desk, e.webhook).Some?
    ensures i < |Apply(w, e).desk.transfers|
    ensures TargetStep(w, e, i, w.desk.transfers[i], Apply(w, e).desk.transfers[i])
  {
    assert RecordOk(w.desk.transfers[i], w.desk.inbound);
  }

  /** A webhook that is passed on neither names the target nor says that it has answered. */
  lemma PassedTarget(w: World, e: Event, i: nat, cfg: Config)
    requires DeskInv(w.desk, cfg) && e.Carrier? && Find(w.desk, e.webhook) == Some(i)
    requires HandleTransfer(w.desk, e.webhook).None?
    ensures TargetStep(w, e, i, w.desk.transfers[i], w.desk.transfers[i])
  {
    assert RecordOk(w.desk.transfers[i], w.desk.inbound);
  }

  lemma StepTarget(w: World, e: Event, i: nat, cfg: Config)
    requires DeskInv(w.desk, cfg) && i < |w.desk.transfers|
    ensures i < |Apply(w, e).desk.transfers|
    ensures TargetStep(w, e, i, w.desk.transfers[i], Apply(w, e).desk.transfers[i])
  {
    match e
    case Carrier(hook, linked, outcomes, now, ok) =>
      if HandleTransfer(w.desk, hook).None? {
        PassOnSound(w.desk, hook, linked, outcomes, now, ok, cfg);
        if Find(w.desk, hook) == Some(i) {
          PassedTarget(w, e, i, cfg);
        }
      } else if Find(w.desk, hook) == Some(i) {
        FoundTarget(w, e, i, cfg);
      } else {
        OtherRecords(w.desk, hook, i, cfg);
      }
    case _ =>
  }

  ghost predicate TargetOk(w: World, es: seq<Event>, i: nat) {
    var ts := Run(w, es).desk.transfers;
    if i < |ts| then
      && ts[i].callerLeg == w.desk.inbound
      && ts[i].destination == NamedLeg(w, es, i) && (ts[i].targetAnswered <==> AnsweredIn(w, es, i))
    else NamedLeg(w, es, i).None? && !AnsweredIn(w, es, i)
  }

  lemma StartTarget(w: World, e: Event, i: nat, cfg: Config)
    requires DeskInv(w.desk, cfg) && |w.desk.transfers| <= i < |Apply(w, e).desk.transfers|
    ensures Apply(w, e).desk.transfers[i].destination.None? && !Apply(w, e).desk.transfers[i].targetAnswered
    ensures Apply(w, e).desk.transfers[i].callerLeg == w.desk.inbound
  {
    if !e.Ask? {
      StepAdds(w, e, cfg);
    }
  }

  lemma InboundStays(w: World, e: Event, cfg: Config)
    requires DeskInv(w.desk, cfg)
    ensures Apply(w, e).desk.inbound == w.desk.inbound
  {
    match e
    case Carrier(hook, linked, outcomes, now, ok) =>
      if HandleTransfer(w.desk, hook).None? {
        PassOnSound(w.desk, hook, linked, outcomes, now, ok, cfg);
      } else {
        HandleCases(w.desk, hook, cfg);
      }
    case _ =>
  }

  lemma {:induction false} TargetIsHistory(w: World, es: seq<Event>, i: nat, cfg: Config)
    requires Opened(w, cfg)
    ensures TargetOk(w, es, i) && Run(w, es).desk.inbound == w.desk.inbound
  {
    if es != [] {
      var front, e := es[..|es| - 1], es[|es| - 1];
      var v := Run(w, front);
      TargetIsHistory(w, front, i, cfg);
      RunInv(w, front, cfg);
      InboundStays(v, e, cfg);
      AnsweredInStep(w, es, i);
      if i < |v.desk.transfers| {
        StepTarget(v, e, i, cfg);
        StepRecord(v, e, i, cfg);
      } else if i < |Apply(v, e).desk.transfers| {
        StartTarget(v, e, i, cfg);
      }
    }
  }

  // ---- main results ----

  lemma EndIsTold(w: World, es: seq<Event>, e: Event, i: nat, cfg: Config)
    requires Opened(w, cfg)
    ensures Bridging(Run(w, es), e, i) <==> Joined(w, es, e, i)
    ensures Failing(Run(w, es), e, i) <==> Lost(w, es, e, i)
  {
    TargetIsHistory(w, es, i, cfg);
  }

  lemma SomeEndIsTold(w: World, es: seq<Event>, i: nat, cfg: Config)
    requires Opened(w, cfg)
    ensures SomeEnd(w, es, i, true) <==> JoinedIn(w, es, i)
    ensures SomeEnd(w, es, i, false) <==> LostIn(w, es, i)
  {
    forall k | 0 <= k < |es|
      ensures Ended(w, es, i, k, true) <==> Joined(w, es[..k], es[k], i)
      ensures Ended(w, es, i, k, false) <==> Lost(w, es[..k], es[k], i)
    {
      EndIsTold(w, es[..k], es[k], i, cfg);
    }
    if SomeEnd(w, es, i, true) {
      var k :| 0 <= k < |es| && Ended(w, es, i, k, true);
      assert Joined(w, es[..k], es[k], i);
    }
    if SomeEnd(w, es, i, false) {
      var k :| 0 <= k < |es| && Ended(w, es, i, k, false);
      assert Lost(w, es[..k], es[k], i);
    }
  }

  /**
   Over every run, a transfer is completed exactly when, while it ran, a webhook found it that
   bridged the leg last named as its target, or the caller's leg after one had said that the target
   answered; it is failed exactly when the target's leg was hung up first, or the command refused.
   */
  lemma StageIsTold(w: World, es: seq<Event>, i: nat, cfg: Config)
    requires Opened(w, cfg) && i < |Run(w, es).desk.transfers|
    ensures var stage := Run(w, es).desk.transfers[i].stage;
            && (stage == Completed <==> JoinedIn(w, es, i))
            && (stage == TransferFailed <==> LostIn(w, es, i))
            && (stage == Transferring <==> !JoinedIn(w, es, i) && !LostIn(w, es, i))
  {
    StageIsHistory(w, es, i, cfg);
    SomeEndIsTold(w, es, i, cfg);
  }

  // ---- what the transfer leaves to the call ----

  lemma PassedAnswer(d: Desk, e: Event, v: R.World)
    requires e.Carrier? && v.call == d.call && e.webhook.report in {LegAnswered, LegBridged} && e.webhook.leg != d.inbound
    ensures var kind := if e.webhook.report.LegBridged? then CallBridged else CallAnswered;
            PassOn(d, e.webhook, e.linked, e.outcomes, e.now, e.bridgeAccepted)
            == d.(call := R.Apply(v, R.AnswerReported(e.webhook.leg, kind, e.linked, e.now, e.bridgeAccepted)).call)
  {
  }

  lemma PassedHangup(d: Desk, e: Event, v: R.World)
    requires e.Carrier? && v.call == d.call && e.webhook.report == LegHungUp && e.webhook.leg != d.inbound
    ensures PassOn(d, e.webhook, e.linked, e.outcomes, e.now, e.bridgeAccepted)
            == d.(call := R.Apply(v, R.HangupReported(e.webhook.leg, e.linked, e.outcomes, e.now)).call)
  {
  }

  /**
   A webhook that no transfer takes does to the call what it does to a call without transfers: the
   answers, bridges and hangups of its legs and the hangup of its caller are the events of
   `InboundRuns`, and anything else changes nothing.
   */
  lemma UntakenIsInbound(w: World, e: Event, v: R.World)
    requires e.Carrier? && HandleTransfer(w.desk, e.webhook).None? && v.call == w.desk.call
    ensures var hook, d' := e.webhook, Apply(w, e).desk;
            var own := hook.leg == w.desk.inbound;
            && d' == w.desk.(call := d'.call)
            && (hook.report.LegAnswered? && !own ==>
                  d'.call == R.Apply(v, R.AnswerReported(hook.leg, CallAnswered, e.linked, e.now, e.bridgeAccepted)).call)
            && (hook.report.LegBridged? && !own ==>
                  d'.call == R.Apply(v, R.AnswerReported(hook.leg, CallBridged, e.linked, e.now, e.bridgeAccepted)).call)
            && (hook.report.LegHungUp? && !own ==>
                  d'.call == R.Apply(v, R.HangupReported(hook.leg, e.linked, e.outcomes, e.now)).call)
            && (hook.report.LegHungUp? && own ==> d'.call == R.Apply(v, R.CallerHungUp(e.now)).call)
            && (hook.report.Initiated? || (own && !hook.report.LegHungUp?) ==> d'.call == w.desk.call)
  {
    if e.webhook.leg != w.desk.inbound {
      if e.webhook.report in {LegAnswered, LegBridged} {
        PassedAnswer(w.desk, e, v);
      } else if e.webhook.report == LegHungUp {
        PassedHangup(w.desk, e, v);
      }
    }
  }

  // ---- the agent's release ----

  /** The agent's leg of a completed transfer hangs up, and the webhook finds it. */
  predicate Leaves(w: World, e: Event, i: nat) {
    && i < |w.desk.transfers| && w.desk.transfers[i].stage == Completed
    && e.Carrier? && e.webhook.report == LegHungUp && e.webhook.leg == w.desk.transfers[i].agentLeg
    && Find(w.desk, e.webhook) == Some(i)
  }

  predicate LeftIn(w: World, es: seq<Event>, i: nat) {
    exists k :: 0 <= k < |es| && Leaves(Run(w, es[..k]), es[k], i)
  }

  lemma LeftInStep(w: World, es: seq<Event>, i: nat)
    requires es != []
    ensures LeftIn(w, es, i) <==> LeftIn(w, es[..|es| - 1], i) || Leaves(Run(w, es[..|es| - 1]), es[|es| - 1], i)
  {
    var front := es[..|es| - 1];
    forall k | 0 <= k < |front| ensures front[..k] == es[..k] && front[k] == es[k] {}
    if LeftIn(w, es, i) {
      var k :| 0 <= k < |es| && Leaves(Run(w, es[..k]), es[k], i);
      assert k < |front| ==> Leaves(Run(w, front[..k]), front[k], i);
    }
    if LeftIn(w, front, i) {
      var k :| 0 <= k < |front| && Leaves(Run(w, front[..k]), front[k], i);
      assert Leaves(Run(w, es[..k]), es[k], i);
    }
  }

  lemma NotReleased(d: Desk, hook: Webhook, i: nat, cfg: Config)
    requires DeskInv(d, cfg) && Find(d, hook) == Some(i) && HandleTransfer(d, hook).None?
    ensures hook.report == LegHungUp && hook.leg == d.transfers[i].agentLeg && d.transfers[i].stage == Completed
            ==> d.transfers[i].agentReleased
  {
    assert RecordOk(d.transfers[i], d.inbound);
  }

  lemma NotHungUp(d: Desk, hook: Webhook, i: nat, cfg: Config)
    requires DeskInv(d, cfg) && Find(d, hook) == Some(i) && HandleTransfer(d, hook).Some? && hook.report != LegHungUp
    ensures i < |HandleTransfer(d, hook).value.transfers|
    ensures HandleTransfer(d, hook).value.transfers[i].agentReleased <==> d.transfers[i].agentReleased
  {
  }

  lemma HungUpRelease(d: Desk, hook: Webhook, i: nat, cfg: Config)
    requires DeskInv(d, cfg) && Find(d, hook) == Some(i) && HandleTransfer(d, hook).Some? && hook.report == LegHungUp
    ensures var t, d' := d.transfers[i], HandleTransfer(d, hook).value;
            && i < |d'.transfers|
            && (d'.transfers[i].agentReleased <==> t.agentReleased || (t.stage == Completed && hook.leg == t.agentLeg))
            && (t.stage == Completed && hook.leg == t.agentLeg && !t.agentReleased ==> d'.call.session.None?)
  {
    assert RecordOk(d.transfers[i], d.inbound);
  }

  lemma FoundRelease(w: World, e: Event, i: nat, cfg: Config)
    requires DeskInv(w.desk, cfg) && e.Carrier? && Find(w.desk, e.webhook) == Some(i)
    ensures i < |Apply(w, e).desk.transfers|
    ensures Apply(w, e).desk.transfers[i].agentReleased <==> w.desk.transfers[i].agentReleased || Leaves(w, e, i)
    ensures Leaves(w, e, i) && !w.desk.transfers[i].agentReleased ==> Apply(w, e).desk.call.session.None?
  {
    if HandleTransfer(w.desk, e.webhook).None? {
      PassOnSound(w.desk, e.webhook, e.linked, e.outcomes, e.now, e.bridgeAccepted, cfg);
      NotReleased(w.desk, e.webhook, i, cfg);
    } else if e.webhook.report == LegHungUp {
      HungUpRelease(w.desk, e.webhook, i, cfg);
    } else {
      NotHungUp(w.desk, e.webhook, i, cfg);
    }
  }

  lemma StepRelease(w: World, e: Event, i: nat, cfg: Config)
    requires DeskInv(w.desk, cfg) && i < |w.desk.transfers|
    ensures i < |Apply(w, e).desk.transfers|
    ensures Apply(w, e).desk.transfers[i].agentReleased <==> w.desk.transfers[i].agentReleased || Leaves(w, e, i)
    ensures Leaves(w, e, i) && !w.desk.transfers[i].agentReleased ==> Apply(w, e).desk.call.session.None?
  {
    match e
    case Carrier(hook, linked, outcomes, now, ok) =>
      if Find(w.desk, hook) == Some(i) {
        FoundRelease(w, e, i, cfg);
      } else if HandleTransfer(w.desk, hook).None? {
        PassOnSound(w.desk, hook, linked, outcomes, now, ok, cfg);
      } else {
        OtherRecords(w.desk, hook, i, cfg);
      }
    case _ =>
  }

  lemma GoneStays(w: World, e: Event, cfg: Config)
    requires DeskInv(w.desk, cfg) && w.desk.call.session.None?
    ensures Apply(w, e).desk.call.session.None?
  {
    match e
    case Carrier(hook, linked, outcomes, now, ok) =>
      if HandleTransfer(w.desk, hook).None? {
        PassOnSound(w.desk, hook, linked, outcomes, now, ok, cfg);
      } else {
        HandleCases(w.desk, hook, cfg);
      }
    case Other(e) => CallEventMarker(w.desk.call, e);
    case _ =>
  }

  lemma StartRelease(w: World, e: Event, i: nat, cfg: Config)
    requires DeskInv(w.desk, cfg) && |w.desk.transfers| <= i < |Apply(w, e).desk.transfers|
    ensures !Apply(w, e).desk.transfers[i].agentReleased
  {
    if !e.Ask? {
      StepAdds(w, e, cfg);
    }
  }

  ghost predicate ReleaseOk(w: World, es: seq<Event>, i: nat) {
    var d := Run(w, es).desk;
    if i < |d.transfers| then
      (d.transfers[i].agentReleased <==> LeftIn(w, es, i)) && (d.transfers[i].agentReleased ==> d.call.session.None?)
    else !LeftIn(w, es, i)
  }

  /** The agent is released exactly when its leg hung up after the transfer was completed; the call is then over. */
  lemma {:induction false} ReleaseIsTold(w: World, es: seq<Event>, i: nat, cfg: Config)
    requires Opened(w, cfg)
    ensures ReleaseOk(w, es, i)
  {
    if es != [] {
      var front, e := es[..|es| - 1], es[|es| - 1];
      var v := Run(w, front);
      ReleaseIsTold(w, front, i, cfg);
      RunInv(w, front, cfg);
      LeftInStep(w, es, i);
      if i < |v.desk.transfers| {
        StepRelease(v, e, i, cfg);
        if v.desk.call.session.None? {
          GoneStays(v, e, cfg);
        }
      } else if i < |Apply(v, e).desk.transfers| {
        StartRelease(v, e, i, cfg);
      }
    }
  }

  /** The legs that the record of a call names. */
  predicate Named(s: Session, leg: CallId) {
    || s.connectedLeg == Some(leg) || s.primaryLeg == Some(leg)
    || (s.legs.Some? && exists k :: 0 <= k < |s.legs.value| && s.legs.value[k].leg == Some(leg))
  }

  predicate Rung(cfg: Config, sip: Sip) {
    exists k :: 0 <= k < |cfg.targets| && cfg.targets[k].sip == Some(sip)
  }

  lemma ClosedEntries(c: Call, agent: Sip)
    requires c.session.Some?
    ensures var s, c' := c.session.value, CloseCall(c, agent);
            && c'.session.None? && c'.winner.None? && c'.trace == c.trace && c'.active == c.active - {agent}
            && (forall leg :: leg in c'.index <==> leg in c.index && !Named(s, leg))
            && (forall leg :: leg in c'.effects <==> leg in c.effects && !Named(s, leg))
            && (forall sip :: sip in c'.pending <==> sip in c.pending && !Rung(s.cfg, sip))
  {
    var s := c.session.value;
    forall leg ensures leg in ClaimedLegs(s) <==> Named(s, leg) {
      ScannedIsClaimed(s, leg);
    }
  }

  /**
   The release closes the call: its record and claim go, with the index and side-effect entries of its
   legs, the pending rings of its agents and the active entry of the one who transferred it.
   */
  lemma ReleaseClosesCall(w: World, e: Event, i: nat, cfg: Config)
    requires DeskInv(w.desk, cfg) && Leaves(w, e, i) && !w.desk.transfers[i].agentReleased && w.desk.call.session.Some?
    ensures var c, c', agent := w.desk.call, Apply(w, e).desk.call, w.desk.transfers[i].agentSip;
            && c'.session.None? && c'.winner.None? && c'.trace == c.trace && c'.active == c.active - {agent}
            && (forall leg :: leg in c'.index <==> leg in c.index && !Named(c.session.value, leg))
            && (forall leg :: leg in c'.effects <==> leg in c.effects && !Named(c.session.value, leg))
            && (forall sip :: sip in c'.pending <==> sip in c.pending && !Rung(c.session.value.cfg, sip))
  {
    assert RecordOk(w.desk.transfers[i], w.desk.inbound);
    assert Apply(w, e).desk.call == CloseCall(w.desk.call, w.desk.transfers[i].agentSip);
    ClosedEntries(w.desk.call, w.desk.transfers[i].agentSip);
  }

  // ---- asking for a transfer ----

  /**
   Asking starts a transfer exactly when the agent is on the bridged call, the destination is good
   and none runs; the new one is of the caller's leg, from the call's winner, by that agent. Refused,
   it changes nothing, but for dropping the agent's entry where her call is not bridged.
   */
  lemma AskExactly(w: World, es: seq<Event>, sip: Sip, ok: bool, cfg: Config)
    requires Opened(w, cfg)
    ensures var d, d' := Run(w, es).desk, Apply(Run(w, es), Ask(sip, ok)).desk;
            var starts := && ok && sip in d.call.active && d.call.session.Some? && d.call.session.value.stage == Bridged
                          && forall i :: 0 <= i < |d.transfers| ==> d.transfers[i].stage != Transferring;
            && (starts <==> |d'.transfers| > |d.transfers|)
            && Apply(Run(w, es), Ask(sip, ok)).commands == Run(w, es).commands + (if starts then {|d.transfers|} else {})
            && (starts ==>
                  && var t := d'.transfers[|d.transfers|];
                     t.stage == Transferring && t.callerLeg == d.inbound && t.agentSip == sip && d.call.winner == Some(t.agentLeg)
                     && t.destination.None? && !t.targetAnswered && d'.call.session.value.transferMarker == Some(|d.transfers|)
                     && d'.transfers[..|d.transfers|] == d.transfers)
            && (!starts ==>
                  d' == if sip in d.call.active && !(d.call.session.Some? && d.call.session.value.stage == Bridged)
                        then d.(call := d.call.(active := d.call.active - {sip})) else d)
  {
    RunInv(w, es, cfg);
    MayInitiateExactly(w, es, sip, cfg);
  }
}
