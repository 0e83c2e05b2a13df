/** What every run of a call with its transfers guarantees. */
module TransferResults {
  import opened Options
  import opened CallState
  import opened InboundRules
  import opened InboundAgreement
  import opened TransferRules
  import opened TransferRuns

  /** A call in any state it can be in, with no transfer yet. */
  predicate Opened(w: World, cfg: Config) {
    Sound(w.desk.call, cfg) && w.desk.transfers == [] && w.desk.current.None? && w.commands == {}
  }

  predicate Running(w: World, i: nat) {
    i < |w.desk.transfers| && w.desk.transfers[i].stage == Transferring
  }

  /** This event joins the caller to the target of transfer `i`. */
  predicate Bridging(w: World, e: Event, i: nat) {
    && Running(w, i) && e.Carrier? && e.webhook.report == LegBridged
    && Find(w.desk, e.webhook) == Some(i) && Joins(w.desk.transfers[i], e.webhook.leg)
  }

  /** This event ends transfer `i` before that: its target hung up, or its command was refused. */
  predicate Failing(w: World, e: Event, i: nat) {
    && Running(w, i)
    && match e
       case CommandAnswered(j, accepted) => j == i && i in w.commands && !accepted
       case Carrier(hook, _, _, _, _) =>
         hook.report == LegHungUp && Find(w.desk, hook) == Some(i) && w.desk.transfers[i].destination == Some(hook.leg)
       case _ => false
  }

  /** One step of one record: its legs stay, terminal stages absorb, and only two things end it. */
  predicate RecordStep(t: Transfer, t': Transfer, bridging: bool, failing: bool) {
    && t'.callerLeg == t.callerLeg && t'.agentLeg == t.agentLeg && t'.agentSip == t.agentSip
    && (Terminal(t.stage) ==> t' == t.(agentReleased := t'.agentReleased))
    && (t.stage == Transferring ==>
         t'.stage == if bridging then Completed else if failing then TransferFailed else Transferring)
  }

  /** The record that the handler takes up. */
  lemma FoundRecord(d: Desk, hook: Webhook, cfg: Config)
    requires DeskInv(d, cfg) && HandleTransfer(d, hook).Some?
    ensures var i, d' := Find(d, hook).value, HandleTransfer(d, hook).value;
            && |d'.transfers| == |d.transfers|
            && RecordStep(d.transfers[i], d'.transfers[i],
                          d.transfers[i].stage == Transferring && hook.report == LegBridged && Joins(d.transfers[i], hook.leg),
                          d.transfers[i].stage == Transferring && hook.report == LegHungUp
                          && d.transfers[i].destination == Some(hook.leg))
  {
    assert RecordOk(d.transfers[Find(d, hook).value], d.inbound);
  }

  lemma OtherRecords(d: Desk, hook: Webhook, i: nat, cfg: Config)
    requires DeskInv(d, cfg) && HandleTransfer(d, hook).Some? && i < |d.transfers| && Find(d, hook) != Some(i)
    ensures i < |HandleTransfer(d, hook).value.transfers| && HandleTransfer(d, hook).value.transfers[i] == d.transfers[i]
  {
    HandleCases(d, hook, cfg);
  }

  lemma HandledRecord(w: World, e: Event, i: nat, cfg: Config)
    requires DeskInv(w.desk, cfg) && i < |w.desk.transfers|
    requires e.Carrier? && HandleTransfer(w.desk, e.webhook).Some?
    ensures i < |Apply(w, e).desk.transfers|
    ensures RecordStep(w.desk.transfers[i], Apply(w, e).desk.transfers[i], Bridging(w, e, i), Failing(w, e, i))
  {
    if Find(w.desk, e.webhook) == Some(i) {
      FoundRecord(w.desk, e.webhook, cfg);
    } else {
      OtherRecords(w.desk, e.webhook, i, cfg);
    }
  }

  lemma PassedOnRecord(w: World, e: Event, i: nat, cfg: Config)
    requires DeskInv(w.desk, cfg) && i < |w.desk.transfers|
    requires e.Carrier? && HandleTransfer(w.desk, e.webhook).None?
    ensures Apply(w, e).desk.transfers == w.desk.transfers && !Bridging(w, e, i) && !Failing(w, e, i)
  {
    PassOnSound(w.desk, e.webhook, e.linked, e.outcomes, e.now, e.bridgeAccepted, cfg);
    assert RecordOk(w.desk.transfers[i], w.desk.inbound);
  }

  lemma StepRecord(w: World, e: Event, i: nat, cfg: Config)
    requires DeskInv(w.desk, cfg) && i < |w.desk.transfers|
    ensures i < |Apply(w, e).desk.transfers|
    ensures RecordStep(w.desk.transfers[i], Apply(w, e).desk.transfers[i], Bridging(w, e, i), Failing(w, e, i))
  {
    if e.Carrier? {
      if HandleTransfer(w.desk, e.webhook).Some? {
        HandledRecord(w, e, i, cfg);
      } else {
        PassedOnRecord(w, e, i, cfg);
      }
    }
  }

  /** No step takes a transfer away, and none adds two. */
  lemma StepAdds(w: World, e: Event, cfg: Config)
    requires DeskInv(w.desk, cfg)
    ensures |w.desk.transfers| <= |Apply(w, e).desk.transfers| <= |w.desk.transfers| + 1
    ensures !e.Ask? ==> |Apply(w, e).desk.transfers| == |w.desk.transfers|
  {
    match e
    case Carrier(hook, linked, outcomes, now, ok) =>
      if HandleTransfer(w.desk, hook).None? {
        PassOnSound(w.desk, hook, linked, outcomes, now, ok, cfg);
      } else {
        HandleCases(w.desk, hook, cfg);
      }
    case _ =>
  }

  /** A transfer that a step adds is running. */
  lemma StepStarts(w: World, e: Event, i: nat, cfg: Config)
    requires DeskInv(w.desk, cfg) && |w.desk.transfers| <= i < |Apply(w, e).desk.transfers|
    ensures Apply(w, e).desk.transfers[i].stage == Transferring
  {
    if !e.Ask? {
      StepAdds(w, e, cfg);
    }
  }

  // ---- main results ----

  /**
   In every state: a transfer is completed exactly when its caller was bridged to its target,
   the agent is released only from a completed one, the destination leg is neither the caller's
   nor the agent's, and at most one transfer is running, which is the indexed one. While the call
   lasts, each transfer's agent leg is the call's winner.
   */
  lemma TransferInvariant(w: World, es: seq<Event>, cfg: Config)
    requires Opened(w, cfg)
    ensures DeskInv(Run(w, es).desk, cfg)
    ensures forall i: nat, j: nat :: Running(Run(w, es), i) && Running(Run(w, es), j) ==> i == j && Run(w, es).desk.current == Some(i)
  {
    RunInv(w, es, cfg);
  }

  predicate Ended(w: World, es: seq<Event>, i: nat, k: nat, bridged: bool) {
    k < |es| && if bridged then Bridging(Run(w, es[..k]), es[k], i) else Failing(Run(w, es[..k]), es[k], i)
  }

  /** Some event of the run joined the caller to the target of transfer `i`, or ended it before. */
  predicate SomeEnd(w: World, es: seq<Event>, i: nat, bridged: bool) {
    exists k :: 0 <= k < |es| && Ended(w, es, i, k, bridged)
  }

  lemma SomeEndStep(w: World, es: seq<Event>, e: Event, i: nat, bridged: bool)
    ensures SomeEnd(w, es + [e], i, bridged)
            <==> SomeEnd(w, es, i, bridged) || (if bridged then Bridging(Run(w, es), e, i) else Failing(Run(w, es), e, i))
  {
    var all := es + [e];
    assert all[..|es|] == es;
    forall k | 0 <= k < |es| ensures Ended(w, all, i, k, bridged) <==> Ended(w, es, i, k, bridged) {
      assert all[..k] == es[..k];
    }
    assert Ended(w, all, i, |es|, bridged) <==> (if bridged then Bridging(Run(w, es), e, i) else Failing(Run(w, es), e, i));
    if SomeEnd(w, es, i, bridged) {
      var k :| 0 <= k < |es| && Ended(w, es, i, k, bridged);
      assert Ended(w, all, i, k, bridged);
    }
  }

  lemma {:induction false} NoEndBeforeStart(w: World, es: seq<Event>, i: nat, cfg: Config)
    requires Opened(w, cfg) && i >= |Run(w, es).desk.transfers|
    ensures !SomeEnd(w, es, i, true) && !SomeEnd(w, es, i, false)
  {
    if es != [] {
      var front, last := es[..|es| - 1], es[|es| - 1];
      assert es == front + [last];
      RunInv(w, front, cfg);
      StepAdds(Run(w, front), last, cfg);
      NoEndBeforeStart(w, front, i, cfg);
      SomeEndStep(w, front, last, i, true);
      SomeEndStep(w, front, last, i, false);
    }
  }

  /** What `StageIsHistory` says of transfer i. */
  ghost predicate HistoryOk(w: World, es: seq<Event>, i: nat)
    requires i < |Run(w, es).desk.transfers|
  {
    var stage := Run(w, es).desk.transfers[i].stage;
    && (stage == Completed <==> SomeEnd(w, es, i, true))
    && (stage == TransferFailed <==> SomeEnd(w, es, i, false))
    && (stage == Transferring <==> !SomeEnd(w, es, i, true) && !SomeEnd(w, es, i, false))
  }

  lemma HistoryStep(w: World, es: seq<Event>, e: Event, i: nat, cfg: Config)
    requires DeskInv(Run(w, es).desk, cfg)
    requires i < |Run(w, es).desk.transfers| && HistoryOk(w, es, i)
    ensures i < |Run(w, es + [e]).desk.transfers| && HistoryOk(w, es + [e], i)
  {
    assert (es + [e])[..|es|] == es;
    var v := Run(w, es);
    StepRecord(v, e, i, cfg);
    SomeEndStep(w, es, e, i, true);
    SomeEndStep(w, es, e, i, false);
    assert RecordOk(v.desk.transfers[i], v.desk.inbound);
  }

  lemma HistoryStart(w: World, es: seq<Event>, e: Event, i: nat, cfg: Config)
    requires Opened(w, cfg) && |Run(w, es).desk.transfers| <= i < |Run(w, es + [e]).desk.transfers|
    ensures HistoryOk(w, es + [e], i)
  {
    NoEndAtStart(w, es, e, i, cfg);
    StartsRunning(w, es, e, i, cfg);
  }

  lemma StartsRunning(w: World, es: seq<Event>, e: Event, i: nat, cfg: Config)
    requires Opened(w, cfg) && |Run(w, es).desk.transfers| <= i < |Run(w, es + [e]).desk.transfers|
    ensures Run(w, es + [e]).desk.transfers[i].stage == Transferring
  {
    assert (es + [e])[..|es|] == es;
    RunInv(w, es, cfg);
    StepStarts(Run(w, es), e, i, cfg);
  }

  lemma NoEndAtStart(w: World, es: seq<Event>, e: Event, i: nat, cfg: Config)
    requires Opened(w, cfg) && |Run(w, es).desk.transfers| <= i
    ensures !SomeEnd(w, es + [e], i, true) && !SomeEnd(w, es + [e], i, false)
  {
    NoEndBeforeStart(w, es, i, cfg);
    SomeEndStep(w, es, e, i, true);
    SomeEndStep(w, es, e, i, false);
  }

  /**
   The stage is the history: a transfer is completed exactly when some event joined the caller to
   its target while it ran, failed exactly when its target hung up first or its command was
   refused, and running otherwise.
   */
  lemma {:induction false} StageIsHistory(w: World, es: seq<Event>, i: nat, cfg: Config)
    requires Opened(w, cfg) && i < |Run(w, es).desk.transfers|
    ensures var stage := Run(w, es).desk.transfers[i].stage;
            && (stage == Completed <==> SomeEnd(w, es, i, true))
            && (stage == TransferFailed <==> SomeEnd(w, es, i, false))
            && (stage == Transferring <==> !SomeEnd(w, es, i, true) && !SomeEnd(w, es, i, false))
  {
    if es != [] {
      var front, last := es[..|es| - 1], es[|es| - 1];
      assert es == front + [last];
      if i < |Run(w, front).desk.transfers| {
        RunInv(w, front, cfg);
        StageIsHistory(w, front, i, cfg);
        HistoryStep(w, front, last, i, cfg);
      } else {
        HistoryStart(w, front, last, i, cfg);
      }
      assert HistoryOk(w, es, i);
    }
  }

  /** A terminal stage absorbs: afterwards only the agent's release can still be noted. */
  lemma {:induction false} TerminalAbsorbs(w: World, es: seq<Event>, j: nat, i: nat, cfg: Config)
    requires Opened(w, cfg) && j <= |es| && i < |Run(w, es[..j]).desk.transfers|
    requires Terminal(Run(w, es[..j]).desk.transfers[i].stage)
    ensures i < |Run(w, es).desk.transfers|
    ensures var t, t' := Run(w, es[..j]).desk.transfers[i], Run(w, es).desk.transfers[i];
            t' == t.(agentReleased := t'.agentReleased)
  {
    if j == |es| {
      assert es[..j] == es;
    } else {
      var front := es[..|es| - 1];
      assert front[..j] == es[..j];
      TerminalAbsorbs(w, front, j, i, cfg);
      RunInv(w, front, cfg);
      StepRecord(Run(w, front), es[|es| - 1], i, cfg);
    }
  }

  /** The step that fails a transfer changes nothing of the call but its transfer marker. */
  lemma FailingStepSparesCall(w: World, e: Event, i: nat, cfg: Config)
    requires DeskInv(w.desk, cfg) && Failing(w, e, i)
    ensures var c, c' := w.desk.call, Apply(w, e).desk.call;
            c' == if c.session.Some? then With(c, c.session.value.(transferMarker := None)) else c
    ensures !InProgress(Apply(w, e).desk)
  {
    assert RecordOk(w.desk.transfers[i], w.desk.inbound);
  }

  /** An event that only transfer `i` takes notice of. */
  predicate ForTransfer(w: World, e: Event, i: nat) {
    match e
    case CommandAnswered(j, _) => j == i
    case Carrier(hook, _, _, _, _) => HandleTransfer(w.desk, hook).Some? && Find(w.desk, hook) == Some(i)
    case _ => false
  }

  predicate AllForTransfer(w: World, es: seq<Event>, i: nat) {
    forall k :: 0 <= k < |es| ==> ForTransfer(Run(w, es[..k]), es[k], i)
  }

  function Marked(c: Call, marker: Option<nat>): Call
    requires c.session.Some?
  {
    With(c, c.session.value.(transferMarker := marker))
  }

  /** Where transfer `i`, asked for at desk `d`, can be once only its own events have happened. */
  predicate Underway(d: Desk, w: World, i: nat)
    requires d.call.session.Some?
  {
    && i < |w.desk.transfers| && w.desk.inbound == d.inbound
    && w.desk.current == Some(i) && |w.desk.transfers| == i + 1
    && match w.desk.transfers[i].stage
       case Transferring => w.desk.call == Marked(d.call, Some(i))
       case TransferFailed => w.desk.call == Marked(d.call, None)
       case _ => true
  }

  lemma UnderwayStep(d: Desk, w: World, e: Event, i: nat, cfg: Config)
    requires d.call.session.Some? && Underway(d, w, i) && DeskInv(w.desk, cfg) && ForTransfer(w, e, i)
    ensures Underway(d, Apply(w, e), i)
  {
    StepRecord(w, e, i, cfg);
    match e
    case Carrier(hook, _, _, _, _) => HandleCases(w.desk, hook, cfg);
    case _ =>
  }

  lemma {:induction false} UnderwayRun(d: Desk, w: World, es: seq<Event>, i: nat, cfg: Config)
    requires d.call.session.Some? && Underway(d, w, i) && DeskInv(w.desk, cfg) && AllForTransfer(w, es, i)
    ensures Underway(d, Run(w, es), i)
  {
    if es != [] {
      var front := es[..|es| - 1];
      forall k | 0 <= k < |front| ensures ForTransfer(Run(w, front[..k]), front[k], i) {
        assert front[..k] == es[..k];
      }
      UnderwayRun(d, w, front, i, cfg);
      RunInv(w, front, cfg);
      UnderwayStep(d, Run(w, front), es[|es| - 1], i, cfg);
    }
  }

  /**
   A transfer that was asked for and failed, with only its own events in between, leaves the call
   as it was, marker aside, so the agent can ask for another transfer.
   */
  lemma FailedTransferRestoresCall(w: World, sip: Sip, es: seq<Event>, cfg: Config)
    requires DeskInv(w.desk, cfg) && MayInitiate(w.desk, sip)
    requires var i, asked := |w.desk.transfers|, Apply(w, Ask(sip, true));
             && AllForTransfer(asked, es, i)
             && i < |Run(asked, es).desk.transfers| && Run(asked, es).desk.transfers[i].stage == TransferFailed
    ensures var end := Run(Apply(w, Ask(sip, true)), es).desk;
            end.call == Marked(w.desk.call, None) && MayInitiate(end, sip)
  {
    var asked := Apply(w, Ask(sip, true));
    InitiateInv(w.desk, sip, true, cfg);
    UnderwayRun(w.desk, asked, es, |w.desk.transfers|, cfg);
  }

  /** A new transfer may start exactly when the agent's call is bridged and no transfer runs. */
  lemma MayInitiateExactly(w: World, es: seq<Event>, sip: Sip, cfg: Config)
    requires Opened(w, cfg)
    ensures var d := Run(w, es).desk;
            MayInitiate(d, sip) <==>
              && sip in d.call.active && d.call.session.Some? && d.call.session.value.stage == Bridged
              && forall i :: 0 <= i < |d.transfers| ==> d.transfers[i].stage != Transferring
  {
    RunInv(w, es, cfg);
  }
}
