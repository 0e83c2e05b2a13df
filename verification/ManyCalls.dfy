/**
 Many calls over one store: what each of them sees of a sequence of handlers, its own and the
 others' (Switchboard.dfy), is one of its own runs.
 */
module ManyCalls {
  import opened Options
  import opened CallState
  import opened InboundRules
  import opened InboundRuns
  import opened InboundAgreement
  import opened InboundExclusion
  import opened InboundRing

  /** A handler runs for one call on one of its events. */
  datatype Step = Step(id: CallId, event: Event)

  type Worlds = map<CallId, World>

  /** Another call's handler takes agent entries from this one at most (`OthersOnlyLose`). */
  ghost predicate Loses(w: World, w': World) {
    w' == w.(call := w'.call) && exists rung, talking :: w'.call == LoseAgents(w.call, rung, talking)
  }

  ghost predicate Moves(ws: Worlds, ws': Worlds, s: Step) {
    && ws'.Keys == ws.Keys && s.id in ws
    && ws'[s.id] == Apply(ws[s.id], s.event)
    && forall other :: other in ws && other != s.id ==> Loses(ws[other], ws'[other])
  }

  /** Every state follows from the one before by one handler. */
  ghost predicate Path(states: seq<Worlds>, steps: seq<Step>) {
    && |states| == |steps| + 1
    && forall k: nat :: k < |steps| ==> Moves(states[k], states[k + 1], steps[k])
  }

  lemma LossIsAnEvent(w: World, w': World) returns (e: Event)
    requires Loses(w, w')
    ensures w' == Apply(w, e)
  {
    var rung, talking :| w'.call == LoseAgents(w.call, rung, talking);
    e := AgentEntriesLost(rung, talking);
  }

  ghost predicate IsStep(w: World, w': World) {
    exists e :: w' == Apply(w, e)
  }

  lemma MoveIsAnEvent(ws: Worlds, ws': Worlds, s: Step, id: CallId)
    requires Moves(ws, ws', s) && id in ws
    ensures IsStep(ws[id], ws'[id])
  {
    if s.id == id {
      assert ws'[id] == Apply(ws[id], s.event);
    } else {
      var e := LossIsAnEvent(ws[id], ws'[id]);
    }
  }

  lemma NextState(w: World, es: seq<Event>, v: World, v': World) returns (more: seq<Event>)
    requires v == Run(w, es) && IsStep(v, v')
    ensures v' == Run(w, more)
  {
    var e :| v' == Apply(v, e);
    more := es + [e];
    assert more[..|es|] == es;
  }

  lemma {:induction false} Present(states: seq<Worlds>, steps: seq<Step>, id: CallId, k: nat)
    requires Path(states, steps) && id in states[0] && k < |states|
    ensures id in states[k]
  {
    if k > 0 {
      Present(states, steps, id, k - 1);
      assert Moves(states[k - 1], states[k], steps[k - 1]);
    }
  }

  lemma PathStep(states: seq<Worlds>, steps: seq<Step>, id: CallId, k: nat)
    requires Path(states, steps) && id in states[0] && k < |steps|
    ensures id in states[k] && id in states[k + 1] && IsStep(states[k][id], states[k + 1][id])
  {
    Present(states, steps, id, k);
    Present(states, steps, id, k + 1);
    assert Moves(states[k], states[k + 1], steps[k]);
    MoveIsAnEvent(states[k], states[k + 1], steps[k], id);
  }

  /** Between any two states of a path, each call has gone through a run of its own. */
  lemma {:induction false} Projects(states: seq<Worlds>, steps: seq<Step>, id: CallId, j: nat, k: nat) returns (es: seq<Event>)
    requires Path(states, steps) && id in states[0] && j <= k < |states|
    ensures id in states[j] && id in states[k] && states[k][id] == Run(states[j][id], es)
  {
    Present(states, steps, id, j);
    if j == k {
      es := [];
    } else {
      var first := Projects(states, steps, id, j, k - 1);
      PathStep(states, steps, id, k - 1);
      es := NextState(states[j][id], first, states[k - 1][id], states[k][id]);
    }
  }

  /**
   So what holds of the runs of one call holds of each of many. Each call's recorded winner is its
   claim, from one moment to the next, whatever the handlers of the others do.
   */
  lemma EveryCallAgrees(states: seq<Worlds>, steps: seq<Step>, id: CallId, c: Call, outcomes: seq<Option<CallId>>, now: nat,
                        j: nat, k: nat)
    requires Path(states, steps) && id in states[0] && Fresh(c) && states[0][id] == Start(c, outcomes, now)
    requires j <= k < |states|
    ensures id in states[j] && id in states[k]
    ensures var before, after := states[j][id].call, states[k][id].call;
            after.session.Some? ==>
              && after.session.value.winnerLeg == after.session.value.connectedLeg == after.winner
              && (before.winner.Some? ==> after.winner == before.winner)
  {
    var first := Projects(states, steps, id, 0, j);
    var more := Projects(states, steps, id, j, k);
    RunOn(Start(c, outcomes, now), first, more);
    assert (first + more)[..|first|] == first;
    WinnerAgreement(c, outcomes, now, first + more, |first|);
  }

  /** And in a simultaneous ring no leg of any call is forgotten once it is won. */
  lemma NoCallForgetsALeg(states: seq<Worlds>, steps: seq<Step>, id: CallId, c: Call, outcomes: seq<Option<CallId>>, now: nat,
                          k: nat)
    requires Path(states, steps) && id in states[0] && Fresh(c) && c.session.value.cfg.simultaneous
    requires states[0][id] == Start(c, outcomes, now) && k < |states|
    ensures id in states[k]
    ensures var w := states[k][id];
            w.call.session.Some? && w.call.winner.Some? && AllRegistered(w) ==>
              |Slots(w.call.session.value)| == |w.dials| &&
              forall i :: 0 <= i < |w.dials| ==>
                Slots(w.call.session.value)[i].status != Pending
                && (LegOf(w.dials[i]).Some? ==> AccountedFor(w, LegOf(w.dials[i]).value))
  {
    var es := Projects(states, steps, id, 0, k);
    NoLegForgotten(c, outcomes, now, es);
  }
}
