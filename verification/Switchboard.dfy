/**
 The handlers of InboundController.dfy served one after another for many calls: over the calls'
 worlds that is a path as in ManyCalls.dfy, for as long as no two calls share a leg.
 */
module Switchboard {
  import opened Options
  import opened CallState
  import opened InboundRules
  import opened InboundRuns
  import opened InboundController
  import opened ManyCalls

  predicate Shows(c: Controller, ws: Worlds)
    reads c, c.store
  {
    forall id :: id in ws ==> c.View(id) == ws[id].call
  }

  function ClaimedOf(c: Call): set<CallId> {
    if c.session.Some? then ClaimedLegs(c.session.value) else {}
  }

  /** The legs whose index entries an event's handler may write. */
  function Touches(w: World, e: Event): set<CallId> {
    if !Enabled(w, e) then {}
    else match e
      case DialRegistered(i) => ResultLeg(w.dials[i].result)
      case DialEndReported(_, _, _, outcomes, _) => OutcomeLegs(outcomes)
      case HangupReported(_, _, outcomes, _) => ClaimedOf(w.call) + OutcomeLegs(outcomes)
      case CallerHungUp(_) => ClaimedOf(w.call)
      case _ => {}
  }

  predicate Clashes(w: World, legs: set<CallId>) {
    !(w.call.index !! legs)
  }

  /** Some of those legs is indexed to another call. */
  predicate SharesLeg(ws: Worlds, s: Step) {
    s.id in ws && exists other :: other in ws && other != s.id && Clashes(ws[other], Touches(ws[s.id], s.event))
  }

  /** The worlds after a handler, as the store shows the calls. */
  function After(c: Controller, ws: Worlds, s: Step): Worlds
    requires s.id in ws
    reads c, c.store
  {
    map id | id in ws :: if id == s.id then Apply(ws[id], s.event) else ws[id].(call := c.View(id))
  }

  /** An event that some handler of the call is there for. */
  predicate Handled(e: Event) {
    !e.AgentEntriesLost?
  }

  predicate ServedBy(ws: Worlds, steps: seq<Step>) {
    forall k :: 0 <= k < |steps| ==> steps[k].id in ws && Handled(steps[k].event)
  }

  method TapAgent(c: Controller, id: CallId, sip: Sip, now: nat)
    modifies c.store
    ensures c.View(id) == AgentAccepted(old(c.View(id)), sip, now)
    ensures c.Rest(id) == old(c.Rest(id)) && c.Aside(id, {})
  {
    if sip in c.store.agentPending && c.store.agentPending[sip] == id {
      c.MarkAgentWebRtcAccepted(sip, now);
    }
  }

  /** The handler for an event of one call. */
  method Dispatch(c: Controller, id: CallId, w: World, e: Event)
    requires c.View(id) == w.call && Enabled(w, e) && Handled(e)
    modifies c`commands, c.store
    ensures c.View(id) == Apply(w, e).call
    ensures c.Rest(id) == old(c.Rest(id)) && c.Aside(id, Touches(w, e))
  {
    match e
    case LegCreated(_, _) =>
    case DialReturned(i) =>
      if w.dials[i].Created? {
        c.IndexAgentRing(id, TargetSip(w.cfg, Some(i)));
      }
    case DialRegistered(i) => c.RegisterOutboundDialResult(id, i, w.dials[i].result);
    case DialsFinished(now) => c.FinishSimultaneousDialling(id, now);
    case AnswerReported(leg, kind, _, now, ok) => c.HandleAnswer(id, leg, kind, now, ok);
    case DialEndReported(leg, wasAnswered, _, outcomes, now) => c.HandleDialEnded(id, leg, wasAnswered, outcomes, now);
    case HangupReported(leg, _, outcomes, now) => c.HandleLegHangup(id, leg, outcomes, now);
    case CallerHungUp(now) => c.HandleCallerHangup(id, now);
    case AgentTapped(sip, now) => TapAgent(c, id, sip, now);
    case PromptEnded(prompt) => c.HandleSpeakEnded(id, prompt);
  }

  /** One handler: its call makes the event's step, the others lose agent entries at most. */
  method Handle(c: Controller, ws: Worlds, s: Step) returns (ws': Worlds)
    requires s.id in ws && Shows(c, ws) && Handled(s.event) && !SharesLeg(ws, s)
    modifies c`commands, c.store
    ensures Moves(ws, ws', s) && Shows(c, ws')
  {
    var w := ws[s.id];
    if Enabled(w, s.event) {
      Dispatch(c, s.id, w, s.event);
    }
    ws' := After(c, ws, s);
    forall other | other in ws && other != s.id ensures Loses(ws[other], ws'[other]) {
      assert !Clashes(ws[other], Touches(w, s.event));
      var rung, talking := c.OthersOnlyLose(Bystander(other, s.id, Touches(w, s.event)));
      assert ws'[other].call == LoseAgents(ws[other].call, rung, talking);
    }
  }

  /**
   Any sequence of handlers, up to the first whose call would write the index entry of a leg that
   is another call's.
   */
  method Serve(c: Controller, ws: Worlds, steps: seq<Step>) returns (states: seq<Worlds>, served: nat)
    requires Shows(c, ws) && ServedBy(ws, steps)
    modifies c`commands, c.store
    ensures served <= |steps| && Path(states, steps[..served]) && states[0] == ws && Shows(c, states[served])
    ensures served < |steps| ==> SharesLeg(states[served], steps[served])
  {
    states, served := [ws], 0;
    var current := ws;
    while served < |steps|
      invariant served <= |steps| && Path(states, steps[..served]) && states[0] == ws
      invariant current == states[served] && Shows(c, current) && ServedBy(current, steps)
    {
      if SharesLeg(current, steps[served]) {
        return;
      }
      current := Handle(c, current, steps[served]);
      PathOn(states, steps, served, current);
      states, served := states + [current], served + 1;
    }
  }

  lemma PathOn(states: seq<Worlds>, steps: seq<Step>, served: nat, next: Worlds)
    requires served < |steps| && Path(states, steps[..served]) && Moves(states[served], next, steps[served])
    ensures Path(states + [next], steps[..served + 1])
  {
    var all, more := states + [next], steps[..served + 1];
    forall k: nat | k < |more| ensures Moves(all[k], all[k + 1], more[k]) {
      if k < served {
        assert steps[..served][k] == more[k];
        assert Moves(states[k], states[k + 1], steps[..served][k]);
      }
    }
  }
}
