/**
 Order fulfilment under concurrency (lib/billing.js): any number of completions of one Stripe
 order, which interleave with each other and with cancellations at each database statement.
 */
module Fulfilment {
  import opened NumberOrders

  /** Where one call of `completeCheckoutSession` stands between two database statements. */
  datatype Phase =
    | Started
    | WantsLock
    | Locked
    | Claimed
    | Buying(next: nat)
    | Releasing
    | Done

  /** Where one call of `cancelManualOrder` stands. */
  datatype CancelPhase = Reading | Writing | Cancelled

  /**
   The order row's status, whether its lock row exists, the attempts and cancellations under way,
   and the statuses the purchase loop has written, in order.
   */
  datatype World = World(
    status: OrderStatus,
    lockRow: bool,
    attempts: map<nat, Phase>,
    cancels: map<nat, CancelPhase>,
    closings: seq<OrderStatus>)

  datatype Event =
    | Begin(attempt: nat)
    | Proceed(attempt: nat, ok: bool, outcome: OrderStatus)
    | BeginCancel(cancel: nat)
    | ProceedCancel(cancel: nat)

  /**
   The next database statement of an attempt. `ok` is false when the call throws: before it has
   the lock it ends, afterwards it releases the lock (an error in doing so is swallowed, and leaves
   the lock row behind). While buying, `outcome` is a closing status when the loop is over and the
   status is written.
   */
  function Step(w: World, a: nat, ok: bool, outcome: OrderStatus): World
    requires a in w.attempts
  {
    match w.attempts[a]
    case Started => w.(attempts := w.attempts[a := if !ok || Processed(w.status) then Done else WantsLock])
    case WantsLock =>
      if !ok || w.lockRow then w.(attempts := w.attempts[a := Done])
      else w.(lockRow := true, attempts := w.attempts[a := Locked])
    case Locked =>
      if ok && Claimable(w.status) then w.(status := PAID, attempts := w.attempts[a := Claimed])
      else w.(attempts := w.attempts[a := Releasing])
    case Claimed => w.(attempts := w.attempts[a := if ok then Buying(0) else Releasing])
    case Buying(k) =>
      if !Closing(outcome) then w.(attempts := w.attempts[a := Buying(k + 1)])
      else if ok then
        w.(status := outcome, closings := w.closings + [outcome], attempts := w.attempts[a := Releasing])
      else w.(attempts := w.attempts[a := Releasing])
    case Releasing => w.(lockRow := !ok && w.lockRow, attempts := w.attempts[a := Done])
    case Done => w
  }

  function CancelStep(w: World, x: nat): World
    requires x in w.cancels
  {
    match w.cancels[x]
    case Reading => w.(cancels := w.cancels[x := if Processed(w.status) then Cancelled else Writing])
    case Writing => w.(status := CANCELLED, cancels := w.cancels[x := Cancelled])
    case Cancelled => w
  }

  function Apply(w: World, e: Event): World {
    match e
    case Begin(a) => if a in w.attempts then w else w.(attempts := w.attempts[a := Started])
    case Proceed(a, ok, outcome) => if a in w.attempts then Step(w, a, ok, outcome) else w
    case BeginCancel(x) => if x in w.cancels then w else w.(cancels := w.cancels[x := Reading])
    case ProceedCancel(x) => if x in w.cancels then CancelStep(w, x) else w
  }

  function Run(w: World, es: seq<Event>): World {
    if es == [] then w else Apply(Run(w, es[..|es| - 1]), es[|es| - 1])
  }

  /** A Stripe order that is waiting for its payment to be confirmed. */
  function NewOrder(): World {
    World(PENDING, false, map[], map[], [])
  }

  predicate HoldsLock(p: Phase) {
    p.Locked? || p.Claimed? || p.Buying? || p.Releasing?
  }

  /** Between a successful claim and the closing write. */
  predicate Purchasing(p: Phase) {
    p.Claimed? || p.Buying?
  }

  /** Who is between acquiring and releasing holds the lock row, alone. */
  ghost predicate OneHolder(w: World) {
    && (forall a :: a in w.attempts && HoldsLock(w.attempts[a]) ==> w.lockRow)
    && (forall a, b :: a in w.attempts && b in w.attempts && HoldsLock(w.attempts[a]) && HoldsLock(w.attempts[b]) ==> a == b)
  }

  /** At most one closing write, after which nobody buys. */
  ghost predicate OneClosing(w: World) {
    && |w.closings| <= 1
    && (w.closings != [] ==>
          && Closing(w.closings[0])
          && (w.status == w.closings[0] || w.status == CANCELLED)
          && forall a :: a in w.attempts ==> !Purchasing(w.attempts[a]))
  }

  ghost predicate Exclusive(w: World) {
    OneHolder(w) && OneClosing(w)
  }

  lemma StepOneHolder(w: World, a: nat, ok: bool, outcome: OrderStatus)
    requires OneHolder(w) && a in w.attempts
    ensures OneHolder(Step(w, a, ok, outcome))
  {
    var w' := Step(w, a, ok, outcome);
    if w.attempts[a] != Done {
      OneMoves(w, w', a, w'.attempts[a]);
    }
  }

  /** Only this attempt moves; it gets the lock when it is free, and gives it up only if it had it. */
  lemma OneMoves(w: World, w': World, a: nat, p': Phase)
    requires OneHolder(w) && a in w.attempts && w'.attempts == w.attempts[a := p']
    requires HoldsLock(p') ==> w'.lockRow && (HoldsLock(w.attempts[a]) || !w.lockRow)
    requires !HoldsLock(p') ==> w'.lockRow == w.lockRow || HoldsLock(w.attempts[a])
    ensures OneHolder(w')
  {
  }

  lemma StepOneClosing(w: World, a: nat, ok: bool, outcome: OrderStatus)
    requires OneHolder(w) && OneClosing(w) && a in w.attempts
    ensures OneClosing(Step(w, a, ok, outcome))
  {
    if w.attempts[a].Buying? {
      assert w.closings == [];
      forall b | b in w.attempts && b != a ensures !HoldsLock(w.attempts[b]) {}
    }
  }

  lemma StepExclusive(w: World, a: nat, ok: bool, outcome: OrderStatus)
    requires Exclusive(w) && a in w.attempts
    ensures Exclusive(Step(w, a, ok, outcome))
  {
    StepOneHolder(w, a, ok, outcome);
    StepOneClosing(w, a, ok, outcome);
  }

  lemma ApplyExclusive(w: World, e: Event)
    requires Exclusive(w)
    ensures Exclusive(Apply(w, e))
  {
    match e
    case Proceed(a, ok, outcome) =>
      if a in w.attempts {
        StepExclusive(w, a, ok, outcome);
      }
    case _ =>
  }

  lemma {:induction false} RunExclusive(w: World, es: seq<Event>)
    requires Exclusive(w)
    ensures Exclusive(Run(w, es))
  {
    if es != [] {
      RunExclusive(w, es[..|es| - 1]);
      ApplyExclusive(Run(w, es[..|es| - 1]), es[|es| - 1]);
    }
  }

  /**
   However many completions of one order run, and whatever cancellations: at most one is inside
   the purchase loop at a time, and the closing status is written at most once.
   */
  lemma OneFulfilment(es: seq<Event>, a: nat, b: nat)
    ensures var w := Run(NewOrder(), es);
            && |w.closings| <= 1
            && (a in w.attempts && b in w.attempts && Purchasing(w.attempts[a]) && Purchasing(w.attempts[b]) ==> a == b)
  {
    RunExclusive(NewOrder(), es);
  }

  predicate ClosedAs(w: World, s: OrderStatus) {
    w.closings == [s]
  }

  /** Some cancellation has read the order as not yet fulfilled and is about to write. */
  predicate CancelPending(w: World) {
    exists x :: x in w.cancels && w.cancels[x] == Writing
  }

  /**
   After the closing write the status is the closing one for good, unless a cancellation
   overwrites it; and a fulfilled or partial order only loses its status to a cancellation that
   had read it before the closing write.
   */
  lemma {:induction false} ClosingStatusStays(es: seq<Event>, more: seq<Event>, s: OrderStatus)
    requires ClosedAs(Run(NewOrder(), es), s)
    ensures var w := Run(Run(NewOrder(), es), more);
            && ClosedAs(w, s) && (w.status == s || w.status == CANCELLED)
            && (s in {FULFILLED, PARTIAL} && !CancelPending(Run(NewOrder(), es)) && Run(NewOrder(), es).status == s ==>
                 w.status == s && !CancelPending(w))
  {
    RunExclusive(NewOrder(), es);
    RunExclusive(Run(NewOrder(), es), more);
    if more != [] {
      var front, last := more[..|more| - 1], more[|more| - 1];
      ClosingStatusStays(es, front, s);
      RunExclusive(Run(NewOrder(), es), front);
      ClosedStep(Run(Run(NewOrder(), es), front), last, s);
    }
  }

  function StatusAfter(w: World, more: seq<Event>): OrderStatus {
    Run(w, more).status
  }

  /**
   A fulfilled or partial order keeps its status over every continuation exactly when it has it
   and no cancellation that has read the order is about to write.
   */
  lemma ProcessedStaysExactly(es: seq<Event>, s: OrderStatus)
    requires ClosedAs(Run(NewOrder(), es), s) && s in {FULFILLED, PARTIAL}
    ensures var w := Run(NewOrder(), es);
            (forall more :: StatusAfter(w, more) == s) <==> w.status == s && !CancelPending(w)
  {
    var w := Run(NewOrder(), es);
    if w.status == s && !CancelPending(w) {
      forall more ensures StatusAfter(w, more) == s {
        ClosingStatusStays(es, more, s);
      }
    } else if w.status != s {
      assert StatusAfter(w, []) != s;
    } else {
      var x :| x in w.cancels && w.cancels[x] == Writing;
      var more := [ProceedCancel(x)];
      assert more[..0] == [];
      assert Run(w, more) == Apply(w, ProceedCancel(x));
      assert StatusAfter(w, more) != s;
    }
  }

  lemma ClosedStep(w: World, e: Event, s: OrderStatus)
    requires Exclusive(w) && ClosedAs(w, s)
    ensures ClosedAs(Apply(w, e), s)
    ensures Processed(s) && w.status == s && !CancelPending(w) ==> Apply(w, e).status == s && !CancelPending(Apply(w, e))
  {
    assert forall a :: a in w.attempts ==> !Purchasing(w.attempts[a]);
  }

  lemma RunThree(w: World, a: Event, b: Event, c: Event)
    ensures Run(w, [a, b, c]) == Apply(Apply(Apply(w, a), b), c)
  {
    assert [a, b, c][..2] == [a, b] && [a, b][..1] == [a] && [a][..0] == [];
    assert Run(w, [a]) == Apply(w, a);
    assert Run(w, [a, b]) == Apply(Run(w, [a]), b);
  }

  lemma {:induction false} RunOn(w: World, es: seq<Event>, more: seq<Event>)
    ensures Run(w, es + more) == Run(Run(w, es), more)
  {
    if more == [] {
      assert es + more == es;
    } else {
      RunOn(w, es, more[..|more| - 1]);
      assert (es + more)[..|es + more| - 1] == es + more[..|more| - 1];
    }
  }

  // ---- the lock row ----

  predicate Held(w: World) {
    exists a :: a in w.attempts && HoldsLock(w.attempts[a])
  }

  /** The lock row is there, and no attempt is there to release it. */
  predicate LeftOver(w: World) {
    w.lockRow && !Held(w)
  }

  /** An attempt that releases the lock fails to delete its row. */
  predicate FailsRelease(w: World, e: Event) {
    e.Proceed? && !e.ok && e.attempt in w.attempts && w.attempts[e.attempt] == Releasing
  }

  predicate ReleaseFailed(es: seq<Event>) {
    exists k :: 0 <= k < |es| && FailsRelease(Run(NewOrder(), es[..k]), es[k])
  }

  lemma StepLeftOver(w: World, a: nat, ok: bool, outcome: OrderStatus)
    requires OneHolder(w) && a in w.attempts
    ensures LeftOver(Step(w, a, ok, outcome)) <==> LeftOver(w) || (!ok && w.attempts[a] == Releasing)
  {
    var w' := Step(w, a, ok, outcome);
    assert forall b :: b in w.attempts && b != a ==> b in w'.attempts && w'.attempts[b] == w.attempts[b];
    assert a in w'.attempts;
    if HoldsLock(w.attempts[a]) {
      forall b | b in w'.attempts && b != a ensures !HoldsLock(w'.attempts[b]) {
        assert !HoldsLock(w.attempts[b]);
      }
    } else if Held(w) {
      var b :| b in w.attempts && HoldsLock(w.attempts[b]);
      assert HoldsLock(w'.attempts[b]);
    }
  }

  lemma ApplyLeftOver(w: World, e: Event)
    requires OneHolder(w)
    ensures LeftOver(Apply(w, e)) <==> LeftOver(w) || FailsRelease(w, e)
  {
    match e
    case Proceed(a, ok, outcome) =>
      if a in w.attempts {
        StepLeftOver(w, a, ok, outcome);
      }
    case Begin(a) =>
      if Held(w) {
        var b :| b in w.attempts && HoldsLock(w.attempts[b]);
        assert b in Apply(w, e).attempts && HoldsLock(Apply(w, e).attempts[b]);
      }
    case _ =>
  }

  lemma ReleaseFailedNext(es: seq<Event>)
    requires es != []
    ensures var front := es[..|es| - 1];
            ReleaseFailed(es) <==> ReleaseFailed(front) || FailsRelease(Run(NewOrder(), front), es[|es| - 1])
  {
    var front := es[..|es| - 1];
    forall k | 0 <= k < |front| ensures front[..k] == es[..k] && front[k] == es[k] {}
    if ReleaseFailed(es) {
      var k :| 0 <= k < |es| && FailsRelease(Run(NewOrder(), es[..k]), es[k]);
      assert k < |front| ==> FailsRelease(Run(NewOrder(), front[..k]), front[k]);
    }
    if ReleaseFailed(front) {
      var k :| 0 <= k < |front| && FailsRelease(Run(NewOrder(), front[..k]), front[k]);
      assert FailsRelease(Run(NewOrder(), es[..k]), es[k]);
    }
  }

  /**
   Whatever an attempt runs into, it gives its lock back: over every run a lock row is left over
   exactly if some deletion of one failed, which the code ignores.
   */
  lemma {:induction false} LeftOverExactly(es: seq<Event>)
    ensures LeftOver(Run(NewOrder(), es)) <==> ReleaseFailed(es)
  {
    if es != [] {
      var front := es[..|es| - 1];
      LeftOverExactly(front);
      RunExclusive(NewOrder(), front);
      ApplyLeftOver(Run(NewOrder(), front), es[|es| - 1]);
      ReleaseFailedNext(es);
    }
  }

  // ---- from which states the order can be closed ----

  /** What one attempt does with the order, by the order's status. */
  lemma AttemptExactly(w: World, a: nat, ok: bool, outcome: OrderStatus)
    requires a in w.attempts
    ensures var p, w' := w.attempts[a], Step(w, a, ok, outcome);
            && (p.Started? ==> (w'.attempts[a] == WantsLock <==> ok && w.status !in {FULFILLED, PARTIAL}))
            && (p.Locked? ==> (w'.attempts[a] == Claimed <==> ok && w.status !in {FULFILLED, PARTIAL, FAILED, CANCELLED}))
            && (w'.status != w.status ==> p.Locked? || p.Buying?)
            && (p.Locked? ==> w'.status == if w'.attempts[a] == Claimed then PAID else w.status)
            && (w'.closings != w.closings <==> p.Buying? && ok && outcome in {FULFILLED, PARTIAL, FAILED})
  {
    assert w.closings + [outcome] != w.closings;
  }

  predicate Bought(w: World) {
    exists a :: a in w.attempts && Purchasing(w.attempts[a])
  }

  /** Nobody buys, and nobody will: the status admits no claim, or a lock row is left over. */
  predicate Shut(w: World) {
    !Bought(w) && (w.status in {FULFILLED, PARTIAL, FAILED, CANCELLED} || (w.lockRow && !Held(w)))
  }

  predicate SameClosings(w: World, w': World) {
    Shut(w') && w'.closings == w.closings
  }

  lemma ShutStep(w: World, a: nat, ok: bool, outcome: OrderStatus)
    requires Shut(w) && a in w.attempts
    ensures SameClosings(w, Step(w, a, ok, outcome))
  {
    var w' := Step(w, a, ok, outcome);
    assert !Purchasing(w.attempts[a]);
    assert forall b :: b in w'.attempts && b != a ==> b in w.attempts && w'.attempts[b] == w.attempts[b];
    if w.status in {FULFILLED, PARTIAL, FAILED, CANCELLED} {
      assert !Purchasing(w'.attempts[a]);
    } else {
      assert !HoldsLock(w.attempts[a]) && !HoldsLock(w'.attempts[a]);
    }
  }

  lemma ShutApply(w: World, e: Event)
    requires Shut(w)
    ensures SameClosings(w, Apply(w, e))
  {
    match e
    case Proceed(a, ok, outcome) =>
      if a in w.attempts {
        ShutStep(w, a, ok, outcome);
      }
    case Begin(a) =>
      assert forall b :: b in Apply(w, e).attempts && b !in w.attempts ==> Apply(w, e).attempts[b] == Started;
    case _ =>
  }

  lemma {:induction false} ShutRun(w: World, more: seq<Event>)
    requires Shut(w)
    ensures SameClosings(w, Run(w, more))
  {
    if more != [] {
      ShutRun(w, more[..|more| - 1]);
      ShutApply(Run(w, more[..|more| - 1]), more[|more| - 1]);
    }
  }

  /** Some continuation writes this closing status next. */
  ghost predicate Closes(w: World, s: OrderStatus) {
    exists more :: ClosingsAfter(w, more) == w.closings + [s]
  }

  function ClosingsAfter(w: World, more: seq<Event>): seq<OrderStatus> {
    Run(w, more).closings
  }

  lemma ClosesBefore(w: World, e: Event, w': World, s: OrderStatus)
    requires w' == Apply(w, e) && w'.closings == w.closings && Closes(w', s)
    ensures Closes(w, s)
  {
    var more :| ClosingsAfter(w', more) == w'.closings + [s];
    RunOn(w, [e], more);
    assert [e][..0] == [] && Run(w, [e]) == w';
    assert ClosingsAfter(w, [e] + more) == w.closings + [s];
  }

  lemma BuyerCloses(w: World, a: nat, s: OrderStatus)
    requires a in w.attempts && Purchasing(w.attempts[a]) && s in {FULFILLED, PARTIAL, FAILED}
    ensures Closes(w, s)
    decreases !w.attempts[a].Buying?
  {
    if w.attempts[a].Buying? {
      assert [Proceed(a, true, s)][..0] == [];
      assert Run(w, [Proceed(a, true, s)]) == Apply(w, Proceed(a, true, s));
      assert ClosingsAfter(w, [Proceed(a, true, s)]) == w.closings + [s];
    } else {
      var w' := Apply(w, Proceed(a, true, s));
      BuyerCloses(w', a, s);
      ClosesBefore(w, Proceed(a, true, s), w', s);
    }
  }

  lemma HolderCloses(w: World, a: nat, s: OrderStatus)
    requires a in w.attempts && w.attempts[a].Locked? && s in {FULFILLED, PARTIAL, FAILED}
    requires w.status !in {FULFILLED, PARTIAL, FAILED, CANCELLED}
    ensures Closes(w, s)
  {
    var w' := Apply(w, Proceed(a, true, s));
    BuyerCloses(w', a, s);
    ClosesBefore(w, Proceed(a, true, s), w', s);
  }

  /** A number that no member of the set reaches. */
  lemma Unused(s: set<nat>) returns (n: nat)
    ensures forall a :: a in s ==> a < n
  {
    if s == {} {
      n := 0;
    } else {
      var a :| a in s;
      var m := Unused(s - {a});
      assert forall b :: b in s ==> b == a || b in s - {a};
      n := if a < m then m else a + 1;
    }
  }

  lemma FreeLockCloses(w: World, s: OrderStatus)
    requires !w.lockRow && s in {FULFILLED, PARTIAL, FAILED}
    requires w.status !in {FULFILLED, PARTIAL, FAILED, CANCELLED}
    ensures Closes(w, s)
  {
    var a := Unused(w.attempts.Keys);
    assert a !in w.attempts;
    var go := Proceed(a, true, s);
    var w1 := Apply(w, Begin(a));
    var w2 := Apply(w1, go);
    var w3 := Apply(w2, go);
    HolderCloses(w3, a, s);
    ClosesBefore(w2, go, w3, s);
    ClosesBefore(w1, go, w2, s);
    ClosesBefore(w, Begin(a), w1, s);
  }

  lemma OpenCloses(w: World, s: OrderStatus)
    requires !Shut(w) && s in {FULFILLED, PARTIAL, FAILED}
    ensures Closes(w, s)
  {
    if Bought(w) {
      var a :| a in w.attempts && Purchasing(w.attempts[a]);
      BuyerCloses(w, a, s);
    } else if !w.lockRow {
      FreeLockCloses(w, s);
    } else {
      var a :| a in w.attempts && HoldsLock(w.attempts[a]);
      assert !Purchasing(w.attempts[a]);
      if w.attempts[a].Locked? {
        HolderCloses(w, a, s);
      } else {
        var w' := Apply(w, Proceed(a, true, s));
        FreeLockCloses(w', s);
        ClosesBefore(w, Proceed(a, true, s), w', s);
      }
    }
  }

  /**
   An order can still be closed, as fulfilled, partial or failed, exactly while somebody buys, or
   its status is no closing one and not CANCELLED and the lock row is free or held by somebody: so
   also after a purchase that threw has left it PAID, and not once a lock row is left over.
   */
  lemma ClosesExactly(es: seq<Event>, s: OrderStatus)
    ensures var w := Run(NewOrder(), es);
            Closes(w, s) <==>
              && s in {FULFILLED, PARTIAL, FAILED}
              && ((exists a :: a in w.attempts && (w.attempts[a].Claimed? || w.attempts[a].Buying?))
                  || (&& w.status !in {FULFILLED, PARTIAL, FAILED, CANCELLED}
                      && (!w.lockRow || exists a :: a in w.attempts && (w.attempts[a].Locked? || w.attempts[a].Releasing?))))
  {
    var w := Run(NewOrder(), es);
    if Closes(w, s) {
      var more :| ClosingsAfter(w, more) == w.closings + [s];
      if Shut(w) {
        ShutRun(w, more);
      }
      RunOn(NewOrder(), es, more);
      RunExclusive(NewOrder(), es + more);
      assert (w.closings + [s])[|w.closings|] == s;
    }
    if !Shut(w) && s in {FULFILLED, PARTIAL, FAILED} {
      OpenCloses(w, s);
    }
    ShutMeans(w);
  }

  lemma ShutMeans(w: World)
    ensures !Shut(w) <==>
              || (exists a :: a in w.attempts && (w.attempts[a].Claimed? || w.attempts[a].Buying?))
              || (&& w.status !in {FULFILLED, PARTIAL, FAILED, CANCELLED}
                  && (!w.lockRow || exists a :: a in w.attempts && (w.attempts[a].Locked? || w.attempts[a].Releasing?)))
  {
  }

  /** An attempt gets the lock while a cancellation is yet to begin. */
  lemma LockTaken()
    ensures Run(NewOrder(), [Begin(0), Proceed(0, true, PENDING), Proceed(0, true, PENDING)])
            == World(PENDING, true, map[0 := Locked], map[], [])
  {
    RunThree(NewOrder(), Begin(0), Proceed(0, true, PENDING), Proceed(0, true, PENDING));
  }

  /** The attempt claims the order; the cancellation reads it as not yet fulfilled. */
  lemma CancelRead()
    ensures Run(World(PENDING, true, map[0 := Locked], map[], []), [Proceed(0, true, PENDING), BeginCancel(0), ProceedCancel(0)])
            == World(PAID, true, map[0 := Claimed], map[0 := Writing], [])
  {
    RunThree(World(PENDING, true, map[0 := Locked], map[], []), Proceed(0, true, PENDING), BeginCancel(0), ProceedCancel(0));
  }

  /** The attempt fulfils the order, then the cancellation writes. */
  lemma CancelWrites()
    ensures Run(World(PAID, true, map[0 := Claimed], map[0 := Writing], []),
                [Proceed(0, true, PENDING), Proceed(0, true, FULFILLED), ProceedCancel(0)])
            == World(CANCELLED, true, map[0 := Releasing], map[0 := Cancelled], [FULFILLED])
  {
    RunThree(World(PAID, true, map[0 := Claimed], map[0 := Writing], []),
             Proceed(0, true, PENDING), Proceed(0, true, FULFILLED), ProceedCancel(0));
  }

  lemma ReachRead() returns (es: seq<Event>)
    ensures Run(NewOrder(), es) == World(PAID, true, map[0 := Claimed], map[0 := Writing], [])
  {
    LockTaken();
    CancelRead();
    es := [Begin(0), Proceed(0, true, PENDING), Proceed(0, true, PENDING)];
    RunOn(NewOrder(), es, [Proceed(0, true, PENDING), BeginCancel(0), ProceedCancel(0)]);
    es := es + [Proceed(0, true, PENDING), BeginCancel(0), ProceedCancel(0)];
  }

  /** A cancellation checks and writes in two statements, and so can overwrite a fulfilled order. */
  lemma CancellationCanOverwrite()
    ensures exists es :: Run(NewOrder(), es).closings == [FULFILLED] && Run(NewOrder(), es).status == CANCELLED
  {
    var es := ReachRead();
    var more := [Proceed(0, true, PENDING), Proceed(0, true, FULFILLED), ProceedCancel(0)];
    CancelWrites();
    RunOn(NewOrder(), es, more);
    assert Run(NewOrder(), es + more).closings == [FULFILLED];
  }
}
