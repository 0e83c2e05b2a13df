/**
 One bank order with approvals, confirmations, cancellations, proof uploads and rejections that
 interleave at each database statement (lib/billing.js).
 */
module BankRaces {
  import opened BankOrders
  import opened NumberOrders
  import opened Options
  import F = Fulfilment

  /** Where an upload or a rejection stands: its check and its write are two statements. */
  datatype EditPhase = Checking | Writing | Over

  /**
   The confirmations and cancellations under way, the order's review columns, the uploads and
   rejections under way, and two facts about the past: whether an upload or a rejection was
   written under a confirmation that had read the approval, with no approval written since; and
   how many uploads were written on an order that was closed.
   */
  datatype Race = Race(
    core: F.World,
    review: Review,
    reference: Option<Reference>,
    uploads: map<nat, EditPhase>,
    rejections: map<nat, EditPhase>,
    overwritten: bool,
    reopenings: nat)

  datatype Event =
    | BeginConfirm(attempt: nat)
    | Proceed(attempt: nat, ok: bool, outcome: OrderStatus, note: Option<Option<Reference>>)
    | BeginCancel(cancel: nat)
    | ProceedCancel(cancel: nat)
    | WriteApproval(mark: Option<Option<Reference>>)
    | BeginUpload(upload: nat)
    | ProceedUpload(upload: nat)
    | BeginReject(rejection: nat)
    | ProceedReject(rejection: nat)

  predicate BuyingAt(w: F.World, a: nat) {
    a in w.attempts && F.Purchasing(w.attempts[a])
  }

  predicate BuyingNow(w: F.World) {
    exists a :: a in w.attempts && F.Purchasing(w.attempts[a])
  }

  /** From reading the approval to the closing write. */
  predicate Confirming(p: F.Phase) {
    p.WantsLock? || p.Locked? || F.Purchasing(p)
  }

  predicate UnderWay(w: F.World) {
    exists a :: a in w.attempts && Confirming(w.attempts[a])
  }

  /** A purchase is going on, or can still be claimed. */
  predicate Open(w: F.World) {
    BuyingNow(w) || w.status !in {FULFILLED, PARTIAL, FAILED, CANCELLED}
  }

  function NewRace(): Race {
    Race(F.World(PENDING_PAYMENT, false, map[], map[], []), Unreviewed, None, map[], map[], false, 0)
  }

  function NoteReference(r: Race, reference: Option<Option<Reference>>): Race {
    if reference.Some? then r.(reference := reference.value) else r
  }

  /** A confirmation's next statement: its first reads the review, the one after its claim notes the reference. */
  function ProceedConfirm(r: Race, a: nat, ok: bool, outcome: OrderStatus, note: Option<Option<Reference>>): Race
    requires a in r.core.attempts
  {
    var stepped := r.(core := F.Step(r.core, a, ok, outcome));
    match r.core.attempts[a]
    case Started =>
      if r.core.status == CANCELLED || r.review != Approved then
        r.(core := r.core.(attempts := r.core.attempts[a := F.Done]))
      else stepped
    case Claimed => NoteReference(stepped, note)
    case _ => stepped
  }

  /** What `uploadOrderPaymentProof` checks, and what it then writes whatever has happened since. */
  predicate UploadAllowed(r: Race) {
    (r.core.status == PENDING_PAYMENT || r.core.status == PENDING) && r.review != Approved
  }

  function WriteUpload(r: Race): Race {
    r.(core := r.core.(status := PENDING_PAYMENT), review := Awaiting,
       overwritten := r.overwritten || UnderWay(r.core),
       reopenings := if r.core.closings != [] && !Open(r.core) then r.reopenings + 1 else r.reopenings)
  }

  /** What `rejectBankPayment` checks and writes. */
  predicate RejectAllowed(r: Race) {
    !Processed(r.core.status)
  }

  function WriteRejection(r: Race): Race {
    r.(core := r.core.(status := CANCELLED), review := Rejected, overwritten := r.overwritten || UnderWay(r.core))
  }

  function Edited(p: EditPhase, allowed: bool): EditPhase {
    if p == Checking && allowed then Writing else Over
  }

  function Apply(r: Race, e: Event): Race {
    match e
    case BeginConfirm(a) => r.(core := F.Apply(r.core, F.Begin(a)))
    case Proceed(a, ok, outcome, note) =>
      if a in r.core.attempts then ProceedConfirm(r, a, ok, outcome, note) else r
    case BeginCancel(x) => r.(core := F.Apply(r.core, F.BeginCancel(x)))
    case ProceedCancel(x) => r.(core := F.Apply(r.core, F.ProceedCancel(x)))
    case WriteApproval(mark) => NoteReference(r.(review := Approved, overwritten := false), mark)
    case BeginUpload(u) => if u in r.uploads then r else r.(uploads := r.uploads[u := Checking])
    case ProceedUpload(u) =>
      if u !in r.uploads then r
      else
        var moved := r.(uploads := r.uploads[u := Edited(r.uploads[u], UploadAllowed(r))]);
        if r.uploads[u] == Writing then WriteUpload(moved) else moved
    case BeginReject(x) => if x in r.rejections then r else r.(rejections := r.rejections[x := Checking])
    case ProceedReject(x) =>
      if x !in r.rejections then r
      else
        var moved := r.(rejections := r.rejections[x := Edited(r.rejections[x], RejectAllowed(r))]);
        if r.rejections[x] == Writing then WriteRejection(moved) else moved
  }

  function Run(r: Race, es: seq<Event>): Race {
    if es == [] then r else Apply(Run(r, es[..|es| - 1]), es[|es| - 1])
  }

  /** The order row as the rest of the system sees it. */
  function Row(r: Race): Order {
    Order(0, MANUAL_BANK, r.core.status, r.review, r.reference)
  }

  // ---- the invariant ----

  /** A confirmation relies on the approval it read, and so does a processed order. */
  ghost predicate Relied(r: Race) {
    && (r.overwritten ==> r.review != Approved)
    && (UnderWay(r.core) || Processed(r.core.status) ==> r.review != Approved ==> r.overwritten)
  }

  /** Every closing write but the first needs an upload that reopened the order. */
  ghost predicate Counted(r: Race) {
    |r.core.closings| + (if Open(r.core) then 1 else 0) <= 1 + r.reopenings
  }

  ghost predicate Guarded(r: Race) {
    F.OneHolder(r.core) && Relied(r) && Counted(r)
  }

  /** Whether some attempt is buying, or confirming, when only attempt a moved. */
  lemma OneMoves(w: F.World, w': F.World, a: nat)
    requires a in w.attempts && a in w'.attempts && w'.attempts == w.attempts[a := w'.attempts[a]]
    ensures BuyingNow(w') ==> BuyingNow(w) || F.Purchasing(w'.attempts[a])
    ensures UnderWay(w') ==> UnderWay(w) || Confirming(w'.attempts[a])
  {
    if BuyingNow(w') {
      var b :| b in w'.attempts && F.Purchasing(w'.attempts[b]);
      assert b in w.attempts;
    }
    if UnderWay(w') {
      var b :| b in w'.attempts && Confirming(w'.attempts[b]);
      assert b in w.attempts;
    }
  }

  /** What a confirmation's statement can do: nothing to the order, claim it, or close it. */
  predicate CoreStep(w: F.World, w': F.World, p: F.Phase, p': F.Phase) {
    || (w'.status == w.status && w'.closings == w.closings && (F.Purchasing(p') ==> F.Purchasing(p)))
    || (&& p.Locked? && F.Purchasing(p') && w.status !in {FULFILLED, PARTIAL, FAILED, CANCELLED} && w'.status == PAID && w'.closings == w.closings)
    || (p.Buying? && p'.Releasing? && Closing(w'.status) && w'.closings == w.closings + [w'.status])
  }

  ghost predicate ConfirmStep(r: Race, r': Race, a: nat, p': F.Phase)
    requires a in r.core.attempts
  {
    && r'.review == r.review && r'.overwritten == r.overwritten && r'.reopenings == r.reopenings
    && r'.core.attempts == r.core.attempts[a := p']
    && CoreStep(r.core, r'.core, r.core.attempts[a], p')
    && (Confirming(p') ==> Confirming(r.core.attempts[a]) || r.review == Approved)
  }

  lemma CoreSteps(w: F.World, a: nat, ok: bool, outcome: OrderStatus) returns (p': F.Phase)
    requires a in w.attempts
    ensures F.Step(w, a, ok, outcome).attempts == w.attempts[a := p']
    ensures CoreStep(w, F.Step(w, a, ok, outcome), w.attempts[a], p')
    ensures Confirming(p') ==> Confirming(w.attempts[a]) || w.attempts[a].Started?
  {
    p' := F.Step(w, a, ok, outcome).attempts[a];
    match w.attempts[a]
    case Done => assert w.attempts == w.attempts[a := F.Done];
    case _ =>
  }

  lemma ConfirmSteps(r: Race, a: nat, ok: bool, outcome: OrderStatus, note: Option<Option<Reference>>)
    returns (p': F.Phase)
    requires a in r.core.attempts
    ensures ConfirmStep(r, ProceedConfirm(r, a, ok, outcome, note), a, p')
  {
    if r.core.attempts[a].Started? && (r.core.status == CANCELLED || r.review != Approved) {
      p' := F.Done;
    } else {
      p' := CoreSteps(r.core, a, ok, outcome);
      assert ProceedConfirm(r, a, ok, outcome, note).core == F.Step(r.core, a, ok, outcome);
    }
  }

  lemma StepRelied(r: Race, r': Race, a: nat, p': F.Phase)
    requires Relied(r) && a in r.core.attempts && ConfirmStep(r, r', a, p')
    ensures Relied(r')
  {
    OneMoves(r.core, r'.core, a);
    if Confirming(r.core.attempts[a]) {
      assert UnderWay(r.core);
    }
  }

  lemma StepCounted(r: Race, r': Race, a: nat, p': F.Phase)
    requires F.OneHolder(r.core) && Counted(r) && a in r.core.attempts && ConfirmStep(r, r', a, p')
    ensures Counted(r')
  {
    OneMoves(r.core, r'.core, a);
    if F.Purchasing(r.core.attempts[a]) {
      assert BuyingNow(r.core) && F.HoldsLock(r.core.attempts[a]);
      if r'.core.closings != r.core.closings {
        forall b | b in r'.core.attempts ensures !F.Purchasing(r'.core.attempts[b]) {
          assert b != a ==> !F.HoldsLock(r.core.attempts[b]);
        }
      }
    }
  }

  lemma ConfirmGuarded(r: Race, a: nat, ok: bool, outcome: OrderStatus, note: Option<Option<Reference>>)
    requires Guarded(r) && a in r.core.attempts
    ensures Guarded(ProceedConfirm(r, a, ok, outcome, note))
  {
    var r' := ProceedConfirm(r, a, ok, outcome, note);
    F.StepOneHolder(r.core, a, ok, outcome);
    var p' := ConfirmSteps(r, a, ok, outcome, note);
    StepRelied(r, r', a, p');
    StepCounted(r, r', a, p');
  }

  lemma SameAttempts(w: F.World, w': F.World)
    requires w'.attempts == w.attempts
    ensures BuyingNow(w') == BuyingNow(w) && UnderWay(w') == UnderWay(w)
  {
  }

  /** A new attempt reads nothing yet. */
  lemma BeginMoves(r: Race, a: nat)
    ensures BuyingNow(Apply(r, BeginConfirm(a)).core) ==> BuyingNow(r.core)
    ensures UnderWay(Apply(r, BeginConfirm(a)).core) ==> UnderWay(r.core)
  {
    var w, w' := r.core, Apply(r, BeginConfirm(a)).core;
    if BuyingNow(w') {
      var b :| b in w'.attempts && F.Purchasing(w'.attempts[b]);
      assert b in w.attempts && F.Purchasing(w.attempts[b]);
    }
    if UnderWay(w') {
      var b :| b in w'.attempts && Confirming(w'.attempts[b]);
      assert b in w.attempts && Confirming(w.attempts[b]);
    }
  }

  lemma BeginGuarded(r: Race, a: nat)
    requires Guarded(r)
    ensures Guarded(Apply(r, BeginConfirm(a)))
  {
    BeginMoves(r, a);
  }

  lemma UploadGuarded(r: Race, u: nat)
    requires Guarded(r)
    ensures Guarded(Apply(r, ProceedUpload(u)))
  {
    SameAttempts(r.core, Apply(r, ProceedUpload(u)).core);
  }

  lemma RejectGuarded(r: Race, x: nat)
    requires Guarded(r)
    ensures Guarded(Apply(r, ProceedReject(x)))
  {
    SameAttempts(r.core, Apply(r, ProceedReject(x)).core);
  }

  lemma AsideGuarded(r: Race, e: Event)
    requires Guarded(r) && !e.BeginConfirm? && !e.Proceed? && !e.ProceedUpload? && !e.ProceedReject?
    ensures Guarded(Apply(r, e))
  {
    SameAttempts(r.core, Apply(r, e).core);
  }

  lemma ApplyGuarded(r: Race, e: Event)
    requires Guarded(r)
    ensures Guarded(Apply(r, e))
  {
    match e
    case BeginConfirm(a) => BeginGuarded(r, a);
    case Proceed(a, ok, outcome, note) =>
      if a in r.core.attempts {
        ConfirmGuarded(r, a, ok, outcome, note);
      }
    case ProceedUpload(u) => UploadGuarded(r, u);
    case ProceedReject(x) => RejectGuarded(r, x);
    case _ => AsideGuarded(r, e);
  }

  lemma {:induction false} RunGuarded(es: seq<Event>)
    ensures Guarded(Run(NewRace(), es))
  {
    if es != [] {
      RunGuarded(es[..|es| - 1]);
      ApplyGuarded(Run(NewRace(), es[..|es| - 1]), es[|es| - 1]);
    }
  }

  /**
   However the statements interleave: at most one confirmation is buying at a time; every closing
   write but the first follows an upload that was written on a closed order; and a processed order
   lacks its approval exactly when an upload or a rejection was written under a confirmation that
   had read the approval, and none has been written since. Those of them with a reference of
   their own are what the integrity check reports.
   */
  lemma UnapprovedExactly(es: seq<Event>, a: nat, b: nat)
    ensures var r := Run(NewRace(), es);
            && (BuyingAt(r.core, a) && BuyingAt(r.core, b) ==> a == b)
            && |r.core.closings| <= 1 + r.reopenings
            && (r.core.status in {FULFILLED, PARTIAL} ==> (r.review != Approved <==> r.overwritten))
            && (Matches(Row(r)) <==>
                  r.core.status in {FULFILLED, PARTIAL} && r.overwritten && r.reference.Some? && r.reference.value.Text?)
  {
    RunGuarded(es);
    var r := Run(NewRace(), es);
    if BuyingAt(r.core, a) && BuyingAt(r.core, b) {
      assert F.HoldsLock(r.core.attempts[a]) && F.HoldsLock(r.core.attempts[b]);
    }
  }

  // ---- statements without interruption are the operations of BankOrders ----

  lemma RunThree(r: Race, a: Event, b: Event, c: Event)
    ensures Run(r, [a, b, c]) == Apply(Apply(Apply(r, a), b), c)
  {
    assert [a, b, c][..2] == [a, b] && [a, b][..1] == [a] && [a][..0] == [];
    assert Run(r, [a]) == Apply(r, a);
    assert Run(r, [a, b]) == Apply(Run(r, [a]), b);
  }

  /** The two statements of an upload, with nothing in between. */
  lemma UploadAlone(r: Race, u: nat)
    requires u !in r.uploads
    ensures Row(Run(r, [BeginUpload(u), ProceedUpload(u), ProceedUpload(u)])) == Uploaded(Row(r), None).0
  {
    RunThree(r, BeginUpload(u), ProceedUpload(u), ProceedUpload(u));
  }

  /** Those of a rejection. */
  lemma RejectionAlone(r: Race, x: nat)
    requires x !in r.rejections
    ensures Row(Run(r, [BeginReject(x), ProceedReject(x), ProceedReject(x)])) == RejectedOrder(Row(r)).0
  {
    RunThree(r, BeginReject(x), ProceedReject(x), ProceedReject(x));
  }

  /** Those of a cancellation. */
  lemma CancellationAlone(r: Race, x: nat)
    requires x !in r.core.cancels
    ensures Row(Run(r, [BeginCancel(x), ProceedCancel(x), ProceedCancel(x)])) == CancelledOrder(Row(r)).0
  {
    RunThree(r, BeginCancel(x), ProceedCancel(x), ProceedCancel(x));
    var r1 := Apply(r, BeginCancel(x));
    assert r1.core.cancels[x] == F.Reading && Row(r1) == Row(r);
    var r2 := Apply(r1, ProceedCancel(x));
    assert r2.core.cancels[x] == (if Processed(r.core.status) then F.Cancelled else F.Writing) && Row(r2) == Row(r);
  }

  /** The first four statements of a confirmation: begin, read, lock, claim. */
  function Claiming(a: nat): seq<Event> {
    [BeginConfirm(a), Proceed(a, true, PAID, None), Proceed(a, true, PAID, None), Proceed(a, true, PAID, None)]
  }

  /** The others: note the reference, close the order, release the lock. */
  function Finishing(a: nat, note: Option<Option<Reference>>, closing: OrderStatus): seq<Event> {
    [Proceed(a, true, PAID, note), Proceed(a, true, closing, None), Proceed(a, true, PAID, None)]
  }

  /** The approval is read. */
  lemma Reading(r: Race, a: nat) returns (r2: Race)
    requires a !in r.core.attempts && !r.core.lockRow
    ensures r2 == Apply(Apply(r, BeginConfirm(a)), Proceed(a, true, PAID, None))
    ensures r2 == r.(core := r.core.(attempts := r2.core.attempts)) && a in r2.core.attempts
    ensures r2.core.attempts[a]
            == if r.review == Approved && r.core.status !in {FULFILLED, PARTIAL, CANCELLED} then F.WantsLock else F.Done
  {
    var r1 := Apply(r, BeginConfirm(a));
    assert r1.core.attempts[a] == F.Started;
    r2 := Apply(r1, Proceed(a, true, PAID, None));
  }

  /** The lock is taken and the order claimed. */
  lemma ClaimingEnds(r: Race, a: nat)
    requires a in r.core.attempts && !r.core.lockRow && r.core.attempts[a] in {F.WantsLock, F.Done}
    ensures var go := Proceed(a, true, PAID, None);
            var r', bought := Apply(Apply(r, go), go),
                              r.core.attempts[a] == F.WantsLock && r.core.status !in {FULFILLED, PARTIAL, FAILED, CANCELLED};
            && a in r'.core.attempts && r'.review == r.review && r'.reference == r.reference
            && (bought ==> r'.core.attempts[a] == F.Claimed && r'.core.status == PAID)
            && (!bought ==> r'.core.attempts[a] in {F.Releasing, F.Done} && r'.core.status == r.core.status)
  {
  }

  lemma RunClaiming(r: Race, a: nat)
    requires a !in r.core.attempts && !r.core.lockRow
    ensures var r', bought := Run(r, Claiming(a)), r.review == Approved && r.core.status !in {FULFILLED, PARTIAL, FAILED, CANCELLED};
            && a in r'.core.attempts && r'.review == r.review && r'.reference == r.reference
            && (bought ==> r'.core.attempts[a] == F.Claimed && r'.core.status == PAID)
            && (!bought ==> r'.core.attempts[a] in {F.Releasing, F.Done} && r'.core.status == r.core.status)
  {
    var go := Proceed(a, true, PAID, None);
    assert Claiming(a)[..3] == [BeginConfirm(a), go, go];
    RunThree(r, BeginConfirm(a), go, go);
    var r2 := Reading(r, a);
    ClaimingEnds(r2, a);
  }

  lemma RunFinishing(r: Race, a: nat, note: Option<Option<Reference>>, closing: OrderStatus)
    requires a in r.core.attempts && r.core.attempts[a] in {F.Claimed, F.Releasing, F.Done} && Closing(closing)
    ensures var r' := Run(r, Finishing(a, note, closing));
            && r'.review == r.review
            && r'.reference == (if r.core.attempts[a] == F.Claimed && note.Some? then note.value else r.reference)
            && r'.core.status == if r.core.attempts[a] == F.Claimed then closing else r.core.status
  {
    RunThree(r, Proceed(a, true, PAID, note), Proceed(a, true, closing, None), Proceed(a, true, PAID, None));
  }

  lemma {:induction false} RunOn(r: Race, es: seq<Event>, more: seq<Event>)
    ensures Run(r, es + more) == Run(Run(r, es), more)
  {
    if more == [] {
      assert es + more == es;
    } else {
      RunOn(r, es, more[..|more| - 1]);
      assert (es + more)[..|es + more| - 1] == es + more[..|more| - 1];
    }
  }

  /** A confirmation that gets the lock, with nothing in between. */
  lemma ConfirmationAlone(r: Race, a: nat, note: Option<Option<Reference>>, numbers: seq<Number>, bought: seq<bool>)
    requires a !in r.core.attempts && !r.core.lockRow && |bought| == |numbers|
    ensures var closing := ClosingStatus(Chosen(numbers, bought, true), Chosen(numbers, bought, false));
            Row(Run(r, Claiming(a) + Finishing(a, note, closing))) == Confirmed(Row(r), note, Ended(numbers, bought)).0
  {
    var closing := ClosingStatus(Chosen(numbers, bought, true), Chosen(numbers, bought, false));
    RunOn(r, Claiming(a), Finishing(a, note, closing));
    RunClaiming(r, a);
    RunFinishing(Run(r, Claiming(a)), a, note, closing);
  }

  // ---- from which states the order can be closed once more ----

  /** A lock row that no confirmation is there to remove: none gets the lock again. */
  predicate StuckLock(w: F.World) {
    w.lockRow && forall a :: a in w.attempts ==> !F.HoldsLock(w.attempts[a])
  }

  predicate UploadPending(r: Race) {
    exists u :: u in r.uploads && r.uploads[u] == Writing
  }

  predicate Settled(r: Race) {
    StuckLock(r.core) || (!Open(r.core) && !UploadPending(r))
  }

  function ClosingsAfter(r: Race, more: seq<Event>): nat {
    |Run(r, more).core.closings|
  }

  predicate SettledAs(r: Race, r': Race) {
    Settled(r') && r'.core.closings == r.core.closings
  }

  lemma StuckStep(r: Race, a: nat, ok: bool, outcome: OrderStatus, note: Option<Option<Reference>>)
    requires StuckLock(r.core) && a in r.core.attempts
    ensures SettledAs(r, ProceedConfirm(r, a, ok, outcome, note))
  {
    var r' := ProceedConfirm(r, a, ok, outcome, note);
    assert !F.HoldsLock(r.core.attempts[a]);
    assert r'.core.lockRow && r'.core.closings == r.core.closings;
    forall b | b in r'.core.attempts ensures !F.HoldsLock(r'.core.attempts[b]) {
      assert b in r.core.attempts;
    }
  }

  lemma ShutStep(r: Race, a: nat, ok: bool, outcome: OrderStatus, note: Option<Option<Reference>>)
    requires !Open(r.core) && !UploadPending(r) && a in r.core.attempts
    ensures SettledAs(r, ProceedConfirm(r, a, ok, outcome, note))
  {
    var r' := ProceedConfirm(r, a, ok, outcome, note);
    var p' := ConfirmSteps(r, a, ok, outcome, note);
    OneMoves(r.core, r'.core, a);
    assert !F.Purchasing(r.core.attempts[a]);
    assert r'.uploads == r.uploads;
  }

  lemma BeginSettled(r: Race, a: nat)
    requires Settled(r)
    ensures SettledAs(r, Apply(r, BeginConfirm(a)))
  {
    BeginMoves(r, a);
  }

  /** On a closed order no upload passes its check. */
  lemma UploadChecked(r: Race, e: Event)
    ensures UploadPending(Apply(r, e)) ==> UploadPending(r) || UploadAllowed(r)
  {
    var r' := Apply(r, e);
    if UploadPending(r') {
      var u :| u in r'.uploads && r'.uploads[u] == Writing;
      if !UploadAllowed(r) {
        assert u in r.uploads && r.uploads[u] == Writing;
      }
    }
  }

  lemma AsideSettled(r: Race, e: Event)
    requires Settled(r) && !e.BeginConfirm? && !e.Proceed?
    ensures SettledAs(r, Apply(r, e))
  {
    SameAttempts(r.core, Apply(r, e).core);
    UploadChecked(r, e);
  }

  lemma ApplySettled(r: Race, e: Event)
    requires Settled(r)
    ensures SettledAs(r, Apply(r, e))
  {
    match e
    case BeginConfirm(a) => BeginSettled(r, a);
    case Proceed(a, ok, outcome, note) =>
      if a in r.core.attempts {
        if StuckLock(r.core) {
          StuckStep(r, a, ok, outcome, note);
        } else {
          ShutStep(r, a, ok, outcome, note);
        }
      }
    case _ => AsideSettled(r, e);
  }

  lemma {:induction false} RunSettled(r: Race, more: seq<Event>)
    requires Settled(r)
    ensures SettledAs(r, Run(r, more))
  {
    if more != [] {
      RunSettled(r, more[..|more| - 1]);
      ApplySettled(Run(r, more[..|more| - 1]), more[|more| - 1]);
    }
  }

  /** Some continuation has more than n closing writes. */
  ghost predicate Reaches(r: Race, n: nat) {
    exists more :: ClosingsAfter(r, more) > n
  }

  lemma {:induction false} RunFirst(r: Race, e: Event, more: seq<Event>)
    ensures Run(r, [e] + more) == Run(Apply(r, e), more)
  {
    if more == [] {
      assert [e] + more == [e] && [e][..0] == [];
      assert Run(r, []) == r && Run(r, [e]) == Apply(r, e);
    } else {
      RunFirst(r, e, more[..|more| - 1]);
      assert ([e] + more)[..|[e] + more| - 1] == [e] + more[..|more| - 1];
    }
  }

  lemma ReachesBefore(r: Race, e: Event, r': Race, n: nat)
    requires r' == Apply(r, e) && Reaches(r', n)
    ensures Reaches(r, n)
  {
    var more :| ClosingsAfter(r', more) > n;
    RunFirst(r, e, more);
    assert ClosingsAfter(r, [e] + more) > n;
  }

  lemma BuyerCloses(r: Race, a: nat)
    requires BuyingAt(r.core, a)
    ensures Reaches(r, |r.core.closings|)
    decreases !r.core.attempts[a].Buying?
  {
    if r.core.attempts[a].Buying? {
      RunFirst(r, Proceed(a, true, FULFILLED, None), []);
      assert ClosingsAfter(r, [Proceed(a, true, FULFILLED, None)] + []) > |r.core.closings|;
    } else {
      var go := Proceed(a, true, PAID, None);
      BuyerCloses(Apply(r, go), a);
      ReachesBefore(r, go, Apply(r, go), |r.core.closings|);
    }
  }

  lemma HolderCloses(r: Race, a: nat)
    requires a in r.core.attempts && r.core.attempts[a].Locked? && r.core.status !in {FULFILLED, PARTIAL, FAILED, CANCELLED}
    ensures Reaches(r, |r.core.closings|)
  {
    var go := Proceed(a, true, PAID, None);
    BuyerCloses(Apply(r, go), a);
    ReachesBefore(r, go, Apply(r, go), |r.core.closings|);
  }

  lemma StarterCloses(r: Race, a: nat)
    requires a in r.core.attempts && r.core.attempts[a].Started?
    requires !r.core.lockRow && r.core.status !in {FULFILLED, PARTIAL, FAILED, CANCELLED} && r.review == Approved
    ensures Reaches(r, |r.core.closings|)
  {
    var go := Proceed(a, true, PAID, None);
    var r1 := Apply(r, go);
    assert r1 == r.(core := r.core.(attempts := r.core.attempts[a := F.WantsLock]));
    var r2 := Apply(r1, go);
    assert r2.core.attempts[a] == F.Locked && r2.core.status == r.core.status && r2.core.closings == r.core.closings;
    HolderCloses(r2, a);
    ReachesBefore(r1, go, r2, |r.core.closings|);
    ReachesBefore(r, go, r1, |r.core.closings|);
  }

  /** While the lock is free, the payment is approved and a new confirmation begins. */
  lemma FreeLockCloses(r: Race)
    requires !r.core.lockRow && r.core.status !in {FULFILLED, PARTIAL, FAILED, CANCELLED}
    ensures Reaches(r, |r.core.closings|)
  {
    var a := F.Unused(r.core.attempts.Keys);
    assert a !in r.core.attempts;
    var r1 := Apply(r, WriteApproval(None));
    var r2 := Apply(r1, BeginConfirm(a));
    StarterCloses(r2, a);
    ReachesBefore(r1, BeginConfirm(a), r2, |r.core.closings|);
    ReachesBefore(r, WriteApproval(None), r1, |r.core.closings|);
  }

  lemma OpenCloses(r: Race)
    requires Open(r.core) && !StuckLock(r.core)
    ensures Reaches(r, |r.core.closings|)
  {
    if BuyingNow(r.core) {
      var a :| a in r.core.attempts && F.Purchasing(r.core.attempts[a]);
      BuyerCloses(r, a);
    } else if !r.core.lockRow {
      FreeLockCloses(r);
    } else {
      var a :| a in r.core.attempts && F.HoldsLock(r.core.attempts[a]);
      assert !F.Purchasing(r.core.attempts[a]);
      if r.core.attempts[a].Locked? {
        HolderCloses(r, a);
      } else {
        var go := Proceed(a, true, PAID, None);
        FreeLockCloses(Apply(r, go));
        ReachesBefore(r, go, Apply(r, go), |r.core.closings|);
      }
    }
  }

  lemma UploadCloses(r: Race, u: nat)
    requires u in r.uploads && r.uploads[u] == Writing && !StuckLock(r.core)
    ensures Reaches(r, |r.core.closings|)
  {
    var r' := Apply(r, ProceedUpload(u));
    assert r'.core == r.core.(status := PENDING_PAYMENT);
    OpenCloses(r');
    ReachesBefore(r, ProceedUpload(u), r', |r.core.closings|);
  }

  /**
   No continuation closes the order once more exactly when a lock row is left over that nobody
   removes, or nobody is buying, the status allows no claim, and no upload is about to write.
   */
  lemma ClosesAgainExactly(r: Race)
    ensures (forall more :: ClosingsAfter(r, more) == |r.core.closings|) <==> Settled(r)
  {
    if Settled(r) {
      forall more ensures ClosingsAfter(r, more) == |r.core.closings| {
        RunSettled(r, more);
      }
    } else {
      if UploadPending(r) {
        var u :| u in r.uploads && r.uploads[u] == Writing;
        UploadCloses(r, u);
      } else {
        OpenCloses(r);
      }
      var more :| ClosingsAfter(r, more) > |r.core.closings|;
    }
  }

  // ---- guards that would suffice ----

  /**
   What a write would have to find: an upload what it has checked before, a rejection also no
   lock row.
   */
  predicate StillAllowed(r: Race, e: Event) {
    match e
    case ProceedUpload(u) => u in r.uploads && r.uploads[u] == Writing ==> UploadAllowed(r)
    case ProceedReject(x) => x in r.rejections && r.rejections[x] == Writing ==> RejectAllowed(r) && !r.core.lockRow
    case _ => true
  }

  predicate CarefulRun(es: seq<Event>) {
    forall k :: 0 <= k < |es| ==> StillAllowed(Run(NewRace(), es[..k]), es[k])
  }

  /** An overwritten approval belongs to a cancelled order that nobody is buying. */
  ghost predicate Harmless(r: Race) {
    r.reopenings == 0 && (r.overwritten ==> r.core.status == CANCELLED && !BuyingNow(r.core))
  }

  lemma StepHarmless(r: Race, r': Race, a: nat, p': F.Phase)
    requires Harmless(r) && a in r.core.attempts && ConfirmStep(r, r', a, p')
    ensures Harmless(r')
  {
    OneMoves(r.core, r'.core, a);
    if F.Purchasing(r.core.attempts[a]) {
      assert BuyingNow(r.core);
    }
  }

  /** Under the guard an upload meets no confirmation that relies on the approval, and a rejection no buyer. */
  lemma EditHarmless(r: Race, e: Event)
    requires Guarded(r) && Harmless(r) && StillAllowed(r, e) && (e.ProceedUpload? || e.ProceedReject?)
    ensures Harmless(Apply(r, e))
  {
    SameAttempts(r.core, Apply(r, e).core);
    if BuyingNow(r.core) {
      var a :| a in r.core.attempts && F.Purchasing(r.core.attempts[a]);
      assert F.HoldsLock(r.core.attempts[a]);
    }
  }

  lemma ApplyHarmless(r: Race, e: Event)
    requires Guarded(r) && Harmless(r) && StillAllowed(r, e)
    ensures Harmless(Apply(r, e))
  {
    match e
    case BeginConfirm(a) =>
      BeginMoves(r, a);
    case Proceed(a, ok, outcome, note) =>
      if a in r.core.attempts {
        var p' := ConfirmSteps(r, a, ok, outcome, note);
        StepHarmless(r, ProceedConfirm(r, a, ok, outcome, note), a, p');
      }
    case ProceedUpload(_) => EditHarmless(r, e);
    case ProceedReject(_) => EditHarmless(r, e);
    case _ => SameAttempts(r.core, Apply(r, e).core);
  }

  lemma {:induction false} RunHarmless(es: seq<Event>)
    requires CarefulRun(es)
    ensures Harmless(Run(NewRace(), es))
  {
    if es != [] {
      var front := es[..|es| - 1];
      assert forall k :: 0 <= k < |front| ==> front[k] == es[k] && front[..k] == es[..k];
      RunHarmless(front);
      RunGuarded(front);
      ApplyHarmless(Run(NewRace(), front), es[|es| - 1]);
    }
  }

  /** Were the writes of uploads and rejections guarded so, no order would be unpaid or closed twice. */
  lemma GuardedWritesSuffice(es: seq<Event>)
    requires CarefulRun(es)
    ensures !Unpaid(Row(Run(NewRace(), es))) && |Run(NewRace(), es).core.closings| <= 1
  {
    RunGuarded(es);
    RunHarmless(es);
  }

  // ---- runs that fail ----

  lemma RunNext(es: seq<Event>, e: Event)
    ensures Run(NewRace(), es + [e]) == Apply(Run(NewRace(), es), e)
  {
    assert (es + [e])[..|es|] == es;
  }

  lemma RunTwo(es: seq<Event>, e: Event, f: Event)
    ensures Run(NewRace(), es + [e] + [f]) == Apply(Apply(Run(NewRace(), es), e), f)
  {
    RunNext(es, e);
    RunNext(es + [e], f);
  }

  function Waiting(): Race {
    Race(F.World(PENDING_PAYMENT, false, map[], map[], []), Unreviewed, None, map[0 := Writing], map[0 := Writing], false, 0)
  }

  function Buying(reference: Option<Reference>): Race {
    Race(F.World(PAID, true, map[0 := F.Buying(0)], map[], []), Approved, reference, map[0 := Writing], map[0 := Writing], false, 0)
  }

  const GO := Proceed(0, true, PAID, None)
  const FINISH := Proceed(0, true, FULFILLED, None)

  /** An upload and a rejection have checked the order and are about to write. */
  lemma ReachWaiting() returns (es: seq<Event>)
    ensures Run(NewRace(), es) == Waiting()
  {
    RunTwo([], BeginUpload(0), ProceedUpload(0));
    es := [] + [BeginUpload(0)] + [ProceedUpload(0)];
    RunTwo(es, BeginReject(0), ProceedReject(0));
    es := es + [BeginReject(0)] + [ProceedReject(0)];
  }

  function At(core: F.World, reference: Option<Reference>): Race {
    Waiting().(core := core, review := Approved, reference := reference)
  }

  /** The order is approved, and a confirmation gets the lock. */
  lemma ReachLock(mark: Option<Option<Reference>>, reference: Option<Reference>) returns (es: seq<Event>)
    requires reference == if mark.Some? then mark.value else None
    ensures Run(NewRace(), es) == At(F.World(PENDING_PAYMENT, true, map[0 := F.Locked], map[], []), reference)
  {
    es := ReachWaiting();
    RunTwo(es, WriteApproval(mark), BeginConfirm(0));
    es := es + [WriteApproval(mark)] + [BeginConfirm(0)];
    assert Run(NewRace(), es) == At(F.World(PENDING_PAYMENT, false, map[0 := F.Started], map[], []), reference);
    RunTwo(es, GO, GO);
    es := es + [GO] + [GO];
  }

  /** It claims the order and reaches the purchase loop. */
  lemma ReachLoop(mark: Option<Option<Reference>>, reference: Option<Reference>) returns (es: seq<Event>)
    requires reference == if mark.Some? then mark.value else None
    ensures Run(NewRace(), es) == Buying(reference)
  {
    es := ReachLock(mark, reference);
    RunTwo(es, GO, GO);
    es := es + [GO] + [GO];
  }

  /** A late upload or rejection, and then the closing write. */
  lemma LateWrite(mark: Option<Option<Reference>>, reference: Option<Reference>, e: Event) returns (es: seq<Event>)
    requires reference == if mark.Some? then mark.value else None
    requires e == ProceedUpload(0) || e == ProceedReject(0)
    ensures var r := Run(NewRace(), es);
            && r.core.status == FULFILLED && r.reference == reference
            && r.review == if e.ProceedUpload? then Awaiting else Rejected
  {
    es := ReachLoop(mark, reference);
    RunTwo(es, e, FINISH);
    es := es + [e] + [FINISH];
  }

  /** A rejection can be written while numbers are being bought; the order ends up fulfilled. */
  lemma RejectionRace()
    ensures exists es :: Unpaid(Row(Run(NewRace(), es))) && Run(NewRace(), es).review == Rejected
  {
    var es := LateWrite(None, None, ProceedReject(0));
    assert Run(NewRace(), es).review == Rejected;
  }

  /** And so can an upload whose check preceded the approval. */
  lemma UploadRace()
    ensures exists es :: Unpaid(Row(Run(NewRace(), es))) && Run(NewRace(), es).review == Awaiting
  {
    var es := LateWrite(None, None, ProceedUpload(0));
    assert Run(NewRace(), es).review == Awaiting;
  }

  /** The integrity check sees such an order if it has a reference, and misses it if it has none. */
  lemma CheckerMisses()
    ensures exists es :: Unpaid(Row(Run(NewRace(), es))) && !Matches(Row(Run(NewRace(), es)))
    ensures exists es :: Unpaid(Row(Run(NewRace(), es))) && Matches(Row(Run(NewRace(), es)))
  {
    var es := LateWrite(None, None, ProceedReject(0));
    assert Unpaid(Row(Run(NewRace(), es))) && !Matches(Row(Run(NewRace(), es)));
    es := LateWrite(Some(Some(Text(0))), Some(Text(0)), ProceedReject(0));
    assert Matches(Row(Run(NewRace(), es)));
  }

  function Reopened(): Race {
    Waiting().(core := F.World(PENDING_PAYMENT, false, map[0 := F.Done], map[], [FULFILLED]),
               review := Approved, uploads := map[0 := Over], reopenings := 1)
  }

  /** An upload is written after the closing write, and the payment is approved again. */
  lemma ReachReopened() returns (es: seq<Event>)
    ensures Run(NewRace(), es) == Reopened()
  {
    es := ReachLoop(None, None);
    RunTwo(es, FINISH, GO);
    es := es + [FINISH] + [GO];
    assert Run(NewRace(), es) == At(F.World(FULFILLED, false, map[0 := F.Done], map[], [FULFILLED]), None);
    RunTwo(es, ProceedUpload(0), WriteApproval(None));
    es := es + [ProceedUpload(0)] + [WriteApproval(None)];
  }

  lemma ClaimAgain(es: seq<Event>, again: Event) returns (more: seq<Event>)
    requires Run(NewRace(), es) == Reopened() && again == Proceed(1, true, PAID, None)
    ensures Run(NewRace(), more).core == F.World(PAID, true, map[0 := F.Done, 1 := F.Claimed], map[], [FULFILLED])
  {
    RunTwo(es, BeginConfirm(1), again);
    more := es + [BeginConfirm(1)] + [again];
    assert Run(NewRace(), more).core == F.World(PENDING_PAYMENT, false, map[0 := F.Done, 1 := F.WantsLock], map[], [FULFILLED]);
    RunTwo(more, again, again);
    more := more + [again] + [again];
  }

  /** Then the order is bought and closed a second time. */
  lemma ReopenRace()
    ensures exists es :: |Run(NewRace(), es).core.closings| == 2
  {
    var es := ReachReopened();
    es := ClaimAgain(es, Proceed(1, true, PAID, None));
    CloseAgain(es, Proceed(1, true, PAID, None));
  }

  lemma CloseAgain(es: seq<Event>, again: Event)
    requires Run(NewRace(), es).core == F.World(PAID, true, map[0 := F.Done, 1 := F.Claimed], map[], [FULFILLED])
    requires again == Proceed(1, true, PAID, None)
    ensures exists more :: |Run(NewRace(), more).core.closings| == 2
  {
    RunTwo(es, again, Proceed(1, true, FULFILLED, None));
    assert |Run(NewRace(), es + [again] + [Proceed(1, true, FULFILLED, None)]).core.closings| == 2;
  }
}
