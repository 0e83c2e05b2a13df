/**
 Bank-transfer orders (lib/billing.js) with each operation atomic, and the independent integrity
 check that looks for numbers handed out without an approved payment (lib/revenueProtection.js).
 */
module BankOrders {
  import opened NumberOrders
  import opened Options

  datatype Method = STRIPE | MANUAL_BANK | RAZORPAY

  datatype Review = Unreviewed | Awaiting | Approved | Rejected

  /** The two fixed references of administrators' own purchases, or any other text. */
  datatype Reference = AdminDirect | AdminDirectBillable | Text(id: nat)

  datatype Order = Order(
    tenant: nat,
    payment: Method,
    status: OrderStatus,
    review: Review,
    reference: Option<Reference>)

  datatype Reply =
    | Accepted
    | AlreadyProcessed
    | NotClaimed
    | Refused(error: Error)

  datatype Error =
    | NotFound
    | Forbidden
    | NotBankTransfer
    | WasCancelled
    | NotApproved
    | NotAwaitingPayment
    | PaymentAlreadyApproved
    | OrderFulfilled
    | PurchaseThrew

  /** How the part of a confirmation after the claim goes. */
  datatype Purchase =
    | Threw(afterReference: bool)
    | Ended(numbers: seq<Number>, bought: seq<bool>)

  datatype Op =
    | Create(tenant: nat)
    | RecordAdminDirect(tenant: nat, purchased: seq<Number>, failed: seq<Number>, billable: bool)
    | Upload(id: nat, scope: Option<nat>)
    | Approve(id: nat, reference: Option<Option<Reference>>, purchase: Purchase)
    | Reject(id: nat)
    | Cancel(id: nat)
    | Confirm(id: nat, reference: Option<Option<Reference>>, purchase: Purchase)

  predicate WellFormed(p: Purchase) {
    p.Ended? ==> |p.bought| == |p.numbers|
  }

  predicate OpWellFormed(op: Op) {
    match op
    case Approve(_, _, p) => WellFormed(p)
    case Confirm(_, _, p) => WellFormed(p)
    case _ => true
  }

  function WithReference(o: Order, reference: Option<Option<Reference>>): Order {
    if reference.Some? then o.(reference := reference.value) else o
  }

  /** A claimed order after the purchase loop, or after the call that threw before its end. */
  function Purchased(o: Order, reference: Option<Option<Reference>>, p: Purchase): (Order, Reply)
    requires WellFormed(p)
  {
    var paid := o.(status := PAID);
    match p
    case Threw(after) => (if after then WithReference(paid, reference) else paid, Refused(PurchaseThrew))
    case Ended(numbers, bought) =>
      var status := ClosingStatus(Chosen(numbers, bought, true), Chosen(numbers, bought, false));
      (WithReference(paid, reference).(status := status), Accepted)
  }

  function Confirmed(o: Order, reference: Option<Option<Reference>>, p: Purchase): (Order, Reply)
    requires WellFormed(p)
  {
    if o.payment != MANUAL_BANK then (o, Refused(NotBankTransfer))
    else if o.status == CANCELLED then (o, Refused(WasCancelled))
    else if Processed(o.status) then (o, AlreadyProcessed)
    else if o.review != Approved then (o, Refused(NotApproved))
    else if !Claimable(o.status) then (o, NotClaimed)
    else Purchased(o, reference, p)
  }

  /** The approval is written whatever the status, and stays written when the confirmation fails. */
  function ApprovedAndConfirmed(o: Order, reference: Option<Option<Reference>>, p: Purchase): (Order, Reply)
    requires WellFormed(p)
  {
    if o.payment != MANUAL_BANK then (o, Refused(NotBankTransfer))
    else Confirmed(WithReference(o.(review := Approved), reference), reference, p)
  }

  function Uploaded(o: Order, tenant: Option<nat>): (Order, Reply) {
    if tenant.Some? && o.tenant != tenant.value then (o, Refused(Forbidden))
    else if o.payment != MANUAL_BANK then (o, Refused(NotBankTransfer))
    else if o.status != PENDING_PAYMENT && o.status != PENDING then (o, Refused(NotAwaitingPayment))
    else if o.review == Approved then (o, Refused(PaymentAlreadyApproved))
    else (o.(review := Awaiting, status := PENDING_PAYMENT), Accepted)
  }

  function RejectedOrder(o: Order): (Order, Reply) {
    if o.payment != MANUAL_BANK then (o, Refused(NotBankTransfer))
    else if Processed(o.status) then (o, Refused(OrderFulfilled))
    else (o.(status := CANCELLED, review := Rejected), Accepted)
  }

  /** Cancelling does not look at the payment method. */
  function CancelledOrder(o: Order): (Order, Reply) {
    if Processed(o.status) then (o, Refused(OrderFulfilled)) else (o.(status := CANCELLED), Accepted)
  }

  function NewBankOrder(tenant: nat): Order {
    Order(tenant, MANUAL_BANK, PENDING_PAYMENT, Unreviewed, None)
  }

  function AdminOrder(tenant: nat, purchased: seq<Number>, failed: seq<Number>, billable: bool): Order {
    Order(tenant, MANUAL_BANK, ClosingStatus(purchased, failed),
          if billable then Unreviewed else Approved,
          Some(if billable then AdminDirectBillable else AdminDirect))
  }

  function OnOrder(o: Order, op: Op): (Order, Reply)
    requires OpWellFormed(op)
  {
    match op
    case Upload(_, tenant) => Uploaded(o, tenant)
    case Approve(_, reference, p) => ApprovedAndConfirmed(o, reference, p)
    case Reject(_) => RejectedOrder(o)
    case Cancel(_) => CancelledOrder(o)
    case Confirm(_, reference, p) => Confirmed(o, reference, p)
    case _ => (o, Accepted)
  }

  /** Orders get consecutive ids; an operation on an order that does not exist is refused. */
  type Book = map<nat, Order>

  function Apply(book: Book, newId: nat, op: Op): Book
    requires OpWellFormed(op)
  {
    match op
    case Create(tenant) => book[newId := NewBankOrder(tenant)]
    case RecordAdminDirect(tenant, purchased, failed, billable) =>
      book[newId := AdminOrder(tenant, purchased, failed, billable)]
    case _ => if op.id in book then book[op.id := OnOrder(book[op.id], op).0] else book
  }

  /** The n-th operation creates its order, if it creates one, under the id n. */
  function Run(book: Book, ops: seq<Op>): Book
    requires forall i :: 0 <= i < |ops| ==> OpWellFormed(ops[i])
  {
    if ops == [] then book else Apply(Run(book, ops[..|ops| - 1]), |ops| - 1, ops[|ops| - 1])
  }

  // ---- what the operations keep ----

  predicate AdminReference(o: Order) {
    o.reference == Some(AdminDirect) || o.reference == Some(AdminDirectBillable)
  }

  /** Numbers were handed out on this bank order without approval and not by an administrator. */
  predicate Unpaid(o: Order) {
    o.payment == MANUAL_BANK && o.status in {FULFILLED, PARTIAL} && o.review != Approved && !AdminReference(o)
  }

  lemma OnOrderPaid(o: Order, op: Op)
    requires OpWellFormed(op) && !Unpaid(o)
    ensures !Unpaid(OnOrder(o, op).0)
    ensures o.status in {FULFILLED, PARTIAL} ==> OnOrder(o, op).0.status == o.status
  {
  }

  /**
   Over every run of the operations, a fulfilled or partial bank order is approved or an
   administrator's own.
   */
  lemma {:induction false} NothingUnpaid(ops: seq<Op>)
    requires forall i :: 0 <= i < |ops| ==> OpWellFormed(ops[i])
    ensures forall id :: id in Run(map[], ops) ==> !Unpaid(Run(map[], ops)[id])
  {
    if ops != [] {
      var front, op := ops[..|ops| - 1], ops[|ops| - 1];
      NothingUnpaid(front);
      var book := Run(map[], front);
      if !op.Create? && !op.RecordAdminDirect? && op.id in book {
        OnOrderPaid(book[op.id], op);
      }
    }
  }

  lemma {:induction false} IdsBelow(ops: seq<Op>)
    requires forall i :: 0 <= i < |ops| ==> OpWellFormed(ops[i])
    ensures forall id :: id in Run(map[], ops) ==> id < |ops|
  {
    if ops != [] {
      IdsBelow(ops[..|ops| - 1]);
    }
  }

  /** No run takes the status of a processed order back. */
  lemma {:induction false} ProcessedStays(ops: seq<Op>, j: nat, id: nat)
    requires j <= |ops| && forall i :: 0 <= i < |ops| ==> OpWellFormed(ops[i])
    requires id in Run(map[], ops[..j]) && Run(map[], ops[..j])[id].status in {FULFILLED, PARTIAL}
    ensures id in Run(map[], ops) && Run(map[], ops)[id].status == Run(map[], ops[..j])[id].status
  {
    if j == |ops| {
      assert ops[..j] == ops;
    } else {
      var front, op := ops[..|ops| - 1], ops[|ops| - 1];
      assert front[..j] == ops[..j];
      ProcessedStays(front, j, id);
      IdsBelow(front);
      NothingUnpaid(front);
      if !op.Create? && !op.RecordAdminDirect? && op.id == id {
        OnOrderPaid(Run(map[], front)[id], op);
      }
    }
  }

  /** Orders that no operation fulfils any more. */
  predicate Lost(o: Order) {
    o.payment == MANUAL_BANK && o.status in {FAILED, PARTIAL, CANCELLED}
  }

  lemma {:induction false} LostStays(ops: seq<Op>, j: nat, id: nat)
    requires j <= |ops| && forall i :: 0 <= i < |ops| ==> OpWellFormed(ops[i])
    requires id in Run(map[], ops[..j]) && Lost(Run(map[], ops[..j])[id])
    ensures id in Run(map[], ops) && Lost(Run(map[], ops)[id])
  {
    if j == |ops| {
      assert ops[..j] == ops;
    } else {
      var front := ops[..|ops| - 1];
      assert front[..j] == ops[..j];
      LostStays(front, j, id);
      IdsBelow(front);
    }
  }

  lemma {:induction false} AllBank(ops: seq<Op>)
    requires forall i :: 0 <= i < |ops| ==> OpWellFormed(ops[i])
    ensures forall id :: id in Run(map[], ops) ==> Run(map[], ops)[id].payment == MANUAL_BANK
  {
    if ops != [] {
      AllBank(ops[..|ops| - 1]);
    }
  }

  ghost predicate AllWellFormed(ops: seq<Op>) {
    forall i :: 0 <= i < |ops| ==> OpWellFormed(ops[i])
  }

  /** After these operations and some more, the order is fulfilled. */
  ghost predicate Fulfils(ops: seq<Op>, more: seq<Op>, id: nat) {
    AllWellFormed(ops + more) && id in Run(map[], ops + more) && Run(map[], ops + more)[id].status == FULFILLED
  }

  /**
   Whatever has happened, an order can still end up fulfilled exactly when it is neither failed nor
   partial nor cancelled; one approval whose purchases all go through is then enough, also for an
   order that an earlier confirmation has claimed and left PAID.
   */
  lemma FulfillableExactly(ops: seq<Op>, id: nat, numbers: seq<Number>)
    requires AllWellFormed(ops) && id in Run(map[], ops)
    ensures var status := Run(map[], ops)[id].status;
            && ((exists more :: Fulfils(ops, more, id)) <==> status !in {FAILED, PARTIAL, CANCELLED})
            && (status !in {FAILED, PARTIAL, CANCELLED} ==>
                  Fulfils(ops, [Approve(id, None, Ended(numbers, seq(|numbers|, _ => true)))], id))
  {
    var o := Run(map[], ops)[id];
    AllBank(ops);
    if o.status in {FAILED, PARTIAL, CANCELLED} {
      forall more ensures !Fulfils(ops, more, id) {
        if AllWellFormed(ops + more) {
          assert (ops + more)[..|ops|] == ops;
          LostStays(ops + more, |ops|, id);
        }
      }
    } else {
      var bought := seq(|numbers|, _ => true);
      var more := [Approve(id, None, Ended(numbers, bought))];
      assert (ops + more)[..|ops + more| - 1] == ops;
      ClosingStatusMeans(numbers, bought);
      assert Fulfils(ops, more, id);
    }
  }

  // ---- the integrity check ----

  /**
   The UNPAID_FULFILLMENT query. `notIn` on a column that is NULL is not true in SQL, so an order
   without a reference never matches.
   */
  predicate Matches(o: Order) {
    && Processed(o.status)
    && o.payment == MANUAL_BANK
    && o.review != Approved
    && o.reference.Some?
    && o.reference.value != AdminDirect
    && o.reference.value != AdminDirectBillable
  }

  /** Orders the operations produce give the integrity check nothing to report. */
  lemma {:induction false} CheckerStaysSilent(ops: seq<Op>)
    requires forall i :: 0 <= i < |ops| ==> OpWellFormed(ops[i])
    ensures (set id | id in Run(map[], ops) && Matches(Run(map[], ops)[id])) == {}
  {
    NothingUnpaid(ops);
  }

  /** The check never accuses a paid order, but of the unpaid ones it sees those with a reference only. */
  lemma CheckerSees(o: Order)
    ensures Matches(o) <==> Unpaid(o) && o.reference.Some?
  {
  }

  datatype Alert = Alert(order: nat, resolved: bool)

  predicate Open(rows: seq<Alert>, id: nat) {
    exists i :: 0 <= i < |rows| && rows[i] == Alert(id, false)
  }

  ghost predicate NoDuplicates(ids: seq<nat>) {
    forall i, j :: 0 <= i < j < |ids| ==> ids[i] != ids[j]
  }

  /** No order has two unresolved alerts. */
  ghost predicate OneOpenEach(rows: seq<Alert>) {
    forall i, j :: 0 <= i < j < |rows| && !rows[i].resolved && !rows[j].resolved ==> rows[i].order != rows[j].order
  }

  class IntegrityChecker {
    var rows: seq<Alert>

    constructor ()
      ensures rows == []
    {
      rows := [];
    }

    /** The orders the query returns, each once. */
    method FindUnpaid(book: Book) returns (found: seq<nat>)
      ensures NoDuplicates(found)
      ensures forall id :: id in found <==> id in book && Matches(book[id])
    {
      found := [];
      var rest := book.Keys;
      while rest != {}
        invariant rest <= book.Keys
        invariant NoDuplicates(found)
        invariant forall id :: id in found <==> id in book && id !in rest && Matches(book[id])
        decreases |rest|
      {
        var id :| id in rest;
        if Matches(book[id]) {
          found := found + [id];
        }
        rest := rest - {id};
      }
    }

    method FindOpen(id: nat) returns (open: bool)
      ensures open <==> Open(rows, id)
    {
      open := false;
      var i := 0;
      while i < |rows| && !open
        invariant 0 <= i <= |rows|
        invariant !open ==> forall k :: 0 <= k < i ==> rows[k] != Alert(id, false)
        invariant open ==> Open(rows, id)
      {
        open := rows[i].order == id && !rows[i].resolved;
        i := i + 1;
      }
    }

    /**
     `runBillingIntegrityChecks`, for this query: every order found has an open alert afterwards,
     nothing else gains one, and no order ever gets a second.
     */
    method Check(book: Book) returns (count: nat)
      requires OneOpenEach(rows)
      modifies this
      ensures OneOpenEach(rows)
      ensures old(rows) <= rows
      ensures forall id :: Open(rows, id) <==> old(Open(rows, id)) || (id in book && Matches(book[id]))
      ensures (forall id :: id in book ==> !Matches(book[id])) ==> rows == old(rows) && count == 0
    {
      var found := FindUnpaid(book);
      if |found| > 0 {
        assert found[0] in found;
      }
      count := 0;
      while count < |found|
        invariant count <= |found|
        invariant OneOpenEach(rows)
        invariant old(rows) <= rows && (count == 0 ==> rows == old(rows))
        invariant forall id :: Open(rows, id) <==> old(Open(rows, id)) || id in found[..count]
      {
        var id := found[count];
        var open := FindOpen(id);
        if !open {
          Opened(rows, id);
          rows := rows + [Alert(id, false)];
        }
        assert found[..count + 1] == found[..count] + [id];
        count := count + 1;
      }
      assert found[..count] == found;
    }
  }

  lemma Opened(rows: seq<Alert>, id: nat)
    requires OneOpenEach(rows) && !Open(rows, id)
    ensures OneOpenEach(rows + [Alert(id, false)])
    ensures forall other :: Open(rows + [Alert(id, false)], other) <==> Open(rows, other) || other == id
  {
    var more := rows + [Alert(id, false)];
    assert more[|rows|] == Alert(id, false);
    forall other | Open(rows, other) ensures Open(more, other) {
      var i :| 0 <= i < |rows| && rows[i] == Alert(other, false);
      assert more[i] == Alert(other, false);
    }
  }

  // ---- the operations as they change the order table ----

  /**
   What a confirmation makes of an order, and answers: an approved bank order that is not closed is
   bought, and closed by how many of its numbers were; any other is left as it is.
   */
  predicate Settles(o: Order, reference: Option<Option<Reference>>, p: Purchase, o': Order, reply: Reply)
    requires WellFormed(p)
  {
    var bank, closed := o.payment == MANUAL_BANK, o.status in {FULFILLED, PARTIAL, FAILED, CANCELLED};
    var bought := bank && o.review == Approved && !closed;
    && (reply == Refused(NotBankTransfer) <==> !bank)
    && (reply == Refused(WasCancelled) <==> bank && o.status == CANCELLED)
    && (reply == AlreadyProcessed <==> bank && o.status in {FULFILLED, PARTIAL})
    && (reply == Refused(NotApproved) <==> bank && o.status !in {CANCELLED, FULFILLED, PARTIAL} && o.review != Approved)
    && (reply == NotClaimed <==> bank && o.status == FAILED && o.review == Approved)
    && (reply == Refused(PurchaseThrew) <==> bought && p.Threw?)
    && (reply == Accepted <==> bought && p.Ended?)
    && (!bought ==> o' == o)
    && (bought ==>
          && o' == o.(status := o'.status, reference := o'.reference)
          && o'.reference == (if reference.Some? && p != Threw(false) then reference.value else o.reference)
          && (p.Threw? ==> o'.status == PAID)
          && (p.Ended? ==>
                && o'.status in {FULFILLED, PARTIAL, FAILED}
                && (o'.status == FULFILLED <==> forall i :: 0 <= i < |p.numbers| ==> p.bought[i])
                && (o'.status == FAILED <==> p.numbers != [] && forall i :: 0 <= i < |p.numbers| ==> !p.bought[i])))
  }

  lemma ConfirmSettles(o: Order, reference: Option<Option<Reference>>, p: Purchase)
    requires WellFormed(p)
    ensures Settles(o, reference, p, Confirmed(o, reference, p).0, Confirmed(o, reference, p).1)
  {
    if p.Ended? {
      ClosingStatusMeans(p.numbers, p.bought);
    }
  }

  class OrderDesk {
    var orders: Book
    var next: nat

    constructor ()
      ensures orders == map[] && next == 0
    {
      orders, next := map[], 0;
    }

    /** Each call takes the next id, used or not, as in `Run`. */
    method CreateManualOrder(enabled: bool, configured: bool, items: seq<Number>, tenant: nat) returns (created: bool)
      modifies this
      ensures created <==> enabled && configured && items != []
      ensures orders == if created then Apply(old(orders), old(next), Create(tenant)) else old(orders)
      ensures created ==> orders == old(orders)[old(next) := Order(tenant, MANUAL_BANK, PENDING_PAYMENT, Unreviewed, None)]
      ensures next == old(next) + 1
    {
      created := enabled && configured && items != [];
      if created {
        orders := orders[next := Order(tenant, MANUAL_BANK, PENDING_PAYMENT, Unreviewed, None)];
      }
      next := next + 1;
    }

    method RecordAdminDirectOrder(tenant: nat, items: seq<Number>, purchased: seq<Number>, failed: seq<Number>, billable: bool)
      modifies this
      ensures orders == if items == [] then old(orders)
                        else Apply(old(orders), old(next), RecordAdminDirect(tenant, purchased, failed, billable))
      ensures items != [] ==>
                && old(next) in orders
                && var o := orders[old(next)];
                   && o.tenant == tenant && o.payment == MANUAL_BANK
                   && (o.review == Approved <==> !billable) && (o.review == Unreviewed <==> billable)
                   && o.reference == Some(if billable then AdminDirectBillable else AdminDirect)
                   && (o.status == FULFILLED <==> failed == []) && (o.status == PARTIAL <==> failed != [] && purchased != [])
                   && (o.status == FAILED <==> failed != [] && purchased == [])
      ensures next == old(next) + 1
    {
      if items != [] {
        var status := if failed == [] then FULFILLED else if purchased != [] then PARTIAL else FAILED;
        var reference := if billable then AdminDirectBillable else AdminDirect;
        var review := if billable then Unreviewed else Approved;
        orders := orders[next := Order(tenant, MANUAL_BANK, status, review, Some(reference))];
      }
      next := next + 1;
    }

    method UploadOrderPaymentProof(id: nat, tenant: Option<nat>) returns (reply: Reply)
      modifies this`orders
      ensures orders == Apply(old(orders), next, Upload(id, tenant))
      ensures reply == if id in old(orders) then OnOrder(old(orders[id]), Upload(id, tenant)).1 else Refused(NotFound)
      ensures var o := if id in old(orders) then old(orders[id]) else NewBankOrder(0);
              && (reply == Refused(NotFound) <==> id !in old(orders))
              && (reply == Refused(Forbidden) <==> id in old(orders) && tenant.Some? && tenant.value != o.tenant)
              && (reply == Accepted <==>
                    && id in old(orders) && (tenant.None? || tenant.value == o.tenant)
                    && o.payment == MANUAL_BANK && o.status in {PENDING, PENDING_PAYMENT} && o.review != Approved)
              && orders == if reply == Accepted then old(orders)[id := o.(status := PENDING_PAYMENT, review := Awaiting)]
                           else old(orders)
    {
      if id !in orders {
        return Refused(NotFound);
      }
      var order := orders[id];
      if tenant.Some? && order.tenant != tenant.value {
        return Refused(Forbidden);
      }
      if order.payment != MANUAL_BANK {
        return Refused(NotBankTransfer);
      }
      if order.status !in {PENDING_PAYMENT, PENDING} {
        return Refused(NotAwaitingPayment);
      }
      if order.review == Approved {
        return Refused(PaymentAlreadyApproved);
      }
      orders := orders[id := order.(review := Awaiting, status := PENDING_PAYMENT)];
      reply := Accepted;
    }

    method RejectBankPayment(id: nat) returns (reply: Reply)
      modifies this`orders
      ensures orders == Apply(old(orders), next, Reject(id))
      ensures reply == if id in old(orders) then OnOrder(old(orders[id]), Reject(id)).1 else Refused(NotFound)
      ensures var o := if id in old(orders) then old(orders[id]) else NewBankOrder(0);
              && (reply == Accepted <==> id in old(orders) && o.payment == MANUAL_BANK && o.status !in {FULFILLED, PARTIAL})
              && (reply == Refused(OrderFulfilled) <==>
                    id in old(orders) && o.payment == MANUAL_BANK && o.status in {FULFILLED, PARTIAL})
              && orders == if reply == Accepted then old(orders)[id := o.(status := CANCELLED, review := Rejected)]
                           else old(orders)
    {
      if id !in orders {
        return Refused(NotFound);
      }
      var order := orders[id];
      if order.payment != MANUAL_BANK {
        return Refused(NotBankTransfer);
      }
      if order.status in {FULFILLED, PARTIAL} {
        return Refused(OrderFulfilled);
      }
      orders := orders[id := order.(status := CANCELLED, review := Rejected)];
      reply := Accepted;
    }

    method CancelManualOrder(id: nat) returns (reply: Reply)
      modifies this`orders
      ensures orders == Apply(old(orders), next, Cancel(id))
      ensures reply == if id in old(orders) then OnOrder(old(orders[id]), Cancel(id)).1 else Refused(NotFound)
      ensures var o := if id in old(orders) then old(orders[id]) else NewBankOrder(0);
              && (reply == Accepted <==> id in old(orders) && o.status !in {FULFILLED, PARTIAL})
              && (reply == Refused(OrderFulfilled) <==> id in old(orders) && o.status in {FULFILLED, PARTIAL})
              && orders == if reply == Accepted then old(orders)[id := o.(status := CANCELLED)] else old(orders)
    {
      if id !in orders {
        return Refused(NotFound);
      }
      var order := orders[id];
      if order.status in {FULFILLED, PARTIAL} {
        return Refused(OrderFulfilled);
      }
      orders := orders[id := order.(status := CANCELLED)];
      reply := Accepted;
    }

    method ConfirmManualOrderAndFulfill(id: nat, reference: Option<Option<Reference>>, purchase: Purchase)
      returns (reply: Reply)
      requires WellFormed(purchase)
      modifies this`orders
      ensures orders == Apply(old(orders), next, Confirm(id, reference, purchase))
      ensures reply == if id in old(orders) then OnOrder(old(orders[id]), Confirm(id, reference, purchase)).1 else Refused(NotFound)
      ensures id in old(orders) ==> Settles(old(orders[id]), reference, purchase, orders[id], reply)
      ensures orders == if id in old(orders) then old(orders)[id := orders[id]] else old(orders)
    {
      if id in orders {
        ConfirmSettles(orders[id], reference, purchase);
      }
      if id !in orders {
        return Refused(NotFound);
      }
      var order := orders[id];
      if order.payment != MANUAL_BANK {
        return Refused(NotBankTransfer);
      }
      if order.status == CANCELLED {
        return Refused(WasCancelled);
      }
      if order.status in {FULFILLED, PARTIAL} {
        return AlreadyProcessed;
      }
      if order.review != Approved {
        return Refused(NotApproved);
      }
      if order.status !in {PENDING, PAID, PENDING_PAYMENT} {
        return NotClaimed;
      }
      orders := orders[id := order.(status := PAID)];
      reply := BuyClaimed(id, reference, purchase);
    }

    /** The part of a confirmation after the claim. */
    method BuyClaimed(id: nat, reference: Option<Option<Reference>>, purchase: Purchase) returns (reply: Reply)
      requires id in orders && orders[id].status == PAID && WellFormed(purchase)
      modifies this`orders
      ensures orders == old(orders)[id := Purchased(old(orders[id]), reference, purchase).0]
      ensures reply == Purchased(old(orders[id]), reference, purchase).1
    {
      var order := orders[id];
      if purchase == Threw(false) {
        return Refused(PurchaseThrew);
      }
      if reference.Some? {
        order := order.(reference := reference.value);
        orders := orders[id := order];
      }
      if purchase.Threw? {
        return Refused(PurchaseThrew);
      }
      var purchased, failed, status := FulfillNumberOrder(purchase.numbers, purchase.bought);
      orders := orders[id := order.(status := status)];
      reply := Accepted;
    }

    method ApproveBankPayment(id: nat, reference: Option<Option<Reference>>, purchase: Purchase)
      returns (reply: Reply)
      requires WellFormed(purchase)
      modifies this`orders
      ensures orders == Apply(old(orders), next, Approve(id, reference, purchase))
      ensures reply == if id in old(orders) then OnOrder(old(orders[id]), Approve(id, reference, purchase)).1 else Refused(NotFound)
      ensures id in old(orders) && old(orders[id]).payment == MANUAL_BANK ==>
                var o := old(orders[id]).(review := Approved);
                Settles(if reference.Some? then o.(reference := reference.value) else o, reference, purchase, orders[id], reply)
      ensures orders == if id in old(orders) && old(orders[id]).payment == MANUAL_BANK then old(orders)[id := orders[id]]
                        else old(orders)
    {
      if id !in orders {
        return Refused(NotFound);
      }
      var order := orders[id];
      if order.payment != MANUAL_BANK {
        return Refused(NotBankTransfer);
      }
      order := order.(review := Approved);
      if reference.Some? {
        order := order.(reference := reference.value);
      }
      orders := orders[id := order];
      reply := ConfirmManualOrderAndFulfill(id, reference, purchase);
    }
  }
}
