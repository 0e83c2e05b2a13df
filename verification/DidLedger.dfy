/**
 Which organization a number belongs to: the phone number rows, the append-only assignment log and
 the tenant cache that inbound calls read (lib/adminDidManagement.js, lib/tenantCache.js,
 lib/buyNumber.js, lib/adminNumbers.js).
 */
module DidLedger {
  import opened Options

  type Number = nat

  datatype Row = Row(tenant: Option<nat>, active: bool)

  datatype Action = SYNCED | ASSIGNED | REASSIGNED | UNASSIGNED

  datatype Entry = Entry(number: Number, tenant: Option<nat>, previous: Option<nat>, action: Action)

  datatype State = State(numbers: map<Number, Row>, log: seq<Entry>, cache: map<Number, nat>)

  datatype Reply = Done | AlreadyOwned | Refused(error: Error)

  datatype Error = TenantNotFound | NumberNotFound | NotOnAccount | OtherOrganization | OrderRejected

  datatype Op =
    | Assign(number: Number, tenant: nat, create: bool, onAccount: bool)
    | Unassign(number: Number)
    | UnassignAll(tenant: nat, order: seq<Number>)
    | Sync(account: seq<Number>)
    | Purchase(number: Number, tenant: nat, onAccount: bool, accepted: bool)
    | Release(number: Number)
    | Refresh
    | Lookup(number: Number)

  // ---- what the operations do ----

  /** The transaction of `assignDidToTenant`, and then the cache. */
  function AssignDid(s: State, tenants: set<nat>, n: Number, tenant: nat, create: bool, onAccount: bool): (State, Reply) {
    if tenant !in tenants then (s, Refused(TenantNotFound))
    else if n !in s.numbers && !create then (s, Refused(NumberNotFound))
    else if !onAccount then (s, Refused(NotOnAccount))
    else
      var previous := if n in s.numbers then s.numbers[n].tenant else None;
      var moves := previous.Some? && previous != Some(tenant);
      (State(s.numbers[n := Row(Some(tenant), true)],
             s.log + (if moves then [Entry(n, None, previous, UNASSIGNED)] else [])
             + [Entry(n, Some(tenant), previous, if moves then REASSIGNED else ASSIGNED)],
             s.cache[n := tenant]),
       Done)
  }

  /** The two halves of an unassignment: the cache goes first, the row and the log follow. */
  function Invalidated(s: State, n: Number): State {
    s.(cache := s.cache - {n})
  }

  function DetachedAs(s: State, n: Number, previous: Option<nat>): State {
    s.(numbers := s.numbers[n := Row(None, true)], log := s.log + [Entry(n, None, previous, UNASSIGNED)])
  }

  function Detached(s: State, n: Number): State
    requires n in s.numbers
  {
    DetachedAs(s, n, s.numbers[n].tenant)
  }

  function UnassignDid(s: State, n: Number): (State, Reply) {
    if n !in s.numbers then (s, Refused(NumberNotFound))
    else if s.numbers[n].tenant.None? then (s, Done)
    else (Detached(Invalidated(s, n), n), Done)
  }

  /** The numbers of the tenant among those given, one after the other. */
  function UnassignEach(s: State, tenant: nat, order: seq<Number>): State {
    if order == [] then s
    else
      var r := UnassignEach(s, tenant, order[..|order| - 1]);
      var n := order[|order| - 1];
      if n in r.numbers && r.numbers[n].tenant == Some(tenant) then Detached(Invalidated(r, n), n) else r
  }

  /** The numbers on the carrier's account that the table lacks, added as nobody's. */
  function SyncEach(s: State, account: seq<Number>): State {
    if account == [] then s
    else
      var r := SyncEach(s, account[..|account| - 1]);
      var n := account[|account| - 1];
      if n in r.numbers then r
      else r.(numbers := r.numbers[n := Row(None, true)], log := r.log + [Entry(n, None, None, SYNCED)])
  }

  /** A bought number starts without a log entry. */
  function PurchaseNumber(s: State, tenants: set<nat>, n: Number, tenant: nat, onAccount: bool, accepted: bool): (State, Reply) {
    if n in s.numbers then
      if s.numbers[n].tenant.Some? && s.numbers[n].tenant != Some(tenant) then (s, Refused(OtherOrganization))
      else if s.numbers[n].tenant.None? then
        var (s', reply) := AssignDid(s, tenants, n, tenant, false, onAccount);
        (s', if reply == Done then AlreadyOwned else reply)
      else (s.(cache := s.cache[n := tenant]), AlreadyOwned)
    else if !accepted then (s, Refused(OrderRejected))
    else (s.(numbers := s.numbers[n := Row(Some(tenant), true)], cache := s.cache[n := tenant]), Done)
  }

  function ReleaseNumber(s: State, n: Number): State {
    if n in s.numbers then
      s.(numbers := s.numbers[n := s.numbers[n].(active := false)], cache := s.cache - {n})
    else s
  }

  function Refilled(s: State): State {
    s.(cache := map n | n in s.numbers && s.numbers[n].active && s.numbers[n].tenant.Some? :: s.numbers[n].tenant.value)
  }

  function LookUp(s: State, n: Number): (State, Option<nat>) {
    if n in s.cache then (s, Some(s.cache[n]))
    else if n in s.numbers && s.numbers[n].tenant.Some? then
      (s.(cache := s.cache[n := s.numbers[n].tenant.value]), s.numbers[n].tenant)
    else (s, None)
  }

  function Apply(s: State, tenants: set<nat>, op: Op): State {
    match op
    case Assign(n, tenant, create, onAccount) => AssignDid(s, tenants, n, tenant, create, onAccount).0
    case Unassign(n) => UnassignDid(s, n).0
    case UnassignAll(tenant, order) => UnassignEach(s, tenant, order)
    case Sync(account) => SyncEach(s, account)
    case Purchase(n, tenant, onAccount, accepted) => PurchaseNumber(s, tenants, n, tenant, onAccount, accepted).0
    case Release(n) => ReleaseNumber(s, n)
    case Refresh => Refilled(s)
    case Lookup(n) => LookUp(s, n).0
  }

  function Run(s: State, tenants: set<nat>, ops: seq<Op>): State {
    if ops == [] then s else Apply(Run(s, tenants, ops[..|ops| - 1]), tenants, ops[|ops| - 1])
  }

  // ---- what they keep ----

  /** Replaying the log: the tenant of the number's last entry, if it has one. */
  function Owner(log: seq<Entry>, n: Number): Option<Option<nat>> {
    if log == [] then None
    else if log[|log| - 1].number == n then Some(log[|log| - 1].tenant)
    else Owner(log[..|log| - 1], n)
  }

  ghost predicate LogAgrees(s: State) {
    forall n: Number :: Owner(s.log, n).Some? ==> n in s.numbers && s.numbers[n].tenant == Owner(s.log, n).value
  }

  ghost predicate CacheAgrees(s: State) {
    forall n: Number :: n in s.cache ==> n in s.numbers && s.numbers[n].tenant == Some(s.cache[n])
  }

  /**
   An entry follows on from the number's earlier ones: it names the owner before it, or it is the
   second half of a reassignment, right after the entry that took the number from that owner.
   */
  predicate Follows(log: seq<Entry>, i: nat)
    requires i < |log|
  {
    var before := Owner(log[..i], log[i].number);
    || before.None?
    || before.value == log[i].previous
    || (log[i].action == REASSIGNED && i > 0
        && log[i - 1] == Entry(log[i].number, None, log[i].previous, UNASSIGNED))
  }

  ghost predicate Chained(log: seq<Entry>) {
    forall i: nat :: i < |log| ==> Follows(log, i)
  }

  lemma OwnerAfter(log: seq<Entry>, e: Entry, n: Number)
    ensures Owner(log + [e], n) == if e.number == n then Some(e.tenant) else Owner(log, n)
  {
    assert (log + [e])[..|log|] == log;
  }

  lemma ChainedAfter(log: seq<Entry>, e: Entry)
    requires Chained(log)
    requires Owner(log, e.number).None? || Owner(log, e.number).value == e.previous
             || (e.action == REASSIGNED && log != [] && log[|log| - 1] == Entry(e.number, None, e.previous, UNASSIGNED))
    ensures Chained(log + [e])
  {
    var more := log + [e];
    forall i: nat | i < |more| ensures Follows(more, i) {
      if i < |log| {
        assert Follows(log, i);
        assert more[..i] == log[..i];
      } else {
        assert more[..i] == log;
      }
    }
  }

  ghost predicate Agrees(s: State) {
    LogAgrees(s) && CacheAgrees(s) && Chained(s.log)
  }

  lemma AssignAgrees(s: State, tenants: set<nat>, n: Number, tenant: nat, create: bool, onAccount: bool)
    requires Agrees(s)
    ensures Agrees(AssignDid(s, tenants, n, tenant, create, onAccount).0)
  {
    var (s', reply) := AssignDid(s, tenants, n, tenant, create, onAccount);
    if reply == Done {
      var previous := if n in s.numbers then s.numbers[n].tenant else None;
      var moves := previous.Some? && previous != Some(tenant);
      var taken := s.log + if moves then [Entry(n, None, previous, UNASSIGNED)] else [];
      var last := Entry(n, Some(tenant), previous, if moves then REASSIGNED else ASSIGNED);
      assert s'.log == taken + [last];
      if moves {
        ChainedAfter(s.log, Entry(n, None, previous, UNASSIGNED));
      } else {
        assert taken == s.log;
      }
      ChainedAfter(taken, last);
      forall m: Number | Owner(s'.log, m).Some? ensures m in s'.numbers && s'.numbers[m].tenant == Owner(s'.log, m).value {
        OwnerAfter(taken, last, m);
        if moves {
          OwnerAfter(s.log, Entry(n, None, previous, UNASSIGNED), m);
        }
      }
    }
  }

  lemma DetachAgrees(s: State, n: Number)
    requires Agrees(s) && n in s.numbers
    ensures Agrees(Detached(Invalidated(s, n), n))
  {
    var s' := Detached(Invalidated(s, n), n);
    ChainedAfter(s.log, Entry(n, None, s.numbers[n].tenant, UNASSIGNED));
    forall m: Number | Owner(s'.log, m).Some? ensures m in s'.numbers && s'.numbers[m].tenant == Owner(s'.log, m).value {
      OwnerAfter(s.log, Entry(n, None, s.numbers[n].tenant, UNASSIGNED), m);
    }
  }

  lemma {:induction false} UnassignEachAgrees(s: State, tenant: nat, order: seq<Number>)
    requires Agrees(s)
    ensures Agrees(UnassignEach(s, tenant, order))
  {
    if order != [] {
      var front, n := order[..|order| - 1], order[|order| - 1];
      UnassignEachAgrees(s, tenant, front);
      var r := UnassignEach(s, tenant, front);
      if n in r.numbers {
        DetachAgrees(r, n);
      }
    }
  }

  lemma {:induction false} SyncEachAgrees(s: State, account: seq<Number>)
    requires Agrees(s)
    ensures Agrees(SyncEach(s, account))
  {
    if account != [] {
      var front, n := account[..|account| - 1], account[|account| - 1];
      SyncEachAgrees(s, front);
      var r := SyncEach(s, front);
      if n !in r.numbers {
        ChainedAfter(r.log, Entry(n, None, None, SYNCED));
        var s' := SyncEach(s, account);
        forall m: Number | Owner(s'.log, m).Some? ensures m in s'.numbers && s'.numbers[m].tenant == Owner(s'.log, m).value {
          OwnerAfter(r.log, Entry(n, None, None, SYNCED), m);
        }
      }
    }
  }

  lemma ApplyAgrees(s: State, tenants: set<nat>, op: Op)
    requires Agrees(s)
    ensures Agrees(Apply(s, tenants, op))
  {
    match op
    case Assign(n, tenant, create, onAccount) => AssignAgrees(s, tenants, n, tenant, create, onAccount);
    case Unassign(n) =>
      if n in s.numbers {
        DetachAgrees(s, n);
      }
    case UnassignAll(tenant, order) => UnassignEachAgrees(s, tenant, order);
    case Sync(account) => SyncEachAgrees(s, account);
    case Purchase(n, tenant, onAccount, accepted) => AssignAgrees(s, tenants, n, tenant, false, onAccount);
    case _ =>
  }

  /**
   Over every run from empty tables: replaying the log gives the current organization of each
   number that has an entry, the entries of a number follow on from each other, and every cached
   organization is the one that owns the number.
   */
  lemma {:induction false} LedgerInvariant(tenants: set<nat>, ops: seq<Op>)
    ensures Agrees(Run(State(map[], [], map[]), tenants, ops))
  {
    if ops != [] {
      LedgerInvariant(tenants, ops[..|ops| - 1]);
      ApplyAgrees(Run(State(map[], [], map[]), tenants, ops[..|ops| - 1]), tenants, ops[|ops| - 1]);
    }
  }

  /** So a lookup answers as the table would, whether or not the cache has the number. */
  lemma LookupAnswers(tenants: set<nat>, ops: seq<Op>, n: Number)
    ensures var s := Run(State(map[], [], map[]), tenants, ops);
            LookUp(s, n).1 == if n in s.numbers then s.numbers[n].tenant else None
  {
    LedgerInvariant(tenants, ops);
  }

  // ---- the operations over many numbers, row by row ----

  /** The first n of these numbers have left the tenant, in this order, and nothing else has changed. */
  ghost predicate LeftTenant(s: State, s': State, tenant: nat, order: seq<Number>, n: nat)
    requires n <= |order|
  {
    && s'.numbers.Keys == s.numbers.Keys
    && (forall m: Number :: m in s.numbers ==> s'.numbers[m] == if m in order[..n] then Row(None, true) else s.numbers[m])
    && (forall m: Number :: m in s'.cache <==> m in s.cache && m !in order[..n])
    && (forall m: Number :: m in s'.cache ==> s'.cache[m] == s.cache[m])
    && |s'.log| == |s.log| + n && s'.log[..|s.log|] == s.log
    && forall i: nat :: i < n ==> s'.log[|s.log| + i] == Entry(order[i], None, Some(tenant), UNASSIGNED)
  }

  lemma {:induction false} UnassignEachEffect(s: State, tenant: nat, order: seq<Number>, n: nat)
    requires n <= |order|
    requires forall i: nat :: i < |order| ==> order[i] in s.numbers && s.numbers[order[i]].tenant == Some(tenant)
    requires forall i: nat, j: nat :: i < j < |order| ==> order[i] != order[j]
    ensures LeftTenant(s, UnassignEach(s, tenant, order[..n]), tenant, order, n)
  {
    if n > 0 {
      UnassignEachEffect(s, tenant, order, n - 1);
      assert order[..n][..n - 1] == order[..n - 1];
      OneMoreLeft(s, UnassignEach(s, tenant, order[..n - 1]), tenant, order, n - 1);
    }
  }

  lemma OneMoreLeft(s: State, r: State, tenant: nat, order: seq<Number>, n: nat)
    requires n < |order| && LeftTenant(s, r, tenant, order, n)
    requires order[n] in s.numbers && s.numbers[order[n]].tenant == Some(tenant) && order[n] !in order[..n]
    ensures r.numbers[order[n]].tenant == Some(tenant)
    ensures LeftTenant(s, Detached(Invalidated(r, order[n]), order[n]), tenant, order, n + 1)
  {
    assert order[..n + 1] == order[..n] + [order[n]];
  }

  /** The numbers that the table lacked have been added as nobody's, and nothing else has changed. */
  ghost predicate Imported(s: State, s': State, account: seq<Number>) {
    && (forall m: Number :: m in s'.numbers <==> m in s.numbers || m in account)
    && (forall m: Number :: m in s'.numbers ==> s'.numbers[m] == if m in s.numbers then s.numbers[m] else Row(None, true))
    && s'.cache == s.cache
  }

  /** One entry for each of them. */
  ghost predicate Noted(entries: seq<Entry>, s: State, account: seq<Number>) {
    && (forall i: nat :: i < |entries| ==>
          entries[i] == Entry(entries[i].number, None, None, SYNCED)
          && entries[i].number in account && entries[i].number !in s.numbers)
    && (forall i: nat, j: nat :: i < j < |entries| ==> entries[i].number != entries[j].number)
    && (forall m: Number :: m in account && m !in s.numbers ==> Entry(m, None, None, SYNCED) in entries)
  }

  lemma NotedNext(entries: seq<Entry>, s: State, front: seq<Number>, n: Number, next: seq<Entry>, account: seq<Number>)
    requires Noted(entries, s, front) && account == front + [n]
    requires next == entries + if n in s.numbers || n in front then [] else [Entry(n, None, None, SYNCED)]
    ensures Noted(next, s, account)
  {
    if n in s.numbers || n in front {
      assert next == entries;
      assert forall m: Number :: m in account && m !in s.numbers ==> m in front;
    } else {
      assert forall i: nat :: i < |entries| ==> entries[i].number in front;
    }
  }

  lemma {:induction false} SyncEachRows(s: State, account: seq<Number>)
    ensures Imported(s, SyncEach(s, account), account)
  {
    if account != [] {
      assert account == account[..|account| - 1] + [account[|account| - 1]];
      SyncEachRows(s, account[..|account| - 1]);
    }
  }

  lemma SyncEachHas(s: State, account: seq<Number>, n: Number)
    ensures n in SyncEach(s, account).numbers <==> n in s.numbers || n in account
  {
    SyncEachRows(s, account);
  }

  /** The entries of an import, in order. */
  function ImportEntries(s: State, account: seq<Number>): seq<Entry> {
    if account == [] then []
    else
      var front, n := account[..|account| - 1], account[|account| - 1];
      ImportEntries(s, front) + if n in s.numbers || n in front then [] else [Entry(n, None, None, SYNCED)]
  }

  lemma {:induction false} SyncEachLog(s: State, account: seq<Number>)
    ensures SyncEach(s, account).log == s.log + ImportEntries(s, account)
  {
    if account != [] {
      var front, n := account[..|account| - 1], account[|account| - 1];
      SyncEachLog(s, front);
      SyncEachHas(s, front, n);
    }
  }

  lemma {:induction false} EntriesNoted(s: State, account: seq<Number>)
    ensures Noted(ImportEntries(s, account), s, account)
  {
    if account != [] {
      var front, n := account[..|account| - 1], account[|account| - 1];
      EntriesNoted(s, front);
      assert account == front + [n];
      NotedNext(ImportEntries(s, front), s, front, n, ImportEntries(s, account), account);
    }
  }
}
