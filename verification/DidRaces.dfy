/**
 The operations of DidLedger.dfy statement by statement: lookups, assignments, purchases,
 unassignments, releases and refreshes that interleave between what they do to the rows and what
 they do to the tenant cache (lib/inboundCallControl.js, lib/adminDidManagement.js,
 lib/buyNumber.js, lib/adminNumbers.js, lib/tenantCache.js).
 */
module DidRaces {
  import opened Options
  import opened DidLedger

  /**
   What an operation under way does next. A lookup or purchase that has read or written the row
   caches the owner it knows; an assignment that has moved the number drops the entry first; an
   unassignment that has dropped the entry writes the row; a release that has written the row drops
   the entry; a refresh that has read the rows replaces the cache.
   */
  datatype Task =
    | WillCache(number: Number, owner: nat)
    | WillRecache(number: Number, owner: nat)
    | WillDetach(number: Number, previous: Option<nat>)
    | WillDrop(number: Number)
    | WillRefill(entries: map<Number, nat>)
    | Finished

  datatype Desk = Desk(state: State, tasks: map<nat, Task>)

  datatype Event =
    | ReadRow(id: nat, number: Number)
    | AssignRow(id: nat, number: Number, tenant: nat, create: bool, onAccount: bool)
    | CreateRow(id: nat, number: Number, tenant: nat)
    | DropEntry(id: nat, number: Number, previous: Option<nat>)
    | ReleaseRow(id: nat, number: Number)
    | ReadRows(id: nat)
    | Proceed(id: nat)

  function OwnerOf(s: State, n: Number): Option<nat> {
    if n in s.numbers then s.numbers[n].tenant else None
  }

  /** The last statement of a task, or the one before it. */
  function Step(s: State, t: Task): (State, Task) {
    match t
    case WillCache(n, owner) => (s.(cache := s.cache[n := owner]), Finished)
    case WillRecache(n, owner) => (Invalidated(s, n), WillCache(n, owner))
    case WillDetach(n, previous) => (DetachedAs(s, n, previous), Finished)
    case WillDrop(n) => (Invalidated(s, n), Finished)
    case WillRefill(entries) => (s.(cache := entries), Finished)
    case Finished => (s, Finished)
  }

  /** What the first statement of an operation does, if the operation goes on after it. */
  function Begin(s: State, tenants: set<nat>, e: Event): Option<(State, Task)> {
    match e
    case ReadRow(_, n) => if OwnerOf(s, n).Some? then Some((s, WillCache(n, OwnerOf(s, n).value))) else None
    case AssignRow(_, n, tenant, create, onAccount) =>
      var (s', reply) := AssignDid(s, tenants, n, tenant, create, onAccount);
      if reply != Done then None
      else
        var moves := OwnerOf(s, n).Some? && OwnerOf(s, n) != Some(tenant);
        Some((s'.(cache := s.cache), if moves then WillRecache(n, tenant) else WillCache(n, tenant)))
    case CreateRow(_, n, tenant) =>
      if n in s.numbers then None
      else Some((s.(numbers := s.numbers[n := Row(Some(tenant), true)]), WillCache(n, tenant)))
    case DropEntry(_, n, previous) => if n in s.numbers then Some((Invalidated(s, n), WillDetach(n, previous))) else None
    case ReleaseRow(_, n) =>
      if n in s.numbers then Some((s.(numbers := s.numbers[n := s.numbers[n].(active := false)]), WillDrop(n))) else None
    case ReadRows(_) => Some((s, WillRefill(Refilled(s).cache)))
    case Proceed(_) => None
  }

  function Happen(d: Desk, tenants: set<nat>, e: Event): Desk {
    if e.Proceed? then
      if e.id !in d.tasks then d
      else
        var (s, t) := Step(d.state, d.tasks[e.id]);
        Desk(s, d.tasks[e.id := t])
    else
      var begun := Begin(d.state, tenants, e);
      if e.id in d.tasks || begun.None? then d
      else Desk(begun.value.0, d.tasks[e.id := begun.value.1])
  }

  function Course(d: Desk, tenants: set<nat>, es: seq<Event>): Desk {
    if es == [] then d else Happen(Course(d, tenants, es[..|es| - 1]), tenants, es[|es| - 1])
  }

  // ---- uninterrupted statements are the operations ----

  lemma CourseTwo(d: Desk, tenants: set<nat>, a: Event, b: Event)
    ensures Course(d, tenants, [a, b]) == Happen(Happen(d, tenants, a), tenants, b)
  {
    assert [a, b][..1] == [a] && [a][..0] == [];
    assert Course(d, tenants, [a]) == Happen(d, tenants, a);
  }

  lemma CourseThree(d: Desk, tenants: set<nat>, a: Event, b: Event, c: Event)
    ensures Course(d, tenants, [a, b, c]) == Happen(Happen(Happen(d, tenants, a), tenants, b), tenants, c)
  {
    CourseTwo(d, tenants, a, b);
    assert [a, b, c][..2] == [a, b];
  }

  /** The statements of an operation on one number, or of a refresh. */
  function Statements(s: State, id: nat, op: Op): seq<Event>
    requires !op.UnassignAll? && !op.Sync?
  {
    match op
    case Assign(n, tenant, create, onAccount) => [AssignRow(id, n, tenant, create, onAccount), Proceed(id), Proceed(id)]
    case Unassign(n) => if OwnerOf(s, n).Some? then [DropEntry(id, n, OwnerOf(s, n)), Proceed(id)] else []
    case Purchase(n, tenant, onAccount, accepted) =>
      if n !in s.numbers then if accepted then [CreateRow(id, n, tenant), Proceed(id)] else []
      else if OwnerOf(s, n).None? then [AssignRow(id, n, tenant, false, onAccount), Proceed(id), Proceed(id)]
      else if OwnerOf(s, n) == Some(tenant) then [ReadRow(id, n), Proceed(id)] else []
    case Release(n) => [ReleaseRow(id, n), Proceed(id)]
    case Refresh => [ReadRows(id), Proceed(id)]
    case Lookup(n) => if n in s.cache then [] else [ReadRow(id, n), Proceed(id)]
  }

  lemma AssignIsAtomic(d: Desk, tenants: set<nat>, id: nat, n: Number, tenant: nat, create: bool, onAccount: bool)
    requires id !in d.tasks
    ensures Course(d, tenants, [AssignRow(id, n, tenant, create, onAccount), Proceed(id), Proceed(id)]).state
            == AssignDid(d.state, tenants, n, tenant, create, onAccount).0
  {
    CourseThree(d, tenants, AssignRow(id, n, tenant, create, onAccount), Proceed(id), Proceed(id));
    assert (d.state.cache - {n})[n := tenant] == d.state.cache[n := tenant];
  }

  lemma ReadIsAtomic(d: Desk, tenants: set<nat>, id: nat, n: Number)
    requires id !in d.tasks
    ensures Course(d, tenants, [ReadRow(id, n), Proceed(id)]).state
            == if OwnerOf(d.state, n).Some? then d.state.(cache := d.state.cache[n := OwnerOf(d.state, n).value]) else d.state
  {
    CourseTwo(d, tenants, ReadRow(id, n), Proceed(id));
  }

  lemma PurchaseIsAtomic(d: Desk, tenants: set<nat>, id: nat, n: Number, tenant: nat, onAccount: bool, accepted: bool)
    requires id !in d.tasks
    ensures Course(d, tenants, Statements(d.state, id, Purchase(n, tenant, onAccount, accepted))).state
            == PurchaseNumber(d.state, tenants, n, tenant, onAccount, accepted).0
  {
    AssignIsAtomic(d, tenants, id, n, tenant, false, onAccount);
    ReadIsAtomic(d, tenants, id, n);
    CourseTwo(d, tenants, CreateRow(id, n, tenant), Proceed(id));
  }

  lemma UnassignIsAtomic(d: Desk, tenants: set<nat>, id: nat, n: Number)
    requires id !in d.tasks && OwnerOf(d.state, n).Some?
    ensures Course(d, tenants, [DropEntry(id, n, OwnerOf(d.state, n)), Proceed(id)]).state == UnassignDid(d.state, n).0
  {
    CourseTwo(d, tenants, DropEntry(id, n, OwnerOf(d.state, n)), Proceed(id));
  }

  lemma ReleaseIsAtomic(d: Desk, tenants: set<nat>, id: nat, n: Number)
    requires id !in d.tasks
    ensures Course(d, tenants, [ReleaseRow(id, n), Proceed(id)]).state == ReleaseNumber(d.state, n)
  {
    CourseTwo(d, tenants, ReleaseRow(id, n), Proceed(id));
  }

  lemma RefreshIsAtomic(d: Desk, tenants: set<nat>, id: nat)
    requires id !in d.tasks
    ensures Course(d, tenants, [ReadRows(id), Proceed(id)]).state == Refilled(d.state)
  {
    CourseTwo(d, tenants, ReadRows(id), Proceed(id));
  }

  /** With nothing in between, an operation's statements are the operation. */
  lemma UninterruptedIsApply(d: Desk, tenants: set<nat>, id: nat, op: Op)
    requires id !in d.tasks && !op.UnassignAll? && !op.Sync?
    ensures Course(d, tenants, Statements(d.state, id, op)).state == Apply(d.state, tenants, op)
  {
    match op
    case Assign(n, tenant, create, onAccount) => AssignIsAtomic(d, tenants, id, n, tenant, create, onAccount);
    case Unassign(n) =>
      if OwnerOf(d.state, n).Some? {
        UnassignIsAtomic(d, tenants, id, n);
      }
    case Purchase(n, tenant, onAccount, accepted) => PurchaseIsAtomic(d, tenants, id, n, tenant, onAccount, accepted);
    case Release(n) => ReleaseIsAtomic(d, tenants, id, n);
    case Refresh => RefreshIsAtomic(d, tenants, id);
    case Lookup(n) => ReadIsAtomic(d, tenants, id, n);
  }

  // ---- what is in the cache ----

  /** The statements that write the number's entry. */
  predicate Writes(d: Desk, e: Event, n: Number) {
    e.Proceed? && e.id in d.tasks &&
    match d.tasks[e.id]
    case WillCache(m, _) => m == n
    case WillRefill(entries) => n in entries
    case _ => false
  }

  /** The statements that drop it. */
  predicate Drops(d: Desk, e: Event, n: Number) {
    if e.Proceed? then
      e.id in d.tasks &&
      match d.tasks[e.id]
      case WillRecache(m, _) => m == n
      case WillDrop(m) => m == n
      case WillRefill(entries) => n !in entries
      case _ => false
    else
      e.DropEntry? && e.number == n && e.id !in d.tasks && n in d.state.numbers
  }

  lemma StepCaches(d: Desk, tenants: set<nat>, e: Event, n: Number)
    ensures n in Happen(d, tenants, e).state.cache <==> Writes(d, e, n) || (n in d.state.cache && !Drops(d, e, n))
  {
  }

  /** A statement of the run wrote the entry, and none after it dropped it. */
  predicate WrittenAt(d: Desk, tenants: set<nat>, es: seq<Event>, i: nat, n: Number)
    requires i < |es|
  {
    && Writes(Course(d, tenants, es[..i]), es[i], n)
    && forall j :: i < j < |es| ==> !Drops(Course(d, tenants, es[..j]), es[j], n)
  }

  predicate WrittenLast(d: Desk, tenants: set<nat>, es: seq<Event>, n: Number) {
    exists i :: 0 <= i < |es| && WrittenAt(d, tenants, es, i, n)
  }

  lemma WrittenLonger(d: Desk, tenants: set<nat>, es: seq<Event>, e: Event, i: nat, n: Number)
    requires i < |es|
    ensures WrittenAt(d, tenants, es + [e], i, n) <==>
              WrittenAt(d, tenants, es, i, n) && !Drops(Course(d, tenants, es), e, n)
  {
    var all := es + [e];
    assert all[..|es|] == es && all[|es|] == e;
    forall j | 0 <= j < |es| ensures all[..j] == es[..j] && all[j] == es[j] {}
    if WrittenAt(d, tenants, all, i, n) {
      forall j | i < j < |es| ensures !Drops(Course(d, tenants, es[..j]), es[j], n) {
        assert !Drops(Course(d, tenants, all[..j]), all[j], n);
      }
      assert !Drops(Course(d, tenants, all[..|es|]), all[|es|], n);
    }
  }

  lemma WrittenLastStep(d: Desk, tenants: set<nat>, es: seq<Event>, e: Event, n: Number)
    ensures WrittenLast(d, tenants, es + [e], n) <==>
              Writes(Course(d, tenants, es), e, n)
              || (WrittenLast(d, tenants, es, n) && !Drops(Course(d, tenants, es), e, n))
  {
    var all := es + [e];
    assert all[..|es|] == es;
    assert WrittenAt(d, tenants, all, |es|, n) <==> Writes(Course(d, tenants, es), e, n);
    forall i | 0 <= i < |es|
      ensures WrittenAt(d, tenants, all, i, n) <==> WrittenAt(d, tenants, es, i, n) && !Drops(Course(d, tenants, es), e, n)
    {
      WrittenLonger(d, tenants, es, e, i, n);
    }
  }

  /** The cache has an entry that it lacked exactly when a statement wrote it and none after it dropped it. */
  lemma {:induction false} CachedExactly(d: Desk, tenants: set<nat>, es: seq<Event>, n: Number)
    requires n !in d.state.cache
    ensures n in Course(d, tenants, es).state.cache <==> WrittenLast(d, tenants, es, n)
  {
    if es != [] {
      var front, e := es[..|es| - 1], es[|es| - 1];
      assert es == front + [e];
      CachedExactly(d, tenants, front, n);
      StepCaches(Course(d, tenants, front), tenants, e, n);
      WrittenLastStep(d, tenants, front, e, n);
    }
  }

  // ---- what it says ----

  predicate OwnedThen(d: Desk, tenants: set<nat>, es: seq<Event>, n: Number, owner: nat) {
    OwnerOf(Course(d, tenants, es).state, n) == Some(owner)
  }

  /** The number belonged to the tenant at some moment of the run. */
  predicate OwnedOnce(d: Desk, tenants: set<nat>, es: seq<Event>, n: Number, owner: nat) {
    exists k :: 0 <= k <= |es| && OwnedThen(d, tenants, es[..k], n, owner)
  }

  lemma OwnedStill(d: Desk, tenants: set<nat>, es: seq<Event>, n: Number, owner: nat)
    requires es != [] && OwnedOnce(d, tenants, es[..|es| - 1], n, owner)
    ensures OwnedOnce(d, tenants, es, n, owner)
  {
    var front := es[..|es| - 1];
    var k :| 0 <= k <= |front| && OwnedThen(d, tenants, front[..k], n, owner);
    assert es[..k] == front[..k];
  }

  lemma OwnedNow(d: Desk, tenants: set<nat>, es: seq<Event>, n: Number, owner: nat)
    requires OwnedThen(d, tenants, es, n, owner)
    ensures OwnedOnce(d, tenants, es, n, owner)
  {
    assert es[..|es|] == es;
  }

  /** The owner that a task is about to cache for the number. */
  function Carries(t: Task, n: Number): Option<nat> {
    match t
    case WillCache(m, owner) => if m == n then Some(owner) else None
    case WillRecache(m, owner) => if m == n then Some(owner) else None
    case WillRefill(entries) => if n in entries then Some(entries[n]) else None
    case _ => None
  }

  /** What is cached, or about to be, belonged to that tenant before. */
  ghost predicate Remembered(d: Desk, tenants: set<nat>, es: seq<Event>, n: Number) {
    var end := Course(d, tenants, es);
    && (n in end.state.cache ==> OwnedOnce(d, tenants, es, n, end.state.cache[n]))
    && forall id :: id in end.tasks && Carries(end.tasks[id], n).Some? ==>
         OwnedOnce(d, tenants, es, n, Carries(end.tasks[id], n).value)
  }

  /** What an event can newly cache, or newly be about to. */
  lemma HappenCarries(d: Desk, tenants: set<nat>, e: Event, n: Number)
    ensures var d' := Happen(d, tenants, e);
            && (n in d'.state.cache ==>
                  || (n in d.state.cache && d'.state.cache[n] == d.state.cache[n])
                  || exists id :: id in d.tasks && Carries(d.tasks[id], n) == Some(d'.state.cache[n]))
            && (forall id :: id in d'.tasks && Carries(d'.tasks[id], n).Some? ==>
                  || (id in d.tasks && Carries(d'.tasks[id], n) == Carries(d.tasks[id], n))
                  || Carries(d'.tasks[id], n) == OwnerOf(d'.state, n))
  {
  }

  /**
   Over every interleaving: a cached owner is one that the number had at some moment. The cache may
   be late, but it never names a tenant that the number did not belong to.
   */
  lemma {:induction false} CachedWasOwner(d: Desk, tenants: set<nat>, es: seq<Event>, n: Number)
    requires CacheAgrees(d.state) && d.tasks == map[]
    ensures Remembered(d, tenants, es, n)
  {
    if es == [] {
      if n in d.state.cache {
        OwnedNow(d, tenants, es, n, d.state.cache[n]);
      }
    } else {
      var front, e := es[..|es| - 1], es[|es| - 1];
      CachedWasOwner(d, tenants, front, n);
      var before, after := Course(d, tenants, front), Course(d, tenants, es);
      HappenCarries(before, tenants, e, n);
      if n in after.state.cache {
        OwnedStill(d, tenants, es, n, after.state.cache[n]);
      }
      forall id | id in after.tasks && Carries(after.tasks[id], n).Some?
        ensures OwnedOnce(d, tenants, es, n, Carries(after.tasks[id], n).value)
      {
        var owner := Carries(after.tasks[id], n).value;
        if OwnerOf(after.state, n) == Some(owner) {
          OwnedNow(d, tenants, es, n, owner);
        } else {
          OwnedStill(d, tenants, es, n, owner);
        }
      }
    }
  }

  // ---- unassignments ----

  predicate AgreesOn(s: State, n: Number) {
    n in s.cache ==> OwnerOf(s, n) == Some(s.cache[n])
  }

  /** The event gives the number an owner. */
  predicate Gives(d: Desk, tenants: set<nat>, e: Event, n: Number) {
    (e.AssignRow? || e.CreateRow?) && e.number == n && OwnerOf(Happen(d, tenants, e).state, n).Some?
  }

  predicate NeverGiven(d: Desk, tenants: set<nat>, es: seq<Event>, n: Number) {
    forall k :: 0 <= k < |es| ==> !Gives(Course(d, tenants, es[..k]), tenants, es[k], n)
  }

  lemma StepNobodys(d: Desk, tenants: set<nat>, e: Event, n: Number)
    requires OwnerOf(d.state, n).None? && !Gives(d, tenants, e, n)
    ensures OwnerOf(Happen(d, tenants, e).state, n).None?
  {
  }

  lemma NeverGivenFront(d: Desk, tenants: set<nat>, es: seq<Event>, n: Number)
    requires es != [] && NeverGiven(d, tenants, es, n)
    ensures NeverGiven(d, tenants, es[..|es| - 1], n)
    ensures !Gives(Course(d, tenants, es[..|es| - 1]), tenants, es[|es| - 1], n)
  {
    var front := es[..|es| - 1];
    forall k | 0 <= k < |front| ensures !Gives(Course(d, tenants, front[..k]), tenants, front[k], n) {
      assert front[..k] == es[..k] && front[k] == es[k];
    }
  }

  lemma {:induction false} StaysNobodys(d: Desk, tenants: set<nat>, es: seq<Event>, n: Number)
    requires OwnerOf(d.state, n).None? && NeverGiven(d, tenants, es, n)
    ensures OwnerOf(Course(d, tenants, es).state, n).None?
  {
    if es != [] {
      NeverGivenFront(d, tenants, es, n);
      StaysNobodys(d, tenants, es[..|es| - 1], n);
      StepNobodys(Course(d, tenants, es[..|es| - 1]), tenants, es[|es| - 1], n);
    }
  }

  lemma {:induction false} CourseOn(d: Desk, tenants: set<nat>, es: seq<Event>, more: seq<Event>)
    ensures Course(d, tenants, es + more) == Course(Course(d, tenants, es), tenants, more)
  {
    if more == [] {
      assert es + more == es;
    } else {
      CourseOn(d, tenants, es, more[..|more| - 1]);
      assert (es + more)[..|es + more| - 1] == es + more[..|more| - 1];
    }
  }

  predicate NeverProceeds(es: seq<Event>, id: nat) {
    forall k :: 0 <= k < |es| ==> es[k] != Proceed(id)
  }

  lemma {:induction false} TaskWaits(d: Desk, tenants: set<nat>, es: seq<Event>, id: nat)
    requires id in d.tasks && NeverProceeds(es, id)
    ensures id in Course(d, tenants, es).tasks && Course(d, tenants, es).tasks[id] == d.tasks[id]
  {
    if es != [] {
      TaskWaits(d, tenants, es[..|es| - 1], id);
      assert es[|es| - 1] != Proceed(id);
    }
  }

  /**
   An unassignment drops the entry and writes the row in two statements; lookups, assignments,
   refreshes and so on may stand anywhere before it, and any of their statements come in between
   and afterwards. As long as nobody is given the number again, the cache agrees with the row about
   it exactly when it has no entry, that is, when every statement since that wrote the entry was
   followed by one that dropped it.
   */
  lemma UnassignRacesExactly(d: Desk, tenants: set<nat>, id: nat, n: Number, previous: Option<nat>,
                             between: seq<Event>, after: seq<Event>)
    requires id !in d.tasks && n in d.state.numbers && NeverProceeds(between, id)
    requires var d1 := Happen(d, tenants, DropEntry(id, n, previous));
             NeverGiven(Course(d1, tenants, between + [Proceed(id)]), tenants, after, n)
    ensures var d1 := Happen(d, tenants, DropEntry(id, n, previous));
            var rest := between + [Proceed(id)] + after;
            var end := Course(d1, tenants, rest);
            && (AgreesOn(end.state, n) <==> n !in end.state.cache)
            && (n in end.state.cache <==> WrittenLast(d1, tenants, rest, n))
  {
    var d1 := Happen(d, tenants, DropEntry(id, n, previous));
    var written := between + [Proceed(id)];
    CachedExactly(d1, tenants, written + after, n);
    TaskWaits(d1, tenants, between, id);
    assert written[..|written| - 1] == between;
    assert OwnerOf(Course(d1, tenants, written).state, n).None?;
    StaysNobodys(Course(d1, tenants, written), tenants, after, n);
    CourseOn(d1, tenants, written, after);
  }

  /** Whoever has read the row before it is written, and caches what it read, leaves a stale entry. */
  lemma LateWriteIsStale(d: Desk, tenants: set<nat>, id: nat, n: Number, owner: nat)
    requires id in d.tasks && d.tasks[id] == WillCache(n, owner) && OwnerOf(d.state, n) != Some(owner)
    ensures !AgreesOn(Happen(d, tenants, Proceed(id)).state, n)
  {
  }

  /** A lookup, or an assignment to the tenant it belongs to, that reads the row before an unassignment and ends after it. */
  lemma StraddlingRaces(d: Desk, tenants: set<nat>, n: Number, tenant: nat, a: nat, b: nat, e: Event)
    requires n in d.state.numbers && d.state.numbers[n] == Row(Some(tenant), true) && tenant in tenants
    requires a !in d.tasks && b !in d.tasks && a != b
    requires e in [ReadRow(a, n), AssignRow(a, n, tenant, false, true)]
    ensures !AgreesOn(Course(Happen(d, tenants, e), tenants, [DropEntry(b, n, Some(tenant)), Proceed(b), Proceed(a)]).state, n)
  {
    var d1 := Happen(d, tenants, e);
    assert d1.tasks == d.tasks[a := WillCache(n, tenant)] && n in d1.state.numbers;
    CourseThree(d1, tenants, DropEntry(b, n, Some(tenant)), Proceed(b), Proceed(a));
    CourseTwo(d1, tenants, DropEntry(b, n, Some(tenant)), Proceed(b));
    LateWriteIsStale(Course(d1, tenants, [DropEntry(b, n, Some(tenant)), Proceed(b)]), tenants, a, n, tenant);
  }

  /** And each of four operations that runs as a whole between the two statements. */
  lemma RefillsAreRaces(d: Desk, tenants: set<nat>, n: Number, tenant: nat, a: nat, b: nat, op: Op)
    requires n in d.state.numbers && d.state.numbers[n] == Row(Some(tenant), true) && tenant in tenants
    requires a !in d.tasks && b !in d.tasks && a != b
    requires op in [Lookup(n), Refresh, Assign(n, tenant, false, true), Purchase(n, tenant, true, true)]
    ensures var d1 := Happen(d, tenants, DropEntry(b, n, Some(tenant)));
            !AgreesOn(Course(d1, tenants, Statements(d1.state, a, op) + [Proceed(b)]).state, n)
  {
    var d1 := Happen(d, tenants, DropEntry(b, n, Some(tenant)));
    var es := Statements(d1.state, a, op);
    UninterruptedIsApply(d1, tenants, a, op);
    assert n in Apply(d1.state, tenants, op).cache;
    TaskWaits(d1, tenants, es, b);
    assert (es + [Proceed(b)])[..|es|] == es;
  }
}
