/**
 The number operations as the source runs them, on the tables, the log and the cache in place.
 */
module DidDesk {
  import opened DidLedger
  import opened Options

  class Desk {
    const tenants: set<nat>
    var numbers: map<Number, Row>
    var log: seq<Entry>
    var cache: map<Number, nat>

    constructor (tenants: set<nat>)
      ensures View() == State(map[], [], map[]) && this.tenants == tenants
    {
      this.tenants := tenants;
      numbers, log, cache := map[], [], map[];
    }

    function View(): State
      reads this
    {
      State(numbers, log, cache)
    }

    /** `recordDidAssignmentHistory` only ever appends. */
    method RecordHistory(n: Number, tenant: Option<nat>, previous: Option<nat>, action: Action)
      modifies this`log
      ensures log == old(log) + [Entry(n, tenant, previous, action)]
    {
      log := log + [Entry(n, tenant, previous, action)];
    }

    method SetCachedTenant(n: Number, tenant: nat)
      modifies this`cache
      ensures cache == old(cache)[n := tenant]
    {
      cache := cache[n := tenant];
    }

    method InvalidateCachedTenant(n: Number)
      modifies this`cache
      ensures cache == old(cache) - {n}
    {
      cache := cache - {n};
    }

    method AssignDidToTenant(n: Number, tenant: nat, create: bool, onAccount: bool) returns (reply: Reply)
      modifies this
      ensures (View(), reply) == AssignDid(old(View()), tenants, n, tenant, create, onAccount)
      ensures reply == if tenant !in tenants then Refused(TenantNotFound)
                       else if n !in old(numbers) && !create then Refused(NumberNotFound)
                       else if !onAccount then Refused(NotOnAccount) else Done
      ensures reply != Done ==> View() == old(View())
      ensures reply == Done ==>
                var previous := if n in old(numbers) then old(numbers)[n].tenant else None;
                && numbers == old(numbers)[n := Row(Some(tenant), true)] && cache == old(cache)[n := tenant]
                && log == old(log) + if previous in {None, Some(tenant)} then [Entry(n, Some(tenant), previous, ASSIGNED)]
                                     else [Entry(n, None, previous, UNASSIGNED), Entry(n, Some(tenant), previous, REASSIGNED)]
    {
      if tenant !in tenants {
        return Refused(TenantNotFound);
      }
      if n !in numbers && !create {
        return Refused(NumberNotFound);
      }
      if !onAccount {
        return Refused(NotOnAccount);
      }
      if n !in numbers {
        numbers := numbers[n := Row(None, true)];
      }
      var previous := numbers[n].tenant;
      var moves := previous.Some? && previous != Some(tenant);
      if moves {
        RecordHistory(n, None, previous, UNASSIGNED);
      }
      numbers := numbers[n := Row(Some(tenant), true)];
      RecordHistory(n, Some(tenant), previous, if moves then REASSIGNED else ASSIGNED);
      if moves {
        InvalidateCachedTenant(n);
      }
      SetCachedTenant(n, tenant);
      assert cache == old(cache)[n := tenant];
      assert numbers == old(numbers)[n := Row(Some(tenant), true)];
      assert log == old(log) + (if moves then [Entry(n, None, previous, UNASSIGNED)] else [])
                    + [Entry(n, Some(tenant), previous, if moves then REASSIGNED else ASSIGNED)];
      reply := Done;
    }

    method Detach(n: Number)
      requires n in numbers
      modifies this
      ensures View() == Detached(Invalidated(old(View()), n), n)
    {
      InvalidateCachedTenant(n);
      var previous := numbers[n].tenant;
      numbers := numbers[n := Row(None, true)];
      RecordHistory(n, None, previous, UNASSIGNED);
    }

    method UnassignDidFromTenant(n: Number) returns (reply: Reply)
      modifies this
      ensures (View(), reply) == UnassignDid(old(View()), n)
      ensures reply == Done <==> n in old(numbers)
      ensures reply != Done ==> reply == Refused(NumberNotFound)
      ensures View() == if n in old(numbers) && old(numbers)[n].tenant.Some?
                        then State(old(numbers)[n := Row(None, true)],
                                   old(log) + [Entry(n, None, old(numbers)[n].tenant, UNASSIGNED)],
                                   old(cache) - {n})
                        else old(View())
    {
      if n !in numbers {
        return Refused(NumberNotFound);
      }
      if numbers[n].tenant.Some? {
        Detach(n);
      }
      reply := Done;
    }

    /** The numbers of a tenant, each once, in the order the table gives them. */
    method FindNumbers(tenant: nat) returns (found: seq<Number>)
      ensures forall n :: n in found <==> n in numbers && numbers[n].tenant == Some(tenant)
      ensures forall i, j :: 0 <= i < j < |found| ==> found[i] != found[j]
    {
      found := [];
      var rest := numbers.Keys;
      while rest != {}
        invariant rest <= numbers.Keys
        invariant forall n :: n in found <==> n in numbers && n !in rest && numbers[n].tenant == Some(tenant)
        invariant forall i, j :: 0 <= i < j < |found| ==> found[i] != found[j]
        decreases |rest|
      {
        var n :| n in rest;
        if numbers[n].tenant == Some(tenant) {
          found := found + [n];
        }
        rest := rest - {n};
      }
    }

    method UnassignAllDidsForTenant(tenant: nat) returns (found: seq<Number>)
      modifies this
      ensures View() == UnassignEach(old(View()), tenant, found)
      ensures forall n :: n in found <==> n in old(numbers) && old(numbers)[n].tenant == Some(tenant)
      ensures forall n :: n in numbers ==> numbers[n].tenant != Some(tenant)
      ensures |log| == |old(log)| + |found|
      ensures LeftTenant(old(View()), View(), tenant, found, |found|)
    {
      ghost var before := View();
      found := FindNumbers(tenant);
      var i := 0;
      while i < |found|
        invariant 0 <= i <= |found|
        invariant View() == UnassignEach(before, tenant, found[..i])
      {
        assert found[..i + 1][..i] == found[..i] && found[i] !in found[..i] && found[i] in found;
        UnassignEachEffect(before, tenant, found, i);
        Detach(found[i]);
        i := i + 1;
      }
      UnassignEachEffect(before, tenant, found, i);
      assert found[..i] == found;
    }

    /**
     `syncTelnyxDidsToInventory`: import what is missing, then count the table; every row falls
     under exactly one of the three counts.
     */
    method SyncTelnyxDids(account: seq<Number>)
      returns (created: nat, owned: nat, spare: nat, released: nat)
      modifies this
      ensures Imported(old(View()), View(), account)
      ensures old(log) <= log && Noted(log[|old(log)|..], old(View()), account)
      ensures |numbers| == |old(numbers)| + created && |log| == |old(log)| + created
      ensures owned + spare + released == |numbers|
    {
      ghost var before := View();
      created := ImportMissing(account);
      SyncEachRows(before, account);
      SyncEachLog(before, account);
      EntriesNoted(before, account);
      assert log[|before.log|..] == ImportEntries(before, account);
      owned, spare, released := CountRows();
    }

    method ImportMissing(account: seq<Number>) returns (created: nat)
      modifies this
      ensures View() == SyncEach(old(View()), account)
      ensures |numbers| == |old(numbers)| + created && |log| == |old(log)| + created
    {
      created := 0;
      var i := 0;
      while i < |account|
        invariant 0 <= i <= |account|
        invariant View() == SyncEach(old(View()), account[..i])
        invariant |numbers| == |old(numbers)| + created && |log| == |old(log)| + created
      {
        assert account[..i + 1][..i] == account[..i];
        if account[i] !in numbers {
          numbers := numbers[account[i] := Row(None, true)];
          RecordHistory(account[i], None, None, SYNCED);
          created := created + 1;
        }
        i := i + 1;
      }
      assert account[..i] == account;
    }

    method CountRows() returns (owned: nat, spare: nat, released: nat)
      ensures owned == |set n | n in numbers && numbers[n].active && numbers[n].tenant.Some?|
      ensures released == |set n | n in numbers && !numbers[n].active|
      ensures owned + spare + released == |numbers|
    {
      owned, spare, released := 0, 0, 0;
      var rest := numbers.Keys;
      ghost var taken, gone: set<Number> := {}, {};
      while rest != {}
        invariant rest <= numbers.Keys
        invariant taken == set n | n in numbers && n !in rest && numbers[n].active && numbers[n].tenant.Some?
        invariant gone == set n | n in numbers && n !in rest && !numbers[n].active
        invariant owned == |taken| && released == |gone|
        invariant owned + spare + released + |rest| == |numbers.Keys|
        decreases |rest|
      {
        var n :| n in rest;
        if !numbers[n].active {
          released := released + 1;
          gone := gone + {n};
        } else if numbers[n].tenant.Some? {
          owned := owned + 1;
          taken := taken + {n};
        } else {
          spare := spare + 1;
        }
        rest := rest - {n};
      }
      assert taken == set n | n in numbers && numbers[n].active && numbers[n].tenant.Some?;
      assert gone == set n | n in numbers && !numbers[n].active;
    }

    /** `buyAndAssignNumber`; `accepted` is the carrier taking the order. */
    method BuyAndAssignNumber(n: Number, tenant: nat, onAccount: bool, accepted: bool) returns (reply: Reply)
      modifies this
      ensures (View(), reply) == PurchaseNumber(old(View()), tenants, n, tenant, onAccount, accepted)
      ensures var owner := if n in old(numbers) then old(numbers)[n].tenant else None;
              && (reply == Refused(OtherOrganization) <==> owner.Some? && owner != Some(tenant))
              && (reply == Refused(OrderRejected) <==> n !in old(numbers) && !accepted)
              && (reply == Done <==> n !in old(numbers) && accepted)
              && (reply == AlreadyOwned <==>
                    n in old(numbers) && (owner == Some(tenant) || (owner.None? && tenant in tenants && onAccount)))
              && (reply.Refused? ==> View() == old(View()))
              && (!reply.Refused? ==>
                    && cache == old(cache)[n := tenant]
                    && numbers == (if owner == Some(tenant) then old(numbers) else old(numbers)[n := Row(Some(tenant), true)])
                    && log == old(log) + if reply == AlreadyOwned && owner.None? then [Entry(n, Some(tenant), None, ASSIGNED)] else [])
    {
      if n in numbers {
        if numbers[n].tenant.Some? && numbers[n].tenant != Some(tenant) {
          return Refused(OtherOrganization);
        }
        if numbers[n].tenant.None? {
          reply := AssignDidToTenant(n, tenant, false, onAccount);
          return if reply == Done then AlreadyOwned else reply;
        }
        SetCachedTenant(n, tenant);
        return AlreadyOwned;
      }
      if !accepted {
        return Refused(OrderRejected);
      }
      numbers := numbers[n := Row(Some(tenant), true)];
      SetCachedTenant(n, tenant);
      reply := Done;
    }

    method ReleasePhoneNumber(n: Number) returns (found: bool)
      modifies this
      ensures View() == DidLedger.ReleaseNumber(old(View()), n) && (found <==> n in old(numbers))
      ensures View() == if found then State(old(numbers)[n := old(numbers)[n].(active := false)], old(log), old(cache) - {n})
                        else old(View())
    {
      found := n in numbers;
      if found {
        numbers := numbers[n := numbers[n].(active := false)];
        InvalidateCachedTenant(n);
      }
    }

    /** `refreshTenantCache`: cleared, and refilled row by row. */
    method RefreshTenantCache() returns (size: nat)
      modifies this`cache
      ensures View() == Refilled(old(View())) && size == |cache|
      ensures forall n :: n in cache <==> n in numbers && numbers[n].active && numbers[n].tenant.Some?
      ensures forall n :: n in cache ==> numbers[n].tenant == Some(cache[n])
    {
      cache := map[];
      var rest := numbers.Keys;
      while rest != {}
        invariant rest <= numbers.Keys
        invariant cache == map n | n in numbers && n !in rest && numbers[n].active && numbers[n].tenant.Some? :: numbers[n].tenant.value
        decreases |rest|
      {
        var n :| n in rest;
        if numbers[n].active && numbers[n].tenant.Some? {
          cache := cache[n := numbers[n].tenant.value];
        }
        rest := rest - {n};
      }
      size := |cache|;
    }

    /** The tenant of a dialled number: from the cache, or from the table, which then fills the cache. */
    method ResolveTenant(n: Number) returns (tenant: Option<nat>)
      modifies this`cache
      ensures (View(), tenant) == LookUp(old(View()), n)
      ensures tenant == if n in old(cache) then Some(old(cache)[n]) else if n in numbers then numbers[n].tenant else None
      ensures cache == if tenant.Some? then old(cache)[n := tenant.value] else old(cache)
    {
      if n in cache {
        return Some(cache[n]);
      }
      tenant := if n in numbers then numbers[n].tenant else None;
      if tenant.Some? {
        SetCachedTenant(n, tenant.value);
      }
    }
  }
}
