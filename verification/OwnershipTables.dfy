/**
 The ownership operations as the source runs them: row by row over the phone number and extension
 tables, whose unique columns no statement violates.
 */
module OwnershipTables {
  import opened Options
  import opened Ownership
  import opened OwnershipResults

  class Tables {
    const tenants: set<nat>
    const users: map<nat, nat>
    var phones: seq<Phone>
    var exts: seq<Extension>

    constructor (tenants: set<nat>, users: map<nat, nat>)
      ensures View() == NewPbx(tenants, users)
    {
      this.tenants, this.users := tenants, users;
      phones, exts := [], [];
    }

    function View(): Pbx
      reads this
    {
      Pbx(tenants, users, phones, exts)
    }

    /** `phoneNumber.update`; `extensionId` is a unique column. */
    method UpdatePhone(p: nat, row: Phone)
      requires p < |phones|
      requires row.ext.Some? ==> forall q: nat :: q < |phones| && q != p ==> phones[q].ext != row.ext
      modifies this`phones
      ensures View() == WithPhone(old(View()), p, row)
    {
      phones := phones[p := row];
    }

    /** `extension.update`; `primaryPhoneNumberId` is a unique column. */
    method UpdateExt(e: nat, row: Extension)
      requires e < |exts|
      requires row.primary.Some? ==> forall f: nat :: f < |exts| && f != e ==> exts[f].primary != row.primary
      modifies this`exts
      ensures View() == WithExt(old(View()), e, row)
    {
      exts := exts[e := row];
    }

    /** `loadExtensionPhoneNumber`: the number that points at the extension. */
    method LoadPhone(e: nat) returns (p: Option<nat>)
      requires e < |exts| && Linked(View())
      ensures p == exts[e].primary
      ensures p.Some? ==> p.value < |phones| && phones[p.value].ext == Some(e)
    {
      assert ExtLinked(View(), e);
      var i: nat := 0;
      while i < |phones|
        invariant i <= |phones|
        invariant forall q: nat :: q < i ==> phones[q].ext != Some(e)
      {
        if phones[i].ext == Some(e) {
          assert PhoneLinked(View(), i);
          return Some(i);
        }
        i := i + 1;
      }
      p := None;
    }

    method FindSpare(tenant: nat, u: nat) returns (p: Option<nat>)
      ensures p == FirstSpare(phones, tenant, u)
    {
      var i: nat := 0;
      while i < |phones|
        invariant i <= |phones|
        invariant forall q: nat :: q < i ==> !Spare(phones[q], tenant, u)
      {
        if phones[i].tenant == Some(tenant) && phones[i].user == Some(u) && phones[i].ext == None {
          return Some(i);
        }
        i := i + 1;
      }
      p := None;
    }

    method SetExtensionPrimaryDid(tenant: nat, e: nat, number: Option<nat>, allowMove: bool) returns (reply: Reply)
      requires Linked(View())
      modifies this`phones, this`exts
      ensures (View(), reply) == SetPrimaryDid(old(View()), tenant, e, number, allowMove)
      ensures Linked(View())
    {
      SetPrimaryLinked(View(), tenant, e, number, allowMove);
      if e >= |exts| || exts[e].tenant != tenant {
        return Refused(ExtensionNotFound);
      }
      var current := LoadPhone(e);
      if number.None? {
        if current.Some? {
          UpdatePhone(current.value, phones[current.value].(ext := None));
          UpdateExt(e, exts[e].(primary := None));
        }
        return Done;
      }
      var p := number.value;
      if current == number {
        return Done;
      }
      if p >= |phones| || phones[p].tenant != Some(tenant) {
        return Refused(PhoneNotFound);
      }
      reply := TakeNumber(e, p, current, allowMove);
    }

    /** The part of `setExtensionPrimaryDid` after its rows are found. */
    method TakeNumber(e: nat, p: nat, current: Option<nat>, allowMove: bool) returns (reply: Reply)
      requires Linked(View()) && e < |exts| && HasPhone(View(), exts[e].tenant, p)
      requires current == exts[e].primary && current != Some(p)
      modifies this`phones, this`exts
      ensures (View(), reply) == SetPrimaryDid(old(View()), old(exts[e].tenant), e, Some(p), allowMove)
    {
      assert PhoneLinked(View(), p) && ExtLinked(View(), e);
      var owner := phones[p].ext;
      if owner.Some? && owner.value != e {
        if !allowMove {
          return Refused(NumberTaken);
        }
        UnlinkLinked(View(), owner.value);
        if exts[owner.value].primary == Some(p) {
          UpdateExt(owner.value, exts[owner.value].(primary := None));
        }
        UpdatePhone(p, phones[p].(ext := None));
      }
      reply := Replace(e, p, current);
    }

    method Replace(e: nat, p: nat, current: Option<nat>) returns (reply: Reply)
      requires Linked(View()) && e < |exts| && HasPhone(View(), exts[e].tenant, p)
      requires current == exts[e].primary && current != Some(p) && phones[p].ext == None
      modifies this`phones, this`exts
      ensures View() == Link(Unlink(old(View()), e), e, p)
      ensures reply == Done
    {
      assert ExtLinked(View(), e);
      UnlinkLinked(View(), e);
      forall f: nat | f < |exts| ensures exts[f].primary != Some(p) {
        assert ExtLinked(View(), f);
      }
      forall q: nat | q < |phones| && Some(q) != current ensures phones[q].ext != Some(e) {
        assert PhoneLinked(View(), q);
      }
      if current.Some? {
        UpdatePhone(current.value, phones[current.value].(ext := None));
      }
      UpdatePhone(p, phones[p].(ext := Some(e), user := OrElse(exts[e].user, phones[p].user)));
      UpdateExt(e, exts[e].(primary := Some(p)));
      reply := Done;
    }

    method SyncPhoneNumbersForExtension(tenant: nat, e: nat, target: Option<nat>)
      requires Linked(View()) && e < |exts|
      modifies this`phones, this`exts
      ensures View() == SyncNumbers(old(View()), tenant, e, target)
      ensures Linked(View())
    {
      SyncLinked(View(), tenant, e, target);
      if target.None? || target.value !in users || users[target.value] != tenant {
        return;
      }
      var existing := LoadPhone(e);
      if existing.Some? {
        assert PhoneLinked(View(), existing.value);
        UniqueExt(View(), existing.value);
        UpdatePhone(existing.value, phones[existing.value].(user := target));
        return;
      }
      var candidate := FindSpare(tenant, target.value);
      if candidate.Some? {
        var reply := SetExtensionPrimaryDid(tenant, e, candidate, false);
      }
    }

    /** `releaseEmployeeFromOtherExtensions`: first the query, then each extension with its numbers. */
    method ReleaseEmployeeFromOtherExtensions(tenant: nat, u: nat, except: Option<nat>)
      requires Linked(View())
      modifies this`phones, this`exts
      ensures View() == ReleaseEmployee(old(View()), tenant, u, except)
      ensures Linked(View())
    {
      ghost var before := View();
      ReleaseLinked(before, tenant, u, except);
      var released := FindReleased(tenant, u, except);
      var i: nat := 0;
      FreedNone(before, u);
      while i < |released|
        invariant i <= |released|
        invariant View() == Freed(before, Upto(released, i), u)
      {
        assert released[i] in released && released[i] in HeldBy(before, tenant, u, except);
        ReleaseOne(before, Upto(released, i), tenant, released[i], u);
        assert Upto(released, i + 1) == Upto(released, i) + {released[i]};
        i := i + 1;
      }
      assert Upto(released, i) == HeldBy(before, tenant, u, except);
    }

    method FindReleased(tenant: nat, u: nat, except: Option<nat>) returns (released: seq<nat>)
      ensures forall e :: e in released <==> e in HeldBy(View(), tenant, u, except)
    {
      released := [];
      var e: nat := 0;
      while e < |exts|
        invariant e <= |exts|
        invariant forall f :: f in released <==> f < e && f in HeldBy(View(), tenant, u, except)
      {
        if exts[e].tenant == tenant && exts[e].user == Some(u) && exts[e].active && Some(e) != except {
          released := released + [e];
        }
        e := e + 1;
      }
    }

    /** One round of the release: the numbers that point at the extension or that it points at, then its row. */
    method ReleaseOne(ghost before: Pbx, ghost gone: set<nat>, tenant: nat, e: nat, u: nat)
      requires Linked(before) && View() == Freed(before, gone, u) && e < |exts| && before.exts[e].tenant == tenant
      modifies this`phones, this`exts
      ensures View() == Freed(before, gone + {e}, u)
    {
      ghost var start := View();
      FreedLinked(before, gone, u);
      assert ExtLinked(start, e);
      var p: nat := 0;
      while p < |phones|
        modifies this`phones
        invariant p <= |phones| == |start.phones|
        invariant forall q: nat :: q < p ==> phones[q] == FreedPhone(start.phones[q], {e}, u)
        invariant forall q: nat :: p <= q < |phones| ==> phones[q] == start.phones[q]
      {
        assert PhoneLinked(start, p);
        if (phones[p].tenant == Some(tenant) && phones[p].ext == Some(e)) || exts[e].primary == Some(p) {
          UpdatePhone(p, phones[p].(ext := None, user := if phones[p].user == Some(u) then None else phones[p].user));
        }
        p := p + 1;
      }
      UpdateExt(e, exts[e].(user := None, primary := None));
      assert View() == Freed(start, {e}, u);
      FreedMore(before, gone, e, u);
    }

    /** `createExtension`; `clash` is the insert failing on the extension number. */
    method CreateExtensionRow(tenant: nat, employee: Option<nat>, number: Option<nat>, clash: bool) returns (reply: Reply)
      requires Linked(View())
      modifies this`phones, this`exts
      ensures (View(), reply) == CreateExtension(old(View()), tenant, employee, number, clash)
      ensures Linked(View())
    {
      CreateLinked(View(), tenant, employee, number, clash);
      if employee.Some? {
        if employee.value !in users || users[employee.value] != tenant {
          return Refused(UserNotInTenant);
        }
        ReleaseEmployeeFromOtherExtensions(tenant, employee.value, None);
      }
      if clash {
        return Refused(NumberClash);
      }
      var e := |exts|;
      AddedLinked(View(), Extension(tenant, employee, None, true));
      exts := exts + [Extension(tenant, employee, None, true)];
      if employee.Some? {
        SyncPhoneNumbersForExtension(tenant, e, employee);
      }
      reply := Done;
      if number.Some? {
        reply := SetExtensionPrimaryDid(tenant, e, number, false);
      }
    }

    method UpdateExtensionRow(tenant: nat, e: nat, change: Option<Option<nat>>, status: Option<bool>) returns (reply: Reply)
      requires Linked(View())
      modifies this`phones, this`exts
      ensures (View(), reply) == UpdateExtension(old(View()), tenant, e, change, status)
      ensures Linked(View())
    {
      UpdateLinked(View(), tenant, e, change, status);
      if e >= |exts| || exts[e].tenant != tenant {
        return Refused(ExtensionNotFound);
      }
      if change.Some? && change.value.Some? {
        var u := change.value.value;
        if u !in users || users[u] != tenant {
          return Refused(UserNotInTenant);
        }
        ReleaseEmployeeFromOtherExtensions(tenant, u, Some(e));
      }
      var row := exts[e].(user := if change.Some? then change.value else exts[e].user,
                          active := if status.Some? then status.value else exts[e].active);
      UniquePrimary(View(), e);
      ExtRowLinked(View(), e, row);
      UpdateExt(e, row);
      if change.Some? {
        SyncPhoneNumbersForExtension(tenant, e, exts[e].user);
      }
      reply := Done;
    }

    method ReassignExtensionEmployee(tenant: nat, e: nat, u: nat) returns (reply: Reply)
      requires Linked(View())
      modifies this`phones, this`exts
      ensures (View(), reply) == ReassignEmployee(old(View()), tenant, e, u)
      ensures Linked(View())
    {
      ReassignLinked(View(), tenant, e, u);
      if e >= |exts| || exts[e].tenant != tenant {
        return Refused(ExtensionNotFound);
      }
      if u !in users || users[u] != tenant {
        return Refused(UserNotInTenant);
      }
      var linked := LoadPhone(e);
      ReleaseEmployeeFromOtherExtensions(tenant, u, Some(e));
      UniquePrimary(View(), e);
      ExtRowLinked(View(), e, exts[e].(user := Some(u)));
      UpdateExt(e, exts[e].(user := Some(u)));
      ghost var taken := View();
      if linked.Some? {
        assert ExtLinked(View(), e);
        UniqueExt(View(), linked.value);
        PhoneRowLinked(View(), linked.value, phones[linked.value].(user := Some(u)));
        UpdatePhone(linked.value, phones[linked.value].(user := Some(u), ext := Some(e)));
      }
      SyncPhoneNumbersForExtension(tenant, e, Some(u));
      assert linked.Some? ==> View().phones == taken.phones[linked.value := taken.phones[linked.value].(user := Some(u))];
      reply := Done;
    }

    method DisableExtensionRow(tenant: nat, e: nat) returns (reply: Reply)
      requires Linked(View())
      modifies this`exts
      ensures (View(), reply) == DisableExtension(old(View()), tenant, e)
    {
      if e >= |exts| || exts[e].tenant != tenant {
        return Refused(ExtensionNotFound);
      }
      UniquePrimary(View(), e);
      UpdateExt(e, exts[e].(active := false));
      reply := Done;
    }

    method ClearPhoneTenantLinks(p: nat)
      requires Linked(View()) && p < |phones|
      modifies this`phones, this`exts
      ensures View() == ClearLinks(old(View()), p)
      ensures Linked(View())
    {
      ClearLinked(View(), p);
      assert PhoneLinked(View(), p);
      var e: nat := 0;
      while e < |exts| && exts[e].primary != Some(p)
        invariant e <= |exts|
        invariant forall f: nat :: f < e ==> exts[f].primary != Some(p)
      {
        e := e + 1;
      }
      if e < |exts| {
        assert ExtLinked(View(), e);
        UpdateExt(e, exts[e].(primary := None));
      }
      UpdatePhone(p, phones[p].(ext := None, user := None));
    }

    method AssignDidToTenant(p: nat, tenant: nat) returns (reply: Reply)
      requires Linked(View())
      modifies this`phones, this`exts
      ensures (View(), reply) == AssignToTenant(old(View()), p, tenant)
      ensures Linked(View())
    {
      AssignLinked(View(), p, tenant);
      if tenant !in tenants {
        return Refused(TenantNotFound);
      }
      if p >= |phones| {
        return Refused(PhoneNotFound);
      }
      var previous := phones[p].tenant;
      if previous.Some? && previous != Some(tenant) {
        ClearPhoneTenantLinks(p);
      }
      UniqueExt(View(), p);
      UpdatePhone(p, phones[p].(tenant := Some(tenant), active := true));
      reply := Done;
    }

    method ReturnToInventory(p: nat)
      requires Linked(View()) && p < |phones|
      modifies this`phones, this`exts
      ensures View() == Returned(old(View()), p)
      ensures Linked(View())
    {
      ReturnedLinked(View(), p);
      ClearPhoneTenantLinks(p);
      UniqueExt(View(), p);
      UpdatePhone(p, phones[p].(tenant := None, active := true));
    }

    method UnassignDidFromTenant(p: nat) returns (reply: Reply)
      requires Linked(View())
      modifies this`phones, this`exts
      ensures (View(), reply) == UnassignFromTenant(old(View()), p)
      ensures Linked(View())
    {
      if p >= |phones| {
        return Refused(PhoneNotFound);
      }
      if phones[p].tenant.Some? {
        ReturnToInventory(p);
      }
      reply := Done;
    }

    /** `unassignAllDidsForTenant`, over the numbers that were the tenant's when the loop began. */
    method UnassignAllDidsForTenant(tenant: nat)
      requires Linked(View())
      modifies this`phones, this`exts
      ensures View() == UnassignedUpTo(old(View()), tenant, |old(phones)|)
      ensures Linked(View())
    {
      ghost var before := View();
      var rows := phones;
      var p: nat := 0;
      while p < |rows|
        invariant p <= |rows| == |phones|
        invariant View() == UnassignedUpTo(before, tenant, p)
        invariant Linked(View())
      {
        if rows[p].tenant == Some(tenant) {
          ReturnToInventory(p);
        }
        p := p + 1;
      }
    }

    /** `listAvailablePhoneNumbersForExtension`: every available number, once. */
    method ListAvailable(tenant: nat, forExt: Option<nat>) returns (list: seq<nat>)
      ensures forall p: nat :: p in list <==> Available(View(), tenant, forExt, p)
      ensures forall i, j :: 0 <= i < j < |list| ==> list[i] < list[j]
    {
      list := [];
      var p: nat := 0;
      while p < |phones|
        invariant p <= |phones|
        invariant forall q: nat :: q in list <==> q < p && Available(View(), tenant, forExt, q)
        invariant forall i :: 0 <= i < |list| ==> list[i] < p
        invariant forall i, j :: 0 <= i < j < |list| ==> list[i] < list[j]
      {
        var blocked := IsBlocked(tenant, forExt, p);
        if phones[p].tenant == Some(tenant) && !blocked && (phones[p].ext.None? || phones[p].ext == forExt) {
          list := list + [p];
        }
        p := p + 1;
      }
    }

    method IsBlocked(tenant: nat, forExt: Option<nat>, p: nat) returns (blocked: bool)
      requires p < |phones|
      ensures blocked == Blocked(View(), tenant, forExt, p)
    {
      var e: nat := 0;
      while e < |exts|
        invariant e <= |exts|
        invariant forall f: nat :: f < e && exts[f].tenant == tenant && Some(f) != forExt ==>
                    exts[f].primary != Some(p) && phones[p].ext != Some(f)
      {
        if exts[e].tenant == tenant && Some(e) != forExt && (exts[e].primary == Some(p) || phones[p].ext == Some(e)) {
          return true;
        }
        e := e + 1;
      }
      blocked := false;
    }
  }

  // ---- helpers ----

  function Upto(ids: seq<nat>, n: nat): set<nat>
    requires n <= |ids|
  {
    set i: nat | i < n :: ids[i]
  }

  lemma UniqueExt(s: Pbx, p: nat)
    requires Linked(s) && p < |s.phones|
    ensures s.phones[p].ext.Some? ==> forall q: nat :: q < |s.phones| && q != p ==> s.phones[q].ext != s.phones[p].ext
  {
    forall q: nat | q < |s.phones| && s.phones[q].ext.Some? && s.phones[q].ext == s.phones[p].ext ensures q == p {
      assert PhoneLinked(s, p) && PhoneLinked(s, q);
    }
  }

  lemma UniquePrimary(s: Pbx, e: nat)
    requires Linked(s) && e < |s.exts|
    ensures s.exts[e].primary.Some? ==> forall f: nat :: f < |s.exts| && f != e ==> s.exts[f].primary != s.exts[e].primary
  {
    forall f: nat | f < |s.exts| && s.exts[f].primary.Some? && s.exts[f].primary == s.exts[e].primary ensures f == e {
      assert ExtLinked(s, e) && ExtLinked(s, f);
    }
  }

  lemma FreedNone(s: Pbx, u: nat)
    ensures Freed(s, {}, u) == s
  {
    assert Freed(s, {}, u).phones == s.phones && Freed(s, {}, u).exts == s.exts;
  }

  lemma FreedMore(s: Pbx, gone: set<nat>, e: nat, u: nat)
    ensures Freed(Freed(s, gone, u), {e}, u) == Freed(s, gone + {e}, u)
  {
    assert Freed(Freed(s, gone, u), {e}, u).phones == Freed(s, gone + {e}, u).phones;
    assert Freed(Freed(s, gone, u), {e}, u).exts == Freed(s, gone + {e}, u).exts;
  }
}
