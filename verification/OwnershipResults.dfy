/**
 What every run of the ownership operations keeps, the one update that breaks it, and the meaning
 of the list of available numbers.
 */
module OwnershipResults {
  import opened Options
  import opened Ownership

  // ---- the links ----

  lemma UnlinkLinked(s: Pbx, e: nat)
    requires Linked(s) && e < |s.exts|
    ensures Linked(Unlink(s, e))
    ensures Unlink(s, e).exts[e].primary == None
    ensures forall p: nat :: p < |s.phones| ==> Unlink(s, e).phones[p].ext != Some(e)
  {
    var s' := Unlink(s, e);
    assert ExtLinked(s, e);
    forall q: nat | q < |s'.phones| ensures PhoneLinked(s', q) && s'.phones[q].ext != Some(e) {
      assert PhoneLinked(s, q);
    }
    forall f: nat | f < |s'.exts| ensures ExtLinked(s', f) {
      assert ExtLinked(s, f);
    }
  }

  lemma LinkLinked(s: Pbx, e: nat, p: nat)
    requires Linked(s) && e < |s.exts| && p < |s.phones|
    requires s.exts[e].primary == None && s.phones[p].ext == None && s.phones[p].tenant == Some(s.exts[e].tenant)
    ensures Linked(Link(s, e, p))
  {
    var s' := Link(s, e, p);
    forall q: nat | q < |s'.phones| ensures PhoneLinked(s', q) {
      assert PhoneLinked(s, q);
    }
    forall f: nat | f < |s'.exts| ensures ExtLinked(s', f) {
      assert ExtLinked(s, f);
    }
  }

  lemma SetPrimaryLinked(s: Pbx, tenant: nat, e: nat, number: Option<nat>, allowMove: bool)
    requires Linked(s)
    ensures Linked(SetPrimaryDid(s, tenant, e, number, allowMove).0)
  {
    var (s', reply) := SetPrimaryDid(s, tenant, e, number, allowMove);
    if reply == Done && HasExt(s, tenant, e) {
      if number.None? {
        UnlinkLinked(s, e);
      } else if s.exts[e].primary != number {
        var p := number.value;
        assert PhoneLinked(s, p);
        var moved := if Elsewhere(s, e, p) then Unlink(s, s.phones[p].ext.value) else s;
        if Elsewhere(s, e, p) {
          UnlinkLinked(s, s.phones[p].ext.value);
        }
        UnlinkLinked(moved, e);
        assert PhoneLinked(Unlink(moved, e), p);
        LinkLinked(Unlink(moved, e), e, p);
      }
    }
  }

  lemma FreedLinked(s: Pbx, gone: set<nat>, u: nat)
    requires Linked(s)
    ensures Linked(Freed(s, gone, u))
  {
    var s' := Freed(s, gone, u);
    forall p: nat | p < |s'.phones| ensures PhoneLinked(s', p) {
      assert PhoneLinked(s, p);
    }
    forall e: nat | e < |s'.exts| ensures ExtLinked(s', e) {
      assert ExtLinked(s, e);
    }
  }

  /** A change of a phone row that leaves its links and its organization alone. */
  lemma PhoneRowLinked(s: Pbx, p: nat, row: Phone)
    requires Linked(s) && p < |s.phones| && row.ext == s.phones[p].ext
    requires row.tenant == s.phones[p].tenant || row.ext == None
    ensures Linked(WithPhone(s, p, row))
  {
    var s' := WithPhone(s, p, row);
    forall q: nat | q < |s'.phones| ensures PhoneLinked(s', q) {
      assert PhoneLinked(s, q);
    }
    forall e: nat | e < |s'.exts| ensures ExtLinked(s', e) {
      assert ExtLinked(s, e);
    }
  }

  lemma ExtRowLinked(s: Pbx, e: nat, row: Extension)
    requires Linked(s) && e < |s.exts| && row.primary == s.exts[e].primary && row.tenant == s.exts[e].tenant
    ensures Linked(WithExt(s, e, row))
  {
    var s' := WithExt(s, e, row);
    forall q: nat | q < |s'.phones| ensures PhoneLinked(s', q) {
      assert PhoneLinked(s, q);
    }
    forall f: nat | f < |s'.exts| ensures ExtLinked(s', f) {
      assert ExtLinked(s, f);
    }
  }

  lemma SyncLinked(s: Pbx, tenant: nat, e: nat, target: Option<nat>)
    requires Linked(s) && e < |s.exts|
    ensures Linked(SyncNumbers(s, tenant, e, target))
  {
    if target.Some? && HasUser(s, tenant, target.value) {
      assert ExtLinked(s, e);
      if s.exts[e].primary.Some? {
        var p := s.exts[e].primary.value;
        PhoneRowLinked(s, p, s.phones[p].(user := target));
      } else {
        SetPrimaryLinked(s, tenant, e, FirstSpare(s.phones, tenant, target.value), false);
      }
    }
  }

  lemma AddedLinked(s: Pbx, row: Extension)
    requires Linked(s) && row.primary == None
    ensures Linked(s.(exts := s.exts + [row]))
  {
    var s' := s.(exts := s.exts + [row]);
    forall q: nat | q < |s'.phones| ensures PhoneLinked(s', q) {
      assert PhoneLinked(s, q);
    }
    forall f: nat | f < |s'.exts| ensures ExtLinked(s', f) {
      if f < |s.exts| {
        assert ExtLinked(s, f);
      }
    }
  }

  lemma ReleaseLinked(s: Pbx, tenant: nat, u: nat, except: Option<nat>)
    requires Linked(s)
    ensures Linked(ReleaseEmployee(s, tenant, u, except))
  {
    FreedLinked(s, HeldBy(s, tenant, u, except), u);
  }

  lemma CreateLinked(s: Pbx, tenant: nat, employee: Option<nat>, number: Option<nat>, clash: bool)
    requires Linked(s)
    ensures Linked(CreateExtension(s, tenant, employee, number, clash).0)
  {
    var released := if employee.Some? then ReleaseEmployee(s, tenant, employee.value, None) else s;
    if employee.Some? {
      ReleaseLinked(s, tenant, employee.value, None);
    }
    var row := Extension(tenant, employee, None, true);
    AddedLinked(released, row);
    var added := released.(exts := released.exts + [row]);
    SyncLinked(added, tenant, |released.exts|, employee);
    SetPrimaryLinked(SyncNumbers(added, tenant, |released.exts|, employee), tenant, |released.exts|, number, false);
  }

  lemma UpdateLinked(s: Pbx, tenant: nat, e: nat, change: Option<Option<nat>>, status: Option<bool>)
    requires Linked(s)
    ensures Linked(UpdateExtension(s, tenant, e, change, status).0)
  {
    if HasExt(s, tenant, e) {
      var released := if change.Some? && change.value.Some? then ReleaseEmployee(s, tenant, change.value.value, Some(e)) else s;
      if change.Some? && change.value.Some? {
        ReleaseLinked(s, tenant, change.value.value, Some(e));
      }
      var row := released.exts[e];
      var row' := row.(user := if change.Some? then change.value else row.user,
                       active := if status.Some? then status.value else row.active);
      ExtRowLinked(released, e, row');
      if change.Some? {
        SyncLinked(WithExt(released, e, row'), tenant, e, change.value);
      }
    }
  }

  lemma ReassignLinked(s: Pbx, tenant: nat, e: nat, u: nat)
    requires Linked(s)
    ensures Linked(ReassignEmployee(s, tenant, e, u).0)
  {
    if HasExt(s, tenant, e) {
      ReleaseLinked(s, tenant, u, Some(e));
      var released := ReleaseEmployee(s, tenant, u, Some(e));
      ExtRowLinked(released, e, released.exts[e].(user := Some(u)));
      SyncLinked(WithExt(released, e, released.exts[e].(user := Some(u))), tenant, e, Some(u));
    }
  }

  lemma ClearLinked(s: Pbx, p: nat)
    requires Linked(s) && p < |s.phones|
    ensures Linked(ClearLinks(s, p)) && ClearLinks(s, p).phones[p].ext == None
  {
    assert PhoneLinked(s, p);
    var s' := ClearLinks(s, p);
    forall q: nat | q < |s'.phones| ensures PhoneLinked(s', q) {
      assert PhoneLinked(s, q);
    }
    forall f: nat | f < |s'.exts| ensures ExtLinked(s', f) {
      assert ExtLinked(s, f);
    }
  }

  lemma AssignLinked(s: Pbx, p: nat, tenant: nat)
    requires Linked(s)
    ensures Linked(AssignToTenant(s, p, tenant).0)
  {
    if p < |s.phones| {
      assert PhoneLinked(s, p);
      var previous := s.phones[p].tenant;
      if previous.Some? && previous != Some(tenant) {
        ClearLinked(s, p);
        PhoneRowLinked(ClearLinks(s, p), p, ClearLinks(s, p).phones[p].(tenant := Some(tenant), active := true));
      } else {
        PhoneRowLinked(s, p, s.phones[p].(tenant := Some(tenant), active := true));
      }
    }
  }

  lemma ReturnedLinked(s: Pbx, p: nat)
    requires Linked(s) && p < |s.phones|
    ensures Linked(Returned(s, p))
  {
    ClearLinked(s, p);
    PhoneRowLinked(ClearLinks(s, p), p, ClearLinks(s, p).phones[p].(tenant := None, active := true));
  }

  lemma {:induction false} UnassignedLinked(s: Pbx, tenant: nat, n: nat)
    requires Linked(s) && n <= |s.phones|
    ensures Linked(UnassignedUpTo(s, tenant, n))
  {
    if n > 0 {
      UnassignedLinked(s, tenant, n - 1);
      ReturnedLinked(UnassignedUpTo(s, tenant, n - 1), n - 1);
    }
  }

  lemma AddNumberLinked(s: Pbx, row: Phone)
    requires Linked(s) && row.ext == None
    ensures Linked(s.(phones := s.phones + [row]))
  {
    var s' := s.(phones := s.phones + [row]);
    forall q: nat | q < |s'.phones| ensures PhoneLinked(s', q) {
      if q < |s.phones| {
        assert PhoneLinked(s, q);
      }
    }
    forall f: nat | f < |s'.exts| ensures ExtLinked(s', f) {
      assert ExtLinked(s, f);
    }
  }

  lemma PerformLinked(s: Pbx, op: Op)
    requires Linked(s)
    ensures Linked(Perform(s, op).0)
  {
    match op
    case AddNumber(owner) => AddNumberLinked(s, Phone(owner, None, None, true));
    case SetPrimary(tenant, e, number, allowMove) => SetPrimaryLinked(s, tenant, e, number, allowMove);
    case Create(tenant, employee, number, clash) => CreateLinked(s, tenant, employee, number, clash);
    case Update(tenant, e, change, status) => UpdateLinked(s, tenant, e, change, status);
    case Reassign(tenant, e, u) => ReassignLinked(s, tenant, e, u);
    case Disable(tenant, e) =>
      if HasExt(s, tenant, e) {
        ExtRowLinked(s, e, s.exts[e].(active := false));
      }
    case AssignTenant(p, tenant) => AssignLinked(s, p, tenant);
    case UnassignTenant(p) =>
      if p < |s.phones| {
        ReturnedLinked(s, p);
      }
    case UnassignAll(tenant) => UnassignedLinked(s, tenant, |s.phones|);
    case ReleaseNumber(p) =>
      if p < |s.phones| {
        PhoneRowLinked(s, p, s.phones[p].(active := false, user := None));
      }
  }

  // ---- the employees ----

  /** Only links, numbers and organizations of numbers differ. */
  ghost predicate SameStaff(s: Pbx, s': Pbx) {
    && s'.users == s.users && s'.tenants == s.tenants && |s'.exts| == |s.exts|
    && (forall e: nat :: e < |s.exts| ==> s'.exts[e] == s.exts[e].(primary := s'.exts[e].primary))
  }

  lemma SameStaffKeeps(s: Pbx, s': Pbx)
    requires Staffed(s) && SameStaff(s, s')
    ensures Staffed(s')
    ensures OneEach(s) ==> OneEach(s')
  {
    if OneEach(s) {
      forall e: nat, f: nat, u: nat | Holds(s', e, u) && Holds(s', f, u) ensures e == f {
        assert Holds(s, e, u) && Holds(s, f, u);
      }
    }
  }

  lemma SetPrimaryStaff(s: Pbx, tenant: nat, e: nat, number: Option<nat>, allowMove: bool)
    ensures SameStaff(s, SetPrimaryDid(s, tenant, e, number, allowMove).0)
  {
    if HasExt(s, tenant, e) {
      UnlinkStaff(s, e);
      if number.Some? && HasPhone(s, tenant, number.value) {
        MoveStaff(s, e, number.value);
      }
    }
  }

  lemma UnlinkStaff(s: Pbx, e: nat)
    requires e < |s.exts|
    ensures SameStaff(s, Unlink(s, e)) && |Unlink(s, e).phones| == |s.phones|
  {
  }

  lemma LinkStaff(s: Pbx, e: nat, p: nat)
    requires e < |s.exts| && p < |s.phones|
    ensures SameStaff(s, Link(s, e, p))
  {
  }

  lemma SameStaffOn(a: Pbx, b: Pbx, c: Pbx)
    requires SameStaff(a, b) && SameStaff(b, c)
    ensures SameStaff(a, c)
  {
  }

  lemma MoveStaff(s: Pbx, e: nat, p: nat)
    requires e < |s.exts| && p < |s.phones|
    ensures SameStaff(s, Link(Unlink(Vacated(s, e, p), e), e, p))
  {
    var moved := Vacated(s, e, p);
    UnlinkStaff(moved, e);
    LinkStaff(Unlink(moved, e), e, p);
    SameStaffOn(moved, Unlink(moved, e), Link(Unlink(moved, e), e, p));
    if moved != s {
      UnlinkStaff(s, s.phones[p].ext.value);
      SameStaffOn(s, moved, Link(Unlink(moved, e), e, p));
    }
  }

  lemma SyncStaff(s: Pbx, tenant: nat, e: nat, target: Option<nat>)
    requires e < |s.exts|
    ensures SameStaff(s, SyncNumbers(s, tenant, e, target))
  {
    if target.Some? {
      SetPrimaryStaff(s, tenant, e, FirstSpare(s.phones, tenant, target.value), false);
    }
  }

  lemma {:induction false} UnassignedStaff(s: Pbx, tenant: nat, n: nat)
    requires n <= |s.phones|
    ensures SameStaff(s, UnassignedUpTo(s, tenant, n))
  {
    if n > 0 {
      UnassignedStaff(s, tenant, n - 1);
    }
  }

  /** After a release the employee holds at most the excepted extension, and nobody else lost one. */
  lemma ReleaseStaff(s: Pbx, tenant: nat, u: nat, except: Option<nat>)
    requires Staffed(s) && HasUser(s, tenant, u)
    ensures var s' := ReleaseEmployee(s, tenant, u, except);
            && Staffed(s')
            && (forall e: nat :: Holds(s', e, u) ==> Some(e) == except)
            && (forall e: nat, v: nat :: v != u ==> (Holds(s', e, v) <==> Holds(s, e, v)))
            && (OneEach(s) ==> OneEach(s'))
  {
    var s' := ReleaseEmployee(s, tenant, u, except);
    forall e: nat, v: nat | Holds(s', e, v)
      ensures Holds(s, e, v) && (v == u ==> Some(e) == except)
    {
      assert e !in HeldBy(s, tenant, u, except);
    }
  }

  /** Giving an extension to an employee who holds no other. */
  lemma GiveStaff(s: Pbx, e: nat, u: nat, active: bool)
    requires Staffed(s) && e < |s.exts| && HasUser(s, s.exts[e].tenant, u)
    requires forall f: nat :: Holds(s, f, u) ==> f == e
    ensures var s' := WithExt(s, e, s.exts[e].(user := Some(u), active := active));
            Staffed(s') && (OneEach(s) ==> OneEach(s'))
  {
    var s' := WithExt(s, e, s.exts[e].(user := Some(u), active := active));
    if OneEach(s) {
      forall f: nat, g: nat, v: nat | Holds(s', f, v) && Holds(s', g, v) ensures f == g {
        assert f != e ==> Holds(s, f, v);
        assert g != e ==> Holds(s, g, v);
      }
    }
  }

  lemma CreateStaff(s: Pbx, tenant: nat, employee: Option<nat>, number: Option<nat>, clash: bool)
    requires Staffed(s)
    ensures Staffed(CreateExtension(s, tenant, employee, number, clash).0)
    ensures OneEach(s) ==> OneEach(CreateExtension(s, tenant, employee, number, clash).0)
  {
    if employee.Some? && !HasUser(s, tenant, employee.value) {
      return;
    }
    var released := if employee.Some? then ReleaseEmployee(s, tenant, employee.value, None) else s;
    if employee.Some? {
      ReleaseStaff(s, tenant, employee.value, None);
    }
    if !clash {
      var e := |released.exts|;
      var added := released.(exts := released.exts + [Extension(tenant, employee, None, true)]);
      AddedStaff(released, tenant, employee);
      SyncStaff(added, tenant, e, employee);
      var synced := SyncNumbers(added, tenant, e, employee);
      SameStaffKeeps(added, synced);
      SetPrimaryStaff(synced, tenant, e, number, false);
      SameStaffKeeps(synced, SetPrimaryDid(synced, tenant, e, number, false).0);
    }
  }

  lemma AddedStaff(s: Pbx, tenant: nat, employee: Option<nat>)
    requires Staffed(s)
    requires employee.Some? ==> HasUser(s, tenant, employee.value) && forall e: nat :: !Holds(s, e, employee.value)
    ensures var s' := s.(exts := s.exts + [Extension(tenant, employee, None, true)]);
            Staffed(s') && (OneEach(s) ==> OneEach(s'))
  {
    var s' := s.(exts := s.exts + [Extension(tenant, employee, None, true)]);
    if OneEach(s) {
      forall f: nat, g: nat, v: nat | Holds(s', f, v) && Holds(s', g, v) ensures f == g {
        assert f < |s.exts| ==> Holds(s, f, v);
        assert g < |s.exts| ==> Holds(s, g, v);
      }
    }
  }

  /** No other active extension has the employee of extension e. */
  ghost predicate EmployeeFree(s: Pbx, e: nat)
    requires e < |s.exts|
  {
    s.exts[e].user.Some? ==> forall f: nat :: f != e ==> !Holds(s, f, s.exts[e].user.value)
  }

  /** The guard that a reactivation by status alone lacks. */
  ghost predicate Careful(s: Pbx, op: Op) {
    op.Update? && op.change.None? && op.status == Some(true) && HasExt(s, op.tenant, op.ext) ==> EmployeeFree(s, op.ext)
  }

  /** An update that leaves the employee alone. */
  lemma StatusStaff(s: Pbx, e: nat, active: bool)
    requires Staffed(s) && e < |s.exts|
    ensures var s' := WithExt(s, e, s.exts[e].(active := active));
            Staffed(s') && (OneEach(s) ==> (OneEach(s') <==> !active || EmployeeFree(s, e)))
  {
    var s' := WithExt(s, e, s.exts[e].(active := active));
    if OneEach(s) {
      if !active || EmployeeFree(s, e) {
        forall f: nat, g: nat, v: nat | Holds(s', f, v) && Holds(s', g, v) ensures f == g {
          assert f != e ==> Holds(s, f, v);
          assert g != e ==> Holds(s, g, v);
        }
      } else {
        var u := s.exts[e].user.value;
        var f: nat :| f != e && Holds(s, f, u);
        assert Holds(s', f, u) && Holds(s', e, u);
      }
    }
  }

  /** An update that takes the extension away from its employee. */
  lemma VacateStaff(s: Pbx, e: nat, active: bool)
    requires Staffed(s) && e < |s.exts|
    ensures var s' := WithExt(s, e, s.exts[e].(user := None, active := active));
            Staffed(s') && (OneEach(s) ==> OneEach(s'))
  {
    var s' := WithExt(s, e, s.exts[e].(user := None, active := active));
    forall f: nat, v: nat | Holds(s', f, v) ensures Holds(s, f, v) {}
  }

  lemma UpdateStaff(s: Pbx, tenant: nat, e: nat, change: Option<Option<nat>>, status: Option<bool>)
    requires Staffed(s)
    ensures var s' := UpdateExtension(s, tenant, e, change, status).0;
            Staffed(s') && (OneEach(s) && Careful(s, Update(tenant, e, change, status)) ==> OneEach(s'))
  {
    if !HasExt(s, tenant, e) {
      return;
    }
    var active := if status.Some? then status.value else s.exts[e].active;
    if change.None? {
      StatusStaff(s, e, active);
      if status.None? {
        assert WithExt(s, e, s.exts[e].(active := active)) == s;
      }
    } else if change.value.None? {
      VacateStaff(s, e, active);
    } else if HasUser(s, tenant, change.value.value) {
      TakeOver(s, tenant, e, change.value.value, active);
    }
  }

  /** Release the employee, give her extension e, and bring her numbers along. */
  lemma TakeOver(s: Pbx, tenant: nat, e: nat, u: nat, active: bool)
    requires Staffed(s) && HasExt(s, tenant, e) && HasUser(s, tenant, u)
    ensures var released := ReleaseEmployee(s, tenant, u, Some(e));
            var taken := WithExt(released, e, released.exts[e].(user := Some(u), active := active));
            var s' := SyncNumbers(taken, tenant, e, Some(u));
            && Staffed(s') && (OneEach(s) ==> OneEach(s'))
            && s'.exts[e].user == Some(u) && (forall f: nat :: Holds(s', f, u) ==> f == e)
  {
    ReleaseStaff(s, tenant, u, Some(e));
    var released := ReleaseEmployee(s, tenant, u, Some(e));
    GiveStaff(released, e, u, active);
    var taken := WithExt(released, e, released.exts[e].(user := Some(u), active := active));
    SyncStaff(taken, tenant, e, Some(u));
    var s' := SyncNumbers(taken, tenant, e, Some(u));
    SameStaffKeeps(taken, s');
    forall f: nat | Holds(s', f, u) ensures f == e {
      assert f != e ==> Holds(released, f, u);
    }
  }

  lemma ReassignStaff(s: Pbx, tenant: nat, e: nat, u: nat)
    requires Staffed(s)
    ensures var s' := ReassignEmployee(s, tenant, e, u).0;
            Staffed(s') && (OneEach(s) ==> OneEach(s'))
  {
    if HasExt(s, tenant, e) && HasUser(s, tenant, u) {
      TakeOver(s, tenant, e, u, s.exts[e].active);
      var released := ReleaseEmployee(s, tenant, u, Some(e));
      assert released.exts[e].(user := Some(u), active := s.exts[e].active) == released.exts[e].(user := Some(u));
    }
  }

  lemma PerformStaff(s: Pbx, op: Op)
    requires Staffed(s)
    ensures Staffed(Perform(s, op).0)
    ensures OneEach(s) && Careful(s, op) ==> OneEach(Perform(s, op).0)
  {
    match op
    case Create(tenant, employee, number, clash) => CreateStaff(s, tenant, employee, number, clash);
    case Update(tenant, e, change, status) => UpdateStaff(s, tenant, e, change, status);
    case Reassign(tenant, e, u) => ReassignStaff(s, tenant, e, u);
    case Disable(tenant, e) =>
      if HasExt(s, tenant, e) {
        StatusStaff(s, e, false);
      }
    case SetPrimary(tenant, e, number, allowMove) =>
      SetPrimaryStaff(s, tenant, e, number, allowMove);
      SameStaffKeeps(s, Perform(s, op).0);
    case UnassignAll(tenant) =>
      UnassignedStaff(s, tenant, |s.phones|);
      SameStaffKeeps(s, Perform(s, op).0);
    case _ => SameStaffKeeps(s, Perform(s, op).0);
  }

  // ---- the results ----

  /** Every reactivation by status alone in the run comes when the employee holds no other active extension. */
  ghost predicate CarefulRun(s: Pbx, ops: seq<Op>) {
    forall i :: 0 <= i < |ops| ==> Careful(Run(s, ops[..i]), ops[i])
  }

  /**
   Over every run, numbers and extensions point at each other, within one organization; and if
   reactivations were guarded, no employee would ever hold two active extensions.
   */
  lemma {:induction false} OwnershipInvariant(tenants: set<nat>, users: map<nat, nat>, ops: seq<Op>)
    ensures var s := Run(NewPbx(tenants, users), ops);
            && Linked(s) && Staffed(s)
            && (CarefulRun(NewPbx(tenants, users), ops) ==> OneEach(s))
  {
    if ops != [] {
      var start, front, op := NewPbx(tenants, users), ops[..|ops| - 1], ops[|ops| - 1];
      OwnershipInvariant(tenants, users, front);
      PerformLinked(Run(start, front), op);
      PerformStaff(Run(start, front), op);
      if CarefulRun(start, ops) {
        assert forall i :: 0 <= i < |front| ==> ops[i] == front[i] && ops[..i] == front[..i];
      }
    }
  }

  /** A reactivation by status alone is safe exactly when no other active extension has its employee. */
  lemma ReactivationExactly(s: Pbx, tenant: nat, e: nat)
    requires Staffed(s) && OneEach(s) && HasExt(s, tenant, e)
    ensures OneEach(UpdateExtension(s, tenant, e, None, Some(true)).0) <==> EmployeeFree(s, e)
  {
    StatusStaff(s, e, true);
  }

  lemma RunNext(s: Pbx, ops: seq<Op>, op: Op)
    ensures Run(s, ops + [op]) == Perform(Run(s, ops), op).0
  {
    assert (ops + [op])[..|ops|] == ops;
  }

  /** Disable Ann's extension, give her a new one, reactivate the old one: she holds two. */
  lemma ReactivationBreaks()
    ensures exists ops :: !OneEach(Run(NewPbx({0}, map[7 := 0]), ops))
  {
    var start := NewPbx({0}, map[7 := 0]);
    var create := Create(0, Some(7), None, false);
    var one := [create];
    var two := one + [Disable(0, 0)];
    var three := two + [create];
    var four := three + [Update(0, 0, None, Some(true))];
    RunNext(start, [], create);
    assert [] + [create] == one;
    RunNext(start, one, Disable(0, 0));
    RunNext(start, two, create);
    RunNext(start, three, Update(0, 0, None, Some(true)));
    assert Run(start, two).exts == [Extension(0, Some(7), None, false)];
    assert HeldBy(Run(start, two), 0, 7, None) == {};
    assert Run(start, three).exts[0] == Extension(0, Some(7), None, false);
    assert Run(start, three).exts[1] == Extension(0, Some(7), None, true);
    var s := Run(start, four);
    assert Holds(s, 0, 7) && Holds(s, 1, 7);
  }

  // ---- the available numbers ----

  /** The numbers that some other extension of the organization claims, by either pointer. */
  predicate Blocked(s: Pbx, tenant: nat, forExt: Option<nat>, p: nat)
    requires p < |s.phones|
  {
    exists e: nat :: e < |s.exts| && s.exts[e].tenant == tenant && Some(e) != forExt
                     && (s.exts[e].primary == Some(p) || s.phones[p].ext == Some(e))
  }

  predicate Available(s: Pbx, tenant: nat, forExt: Option<nat>, p: nat) {
    && HasPhone(s, tenant, p)
    && !Blocked(s, tenant, forExt, p)
    && (s.phones[p].ext.None? || s.phones[p].ext == forExt)
  }

  /** The list offers exactly the numbers that an extension can take without a move. */
  lemma AvailableIsAcceptable(s: Pbx, tenant: nat, e: nat, p: nat)
    requires Linked(s) && HasExt(s, tenant, e)
    ensures Available(s, tenant, Some(e), p) <==> SetPrimaryDid(s, tenant, e, Some(p), false).1 == Done
  {
    assert ExtLinked(s, e);
    if p < |s.phones| {
      assert PhoneLinked(s, p);
      if Blocked(s, tenant, Some(e), p) {
        var f: nat :| f < |s.exts| && Some(f) != Some(e) && (s.exts[f].primary == Some(p) || s.phones[p].ext == Some(f));
        assert ExtLinked(s, f);
      }
    }
  }

  /**
   An accepted assignment links exactly the two, frees what either had, and leaves every other
   link alone; with a move it is refused only for missing rows.
   */
  lemma SetPrimaryEffect(s: Pbx, tenant: nat, e: nat, p: nat, allowMove: bool)
    requires Linked(s)
    ensures var (s', reply) := SetPrimaryDid(s, tenant, e, Some(p), allowMove);
            && (reply == Done ==>
                  && s'.exts[e].primary == Some(p) && p < |s'.phones| && s'.phones[p].ext == Some(e)
                  && (forall q: nat :: q < |s.phones| && q != p ==>
                        s'.phones[q].ext == if s.phones[q].ext == Some(e) then None else s.phones[q].ext)
                  && (forall f: nat :: f < |s.exts| && f != e ==>
                        s'.exts[f].primary == if s.exts[f].primary == Some(p) then None else s.exts[f].primary))
            && (reply != Done ==> s' == s)
            && (allowMove && HasExt(s, tenant, e) && HasPhone(s, tenant, p) ==> reply == Done)
  {
    if HasExt(s, tenant, e) {
      assert ExtLinked(s, e);
      if s.exts[e].primary == Some(p) {
        AlreadyLinked(s, e, p);
      } else if HasPhone(s, tenant, p) {
        MoveLinks(s, e, p);
      }
    }
  }

  lemma AlreadyLinked(s: Pbx, e: nat, p: nat)
    requires Linked(s) && e < |s.exts| && s.exts[e].primary == Some(p)
    ensures p < |s.phones| && s.phones[p].ext == Some(e)
    ensures forall q: nat :: q < |s.phones| && q != p ==> s.phones[q].ext != Some(e)
    ensures forall f: nat :: f < |s.exts| && f != e ==> s.exts[f].primary != Some(p)
  {
    assert ExtLinked(s, e);
    forall q: nat | q < |s.phones| && q != p ensures s.phones[q].ext != Some(e) {
      assert PhoneLinked(s, q);
    }
    forall f: nat | f < |s.exts| && f != e ensures s.exts[f].primary != Some(p) {
      assert ExtLinked(s, f);
    }
  }

  /** Unlinking frees the extension and whoever pointed to it. */
  lemma UnlinkFrees(s: Pbx, e: nat)
    requires Linked(s) && e < |s.exts|
    ensures var s' := Unlink(s, e);
            && |s'.phones| == |s.phones| && |s'.exts| == |s.exts|
            && (forall q: nat :: q < |s.phones| ==>
                  s'.phones[q].ext == if s.phones[q].ext == Some(e) then None else s.phones[q].ext)
            && (forall f: nat :: f < |s.exts| ==> s'.exts[f].primary == if f == e then None else s.exts[f].primary)
  {
    assert ExtLinked(s, e);
    forall q: nat | q < |s.phones|
      ensures Unlink(s, e).phones[q].ext == if s.phones[q].ext == Some(e) then None else s.phones[q].ext
    {
      assert PhoneLinked(s, q);
    }
  }

  lemma MoveLinks(s: Pbx, e: nat, p: nat)
    requires Linked(s) && e < |s.exts| && p < |s.phones| && s.exts[e].primary != Some(p)
    ensures var s' := Link(Unlink(Vacated(s, e, p), e), e, p);
            && s'.exts[e].primary == Some(p) && p < |s'.phones| && s'.phones[p].ext == Some(e)
            && (forall q: nat :: q < |s.phones| && q != p ==>
                  s'.phones[q].ext == if s.phones[q].ext == Some(e) then None else s.phones[q].ext)
            && (forall f: nat :: f < |s.exts| && f != e ==>
                  s'.exts[f].primary == if s.exts[f].primary == Some(p) then None else s.exts[f].primary)
  {
    var moved := Vacated(s, e, p);
    VacatedLinks(s, e, p);
    UnlinkFrees(moved, e);
  }

  /** Whoever had the number before, if it is another extension, has none now. */
  lemma VacatedLinks(s: Pbx, e: nat, p: nat)
    requires Linked(s) && e < |s.exts| && p < |s.phones| && s.exts[e].primary != Some(p)
    ensures var s' := Vacated(s, e, p);
            && Linked(s') && |s'.phones| == |s.phones| && |s'.exts| == |s.exts|
            && (forall q: nat :: q < |s.phones| && q != p ==> s'.phones[q].ext == s.phones[q].ext)
            && (forall f: nat :: f < |s.exts| ==>
                  s'.exts[f].primary == if s.exts[f].primary == Some(p) then None else s.exts[f].primary)
  {
    assert PhoneLinked(s, p);
    if Elsewhere(s, e, p) {
      var g := s.phones[p].ext.value;
      UnlinkLinked(s, g);
      UnlinkFrees(s, g);
      AlreadyLinked(s, g, p);
    } else {
      forall f: nat | f < |s.exts| ensures s.exts[f].primary != Some(p) {
        assert ExtLinked(s, f);
      }
    }
  }

  /** A reassignment leaves the employee with that extension alone, and the extension's number with her. */
  lemma ReassignMoves(s: Pbx, tenant: nat, e: nat, u: nat)
    requires Linked(s) && Staffed(s) && HasExt(s, tenant, e) && HasUser(s, tenant, u)
    ensures var s' := ReassignEmployee(s, tenant, e, u).0;
            && s'.exts[e].user == Some(u)
            && (forall f: nat :: Holds(s', f, u) ==> f == e)
            && (s.exts[e].primary.Some? ==>
                  && s'.exts[e].primary == s.exts[e].primary && s.exts[e].primary.value < |s'.phones|
                  && s'.phones[s.exts[e].primary.value].user == Some(u))
  {
    TakeOver(s, tenant, e, u, s.exts[e].active);
    var released := ReleaseEmployee(s, tenant, u, Some(e));
    assert released.exts[e].(user := Some(u), active := s.exts[e].active) == released.exts[e].(user := Some(u));
    assert e !in HeldBy(s, tenant, u, Some(e));
    assert ExtLinked(s, e);
  }
}
