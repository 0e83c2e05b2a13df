/**
 What each ownership operation does to every row, told in the columns of the tables alone: who
 leaves which extension, which number comes along, and what stays as it was.
 */
module OwnershipEffects {
  import opened Options
  import opened Ownership
  import opened OwnershipResults

  // ---- the rows ----

  /** The extensions an employee leaves when she is given another: her active ones but for it. */
  predicate Leaves(s: Pbx, e: nat, tenant: nat, u: nat, except: Option<nat>) {
    e < |s.exts| && s.exts[e].tenant == tenant && s.exts[e].active && s.exts[e].user == Some(u) && Some(e) != except
  }

  /** She and their numbers leave those extensions, and the numbers that were hers are nobody's. */
  ghost predicate Released(s: Pbx, r: Pbx, tenant: nat, u: nat, except: Option<nat>) {
    && r.tenants == s.tenants && r.users == s.users && |r.phones| == |s.phones| && |r.exts| == |s.exts|
    && (forall e: nat :: e < |s.exts| ==>
          r.exts[e] == if Leaves(s, e, tenant, u, except) then s.exts[e].(user := None, primary := None) else s.exts[e])
    && (forall p: nat :: p < |s.phones| ==>
          r.phones[p] == if s.phones[p].ext.Some? && Leaves(s, s.phones[p].ext.value, tenant, u, except)
                         then s.phones[p].(ext := None, user := if s.phones[p].user == Some(u) then None else s.phones[p].user)
                         else s.phones[p])
  }

  /** The tables with one phone row, or also one extension row, replaced. */
  predicate OnlyPhone(s: Pbx, s': Pbx, p: nat, row: Phone) {
    p < |s.phones| && s' == s.(phones := s.phones[p := row])
  }

  predicate OnlyRows(s: Pbx, s': Pbx, p: nat, phone: Phone, e: nat, ext: Extension) {
    p < |s.phones| && e < |s.exts| && s' == s.(phones := s.phones[p := phone], exts := s.exts[e := ext])
  }

  /** A number of the employee in her organization that no extension has. */
  predicate Idle(row: Phone, tenant: nat, u: nat) {
    row.tenant == Some(tenant) && row.user == Some(u) && row.ext.None?
  }

  ghost predicate Oldest(s: Pbx, p: nat, tenant: nat, u: nat) {
    p < |s.phones| && Idle(s.phones[p], tenant, u) && forall q: nat :: q < p ==> !Idle(s.phones[q], tenant, u)
  }

  /**
   Extension e now is employee u's: the number it has becomes hers; if it has none, it and the
   oldest of her idle numbers point at each other, and no other link changes; if she has no idle
   number, nothing changes.
   */
  ghost predicate Adopts(r: Pbx, s': Pbx, tenant: nat, e: nat, u: nat)
    requires e < |r.exts|
  {
    && (r.exts[e].primary.Some? ==>
          var p := r.exts[e].primary.value;
          p < |r.phones| && OnlyPhone(r, s', p, r.phones[p].(user := Some(u))))
    && (r.exts[e].primary.None? ==>
          && (forall p: nat :: Oldest(r, p, tenant, u) ==>
                OnlyRows(r, s', p, r.phones[p].(ext := Some(e)), e, r.exts[e].(primary := Some(p))))
          && ((forall p: nat :: p < |r.phones| ==> !Idle(r.phones[p], tenant, u)) ==> s' == r))
  }

  // ---- the steps ----

  lemma ReleasesRows(s: Pbx, r: Pbx, tenant: nat, u: nat, except: Option<nat>)
    requires Released(s, r, tenant, u, except)
    ensures ReleaseEmployee(s, tenant, u, except) == r
  {
    var s' := ReleaseEmployee(s, tenant, u, except);
    assert s'.exts == r.exts && s'.phones == r.phones;
  }

  lemma SyncAdopts(r: Pbx, tenant: nat, e: nat, u: nat)
    requires Linked(r) && HasExt(r, tenant, e) && r.exts[e].user == Some(u) && HasUser(r, tenant, u)
    ensures Adopts(r, SyncNumbers(r, tenant, e, Some(u)), tenant, e, u)
  {
    assert ExtLinked(r, e);
    if r.exts[e].primary.None? {
      var spare := FirstSpare(r.phones, tenant, u);
      if spare.Some? {
        var p := spare.value;
        assert r.phones[p].(ext := Some(e), user := Some(u)) == r.phones[p].(ext := Some(e));
        forall q: nat | Oldest(r, q, tenant, u) ensures q == p {
          assert Spare(r.phones[q], tenant, u) && Idle(r.phones[p], tenant, u);
        }
      }
    }
  }

  // ---- main results ----

  /**
   A new extension: refused for an employee of another organization; otherwise its employee leaves
   her other extensions, which a clash of extension numbers does not undo, and it adopts a number.
   */
  lemma CreateEffect(s: Pbx, r: Pbx, tenant: nat, employee: Option<nat>, clash: bool)
    requires Linked(s) && (if employee.Some? then Released(s, r, tenant, employee.value, None) else r == s)
    ensures var (s', reply) := CreateExtension(s, tenant, employee, None, clash);
            var refused := employee.Some? && !(employee.value in s.users && s.users[employee.value] == tenant);
            var added := r.(exts := r.exts + [Extension(tenant, employee, None, true)]);
            && (reply == Refused(UserNotInTenant) <==> refused)
            && (reply == Refused(NumberClash) <==> !refused && clash)
            && (reply == Done <==> !refused && !clash)
            && (refused ==> s' == s)
            && (reply == Refused(NumberClash) ==> s' == r)
            && (reply == Done && employee.None? ==> s' == added)
            && (reply == Done && employee.Some? ==> Adopts(added, s', tenant, |r.exts|, employee.value))
  {
    if employee.Some? && HasUser(s, tenant, employee.value) {
      ReleasesRows(s, r, tenant, employee.value, None);
      ReleaseLinked(s, tenant, employee.value, None);
      if !clash {
        var added := r.(exts := r.exts + [Extension(tenant, employee, None, true)]);
        AddedLinked(r, Extension(tenant, employee, None, true));
        SyncAdopts(added, tenant, |r.exts|, employee.value);
      }
    }
  }

  /** A number asked for on creation is assigned afterwards; if that is refused the extension stays. */
  lemma CreateWithNumber(s: Pbx, tenant: nat, employee: Option<nat>, n: nat)
    requires Linked(s)
    ensures var (s1, first) := CreateExtension(s, tenant, employee, None, false);
            var (s', reply) := CreateExtension(s, tenant, employee, Some(n), false);
            var e := |s.exts|;
            && (first != Done ==> s' == s1 && reply == first)
            && (first == Done ==>
                  && |s1.exts| == e + 1
                  && (reply == Done <==>
                        n < |s1.phones| && s1.phones[n].tenant == Some(tenant)
                        && (s1.phones[n].ext.None? || s1.phones[n].ext == Some(e)))
                  && (reply == Done ==> |s'.exts| == e + 1 && s'.exts[e].primary == Some(n))
                  && (reply != Done ==> s' == s1))
  {
    CreateLinked(s, tenant, employee, None, false);
    var (s1, first) := CreateExtension(s, tenant, employee, None, false);
    if first == Done {
      Grown(s, tenant, employee);
      assert ExtLinked(s1, |s.exts|);
      SetPrimaryExactly(s1, tenant, |s.exts|, Some(n), false);
      SetPrimaryEffect(s1, tenant, |s.exts|, n, false);
      SetPrimaryStaff(s1, tenant, |s.exts|, Some(n), false);
    }
  }

  lemma Grown(s: Pbx, tenant: nat, employee: Option<nat>)
    ensures var (s1, first) := CreateExtension(s, tenant, employee, None, false);
            first == Done ==> |s1.exts| == |s.exts| + 1 && s1.exts[|s.exts|].tenant == tenant
  {
    if employee.None? || HasUser(s, tenant, employee.value) {
      var released := if employee.Some? then ReleaseEmployee(s, tenant, employee.value, None) else s;
      SyncStaff(released.(exts := released.exts + [Extension(tenant, employee, None, true)]), tenant, |s.exts|, employee);
    }
  }

  /**
   An update: without an employee in it only the status changes; one that takes the employee away
   changes no number; a new one leaves her other extensions and brings a number along.
   */
  lemma UpdateEffect(s: Pbx, r: Pbx, tenant: nat, e: nat, change: Option<Option<nat>>, status: Option<bool>)
    requires Linked(s)
    requires if change.Some? && change.value.Some? then Released(s, r, tenant, change.value.value, Some(e)) else r == s
    ensures var (s', reply) := UpdateExtension(s, tenant, e, change, status);
            var found := e < |s.exts| && s.exts[e].tenant == tenant;
            var stranger := change.Some? && change.value.Some?
                            && !(change.value.value in s.users && s.users[change.value.value] == tenant);
            && (reply == Refused(ExtensionNotFound) <==> !found)
            && (reply == Refused(UserNotInTenant) <==> found && stranger)
            && (reply == Done <==> found && !stranger)
            && (reply != Done ==> s' == s)
            && (reply == Done ==>
                  && e < |r.exts|
                  && var row := r.exts[e].(active := if status.Some? then status.value else s.exts[e].active,
                                           user := if change.Some? then change.value else s.exts[e].user);
                     var r' := r.(exts := r.exts[e := row]);
                     if change.Some? && change.value.Some? then Adopts(r', s', tenant, e, change.value.value) else s' == r')
  {
    if HasExt(s, tenant, e) && change.Some? && change.value.Some? && HasUser(s, tenant, change.value.value) {
      var u := change.value.value;
      ReleasesRows(s, r, tenant, u, Some(e));
      ReleaseLinked(s, tenant, u, Some(e));
      var row := r.exts[e].(active := if status.Some? then status.value else s.exts[e].active, user := Some(u));
      assert r.exts[e] == s.exts[e];
      ExtRowLinked(r, e, row);
      SyncAdopts(WithExt(r, e, row), tenant, e, u);
    }
  }

  /** A reassignment: the employee leaves her other extensions for this one and brings a number along. */
  lemma ReassignEffect(s: Pbx, r: Pbx, tenant: nat, e: nat, u: nat)
    requires Linked(s) && Released(s, r, tenant, u, Some(e))
    ensures var (s', reply) := ReassignEmployee(s, tenant, e, u);
            var found, hers := e < |s.exts| && s.exts[e].tenant == tenant, u in s.users && s.users[u] == tenant;
            && (reply == Refused(ExtensionNotFound) <==> !found)
            && (reply == Refused(UserNotInTenant) <==> found && !hers)
            && (reply == Done <==> found && hers)
            && (reply != Done ==> s' == s)
            && (reply == Done ==>
                  Adopts(r.(exts := r.exts[e := s.exts[e].(user := Some(u))]), s', tenant, e, u))
  {
    if HasExt(s, tenant, e) && HasUser(s, tenant, u) {
      ReleasesRows(s, r, tenant, u, Some(e));
      ReleaseLinked(s, tenant, u, Some(e));
      assert r.exts[e] == s.exts[e];
      ExtRowLinked(r, e, r.exts[e].(user := Some(u)));
      SyncAdopts(WithExt(r, e, r.exts[e].(user := Some(u))), tenant, e, u);
    }
  }

  /** When an assignment is refused, and what becomes of the columns that are no links. */
  lemma SetPrimaryExactly(s: Pbx, tenant: nat, e: nat, number: Option<nat>, allowMove: bool)
    requires Linked(s)
    ensures var (s', reply) := SetPrimaryDid(s, tenant, e, number, allowMove);
            var found := e < |s.exts| && s.exts[e].tenant == tenant;
            var same := found && number.Some? && s.exts[e].primary == number;
            var mine := number.Some? && number.value < |s.phones| && s.phones[number.value].tenant == Some(tenant);
            && (reply == Refused(ExtensionNotFound) <==> !found)
            && (reply == Refused(PhoneNotFound) <==> found && number.Some? && !mine)
            && (reply == Refused(NumberTaken) <==>
                  found && mine && !allowMove && s.phones[number.value].ext.Some? && s.phones[number.value].ext != Some(e))
            && (reply == Done || reply in {Refused(ExtensionNotFound), Refused(PhoneNotFound), Refused(NumberTaken)})
            && |s'.phones| == |s.phones|
            && (forall q: nat :: q < |s.phones| ==>
                  s'.phones[q] == s.phones[q].(
                    ext := s'.phones[q].ext,
                    user := if reply == Done && Some(q) == number && !same && s.exts[e].user.Some? then s.exts[e].user
                            else s.phones[q].user))
            && (reply == Done && number.None? ==>
                  forall q: nat :: q < |s.phones| ==>
                    s'.phones[q].ext == if s.phones[q].ext == Some(e) then None else s.phones[q].ext)
            && (reply == Done && number.None? ==>
                  forall f: nat :: f < |s.exts| ==>
                    f < |s'.exts| && s'.exts[f].primary == if f == e then None else s.exts[f].primary)
  {
    if HasExt(s, tenant, e) {
      assert ExtLinked(s, e);
      if number.None? {
        UnlinkFrees(s, e);
      } else if s.exts[e].primary == number {
        assert PhoneLinked(s, number.value);
      } else if HasPhone(s, tenant, number.value) {
        MoveColumns(s, e, number.value);
      }
    }
  }

  lemma MoveColumns(s: Pbx, e: nat, p: nat)
    requires e < |s.exts| && p < |s.phones|
    ensures var s' := Link(Unlink(Vacated(s, e, p), e), e, p);
            && |s'.phones| == |s.phones|
            && forall q: nat :: q < |s.phones| ==>
                 s'.phones[q] == s.phones[q].(
                   ext := s'.phones[q].ext,
                   user := if q == p && s.exts[e].user.Some? then s.exts[e].user else s.phones[q].user)
  {
    var moved := Vacated(s, e, p);
    assert |moved.phones| == |s.phones| && |moved.exts| == |s.exts| && moved.exts[e].user == s.exts[e].user;
    assert forall q: nat :: q < |s.phones| ==> moved.phones[q] == s.phones[q].(ext := moved.phones[q].ext);
  }

  /** A disabled extension keeps everything but its status; a released number keeps its link. */
  lemma StatusEffect(s: Pbx, tenant: nat, e: nat, p: nat)
    ensures var (s', reply) := Perform(s, Disable(tenant, e));
            if e < |s.exts| && s.exts[e].tenant == tenant
            then reply == Done && s' == s.(exts := s.exts[e := s.exts[e].(active := false)])
            else reply == Refused(ExtensionNotFound) && s' == s
    ensures var (s', reply) := Perform(s, ReleaseNumber(p));
            if p < |s.phones|
            then reply == Done && OnlyPhone(s, s', p, s.phones[p].(active := false, user := None))
            else reply == Refused(PhoneNotFound) && s' == s
  {
  }

  /**
   A number given to an organization becomes active there; coming from another one it first loses
   its extension and its employee.
   */
  lemma AssignEffect(s: Pbx, p: nat, tenant: nat)
    requires Linked(s)
    ensures var (s', reply) := AssignToTenant(s, p, tenant);
            && (reply == Refused(TenantNotFound) <==> tenant !in s.tenants)
            && (reply == Refused(PhoneNotFound) <==> tenant in s.tenants && p >= |s.phones|)
            && (reply == Done <==> tenant in s.tenants && p < |s.phones|)
            && (reply != Done ==> s' == s)
            && (reply == Done ==>
                  var foreign := s.phones[p].tenant.Some? && s.phones[p].tenant != Some(tenant);
                  && s'.phones == s.phones[p := if foreign then Phone(Some(tenant), None, None, true)
                                                else s.phones[p].(tenant := Some(tenant), active := true)]
                  && Dropped(s, s', p, foreign))
  {
    if p < |s.phones| {
      ClearedRows(s, p);
    }
  }

  /** Exactly the extension of this number loses it, if it is to go. */
  ghost predicate Dropped(s: Pbx, s': Pbx, p: nat, gone: bool) {
    && s'.tenants == s.tenants && s'.users == s.users && |s'.exts| == |s.exts|
    && forall e: nat :: e < |s.exts| ==>
         s'.exts[e] == if gone && s.exts[e].primary == Some(p) then s.exts[e].(primary := None) else s.exts[e]
  }

  lemma ClearedRows(s: Pbx, p: nat)
    requires Linked(s) && p < |s.phones|
    ensures ClearLinks(s, p).phones == s.phones[p := s.phones[p].(ext := None, user := None)]
    ensures Dropped(s, ClearLinks(s, p), p, true)
  {
    assert PhoneLinked(s, p);
    forall e: nat | e < |s.exts| && s.exts[e].primary == Some(p) ensures s.phones[p].ext == Some(e) {
      assert ExtLinked(s, e);
    }
  }

  /** A number taken from its organization is in the inventory, active, with no extension or employee. */
  lemma UnassignEffect(s: Pbx, p: nat)
    requires Linked(s)
    ensures var (s', reply) := UnassignFromTenant(s, p);
            && (reply == Done <==> p < |s.phones|)
            && (reply != Done ==> reply == Refused(PhoneNotFound) && s' == s)
            && (reply == Done && s.phones[p].tenant.None? ==> s' == s)
            && (reply == Done && s.phones[p].tenant.Some? ==>
                  s'.phones == s.phones[p := Phone(None, None, None, true)] && Dropped(s, s', p, true))
  {
    if p < |s.phones| {
      ClearedRows(s, p);
    }
  }

  /** The numbers below n that were the organization's. */
  predicate Theirs(s: Pbx, tenant: nat, n: nat, p: nat) {
    p < n && p < |s.phones| && s.phones[p].tenant == Some(tenant)
  }

  /** These are back in the inventory, and no extension has one of them; nothing else has changed. */
  ghost predicate TakenBack(s: Pbx, s': Pbx, tenant: nat, n: nat) {
    && s'.tenants == s.tenants && s'.users == s.users && |s'.phones| == |s.phones| && |s'.exts| == |s.exts|
    && (forall p: nat :: p < |s.phones| ==>
          s'.phones[p] == if Theirs(s, tenant, n, p) then Phone(None, None, None, true) else s.phones[p])
    && (forall e: nat :: e < |s.exts| ==>
          s'.exts[e] == if s.exts[e].primary.Some? && Theirs(s, tenant, n, s.exts[e].primary.value)
                        then s.exts[e].(primary := None) else s.exts[e])
  }

  lemma {:induction false} UnassignAllEffect(s: Pbx, tenant: nat, n: nat)
    requires Linked(s) && n <= |s.phones|
    ensures TakenBack(s, UnassignedUpTo(s, tenant, n), tenant, n)
  {
    if n > 0 {
      UnassignAllEffect(s, tenant, n - 1);
      UnassignedLinked(s, tenant, n - 1);
      var r := UnassignedUpTo(s, tenant, n - 1);
      ClearedRows(r, n - 1);
      if s.phones[n - 1].tenant == Some(tenant) {
        OneMore(s, r, UnassignedUpTo(s, tenant, n), tenant, n);
      }
    }
  }

  lemma OneMore(s: Pbx, r: Pbx, s': Pbx, tenant: nat, n: nat)
    requires 0 < n <= |s.phones| && s.phones[n - 1].tenant == Some(tenant) && TakenBack(s, r, tenant, n - 1)
    requires s'.phones == r.phones[n - 1 := Phone(None, None, None, true)] && Dropped(r, s', n - 1, true)
    ensures TakenBack(s, s', tenant, n)
  {
  }
}
