/**
 Who owns which number: the two-way links between phone numbers, extensions and employees
 (lib/extensionOwnership.js, lib/extensions.js, lib/adminDidManagement.js).
 */
module Ownership {
  import opened Options

  /** Rows are numbered in the order of their creation; no operation here deletes one. */
  datatype Phone = Phone(tenant: Option<nat>, ext: Option<nat>, user: Option<nat>, active: bool)

  datatype Extension = Extension(tenant: nat, user: Option<nat>, primary: Option<nat>, active: bool)

  /** The tables, with the organizations there are and the organization of each user. */
  datatype Pbx = Pbx(tenants: set<nat>, users: map<nat, nat>, phones: seq<Phone>, exts: seq<Extension>)

  datatype Reply = Done | Refused(error: Error)

  datatype Error =
    | ExtensionNotFound
    | PhoneNotFound
    | NumberTaken
    | UserNotInTenant
    | NumberClash
    | TenantNotFound

  datatype Op =
    | AddNumber(owner: Option<nat>)
    | SetPrimary(tenant: nat, ext: nat, number: Option<nat>, allowMove: bool)
    | Create(tenant: nat, employee: Option<nat>, number: Option<nat>, clash: bool)
    | Update(tenant: nat, ext: nat, change: Option<Option<nat>>, status: Option<bool>)
    | Reassign(tenant: nat, ext: nat, user: nat)
    | Disable(tenant: nat, ext: nat)
    | AssignTenant(phone: nat, tenant: nat)
    | UnassignTenant(phone: nat)
    | UnassignAll(tenant: nat)
    | ReleaseNumber(phone: nat)

  // ---- rows ----

  predicate HasExt(s: Pbx, tenant: nat, e: nat) {
    e < |s.exts| && s.exts[e].tenant == tenant
  }

  predicate HasPhone(s: Pbx, tenant: nat, p: nat) {
    p < |s.phones| && s.phones[p].tenant == Some(tenant)
  }

  predicate HasUser(s: Pbx, tenant: nat, u: nat) {
    u in s.users && s.users[u] == tenant
  }

  function WithPhone(s: Pbx, p: nat, row: Phone): Pbx
    requires p < |s.phones|
  {
    s.(phones := s.phones[p := row])
  }

  function WithExt(s: Pbx, e: nat, row: Extension): Pbx
    requires e < |s.exts|
  {
    s.(exts := s.exts[e := row])
  }

  // ---- the invariant ----

  predicate PhoneLinked(s: Pbx, p: nat)
    requires p < |s.phones|
  {
    s.phones[p].ext.Some? ==>
      var e := s.phones[p].ext.value;
      e < |s.exts| && s.exts[e].primary == Some(p) && s.phones[p].tenant == Some(s.exts[e].tenant)
  }

  predicate ExtLinked(s: Pbx, e: nat)
    requires e < |s.exts|
  {
    s.exts[e].primary.Some? ==>
      var p := s.exts[e].primary.value;
      p < |s.phones| && s.phones[p].ext == Some(e)
  }

  /** The two pointers are each other's inverse, within one organization. */
  ghost predicate Linked(s: Pbx) {
    && (forall p: nat :: p < |s.phones| ==> PhoneLinked(s, p))
    && (forall e: nat :: e < |s.exts| ==> ExtLinked(s, e))
  }

  /** Employees hold extensions of their own organization. */
  ghost predicate Staffed(s: Pbx) {
    forall e: nat :: e < |s.exts| && s.exts[e].user.Some? ==> HasUser(s, s.exts[e].tenant, s.exts[e].user.value)
  }

  predicate Holds(s: Pbx, e: nat, u: nat) {
    e < |s.exts| && s.exts[e].active && s.exts[e].user == Some(u)
  }

  /** No employee holds two active extensions. */
  ghost predicate OneEach(s: Pbx) {
    forall e: nat, f: nat, u: nat :: Holds(s, e, u) && Holds(s, f, u) ==> e == f
  }

  // ---- what the operations do ----

  /** Break the link of an extension, if it has one. */
  function Unlink(s: Pbx, e: nat): Pbx
    requires e < |s.exts|
  {
    if s.exts[e].primary.Some? && s.exts[e].primary.value < |s.phones| then
      var p := s.exts[e].primary.value;
      WithExt(WithPhone(s, p, s.phones[p].(ext := None)), e, s.exts[e].(primary := None))
    else s
  }

  function Link(s: Pbx, e: nat, p: nat): Pbx
    requires e < |s.exts| && p < |s.phones|
  {
    WithExt(WithPhone(s, p, s.phones[p].(ext := Some(e), user := OrElse(s.exts[e].user, s.phones[p].user))),
            e, s.exts[e].(primary := Some(p)))
  }

  predicate Elsewhere(s: Pbx, e: nat, p: nat)
    requires p < |s.phones|
  {
    s.phones[p].ext.Some? && s.phones[p].ext.value != e
  }

  /** The extension that had the number, if it is another, loses it. */
  function Vacated(s: Pbx, e: nat, p: nat): Pbx
    requires p < |s.phones|
  {
    if Elsewhere(s, e, p) && s.phones[p].ext.value < |s.exts| then Unlink(s, s.phones[p].ext.value) else s
  }

  function SetPrimaryDid(s: Pbx, tenant: nat, e: nat, number: Option<nat>, allowMove: bool): (Pbx, Reply) {
    if !HasExt(s, tenant, e) then (s, Refused(ExtensionNotFound))
    else if number.None? then (Unlink(s, e), Done)
    else
      var p := number.value;
      if s.exts[e].primary == Some(p) then (s, Done)
      else if !HasPhone(s, tenant, p) then (s, Refused(PhoneNotFound))
      else if Elsewhere(s, e, p) && !allowMove then (s, Refused(NumberTaken))
      else
        (Link(Unlink(Vacated(s, e, p), e), e, p), Done)
  }

  /** The active extensions of an employee, but for one. */
  function HeldBy(s: Pbx, tenant: nat, u: nat, except: Option<nat>): set<nat> {
    set e: nat | e < |s.exts| && s.exts[e].tenant == tenant && Holds(s, e, u) && Some(e) != except
  }

  function FreedPhone(row: Phone, gone: set<nat>, u: nat): Phone {
    if row.ext.Some? && row.ext.value in gone then
      row.(ext := None, user := if row.user == Some(u) then None else row.user)
    else row
  }

  function FreedExt(row: Extension, e: nat, gone: set<nat>): Extension {
    if e in gone then row.(user := None, primary := None) else row
  }

  /** The employee leaves these extensions, and their numbers leave with neither. */
  function Freed(s: Pbx, gone: set<nat>, u: nat): Pbx {
    s.(phones := seq(|s.phones|, p requires 0 <= p < |s.phones| => FreedPhone(s.phones[p], gone, u)),
       exts := seq(|s.exts|, e requires 0 <= e < |s.exts| => FreedExt(s.exts[e], e, gone)))
  }

  function ReleaseEmployee(s: Pbx, tenant: nat, u: nat, except: Option<nat>): Pbx {
    Freed(s, HeldBy(s, tenant, u, except), u)
  }

  predicate Spare(row: Phone, tenant: nat, u: nat) {
    row.tenant == Some(tenant) && row.user == Some(u) && row.ext == None
  }

  /** The oldest unlinked number of an employee. */
  function FirstSpare(phones: seq<Phone>, tenant: nat, u: nat): (r: Option<nat>)
    ensures r.Some? ==> r.value < |phones| && Spare(phones[r.value], tenant, u)
    ensures r.Some? ==> forall p :: 0 <= p < r.value ==> !Spare(phones[p], tenant, u)
    ensures r.None? ==> forall p :: 0 <= p < |phones| ==> !Spare(phones[p], tenant, u)
  {
    if phones == [] then None
    else
      var n := |phones| - 1;
      var before := FirstSpare(phones[..n], tenant, u);
      if before.Some? then before else if Spare(phones[n], tenant, u) then Some(n) else None
  }

  function SyncNumbers(s: Pbx, tenant: nat, e: nat, target: Option<nat>): Pbx
    requires e < |s.exts|
  {
    if target.None? || !HasUser(s, tenant, target.value) then s
    else if s.exts[e].primary.Some? && s.exts[e].primary.value < |s.phones| then
      var p := s.exts[e].primary.value;
      WithPhone(s, p, s.phones[p].(user := target))
    else
      var spare := FirstSpare(s.phones, tenant, target.value);
      if spare.None? then s else SetPrimaryDid(s, tenant, e, spare, false).0
  }

  /** A new extension; `clash` is the table refusing its number, after the release has happened. */
  function CreateExtension(s: Pbx, tenant: nat, employee: Option<nat>, number: Option<nat>, clash: bool): (Pbx, Reply) {
    if employee.Some? && !HasUser(s, tenant, employee.value) then (s, Refused(UserNotInTenant))
    else
      var released := if employee.Some? then ReleaseEmployee(s, tenant, employee.value, None) else s;
      if clash then (released, Refused(NumberClash))
      else
        var e := |released.exts|;
        var added := released.(exts := released.exts + [Extension(tenant, employee, None, true)]);
        var synced := SyncNumbers(added, tenant, e, employee);
        if number.Some? then SetPrimaryDid(synced, tenant, e, number, false) else (synced, Done)
  }

  function UpdateExtension(s: Pbx, tenant: nat, e: nat, change: Option<Option<nat>>, status: Option<bool>): (Pbx, Reply) {
    if !HasExt(s, tenant, e) then (s, Refused(ExtensionNotFound))
    else if change.Some? && change.value.Some? && !HasUser(s, tenant, change.value.value) then (s, Refused(UserNotInTenant))
    else
      var released :=
        if change.Some? && change.value.Some? then ReleaseEmployee(s, tenant, change.value.value, Some(e)) else s;
      var row := released.exts[e];
      var updated := WithExt(released, e,
                             row.(user := if change.Some? then change.value else row.user,
                                  active := if status.Some? then status.value else row.active));
      (if change.Some? then SyncNumbers(updated, tenant, e, change.value) else updated, Done)
  }

  function ReassignEmployee(s: Pbx, tenant: nat, e: nat, u: nat): (Pbx, Reply) {
    if !HasExt(s, tenant, e) then (s, Refused(ExtensionNotFound))
    else if !HasUser(s, tenant, u) then (s, Refused(UserNotInTenant))
    else
      var released := ReleaseEmployee(s, tenant, u, Some(e));
      var taken := WithExt(released, e, released.exts[e].(user := Some(u)));
      (SyncNumbers(taken, tenant, e, Some(u)), Done)
  }

  function DisableExtension(s: Pbx, tenant: nat, e: nat): (Pbx, Reply) {
    if HasExt(s, tenant, e) then (WithExt(s, e, s.exts[e].(active := false)), Done)
    else (s, Refused(ExtensionNotFound))
  }

  /** `clearPhoneTenantLinks` */
  function ClearLinks(s: Pbx, p: nat): Pbx
    requires p < |s.phones|
  {
    var cleared := WithPhone(s, p, s.phones[p].(ext := None, user := None));
    if s.phones[p].ext.Some? && s.phones[p].ext.value < |s.exts| then
      WithExt(cleared, s.phones[p].ext.value, s.exts[s.phones[p].ext.value].(primary := None))
    else cleared
  }

  function AssignToTenant(s: Pbx, p: nat, tenant: nat): (Pbx, Reply) {
    if tenant !in s.tenants then (s, Refused(TenantNotFound))
    else if p >= |s.phones| then (s, Refused(PhoneNotFound))
    else
      var previous := s.phones[p].tenant;
      var cleared := if previous.Some? && previous != Some(tenant) then ClearLinks(s, p) else s;
      (WithPhone(cleared, p, cleared.phones[p].(tenant := Some(tenant), active := true)), Done)
  }

  function Returned(s: Pbx, p: nat): Pbx
    requires p < |s.phones|
  {
    var cleared := ClearLinks(s, p);
    WithPhone(cleared, p, cleared.phones[p].(tenant := None, active := true))
  }

  function UnassignFromTenant(s: Pbx, p: nat): (Pbx, Reply) {
    if p >= |s.phones| then (s, Refused(PhoneNotFound))
    else if s.phones[p].tenant.None? then (s, Done)
    else (Returned(s, p), Done)
  }

  /** The first n numbers, as far as they are the tenant's, go back to the inventory. */
  function UnassignedUpTo(s: Pbx, tenant: nat, n: nat): (r: Pbx)
    requires n <= |s.phones|
    ensures |r.phones| == |s.phones|
  {
    if n == 0 then s
    else
      var r := UnassignedUpTo(s, tenant, n - 1);
      if s.phones[n - 1].tenant == Some(tenant) then Returned(r, n - 1) else r
  }

  function Perform(s: Pbx, op: Op): (Pbx, Reply) {
    match op
    case AddNumber(owner) => (s.(phones := s.phones + [Phone(owner, None, None, true)]), Done)
    case SetPrimary(tenant, e, number, allowMove) => SetPrimaryDid(s, tenant, e, number, allowMove)
    case Create(tenant, employee, number, clash) => CreateExtension(s, tenant, employee, number, clash)
    case Update(tenant, e, change, status) => UpdateExtension(s, tenant, e, change, status)
    case Reassign(tenant, e, u) => ReassignEmployee(s, tenant, e, u)
    case Disable(tenant, e) => DisableExtension(s, tenant, e)
    case AssignTenant(p, tenant) => AssignToTenant(s, p, tenant)
    case UnassignTenant(p) => UnassignFromTenant(s, p)
    case UnassignAll(tenant) => (UnassignedUpTo(s, tenant, |s.phones|), Done)
    case ReleaseNumber(p) =>
      if p < |s.phones| then (WithPhone(s, p, s.phones[p].(active := false, user := None)), Done)
      else (s, Refused(PhoneNotFound))
  }

  function Run(s: Pbx, ops: seq<Op>): Pbx {
    if ops == [] then s else Perform(Run(s, ops[..|ops| - 1]), ops[|ops| - 1]).0
  }

  function NewPbx(tenants: set<nat>, users: map<nat, nat>): Pbx {
    Pbx(tenants, users, [], [])
  }
}
