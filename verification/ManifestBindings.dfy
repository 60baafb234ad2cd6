// Role rebinding under arbitrary failures.
module ManifestBindings {
  import opened Prelude
  import opened ManifestTypes
  import opened Tenant
  import opened ManifestPlan
  import opened ManifestApply
  import opened ManifestNetwork

  // Only the bindings of one subject may differ.
  ghost predicate OnlySubject(t: TenantState, t': TenantState, s: Subject)
  {
    && t' == t.(bindings := t'.bindings)
    && forall key: (Subject, Id) :: key.0 != s ==>
         && (key in t'.bindings <==> key in t.bindings)
         && (key in t.bindings ==> t'.bindings[key] == t.bindings[key])
  }

  // Only the binding of one role to one subject may differ.
  ghost predicate OnlyBinding(t: TenantState, t': TenantState, s: Subject, role: Id)
  {
    && t' == t.(bindings := t'.bindings)
    && forall key: (Subject, Id) :: key != (s, role) ==>
         && (key in t'.bindings <==> key in t.bindings)
         && (key in t.bindings ==> t'.bindings[key] == t.bindings[key])
  }

  function Bound(t: TenantState, s: Subject, role: Id): Option<Assignment>
  {
    if (s, role) in t.bindings then Some(t.bindings[(s, role)]) else None
  }

  // The previous binding as a restore writes it back: `inherit: true` is never sent, and an
  // empty scope list is left out.
  function Restored(a: Assignment): Assignment
  {
    Assignment(a.resource, WireInherit(a.Narrowed()), WireScope(a.scope))
  }

  // A failed rebind reports where it left the subject: holding the previous binding exactly
  // when the restore succeeded, holding no binding of that role otherwise.
  ghost predicate ReportIsTrue(t: TenantState, t': TenantState, s: Subject, f: Failure)
  {
    f.RebindFailure? ==>
      && Bound(t, s, f.role).Some?
      && f.resource == Bound(t, s, f.role).value.resource
      && (f.restored <==> f.restoreError.None?)
      && Bound(t', s, f.role) == (if f.restored then Some(Restored(Bound(t, s, f.role).value)) else None)
  }

  lemma RebindOutcome(w: World, s: Subject, role: Id, resource: Option<Id>, narrowed: bool, existing: Assignment)
    requires Bound(w.tenant, s, role) == Some(existing)
    ensures var (w', f) := Rebind(w, s, role, resource, narrowed, existing);
            && OnlyBinding(w.tenant, w'.tenant, s, role)
            && (f.None? ==> Bound(w'.tenant, s, role) ==
                            Some(Assignment(resource, WireInherit(narrowed), WireScope(existing.scope))))
            && (f.Some? && !f.value.RebindFailure? ==> w'.tenant == w.tenant)
            && (f.Some? ==> ReportIsTrue(w.tenant, w'.tenant, s, f.value))
            && (f.Some? && f.value.RebindFailure? ==> f.value.role == role)
            && w.trace <= w'.trace && w'.faults == w.faults
  {
    var (w1, removed) := Send(w, Unassign(s, role, existing.resource));
    if removed.Accepted? {
      assert Bound(w1.tenant, s, role).None?;
      var (w2, bound) := Send(w1, AssignRequest(s, role, resource, narrowed, existing.scope));
      if !bound.Accepted? {
        assert Bound(w2.tenant, s, role).None?;
      }
    }
  }

  // What the reconciler believes of one declared role is what the server holds.
  ghost predicate CurrentIsTrue(m: Manifest, resolved: ResolvedIds, t: TenantState, s: Subject,
                                current: map<string, Assignment>, b: RoleBinding)
  {
    var role := FindKeyOfKind(m, b.role, Role);
    role.Some? && (Role, b.role) in resolved ==>
      Bound(t, s, resolved[(Role, b.role)]) ==
      (if role.value.name in current then Some(current[role.value.name]) else None)
  }

  function WantedResource(resolved: ResolvedIds, b: RoleBinding): Option<Id>
  {
    if b.resource.Some? && (Resource, b.resource.value) in resolved
    then Some(resolved[(Resource, b.resource.value)]) else None
  }

  predicate BindingResolved(resolved: ResolvedIds, b: RoleBinding)
  {
    (Role, b.role) in resolved && (b.resource.Some? ==> (Resource, b.resource.value) in resolved)
  }

  // The binding is in force, by the ids apply has resolved.
  ghost predicate BindingIn(resolved: ResolvedIds, t: TenantState, s: Subject, b: RoleBinding)
  {
    && BindingResolved(resolved, b)
    && var now := Bound(t, s, resolved[(Role, b.role)]);
       now.Some? && Satisfied(now.value, WantedResource(resolved, b), b.Narrowed())
  }

  // What one reconciled binding must look like afterwards.
  ghost predicate BindingDone(resolved: ResolvedIds, t: TenantState, t': TenantState, s: Subject, b: RoleBinding)
  {
    && BindingIn(resolved, t', s, b)
    && var roleId := resolved[(Role, b.role)];
       var before, after := Bound(t, s, roleId), Bound(t', s, roleId);
       // A binding that already matched is not touched; a changed one keeps its tenant scope.
       && (before.Some? && Satisfied(before.value, WantedResource(resolved, b), b.Narrowed()) ==> after == before)
       && (before.Some? ==> WireScope(after.value.scope) == WireScope(before.value.scope))
       && (before.None? ==> after.value.scope.None?)
  }

  lemma ReconcileOneOutcome(m: Manifest, resolved: ResolvedIds, w: World, s: Subject,
                            current: map<string, Assignment>, b: RoleBinding)
    requires CurrentIsTrue(m, resolved, w.tenant, s, current, b)
    requires FindKeyOfKind(m, b.role, Role).Some?
    ensures var (w', f) := ReconcileOne(m, resolved, w, s, current, b);
            && ((Role, b.role) in resolved ==> OnlyBinding(w.tenant, w'.tenant, s, resolved[(Role, b.role)]))
            && ((Role, b.role) !in resolved ==> w'.tenant == w.tenant)
            && (f.None? ==> BindingDone(resolved, w.tenant, w'.tenant, s, b))
            && (f.Some? && !f.value.RebindFailure? ==> w'.tenant == w.tenant)
            && (f.Some? ==> ReportIsTrue(w.tenant, w'.tenant, s, f.value))
            && (f.Some? && f.value.RebindFailure? ==>
                  (Role, b.role) in resolved && f.value.role == resolved[(Role, b.role)])
  {
    if (Role, b.role) in resolved && ResolveResource(resolved, b).Ok? {
      var roleId := resolved[(Role, b.role)];
      var resource := ResolveResource(resolved, b).value;
      var role := FindKeyOfKind(m, b.role, Role).value;
      if role.name in current && !Satisfied(current[role.name], resource, b.Narrowed()) {
        RebindOutcome(w, s, roleId, resource, b.Narrowed(), current[role.name]);
      }
    }
  }

  // Different declared roles stand for different server roles.
  ghost predicate RolesApart(resolved: ResolvedIds, bs: seq<RoleBinding>)
  {
    forall i, j :: 0 <= i < j < |bs| && (Role, bs[i].role) in resolved && (Role, bs[j].role) in resolved ==>
      resolved[(Role, bs[i].role)] != resolved[(Role, bs[j].role)]
  }

  ghost predicate NamesRole(resolved: ResolvedIds, bs: seq<RoleBinding>, role: Id)
  {
    exists i :: 0 <= i < |bs| && (Role, bs[i].role) in resolved && resolved[(Role, bs[i].role)] == role
  }

  lemma OnlyBindingIsOnlySubject(t: TenantState, t': TenantState, s: Subject, role: Id)
    requires OnlyBinding(t, t', s, role)
    ensures OnlySubject(t, t', s)
  {
  }

  // Reconciling a subject under any pattern of failures: bindings of other subjects and of roles
  // the manifest does not name are untouched; success leaves every declared binding in force; a
  // failed rebind is reported truthfully.
  lemma {:induction false} ReconcileOutcome(m: Manifest, resolved: ResolvedIds, w: World, s: Subject,
                                            current: map<string, Assignment>, bs: seq<RoleBinding>)
    requires RolesApart(resolved, bs)
    requires forall i :: 0 <= i < |bs| ==> CurrentIsTrue(m, resolved, w.tenant, s, current, bs[i])
    requires forall i :: 0 <= i < |bs| ==> FindKeyOfKind(m, bs[i].role, Role).Some?
    ensures var (w', f) := Reconcile(m, resolved, w, s, current, bs);
            && OnlySubject(w.tenant, w'.tenant, s)
            && (forall role :: !NamesRole(resolved, bs, role) ==> Bound(w'.tenant, s, role) == Bound(w.tenant, s, role))
            && (f.None? ==> forall i :: 0 <= i < |bs| ==> BindingDone(resolved, w.tenant, w'.tenant, s, bs[i]))
            && (f.Some? ==> ReportIsTrue(w.tenant, w'.tenant, s, f.value))
            && (f.Some? && f.value.RebindFailure? ==> NamesRole(resolved, bs, f.value.role))
    decreases |bs|
  {
    if bs != [] {
      ReconcileOneOutcome(m, resolved, w, s, current, bs[0]);
      var (w1, f) := ReconcileOne(m, resolved, w, s, current, bs[0]);
      ReconcileOneElsewhere(m, resolved, w, s, current, bs);
      if f.None? {
        var rest := bs[1..];
        assert forall i :: 0 <= i < |rest| ==> rest[i] == bs[i + 1];
        ReconcileOutcome(m, resolved, w1, s, current, rest);
        var (w', f') := Reconcile(m, resolved, w1, s, current, rest);
        ReconcileChain(resolved, w.tenant, w1.tenant, w'.tenant, s, bs, f');
      } else {
        assert bs[0] in bs;
      }
    }
  }

  // The first binding's step leaves every other role alone.
  lemma ReconcileOneElsewhere(m: Manifest, resolved: ResolvedIds, w: World, s: Subject,
                              current: map<string, Assignment>, bs: seq<RoleBinding>)
    requires bs != [] && RolesApart(resolved, bs)
    requires forall i :: 0 <= i < |bs| ==> CurrentIsTrue(m, resolved, w.tenant, s, current, bs[i])
    requires forall i :: 0 <= i < |bs| ==> FindKeyOfKind(m, bs[i].role, Role).Some?
    ensures var w1 := ReconcileOne(m, resolved, w, s, current, bs[0]).0;
            && OnlySubject(w.tenant, w1.tenant, s)
            && (forall role :: !NamesRole(resolved, bs, role) ==> Bound(w1.tenant, s, role) == Bound(w.tenant, s, role))
            && (forall i :: 1 <= i < |bs| ==> CurrentIsTrue(m, resolved, w1.tenant, s, current, bs[i]))
            && (forall i :: 1 <= i < |bs| && (Role, bs[i].role) in resolved ==>
                  Bound(w1.tenant, s, resolved[(Role, bs[i].role)]) == Bound(w.tenant, s, resolved[(Role, bs[i].role)]))
  {
    ReconcileOneOutcome(m, resolved, w, s, current, bs[0]);
    var w1 := ReconcileOne(m, resolved, w, s, current, bs[0]).0;
    if (Role, bs[0].role) in resolved {
      OnlyBindingIsOnlySubject(w.tenant, w1.tenant, s, resolved[(Role, bs[0].role)]);
      forall role | !NamesRole(resolved, bs, role) ensures Bound(w1.tenant, s, role) == Bound(w.tenant, s, role) {
        assert role != resolved[(Role, bs[0].role)];
        assert (s, role) != (s, resolved[(Role, bs[0].role)]);
      }
      forall i | 1 <= i < |bs| && (Role, bs[i].role) in resolved
        ensures Bound(w1.tenant, s, resolved[(Role, bs[i].role)]) == Bound(w.tenant, s, resolved[(Role, bs[i].role)])
      {
        assert (s, resolved[(Role, bs[i].role)]) != (s, resolved[(Role, bs[0].role)]);
      }
    }
  }

  lemma ReconcileChain(resolved: ResolvedIds, t: TenantState, t1: TenantState, t': TenantState, s: Subject,
                       bs: seq<RoleBinding>, f: Option<Failure>)
    requires bs != [] && RolesApart(resolved, bs)
    requires BindingDone(resolved, t, t1, s, bs[0])
    requires forall i :: 1 <= i < |bs| && (Role, bs[i].role) in resolved ==>
               Bound(t1, s, resolved[(Role, bs[i].role)]) == Bound(t, s, resolved[(Role, bs[i].role)])
    requires forall role :: !NamesRole(resolved, bs, role) ==> Bound(t1, s, role) == Bound(t, s, role)
    requires forall role :: !NamesRole(resolved, bs[1..], role) ==> Bound(t', s, role) == Bound(t1, s, role)
    requires f.None? ==> forall i :: 0 <= i < |bs[1..]| ==> BindingDone(resolved, t1, t', s, bs[1..][i])
    requires f.Some? ==> ReportIsTrue(t1, t', s, f.value)
    requires f.Some? && f.value.RebindFailure? ==> NamesRole(resolved, bs[1..], f.value.role)
    ensures forall role :: !NamesRole(resolved, bs, role) ==> Bound(t', s, role) == Bound(t, s, role)
    ensures f.None? ==> forall i :: 0 <= i < |bs| ==> BindingDone(resolved, t, t', s, bs[i])
    ensures f.Some? ==> ReportIsTrue(t, t', s, f.value)
    ensures f.Some? && f.value.RebindFailure? ==> NamesRole(resolved, bs, f.value.role)
  {
    var rest := bs[1..];
    assert forall i :: 0 <= i < |rest| ==> rest[i] == bs[i + 1];
    forall role | !NamesRole(resolved, bs, role) ensures Bound(t', s, role) == Bound(t, s, role) {
      assert !NamesRole(resolved, rest, role);
    }
    if f.None? {
      var roleId := resolved[(Role, bs[0].role)];
      assert !NamesRole(resolved, rest, roleId);
      forall i | 0 <= i < |bs| ensures BindingDone(resolved, t, t', s, bs[i]) {
        if i > 0 {
          assert BindingDone(resolved, t1, t', s, rest[i - 1]);
        }
      }
    }
    if f.Some? && f.value.RebindFailure? {
      var i :| 0 <= i < |rest| && (Role, rest[i].role) in resolved && resolved[(Role, rest[i].role)] == f.value.role;
      assert resolved[(Role, bs[i + 1].role)] == f.value.role;
    }
  }

  // ---- whatever the reconciler believes ----

  predicate Internal(f: Failure) { f.Unresolved? || f.NoVersion? }

  // ListRoles changes nothing.
  lemma SendListRoles(w: World, s: Subject)
    ensures var (w', r) := Send(w, ListRoles(s));
            && w'.tenant == w.tenant && (TraceCurrent(w) ==> TraceCurrent(w'))
            && r != Refused(StaleVersion)
  {
    if TraceCurrent(w) {
      TraceGrows(w, ListRoles(s));
    }
  }

  lemma SendBinding(w: World, s: Subject, role: Id, req: Request)
    requires (req.Assign? || req.Unassign?) && req.subject == s && req.role == role
    ensures OnlyBinding(w.tenant, Send(w, req).0.tenant, s, role)
    ensures TraceCurrent(w) ==> TraceCurrent(Send(w, req).0)
    ensures Send(w, req).1 != Refused(StaleVersion)
  {
    if TraceCurrent(w) {
      TraceGrows(w, req);
    }
  }

  // Only the bindings of s to the roles `bs` resolve to may differ.
  ghost predicate TouchesOnly(w: World, w': World, s: Subject, resolved: ResolvedIds, bs: seq<RoleBinding>, f: Option<Failure>)
  {
    && OnlySubject(w.tenant, w'.tenant, s)
    && (forall role :: !NamesRole(resolved, bs, role) ==> Bound(w'.tenant, s, role) == Bound(w.tenant, s, role))
    && (TraceCurrent(w) ==> TraceCurrent(w'))
    && !IsStale(f)
  }

  lemma RebindTouches(w: World, s: Subject, role: Id, resource: Option<Id>, narrowed: bool, existing: Assignment)
    ensures var (w', f) := Rebind(w, s, role, resource, narrowed, existing);
            && OnlyBinding(w.tenant, w'.tenant, s, role) && (TraceCurrent(w) ==> TraceCurrent(w'))
            && !IsStale(f) && !(f.Some? && Internal(f.value))
  {
    var unassign := Unassign(s, role, existing.resource);
    SendBinding(w, s, role, unassign);
    var (w1, removed) := Send(w, unassign);
    if removed.Accepted? {
      var assign := AssignRequest(s, role, resource, narrowed, existing.scope);
      SendBinding(w1, s, role, assign);
      var (w2, bound) := Send(w1, assign);
      if !bound.Accepted? {
        SendBinding(w2, s, role, AssignRequest(s, role, existing.resource, existing.Narrowed(), existing.scope));
      }
    }
  }

  lemma ReconcileOneTouches(m: Manifest, resolved: ResolvedIds, w: World, s: Subject,
                            current: map<string, Assignment>, b: RoleBinding)
    ensures var (w', f) := ReconcileOne(m, resolved, w, s, current, b);
            && TouchesOnly(w, w', s, resolved, [b], f)
            && (BindingResolved(resolved, b) ==> !(f.Some? && Internal(f.value)))
  {
    var w' := ReconcileOne(m, resolved, w, s, current, b).0;
    if (Role, b.role) in resolved && ResolveResource(resolved, b).Ok? {
      var roleId := resolved[(Role, b.role)];
      var resource := ResolveResource(resolved, b).value;
      var role := FindKeyOfKind(m, b.role, Role);
      if role.None? || role.value.name !in current {
        SendBinding(w, s, roleId, AssignRequest(s, roleId, resource, b.Narrowed(), None));
      } else if !Satisfied(current[role.value.name], resource, b.Narrowed()) {
        RebindTouches(w, s, roleId, resource, b.Narrowed(), current[role.value.name]);
      }
      OnlyBindingNames(w.tenant, w'.tenant, s, resolved, b);
    }
  }

  lemma OnlyBindingNames(t: TenantState, t': TenantState, s: Subject, resolved: ResolvedIds, b: RoleBinding)
    requires (Role, b.role) in resolved && OnlyBinding(t, t', s, resolved[(Role, b.role)])
    ensures OnlySubject(t, t', s)
    ensures forall role :: !NamesRole(resolved, [b], role) ==> Bound(t', s, role) == Bound(t, s, role)
  {
    assert NamesRole(resolved, [b], resolved[(Role, b.role)]) by {
      assert [b][0] == b;
    }
    forall role: Id | !NamesRole(resolved, [b], role) ensures Bound(t', s, role) == Bound(t, s, role) {
      assert (s, role) != (s, resolved[(Role, b.role)]);
    }
  }

  lemma NamesRoleParts(resolved: ResolvedIds, bs: seq<RoleBinding>, role: Id)
    requires bs != [] && !NamesRole(resolved, bs, role)
    ensures !NamesRole(resolved, [bs[0]], role) && !NamesRole(resolved, bs[1..], role)
  {
    assert forall i :: 0 <= i < |bs[1..]| ==> bs[1..][i] == bs[i + 1];
  }

  // Reconciling touches one subject's bindings to the declared roles and nothing else, and finds
  // every id apply resolved.
  lemma {:induction false} ReconcileTouches(m: Manifest, resolved: ResolvedIds, w: World, s: Subject,
                                            current: map<string, Assignment>, bs: seq<RoleBinding>)
    ensures var (w', f) := Reconcile(m, resolved, w, s, current, bs);
            && TouchesOnly(w, w', s, resolved, bs, f)
            && ((forall i :: 0 <= i < |bs| ==> BindingResolved(resolved, bs[i])) ==> !(f.Some? && Internal(f.value)))
    decreases |bs|
  {
    if bs != [] {
      ReconcileOneTouches(m, resolved, w, s, current, bs[0]);
      forall role | !NamesRole(resolved, bs, role)
        ensures !NamesRole(resolved, [bs[0]], role) && !NamesRole(resolved, bs[1..], role)
      {
        NamesRoleParts(resolved, bs, role);
      }
      var (w1, f) := ReconcileOne(m, resolved, w, s, current, bs[0]);
      if f.None? {
        assert forall i :: 0 <= i < |bs[1..]| ==> bs[1..][i] == bs[i + 1];
        ReconcileTouches(m, resolved, w1, s, current, bs[1..]);
      }
    }
  }

  // ---- bindings that name one role twice ----

  // As the reconciler read it, a binding of this role is in force already.
  ghost predicate LeavesRole(m: Manifest, resolved: ResolvedIds, current: map<string, Assignment>, b: RoleBinding, role: Id)
  {
    BindingResolved(resolved, b) && resolved[(Role, b.role)] == role ==>
      var r := FindKeyOfKind(m, b.role, Role);
      && r.Some? && r.value.name in current
      && Satisfied(current[r.value.name], WantedResource(resolved, b), b.Narrowed())
  }

  // A role for which every declared binding is in force already is not touched, whatever fails.
  lemma {:induction false} ReconcileLeaves(m: Manifest, resolved: ResolvedIds, w: World, s: Subject,
                                           current: map<string, Assignment>, bs: seq<RoleBinding>, role: Id)
    requires forall i :: 0 <= i < |bs| ==> LeavesRole(m, resolved, current, bs[i], role)
    ensures Bound(Reconcile(m, resolved, w, s, current, bs).0.tenant, s, role) == Bound(w.tenant, s, role)
    decreases |bs|
  {
    if bs != [] {
      var (w1, f) := ReconcileOne(m, resolved, w, s, current, bs[0]);
      ReconcileOneTouches(m, resolved, w, s, current, bs[0]);
      assert Bound(w1.tenant, s, role) == Bound(w.tenant, s, role) by {
        assert LeavesRole(m, resolved, current, bs[0], role);
        if NamesRole(resolved, [bs[0]], role) {
          assert [bs[0]][0] == bs[0];
          assert w1.tenant == w.tenant;
        }
      }
      if f.None? {
        assert forall i :: 0 <= i < |bs[1..]| ==> bs[1..][i] == bs[i + 1];
        ReconcileLeaves(m, resolved, w1, s, current, bs[1..], role);
      }
    }
  }

  // Two bindings of one role ask for the same.
  ghost predicate Alike(resolved: ResolvedIds, a: RoleBinding, b: RoleBinding)
  {
    BindingResolved(resolved, a) && BindingResolved(resolved, b)
    && resolved[(Role, a.role)] == resolved[(Role, b.role)] ==>
      WantedResource(resolved, a) == WantedResource(resolved, b) && a.Narrowed() == b.Narrowed()
  }

  // The reconciler knows what the server holds, or the binding is in force by now.
  ghost predicate Ready(m: Manifest, resolved: ResolvedIds, t: TenantState, s: Subject,
                        current: map<string, Assignment>, b: RoleBinding)
  {
    CurrentIsTrue(m, resolved, t, s, current, b) || BindingIn(resolved, t, s, b)
  }

  lemma RebindHolds(w: World, s: Subject, role: Id, resource: Option<Id>, narrowed: bool, existing: Assignment)
    requires Rebind(w, s, role, resource, narrowed, existing).1.None?
    ensures var now := Bound(Rebind(w, s, role, resource, narrowed, existing).0.tenant, s, role);
            now.Some? && Satisfied(now.value, resource, narrowed)
  {
  }

  lemma ReconcileOneHolds(m: Manifest, resolved: ResolvedIds, w: World, s: Subject,
                          current: map<string, Assignment>, b: RoleBinding)
    requires FindKeyOfKind(m, b.role, Role).Some? && Ready(m, resolved, w.tenant, s, current, b)
    requires ReconcileOne(m, resolved, w, s, current, b).1.None?
    ensures var w' := ReconcileOne(m, resolved, w, s, current, b).0;
            BindingIn(resolved, w'.tenant, s, b) && OnlyBinding(w.tenant, w'.tenant, s, resolved[(Role, b.role)])
  {
    var roleId := resolved[(Role, b.role)];
    var resource := ResolveResource(resolved, b).value;
    var role := FindKeyOfKind(m, b.role, Role).value;
    if role.name !in current {
      SendBinding(w, s, roleId, AssignRequest(s, roleId, resource, b.Narrowed(), None));
    } else if !Satisfied(current[role.name], resource, b.Narrowed()) {
      RebindTouches(w, s, roleId, resource, b.Narrowed(), current[role.name]);
      RebindHolds(w, s, roleId, resource, b.Narrowed(), current[role.name]);
    }
  }

  lemma AlikeKept(m: Manifest, resolved: ResolvedIds, t: TenantState, t': TenantState, s: Subject,
                  current: map<string, Assignment>, b: RoleBinding, x: RoleBinding)
    requires Alike(resolved, b, x) && BindingIn(resolved, t', s, b) && OnlyBinding(t, t', s, resolved[(Role, b.role)])
    ensures BindingIn(resolved, t, s, x) ==> BindingIn(resolved, t', s, x)
    ensures BindingResolved(resolved, x) && Ready(m, resolved, t, s, current, x) ==> Ready(m, resolved, t', s, current, x)
  {
    if BindingResolved(resolved, x) && resolved[(Role, x.role)] != resolved[(Role, b.role)] {
      assert (s, resolved[(Role, x.role)]) != (s, resolved[(Role, b.role)]);
    }
  }

  // Reconciling without failure leaves every declared binding in force, even where two of them
  // name one role, as long as those ask for the same.
  lemma {:induction false} ReconcileHolds(m: Manifest, resolved: ResolvedIds, w: World, s: Subject,
                                          current: map<string, Assignment>, bs: seq<RoleBinding>, n: nat)
    requires n <= |bs| && forall i :: 0 <= i < |bs| ==> FindKeyOfKind(m, bs[i].role, Role).Some?
    requires forall i, j :: 0 <= i < |bs| && 0 <= j < |bs| ==> Alike(resolved, bs[i], bs[j])
    requires forall i :: 0 <= i < n ==> BindingIn(resolved, w.tenant, s, bs[i])
    requires forall i :: n <= i < |bs| && BindingResolved(resolved, bs[i]) ==>
               Ready(m, resolved, w.tenant, s, current, bs[i])
    requires Reconcile(m, resolved, w, s, current, bs[n..]).1.None?
    ensures forall i :: 0 <= i < |bs| ==>
              BindingIn(resolved, Reconcile(m, resolved, w, s, current, bs[n..]).0.tenant, s, bs[i])
    decreases |bs| - n
  {
    if n < |bs| {
      assert bs[n..][0] == bs[n] && bs[n..][1..] == bs[n + 1..];
      var w1 := ReconcileOne(m, resolved, w, s, current, bs[n]).0;
      ReconcileOneHolds(m, resolved, w, s, current, bs[n]);
      forall i | 0 <= i < |bs|
        ensures i <= n ==> BindingIn(resolved, w1.tenant, s, bs[i])
        ensures n < i && BindingResolved(resolved, bs[i]) ==> Ready(m, resolved, w1.tenant, s, current, bs[i])
      {
        AlikeKept(m, resolved, w.tenant, w1.tenant, s, current, bs[n], bs[i]);
      }
      ReconcileHolds(m, resolved, w1, s, current, bs, n + 1);
    }
  }

  // ---- reports and tenant scopes, whatever names are shared ----

  // What a failed rebind reports is what its calls did, even when the binding it was told of is
  // no longer the one the server holds.
  lemma RebindReports(w: World, s: Subject, role: Id, resource: Option<Id>, narrowed: bool, existing: Assignment)
    ensures var (w', f) := Rebind(w, s, role, resource, narrowed, existing);
            f.Some? && f.value.RebindFailure? ==>
              && f.value.role == role && f.value.resource == existing.resource
              && (f.value.restored <==> f.value.restoreError.None?)
              && Bound(w'.tenant, s, role) == (if f.value.restored then Some(Restored(existing)) else None)
  {
    var (w1, removed) := Send(w, Unassign(s, role, existing.resource));
    if removed.Accepted? {
      assert Bound(w1.tenant, s, role).None?;
      var (w2, bound) := Send(w1, AssignRequest(s, role, resource, narrowed, existing.scope));
      if !bound.Accepted? {
        assert Bound(w2.tenant, s, role).None?;
      }
    }
  }

  lemma ReconcileOneReports(m: Manifest, resolved: ResolvedIds, t0: TenantState, w: World, s: Subject,
                            current: map<string, Assignment>, b: RoleBinding)
    requires CurrentIsTrue(m, resolved, t0, s, current, b) && FindKeyOfKind(m, b.role, Role).Some?
    ensures var (w', f) := ReconcileOne(m, resolved, w, s, current, b);
            f.Some? ==> ReportIsTrue(t0, w'.tenant, s, f.value)
  {
    if (Role, b.role) in resolved && ResolveResource(resolved, b).Ok? {
      var role := FindKeyOfKind(m, b.role, Role).value;
      if role.name in current {
        RebindReports(w, s, resolved[(Role, b.role)], ResolveResource(resolved, b).value, b.Narrowed(), current[role.name]);
      }
    }
  }

  // `t0` is the tenant the reconciler read the subject's bindings of: a failed rebind is reported
  // truthfully against it, also where two declared roles are one on the server.
  lemma {:induction false} ReconcileReports(m: Manifest, resolved: ResolvedIds, t0: TenantState, w: World, s: Subject,
                                            current: map<string, Assignment>, bs: seq<RoleBinding>)
    requires forall i :: 0 <= i < |bs| ==>
               CurrentIsTrue(m, resolved, t0, s, current, bs[i]) && FindKeyOfKind(m, bs[i].role, Role).Some?
    ensures var (w', f) := Reconcile(m, resolved, w, s, current, bs);
            f.Some? ==> ReportIsTrue(t0, w'.tenant, s, f.value)
    decreases |bs|
  {
    if bs != [] {
      ReconcileOneReports(m, resolved, t0, w, s, current, bs[0]);
      var (w1, f) := ReconcileOne(m, resolved, w, s, current, bs[0]);
      if f.None? {
        assert forall i :: 0 <= i < |bs[1..]| ==> bs[1..][i] == bs[i + 1];
        ReconcileReports(m, resolved, t0, w1, s, current, bs[1..]);
      }
    }
  }

  // What was bound is bound, with the tenant scope it had.
  ghost predicate Carried(t0: TenantState, t: TenantState)
  {
    forall key :: key in t0.bindings ==>
      key in t.bindings && WireScope(t.bindings[key].scope) == WireScope(t0.bindings[key].scope)
  }

  // What was bound is unbound, or bound with the tenant scope it had.
  ghost predicate NoneWidened(t0: TenantState, t: TenantState)
  {
    forall key :: key in t0.bindings && key in t.bindings ==>
      WireScope(t.bindings[key].scope) == WireScope(t0.bindings[key].scope)
  }

  lemma RebindCarries(t0: TenantState, w: World, s: Subject, role: Id, resource: Option<Id>, narrowed: bool, existing: Assignment)
    requires Carried(t0, w.tenant) && Bound(t0, s, role) == Some(existing)
    ensures var (w', f) := Rebind(w, s, role, resource, narrowed, existing);
            NoneWidened(t0, w'.tenant) && (f.None? ==> Carried(t0, w'.tenant))
  {
    var (w1, removed) := Send(w, Unassign(s, role, existing.resource));
    if removed.Accepted? {
      assert forall key :: key != (s, role) && key in w.tenant.bindings ==>
               key in w1.tenant.bindings && w1.tenant.bindings[key] == w.tenant.bindings[key];
      assert (s, role) !in w1.tenant.bindings;
    }
  }

  lemma ReconcileOneCarries(m: Manifest, resolved: ResolvedIds, t0: TenantState, w: World, s: Subject,
                            current: map<string, Assignment>, b: RoleBinding)
    requires CurrentIsTrue(m, resolved, t0, s, current, b) && FindKeyOfKind(m, b.role, Role).Some?
    requires Carried(t0, w.tenant)
    ensures var (w', f) := ReconcileOne(m, resolved, w, s, current, b);
            NoneWidened(t0, w'.tenant) && (f.None? ==> Carried(t0, w'.tenant))
  {
    if (Role, b.role) in resolved && ResolveResource(resolved, b).Ok? {
      var roleId, resource := resolved[(Role, b.role)], ResolveResource(resolved, b).value;
      var role := FindKeyOfKind(m, b.role, Role).value;
      if role.name !in current {
        assert (s, roleId) !in t0.bindings;
        SendBinding(w, s, roleId, AssignRequest(s, roleId, resource, b.Narrowed(), None));
      } else {
        RebindCarries(t0, w, s, roleId, resource, b.Narrowed(), current[role.name]);
      }
    }
  }

  // No binding the reconciler changes loses its tenant scope.
  lemma {:induction false} ReconcileCarries(m: Manifest, resolved: ResolvedIds, t0: TenantState, w: World, s: Subject,
                                            current: map<string, Assignment>, bs: seq<RoleBinding>)
    requires forall i :: 0 <= i < |bs| ==>
               CurrentIsTrue(m, resolved, t0, s, current, bs[i]) && FindKeyOfKind(m, bs[i].role, Role).Some?
    requires Carried(t0, w.tenant)
    ensures var (w', f) := Reconcile(m, resolved, w, s, current, bs);
            NoneWidened(t0, w'.tenant) && (f.None? ==> Carried(t0, w'.tenant))
    decreases |bs|
  {
    if bs != [] {
      ReconcileOneCarries(m, resolved, t0, w, s, current, bs[0]);
      var (w1, f) := ReconcileOne(m, resolved, w, s, current, bs[0]);
      if f.None? {
        assert forall i :: 0 <= i < |bs[1..]| ==> bs[1..][i] == bs[i + 1];
        ReconcileCarries(m, resolved, t0, w1, s, current, bs[1..]);
      }
    }
  }
}
