/** A Shower pass converges and does not interfere with itself: what a fault-free pass leaves behind,
    what a failing one leaves, and that a second pass changes nothing. */
module ShowerConverges {
  import opened Kube
  import opened MeteorApi
  import opened ShowerPass

  // ---------------------------------------------------------------- desired fields

  /** The managed fields are as desired; annotations and labels may hold more. */
  predicate Satisfied(w: Want, a: Action, b: Body) {
    var f := Fresh(w, a);
    match b
    case ServiceAccount(_) => f.ServiceAccount?
    case Role(rules, _) => f.Role? && rules == f.rules
    case RoleBinding(subjects, roleRef, _) => f.RoleBinding? && subjects == f.subjects && roleRef == f.roleRef
    case Deployment(replicas, selector, template, _, _) =>
      f.Deployment? && replicas == f.replicas && selector == f.podSelector && template == f.template
    case Service(selector, serviceType, ports, _) =>
      f.Service? && selector == f.selector && serviceType == f.serviceType && ports == f.ports
    case Monitor(selector, endpoints, _) => f.Monitor? && selector == f.monitored && endpoints == f.endpoints
    case Route(annotations, labels, host, path, to, port, _, _) =>
      && f.Route? && IsMapASubset(annotations, f.annotations) && IsMapASubset(labels, f.labels)
      && host == f.host && path == f.path && to == f.to && port == f.port
  }

  function At(store: Store, k: ObjKey): Option<Body> {
    if k in store then Some(store[k]) else None
  }

  /** What an action that succeeds makes of its object. */
  function Goal(w: Want, a: Action, b: Option<Body>): (r: Body)
    requires b.Some? ==> b.value.Kind() == KeyOf(w, a).kind
    ensures r.Kind() == KeyOf(w, a).kind
  {
    match b
    case None => Fresh(w, a)
    case Some(o) => if Drifted(w, a, o) then Updated(w, a, o) else o
  }

  /** A Route whose target and port have both drifted while all else matches is taken to be fine. */
  predicate RouteOverlooked(w: Want, b: Body) {
    && b.Route? && IsMapASubset(b.annotations, w.spec.ingress.annotations)
    && IsMapASubset(b.labels, w.spec.ingress.labels) && b.host == w.spec.ingress.host && b.path == w.spec.ingress.path
    && b.to != RouteTarget("Service", OwnName(w)) && b.port != Some("http")
  }

  /** The object of an action reaches its desired fields exactly when it is not an overlooked Route. */
  lemma GoalSatisfiedIff(w: Want, a: Action, b: Option<Body>)
    requires b.Some? ==> b.value.Kind() == KeyOf(w, a).kind
    ensures Satisfied(w, a, Goal(w, a, b)) <==> !(b.Some? && RouteOverlooked(w, b.value))
  {
    hide OwnName, PipelineName, ExternalName, Selector;
  }

  /** Reaching the goal again changes nothing. */
  lemma GoalTwice(w: Want, a: Action, b: Option<Body>)
    requires b.Some? ==> b.value.Kind() == KeyOf(w, a).kind
    ensures Goal(w, a, Some(Goal(w, a, b))) == Goal(w, a, b)
  {
    hide OwnName, PipelineName, ExternalName, Selector;
    if b.Some? { UpdatedTwice(w, a, b.value); }
    UpdatedTwice(w, a, Fresh(w, a));
    assert Updated(w, a, Fresh(w, a)) == Fresh(w, a);
  }

  lemma UpdatedTwice(w: Want, a: Action, b: Body)
    requires b.Kind() == KeyOf(w, a).kind
    ensures Updated(w, a, Updated(w, a, b)) == Updated(w, a, b)
  {
    hide OwnName, PipelineName, ExternalName, Selector;
    if b.Route? {
      var i := w.spec.ingress;
      assert b.annotations + i.annotations + i.annotations == b.annotations + i.annotations;
      assert b.labels + i.labels + i.labels == b.labels + i.labels;
    }
  }

  // ---------------------------------------------------------------- names do not collide

  lemma NamesDiffer(w: Want)
    ensures OwnName(w) != PipelineName(w) && OwnName(w) != ExternalName(w) && PipelineName(w) != ExternalName(w)
  {
    assert OwnName(w)[7] == 's' && PipelineName(w)[7] == 'p' && ExternalName(w)[7] == 'e';
  }

  /** No two different actions work on the same object, whatever the namespaces and the name. */
  lemma KeysAreOwn(w: Want, a: Action, b: Action)
    requires KeyOf(w, a) == KeyOf(w, b)
    ensures a == b
  {
    hide OwnName, PipelineName, ExternalName;
    NamesDiffer(w);
  }

  // ---------------------------------------------------------------- one action

  /** The part of the Shower that the desired objects depend on stays put during a pass. */
  predicate SameWant(l: ShowerLocal, l': ShowerLocal) {
    l'.shower == l.shower.(status := l'.shower.status) && l'.shower.status.image == l.shower.status.image
  }

  lemma StatusOnly(a: Action, sh: ShowerCr, b: Body, ok: bool)
    ensures var r := AfterFound(a, sh, b); r == sh.(status := r.status) && r.status.image == sh.status.image
    ensures var r := AfterCreate(a, sh, ok); r == sh.(status := r.status) && r.status.image == sh.status.image
  {
    hide SetCondition, IsAvailable;
  }

  /** The store changed at one place at most, and there to that body. */
  predicate ChangedTo(store: Store, store': Store, k: ObjKey, b: Body) {
    store' == store || (b.Kind() == k.kind && store' == store[k := b])
  }

  /** A system that differs in its store and the fates left only. */
  predicate SameBut(s: ShowerSys, s': ShowerSys) {
    s' == s.(store := s'.store, fates := s'.fates, up := s'.up)
  }

  lemma GetCall(s: ShowerSys, k: ObjKey)
    ensures var r := GetObj(s, k);
      && SameBut(s, r.sys) && r.sys.store == s.store && (r.res.Ok? ==> At(s.store, k) == Some(r.res.value))
  {
  }

  lemma CreateCall(s: ShowerSys, k: ObjKey, b: Body)
    requires b.Kind() == k.kind
    ensures var r := CreateObj(s, k, b);
      && SameBut(s, r.sys)
      && (if r.res.Ok? then At(s.store, k) == None && r.sys.store == s.store[k := b]
          else r.sys.store == s.store || (At(s.store, k) == None && r.sys.store == s.store[k := b]))
  {
  }

  lemma UpdateCall(s: ShowerSys, k: ObjKey, b: Body)
    requires b.Kind() == k.kind
    ensures var r := UpdateObj(s, k, b);
      && SameBut(s, r.sys)
      && (if r.res.Ok? then r.sys.store == s.store[k := b] else r.sys.store == s.store || r.sys.store == s.store[k := b])
  {
  }

  /** Whatever the faults, an action changes its own object at most, and only to the goal; it is done
      only if the object is at the goal. */
  lemma ActOnOwnObject(l: ShowerLocal, namespace: string, name: string, a: Action)
    ensures var (l1, end) := Act(l, namespace, name, a);
      var w := WantOf(namespace, name, l.shower); var k := KeyOf(w, a); var goal := Goal(w, a, At(l.sys.store, k));
      && SameWant(l, l1) && SameBut(l.sys, l1.sys) && ChangedTo(l.sys.store, l1.sys.store, k, goal)
      && (end == Done ==> At(l1.sys.store, k) == Some(goal))
      && (end == Died ==> l1.sys.store == l.sys.store)
  {
    hide Drifted, Updated, Fresh, KeyOf, AfterFound, AfterCreate, GetObj, CreateObj, UpdateObj;
    var w := WantOf(namespace, name, l.shower);
    var k := KeyOf(w, a);
    var got := GetObj(l.sys, k);
    GetCall(l.sys, k);
    if got.res.Ok? {
      var b := got.res.value;
      UpdateCall(got.sys, k, Updated(w, a, b));
      StatusOnly(a, l.shower, b, true);
      StatusOnly(a, l.shower, Updated(w, a, b), true);
    } else if got.res == Err(NotFound) {
      CreateCall(got.sys, k, Fresh(w, a));
      StatusOnly(a, l.shower, Fresh(w, a), CreateObj(got.sys, k, Fresh(w, a)).res.Ok?);
    }
  }

  // ---------------------------------------------------------------- all actions, any faults

  /** The index of the first action that is not done. */
  function StoppedAt(l: ShowerLocal, namespace: string, name: string, actions: seq<Action>): (k: nat)
    ensures k <= |actions|
    decreases |actions|
  {
    if actions == [] || Act(l, namespace, name, actions[0]).1 != Done then 0
    else 1 + StoppedAt(Act(l, namespace, name, actions[0]).0, namespace, name, actions[1..])
  }

  /** The object of the action is at the goal set for it by the store the pass began with. */
  predicate Reached(w: Want, a: Action, before: Store, after: Store) {
    At(after, KeyOf(w, a)) == Some(Goal(w, a, At(before, KeyOf(w, a))))
  }

  ghost predicate Touches(w: Want, actions: seq<Action>, k: ObjKey) {
    exists a :: a in actions && KeyOf(w, a) == k
  }

  /** The first `k` actions reached their goals; the next one may have; nothing else changed. */
  ghost predicate Progress(w: Want, actions: seq<Action>, k: nat, before: Store, after: Store)
    requires k <= |actions|
  {
    && (forall a :: a in actions[..k] ==> Reached(w, a, before, after))
    && (forall x :: !Touches(w, actions[..k], x) ==>
          At(after, x) == At(before, x) || (k < |actions| && x == KeyOf(w, actions[k]) && Reached(w, actions[k], before, after)))
  }

  /** A store that differs from `before` by one reached goal serves later actions just as well. */
  lemma SameGoals(w: Want, head: Action, a: Action, before: Store, mid: Store)
    requires ChangedTo(before, mid, KeyOf(w, head), Goal(w, head, At(before, KeyOf(w, head))))
    ensures Goal(w, a, At(mid, KeyOf(w, a))) == Goal(w, a, At(before, KeyOf(w, a)))
    ensures KeyOf(w, a) == KeyOf(w, head) ==> a == head
  {
    hide KeyOf, Goal;
    if KeyOf(w, a) == KeyOf(w, head) {
      KeysAreOwn(w, a, head);
      GoalTwice(w, a, At(before, KeyOf(w, a)));
    }
  }

  lemma ProgressStep(w: Want, actions: seq<Action>, k: nat, before: Store, mid: Store, after: Store)
    requires 0 < k <= |actions| && Progress(w, actions[1..], k - 1, mid, after)
    requires ChangedTo(before, mid, KeyOf(w, actions[0]), Goal(w, actions[0], At(before, KeyOf(w, actions[0]))))
    requires Reached(w, actions[0], before, mid)
    ensures Progress(w, actions, k, before, after)
  {
    hide KeyOf, Goal;
    var head, rest := actions[0], actions[1..];
    assert actions[..k] == [head] + rest[..k - 1];
    forall a | a in rest[..k - 1] ensures Reached(w, a, before, after) {
      SameGoals(w, head, a, before, mid);
    }
    if k < |actions| { SameGoals(w, head, actions[k], before, mid); }
    assert Reached(w, head, before, after) by {
      SameGoals(w, head, head, before, mid);
      if Touches(w, rest[..k - 1], KeyOf(w, head)) {
        var a :| a in rest[..k - 1] && KeyOf(w, a) == KeyOf(w, head);
        SameGoals(w, head, a, before, mid);
      }
    }
    forall x | !Touches(w, actions[..k], x)
      ensures At(after, x) == At(before, x) || (k < |actions| && x == KeyOf(w, actions[k]) && Reached(w, actions[k], before, after))
    {
      assert head in actions[..k];
      assert x != KeyOf(w, head);
    }
  }

  lemma NoProgress(w: Want, actions: seq<Action>, before: Store, after: Store)
    requires var k := if actions == [] then None else Some(KeyOf(w, actions[0]));
      after == before || (k.Some? && ChangedTo(before, after, k.value, Goal(w, actions[0], At(before, k.value))))
    ensures Progress(w, actions, 0, before, after)
  {
    hide KeyOf, Goal;
  }

  /** Whatever the faults: the actions before the one that fails are satisfied, those after it have not
      been touched, and no later action undoes an earlier one. */
  lemma {:induction false} RunMakesProgress(l: ShowerLocal, namespace: string, name: string, actions: seq<Action>)
    ensures var (l1, end) := RunActions(l, namespace, name, actions); var k := StoppedAt(l, namespace, name, actions);
      && Progress(WantOf(namespace, name, l.shower), actions, k, l.sys.store, l1.sys.store)
      && (end == Done <==> k == |actions|) && SameWant(l, l1) && SameBut(l.sys, l1.sys)
    decreases |actions|
  {
    hide Act, Progress, Goal, KeyOf;
    var w := WantOf(namespace, name, l.shower);
    if actions == [] {
      NoProgress(w, actions, l.sys.store, l.sys.store);
    } else {
      ActOnOwnObject(l, namespace, name, actions[0]);
      var (l1, end) := Act(l, namespace, name, actions[0]);
      if end == Done {
        RunMakesProgress(l1, namespace, name, actions[1..]);
        var (l2, _) := RunActions(l1, namespace, name, actions[1..]);
        var k := StoppedAt(l1, namespace, name, actions[1..]);
        ProgressStep(w, actions, k + 1, l.sys.store, l1.sys.store, l2.sys.store);
      } else {
        NoProgress(w, actions, l.sys.store, l1.sys.store);
      }
    }
  }

  // ---------------------------------------------------------------- no faults

  predicate AllWork(fates: seq<Fate>) {
    forall f :: f in fates ==> f == Works
  }

  /** The process would die at this action. */
  predicate Deadly(w: Want, a: Action, store: Store) {
    var b := At(store, KeyOf(w, a));
    b.Some? && Dies(w, a, b.value)
  }

  lemma CallsWork(s: ShowerSys)
    requires AllWork(s.fates)
    ensures Arrive(s).1 == Works && AllWork(Arrive(s).0.fates) && Arrive(s).0 == s.(fates := Arrive(s).0.fates)
  {
    if s.fates != [] {
      assert s.fates[0] in s.fates;
      assert forall f :: f in s.fates[1..] ==> f in s.fates;
    }
  }

  /** Without faults an action is done, or the process dies in it. */
  lemma ActWorks(l: ShowerLocal, namespace: string, name: string, a: Action)
    requires AllWork(l.sys.fates)
    ensures var (l1, end) := Act(l, namespace, name, a);
      && AllWork(l1.sys.fates)
      && end == (if Deadly(WantOf(namespace, name, l.shower), a, l.sys.store) then Died else Done)
      && l1.sys.up == (l.sys.up && end == Done)
  {
    hide Drifted, Updated, Fresh, Dies, KeyOf, AfterFound, AfterCreate, Arrive, AllWork;
    CallsWork(l.sys);
    CallsWork(Arrive(l.sys).0);
  }

  /** An action that is done never becomes deadly for a later one. */
  lemma GoalIsHarmless(w: Want, a: Action, b: Option<Body>)
    requires b.Some? ==> b.value.Kind() == KeyOf(w, a).kind
    requires b.Some? ==> !Dies(w, a, b.value)
    ensures !Dies(w, a, Goal(w, a, b))
  {
    hide OwnName, PipelineName, ExternalName, Selector;
  }

  lemma StaysHarmless(w: Want, head: Action, a: Action, before: Store, mid: Store)
    requires ChangedTo(before, mid, KeyOf(w, head), Goal(w, head, At(before, KeyOf(w, head)))) && !Deadly(w, head, before)
    ensures Deadly(w, a, mid) <==> Deadly(w, a, before)
  {
    hide KeyOf, Goal, Dies;
    if KeyOf(w, a) == KeyOf(w, head) {
      KeysAreOwn(w, a, head);
      GoalIsHarmless(w, a, At(before, KeyOf(w, a)));
    }
  }

  /** Without faults every action is done, unless one is deadly. */
  lemma {:induction false} RunWorks(l: ShowerLocal, namespace: string, name: string, actions: seq<Action>)
    requires AllWork(l.sys.fates)
    ensures var (l1, end) := RunActions(l, namespace, name, actions); var w := WantOf(namespace, name, l.shower);
      && AllWork(l1.sys.fates)
      && end == (if exists a :: a in actions && Deadly(w, a, l.sys.store) then Died else Done)
      && l1.sys.up == (l.sys.up && end == Done)
    decreases |actions|
  {
    hide Act, Deadly, Goal, KeyOf, AllWork;
    if actions != [] {
      var w := WantOf(namespace, name, l.shower);
      assert actions == [actions[0]] + actions[1..];
      ActWorks(l, namespace, name, actions[0]);
      ActOnOwnObject(l, namespace, name, actions[0]);
      var (l1, end) := Act(l, namespace, name, actions[0]);
      if end == Done {
        RunWorks(l1, namespace, name, actions[1..]);
        forall a | a in actions[1..] ensures Deadly(w, a, l1.sys.store) <==> Deadly(w, a, l.sys.store) {
          StaysHarmless(w, actions[0], a, l.sys.store, l1.sys.store);
        }
      }
    }
  }

  // ---------------------------------------------------------------- the theorems

  /** The stored Route has no annotations (or labels) at all, but some are desired. */
  predicate RouteIsDeadly(w: Want, store: Store) {
    Deadly(w, RouteAction, store)
  }

  lemma OnlyRouteIsDeadly(w: Want, services: seq<ExternalService>, store: Store)
    ensures (exists a :: a in Actions(services) && Deadly(w, a, store)) <==> RouteIsDeadly(w, store)
  {
    hide KeyOf;
    assert OWN_ACTIONS[8] == RouteAction;
    assert OWN_ACTIONS[8] in Actions(services);
  }

  /** What a pass wants. */
  function WantFor(sh: ShowerCr, namespace: string, name: string, version: string): Want {
    WantOf(namespace, name, Prepared(sh, version))
  }

  /** Every managed object has its desired fields, the Route unless it was overlooked, and the objects
      of nobody else changed. */
  ghost predicate Converged(w: Want, actions: seq<Action>, before: Store, after: Store) {
    && (forall a :: a in actions ==>
          && KeyOf(w, a) in after
          && (Satisfied(w, a, after[KeyOf(w, a)])
              <==> !(KeyOf(w, a) in before && RouteOverlooked(w, before[KeyOf(w, a)]))))
    && (forall k :: !Touches(w, actions, k) ==> At(after, k) == At(before, k))
  }

  lemma ProgressConverges(w: Want, actions: seq<Action>, before: Store, after: Store)
    requires Progress(w, actions, |actions|, before, after)
    ensures Converged(w, actions, before, after)
  {
    hide KeyOf, Goal, Satisfied, RouteOverlooked;
    assert actions[..|actions|] == actions;
    forall a | a in actions
      ensures KeyOf(w, a) in after
        && (Satisfied(w, a, after[KeyOf(w, a)]) <==> !(KeyOf(w, a) in before && RouteOverlooked(w, before[KeyOf(w, a)])))
    {
      assert Reached(w, a, before, after);
      GoalSatisfiedIff(w, a, At(before, KeyOf(w, a)));
    }
  }

  /** A Shower that a pass will work on. */
  predicate Live(s: ShowerSys) {
    s.up && AllWork(s.fates) && s.shower.Some? && !s.shower.value.deleting
  }

  /** From any store, a fault-free pass runs to its end exactly when the Route is not deadly, and then
      every managed object has its desired fields, for any list of external services; only an
      overlooked Route keeps its target and port. */
  lemma PassConverges(s: ShowerSys, namespace: string, name: string, version: string)
    requires Live(s)
    ensures var sh := s.shower.value; var w := WantFor(sh, namespace, name, version);
      var s1 := Reconcile(s, namespace, name, version).0;
      && (s1.up <==> !RouteIsDeadly(w, s.store))
      && (s1.up ==>
            && Converged(w, Actions(sh.spec.services), s.store, s1.store)
            && Progress(w, Actions(sh.spec.services), |Actions(sh.spec.services)|, s.store, s1.store)
            && s1.shower.Some? && s1.shower.value.spec == sh.spec && !s1.shower.value.deleting)
  {
    hide RunActions, Progress, Converged, RouteIsDeadly, Deadly, ShowerPhase, Actions, Arrive;
    CallsWork(s);
    var sh := s.shower.value;
    var actions := Actions(sh.spec.services);
    var w := WantFor(sh, namespace, name, version);
    var l0 := ShowerLocal(GetShower(s).sys, Prepared(sh, version));
    RunWorks(l0, namespace, name, actions);
    RunMakesProgress(l0, namespace, name, actions);
    OnlyRouteIsDeadly(w, sh.spec.services, s.store);
    var (l1, end) := RunActions(l0, namespace, name, actions);
    CallsWork(l1.sys);
    if end == Done {
      ProgressConverges(w, actions, s.store, l1.sys.store);
    }
  }

  lemma StoresAgree(a: Store, b: Store)
    requires forall k :: At(a, k) == At(b, k)
    ensures a == b
  {
    forall k | k in a ensures k in b && b[k] == a[k] { assert At(a, k) == At(b, k); }
    forall k | k in b ensures k in a { assert At(a, k) == At(b, k); }
  }

  /** Progress from a store that is already at every goal changes nothing. */
  lemma ProgressTwice(w: Want, actions: seq<Action>, s0: Store, s1: Store, s2: Store)
    requires Progress(w, actions, |actions|, s0, s1) && Progress(w, actions, |actions|, s1, s2)
    ensures s2 == s1
  {
    hide KeyOf, Goal;
    assert actions[..|actions|] == actions;
    forall k ensures At(s1, k) == At(s2, k) {
      if Touches(w, actions, k) {
        var a :| a in actions && KeyOf(w, a) == k;
        assert Reached(w, a, s0, s1) && Reached(w, a, s1, s2);
        GoalTwice(w, a, At(s0, k));
      }
    }
    StoresAgree(s1, s2);
  }

  lemma NotDeadlyAgain(w: Want, actions: seq<Action>, before: Store, after: Store)
    requires Progress(w, actions, |actions|, before, after) && RouteAction in actions && !RouteIsDeadly(w, before)
    ensures !RouteIsDeadly(w, after)
  {
    hide KeyOf, Goal, Dies;
    assert actions[..|actions|] == actions;
    assert Reached(w, RouteAction, before, after);
    GoalIsHarmless(w, RouteAction, At(before, KeyOf(w, RouteAction)));
  }

  /** A second fault-free pass leaves the contents of the store as they are. */
  lemma SecondPassChangesNothing(s: ShowerSys, namespace: string, name: string, version: string, fates: seq<Fate>)
    requires Live(s) && AllWork(fates)
    requires !RouteIsDeadly(WantFor(s.shower.value, namespace, name, version), s.store)
    ensures var s1 := Reconcile(s, namespace, name, version).0.(fates := fates);
      var s2 := Reconcile(s1, namespace, name, version).0;
      s1.up && s2.up && s2.store == s1.store
  {
    hide Reconcile, Progress, Converged, RouteIsDeadly, Actions;
    PassConverges(s, namespace, name, version);
    var s1 := Reconcile(s, namespace, name, version).0.(fates := fates);
    var sh, sh1 := s.shower.value, s1.shower.value;
    var w := WantFor(sh, namespace, name, version);
    assert WantFor(sh1, namespace, name, version) == w;
    assert RouteAction in Actions(sh.spec.services) by { RouteIsManaged(sh.spec.services); }
    NotDeadlyAgain(w, Actions(sh.spec.services), s.store, s1.store);
    PassConverges(s1, namespace, name, version);
    ProgressTwice(w, Actions(sh.spec.services), s.store, s1.store, Reconcile(s1, namespace, name, version).0.store);
  }

  lemma RouteIsManaged(services: seq<ExternalService>)
    ensures RouteAction in Actions(services)
  {
    assert OWN_ACTIONS[8] == RouteAction;
  }

  /** Where a pass stops, when its Shower was read at all. */
  function PassStopsAt(s: ShowerSys, namespace: string, name: string, version: string): nat
    requires GetShower(s).res.Ok?
  {
    var sh := GetShower(s).res.value;
    StoppedAt(ShowerLocal(GetShower(s).sys, Prepared(sh, version)), namespace, name, Actions(sh.spec.services))
  }

  /** Whatever the faults, a pass that fails at one action leaves every earlier object as a whole pass
      would, and every later object, unless an earlier action shares it, as it was. */
  lemma FailedPassStopsThere(s: ShowerSys, namespace: string, name: string, version: string, i: nat)
    requires GetShower(s).res.Ok? && !GetShower(s).res.value.deleting
    requires i < |Actions(GetShower(s).res.value.spec.services)|
    ensures var sh := GetShower(s).res.value; var w := WantFor(sh, namespace, name, version);
      var actions := Actions(sh.spec.services); var k := PassStopsAt(s, namespace, name, version);
      var after := Reconcile(s, namespace, name, version).0.store; var key := KeyOf(w, actions[i]);
      && k <= |actions|
      && (i < k ==> key in after)
      && (i < k ==> (Satisfied(w, actions[i], after[key]) <==> !(key in s.store && RouteOverlooked(w, s.store[key]))))
      && (i > k && actions[i] !in actions[..k + 1] ==> At(after, key) == At(s.store, key))
  {
    hide KeyOf, Goal, Satisfied, RouteOverlooked, Actions, StoppedAt, RunActions, ShowerPhase, Touches;
    var sh := GetShower(s).res.value;
    var actions := Actions(sh.spec.services);
    var l0 := ShowerLocal(GetShower(s).sys, Prepared(sh, version));
    var w := WantFor(sh, namespace, name, version);
    RunMakesProgress(l0, namespace, name, actions);
    var k := StoppedAt(l0, namespace, name, actions);
    var a := actions[i];
    if i < k {
      assert a in actions[..k];
      assert Reached(w, a, s.store, RunActions(l0, namespace, name, actions).0.sys.store);
      GoalSatisfiedIff(w, a, At(s.store, KeyOf(w, a)));
    } else if i > k && a !in actions[..k + 1] {
      NotTouched(w, actions, k, i);
    }
  }

  lemma NotTouched(w: Want, actions: seq<Action>, k: nat, i: nat)
    requires k < i < |actions| && actions[i] !in actions[..k + 1]
    ensures !Touches(w, actions[..k], KeyOf(w, actions[i])) && KeyOf(w, actions[k]) != KeyOf(w, actions[i])
  {
    hide KeyOf;
    assert actions[..k + 1] == actions[..k] + [actions[k]];
    if KeyOf(w, actions[k]) == KeyOf(w, actions[i]) { KeysAreOwn(w, actions[k], actions[i]); }
    if Touches(w, actions[..k], KeyOf(w, actions[i])) {
      var a :| a in actions[..k] && KeyOf(w, a) == KeyOf(w, actions[i]);
      KeysAreOwn(w, a, actions[i]);
    }
  }

  // ---------------------------------------------------------------- the two Routes that fail

  /** A Shower that wants a Route with these annotations, and a store that holds just that one Route. */
  function WithRoute(annotations: map<string, string>, route: Body): ShowerSys
    requires route.Route?
  {
    var spec := ShowerSpec(1, Ingress(annotations, map[], "example.org", "/"), "image", [], []);
    ShowerSys(map[ObjKey(RouteKind, "default", "meteor-shower-demo") := route],
              Some(ShowerCr(1, 1, false, spec, ShowerStatus(NoPhase, [], 0, "", ""))), 2, [], true)
  }

  lemma WithRouteKey(annotations: map<string, string>, route: Body)
    requires route.Route?
    ensures var s := WithRoute(annotations, route); var w := WantFor(s.shower.value, "default", "demo", "1");
      KeyOf(w, RouteAction) == ObjKey(RouteKind, "default", "meteor-shower-demo") && OwnName(w) == "meteor-shower-demo"
  {
    assert "meteor-shower-" + "demo" == "meteor-shower-demo";
  }

  /** A Route that points to another service and port while all else matches: a fault-free pass runs to
      its end and leaves it pointing there. */
  lemma OverlookedRouteStays()
    ensures var route := Route(map[], map[], "example.org", "/", RouteTarget("Service", "other"), Some("other"), false, "");
      var s := WithRoute(map[], route); var w := WantFor(s.shower.value, "default", "demo", "1");
      var s1 := Reconcile(s, "default", "demo", "1").0; var k := KeyOf(w, RouteAction);
      && Live(s) && s1.up && RouteOverlooked(w, route)
      && k in s1.store && !Satisfied(w, RouteAction, s1.store[k])
  {
    hide Reconcile, Progress, Satisfied, Actions, OwnName;
    var route := Route(map[], map[], "example.org", "/", RouteTarget("Service", "other"), Some("other"), false, "");
    var s := WithRoute(map[], route);
    WithRouteKey(map[], route);
    OtherNames();
    PassConverges(s, "default", "demo", "1");
    RouteIsManaged(s.shower.value.spec.services);
  }

  lemma OtherNames()
    ensures "other" != "meteor-shower-demo" && "other" != "http"
  {
    assert |"other"| == 5 && |"meteor-shower-demo"| == 18 && |"http"| == 4;
  }

  /** A Route without any annotation where one is desired ends the process. */
  lemma DeadlyRouteEndsProcess()
    ensures var route := Route(map[], map[], "example.org", "/", RouteTarget("Service", "other"), Some("other"), false, "");
      var s := WithRoute(map["kind" := "demo"], route);
      Live(s) && !Reconcile(s, "default", "demo", "1").0.up
  {
    hide Reconcile, Converged, Progress, OwnName;
    var route := Route(map[], map[], "example.org", "/", RouteTarget("Service", "other"), Some("other"), false, "");
    var annotations := map["kind" := "demo"];
    assert "kind" in annotations;
    var s := WithRoute(annotations, route);
    WithRouteKey(annotations, route);
    PassConverges(s, "default", "demo", "1");
  }
}
