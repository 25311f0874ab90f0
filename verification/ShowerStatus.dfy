/** What a Shower says of itself after a pass: its conditions, its phase one pass later, its image and its
    address, and what the pass answers to its caller. */
module ShowerStatus {
  import opened Kube
  import opened MeteorApi
  import opened ShowerPass
  import opened ShowerConverges
  import opened ShowerObjects

  const READY := Condition("Deployment", CondTrue, "Ready")
  const CREATED := Condition("Deployment", CondFalse, "Created")

  /** What the conditions become, given the Deployment as it is found. */
  function ConditionsAfter(cs: seq<Condition>, found: Option<Body>): seq<Condition> {
    match found
    case None => SetCondition(cs, CREATED)
    case Some(d) => if d.Deployment? && IsAvailable(d.conditions) then SetCondition(cs, READY) else cs
  }

  function Found(w: Want, a: Action, store: Store): Option<Body> {
    At(store, KeyOf(w, a))
  }

  // ---------------------------------------------------------------- one action

  /** Only the Deployment's action writes a condition. */
  lemma ActConditions(l: ShowerLocal, namespace: string, name: string, a: Action)
    requires AllWork(l.sys.fates) && !Deadly(WantOf(namespace, name, l.shower), a, l.sys.store)
    ensures var w := WantOf(namespace, name, l.shower); var cs := l.shower.status.conditions;
      Act(l, namespace, name, a).0.shower.status.conditions ==
        if a.DeploymentAction? then ConditionsAfter(cs, Found(w, a, l.sys.store)) else cs
  {
    hide Drifted, Fresh, Dies, AllWork, Arrive, SetCondition, IsAvailable, OwnName, PipelineName, ExternalName;
    CallsWork(l.sys);
    CallsWork(Arrive(l.sys).0);
  }

  function UrlOf(r: Body): string
    requires r.Route?
  {
    (if r.tls then "https" else "http") + "://" + r.host + r.path
  }

  /** Only the Route's action writes the address, and only if the Route was there before. */
  lemma ActUrl(l: ShowerLocal, namespace: string, name: string, a: Action)
    requires AllWork(l.sys.fates) && !Deadly(WantOf(namespace, name, l.shower), a, l.sys.store)
    ensures var w := WantOf(namespace, name, l.shower); var found := Found(w, a, l.sys.store);
      Act(l, namespace, name, a).0.shower.status.url ==
        if a.RouteAction? && found.Some? then UrlOf(Goal(w, a, found)) else l.shower.status.url
  {
    hide Drifted, Fresh, Dies, AllWork, Arrive, SetCondition, IsAvailable, OwnName, PipelineName, ExternalName;
    CallsWork(l.sys);
    CallsWork(Arrive(l.sys).0);
  }

  lemma ActKeepsHead(l: ShowerLocal, namespace: string, name: string, a: Action)
    ensures var st, st1 := l.shower.status, Act(l, namespace, name, a).0.shower.status;
      st1.phase == st.phase && st1.observedGeneration == st.observedGeneration
  {
    hide Drifted, Updated, Fresh, Dies, KeyOf, GetObj, CreateObj, UpdateObj, SetCondition, IsAvailable;
  }

  /** The Deployment at its goal calls for the same conditions as the one that was found. */
  lemma GoalConditions(w: Want, store: Store, cs: seq<Condition>)
    ensures var found := Found(w, DeploymentAction, store); var goal := Some(Goal(w, DeploymentAction, found));
      ConditionsAfter(ConditionsAfter(cs, found), goal) == ConditionsAfter(cs, found)
  {
    hide OwnName, Selector, SetCondition;
    LookupAfterSet(cs, READY, READY.kind);
    SetPresent(SetCondition(cs, READY), READY);
    NothingAvailable();
  }

  lemma NothingAvailable()
    ensures !IsAvailable([])
  {
  }

  /** The object of another action is found as before. */
  lemma FoundElsewhere(w: Want, head: Action, a: Action, before: Store, mid: Store)
    requires ChangedTo(before, mid, KeyOf(w, head), Goal(w, head, Found(w, head, before))) && a != head
    ensures Found(w, a, mid) == Found(w, a, before)
  {
    hide KeyOf, Goal;
    if KeyOf(w, a) == KeyOf(w, head) { KeysAreOwn(w, a, head); }
  }

  // ---------------------------------------------------------------- all actions

  /** The action occurs, and if it is the Route's, once. */
  ghost predicate RouteOnce(actions: seq<Action>) {
    forall i, j :: 0 <= i < j < |actions| ==> !(actions[i].RouteAction? && actions[j].RouteAction?)
  }

  ghost predicate Harmless(w: Want, actions: seq<Action>, store: Store) {
    forall a :: a in actions ==> !Deadly(w, a, store)
  }

  lemma HarmlessStep(l: ShowerLocal, namespace: string, name: string, actions: seq<Action>)
    requires actions != [] && AllWork(l.sys.fates) && Harmless(WantOf(namespace, name, l.shower), actions, l.sys.store)
    ensures var w := WantOf(namespace, name, l.shower); var (l1, end) := Act(l, namespace, name, actions[0]);
      var head := actions[0];
      && end == Done && !Deadly(w, head, l.sys.store) && AllWork(l1.sys.fates)
      && Harmless(w, actions[1..], l1.sys.store) && WantOf(namespace, name, l1.shower) == w
      && ChangedTo(l.sys.store, l1.sys.store, KeyOf(w, head), Goal(w, head, Found(w, head, l.sys.store)))
      && Found(w, head, l1.sys.store) == Some(Goal(w, head, Found(w, head, l.sys.store)))
  {
    hide Act, Deadly, Goal, KeyOf, AllWork, ChangedTo;
    var w := WantOf(namespace, name, l.shower);
    assert actions == [actions[0]] + actions[1..];
    ActWorks(l, namespace, name, actions[0]);
    ActOnOwnObject(l, namespace, name, actions[0]);
    var l1 := Act(l, namespace, name, actions[0]).0;
    forall a | a in actions[1..] ensures !Deadly(w, a, l1.sys.store) {
      StaysHarmless(w, actions[0], a, l.sys.store, l1.sys.store);
    }
  }

  lemma {:induction false} RunConditions(l: ShowerLocal, namespace: string, name: string, actions: seq<Action>)
    requires AllWork(l.sys.fates) && Harmless(WantOf(namespace, name, l.shower), actions, l.sys.store)
    ensures var w := WantOf(namespace, name, l.shower); var cs := l.shower.status.conditions;
      RunActions(l, namespace, name, actions).0.shower.status.conditions ==
        if DeploymentAction in actions then ConditionsAfter(cs, Found(w, DeploymentAction, l.sys.store)) else cs
    decreases |actions|
  {
    hide Act, Harmless, Goal, KeyOf, AllWork, ConditionsAfter, Found, ChangedTo;
    if actions != [] {
      var w := WantOf(namespace, name, l.shower);
      var head := actions[0];
      assert actions == [head] + actions[1..];
      HarmlessStep(l, namespace, name, actions);
      ActConditions(l, namespace, name, head);
      var l1 := Act(l, namespace, name, head).0;
      RunConditions(l1, namespace, name, actions[1..]);
      if head == DeploymentAction {
        GoalConditions(w, l.sys.store, l.shower.status.conditions);
      } else {
        FoundElsewhere(w, head, DeploymentAction, l.sys.store, l1.sys.store);
      }
    }
  }

  lemma {:induction false} RunUrl(l: ShowerLocal, namespace: string, name: string, actions: seq<Action>)
    requires AllWork(l.sys.fates) && Harmless(WantOf(namespace, name, l.shower), actions, l.sys.store) && RouteOnce(actions)
    ensures var w := WantOf(namespace, name, l.shower); var found := Found(w, RouteAction, l.sys.store);
      RunActions(l, namespace, name, actions).0.shower.status.url ==
        if RouteAction in actions && found.Some? then UrlOf(Goal(w, RouteAction, found)) else l.shower.status.url
    decreases |actions|
  {
    hide Act, Harmless, Goal, KeyOf, AllWork, Found, ChangedTo, UrlOf;
    if actions != [] {
      var w := WantOf(namespace, name, l.shower);
      var head := actions[0];
      assert actions == [head] + actions[1..];
      HarmlessStep(l, namespace, name, actions);
      ActUrl(l, namespace, name, head);
      var l1 := Act(l, namespace, name, head).0;
      RunUrl(l1, namespace, name, actions[1..]);
      if head != RouteAction { FoundElsewhere(w, head, RouteAction, l.sys.store, l1.sys.store); }
    }
  }

  lemma {:induction false} RunKeepsHead(l: ShowerLocal, namespace: string, name: string, actions: seq<Action>)
    ensures var st, st1 := l.shower.status, RunActions(l, namespace, name, actions).0.shower.status;
      st1.phase == st.phase && st1.observedGeneration == st.observedGeneration
    decreases |actions|
  {
    hide Act;
    if actions != [] {
      ActKeepsHead(l, namespace, name, actions[0]);
      RunKeepsHead(Act(l, namespace, name, actions[0]).0, namespace, name, actions[1..]);
    }
  }

  // ---------------------------------------------------------------- the pass

  lemma RouteListedOnce(services: seq<ExternalService>)
    ensures RouteOnce(Actions(services))
  {
    var actions := Actions(services);
    forall i | 0 <= i < |actions| && actions[i].RouteAction? ensures i == 8 {
      if i >= |OWN_ACTIONS| {
        assert actions[i] in ExternalActions(services);
        ExternalListed(services, actions[i]);
        assert false;
      }
    }
  }

  lemma NoneDeadly(w: Want, services: seq<ExternalService>, store: Store)
    requires !RouteIsDeadly(w, store)
    ensures Harmless(w, Actions(services), store)
  {
    hide Deadly, Actions;
    OnlyRouteIsDeadly(w, services, store);
  }

  /** What a fault-free pass writes into the status. */
  lemma PassStatus(s: ShowerSys, namespace: string, name: string, version: string)
    requires Live(s) && !RouteIsDeadly(WantFor(s.shower.value, namespace, name, version), s.store)
    ensures var sh := s.shower.value; var w := WantFor(sh, namespace, name, version);
      var (s1, o) := Reconcile(s, namespace, name, version); var route := Found(w, RouteAction, s.store);
      && o == ShowerOutcome(false, false, false) && s1.up && s1.shower.Some?
      && var st := s1.shower.value.status;
        && st.conditions == ConditionsAfter(sh.status.conditions, Found(w, DeploymentAction, s.store))
        && st.phase == ShowerPhase(sh.status.conditions)
        && st.observedGeneration == sh.generation && st.image == ImageOf(sh.spec, version)
        && st.url == (if route.Some? then UrlOf(Goal(w, RouteAction, route)) else sh.status.url)
  {
    hide RunActions, RouteIsDeadly, Deadly, ShowerPhase, Actions, Harmless, RouteOnce, AllWork, Arrive, KeyOf, Goal, UrlOf;
    hide ConditionsAfter, Found;
    CallsWork(s);
    var sh := s.shower.value;
    var actions := Actions(sh.spec.services);
    var l0 := ShowerLocal(GetShower(s).sys, Prepared(sh, version));
    var w := WantFor(sh, namespace, name, version);
    NoneDeadly(w, sh.spec.services, s.store);
    OnlyRouteIsDeadly(w, sh.spec.services, s.store);
    RouteListedOnce(sh.spec.services);
    OwnListed(sh.spec.services, DeploymentAction);
    OwnListed(sh.spec.services, RouteAction);
    RunWorks(l0, namespace, name, actions);
    RunMakesProgress(l0, namespace, name, actions);
    RunConditions(l0, namespace, name, actions);
    RunUrl(l0, namespace, name, actions);
    RunKeepsHead(l0, namespace, name, actions);
    CallsWork(RunActions(l0, namespace, name, actions).0.sys);
  }

  lemma KeysAre(s: ShowerSys, namespace: string, name: string, version: string)
    requires s.shower.Some?
    ensures var w := WantFor(s.shower.value, namespace, name, version);
      && KeyOf(w, DeploymentAction) == ObjKey(DeploymentKind, namespace, Own(name))
      && KeyOf(w, RouteAction) == ObjKey(RouteKind, namespace, Own(name))
  {
    hide OwnName, Own;
    SameNames(WantFor(s.shower.value, namespace, name, version));
  }

  // ---------------------------------------------------------------- the theorems

  /** A fault-free pass that runs to its end leaves a status about the objects it leaves: the image is the one
      the Deployment runs, the address is that of the stored Route, if it was there before the pass, and the
      Deployment's condition tells of one just created, of one that was available, or is as it was. */
  lemma StatusTellsOfObjects(s: ShowerSys, namespace: string, name: string, version: string)
    requires Live(s) && Reconcile(s, namespace, name, version).0.up
    ensures var sh := s.shower.value; var (s1, o) := Reconcile(s, namespace, name, version); var own := Own(name);
      var route, deployment := ObjKey(RouteKind, namespace, own), ObjKey(DeploymentKind, namespace, own);
      && o == ShowerOutcome(false, false, false) && s1.shower.Some? && s1.shower.value.spec == sh.spec
      && route in s1.store && deployment in s1.store && s1.store[route].Route? && s1.store[deployment].Deployment?
      && var st := s1.shower.value.status; var r := s1.store[route]; var cs := sh.status.conditions;
        && st.observedGeneration == sh.generation && st.image == s1.store[deployment].template.image
        && st.url == (if route in s.store then (if r.tls then "https" else "http") + "://" + r.host + r.path else sh.status.url)
        && (deployment !in s.store ==> Lookup(st.conditions, "Deployment") == Some(CREATED))
        && (deployment in s.store && s.store[deployment].Deployment? ==>
              if IsAvailable(s.store[deployment].conditions) then Lookup(st.conditions, "Deployment") == Some(READY)
              else st.conditions == cs)
  {
    hide Reconcile, Own, OwnName, Satisfied, RouteIsDeadly, Actions, Goal, SetCondition, Lookup, IsAvailable, Prepared;
    PassConverges(s, namespace, name, version);
    PassStatus(s, namespace, name, version);
    KeysAre(s, namespace, name, version);
    SelectorsMeetTheirPods(s, namespace, name, version);
    RouteMeetsTheService(s, namespace, name, version);
    var sh := s.shower.value;
    LookupAfterSet(sh.status.conditions, READY, "Deployment");
    LookupAfterSet(sh.status.conditions, CREATED, "Deployment");
    GoalsReached(s, namespace, name, version);
  }

  lemma GoalsReached(s: ShowerSys, namespace: string, name: string, version: string)
    requires Live(s) && Reconcile(s, namespace, name, version).0.up
    ensures var w := WantFor(s.shower.value, namespace, name, version);
      var after := Reconcile(s, namespace, name, version).0.store;
      && Found(w, RouteAction, after) == Some(Goal(w, RouteAction, Found(w, RouteAction, s.store)))
      && Found(w, DeploymentAction, after) == Some(Goal(w, DeploymentAction, Found(w, DeploymentAction, s.store)))
  {
    hide Reconcile, Goal, KeyOf, Actions, Satisfied, RouteIsDeadly, Prepared;
    PassConverges(s, namespace, name, version);
    var services := s.shower.value.spec.services;
    var w := WantFor(s.shower.value, namespace, name, version);
    var after := Reconcile(s, namespace, name, version).0.store;
    OwnListed(services, RouteAction);
    OwnListed(services, DeploymentAction);
    assert Actions(services)[..|Actions(services)|] == Actions(services);
    assert Reached(w, RouteAction, s.store, after) && Reached(w, DeploymentAction, s.store, after);
  }

  lemma PhaseOfNext(cs: seq<Condition>, found: Option<Body>)
    requires UniqueKinds(cs) && (found.Some? ==> found.value.Deployment?)
    ensures ShowerPhase(ConditionsAfter(cs, found)) ==
            if found.None? then Pending
            else if IsAvailable(found.value.conditions) then Succeeded
            else if cs == [] || (exists c :: c in cs && c.kind == "Deployment" && c.status == CondFalse) then Pending
            else Succeeded
  {
    hide SetCondition, UniqueKinds, IsAvailable;
    SetKeepsUnique(cs, READY);
    MembersAfterSet(cs, READY);
    MembersAfterSet(cs, CREATED);
    var cs1 := SetCondition(cs, READY);
    forall c | c in cs1 && c.kind == "Deployment" ensures c == READY { UniqueKind(cs1, c, READY); }
  }

  lemma UniqueKind(cs: seq<Condition>, a: Condition, b: Condition)
    requires UniqueKinds(cs) && a in cs && b in cs && a.kind == b.kind
    ensures a == b
  {
    var i :| 0 <= i < |cs| && cs[i] == a;
    var j :| 0 <= j < |cs| && cs[j] == b;
  }

  /** The stored phase is one pass behind the conditions. After two fault-free passes it is Pending when the
      Deployment had to be created, Succeeded when it was available, and otherwise as the conditions of
      before say: Pending when there were none, or one that reports the Deployment as not ready. */
  lemma PhaseAfterTwoPasses(s: ShowerSys, namespace: string, name: string, version: string, fates: seq<Fate>)
    requires Live(s) && Reconcile(s, namespace, name, version).0.up && AllWork(fates)
    requires UniqueKinds(s.shower.value.status.conditions)
    ensures var k := ObjKey(DeploymentKind, namespace, Own(name)); var cs := s.shower.value.status.conditions;
      var s1 := Reconcile(s, namespace, name, version).0.(fates := fates);
      var s2 := Reconcile(s1, namespace, name, version).0;
      && s2.up && s2.shower.Some?
      && s2.shower.value.status.phase ==
           if k !in s.store then Pending
           else if s.store[k].Deployment? && IsAvailable(s.store[k].conditions) then Succeeded
           else if cs == [] || (exists c :: c in cs && c.kind == "Deployment" && c.status == CondFalse) then Pending
           else Succeeded
  {
    hide Reconcile, RouteIsDeadly, Actions, ConditionsAfter, ShowerPhase, UniqueKinds, Progress, Converged, IsAvailable, Goal;
    hide Own, OwnName;
    PassConverges(s, namespace, name, version);
    PassStatus(s, namespace, name, version);
    KeysAre(s, namespace, name, version);
    var s1 := Reconcile(s, namespace, name, version).0.(fates := fates);
    var w := WantFor(s.shower.value, namespace, name, version);
    assert WantFor(s1.shower.value, namespace, name, version) == w;
    RouteIsManaged(s.shower.value.spec.services);
    NotDeadlyAgain(w, Actions(s.shower.value.spec.services), s.store, s1.store);
    PassConverges(s1, namespace, name, version);
    PassStatus(s1, namespace, name, version);
    PhaseOfNext(s.shower.value.status.conditions, Found(w, DeploymentAction, s.store));
  }

  /** Under any faults: a pass that does not ask to be repeated has written its status, for the generation it
      read; it reports an error, and then asks to be called later as well, exactly when some action was not
      done; and if it reports nothing, every action was done. */
  lemma AnswerTellsOfThePass(s: ShowerSys, namespace: string, name: string, version: string)
    requires s.up && GetShower(s).res.Ok? && !GetShower(s).res.value.deleting
    ensures var sh := GetShower(s).res.value; var (s1, o) := Reconcile(s, namespace, name, version);
      s1.up ==>
        && (!o.requeue ==>
              && s1.shower.Some? && s1.shower.value.rv == s.nextRv && s1.nextRv == s.nextRv + 1
              && s1.shower.value.spec == sh.spec && s1.shower.value.status.observedGeneration == s1.shower.value.generation
              && (o.failed <==> PassStopsAt(s, namespace, name, version) < |Actions(sh.spec.services)|)
              && (o.later <==> o.failed))
        && (o.requeue ==> !o.failed && !o.later)
  {
    hide RunActions, Progress, Actions, StoppedAt, ShowerPhase, Arrive;
    var sh := GetShower(s).res.value;
    var l0 := ShowerLocal(GetShower(s).sys, Prepared(sh, version));
    FatesOnly(s);
    RunMakesProgress(l0, namespace, name, Actions(sh.spec.services));
    RunKeepsHead(l0, namespace, name, Actions(sh.spec.services));
    DeathIsDown(l0, namespace, name, Actions(sh.spec.services));
    FatesOnly(RunActions(l0, namespace, name, Actions(sh.spec.services)).0.sys);
  }

  lemma {:induction false} DeathIsDown(l: ShowerLocal, namespace: string, name: string, actions: seq<Action>)
    ensures var (l1, end) := RunActions(l, namespace, name, actions); end == Died ==> !l1.sys.up
    decreases |actions|
  {
    hide Dies, Drifted, Updated, Fresh, KeyOf, GetObj, CreateObj, UpdateObj, AfterFound, AfterCreate;
    if actions != [] { DeathIsDown(Act(l, namespace, name, actions[0]).0, namespace, name, actions[1..]); }
  }

  lemma FatesOnly(s: ShowerSys)
    ensures Arrive(s).0 == s.(fates := Arrive(s).0.fates)
  {
  }

  /** A Shower that is gone or being deleted is left alone, and nothing is reported; one that cannot be read
      is an error, and the pass asks to be repeated. No object changes either way. */
  lemma NothingToDo(s: ShowerSys, namespace: string, name: string, version: string)
    requires GetShower(s).res.Err? || GetShower(s).res.value.deleting
    ensures var read := GetShower(s).res; var (s1, o) := Reconcile(s, namespace, name, version);
      && s1.store == s.store && s1.shower == s.shower && s1.up == s.up
      && o == (if read.Ok? || read == Err(NotFound) then ShowerOutcome(false, false, false) else ShowerOutcome(true, false, true))
  {
  }

  /** A missing Deployment that cannot be created is on record as such, and the action reports an error;
      that the creation took effect and only its answer was lost makes no difference. */
  lemma RefusedDeploymentIsOnRecord(l: ShowerLocal, namespace: string, name: string)
    requires GetObj(l.sys, ObjKey(DeploymentKind, namespace, Own(name))).res == Err(NotFound)
    ensures var (l1, end) := Act(l, namespace, name, DeploymentAction); var cs := l1.shower.status.conditions;
      && end != Died
      && (end == Erred ==> Lookup(cs, "Deployment") == Some(Condition("Deployment", CondFalse, "CreateError")))
      && (end == Done ==> Lookup(cs, "Deployment") == Some(CREATED))
  {
    hide OwnName, Own, Lookup, SetCondition, Fresh, Arrive;
    SameNames(WantOf(namespace, name, l.shower));
    LookupAfterSet(l.shower.status.conditions, CREATED, "Deployment");
    LookupAfterSet(l.shower.status.conditions, Condition("Deployment", CondFalse, "CreateError"), "Deployment");
  }
}
