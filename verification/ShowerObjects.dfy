/** What a Shower pass leaves in the cluster: the objects by their literal names, how they refer to each
    other, and what the Shower's own status says about them. */
module ShowerObjects {
  import opened Kube
  import opened MeteorApi
  import opened ShowerPass
  import opened ShowerConverges

  // ---------------------------------------------------------------- which objects

  function Own(name: string): string { "meteor-shower-" + name }

  function Pipeline(name: string): string { "meteor-pipeline-" + name }

  function External(namespace: string, name: string): string { "meteor-external-" + namespace + "-" + name }

  /** A namespace other than the empty one hosts an external service. */
  predicate IsExternal(services: seq<ExternalService>, namespace: string) {
    namespace != "" && exists x :: x in services && x.namespace == namespace
  }

  /** The seven kinds under the Shower's own name, a Role and a RoleBinding for pipelines beside them, and
      a Role and a RoleBinding in each external namespace. */
  predicate IsManaged(k: ObjKey, namespace: string, name: string, services: seq<ExternalService>) {
    || (k.namespace == namespace && k.name == Own(name))
    || (k.namespace == namespace && k.name == Pipeline(name) && (k.kind == RoleKind || k.kind == RoleBindingKind))
    || (k.name == External(namespace, name) && (k.kind == RoleKind || k.kind == RoleBindingKind)
        && IsExternal(services, k.namespace))
  }

  lemma {:induction false} ExternalListed(services: seq<ExternalService>, a: Action)
    ensures a in ExternalActions(services)
            <==> (a.ExternalRoleAction? || a.ExternalBindingAction?) && IsExternal(services, a.namespace)
    decreases |services|
  {
    if services != [] {
      ExternalListed(services[1..], a);
      assert services == [services[0]] + services[1..];
    }
  }

  lemma OwnListed(services: seq<ExternalService>, a: Action)
    requires !a.ExternalRoleAction? && !a.ExternalBindingAction?
    ensures a in Actions(services)
  {
    match a
    case AccountAction => assert OWN_ACTIONS[0] == a;
    case ShowerRoleAction => assert OWN_ACTIONS[1] == a;
    case ShowerBindingAction => assert OWN_ACTIONS[2] == a;
    case PipelineRoleAction => assert OWN_ACTIONS[3] == a;
    case PipelineBindingAction => assert OWN_ACTIONS[4] == a;
    case DeploymentAction => assert OWN_ACTIONS[5] == a;
    case ServiceAction => assert OWN_ACTIONS[6] == a;
    case MonitorAction => assert OWN_ACTIONS[7] == a;
    case RouteAction => assert OWN_ACTIONS[8] == a;
  }

  /** The action that works on a managed object. */
  function ActionFor(k: ObjKey, name: string, namespace: string): Action {
    if k.name == External(namespace, name) then
      if k.kind == RoleKind then ExternalRoleAction(k.namespace) else ExternalBindingAction(k.namespace)
    else if k.name == Pipeline(name) then
      if k.kind == RoleKind then PipelineRoleAction else PipelineBindingAction
    else
      match k.kind
      case ServiceAccountKind => AccountAction
      case RoleKind => ShowerRoleAction
      case RoleBindingKind => ShowerBindingAction
      case DeploymentKind => DeploymentAction
      case ServiceKind => ServiceAction
      case MonitorKind => MonitorAction
      case RouteKind => RouteAction
  }

  lemma ManagedIsActedOn(w: Want, services: seq<ExternalService>, k: ObjKey)
    requires IsManaged(k, w.namespace, w.name, services)
    ensures var a := ActionFor(k, w.name, w.namespace); a in Actions(services) && KeyOf(w, a) == k
  {
    hide OwnName, PipelineName, ExternalName, Own, Pipeline, External;
    SameNames(w);
    NamesDiffer(w);
    var a := ActionFor(k, w.name, w.namespace);
    ExternalListed(services, a);
    if !a.ExternalRoleAction? && !a.ExternalBindingAction? { OwnListed(services, a); }
  }

  lemma SameNames(w: Want)
    ensures OwnName(w) == Own(w.name) && PipelineName(w) == Pipeline(w.name)
    ensures ExternalName(w) == External(w.namespace, w.name)
  {
  }

  lemma ActedOnIsManaged(w: Want, services: seq<ExternalService>, a: Action)
    requires a in Actions(services)
    ensures IsManaged(KeyOf(w, a), w.namespace, w.name, services)
  {
    hide OwnName, PipelineName, ExternalName, Own, Pipeline, External;
    SameNames(w);
    ExternalListed(services, a);
  }

  lemma TouchedIffManaged(w: Want, services: seq<ExternalService>, k: ObjKey)
    ensures Touches(w, Actions(services), k) <==> IsManaged(k, w.namespace, w.name, services)
  {
    hide KeyOf, IsManaged, Actions;
    if IsManaged(k, w.namespace, w.name, services) { ManagedIsActedOn(w, services, k); }
    if a :| a in Actions(services) && KeyOf(w, a) == k { ActedOnIsManaged(w, services, a); }
  }

  /** After a fault-free pass that runs to its end, from any store and for any Shower: every managed object
      is there, under its literal name, and everything else is as it was. */
  lemma ManagedObjectsExist(s: ShowerSys, namespace: string, name: string, version: string, k: ObjKey)
    requires Live(s) && Reconcile(s, namespace, name, version).0.up
    ensures var services := s.shower.value.spec.services; var after := Reconcile(s, namespace, name, version).0.store;
      if IsManaged(k, namespace, name, services) then k in after
      else (k in after <==> k in s.store) && (k in s.store ==> after[k] == s.store[k])
  {
    hide Reconcile, KeyOf, IsManaged, Actions, Satisfied, Progress, Prepared, ActionFor, Touches;
    PassConverges(s, namespace, name, version);
    var w := WantFor(s.shower.value, namespace, name, version);
    TouchedIffManaged(w, s.shower.value.spec.services, k);
    if IsManaged(k, namespace, name, s.shower.value.spec.services) {
      ManagedIsActedOn(w, s.shower.value.spec.services, k);
    }
  }

  // ---------------------------------------------------------------- how the objects fit together

  lemma ManagedSatisfied(s: ShowerSys, namespace: string, name: string, version: string, k: ObjKey)
    requires Live(s) && Reconcile(s, namespace, name, version).0.up
    requires IsManaged(k, namespace, name, s.shower.value.spec.services)
    ensures var after := Reconcile(s, namespace, name, version).0.store;
      var w := WantFor(s.shower.value, namespace, name, version);
      && k in after
      && (k.kind != RouteKind || k !in s.store || !RouteOverlooked(w, s.store[k]) ==>
            Satisfied(w, ActionFor(k, name, namespace), after[k]))
  {
    hide Reconcile, KeyOf, IsManaged, Actions, Satisfied, Progress, Prepared, ActionFor, RouteOverlooked;
    PassConverges(s, namespace, name, version);
    var w := WantFor(s.shower.value, namespace, name, version);
    ManagedIsActedOn(w, s.shower.value.spec.services, k);
    if k in s.store { OnlyRoutes(w, s.store[k]); }
  }

  lemma OnlyRoutes(w: Want, b: Body)
    ensures RouteOverlooked(w, b) ==> b.Kind() == RouteKind
  {
  }

  /** After a fault-free pass each managed RoleBinding grants the Role of its own namespace and name, which
      exists and holds the rules of its purpose, to one account of the Shower's namespace: the Shower's own
      account, which exists, or the pipelines' account. */
  lemma BindingsGrantExistingRoles(s: ShowerSys, namespace: string, name: string, version: string, k: ObjKey)
    requires Live(s) && Reconcile(s, namespace, name, version).0.up
    requires k.kind == RoleBindingKind && IsManaged(k, namespace, name, s.shower.value.spec.services)
    ensures var after := Reconcile(s, namespace, name, version).0.store;
      && k in after
      && var b := after[k]; var role := ObjKey(RoleKind, k.namespace, k.name);
        && b.RoleBinding? && b.roleRef == RoleRef("Role", k.name) && role in after && after[role].Role?
        && after[role].rules ==
             (if k.name == Own(name) then ShowerRules else if k.name == Pipeline(name) then PipelineRules else ExternalRules)
        && |b.subjects| == 1 && b.subjects[0].kind == "ServiceAccount" && b.subjects[0].namespace == namespace
        && b.subjects[0].name == (if k.name == Own(name) then Own(name) else "pipeline")
        && (k.name == Own(name) ==> ObjKey(ServiceAccountKind, namespace, b.subjects[0].name) in after)
  {
    hide Reconcile, Own, Pipeline, External, OwnName, PipelineName, ExternalName, Prepared;
    var w := WantFor(s.shower.value, namespace, name, version);
    SameNames(w);
    NamesDiffer(w);
    var role := ObjKey(RoleKind, k.namespace, k.name);
    ManagedSatisfied(s, namespace, name, version, k);
    ManagedSatisfied(s, namespace, name, version, role);
    ManagedSatisfied(s, namespace, name, version, ObjKey(ServiceAccountKind, namespace, Own(name)));
  }

  /** The image the Shower runs: its own choice, or the default of the operator's version. */
  function ImageOf(spec: ShowerSpec, version: string): string {
    if spec.image != "" then spec.image else "quay.io/thoth-station/meteor-shower:v" + version
  }

  /** After a fault-free pass the Deployment runs under the Shower's account, which exists, with the image,
      the environment and the number of replicas that are wanted; its pods carry the labels by which the
      Deployment, the Service and the ServiceMonitor select, and these single out this Shower. */
  lemma SelectorsMeetTheirPods(s: ShowerSys, namespace: string, name: string, version: string)
    requires Live(s) && Reconcile(s, namespace, name, version).0.up
    ensures var spec := s.shower.value.spec; var after := Reconcile(s, namespace, name, version).0.store;
      var own := Own(name);
      var account, deployment := ObjKey(ServiceAccountKind, namespace, own), ObjKey(DeploymentKind, namespace, own);
      var service, monitor := ObjKey(ServiceKind, namespace, own), ObjKey(MonitorKind, namespace, own);
      && account in after && deployment in after && service in after && monitor in after
      && var d, v, m := after[deployment], after[service], after[monitor];
        && d.Deployment? && v.Service? && m.Monitor?
        && d.replicas == spec.replicas && d.template.env == spec.env && d.template.image == ImageOf(spec, version)
        && d.template.account == account.name
        && d.template.labels == map["shower.meteor.zone" := own]
        && d.podSelector == d.template.labels && v.selector == d.template.labels && m.monitored == d.template.labels
        && v.serviceType == "ClusterIP" && v.ports == "http/TCP/3000/3000" && m.endpoints == "http/http//metrics"
  {
    hide Reconcile, Own, Pipeline, External, OwnName, PipelineName, ExternalName;
    var w := WantFor(s.shower.value, namespace, name, version);
    SameNames(w);
    NamesDiffer(w);
    ManagedSatisfied(s, namespace, name, version, ObjKey(ServiceAccountKind, namespace, Own(name)));
    ManagedSatisfied(s, namespace, name, version, ObjKey(DeploymentKind, namespace, Own(name)));
    ManagedSatisfied(s, namespace, name, version, ObjKey(ServiceKind, namespace, Own(name)));
    ManagedSatisfied(s, namespace, name, version, ObjKey(MonitorKind, namespace, Own(name)));
  }

  /** The parts of an object that the operator does not manage: what it never writes, the conditions of a
      Deployment, and the annotations and labels of a Route that are not asked for. */
  predicate SameRest(b: Body, b': Body, wanted: Ingress) {
    match b
    case ServiceAccount(_) => b' == b
    case Role(_, rest) => b'.Role? && b'.rest == rest
    case RoleBinding(_, _, rest) => b'.RoleBinding? && b'.rest == rest
    case Deployment(_, _, _, conditions, rest) => b'.Deployment? && b'.conditions == conditions && b'.rest == rest
    case Service(_, _, _, rest) => b'.Service? && b'.rest == rest
    case Monitor(_, _, rest) => b'.Monitor? && b'.rest == rest
    case Route(annotations, labels, _, _, _, _, tls, rest) =>
      && b'.Route? && b'.tls == tls && b'.rest == rest
      && SameUnwanted(annotations, b'.annotations, wanted.annotations) && SameUnwanted(labels, b'.labels, wanted.labels)
  }

  predicate SameUnwanted(m: map<string, string>, m': map<string, string>, wanted: map<string, string>) {
    m - wanted.Keys == m' - wanted.Keys
  }

  predicate IsOverlooked(r: Body, wanted: Ingress, own: string) {
    && r.Route? && r.to != RouteTarget("Service", own) && r.port != Some("http")
    && IsMapASubset(r.annotations, wanted.annotations) && IsMapASubset(r.labels, wanted.labels)
    && r.host == wanted.host && r.path == wanted.path
  }

  lemma GoalKeepsRest(w: Want, a: Action, b: Body)
    requires b.Kind() == KeyOf(w, a).kind
    ensures SameRest(b, Goal(w, a, Some(b)), w.spec.ingress)
    ensures RouteOverlooked(w, b) ==> Goal(w, a, Some(b)) == b
  {
    hide OwnName, PipelineName, ExternalName, Selector;
  }

  /** An object that was there keeps what the operator does not manage; an overlooked Route keeps all. */
  lemma UnmanagedPartsStay(s: ShowerSys, namespace: string, name: string, version: string, k: ObjKey)
    requires Live(s) && Reconcile(s, namespace, name, version).0.up && k in s.store
    ensures var after := Reconcile(s, namespace, name, version).0.store; var wanted := s.shower.value.spec.ingress;
      && k in after && after[k].Kind() == s.store[k].Kind()
      && SameRest(s.store[k], after[k], wanted)
      && (IsOverlooked(s.store[k], wanted, Own(name)) ==> after[k] == s.store[k])
  {
    hide Reconcile, KeyOf, IsManaged, Actions, Satisfied, ActionFor, SameRest, OwnName, Goal, Own;
    var w := WantFor(s.shower.value, namespace, name, version);
    assert w.spec == s.shower.value.spec;
    hide Prepared;
    var after := Reconcile(s, namespace, name, version).0.store;
    var services := s.shower.value.spec.services;
    ManagedObjectsExist(s, namespace, name, version, k);
    SameNames(w);
    RestOfSame(s.store[k], s.shower.value.spec.ingress);
    if IsManaged(k, namespace, name, services) {
      PassConverges(s, namespace, name, version);
      ManagedIsActedOn(w, services, k);
      var a := ActionFor(k, name, namespace);
      assert Actions(services)[..|Actions(services)|] == Actions(services);
      assert Reached(w, a, s.store, after);
      assert At(s.store, k) == Some(s.store[k]) && At(after, k) == Some(after[k]);
      GoalKeepsRest(w, a, s.store[k]);
    }
  }

  lemma RestOfSame(b: Body, wanted: Ingress)
    ensures SameRest(b, b, wanted)
  {
  }

  /** After a fault-free pass the Route serves the wanted host and path from the http port of the Shower's
      Service, which exists, with all wanted annotations and labels; unless it was overlooked. */
  lemma RouteMeetsTheService(s: ShowerSys, namespace: string, name: string, version: string)
    requires Live(s) && Reconcile(s, namespace, name, version).0.up
    ensures var wanted := s.shower.value.spec.ingress; var after := Reconcile(s, namespace, name, version).0.store;
      var own := Own(name); var k := ObjKey(RouteKind, namespace, own);
      && k in after && ObjKey(ServiceKind, namespace, own) in after && after[k].Route?
      && var r := after[k];
        if k in s.store && IsOverlooked(s.store[k], wanted, own) then r == s.store[k]
        else
          && r.to == RouteTarget("Service", own) && r.port == Some("http") && r.host == wanted.host && r.path == wanted.path
          && (forall x :: x in wanted.annotations ==> x in r.annotations && r.annotations[x] == wanted.annotations[x])
          && (forall x :: x in wanted.labels ==> x in r.labels && r.labels[x] == wanted.labels[x])
  {
    hide Reconcile, Own, Pipeline, External, OwnName, PipelineName, ExternalName, SameRest;
    var w := WantFor(s.shower.value, namespace, name, version);
    SameNames(w);
    NamesDiffer(w);
    var k := ObjKey(RouteKind, namespace, Own(name));
    ManagedSatisfied(s, namespace, name, version, k);
    ManagedSatisfied(s, namespace, name, version, ObjKey(ServiceKind, namespace, Own(name)));
    if k in s.store { UnmanagedPartsStay(s, namespace, name, version, k); }
  }
}
