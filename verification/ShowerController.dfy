/** The Shower controller as it is written: create-or-update methods that assign the managed fields of
    what they fetched, and a pass that grows a list of actions and runs it with early exit. Every method
    is proved against its function in ShowerPass. */
module ShowerController {
  import opened Kube
  import opened MeteorApi
  import opened ShowerPass

  class ShowerReconciler {
    var sys: ShowerSys
    var shower: ShowerCr
    const name: string
    const namespace: string
    const version: string

    ghost function Here(): ShowerLocal
      reads this
    {
      ShowerLocal(sys, shower)
    }

    function Wanted(): Want
      reads this
    {
      WantOf(namespace, name, shower)
    }

    constructor (sys: ShowerSys, shower: ShowerCr, name: string, namespace: string, version: string)
      ensures this.sys == sys && this.shower == shower
      ensures this.name == name && this.namespace == namespace && this.version == version
    {
      this.sys, this.shower := sys, shower;
      this.name, this.namespace, this.version := name, namespace, version;
    }

    method Reconcile() returns (outcome: ShowerOutcome)
      modifies this
      ensures (sys, outcome) == ShowerPass.Reconcile(old(sys), namespace, name, version)
    {
      hide Act, Actions, GetShower, WriteShower, ShowerPhase;
      var got := GetShower(sys);
      sys := got.sys;
      if got.res.Err? {
        if got.res.error == NotFound {
          return ShowerOutcome(false, false, false);
        }
        return ShowerOutcome(true, false, true);
      }
      shower := got.res.value;
      if shower.deleting {
        return ShowerOutcome(false, false, false);
      }
      shower := shower.(status := shower.status.(observedGeneration := shower.generation));
      if shower.spec.image != "" {
        shower := shower.(status := shower.status.(image := shower.spec.image));
      } else {
        shower := shower.(status := shower.status.(image := DEFAULT_IMAGE + version));
      }
      shower := shower.(status := shower.status.(phase := ShowerPhase(shower.status.conditions)));
      assert shower == Prepared(got.res.value, version);

      var actions := BuildActions(shower.spec.services);
      ghost var l0 := Here();
      for i := 0 to |actions|
        invariant RunActions(l0, namespace, name, actions) == RunActions(Here(), namespace, name, actions[i..])
      {
        assert actions[i..][1..] == actions[i + 1..];
        var end := Run(actions[i]);
        if end != Done {
          assert RunActions(l0, namespace, name, actions) == (Here(), end);
          if end == Died {
            return ShowerOutcome(false, false, false);
          }
          outcome := UpdateStatusNow(true);
          return;
        }
      }
      outcome := UpdateStatusNow(false);
    }

    method BuildActions(services: seq<ExternalService>) returns (actions: seq<Action>)
      ensures actions == Actions(services)
    {
      actions := OWN_ACTIONS;
      for i := 0 to |services|
        invariant actions + ExternalActions(services[i..]) == Actions(services)
      {
        assert services[i..][1..] == services[i + 1..];
        if services[i].namespace != "" {
          actions := actions + [ExternalRoleAction(services[i].namespace), ExternalBindingAction(services[i].namespace)];
        }
      }
      assert services[|services|..] == [];
    }

    method UpdateStatusNow(failed: bool) returns (outcome: ShowerOutcome)
      modifies this`sys
      ensures (Here(), outcome) == ShowerPass.UpdateStatusNow(old(Here()), failed)
    {
      var written := WriteShower(sys, shower);
      sys := written.sys;
      if written.res.Err? {
        return ShowerOutcome(true, false, false);
      }
      return ShowerOutcome(false, failed, failed);
    }

    method SetCondition(status: CondStatus, reason: string)
      modifies this`shower
      ensures shower == SetDeployment(old(shower), status, reason)
    {
      var condition := Condition("Deployment", status, reason);
      shower := shower.(status := shower.status.(conditions := Kube.SetCondition(shower.status.conditions, condition)));
    }

    method Run(a: Action) returns (end: End)
      modifies this`sys, this`shower
      ensures (Here(), end) == Act(old(Here()), namespace, name, a)
    {
      match a
      case AccountAction => end := ReconcileServiceAccount();
      case ShowerRoleAction => end := ReconcileRole(a, OwnName(Wanted()), namespace, ShowerRules);
      case PipelineRoleAction => end := ReconcileRole(a, PipelineName(Wanted()), namespace, PipelineRules);
      case ExternalRoleAction(external) => end := ReconcileRole(a, ExternalName(Wanted()), external, ExternalRules);
      case ShowerBindingAction => end := ReconcileRolebinding(a, OwnName(Wanted()), namespace, OwnName(Wanted()));
      case PipelineBindingAction => end := ReconcileRolebinding(a, PipelineName(Wanted()), namespace, "pipeline");
      case ExternalBindingAction(external) => end := ReconcileRolebinding(a, ExternalName(Wanted()), external, "pipeline");
      case DeploymentAction => end := ReconcileDeployment();
      case ServiceAction => end := ReconcileService();
      case MonitorAction => end := ReconcileServiceMonitor();
      case RouteAction => end := ReconcileRoute();
    }

    method Fetch(k: ObjKey) returns (res: Result<Body>)
      modifies this`sys
      ensures ObjReply(sys, res) == GetObj(old(sys), k)
      ensures res.Ok? ==> res.value.Kind() == k.kind
    {
      var got := GetObj(sys, k);
      sys := got.sys;
      res := got.res;
    }

    method Create(k: ObjKey, b: Body) returns (end: End)
      requires b.Kind() == k.kind
      modifies this`sys
      ensures sys == CreateObj(old(sys), k, b).sys
      ensures end == if CreateObj(old(sys), k, b).res.Ok? then Done else Erred
    {
      var r := CreateObj(sys, k, b);
      sys := r.sys;
      end := if r.res.Ok? then Done else Erred;
    }

    method Update(k: ObjKey, b: Body) returns (end: End)
      requires b.Kind() == k.kind
      modifies this`sys
      ensures sys == UpdateObj(old(sys), k, b).sys
      ensures end == if UpdateObj(old(sys), k, b).res.Ok? then Done else Erred
    {
      var r := UpdateObj(sys, k, b);
      sys := r.sys;
      end := if r.res.Ok? then Done else Erred;
    }

    method ReconcileServiceAccount() returns (end: End)
      modifies this`sys
      ensures (Here(), end) == Act(old(Here()), namespace, name, AccountAction)
    {
      hide Arrive, GetObj, CreateObj, UpdateObj;
      var k := ObjKey(ServiceAccountKind, namespace, OwnName(Wanted()));
      var res := Fetch(k);
      if res.Err? {
        if res.error == NotFound {
          end := Create(k, ServiceAccount(""));
          return;
        }
        return Erred;
      }
      return Done;
    }

    method ReconcileRole(ghost a: Action, resourceName: string, resourceNamespace: string, rules: Rules) returns (end: End)
      requires KeyOf(Wanted(), a) == ObjKey(RoleKind, resourceNamespace, resourceName)
      requires Fresh(Wanted(), a) == Role(rules, "") && !a.DeploymentAction? && !a.RouteAction?
      modifies this`sys
      ensures (Here(), end) == Act(old(Here()), namespace, name, a)
    {
      hide Arrive, GetObj, CreateObj, UpdateObj;
      var k := ObjKey(RoleKind, resourceNamespace, resourceName);
      var res := Fetch(k);
      if res.Err? {
        if res.error == NotFound {
          end := Create(k, Role(rules, ""));
          return;
        }
        return Erred;
      }
      var role := res.value;
      if role.rules != rules {
        role := role.(rules := rules);
        end := Update(k, role);
        return;
      }
      return Done;
    }

    method ReconcileRolebinding(ghost a: Action, resourceName: string, resourceNamespace: string, account: string)
      returns (end: End)
      requires KeyOf(Wanted(), a) == ObjKey(RoleBindingKind, resourceNamespace, resourceName)
      requires Fresh(Wanted(), a) == BindingOf(account, Wanted(), resourceName) && !a.DeploymentAction? && !a.RouteAction?
      modifies this`sys
      ensures (Here(), end) == Act(old(Here()), namespace, name, a)
    {
      hide Arrive, GetObj, CreateObj, UpdateObj;
      var k := ObjKey(RoleBindingKind, resourceNamespace, resourceName);
      var subjects := [Subject("ServiceAccount", account, namespace)];
      var roleRef := RoleRef("Role", resourceName);
      var res := Fetch(k);
      if res.Err? {
        if res.error == NotFound {
          end := Create(k, RoleBinding(subjects, roleRef, ""));
          return;
        }
        return Erred;
      }
      var binding := res.value;
      if binding.subjects != subjects || binding.roleRef != roleRef {
        binding := binding.(subjects := subjects);
        binding := binding.(roleRef := roleRef);
        end := Update(k, binding);
        return;
      }
      return Done;
    }

    method ReconcileDeployment() returns (end: End)
      modifies this`sys, this`shower
      ensures (Here(), end) == Act(old(Here()), namespace, name, DeploymentAction)
    {
      hide Arrive, GetObj, CreateObj, UpdateObj;
      var resourceName := OwnName(Wanted());
      var k := ObjKey(DeploymentKind, namespace, resourceName);
      var labels := Selector(resourceName);
      var template := PodTemplate(labels, resourceName, shower.status.image, shower.spec.env, "");
      var res := Fetch(k);
      if res.Err? {
        if res.error == NotFound {
          end := Create(k, Deployment(shower.spec.replicas, labels, template, [], ""));
          if end != Done {
            SetCondition(CondFalse, "CreateError");
            return;
          }
          SetCondition(CondFalse, "Created");
          return;
        }
        return Erred;
      }
      var deployment := res.value;
      // The replica pointers compared here are never the same, so there is always something to write.
      deployment := deployment.(replicas := shower.spec.replicas);
      deployment := deployment.(podSelector := labels);
      deployment := deployment.(template := template);
      end := Update(k, deployment);
      if end != Done {
        return;
      }
      for i := 0 to |deployment.conditions|
        invariant Lookup(deployment.conditions, "Available") == Lookup(deployment.conditions[i..], "Available")
      {
        assert deployment.conditions[i..][1..] == deployment.conditions[i + 1..];
        if deployment.conditions[i].kind == "Available" {
          if deployment.conditions[i].status == CondTrue {
            SetCondition(CondTrue, "Ready");
          }
          return;
        }
      }
    }

    method ReconcileService() returns (end: End)
      modifies this`sys
      ensures (Here(), end) == Act(old(Here()), namespace, name, ServiceAction)
    {
      hide Arrive, GetObj, CreateObj, UpdateObj;
      var k := ObjKey(ServiceKind, namespace, OwnName(Wanted()));
      var selector := Selector(OwnName(Wanted()));
      var res := Fetch(k);
      if res.Err? {
        if res.error == NotFound {
          end := Create(k, Service(selector, "ClusterIP", "http/TCP/3000/3000", ""));
          return;
        }
        return Erred;
      }
      var service := res.value;
      if service.selector != selector || service.serviceType != "ClusterIP" || service.ports != "http/TCP/3000/3000" {
        service := service.(selector := selector, serviceType := "ClusterIP", ports := "http/TCP/3000/3000");
        end := Update(k, service);
        return;
      }
      return Done;
    }

    method ReconcileServiceMonitor() returns (end: End)
      modifies this`sys
      ensures (Here(), end) == Act(old(Here()), namespace, name, MonitorAction)
    {
      hide Arrive, GetObj, CreateObj, UpdateObj;
      var k := ObjKey(MonitorKind, namespace, OwnName(Wanted()));
      var selector := Selector(OwnName(Wanted()));
      var res := Fetch(k);
      if res.Err? {
        if res.error == NotFound {
          end := Create(k, Monitor(selector, "http/http//metrics", ""));
          return;
        }
        return Erred;
      }
      var monitor := res.value;
      if monitor.monitored != selector || monitor.endpoints != "http/http//metrics" {
        monitor := monitor.(monitored := selector, endpoints := "http/http//metrics");
        end := Update(k, monitor);
        return;
      }
      return Done;
    }

    method ReconcileRoute() returns (end: End)
      modifies this`sys, this`shower
      ensures (Here(), end) == Act(old(Here()), namespace, name, RouteAction)
    {
      hide Arrive, GetObj, CreateObj, UpdateObj, Updated, IsMapASubset;
      var resourceName := OwnName(Wanted());
      var k := ObjKey(RouteKind, namespace, resourceName);
      var ingress := shower.spec.ingress;
      var res := Fetch(k);
      if res.Err? {
        if res.error == NotFound {
          end := Create(k, Route(ingress.annotations, ingress.labels, ingress.host, ingress.path,
                                 RouteTarget("Service", resourceName), Some("http"), false, ""));
          return;
        }
        return Erred;
      }
      var route := res.value;
      var drifted := IsRouteDrifted(route);
      if Dies(Wanted(), RouteAction, route) { DeadlyIsDrifted(Wanted(), RouteAction, route); }
      if drifted {
        end, route := WriteRoute(k, route);
        if end != Done {
          return;
        }
      }
      var scheme := if route.tls then "https" else "http";
      shower := shower.(status := shower.status.(url := scheme + "://" + route.host + route.path));
      return Done;
    }

    /** The literal drift test, which lacks two negations. */
    method IsRouteDrifted(route: Body) returns (drifted: bool)
      requires route.Route?
      ensures drifted <==> Drifted(Wanted(), RouteAction, route)
    {
      var ingress := shower.spec.ingress;
      var annotated := IsSubset(route.annotations, ingress.annotations);
      var labelled := IsSubset(route.labels, ingress.labels);
      return !annotated || !labelled || route.host != ingress.host || route.path != ingress.path
             || route.to == RouteTarget("Service", OwnName(Wanted())) || route.port == Some("http");
    }

    /** The merge of both maps, the assignments and the update. */
    method WriteRoute(k: ObjKey, route: Body) returns (end: End, written: Body)
      requires route.Route? && k.kind == RouteKind
      modifies this`sys
      ensures written.Route?
      ensures Dies(Wanted(), RouteAction, route) ==> end == Died && sys == old(sys).(up := false)
      ensures !Dies(Wanted(), RouteAction, route) ==>
        && written == Updated(Wanted(), RouteAction, route) && sys == UpdateObj(old(sys), k, written).sys
        && end == if UpdateObj(old(sys), k, written).res.Ok? then Done else Erred
    {
      hide UpdateObj;
      var ingress := shower.spec.ingress;
      written := route;
      if (route.annotations == map[] && ingress.annotations != map[]) || (route.labels == map[] && ingress.labels != map[]) {
        // An assignment into a nil map: the process dies before anything is written.
        sys := sys.(up := false);
        return Died, route;
      }
      var annotations := Merge(route.annotations, ingress.annotations);
      var labels := Merge(route.labels, ingress.labels);
      written := written.(annotations := annotations, labels := labels);
      written := written.(host := ingress.host, path := ingress.path);
      written := written.(to := RouteTarget("Service", OwnName(Wanted())), port := Some("http"));
      end := Update(k, written);
    }
  }

  /** The loop over the desired entries, in whatever order the map is walked. */
  method IsSubset(superset: map<string, string>, subset: map<string, string>) returns (r: bool)
    ensures r <==> IsMapASubset(superset, subset)
  {
    var left := subset.Keys;
    while left != {}
      invariant left <= subset.Keys
      invariant forall k :: k in subset && k !in left ==> k in superset && superset[k] == subset[k]
      decreases |left|
    {
      var k :| k in left;
      if k !in superset || superset[k] != subset[k] {
        assert k in subset;
        return false;
      }
      left := left - {k};
    }
    return true;
  }

  /** Entry by entry, the desired value over the existing one. */
  method Merge<K(==), V>(base: map<K, V>, over: map<K, V>) returns (r: map<K, V>)
    ensures r == base + over
  {
    r := base;
    var left := over.Keys;
    while left != {}
      invariant left <= over.Keys
      invariant r.Keys == base.Keys + (over.Keys - left)
      invariant forall k :: k in over.Keys - left ==> r[k] == over[k]
      invariant forall k :: k in base.Keys - (over.Keys - left) ==> r[k] == base[k]
      decreases |left|
    {
      var k :| k in left;
      r := r[k := over[k]];
      left := left - {k};
    }
  }
}
