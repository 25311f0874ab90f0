/** One pass of the Shower controller as a function: the objects it wants, the create-or-update step of
    one action, and the loop over the actions. The specification of the methods in ShowerController. */
module ShowerPass {
  import opened Kube
  import opened MeteorApi

  // ---------------------------------------------------------------- objects

  datatype Kind = ServiceAccountKind | RoleKind | RoleBindingKind | DeploymentKind | ServiceKind | MonitorKind | RouteKind

  datatype ObjKey = ObjKey(kind: Kind, namespace: string, name: string)

  /** Rule lists are compared as a whole; the three the operator writes are named. */
  datatype Rules = ShowerRules | PipelineRules | ExternalRules | OtherRules(text: string)

  datatype Subject = Subject(kind: string, name: string, namespace: string)

  datatype RoleRef = RoleRef(kind: string, name: string)

  /** `rest` stands for the parts of a template that the operator always writes in the same way. */
  datatype PodTemplate = PodTemplate(
    labels: map<string, string>, account: string, image: string, env: seq<(string, string)>, rest: string)

  datatype RouteTarget = RouteTarget(kind: string, name: string)

  /** `rest` stands for whatever the operator never writes once the object exists. An empty annotation
      or label map comes back from the API as nil. */
  datatype Body =
    | ServiceAccount(rest: string)
    | Role(rules: Rules, rest: string)
    | RoleBinding(subjects: seq<Subject>, roleRef: RoleRef, rest: string)
    | Deployment(replicas: int, podSelector: map<string, string>, template: PodTemplate, conditions: seq<Condition>, rest: string)
    | Service(selector: map<string, string>, serviceType: string, ports: string, rest: string)
    | Monitor(monitored: map<string, string>, endpoints: string, rest: string)
    | Route(annotations: map<string, string>, labels: map<string, string>, host: string, path: string,
            to: RouteTarget, port: Option<string>, tls: bool, rest: string)
  {
    function Kind(): Kind {
      match this
      case ServiceAccount(_) => ServiceAccountKind
      case Role(_, _) => RoleKind
      case RoleBinding(_, _, _) => RoleBindingKind
      case Deployment(_, _, _, _, _) => DeploymentKind
      case Service(_, _, _, _) => ServiceKind
      case Monitor(_, _, _) => MonitorKind
      case Route(_, _, _, _, _, _, _, _) => RouteKind
    }
  }

  type Store = m: map<ObjKey, Body> | forall k :: k in m ==> m[k].Kind() == k.kind

  // ---------------------------------------------------------------- the Shower

  datatype Ingress = Ingress(annotations: map<string, string>, labels: map<string, string>, host: string, path: string)

  datatype ShowerSpec = ShowerSpec(
    replicas: int, ingress: Ingress, image: string, env: seq<(string, string)>, services: seq<ExternalService>)

  datatype ShowerStatus = ShowerStatus(
    phase: Phase, conditions: seq<Condition>, observedGeneration: nat, image: string, url: string)

  datatype ShowerCr = ShowerCr(rv: nat, generation: nat, deleting: bool, spec: ShowerSpec, status: ShowerStatus)

  /** AggregatePhase of a Shower (api/v1alpha1/shower_types.go). */
  function ShowerPhase(cs: seq<Condition>): Phase {
    if cs == [] then Pending
    else if exists c :: c in cs && c.kind == "Deployment" && c.status == CondFalse then Pending
    else Succeeded
  }

  const DEFAULT_IMAGE := "quay.io/thoth-station/meteor-shower:v"

  /** The status fields computed before the actions. */
  function Prepared(sh: ShowerCr, version: string): ShowerCr {
    sh.(status := sh.status.(
      observedGeneration := sh.generation,
      image := if sh.spec.image != "" then sh.spec.image else DEFAULT_IMAGE + version,
      phase := ShowerPhase(sh.status.conditions)))
  }

  // ---------------------------------------------------------------- actions

  datatype Action =
    | AccountAction | ShowerRoleAction | ShowerBindingAction | PipelineRoleAction | PipelineBindingAction
    | DeploymentAction | ServiceAction | MonitorAction | RouteAction
    | ExternalRoleAction(namespace: string) | ExternalBindingAction(namespace: string)

  /** What the desired objects depend on: the request, the specification and the chosen image. */
  datatype Want = Want(namespace: string, name: string, spec: ShowerSpec, image: string)

  function ExternalActions(services: seq<ExternalService>): seq<Action> {
    if services == [] then []
    else if services[0].namespace == "" then ExternalActions(services[1..])
    else [ExternalRoleAction(services[0].namespace), ExternalBindingAction(services[0].namespace)] + ExternalActions(services[1..])
  }

  const OWN_ACTIONS := [
    AccountAction, ShowerRoleAction, ShowerBindingAction, PipelineRoleAction, PipelineBindingAction,
    DeploymentAction, ServiceAction, MonitorAction, RouteAction]

  function Actions(services: seq<ExternalService>): seq<Action> {
    OWN_ACTIONS + ExternalActions(services)
  }

  function OwnName(w: Want): string { "meteor-shower-" + w.name }

  function PipelineName(w: Want): string { "meteor-pipeline-" + w.name }

  function ExternalName(w: Want): string { "meteor-external-" + w.namespace + "-" + w.name }

  function KeyOf(w: Want, a: Action): ObjKey {
    match a
    case AccountAction => ObjKey(ServiceAccountKind, w.namespace, OwnName(w))
    case ShowerRoleAction => ObjKey(RoleKind, w.namespace, OwnName(w))
    case ShowerBindingAction => ObjKey(RoleBindingKind, w.namespace, OwnName(w))
    case PipelineRoleAction => ObjKey(RoleKind, w.namespace, PipelineName(w))
    case PipelineBindingAction => ObjKey(RoleBindingKind, w.namespace, PipelineName(w))
    case DeploymentAction => ObjKey(DeploymentKind, w.namespace, OwnName(w))
    case ServiceAction => ObjKey(ServiceKind, w.namespace, OwnName(w))
    case MonitorAction => ObjKey(MonitorKind, w.namespace, OwnName(w))
    case RouteAction => ObjKey(RouteKind, w.namespace, OwnName(w))
    case ExternalRoleAction(namespace) => ObjKey(RoleKind, namespace, ExternalName(w))
    case ExternalBindingAction(namespace) => ObjKey(RoleBindingKind, namespace, ExternalName(w))
  }

  const SELECTOR_KEY := "shower.meteor.zone"

  function Selector(name: string): map<string, string> { map[SELECTOR_KEY := name] }

  function BindingOf(account: string, w: Want, role: string): Body {
    RoleBinding([Subject("ServiceAccount", account, w.namespace)], RoleRef("Role", role), "")
  }

  /** The object as the operator creates it. */
  function Fresh(w: Want, a: Action): (b: Body)
    ensures b.Kind() == KeyOf(w, a).kind
  {
    match a
    case AccountAction => ServiceAccount("")
    case ShowerRoleAction => Role(ShowerRules, "")
    case ShowerBindingAction => BindingOf(OwnName(w), w, OwnName(w))
    case PipelineRoleAction => Role(PipelineRules, "")
    case PipelineBindingAction => BindingOf("pipeline", w, PipelineName(w))
    case DeploymentAction =>
      Deployment(w.spec.replicas, Selector(OwnName(w)),
                 PodTemplate(Selector(OwnName(w)), OwnName(w), w.image, w.spec.env, ""), [], "")
    case ServiceAction => Service(Selector(OwnName(w)), "ClusterIP", "http/TCP/3000/3000", "")
    case MonitorAction => Monitor(Selector(OwnName(w)), "http/http//metrics", "")
    case RouteAction =>
      Route(w.spec.ingress.annotations, w.spec.ingress.labels, w.spec.ingress.host, w.spec.ingress.path,
            RouteTarget("Service", OwnName(w)), Some("http"), false, "")
    case ExternalRoleAction(_) => Role(ExternalRules, "")
    case ExternalBindingAction(_) => BindingOf("pipeline", w, ExternalName(w))
  }

  predicate IsMapASubset(superset: map<string, string>, subset: map<string, string>) {
    forall k :: k in subset ==> k in superset && superset[k] == subset[k]
  }

  /** The fields that the operator manages, overwritten; what it does not manage stays. */
  function Updated(w: Want, a: Action, b: Body): (r: Body)
    requires b.Kind() == KeyOf(w, a).kind
    ensures r.Kind() == b.Kind()
  {
    var f := Fresh(w, a);
    match b
    case ServiceAccount(_) => b
    case Role(_, _) => b.(rules := f.rules)
    case RoleBinding(_, _, _) => b.(subjects := f.subjects, roleRef := f.roleRef)
    case Deployment(_, _, _, _, _) => b.(replicas := f.replicas, podSelector := f.podSelector, template := f.template)
    case Service(_, _, _, _) => b.(selector := f.selector, serviceType := f.serviceType, ports := f.ports)
    case Monitor(_, _, _) => b.(monitored := f.monitored, endpoints := f.endpoints)
    case Route(_, _, _, _, _, _, _, _) =>
      b.(annotations := b.annotations + f.annotations, labels := b.labels + f.labels,
         host := f.host, path := f.path, to := f.to, port := f.port)
  }

  /** When the operator decides to write: a Deployment always (two pointers are compared), a Route also
      when its target or its port is as desired (a negation is missing), the others when they drifted. */
  predicate Drifted(w: Want, a: Action, b: Body)
    requires b.Kind() == KeyOf(w, a).kind
  {
    var f := Fresh(w, a);
    match b
    case ServiceAccount(_) => false
    case Role(_, _) => b.rules != f.rules
    case RoleBinding(_, _, _) => b.subjects != f.subjects || b.roleRef != f.roleRef
    case Deployment(_, _, _, _, _) => true
    case Service(_, _, _, _) => b.selector != f.selector || b.serviceType != f.serviceType || b.ports != f.ports
    case Monitor(_, _, _) => b.monitored != f.monitored || b.endpoints != f.endpoints
    case Route(_, _, _, _, _, _, _, _) =>
      || !IsMapASubset(b.annotations, f.annotations) || !IsMapASubset(b.labels, f.labels)
      || b.host != f.host || b.path != f.path || b.to == f.to || b.port == f.port
  }

  /** Writing into a nil annotation or label map ends the process. */
  predicate Dies(w: Want, a: Action, b: Body) {
    b.Route? && a.RouteAction? &&
    ((b.annotations == map[] && w.spec.ingress.annotations != map[]) || (b.labels == map[] && w.spec.ingress.labels != map[]))
  }

  /** A nil map is written into only by a Route that is found to have drifted. */
  lemma DeadlyIsDrifted(w: Want, a: Action, b: Body)
    requires b.Kind() == KeyOf(w, a).kind && Dies(w, a, b)
    ensures Drifted(w, a, b)
  {
    var wanted := w.spec.ingress;
    if b.annotations == map[] && wanted.annotations != map[] {
      var k :| k in wanted.annotations;
    } else {
      var k :| k in wanted.labels;
    }
  }

  // ---------------------------------------------------------------- calls

  datatype Fate = Works | Fails | AnswerLost | Missed

  /** `fates` is what becomes of the calls to come; `up` is false once the process died. */
  datatype ShowerSys = ShowerSys(store: Store, shower: Option<ShowerCr>, nextRv: nat, fates: seq<Fate>, up: bool)

  function Arrive(s: ShowerSys): (ShowerSys, Fate) {
    if s.fates == [] then (s, Works) else (s.(fates := s.fates[1..]), s.fates[0])
  }

  datatype ObjReply<T> = ObjReply(sys: ShowerSys, res: Result<T>)

  function GetObj(s: ShowerSys, k: ObjKey): (r: ObjReply<Body>)
    ensures r.res.Ok? ==> r.res.value.Kind() == k.kind
  {
    var (s1, fate) := Arrive(s);
    if fate.Fails? || fate.AnswerLost? then ObjReply(s1, Err(Fault))
    else if fate.Missed? || k !in s1.store then ObjReply(s1, Err(NotFound))
    else ObjReply(s1, Ok(s1.store[k]))
  }

  function CreateObj(s: ShowerSys, k: ObjKey, b: Body): ObjReply<()>
    requires b.Kind() == k.kind
  {
    var (s1, fate) := Arrive(s);
    if fate.Fails? || fate.Missed? then ObjReply(s1, Err(Fault))
    else if k in s1.store then ObjReply(s1, Err(AlreadyExists))
    else ObjReply(s1.(store := s1.store[k := b]), if fate.AnswerLost? then Err(Fault) else Ok(()))
  }

  function UpdateObj(s: ShowerSys, k: ObjKey, b: Body): ObjReply<()>
    requires b.Kind() == k.kind
  {
    var (s1, fate) := Arrive(s);
    if fate.Fails? || fate.Missed? then ObjReply(s1, Err(Fault))
    else if k !in s1.store then ObjReply(s1, Err(NotFound))
    else ObjReply(s1.(store := s1.store[k := b]), if fate.AnswerLost? then Err(Fault) else Ok(()))
  }

  function GetShower(s: ShowerSys): ObjReply<ShowerCr> {
    var (s1, fate) := Arrive(s);
    if fate.Fails? || fate.AnswerLost? then ObjReply(s1, Err(Fault))
    else if fate.Missed? || s1.shower.None? then ObjReply(s1, Err(NotFound))
    else ObjReply(s1, Ok(s1.shower.value))
  }

  function WriteShower(s: ShowerSys, sh: ShowerCr): ObjReply<()> {
    var (s1, fate) := Arrive(s);
    if fate.Fails? || fate.Missed? then ObjReply(s1, Err(Fault))
    else if s1.shower.None? || s1.shower.value.rv != sh.rv then ObjReply(s1, Err(Conflict))
    else
      ObjReply(s1.(shower := Some(s1.shower.value.(status := sh.status, rv := s1.nextRv)), nextRv := s1.nextRv + 1),
               if fate.AnswerLost? then Err(Fault) else Ok(()))
  }

  // ---------------------------------------------------------------- one action

  datatype ShowerLocal = ShowerLocal(sys: ShowerSys, shower: ShowerCr)

  datatype End = Done | Erred | Died

  function WantOf(namespace: string, name: string, sh: ShowerCr): Want {
    Want(namespace, name, sh.spec, sh.status.image)
  }

  function SetDeployment(sh: ShowerCr, status: CondStatus, reason: string): ShowerCr {
    sh.(status := sh.status.(conditions := SetCondition(sh.status.conditions, Condition("Deployment", status, reason))))
  }

  /** What the status takes from an object that was just created. */
  function AfterCreate(a: Action, sh: ShowerCr, ok: bool): ShowerCr {
    if a.DeploymentAction? then SetDeployment(sh, CondFalse, if ok then "Created" else "CreateError") else sh
  }

  /** The first condition of type Available decides. */
  predicate IsAvailable(cs: seq<Condition>) {
    Lookup(cs, "Available").Some? && Lookup(cs, "Available").value.status == CondTrue
  }

  /** What the status takes from an object that was found, as it is after the update. */
  function AfterFound(a: Action, sh: ShowerCr, b: Body): ShowerCr {
    if a.DeploymentAction? && b.Deployment? && IsAvailable(b.conditions) then SetDeployment(sh, CondTrue, "Ready")
    else if a.RouteAction? && b.Route? then
      sh.(status := sh.status.(url := (if b.tls then "https" else "http") + "://" + b.host + b.path))
    else sh
  }

  function Act(l: ShowerLocal, namespace: string, name: string, a: Action): (ShowerLocal, End) {
    var w := WantOf(namespace, name, l.shower);
    var k := KeyOf(w, a);
    var got := GetObj(l.sys, k);
    if got.res.Ok? then
      var b := got.res.value;
      if Dies(w, a, b) then (ShowerLocal(got.sys.(up := false), l.shower), Died)
      else if Drifted(w, a, b) then
        var r := UpdateObj(got.sys, k, Updated(w, a, b));
        if r.res.Err? then (ShowerLocal(r.sys, l.shower), Erred)
        else (ShowerLocal(r.sys, AfterFound(a, l.shower, Updated(w, a, b))), Done)
      else (ShowerLocal(got.sys, AfterFound(a, l.shower, b)), Done)
    else if got.res == Err(NotFound) then
      var r := CreateObj(got.sys, k, Fresh(w, a));
      (ShowerLocal(r.sys, AfterCreate(a, l.shower, r.res.Ok?)), if r.res.Ok? then Done else Erred)
    else (ShowerLocal(got.sys, l.shower), Erred)
  }

  // ---------------------------------------------------------------- the pass

  /** The loop over the actions, up to the first that is not done. */
  function RunActions(l: ShowerLocal, namespace: string, name: string, actions: seq<Action>): (ShowerLocal, End)
    decreases |actions|
  {
    if actions == [] then (l, Done)
    else
      var (l1, end) := Act(l, namespace, name, actions[0]);
      if end == Done then RunActions(l1, namespace, name, actions[1..]) else (l1, end)
  }

  datatype ShowerOutcome = ShowerOutcome(requeue: bool, later: bool, failed: bool)

  function UpdateStatusNow(l: ShowerLocal, failed: bool): (ShowerLocal, ShowerOutcome) {
    var r := WriteShower(l.sys, l.shower);
    if r.res.Err? then (ShowerLocal(r.sys, l.shower), ShowerOutcome(true, false, false))
    else (ShowerLocal(r.sys, l.shower), ShowerOutcome(false, failed, failed))
  }

  /** `version` is the operator's own version. */
  function Reconcile(s: ShowerSys, namespace: string, name: string, version: string): (ShowerSys, ShowerOutcome) {
    var got := GetShower(s);
    match got.res
    case Err(e) => (got.sys, ShowerOutcome(e != NotFound, false, e != NotFound))
    case Ok(sh) =>
      if sh.deleting then (got.sys, ShowerOutcome(false, false, false))
      else
        var (l, end) := RunActions(ShowerLocal(got.sys, Prepared(sh, version)), namespace, name, Actions(sh.spec.services));
        if end == Died then (l.sys, ShowerOutcome(false, false, false))
        else
          var (l1, outcome) := UpdateStatusNow(l, end == Erred);
          (l1.sys, outcome)
  }
}
