/** One pass of the Meteor controller as a function of the operator state: the specification of
    the methods in MeteorController. */
module MeteorPass {
  import opened Kube
  import opened MeteorApi
  import opened Cluster

  /** What the calls of one pass thread through: the API server and the in-memory Meteor. */
  datatype Local = Local(sys: Sys, meteor: Meteor)

  /** ctrl.Result and error: requeue at once, requeue after the interval, error returned. */
  datatype Outcome = Outcome(requeue: bool, later: bool, failed: bool)

  const DONE := Outcome(false, false, false)

  // ---------------------------------------------------------------- status

  /** UpdateStatusNow: a failed write asks for a requeue and swallows the original error. */
  function UpdateStatusNow(l: Local, failed: bool): (Local, Outcome) {
    var r := WriteStatus(l.sys, l.meteor);
    match r.res
    case Err(_) => (Local(r.sys, l.meteor), Outcome(true, false, false))
    case Ok(m) => (Local(r.sys, m), Outcome(false, true, failed))
  }

  /** The status fields computed before anything else. */
  function Refresh(m: Meteor): Meteor {
    var st := m.status.(observedGeneration := m.generation, phase := AggregatePhase(m.status));
    m.(status := if m.spec.ttl != 0 then st.(expiration := Some(ExpirationOf(m))) else st)
  }

  // ---------------------------------------------------------------- owner Shower

  /** The Shower picked from the list. With several Showers the address of the loop variable is kept,
      so any match ends up selecting the last item; without a match the previous choice stays. */
  function PickShower(items: seq<Shower>, selector: Option<string>, previous: Option<Shower>): Option<Shower> {
    if items == [] then previous
    else if |items| == 1 then Some(items[0])
    else if selector.Some? && exists s :: s in items && s.name == selector.value then Some(items[|items| - 1])
    else previous
  }

  /** With several Showers and a match, the matching one is picked exactly when it comes last. */
  lemma PickedShowerMatchesIff(items: seq<Shower>, selector: string, previous: Option<Shower>)
    requires |items| > 1 && exists s :: s in items && s.name == selector
    ensures PickShower(items, Some(selector), previous) == Some(items[|items| - 1])
    ensures PickShower(items, Some(selector), previous).value.name == selector <==> items[|items| - 1].name == selector
  {
  }

  datatype Owner = Owner(sys: Sys, shower: Option<Shower>, ok: bool)

  function FindOwnerShower(s: Sys, m: Meteor, previous: Option<Shower>): Owner {
    var r := ListShowers(s);
    match r.res
    case Err(_) => Owner(r.sys, previous, false)
    case Ok(items) =>
      var picked := PickShower(items, m.selector, previous);
      Owner(r.sys, picked, items != [] && picked.Some?)
  }

  // ---------------------------------------------------------------- Comas

  /** How the loop over external services goes on after one service. */
  datatype Step = Next | Wait | Stop

  function ReconcileComa(l: Local, namespace: string): (Local, Step) {
    var k := Key(namespace, l.sys.world.key.name);
    var got := GetComa(l.sys, k);
    if got.res == Err(NotFound) then
      var made := CreateComa(got.sys, k, l.meteor);
      if made.res.Err? then (Local(made.sys, l.meteor), Stop) else RecordComa(Local(made.sys, l.meteor), k, made.res.value)
    else
      RecordComa(Local(got.sys, l.meteor), k, if got.res.Ok? then got.res.value else FoundComa(0, false))
  }

  /** Record a Coma in the in-memory status and write its owner; one without API version ends the loop. */
  function RecordComa(l: Local, k: Key, c: FoundComa): (Local, Step) {
    if !c.processed then (l, Wait)
    else
      var ref := Ref(k.namespace, k.name, c.uid, false);
      var m := l.meteor.(status := l.meteor.status.(comas := AddRef(l.meteor.status.comas, ref)));
      var r := WriteComaOwner(l.sys, k, c.uid, OwnerRef(l.sys.world.key, m, true));
      (Local(r.sys, m), Next)
  }

  predicate ContainsComa(refs: seq<Ref>, ref: Ref) {
    exists r :: r in refs && r.namespace == ref.namespace && r.name == ref.name && r.uid == ref.uid
  }

  function AddRef(refs: seq<Ref>, ref: Ref): seq<Ref> {
    if ContainsComa(refs, ref) then refs else refs + [ref]
  }

  function OwnerRef(key: Key, m: Meteor, controller: bool): Ref {
    Ref(key.namespace, key.name, m.uid, controller)
  }

  function ReconcileComas(l: Local, services: seq<ExternalService>): (Local, bool)
    decreases |services|
  {
    if services == [] then (l, true)
    else if services[0].namespace == "" then ReconcileComas(l, services[1..])
    else
      var (l1, step) := ReconcileComa(l, services[0].namespace);
      match step
      case Next => ReconcileComas(l1, services[1..])
      case Wait => (l1, true)
      case Stop => (l1, false)
  }

  /** Delete the recorded Comas in order; a missing one counts as a failure. */
  function DeleteComas(s: Sys, refs: seq<Ref>): (Sys, bool)
    decreases |refs|
  {
    if refs == [] then (s, true)
    else
      var r := DeleteComa(s, Key(refs[0].namespace, refs[0].name));
      if r.res.Err? then (r.sys, false) else DeleteComas(r.sys, refs[1..])
  }

  // ---------------------------------------------------------------- finalizer

  function AddFinalizer(fs: seq<string>): seq<string> {
    if FINALIZER in fs then fs else fs + [FINALIZER]
  }

  function RemoveFinalizer(fs: seq<string>): (r: seq<string>)
    ensures forall f :: f in r <==> f in fs && f != FINALIZER
  {
    if fs == [] then []
    else if fs[0] == FINALIZER then RemoveFinalizer(fs[1..])
    else [fs[0]] + RemoveFinalizer(fs[1..])
  }

  /** Update with edited finalizers; the in-memory edit stays when the write fails. */
  function UpdateFinalizers(s: Sys, m: Meteor): (Local, bool) {
    var r := UpdateMeteor(s, m);
    if r.res.Err? then (Local(r.sys, m), false) else (Local(r.sys, r.res.value), true)
  }

  function EnsureFinalizers(l: Local): (Local, bool) {
    var m := l.meteor;
    if !m.deleting then
      if FINALIZER in m.finalizers then (l, true)
      else UpdateFinalizers(l.sys, m.(finalizers := AddFinalizer(m.finalizers)))
    else if FINALIZER in m.finalizers then
      var (s, ok) := DeleteComas(l.sys, m.status.comas);
      if !ok then (Local(s, m), false) else UpdateFinalizers(s, m.(finalizers := RemoveFinalizer(m.finalizers)))
    else (l, true)
  }

  // ---------------------------------------------------------------- pipeline runs

  /** Index of the result named `n`, or the length when there is none. */
  function ResultIndex(rs: seq<PipelineResult>, n: string): (i: nat)
    ensures i <= |rs| && (i < |rs| ==> rs[i].name == n) && forall j :: 0 <= j < i ==> rs[j].name != n
  {
    if rs == [] || rs[0].name == n then 0
    else
      var i := ResultIndex(rs[1..], n);
      assert forall j :: 0 < j < 1 + i ==> rs[j] == rs[1..][j - 1];
      1 + i
  }

  function WithResult(st: MeteorStatus, meteor: string, n: string): (r: MeteorStatus)
    ensures ResultIndex(r.pipelines, n) < |r.pipelines|
  {
    if ResultIndex(st.pipelines, n) < |st.pipelines| then st
    else
      var rs := st.pipelines + [PipelineResult(n, RunName(meteor, n), "", "False")];
      assert rs[|st.pipelines|].name == n;
      st.(pipelines := rs)
  }

  function SetRunCondition(st: MeteorStatus, n: string, status: CondStatus, reason: string): MeteorStatus {
    st.(conditions := SetCondition(st.conditions, Condition(CondKind(n), status, reason)))
  }

  /** The condition copied from the run, when Tekton has set one. */
  function CopyCondition(st: MeteorStatus, n: string, run: Run): MeteorStatus {
    if run.conditions == [] then st
    else SetRunCondition(st, n, run.conditions[0].status, run.conditions[0].reason)
  }

  function PlaceRun(stage: Stage, runName: string, place: Place): Stage {
    match place
    case AtWork => stage.(running := AppendUnique(stage.running, runName))
    case Won => stage.(running := Remove(stage.running, runName), succeeded := AppendUnique(stage.succeeded, runName))
    case Lost => stage.(running := Remove(stage.running, runName), failed := AppendUnique(stage.failed, runName))
  }

  function MarkReady(r: PipelineResult, run: Run): PipelineResult {
    var ready := r.(ready := "True");
    if run.results != [] && run.results[0].Text? then ready.(url := run.results[0].text) else ready
  }

  /** The status after a run was found. */
  function Observe(st: MeteorStatus, meteor: string, n: string, run: Run): MeteorStatus
    requires ResultIndex(st.pipelines, n) < |st.pipelines|
  {
    var i := ResultIndex(st.pipelines, n);
    var st1 := CopyCondition(st, n, run);
    var st2 := st1.(stage := PlaceRun(st1.stage, RunName(meteor, n), PlaceOf(run)));
    if PlaceOf(run) == Won then st2.(pipelines := st.pipelines[i := MarkReady(st.pipelines[i], run)]) else st2
  }

  function RunSpecOf(key: Key, m: Meteor, shower: Shower, n: string): RunSpec {
    RunSpec(n, m.spec.url, m.spec.gitRef, m.status.comas + [OwnerRef(key, m, false)],
            if m.spec.ttl == 0 && shower.persistentHost != "" then Some(shower.persistentHost) else None,
            shower.services)
  }

  function ReconcilePipelineRun(l: Local, shower: Shower, n: string): (Local, bool) {
    var key := l.sys.world.key;
    var m := l.meteor.(status := WithResult(l.meteor.status, key.name, n));
    var got := GetRun(l.sys, RunName(key.name, n));
    if got.res.Ok? then
      (Local(got.sys, m.(status := Observe(m.status, key.name, n, got.res.value))), true)
    else if got.res != Err(NotFound) then
      (Local(got.sys, m.(status := SetRunCondition(m.status, n, CondFalse, "Error"))), false)
    else if m.status.comas == [] then
      (Local(got.sys, m), true)
    else
      var made := CreateRun(got.sys, RunName(key.name, n), RunSpecOf(key, m, shower, n), m);
      if made.res.Err? then
        (Local(made.sys, m.(status := SetRunCondition(m.status, n, CondTrue, "CreateError"))), false)
      else
        (Local(made.sys, m.(status := SetRunCondition(m.status, n, CondTrue, "BuildStated"))), true)
  }

  function ReconcilePipelines(l: Local, shower: Shower, names: seq<string>): (Local, bool)
    decreases |names|
  {
    if names == [] then (l, true)
    else
      var (l1, ok) := ReconcilePipelineRun(l, shower, names[0]);
      if ok then ReconcilePipelines(l1, shower, names[1..]) else (l1, false)
  }

  // ---------------------------------------------------------------- the pass

  /** The operator process: the API server it talks to, its in-memory Meteor, the Shower kept from
      earlier passes and the phase gauge. */
  datatype Op = Op(sys: Sys, meteor: Meteor, shower: Option<Shower>, gauge: map<Phase, int>)

  const NOTHING := Seen(EMPTY_METEOR, [])

  /** The next pass begins: a crashed operator restarts with empty memory. */
  function Resume(op: Op, script: seq<Plan>): Op {
    var s := op.sys.(script := script, seen := NOTHING);
    if op.sys.up then op.(sys := s) else Op(s.(up := true), EMPTY_METEOR, None, map[])
  }

  /** The tail of a pass: Comas, then pipelines in order, then the status write. */
  function Work(l: Local, shower: Shower): (Local, Outcome) {
    var (l1, ok) := ReconcileComas(l, shower.services);
    if !ok then UpdateStatusNow(l1, true)
    else
      var (l2, ok2) := ReconcilePipelines(l1, shower, l1.meteor.spec.pipelines);
      UpdateStatusNow(l2, !ok2)
  }

  /** From the expiry check on. A Shower that was never found is a nil dereference: the process dies. */
  function Proceed(l: Local, shower: Option<Shower>): (Local, Outcome) {
    if IsTTLReached(l.meteor, l.sys.world.now) && !l.meteor.deleting then
      var r := DeleteMeteor(l.sys, l.meteor);
      (Local(r.sys, l.meteor), if r.res.Err? then Outcome(true, false, true) else DONE)
    else
      var (l1, ok) := EnsureFinalizers(l);
      if !ok then (l1, Outcome(false, false, true))
      else if l1.meteor.deleting then (l1, DONE)
      else if shower.None? then (l1.(sys := l1.sys.(up := false)), DONE)
      else Work(l1, shower.value)
  }

  /** The Shower lookup; its failure writes the status and the pass goes on. */
  function Locate(l: Local, previous: Option<Shower>): (Local, Option<Shower>) {
    var o := FindOwnerShower(l.sys, l.meteor, previous);
    var l1 := Local(o.sys, l.meteor);
    (if o.ok then l1 else UpdateStatusNow(l1, true).0, o.shower)
  }

  function Reconcile(op: Op): (Op, Outcome) {
    var got := GetMeteor(op.sys);
    match got.res
    case Err(e) =>
      (op.(sys := got.sys, meteor := EMPTY_METEOR), if e == NotFound then DONE else Outcome(true, false, true))
    case Ok(m) =>
      var dark := op.gauge[m.status.phase := 0];
      var (l, shower) := Locate(Local(got.sys, Refresh(m)), op.shower);
      var lit := dark[l.meteor.status.phase := 1];
      var (l1, outcome) := Proceed(l, shower);
      (Op(l1.sys, l1.meteor, shower, lit), outcome)
  }

  /** Any number of passes, each under its own script. */
  function Passes(op: Op, scripts: seq<seq<Plan>>): Op
    decreases |scripts|
  {
    if scripts == [] then op else Passes(Reconcile(Resume(op, scripts[0])).0, scripts[1..])
  }

  /** A cluster before the Meteor exists, and an operator that was just started. */
  predicate Initial(op: Op) {
    var w := op.sys.world;
    && op.sys.up && op.sys.trace == [] && op.sys.seen == NOTHING && op.sys.landed == map[]
    && op.shower == None && op.gauge == map[]
    && w.meteor == None && w.versions == [] && w.runs == map[] && w.runLog == []
    && (forall k :: k in w.comas ==> w.comas[k].uid < w.nextUid && Born(k, w.comas[k].uid) in w.comaLog)
    && (forall b :: b in w.comaLog ==> b.uid < w.nextUid)
  }
}
