/** The Meteor status settles: once the finalizer is set, all Comas are recorded and all runs exist and
    stay as they are, two fault-free passes reach a status that no later pass changes. */
module MeteorFixpoint {
  import opened Kube
  import opened MeteorApi
  import opened Cluster
  import opened MeteorPass
  import opened MeteorStatusLemmas
  import opened MeteorLiveness

  predicate AllExist(meteor: string, names: seq<string>, runs: map<string, Run>) {
    forall n :: n in names ==> RunName(meteor, n) in runs
  }

  function ObserveOne(st: MeteorStatus, meteor: string, n: string, run: Run): MeteorStatus {
    Observe(WithResult(st, meteor, n), meteor, n, run)
  }

  /** What one pass makes of the status when it finds every run. */
  function ObserveAll(st: MeteorStatus, meteor: string, names: seq<string>, runs: map<string, Run>): MeteorStatus
    requires AllExist(meteor, names, runs)
    decreases |names|
  {
    if names == [] then st
    else ObserveAll(ObserveOne(st, meteor, names[0], runs[RunName(meteor, names[0])]), meteor, names[1..], runs)
  }

  // ---------------------------------------------------------------- conditions

  function CopyOf(n: string, run: Run): Condition
    requires run.conditions != []
  {
    Condition(CondKind(n), run.conditions[0].status, run.conditions[0].reason)
  }

  /** The conditions copied from the runs, in order. */
  function Copies(meteor: string, names: seq<string>, runs: map<string, Run>): seq<Condition>
    requires AllExist(meteor, names, runs)
  {
    if names == [] then []
    else
      var run := runs[RunName(meteor, names[0])];
      (if run.conditions == [] then [] else [CopyOf(names[0], run)]) + Copies(meteor, names[1..], runs)
  }

  /** Only these fields are touched, and none of them depends on the phase. */
  lemma {:induction false} ObserveAllConditions(
      st: MeteorStatus, meteor: string, names: seq<string>, runs: map<string, Run>)
    requires AllExist(meteor, names, runs)
    ensures var r := ObserveAll(st, meteor, names, runs);
      && r.conditions == SetAll(st.conditions, Copies(meteor, names, runs))
      && r == st.(conditions := r.conditions, stage := r.stage, pipelines := r.pipelines)
    decreases |names|
  {
    hide PlaceRun, MarkReady;
    if names != [] {
      var run := runs[RunName(meteor, names[0])];
      ObserveAllConditions(ObserveOne(st, meteor, names[0], run), meteor, names[1..], runs);
      if run.conditions != [] {
        var c := CopyOf(names[0], run);
        assert ([c] + Copies(meteor, names[1..], runs))[1..] == Copies(meteor, names[1..], runs);
      } else {
        assert [] + Copies(meteor, names[1..], runs) == Copies(meteor, names[1..], runs);
      }
    }
  }

  // ---------------------------------------------------------------- stage lists and results

  ghost predicate StageSettled(stage: Stage, x: string, place: Place) {
    match place
    case AtWork => x in stage.running
    case Won => x !in stage.running && x in stage.succeeded
    case Lost => x !in stage.running && x in stage.failed
  }

  ghost predicate ResultSettled(rs: seq<PipelineResult>, n: string, run: Run) {
    var i := ResultIndex(rs, n);
    i < |rs| && (PlaceOf(run) == Won ==> rs[i] == MarkReady(rs[i], run))
  }

  /** Observing this run once more changes neither the stage lists nor the results. */
  ghost predicate Settled(st: MeteorStatus, meteor: string, n: string, run: Run) {
    StageSettled(st.stage, RunName(meteor, n), PlaceOf(run)) && ResultSettled(st.pipelines, n, run)
  }

  lemma {:induction false} ObserveParts(st: MeteorStatus, meteor: string, n: string, run: Run)
    ensures var r := ObserveOne(st, meteor, n, run); var rs := WithResult(st, meteor, n).pipelines; var i := ResultIndex(rs, n);
      && r.stage == PlaceRun(st.stage, RunName(meteor, n), PlaceOf(run))
      && r.pipelines == if PlaceOf(run) == Won then rs[i := MarkReady(rs[i], run)] else rs
  {
    hide PlaceRun, MarkReady;
  }

  lemma SettledIsFixed(st: MeteorStatus, meteor: string, n: string, run: Run)
    requires Settled(st, meteor, n, run)
    ensures ObserveOne(st, meteor, n, run).stage == st.stage
    ensures ObserveOne(st, meteor, n, run).pipelines == st.pipelines
  {
    ObserveParts(st, meteor, n, run);
    RemoveAbsentIf(st.stage.running, RunName(meteor, n));
  }

  lemma {:induction false} RemoveAbsentIf(xs: seq<string>, x: string)
    ensures x !in xs ==> Remove(xs, x) == xs
  {
    if x !in xs { RemoveAbsent(xs, x); }
  }

  lemma PlacingSettles(stage: Stage, x: string, place: Place)
    requires StageSound(stage)
    ensures StageSettled(PlaceRun(stage, x, place), x, place)
  {
    RemoveMeaning(stage.running, x);
  }

  lemma PlacingKeepsSettled(stage: Stage, x: string, place: Place, y: string, place': Place)
    requires StageSound(stage) && StageSettled(stage, x, place) && x != y
    ensures StageSettled(PlaceRun(stage, y, place'), x, place)
  {
    RemoveMeaning(stage.running, y);
  }

  /** Results keep their index: new ones go to the end, and no name ever changes. */
  lemma {:induction false} SameNamesSameIndex(a: seq<PipelineResult>, b: seq<PipelineResult>, n: string)
    requires |a| <= |b| && (forall i :: 0 <= i < |a| ==> a[i].name == b[i].name) && ResultIndex(a, n) < |a|
    ensures ResultIndex(b, n) == ResultIndex(a, n)
  {
    var i, j := ResultIndex(a, n), ResultIndex(b, n);
    assert a[i].name == b[i].name;
    assert j < |a| ==> a[j].name == b[j].name;
  }

  lemma ObserveSettles(st: MeteorStatus, meteor: string, n: string, run: Run)
    requires StageSound(st.stage)
    ensures Settled(ObserveOne(st, meteor, n, run), meteor, n, run)
  {
    hide PlaceRun, StageSettled;
    ObserveParts(st, meteor, n, run);
    PlacingSettles(st.stage, RunName(meteor, n), PlaceOf(run));
    SameNamesSameIndex(WithResult(st, meteor, n).pipelines, ObserveOne(st, meteor, n, run).pipelines, n);
  }

  lemma ObserveKeepsSettled(st: MeteorStatus, meteor: string, a: string, runA: Run, b: string, runB: Run)
    requires StageSound(st.stage) && Settled(st, meteor, a, runA) && a != b
    ensures Settled(ObserveOne(st, meteor, b, runB), meteor, a, runA)
  {
    hide PlaceRun, StageSettled, ObserveOne;
    ObserveParts(st, meteor, b, runB);
    if RunName(meteor, a) == RunName(meteor, b) {
      RunNameInjective(meteor, a, b);
      assert false;
    }
    PlacingKeepsSettled(st.stage, RunName(meteor, a), PlaceOf(runA), RunName(meteor, b), PlaceOf(runB));
    var st1 := ObserveOne(st, meteor, b, runB);
    SameNamesSameIndex(st.pipelines, st1.pipelines, a);
    var rs := WithResult(st, meteor, b).pipelines;
    assert rs[ResultIndex(rs, b)].name == b;
  }

  ghost predicate AllSettled(st: MeteorStatus, meteor: string, names: seq<string>, runs: map<string, Run>)
    requires AllExist(meteor, names, runs)
  {
    forall n :: n in names ==> Settled(st, meteor, n, runs[RunName(meteor, n)])
  }

  lemma StageStaysSound(st: MeteorStatus, meteor: string, n: string, run: Run)
    requires StageSound(st.stage)
    ensures StageSound(ObserveOne(st, meteor, n, run).stage)
  {
    hide PlaceRun, StageSound;
    ObserveParts(st, meteor, n, run);
    PlaceRunSound(st.stage, RunName(meteor, n), PlaceOf(run));
  }

  /** A pass over all pipelines settles every one of them, whatever was settled before. */
  lemma {:induction false} ObserveAllSettles(
      st: MeteorStatus, meteor: string, done: seq<string>, names: seq<string>, runs: map<string, Run>)
    requires AllExist(meteor, done, runs) && AllExist(meteor, names, runs)
    requires StageSound(st.stage) && AllSettled(st, meteor, done, runs)
    ensures AllExist(meteor, done + names, runs)
    ensures AllSettled(ObserveAll(st, meteor, names, runs), meteor, done + names, runs)
    decreases |names|
  {
    hide Settled, ObserveOne, StageSound;
    if names == [] {
      assert done + names == done;
    } else {
      var n := names[0];
      var run := runs[RunName(meteor, n)];
      var st1 := ObserveOne(st, meteor, n, run);
      ObserveSettles(st, meteor, n, run);
      StageStaysSound(st, meteor, n, run);
      forall a | a in done + [n] ensures Settled(st1, meteor, a, runs[RunName(meteor, a)]) {
        if a != n { ObserveKeepsSettled(st, meteor, a, runs[RunName(meteor, a)], n, run); }
      }
      ObserveAllSettles(st1, meteor, done + [n], names[1..], runs);
      assert done + [n] + names[1..] == done + names;
    }
  }

  lemma {:induction false} AllSettledIsFixed(st: MeteorStatus, meteor: string, names: seq<string>, runs: map<string, Run>)
    requires AllExist(meteor, names, runs) && AllSettled(st, meteor, names, runs)
    ensures var r := ObserveAll(st, meteor, names, runs); r.stage == st.stage && r.pipelines == st.pipelines
    decreases |names|
  {
    hide Settled, ObserveOne;
    if names != [] {
      var run := runs[RunName(meteor, names[0])];
      SettledIsFixed(st, meteor, names[0], run);
      var st1 := ObserveOne(st, meteor, names[0], run);
      forall a | a in names[1..] ensures Settled(st1, meteor, a, runs[RunName(meteor, a)]) {
        assert a in names;
        SettledByParts(st, st1, meteor, a, runs[RunName(meteor, a)]);
      }
      AllSettledIsFixed(st1, meteor, names[1..], runs);
    }
  }

  lemma SettledByParts(st: MeteorStatus, st': MeteorStatus, meteor: string, n: string, run: Run)
    requires Settled(st, meteor, n, run) && st'.stage == st.stage && st'.pipelines == st.pipelines
    ensures Settled(st', meteor, n, run)
  {
  }

  /** Observing the same runs a second time changes nothing. */
  lemma {:induction false} ObserveAllTwice(st: MeteorStatus, meteor: string, names: seq<string>, runs: map<string, Run>)
    requires AllExist(meteor, names, runs) && StageSound(st.stage) && UniqueKinds(st.conditions)
    ensures var r := ObserveAll(st, meteor, names, runs); ObserveAll(r, meteor, names, runs) == r
  {
    hide Settled, UniqueKinds, StageSound;
    var r := ObserveAll(st, meteor, names, runs);
    ObserveAllSettles(st, meteor, [], names, runs);
    assert [] + names == names;
    AllSettledIsFixed(r, meteor, names, runs);
    ObserveAllConditions(st, meteor, names, runs);
    ObserveAllConditions(r, meteor, names, runs);
    SetAllTwice(st.conditions, Copies(meteor, names, runs));
  }

  // ---------------------------------------------------------------- the pass

  /** Everything is set up and the runs exist: the Meteor lives, carries the finalizer, has a Shower
      picked for it, all its Comas recorded, and a run for every listed pipeline. */
  ghost predicate SetUp(op: Op, shower: Shower) {
    var w := op.sys.world;
    && Picks(op, shower) && Complete(w, shower.services)
    && var m := w.meteor.value;
      && !m.deleting && FINALIZER in m.finalizers && !IsTTLReached(m, w.now)
      && AllExist(w.key.name, m.spec.pipelines, w.runs) && StatusSound(w.key, m.status)
  }

  lemma ListedNotAdded(w: World, refs: seq<Ref>, namespace: string, uid: nat)
    requires Listed(w, refs, namespace) && w.comas[Key(namespace, w.key.name)].uid == uid
    ensures AddRef(refs, Ref(namespace, w.key.name, uid, false)) == refs
  {
  }

  lemma SetUpComa(l: Local, namespace: string)
    requires Quiet(l.sys) && Listed(l.sys.world, l.meteor.status.comas, namespace)
    ensures var (l1, step) := ReconcileComa(l, namespace); SetupKeeps(l, l1) && l1.meteor == l.meteor && step == Next
  {
    hide AddRef, ContainsComa;
    QuietArrive(l.sys);
    var k := Key(namespace, l.sys.world.key.name);
    var got := GetComa(l.sys, k);
    ListedNotAdded(l.sys.world, l.meteor.status.comas, namespace, got.res.value.uid);
    QuietArrive(got.sys);
  }

  /** With every Coma recorded, the service loop runs to its end and leaves the Meteor alone. */
  lemma {:induction false} SetUpComas(l: Local, services: seq<ExternalService>)
    requires Quiet(l.sys)
    requires forall x :: x in Namespaces(services) ==> Listed(l.sys.world, l.meteor.status.comas, x)
    ensures var (l1, ok) := ReconcileComas(l, services); ok && SetupKeeps(l, l1) && l1.meteor == l.meteor
    decreases |services|
  {
    hide Listed;
    if services != [] {
      assert services == [services[0]] + services[1..];
      var namespace := services[0].namespace;
      assert Namespaces(services) == Namespaces(services[1..]) + if namespace == "" then {} else {namespace};
      if namespace == "" {
        SetUpComas(l, services[1..]);
      } else {
        SetUpComa(l, namespace);
        var (l1, _) := ReconcileComa(l, namespace);
        forall x | x in Namespaces(services[1..]) ensures Listed(l1.sys.world, l1.meteor.status.comas, x) {
          ListedStable(l.sys.world, l.meteor.status.comas, l1.sys.world, l1.meteor.status.comas, x);
        }
        SetUpComas(l1, services[1..]);
        SetupKeepsTransitive(l, l1, ReconcileComas(l1, services[1..]).0);
      }
    }
  }

  /** With every run there, the pipeline loop changes the in-memory status only. */
  lemma {:induction false} FoundRuns(l: Local, shower: Shower, names: seq<string>)
    requires Quiet(l.sys) && AllExist(l.sys.world.key.name, names, l.sys.world.runs)
    ensures var (l1, ok) := ReconcilePipelines(l, shower, names); var w := l.sys.world;
      && ok && Quiet(l1.sys) && l1.sys.world == w
      && l1.meteor == l.meteor.(status := ObserveAll(l.meteor.status, w.key.name, names, w.runs))
    decreases |names|
  {
    hide Observe, WithResult;
    if names != [] {
      QuietArrive(l.sys);
      var (l1, ok) := ReconcilePipelineRun(l, shower, names[0]);
      FoundRuns(l1, shower, names[1..]);
    }
  }

  lemma SetUpWork(l: Local, shower: Shower)
    requires Quiet(l.sys) && Current(l.sys.world, l.meteor)
    requires forall x :: x in Namespaces(shower.services) ==> Listed(l.sys.world, l.meteor.status.comas, x)
    requires AllExist(l.sys.world.key.name, l.meteor.spec.pipelines, l.sys.world.runs)
    ensures var l1 := Work(l, shower).0; var w := l.sys.world; var w1 := l1.sys.world;
      && Quiet(l1.sys) && Grown(w, w1) && w1.showers == w.showers && w1.now == w.now && w1.runs == w.runs
      && w1.meteor.Some?
      && w1.meteor.value == l.meteor.(
           rv := w1.meteor.value.rv, status := ObserveAll(l.meteor.status, w.key.name, l.meteor.spec.pipelines, w.runs))
  {
    hide ReconcileComas, ReconcilePipelines, UpdateStatusNow, Listed;
    SetUpComas(l, shower.services);
    var l1 := ReconcileComas(l, shower.services).0;
    FoundRuns(l1, shower, l1.meteor.spec.pipelines);
    var (l2, ok) := ReconcilePipelines(l1, shower, l1.meteor.spec.pipelines);
    QuietWrite(l2, !ok);
  }

  lemma {:induction false} ObserveAllSound(key: Key, st: MeteorStatus, names: seq<string>, runs: map<string, Run>)
    requires AllExist(key.name, names, runs) && StatusSound(key, st)
    ensures StatusSound(key, ObserveAll(st, key.name, names, runs))
    decreases |names|
  {
    hide StatusSound, Observe, WithResult;
    if names != [] {
      var run := runs[RunName(key.name, names[0])];
      WithResultSound(key, st, names[0]);
      ObserveSound(key, WithResult(st, key.name, names[0]), names[0], run);
      ObserveAllSound(key, ObserveOne(st, key.name, names[0], run), names[1..], runs);
    }
  }

  lemma SetUpResumes(op: Op, shower: Shower, script: seq<Plan>)
    requires op.sys.up && SetUp(op, shower)
    ensures SetUp(Resume(op, script), shower)
  {
  }

  /** What a pass over a Meteor that is set up does: it observes every run and writes the status. */
  lemma SetUpPass(op: Op, shower: Shower)
    requires Quiet(op.sys) && SetUp(op, shower)
    ensures var op1 := Reconcile(op).0; var w := op.sys.world; var w1 := op1.sys.world; var m := w.meteor.value;
      && Quiet(op1.sys) && SetUp(op1, shower) && w1.key == w.key && w1.runs == w.runs
      && w1.meteor.value == m.(
           rv := w1.meteor.value.rv, status := ObserveAll(Refresh(m).status, w.key.name, m.spec.pipelines, w.runs))
  {
    hide Work, Locate, ExpirationOf, AggregatePhase, StatusSound, Listed, PickShower;
    QuietArrive(op.sys);
    var w := op.sys.world;
    var got := GetMeteor(op.sys);
    var m := got.res.value;
    QuietLocate(Local(got.sys, Refresh(m)), op.shower);
    var (l, found) := Locate(Local(got.sys, Refresh(m)), op.shower);
    SameExpiry(m, l.meteor);
    var w0 := l.sys.world;
    forall x | x in Namespaces(shower.services) ensures Listed(w0, l.meteor.status.comas, x) {
      ListedStable(w, m.status.comas, w0, l.meteor.status.comas, x);
    }
    SetUpWork(l, shower);
    var w1 := Work(l, shower).0.sys.world;
    SameExpiry(m, w1.meteor.value);
    PickStays(op, Reconcile(op).0, shower);
    RefreshSound(w.key, m);
    ObserveAllSound(w.key, Refresh(m).status, m.spec.pipelines, w.runs);
    ObserveAllConditions(Refresh(m).status, w.key.name, m.spec.pipelines, w.runs);
    forall x | x in Namespaces(shower.services) ensures Listed(w1, w1.meteor.value.status.comas, x) {
      ListedStable(w0, l.meteor.status.comas, w1, w1.meteor.value.status.comas, x);
    }
  }

  lemma RefreshSound(key: Key, m: Meteor)
    requires StatusSound(key, m.status)
    ensures StatusSound(key, Refresh(m).status)
  {
    hide ExpirationOf, AggregatePhase;
  }

  // ---------------------------------------------------------------- the fixpoint

  /** A status that one more pass reproduces. */
  ghost predicate Fixed(op: Op, shower: Shower) {
    var w := op.sys.world;
    && SetUp(op, shower)
    && var m := w.meteor.value;
      && ObserveAll(Refresh(m).status, w.key.name, m.spec.pipelines, w.runs) == m.status
      && m.status.phase == AggregatePhase(m.status)
  }

  lemma {:induction false} FixedStays(op: Op, shower: Shower, scripts: seq<seq<Plan>>)
    requires op.sys.up && Fixed(op, shower) && forall x :: x in scripts ==> QuietScript(x)
    ensures var w := Passes(op, scripts).sys.world; w.meteor.Some? && w.meteor.value.status == op.sys.world.meteor.value.status
    decreases |scripts|
  {
    hide Reconcile, SetUp, ObserveAll;
    SetUpExists(op, shower);
    if scripts != [] {
      assert scripts[0] in scripts;
      var op0 := Resume(op, scripts[0]);
      SetUpResumes(op, shower, scripts[0]);
      SetUpPass(op0, shower);
      var op1 := Reconcile(op0).0;
      SetUpExists(op1, shower);
      SameRefresh(op.sys.world.meteor.value, op1.sys.world.meteor.value);
      FixedStays(op1, shower, scripts[1..]);
    }
  }

  lemma SetUpExists(op: Op, shower: Shower)
    requires SetUp(op, shower)
    ensures var w := op.sys.world;
      w.meteor.Some? && AllExist(w.key.name, w.meteor.value.spec.pipelines, w.runs) && StatusSound(w.key, w.meteor.value.status)
  {
  }

  lemma SameRefresh(m: Meteor, m': Meteor)
    requires m' == m.(rv := m'.rv)
    ensures Refresh(m').status == Refresh(m).status
  {
  }

  /** Two observations of the same runs, each after its own refresh, reach the fixpoint. */
  lemma {:induction false} RefreshTwice(key: Key, m: Meteor, m1: Meteor, m2: Meteor, runs: map<string, Run>)
    requires AllExist(key.name, m.spec.pipelines, runs) && StatusSound(key, m.status)
    requires m1 == m.(rv := m1.rv, status := ObserveAll(Refresh(m).status, key.name, m.spec.pipelines, runs))
    requires m2 == m1.(rv := m2.rv, status := ObserveAll(Refresh(m1).status, key.name, m.spec.pipelines, runs))
    ensures ObserveAll(Refresh(m2).status, key.name, m.spec.pipelines, runs) == m2.status
    ensures m2.status.phase == AggregatePhase(m2.status)
  {
    hide Wrap64, ScanConditions, StageSound, UniqueKinds;
    var names := m.spec.pipelines;
    ObserveAllTwice(Refresh(m).status, key.name, names, runs);
    ObserveAllConditions(Refresh(m).status, key.name, names, runs);
    RefreshedAgain(m1.status, Refresh(m1).status, key.name, names, runs);
    assert m2.status == Refresh(m1).status;
    assert Refresh(m2).status == m2.status;
    RefreshedAgain(m1.status, m2.status, key.name, names, runs);
  }

  /** The phase and the other refreshed fields play no part in an observation. */
  lemma {:induction false} RefreshedAgain(
      st: MeteorStatus, st': MeteorStatus, meteor: string, names: seq<string>, runs: map<string, Run>)
    requires AllExist(meteor, names, runs)
    requires st'.conditions == st.conditions && st'.pipelines == st.pipelines && st'.stage == st.stage
    ensures var r := ObserveAll(st, meteor, names, runs); var r' := ObserveAll(st', meteor, names, runs);
      && r'.conditions == r.conditions && r'.pipelines == r.pipelines && r'.stage == r.stage
      && r' == st'.(conditions := r'.conditions, stage := r'.stage, pipelines := r'.pipelines)
    decreases |names|
  {
    hide PlaceRun, MarkReady;
    if names != [] {
      var run := runs[RunName(meteor, names[0])];
      RefreshedAgain(ObserveOne(st, meteor, names[0], run), ObserveOne(st', meteor, names[0], run), meteor, names[1..], runs);
    }
  }

  /** From any set-up Meteor, two fault-free passes reach a status that no further fault-free pass
      changes, and its phase is the aggregate of its own conditions. */
  lemma {:induction false} StatusReachesFixpoint(op: Op, shower: Shower, first: seq<Plan>, second: seq<Plan>, more: seq<seq<Plan>>)
    requires op.sys.up && SetUp(op, shower)
    requires QuietScript(first) && QuietScript(second) && forall x :: x in more ==> QuietScript(x)
    ensures var op2 := Passes(op, [first, second]); var w2 := op2.sys.world; var w := Passes(op2, more).sys.world;
      && w2.meteor.Some? && w.meteor.Some?
      && w2.meteor.value.status.phase == AggregatePhase(w2.meteor.value.status)
      && w.meteor.value.status == w2.meteor.value.status
  {
    hide Reconcile, SetUp, ObserveAll, AggregatePhase;
    var op0 := Resume(op, first);
    SetUpResumes(op, shower, first);
    SetUpPass(op0, shower);
    var op1 := Reconcile(op0).0;
    SetUpResumes(op1, shower, second);
    SetUpPass(Resume(op1, second), shower);
    var op2 := Reconcile(Resume(op1, second)).0;
    assert [first, second][1..] == [second] && [second][1..] == [];
    assert Passes(op, [first, second]) == Passes(op1, [second]) == Passes(op2, []) == op2;
    var w := op.sys.world;
    SetUpExists(op, shower);
    SetUpExists(op1, shower);
    SetUpExists(op2, shower);
    RefreshTwice(w.key, w.meteor.value, op1.sys.world.meteor.value, op2.sys.world.meteor.value, w.runs);
    FixedStays(op2, shower, more);
  }

  // ---------------------------------------------------------------- the phase at the fixpoint

  /** The pipeline is listed and Tekton has set a condition on its run. */
  predicate Told(meteor: string, names: seq<string>, runs: map<string, Run>, n: string)
    requires AllExist(meteor, names, runs)
  {
    n in names && runs[RunName(meteor, n)].conditions != []
  }

  ghost predicate ToldKind(meteor: string, names: seq<string>, runs: map<string, Run>, kind: string)
    requires AllExist(meteor, names, runs)
  {
    exists n :: Told(meteor, names, runs, n) && CondKind(n) == kind
  }

  lemma CopyAcceptedIff(n: string, run: Run)
    requires run.conditions != []
    ensures Accepted(CopyOf(n, run)) <==> SaysSuccess(run)
  {
    assert PIPELINE_RUN <= CondKind(n);
  }

  /** Lower-case pipelines each have their own last word in the copied conditions. */
  lemma {:induction false} LastCopy(meteor: string, names: seq<string>, runs: map<string, Run>, n: string)
    requires AllExist(meteor, names, runs) && LowerName(n) && forall x :: x in names ==> LowerName(x)
    ensures LastOf(Copies(meteor, names, runs), CondKind(n)) ==
            if Told(meteor, names, runs, n) then Some(CopyOf(n, runs[RunName(meteor, n)])) else None
    decreases |names|
  {
    hide LowerName, CondKind, RunName;
    if names != [] {
      assert names == [names[0]] + names[1..];
      LastCopy(meteor, names[1..], runs, n);
      var run := runs[RunName(meteor, names[0])];
      if run.conditions == [] {
        assert [] + Copies(meteor, names[1..], runs) == Copies(meteor, names[1..], runs);
      } else {
        var c := CopyOf(names[0], run);
        assert ([c] + Copies(meteor, names[1..], runs))[1..] == Copies(meteor, names[1..], runs);
        if CondKind(names[0]) == CondKind(n) { CondKindInjective(names[0], n); }
      }
    }
  }

  /** A type that is copied is that of a pipeline that was told. */
  lemma {:induction false} CopiedKind(meteor: string, names: seq<string>, runs: map<string, Run>, kind: string)
    requires AllExist(meteor, names, runs)
    ensures LastOf(Copies(meteor, names, runs), kind).Some? ==> ToldKind(meteor, names, runs, kind)
    decreases |names|
  {
    hide CondKind, RunName;
    if names != [] {
      assert names == [names[0]] + names[1..];
      CopiedKind(meteor, names[1..], runs, kind);
      if ToldKind(meteor, names[1..], runs, kind) {
        var n :| Told(meteor, names[1..], runs, n) && CondKind(n) == kind;
        assert Told(meteor, names, runs, n);
      }
      var run := runs[RunName(meteor, names[0])];
      if run.conditions == [] {
        assert [] + Copies(meteor, names[1..], runs) == Copies(meteor, names[1..], runs);
      } else {
        assert Told(meteor, names, runs, names[0]);
        var c := CopyOf(names[0], run);
        assert ([c] + Copies(meteor, names[1..], runs))[1..] == Copies(meteor, names[1..], runs);
      }
    }
  }

  /** What the list reads as after an observation: the copy for a pipeline that was told, and whatever it
      read before for every other type. */
  lemma {:induction false} ObservedReads(
      cs: seq<Condition>, meteor: string, names: seq<string>, runs: map<string, Run>, kind: string)
    requires AllExist(meteor, names, runs) && forall x :: x in names ==> LowerName(x)
    ensures var read := Lookup(SetAll(cs, Copies(meteor, names, runs)), kind);
      && (forall n :: Told(meteor, names, runs, n) && CondKind(n) == kind ==> read == Some(CopyOf(n, runs[RunName(meteor, n)])))
      && (!ToldKind(meteor, names, runs, kind) ==> read == Lookup(cs, kind))
  {
    hide LowerName, CondKind, RunName;
    LookupAfterSetAll(cs, Copies(meteor, names, runs), kind);
    CopiedKind(meteor, names, runs, kind);
    forall n | Told(meteor, names, runs, n) && CondKind(n) == kind
      ensures LastOf(Copies(meteor, names, runs), kind) == Some(CopyOf(n, runs[RunName(meteor, n)]))
    {
      LastCopy(meteor, names, runs, n);
    }
  }

  /** The verdict of an observation: there is something to go by, every run that was told says success, and
      every condition that is not about such a run is accepted. */
  ghost predicate AllWell(cs: seq<Condition>, meteor: string, names: seq<string>, runs: map<string, Run>)
    requires AllExist(meteor, names, runs)
  {
    && (cs != [] || exists n :: Told(meteor, names, runs, n))
    && (forall n :: Told(meteor, names, runs, n) ==> SaysSuccess(runs[RunName(meteor, n)]))
    && (forall c :: c in cs && !ToldKind(meteor, names, runs, c.kind) ==> Accepted(c))
  }

  lemma {:induction false} MemberReads(cs: seq<Condition>, c: Condition)
    requires UniqueKinds(cs)
    ensures c in cs <==> Lookup(cs, c.kind) == Some(c)
  {
    LookupMember(cs, c.kind);
    if c in cs {
      var i :| 0 <= i < |cs| && cs[i] == c;
      LookupAt(cs, i);
    }
  }

  lemma {:induction false} ObservedAcceptedIff(cs: seq<Condition>, meteor: string, names: seq<string>, runs: map<string, Run>)
    requires AllExist(meteor, names, runs) && UniqueKinds(cs) && forall x :: x in names ==> LowerName(x)
    ensures var cs1 := SetAll(cs, Copies(meteor, names, runs));
      (cs1 != [] && forall c :: c in cs1 ==> Accepted(c)) <==> AllWell(cs, meteor, names, runs)
  {
    hide LowerName, CondKind, RunName, UniqueKinds, Accepted, SaysSuccess, Copies, SetAll, Lookup;
    var cs1 := SetAll(cs, Copies(meteor, names, runs));
    SetAllKeepsUnique(cs, Copies(meteor, names, runs));
    if AllWell(cs, meteor, names, runs) {
      forall c | c in cs1 ensures Accepted(c) { ObservedAccepted(cs, meteor, names, runs, c); }
      if n :| Told(meteor, names, runs, n) {
        ToldIsThere(cs, meteor, names, runs, n);
      } else {
        assert cs[0] in cs;
        UntoldStays(cs, meteor, names, runs, cs[0]);
      }
    }
    if cs1 != [] && forall c :: c in cs1 ==> Accepted(c) {
      forall n | Told(meteor, names, runs, n) ensures SaysSuccess(runs[RunName(meteor, n)]) {
        ToldIsThere(cs, meteor, names, runs, n);
        CopyAcceptedIff(n, runs[RunName(meteor, n)]);
      }
      forall c | c in cs && !ToldKind(meteor, names, runs, c.kind) ensures Accepted(c) {
        UntoldStays(cs, meteor, names, runs, c);
      }
      SomethingToGoBy(cs, meteor, names, runs);
    }
  }

  lemma {:induction false} ObservedAccepted(
      cs: seq<Condition>, meteor: string, names: seq<string>, runs: map<string, Run>, c: Condition)
    requires AllExist(meteor, names, runs) && UniqueKinds(cs) && forall x :: x in names ==> LowerName(x)
    requires AllWell(cs, meteor, names, runs) && c in SetAll(cs, Copies(meteor, names, runs))
    ensures Accepted(c)
  {
    hide LowerName, CondKind, RunName, UniqueKinds, Accepted, SaysSuccess, Copies, SetAll, Lookup;
    SetAllKeepsUnique(cs, Copies(meteor, names, runs));
    MemberReads(SetAll(cs, Copies(meteor, names, runs)), c);
    ObservedReads(cs, meteor, names, runs, c.kind);
    if ToldKind(meteor, names, runs, c.kind) {
      var n :| Told(meteor, names, runs, n) && CondKind(n) == c.kind;
      CopyAcceptedIff(n, runs[RunName(meteor, n)]);
    } else {
      MemberReads(cs, c);
    }
  }

  lemma {:induction false} ToldIsThere(cs: seq<Condition>, meteor: string, names: seq<string>, runs: map<string, Run>, n: string)
    requires AllExist(meteor, names, runs) && UniqueKinds(cs) && forall x :: x in names ==> LowerName(x)
    requires Told(meteor, names, runs, n)
    ensures CopyOf(n, runs[RunName(meteor, n)]) in SetAll(cs, Copies(meteor, names, runs))
  {
    hide LowerName, CondKind, RunName, UniqueKinds, Copies, SetAll, Lookup;
    SetAllKeepsUnique(cs, Copies(meteor, names, runs));
    ObservedReads(cs, meteor, names, runs, CondKind(n));
    MemberReads(SetAll(cs, Copies(meteor, names, runs)), CopyOf(n, runs[RunName(meteor, n)]));
  }

  lemma {:induction false} UntoldStays(cs: seq<Condition>, meteor: string, names: seq<string>, runs: map<string, Run>, c: Condition)
    requires AllExist(meteor, names, runs) && UniqueKinds(cs) && forall x :: x in names ==> LowerName(x)
    requires c in cs && !ToldKind(meteor, names, runs, c.kind)
    ensures c in SetAll(cs, Copies(meteor, names, runs))
  {
    hide LowerName, CondKind, RunName, UniqueKinds, Copies, SetAll, Lookup;
    SetAllKeepsUnique(cs, Copies(meteor, names, runs));
    ObservedReads(cs, meteor, names, runs, c.kind);
    MemberReads(cs, c);
    MemberReads(SetAll(cs, Copies(meteor, names, runs)), c);
  }

  lemma {:induction false} SomethingToGoBy(cs: seq<Condition>, meteor: string, names: seq<string>, runs: map<string, Run>)
    requires AllExist(meteor, names, runs) && SetAll(cs, Copies(meteor, names, runs)) != []
    ensures cs != [] || exists n :: Told(meteor, names, runs, n)
  {
    hide CondKind, RunName;
    var ws := Copies(meteor, names, runs);
    if cs == [] && ws != [] {
      LastOfMember(ws, ws[0]);
      CopiedKind(meteor, names, runs, ws[0].kind);
    }
  }

  lemma {:induction false} ObservedPhaseExact(st: MeteorStatus, meteor: string, names: seq<string>, runs: map<string, Run>)
    requires AllExist(meteor, names, runs) && UniqueKinds(st.conditions) && forall x :: x in names ==> LowerName(x)
    ensures AggregatePhase(ObserveAll(st, meteor, names, runs)) == Succeeded <==> AllWell(st.conditions, meteor, names, runs)
  {
    hide UniqueKinds, LowerName, AggregatePhase, AllWell, Accepted, CondKind, RunName;
    ObserveAllConditions(st, meteor, names, runs);
    ObservedAcceptedIff(st.conditions, meteor, names, runs);
    SucceededIffAllAccepted(ObserveAll(st, meteor, names, runs));
  }

  /** The settled phase is exact: once everything is set up, two fault-free passes make the stored phase
      Succeeded if and only if every listed pipeline's run on which Tekton has set a condition says success,
      every stored condition that is not about such a run is accepted, be it left over from a pipeline no
      longer listed, and there is any condition to go by. */
  lemma {:induction false} SettledPhaseIsExact(op: Op, shower: Shower, first: seq<Plan>, second: seq<Plan>)
    requires op.sys.up && SetUp(op, shower) && QuietScript(first) && QuietScript(second)
    requires forall x :: x in op.sys.world.meteor.value.spec.pipelines ==> LowerName(x)
    ensures var w := op.sys.world; var w2 := Passes(op, [first, second]).sys.world; var m := w.meteor.value;
      && w2.meteor.Some?
      && (w2.meteor.value.status.phase == Succeeded
          <==> AllWell(m.status.conditions, w.key.name, m.spec.pipelines, w.runs))
  {
    hide Reconcile, SetUp, ObserveAll, AggregatePhase, AllWell, LowerName;
    var w := op.sys.world;
    SetUpExists(op, shower);
    var m := w.meteor.value;
    var op0 := Resume(op, first);
    SetUpResumes(op, shower, first);
    SetUpPass(op0, shower);
    var op1 := Reconcile(op0).0;
    SetUpResumes(op1, shower, second);
    SetUpPass(Resume(op1, second), shower);
    var op2 := Reconcile(Resume(op1, second)).0;
    assert [first, second][1..] == [second] && [second][1..] == [];
    assert Passes(op, [first, second]) == Passes(op1, [second]) == Passes(op2, []) == op2;
    SetUpExists(op1, shower);
    SetUpExists(op2, shower);
    var m1 := op1.sys.world.meteor.value;
    ObservedPhaseExact(Refresh(m).status, w.key.name, m.spec.pipelines, w.runs);
    ObserveAllConditions(Refresh(m1).status, w.key.name, m.spec.pipelines, w.runs);
  }

  /** In the common case, with every run told and no condition left over, Succeeded means that every
      listed pipeline's run says success. */
  lemma AllWellOfListed(cs: seq<Condition>, meteor: string, names: seq<string>, runs: map<string, Run>)
    requires AllExist(meteor, names, runs) && names != [] && forall n :: n in names ==> Told(meteor, names, runs, n)
    requires forall c :: c in cs ==> exists n :: n in names && c.kind == CondKind(n)
    ensures AllWell(cs, meteor, names, runs) <==> forall n :: n in names ==> SaysSuccess(runs[RunName(meteor, n)])
  {
    hide CondKind, RunName, SaysSuccess, Accepted;
    assert names[0] in names;
    forall c | c in cs ensures ToldKind(meteor, names, runs, c.kind) {
      var n :| n in names && c.kind == CondKind(n);
      assert Told(meteor, names, runs, n);
    }
  }
}
