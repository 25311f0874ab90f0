/** Runs that only the operator creates: each belongs to one resource, generation and build type, and
    with a fixed build type the stored phase is that of the outcome machine. */
module CreProgress {
  import opened Kube
  import opened CreApi
  import opened CreNames
  import opened CreCluster
  import opened CrePass
  import opened CreHistory
  import opened CreSafety

  // ---------------------------------------------------------------- runs and their names

  /** The run was made for this resource, generation and build type, and is stored under their name. */
  predicate MadeFor(key: string, run: CreRun, id: RunId) {
    && key == PrintRun(id) && run.owner == id.name
    && run.spouseGeneration == Decimal(id.generation) && run.pipeline == PipelineOf(id.build)
  }

  ghost predicate Owned(key: string, run: CreRun) {
    exists id :: MadeFor(key, run, id)
  }

  ghost predicate RunsOwned(w: CreWorld) {
    && (forall k :: k in w.runs ==> Owned(k, w.runs[k]))
    && (forall x :: x in w.runLog ==> Owned(x.name, x.run))
  }

  /** The resource `name` never has another build type than `t`; None stands for no such restriction. */
  predicate SpecOk(name: string, spec: CreSpec, only: Option<RunId>) {
    only.Some? && only.value.name == name ==> spec.buildType == only.value.build
  }

  /** Nobody else creates runs, and the build type of the resource in question stays. */
  predicate Tame(e: CreEvent, only: Option<RunId>) {
    match e
    case OthersCreateRun(_, _) => false
    case UserCreates(name, _, spec) => SpecOk(name, spec, only)
    case UserEditsSpec(name, spec) => SpecOk(name, spec, only)
    case _ => true
  }

  predicate TameScript(script: seq<CrePlan>, only: Option<RunId>) {
    forall p, e :: p in script && e in p.env ==> Tame(e, only)
  }

  predicate TameJobs(jobs: seq<Job>, only: Option<RunId>) {
    forall j :: j in jobs ==> TameScript(j.script, only)
  }

  /** Everything landed for the resource is about runs of its build type. */
  ghost predicate LandedOk(w: CreWorld, only: Option<RunId>) {
    only.Some? && only.value.name in w.cres ==>
      forall o :: o in Landed(w, w.cres[only.value.name].uid) && Terminal(o) ==> o.pipeline == PipelineOf(only.value.build)
  }

  ghost predicate SpecsOk(w: CreWorld, only: Option<RunId>) {
    && (forall n :: n in w.cres ==> SpecOk(n, w.cres[n].spec, only))
    && (forall v :: v in w.versions ==> SpecOk(v.name, v.cre.spec, only))
  }

  ghost predicate Tamed(w: CreWorld, only: Option<RunId>) {
    Sound(w) && RunsOwned(w) && SpecsOk(w, only) && LandedOk(w, only)
  }

  lemma PutRunOwned(w: CreWorld, key: string, run: CreRun)
    requires RunsOwned(w) && Owned(key, run)
    ensures RunsOwned(PutRun(w, key, run))
  {
    hide Owned;
  }

  lemma TektonKeepsOwner(key: string, run: CreRun, run': CreRun)
    requires Owned(key, run) && run' == run.(conditions := run'.conditions, completed := run'.completed)
    ensures Owned(key, run')
  {
    var id :| MadeFor(key, run, id);
    assert MadeFor(key, run', id);
  }

  lemma HappenRunsOwned(w: CreWorld, e: CreEvent)
    requires RunsOwned(w) && !e.OthersCreateRun?
    ensures RunsOwned(Happen(w, e))
  {
    hide Owned;
    if e.TektonReports? && e.run in w.runs && (e.completed ==> e.conditions != []) {
      var run := w.runs[e.run].(conditions := e.conditions, completed := e.completed);
      TektonKeepsOwner(e.run, w.runs[e.run], run);
      PutRunOwned(w, e.run, run);
    }
  }

  lemma HappenSpecsOk(w: CreWorld, e: CreEvent, only: Option<RunId>)
    requires SpecsOk(w, only) && Tame(e, only)
    ensures SpecsOk(Happen(w, e), only)
  {
    hide SpecOk;
  }

  lemma HappenLandedOk(w: CreWorld, e: CreEvent, only: Option<RunId>)
    requires Sound(w) && LandedOk(w, only)
    ensures LandedOk(Happen(w, e), only)
  {
    hide VersionsOk, OwnUids, StoredOk;
    assert Happen(w, e).landed == w.landed;
    assert w.nextUid !in w.landed;
    if only.Some? && only.value.name in Happen(w, e).cres {
      var n := only.value.name;
      assert (n in w.cres && Happen(w, e).cres[n].uid == w.cres[n].uid) || Happen(w, e).cres[n].uid == w.nextUid;
    }
  }

  lemma HappenTamed(w: CreWorld, e: CreEvent, only: Option<RunId>)
    requires Tamed(w, only) && Tame(e, only)
    ensures Tamed(Happen(w, e), only)
  {
    hide Sound, RunsOwned, SpecsOk, LandedOk, Happen;
    HappenSound(w, e);
    HappenRunsOwned(w, e);
    HappenSpecsOk(w, e, only);
    HappenLandedOk(w, e, only);
  }

  lemma {:induction false} EnvironmentTamed(w: CreWorld, es: seq<CreEvent>, only: Option<RunId>)
    requires Tamed(w, only) && forall e :: e in es ==> Tame(e, only)
    ensures Tamed(Environment(w, es), only)
    decreases |es|
  {
    hide Tamed, Happen, Tame;
    if es != [] {
      HappenTamed(w, es[0], only);
      EnvironmentTamed(Happen(w, es[0]), es[1..], only);
    }
  }

  lemma ArriveTamed(s: CreSys, only: Option<RunId>)
    requires Tamed(s.world, only) && TameScript(s.script, only)
    ensures var s1 := Arrive(s).0; Tamed(s1.world, only) && TameScript(s1.script, only)
  {
    hide Tamed, Tame, Environment;
    if s.script != [] {
      assert s.script[0] in s.script;
      EnvironmentTamed(s.world, s.script[0].env, only);
    }
  }

  // ---------------------------------------------------------------- one pass

  /** What a pass of the resource has learnt is about a run of its build type. */
  ghost predicate SeenOk(seen: Option<Observed>, b: BuildType) {
    seen.Some? && Terminal(seen.value) ==> seen.value.pipeline == PipelineOf(b)
  }

  lemma OwnedPipeline(key: string, run: CreRun, id: RunId)
    requires Owned(key, run) && key == PrintRun(id)
    ensures MadeFor(key, run, id)
  {
    var id' :| MadeFor(key, run, id');
    RunNamesAreDistinct(id, id');
  }

  lemma GetRunTamed(s: CreSys, id: RunId, only: Option<RunId>)
    requires Tamed(s.world, only) && TameScript(s.script, only)
    ensures var got := GetRun(s, PrintRun(id));
      && Tamed(got.sys.world, only) && TameScript(got.sys.script, only)
      && (got.res.Ok? || got.res != Err(NotFound) ==> SeenOk(got.sys.seen, id.build))
  {
    hide Sound, SpecsOk, LandedOk, TameScript, PrintRun, Owned, Arrive;
    ArriveTamed(s, only);
    var w := Arrive(s).0.world;
    forall run: CreRun | Owned(PrintRun(id), run) ensures run.pipeline == PipelineOf(id.build) {
      OwnedPipeline(PrintRun(id), run, id);
    }
    forall x | x in w.runLog && x.name == PrintRun(id) ensures Owned(PrintRun(id), x.run) {
    }
  }

  lemma PutRunTamed(w: CreWorld, id: RunId, run: CreRun, only: Option<RunId>)
    requires Tamed(w, only) && MadeFor(PrintRun(id), run, id)
    ensures Tamed(PutRun(w, PrintRun(id), run), only)
  {
    hide Sound, Owned, PrintRun;
    assert Owned(PrintRun(id), run) by { OwnedBy(PrintRun(id), run, id); }
    PutRunOwned(w, PrintRun(id), run);
    SmallerSound(w, PutRun(w, PrintRun(id), run));
  }

  lemma OwnedBy(key: string, run: CreRun, id: RunId)
    requires MadeFor(key, run, id)
    ensures Owned(key, run)
  {
  }

  lemma CreateRunTamed(s: CreSys, id: RunId, run: CreRun, only: Option<RunId>)
    requires Tamed(s.world, only) && TameScript(s.script, only) && MadeFor(PrintRun(id), run, id)
    ensures var made := CreateRun(s, PrintRun(id), run);
      && Tamed(made.sys.world, only) && TameScript(made.sys.script, only) && SeenOk(made.sys.seen, id.build)
  {
    hide Tamed, TameScript, Arrive, PutRun, PrintRun;
    ArriveTamed(s, only);
    PutRunTamed(Arrive(s).0.world, id, run, only);
  }

  lemma ReconcileRunTamed(s: CreSys, name: string, cre: Cre, only: Option<RunId>)
    requires Tamed(s.world, only) && TameScript(s.script, only)
    ensures var s1 := ReconcilePipelineRun(s, name, cre).0;
      Tamed(s1.world, only) && TameScript(s1.script, only) && SeenOk(s1.seen, cre.spec.buildType)
  {
    hide Tamed, TameScript, GetRun, CreateRun, PrintRun, AfterFound, AfterCreate, AfterFetchError, WithResult, SeenOk;
    var id := RunId(name, cre.generation, cre.spec.buildType);
    GetRunTamed(s, id, only);
    var got := GetRun(s, PrintRun(id));
    if got.res == Err(NotFound) {
      CreateRunTamed(got.sys, id, RunOf(name, cre), only);
    }
  }

  lemma CommitTamed(w: CreWorld, name: string, v: Cre, cre: Cre, seen: Option<Observed>, only: Option<RunId>)
    requires Tamed(w, only) && CreVersion(name, v) in w.versions && cre.rv == v.rv && Matches(w, name, cre)
    requires Written(name, v, cre.status, seen) && SeenOk(seen, v.spec.buildType)
    ensures Tamed(CommitStatus(w, name, cre, seen), only)
  {
    hide Sound, Written, RunsOwned;
    MatchMeansStored(w, name, v);
    StoredNow(w, name);
    CommitSound(w, name, v, cre, seen);
    var w' := CommitStatus(w, name, cre, seen);
    assert RunsOwned(w') by { SameRunsOwned(w, w'); }
    assert SpecsOk(w', only) by {
      assert w'.cres[name].spec == v.spec;
      assert w'.versions == w.versions + [CreVersion(name, w'.cres[name])];
    }
    hide SpecsOk;
    if only.Some? && only.value.name in w'.cres {
      var n := only.value.name;
      assert seen.Some? ==> Landed(w', v.uid) == Landed(w, v.uid) + [seen.value];
      if n == name {
        assert v.spec.buildType == only.value.build by { SpecHere(w, name, only); }
      } else {
        assert w.cres[n].uid != v.uid;
        assert Landed(w', w.cres[n].uid) == Landed(w, w.cres[n].uid);
      }
    }
  }

  lemma SpecHere(w: CreWorld, name: string, only: Option<RunId>)
    requires SpecsOk(w, only) && name in w.cres
    ensures SpecOk(name, w.cres[name].spec, only)
  {
  }

  lemma SameRunsOwned(w: CreWorld, w': CreWorld)
    requires RunsOwned(w) && w'.runs == w.runs && w'.runLog == w.runLog
    ensures RunsOwned(w')
  {
    hide Owned;
  }

  lemma GetCreTamed(s: CreSys, name: string, only: Option<RunId>)
    requires Tamed(s.world, only) && TameScript(s.script, only)
    ensures var got := GetCre(s, name); Tamed(got.sys.world, only) && TameScript(got.sys.script, only)
  {
    hide Tamed, TameScript, Arrive;
    ArriveTamed(s, only);
  }

  lemma TamedIsSound(w: CreWorld, only: Option<RunId>)
    requires Tamed(w, only)
    ensures Sound(w)
  {
  }

  lemma ReconcileTamed(s: CreSys, name: string, only: Option<RunId>)
    requires Tamed(s.world, only) && TameScript(s.script, only)
    ensures Tamed(Reconcile(s, name).0.world, only)
  {
    hide Tamed, TameScript, Sound, Later, ReconcilePipelineRun, Arrive, Written, CommitStatus, GetCre, Concluded, SeenOk;
    hide After, WithResult, RunNameOf, PhaseOf;
    GetCreTamed(s, name, only);
    TamedIsSound(s.world, only);
    GetCreSound(s, name);
    var got := GetCre(s, name);
    if got.res.Ok? && !got.res.value.deleting {
      var v := got.res.value;
      var cre0 := v.(status := v.status.(phase := PhaseOf(v.status.conditions)));
      ReconcileRunTamed(got.sys, name, cre0, only);
      ReconcileRunSound(got.sys, name, cre0);
      var (s1, cre1) := ReconcilePipelineRun(got.sys, name, cre0);
      ArriveTamed(s1, only);
      ArriveSound(s1);
      ConcludedWrites(name, v, cre0, cre1, s1.seen);
      StaysOnRecord(got.sys.world, s1.world, Arrive(s1).0.world, CreVersion(name, v));
      var w := Arrive(s1).0.world;
      if Matches(w, name, Concluded(cre1)) {
        CommitTamed(w, name, v, Concluded(cre1), s1.seen, only);
      }
    }
  }

  lemma StaysOnRecord(a: CreWorld, b: CreWorld, c: CreWorld, v: CreVersion)
    requires Later(a, b) && Later(b, c) && v in a.versions
    ensures v in c.versions
  {
  }

  lemma {:induction false} PassesTamed(w: CreWorld, jobs: seq<Job>, only: Option<RunId>)
    requires Tamed(w, only) && TameJobs(jobs, only)
    ensures Tamed(Passes(w, jobs), only)
    decreases |jobs|
  {
    hide Tamed, TameScript, Reconcile;
    if jobs != [] {
      assert jobs[0] in jobs;
      ReconcileTamed(Begin(w, jobs[0].script), jobs[0].name, only);
      PassesTamed(Reconcile(Begin(w, jobs[0].script), jobs[0].name).0.world, jobs[1..], only);
    }
  }

  // ---------------------------------------------------------------- the theorems

  /** With runs created by the operator only, every run carries the name of its resource, generation and
      build type: runs of different resources never share a name, and at any time at most one run
      exists for one resource, generation and build type, stale reads notwithstanding. */
  lemma {:induction false} AtMostOneRunEach(w: CreWorld, jobs: seq<Job>, a: string, b: string)
    requires Initial(w) && TameJobs(jobs, None) && a in Passes(w, jobs).runs && b in Passes(w, jobs).runs
    ensures var runs := Passes(w, jobs).runs;
      && ParseRun(a).Some? && MadeFor(a, runs[a], ParseRun(a).value)
      && (a == b <==> runs[a].owner == runs[b].owner && runs[a].spouseGeneration == runs[b].spouseGeneration
                      && runs[a].pipeline == runs[b].pipeline)
  {
    hide Passes, PrintRun, ParseRun, Sound, SpecsOk, LandedOk, Decimal, PipelineOf;
    InitialTamed(w, None);
    PassesTamed(w, jobs, None);
    var runs := Passes(w, jobs).runs;
    var i :| MadeFor(a, runs[a], i);
    var j :| MadeFor(b, runs[b], j);
    PrintedRunReadsBack(i);
    if runs[a].spouseGeneration == runs[b].spouseGeneration && runs[a].pipeline == runs[b].pipeline {
      SameLabels(i, j);
    }
  }

  lemma SameLabels(i: RunId, j: RunId)
    requires Decimal(i.generation) == Decimal(j.generation) && PipelineOf(i.build) == PipelineOf(j.build)
    ensures i.generation == j.generation && i.build == j.build
  {
    DecimalReadsBack(i.generation);
    DecimalReadsBack(j.generation);
    assert |PipelineOf(GitRepository)| == 7 && |PipelineOf(PackageList)| == 12 && |PipelineOf(ImageImport)| == 6;
  }

  lemma InitialTamed(w: CreWorld, only: Option<RunId>)
    requires Initial(w)
    ensures Tamed(w, only)
  {
    InitialSound(w);
  }

  /** With runs created by the operator only, a build type of image import or package list that stays,
      and no create error stored, the stored phase refines the outcome machine: across generations, run
      deletions, stale reads and lost writes it is Succeeded or Failed after a landed terminal observation,
      as that run ended, and Running exactly while a create is the latest landed create-or-terminal
      observation. */
  lemma {:induction false} PhaseRefinesMachine(w: CreWorld, jobs: seq<Job>, name: string, build: BuildType)
    requires Initial(w) && !build.GitRepository? && TameJobs(jobs, Some(RunId(name, 0, build)))
    requires var w1 := Passes(w, jobs);
      name in w1.cres && Landed(w1, w1.cres[name].uid) != [] && CreateTried(false) !in Landed(w1, w1.cres[name].uid)
    ensures var w1 := Passes(w, jobs); var h := Landed(w1, w1.cres[name].uid);
      && w1.cres[name].status.phase == MachinePhase(Machine(h))
      && (w1.cres[name].status.phase == Running <==> CreatePending(h))
  {
    hide Passes, Sound, RunsOwned, SpecsOk, TameJobs, Fold, PhaseOf, Machine, CreatePending, Landed;
    var only := Some(RunId(name, 0, build));
    InitialTamed(w, only);
    PassesTamed(w, jobs, only);
    var w1 := Passes(w, jobs);
    StoredNow(w1, name);
    OneBuildTypeRefinesMachine(Landed(w1, w1.cres[name].uid), PipelineOf(build));
  }
}
