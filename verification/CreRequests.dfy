/** What the runs of CustomRuntimeEnvironments are asked to build: every run on record carries the values
    of the version it was created for, whatever happened to the resource since. */
module CreRequests {
  import opened Kube
  import opened CreApi
  import opened CreNames
  import opened CreCluster
  import opened CrePass
  import opened CreHistory
  import opened CreSafety
  import P = CreProgress

  // ---------------------------------------------------------------- what a parameter list says

  /** The list gives this value under the name, and no other. */
  predicate Says(ps: seq<Param>, name: string, value: ParamValue) {
    Param(name, value) in ps && forall p :: p in ps && p.name == name ==> p.value == value
  }

  predicate SaysText(ps: seq<Param>, name: string, text: string) {
    Says(ps, name, StringVal(text))
  }

  /** An annotation that is missing reads as the empty text. */
  predicate SaysAnnotation(ps: seq<Param>, name: string, annotations: Option<map<string, string>>, key: string) {
    if annotations.Some? && key in annotations.value then SaysText(ps, name, annotations.value[key]) else SaysText(ps, name, "")
  }

  predicate NamedOnly(ps: seq<Param>, names: set<string>) {
    forall p :: p in ps ==> p.name in names
  }

  /** What the three annotations and the fields of the build type ask for. */
  predicate AsksFor(ps: seq<Param>, annotations: Option<map<string, string>>, spec: CreSpec) {
    && SaysAnnotation(ps, "name", annotations, "opendatahub.io/notebook-image-name")
    && SaysAnnotation(ps, "creator", annotations, "opendatahub.io/notebook-image-creator")
    && SaysAnnotation(ps, "description", annotations, "opendatahub.io/notebook-image-desc")
    && match spec.buildType
       case ImageImport =>
         SaysText(ps, "baseImage", spec.fromImage) && NamedOnly(ps, {"name", "creator", "description", "baseImage"})
       case GitRepository =>
         && SaysText(ps, "url", spec.repository) && SaysText(ps, "ref", spec.gitRef)
         && NamedOnly(ps, {"name", "creator", "description", "url", "ref"})
       case PackageList =>
         && (if spec.baseImage != "" then
               && SaysText(ps, "baseImage", spec.baseImage)
               && NamedOnly(ps, {"name", "creator", "description", "baseImage", "packages"})
             else
               && SaysText(ps, "osVersion", spec.runtime.osVersion) && SaysText(ps, "osName", spec.runtime.osName)
               && SaysText(ps, "pythonVersion", spec.runtime.pythonVersion)
               && NamedOnly(ps, {"name", "creator", "description", "osVersion", "osName", "pythonVersion", "packages"}))
         && (if spec.packages != [] then Says(ps, "packages", ArrayVal(spec.packages))
             else forall p :: p in ps ==> p.name != "packages")
  }

  lemma SaidAt(ps: seq<Param>, i: nat)
    requires UniqueNames(ps) && i < |ps|
    ensures Says(ps, ps[i].name, ps[i].value)
  {
    assert Param(ps[i].name, ps[i].value) == ps[i];
    forall p | p in ps && p.name == ps[i].name ensures p.value == ps[i].value {
      var j :| 0 <= j < |ps| && ps[j] == p;
    }
  }

  lemma AnnotationsSaid(annotations: Option<map<string, string>>, spec: CreSpec)
    ensures var ps := Params(annotations, spec);
      && SaysAnnotation(ps, "name", annotations, "opendatahub.io/notebook-image-name")
      && SaysAnnotation(ps, "creator", annotations, "opendatahub.io/notebook-image-creator")
      && SaysAnnotation(ps, "description", annotations, "opendatahub.io/notebook-image-desc")
  {
    hide UniqueNames, Says, BuildParams;
    var ps := Params(annotations, spec);
    ParamNamesUnique(annotations, spec);
    SaidAt(ps, 0);
    SaidAt(ps, 1);
    SaidAt(ps, 2);
  }

  lemma ImportAsks(annotations: Option<map<string, string>>, spec: CreSpec)
    requires spec.buildType.ImageImport?
    ensures AsksFor(Params(annotations, spec), annotations, spec)
  {
    hide UniqueNames, Says, SaysAnnotation, Annotation;
    var ps := Params(annotations, spec);
    ParamNamesUnique(annotations, spec);
    AnnotationsSaid(annotations, spec);
    SaidAt(ps, 3);
  }

  lemma GitAsks(annotations: Option<map<string, string>>, spec: CreSpec)
    requires spec.buildType.GitRepository?
    ensures AsksFor(Params(annotations, spec), annotations, spec)
  {
    hide UniqueNames, Says, SaysAnnotation, Annotation;
    var ps := Params(annotations, spec);
    ParamNamesUnique(annotations, spec);
    AnnotationsSaid(annotations, spec);
    SaidAt(ps, 3);
    SaidAt(ps, 4);
  }

  lemma BaseImageAsks(annotations: Option<map<string, string>>, spec: CreSpec)
    requires spec.buildType.PackageList? && spec.baseImage != ""
    ensures AsksFor(Params(annotations, spec), annotations, spec)
  {
    hide UniqueNames, Says, SaysAnnotation, Annotation;
    var ps := Params(annotations, spec);
    ParamNamesUnique(annotations, spec);
    AnnotationsSaid(annotations, spec);
    SaidAt(ps, 3);
    if spec.packages != [] { SaidAt(ps, 4); }
  }

  lemma RuntimeAsks(annotations: Option<map<string, string>>, spec: CreSpec)
    requires spec.buildType.PackageList? && spec.baseImage == ""
    ensures AsksFor(Params(annotations, spec), annotations, spec)
  {
    hide UniqueNames, Says, SaysAnnotation, Params;
    var ps := Params(annotations, spec);
    RuntimeEntries(annotations, spec);
    ParamNamesUnique(annotations, spec);
    AnnotationsSaid(annotations, spec);
    SaidAt(ps, 3);
    SaidAt(ps, 4);
    SaidAt(ps, 5);
    if spec.packages != [] { SaidAt(ps, 6); }
  }

  /** The parameter list of a new run asks for what its version says. */
  lemma ParamsAsk(annotations: Option<map<string, string>>, spec: CreSpec)
    ensures AsksFor(Params(annotations, spec), annotations, spec)
  {
    hide AsksFor, Params;
    match spec.buildType
    case ImageImport => ImportAsks(annotations, spec);
    case GitRepository => GitAsks(annotations, spec);
    case PackageList =>
      if spec.baseImage != "" { BaseImageAsks(annotations, spec); } else { RuntimeAsks(annotations, spec); }
  }

  // ---------------------------------------------------------------- runs and results go back to versions

  /** The name of a run spells out the resource, the generation and the pipeline of its build type. */
  predicate IsRunName(key: string, v: CreVersion) {
    var stem := "cre-" + v.name + "-" + Decimal(v.cre.generation);
    match v.cre.spec.buildType
    case ImageImport => key == stem + "-" + "import"
    case PackageList => key == stem + "-" + "package-list"
    case GitRepository => key == stem + "-" + "gitrepo"
  }

  /** The run carries the labels and the values of that version, under its name. */
  predicate MadeFrom(key: string, run: CreRun, v: CreVersion) {
    && IsRunName(key, v) && run.owner == v.name && run.spouseGeneration == Decimal(v.cre.generation)
    && (run.pipeline == "import" <==> v.cre.spec.buildType.ImageImport?)
    && (run.pipeline == "package-list" <==> v.cre.spec.buildType.PackageList?)
    && (run.pipeline == "gitrepo" <==> v.cre.spec.buildType.GitRepository?)
    && AsksFor(run.params, v.cre.annotations, v.cre.spec)
  }

  ghost predicate Requested(w: CreWorld, key: string, run: CreRun) {
    exists v :: v in w.versions && MadeFrom(key, run, v)
  }

  /** A result names the resource and the run of one of its versions. */
  ghost predicate Titled(w: CreWorld, name: string, r: CreResult) {
    r.name == name && exists v :: v in w.versions && v.name == name && IsRunName(r.runName, v)
  }

  ghost predicate AllRequested(w: CreWorld) {
    forall k :: k in w.runs ==> Requested(w, k, w.runs[k])
  }

  ghost predicate AllTitled(w: CreWorld) {
    forall n, r :: n in w.cres && r in w.cres[n].status.pipelines ==> Titled(w, n, r)
  }

  ghost predicate Traced(w: CreWorld) {
    Sound(w) && AllRequested(w) && AllTitled(w)
  }

  lemma RequestStays(w: CreWorld, w': CreWorld, key: string, run: CreRun)
    requires Requested(w, key, run) && Later(w, w')
    ensures Requested(w', key, run)
  {
    hide MadeFrom;
  }

  lemma TitleStays(w: CreWorld, w': CreWorld, name: string, r: CreResult)
    requires Titled(w, name, r) && Later(w, w')
    ensures Titled(w', name, r)
  {
    hide IsRunName;
  }

  lemma ReportKeepsRequest(w: CreWorld, key: string, run: CreRun, run': CreRun)
    requires Requested(w, key, run) && run' == run.(conditions := run'.conditions, completed := run'.completed)
    ensures Requested(w, key, run')
  {
    var v :| v in w.versions && MadeFrom(key, run, v);
    assert MadeFrom(key, run', v);
  }

  /** What nobody does to runs and statuses but the operator and Tekton. */
  lemma HappenTraced(w: CreWorld, e: CreEvent)
    requires Traced(w) && !e.OthersCreateRun?
    ensures Traced(Happen(w, e))
  {
    hide Sound, Requested, Titled;
    HappenSound(w, e);
    var w' := Happen(w, e);
    forall k | k in w'.runs ensures Requested(w', k, w'.runs[k]) {
      RequestStays(w, w', k, w.runs[k]);
      if w'.runs[k] != w.runs[k] { ReportKeepsRequest(w', k, w.runs[k], w'.runs[k]); }
    }
    forall n, r | n in w'.cres && r in w'.cres[n].status.pipelines ensures Titled(w', n, r) { TitleStays(w, w', n, r); }
  }

  lemma {:induction false} EnvironmentTraced(w: CreWorld, es: seq<CreEvent>)
    requires Traced(w) && forall e :: e in es ==> !e.OthersCreateRun?
    ensures Traced(Environment(w, es))
    decreases |es|
  {
    hide Traced, Happen;
    if es != [] {
      HappenTraced(w, es[0]);
      EnvironmentTraced(Happen(w, es[0]), es[1..]);
    }
  }

  lemma ArriveTraced(s: CreSys)
    requires Traced(s.world) && P.TameScript(s.script, None)
    ensures var s1 := Arrive(s).0; Traced(s1.world) && P.TameScript(s1.script, None)
  {
    hide Traced, Environment;
    if s.script != [] {
      assert s.script[0] in s.script;
      forall e | e in s.script[0].env ensures !e.OthersCreateRun? { assert P.Tame(e, None); }
      EnvironmentTraced(s.world, s.script[0].env);
    }
  }

  // ---------------------------------------------------------------- one pass

  lemma RunOfVersion(v: CreVersion, cre: Cre)
    requires cre == v.cre.(status := cre.status)
    ensures MadeFrom(RunNameOf(v.name, cre), RunOf(v.name, cre), v) && IsRunName(RunNameOf(v.name, cre), v)
  {
    hide AsksFor, Params, Decimal;
    ParamsAsk(v.cre.annotations, v.cre.spec);
    assert |"import"| == 6 && |"package-list"| == 12 && |"gitrepo"| == 7;
  }

  lemma PutRunTraced(w: CreWorld, key: string, run: CreRun)
    requires Traced(w) && Requested(w, key, run)
    ensures Traced(PutRun(w, key, run))
  {
    hide Sound, Requested, Titled;
    var w' := PutRun(w, key, run);
    SmallerSound(w, w');
    forall k | k in w'.runs ensures Requested(w', k, w'.runs[k]) { RequestStays(w, w', k, w'.runs[k]); }
    forall n, r | n in w'.cres && r in w'.cres[n].status.pipelines ensures Titled(w', n, r) { TitleStays(w, w', n, r); }
  }

  lemma CreateRunTraced(s: CreSys, v: CreVersion, cre: Cre)
    requires Traced(s.world) && P.TameScript(s.script, None) && v in s.world.versions && cre == v.cre.(status := cre.status)
    ensures var s1 := CreateRun(s, RunNameOf(v.name, cre), RunOf(v.name, cre)).sys;
      Traced(s1.world) && P.TameScript(s1.script, None)
  {
    hide Traced, P.TameScript, Arrive, PutRun, MadeFrom, RunNameOf, RunOf;
    ArriveTraced(s);
    TracedIsSound(s.world);
    ArriveSound(s);
    var w := Arrive(s).0.world;
    RunOfVersion(v, cre);
    assert v in w.versions;
    var key, run := RunNameOf(v.name, cre), RunOf(v.name, cre);
    assert Requested(w, key, run);
    PutRunTraced(w, key, run);
  }

  lemma TracedIsSound(w: CreWorld)
    requires Traced(w)
    ensures Sound(w)
  {
  }

  lemma ReconcileRunTraced(s: CreSys, v: CreVersion, cre: Cre)
    requires Traced(s.world) && P.TameScript(s.script, None) && v in s.world.versions && cre == v.cre.(status := cre.status)
    ensures var s1 := ReconcilePipelineRun(s, v.name, cre).0; Traced(s1.world) && P.TameScript(s1.script, None)
  {
    hide Traced, P.TameScript, Arrive, CreateRun, RunNameOf, RunOf, AfterFound, AfterCreate, AfterFetchError, WithResult;
    ArriveTraced(s);
    TracedIsSound(s.world);
    ArriveSound(s);
    assert v in Arrive(s).0.world.versions by { P.StaysOnRecord(s.world, s.world, Arrive(s).0.world, v); }
    var got := GetRun(s, RunNameOf(v.name, cre));
    if got.res == Err(NotFound) { CreateRunTraced(got.sys, v, cre); }
  }

  lemma CommitTraced(w: CreWorld, name: string, v: Cre, cre: Cre, seen: Option<Observed>)
    requires Traced(w) && CreVersion(name, v) in w.versions && cre.rv == v.rv && Matches(w, name, cre)
    requires Written(name, v, cre.status, seen)
    requires cre.status.pipelines == WithResult(v.status.pipelines, name, RunNameOf(name, v))
    ensures Traced(CommitStatus(w, name, cre, seen))
  {
    hide Sound, Requested, Written, IsRunName, RunNameOf;
    MatchMeansStored(w, name, v);
    CommitSound(w, name, v, cre, seen);
    var w' := CommitStatus(w, name, cre, seen);
    assert w'.runs == w.runs && w'.cres.Keys == w.cres.Keys by { CommitShape(w, name, cre, seen); }
    forall k | k in w'.runs ensures Requested(w', k, w'.runs[k]) { RequestStays(w, w', k, w'.runs[k]); }
    forall n, r | n in w'.cres && r in w'.cres[n].status.pipelines ensures Titled(w', n, r) {
      if r in w.cres[n].status.pipelines {
        TitleStays(w, w', n, r);
      } else {
        CommitShape(w, name, cre, seen);
        RunOfVersion(CreVersion(name, v), v);
        TitleStays(w, w', n, r);
      }
    }
  }

  lemma CommitShape(w: CreWorld, name: string, cre: Cre, seen: Option<Observed>)
    requires name in w.cres
    ensures var w' := CommitStatus(w, name, cre, seen);
      && w'.runs == w.runs && w'.cres.Keys == w.cres.Keys
      && w'.cres[name].status == cre.status && forall n :: n in w.cres && n != name ==> w'.cres[n] == w.cres[n]
  {
  }

  lemma ReconcileTraced(s: CreSys, name: string)
    requires Traced(s.world) && P.TameScript(s.script, None)
    ensures Traced(Reconcile(s, name).0.world)
  {
    hide Traced, P.TameScript, Sound, Later, ReconcilePipelineRun, Arrive, Written, CommitStatus, GetCre, Concluded, After;
    hide WithResult, PhaseOf, RunNameOf;
    TracedIsSound(s.world);
    GetCreSound(s, name);
    GetCreTraced(s, name);
    var got := GetCre(s, name);
    if got.res.Ok? && !got.res.value.deleting {
      var v := got.res.value;
      var cre0 := v.(status := v.status.(phase := PhaseOf(v.status.conditions)));
      ReconcileRunTraced(got.sys, CreVersion(name, v), cre0);
      ReconcileRunSound(got.sys, name, cre0);
      var (s1, cre1) := ReconcilePipelineRun(got.sys, name, cre0);
      ArriveTraced(s1);
      ArriveSound(s1);
      ConcludedWrites(name, v, cre0, cre1, s1.seen);
      P.StaysOnRecord(got.sys.world, s1.world, Arrive(s1).0.world, CreVersion(name, v));
      SameRunName(name, v, cre0);
      SamePipelines(cre1);
      if Matches(Arrive(s1).0.world, name, Concluded(cre1)) {
        CommitTraced(Arrive(s1).0.world, name, v, Concluded(cre1), s1.seen);
      }
    }
  }

  lemma SameRunName(name: string, v: Cre, cre: Cre)
    requires cre == v.(status := cre.status)
    ensures RunNameOf(name, cre) == RunNameOf(name, v)
  {
  }

  lemma SamePipelines(cre: Cre)
    ensures Concluded(cre).status.pipelines == cre.status.pipelines
  {
  }

  lemma GetCreTraced(s: CreSys, name: string)
    requires Traced(s.world) && P.TameScript(s.script, None)
    ensures var got := GetCre(s, name); Traced(got.sys.world) && P.TameScript(got.sys.script, None)
  {
    hide Traced, P.TameScript, Arrive;
    ArriveTraced(s);
  }

  lemma {:induction false} PassesTraced(w: CreWorld, jobs: seq<Job>)
    requires Traced(w) && P.TameJobs(jobs, None)
    ensures Traced(Passes(w, jobs))
    decreases |jobs|
  {
    hide Traced, P.TameScript, Reconcile;
    if jobs != [] {
      assert jobs[0] in jobs;
      ReconcileTraced(Begin(w, jobs[0].script), jobs[0].name);
      PassesTraced(Reconcile(Begin(w, jobs[0].script), jobs[0].name).0.world, jobs[1..]);
    }
  }

  lemma InitialTraced(w: CreWorld)
    requires Initial(w)
    ensures Traced(w)
  {
    InitialSound(w);
  }

  // ---------------------------------------------------------------- the theorems

  /** With runs made by the operator only, every stored run was made from a committed version of its
      resource: it carries that version's name, generation and build type, and its parameters give exactly
      the values of that version, under their own names, and nothing else. Stale reads, edits, deletions and
      lost answers notwithstanding. */
  lemma {:induction false} StoredRunsAskForAVersion(w: CreWorld, jobs: seq<Job>, key: string)
    requires Initial(w) && P.TameJobs(jobs, None) && key in Passes(w, jobs).runs
    ensures var w1 := Passes(w, jobs); exists v :: v in w1.versions && MadeFrom(key, w1.runs[key], v)
  {
    hide Passes, Sound, MadeFrom;
    InitialTraced(w);
    PassesTraced(w, jobs);
    assert Requested(Passes(w, jobs), key, Passes(w, jobs).runs[key]);
  }

  /** The one result of a resource names the run of a version it had. */
  lemma {:induction false} ResultsNameOwnRuns(w: CreWorld, jobs: seq<Job>, name: string, r: CreResult)
    requires Initial(w) && P.TameJobs(jobs, None)
    requires name in Passes(w, jobs).cres && r in Passes(w, jobs).cres[name].status.pipelines
    ensures r.name == name && exists v :: v in Passes(w, jobs).versions && v.name == name && IsRunName(r.runName, v)
  {
    hide Passes, Sound, IsRunName;
    InitialTraced(w);
    PassesTraced(w, jobs);
    assert Titled(Passes(w, jobs), name, r);
  }

  /** A pass that reports no error left the version it read with a status about that very version: its
      generation, and the phase of its own conditions. Otherwise there was nothing to work on: a resource
      that is gone or being deleted is left alone, and only a failed read is an error. */
  lemma {:induction false} QuietAnswerMeansWritten(w: CreWorld, jobs: seq<Job>, script: seq<CrePlan>, name: string)
    requires Initial(w)
    ensures var s := Begin(Passes(w, jobs), script); var read := GetCre(s, name).res; var (s1, failed) := Reconcile(s, name);
      && (read.Err? || read.value.deleting ==>
            s1.world == GetCre(s, name).sys.world && (failed <==> read.Err? && read != Err(NotFound)))
      && (read.Ok? && !read.value.deleting && !failed ==>
            && name in s1.world.cres
            && var cre := s1.world.cres[name];
              && cre == read.value.(status := cre.status, rv := cre.rv)
              && cre.status.observedGeneration == cre.generation && cre.status.phase == PhaseOf(cre.status.conditions))
  {
    hide Passes, Sound;
    InitialSound(w);
    PassesSound(w, jobs);
    AnswerMeansWritten(Begin(Passes(w, jobs), script), name);
  }

  lemma AnswerMeansWritten(s: CreSys, name: string)
    requires Sound(s.world)
    ensures var read := GetCre(s, name).res; var (s1, failed) := Reconcile(s, name);
      read.Ok? && !read.value.deleting && !failed ==>
        && name in s1.world.cres
        && var cre := s1.world.cres[name];
          && cre == read.value.(status := cre.status, rv := cre.rv)
          && cre.status.observedGeneration == cre.generation && cre.status.phase == PhaseOf(cre.status.conditions)
  {
    hide Sound, Later, ReconcilePipelineRun, Arrive, Written, GetCre, After, WithResult, PhaseOf, RunNameOf;
    GetCreSound(s, name);
    var got := GetCre(s, name);
    if got.res.Ok? && !got.res.value.deleting {
      var v := got.res.value;
      var cre0 := v.(status := v.status.(phase := PhaseOf(v.status.conditions)));
      ReconcileRunSound(got.sys, name, cre0);
      var (s1, cre1) := ReconcilePipelineRun(got.sys, name, cre0);
      ArriveSound(s1);
      P.StaysOnRecord(got.sys.world, s1.world, Arrive(s1).0.world, CreVersion(name, v));
      var w := Arrive(s1).0.world;
      if Matches(w, name, Concluded(cre1)) { MatchMeansStored(w, name, v); }
    }
  }
}
