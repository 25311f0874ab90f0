/** One pass of the CustomRuntimeEnvironment controller as a function: the specification of the methods
    in CreController. */
module CrePass {
  import opened Kube
  import opened CreApi
  import opened CreNames
  import opened CreCluster

  /** After a create attempt; the created condition is set even when the attempt failed. */
  function AfterCreate(cs: seq<Condition>, ok: bool): seq<Condition> {
    var cs1 := if ok then cs else SetCondition(cs, Condition(RUN_CREATE_ERROR, CondTrue, "PipelineRunCreateFailed"));
    SetCondition(cs1, Condition(RUN_CREATED, CondTrue, "PipelineRunCreated"))
  }

  function AfterFetchError(cs: seq<Condition>): seq<Condition> {
    SetCondition(cs, Condition(GENERIC_ERROR, CondTrue, "PipelineRunGenericError"))
  }

  function AfterTerminal(cs: seq<Condition>): seq<Condition> {
    RemoveCondition(SetCondition(cs, Condition(RUN_COMPLETED, CondTrue, "PipelineRunCompleted")), RUN_CREATED)
  }

  /** After a success. A git repository build has no condition of its own. */
  function AfterWon(cs: seq<Condition>, pipeline: string): seq<Condition> {
    var cs1 := AfterTerminal(cs);
    if pipeline == "import" then SetCondition(cs1, Condition(IMPORT_READY, CondTrue, "ImageImportReady"))
    else if pipeline == "package-list" then SetCondition(cs1, Condition(PACKAGES_BUILT, CondTrue, "PackageListBuildCompleted"))
    else cs1
  }

  function AfterLost(cs: seq<Condition>, pipeline: string): seq<Condition> {
    var cs1 := AfterTerminal(cs);
    if pipeline == "import" then SetCondition(cs1, Condition(IMPORT_READY, CondFalse, "ImageImportNotReady"))
    else if pipeline == "gitrepo" then SetCondition(cs1, Condition(BUILD_ERROR, CondTrue, "ErrorBuildingImage"))
    else if pipeline == "package-list" then SetCondition(cs1, Condition(PACKAGES_BUILT, CondFalse, "PackageListBuildCompleted"))
    else cs1
  }

  function AfterFound(cs: seq<Condition>, run: CreRun): seq<Condition> {
    match OutcomeOf(run)
    case Won => AfterWon(cs, run.pipeline)
    case Lost => AfterLost(cs, run.pipeline)
    case Unfinished => cs
  }

  /** The one result kept for the resource, named after it. */
  function WithResult(rs: seq<CreResult>, name: string, runName: string): seq<CreResult> {
    if exists r :: r in rs && r.name == name then rs else rs + [CreResult(name, runName, "False")]
  }

  /** The run this version of the resource asks for. */
  function RunOf(name: string, cre: Cre): CreRun {
    AnyCreRun(
      name, Decimal(cre.generation), PipelineOf(cre.spec.buildType), Params(cre.annotations, cre.spec), [], false)
  }

  function RunNameOf(name: string, cre: Cre): string {
    PrintRun(RunId(name, cre.generation, cre.spec.buildType))
  }

  function ReconcilePipelineRun(s: CreSys, name: string, cre: Cre): (CreSys, Cre) {
    var runName := RunNameOf(name, cre);
    var st := cre.status.(pipelines := WithResult(cre.status.pipelines, name, runName));
    var cs := st.conditions;
    var got := GetRun(s, runName);
    match got.res
    case Ok(run) => (got.sys, cre.(status := st.(conditions := AfterFound(cs, run))))
    case Err(NotFound) =>
      var made := CreateRun(got.sys, runName, RunOf(name, cre));
      (made.sys, cre.(status := st.(conditions := AfterCreate(cs, made.res.Ok?))))
    case Err(_) => (got.sys, cre.(status := st.(conditions := AfterFetchError(cs))))
  }

  /** The status as it is written: the comparison with the old status sets a value against a pointer,
      so it never finds them equal and the phase is always aggregated again. */
  function Concluded(cre: Cre): Cre {
    cre.(status := cre.status.(observedGeneration := cre.generation, phase := PhaseOf(cre.status.conditions)))
  }

  /** The pass; the flag says that an error is returned. */
  function Reconcile(s: CreSys, name: string): (CreSys, bool) {
    var got := GetCre(s, name);
    match got.res
    case Err(e) => (got.sys, e != NotFound)
    case Ok(cre) =>
      if cre.deleting then (got.sys, false)
      else
        var cre0 := cre.(status := cre.status.(phase := PhaseOf(cre.status.conditions)));
        var (s1, cre1) := ReconcilePipelineRun(got.sys, name, cre0);
        var r := WriteStatus(s1, name, Concluded(cre1));
        (r.sys, r.res.Err?)
  }

  datatype Job = Job(name: string, script: seq<CrePlan>)

  /** The next pass begins with nothing learnt. */
  function Begin(w: CreWorld, script: seq<CrePlan>): CreSys {
    CreSys(w, script, None)
  }

  /** Any number of passes over any resources, one at a time. */
  function Passes(w: CreWorld, jobs: seq<Job>): CreWorld
    decreases |jobs|
  {
    if jobs == [] then w else Passes(Reconcile(Begin(w, jobs[0].script), jobs[0].name).0.world, jobs[1..])
  }

  predicate Initial(w: CreWorld) {
    w.cres == map[] && w.versions == [] && w.runs == map[] && w.runLog == [] && w.landed == map[]
  }
}
