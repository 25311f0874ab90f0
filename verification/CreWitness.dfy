/** Runs that show where the phase of a CustomRuntimeEnvironment misreports a build: each starts from an
    initial cluster, only admitted resources are made, no call fails, and no read is stale. */
module CreWitness {
  import opened Kube
  import opened CreApi
  import opened CreNames
  import opened CreCluster
  import opened CrePass
  import opened CreHistory
  import opened CreSafety

  // ---------------------------------------------------------------- a pass that nothing interferes with

  /** What a quiet pass learns about the run it asks for. */
  function Finding(w: CreWorld, run: string): Observed {
    if run in w.runs then Seen(OutcomeOf(w.runs[run]), w.runs[run].pipeline) else CreateTried(true)
  }

  /** The pass when its script is over: every call succeeds, and every read is current. */
  lemma QuietPass(w: CreWorld, name: string)
    requires name in w.cres && !w.cres[name].deleting
    ensures var w1 := Reconcile(CreSys(w, [], None), name).0.world; var cre := w.cres[name]; var run := RunNameOf(name, cre);
      && !Reconcile(CreSys(w, [], None), name).1
      && w1.runs == (if run in w.runs then w.runs else w.runs[run := RunOf(name, cre)])
      && w1.cres.Keys == w.cres.Keys
      && w1.cres[name] == cre.(status := w1.cres[name].status, rv := w.nextRv)
      && Landed(w1, cre.uid) == Landed(w, cre.uid) + [Finding(w, run)]
  {
    hide PhaseOf, AfterFound, AfterCreate, WithResult, OutcomeOf, Params, PrintRun, Decimal, PipelineOf;
  }

  /** A quiet pass whose first read comes after one change from outside. */
  function Quiet(e: CreEvent): Job {
    Job("demo", [CrePlan([e], Normal)])
  }

  function Turn(w: CreWorld, e: CreEvent): CreWorld {
    Reconcile(CreSys(Happen(w, e), [], None), "demo").0.world
  }

  lemma FirstRead(w: CreWorld, e: CreEvent)
    ensures GetCre(Begin(w, Quiet(e).script), "demo") == GetCre(CreSys(Happen(w, e), [], None), "demo")
  {
    hide Happen;
    var script := Quiet(e).script;
    assert script[1..] == [];
    assert Environment(w, [e]) == Environment(Happen(w, e), [e][1..]);
  }

  lemma {:induction false} JobsTakeTurns(w: CreWorld, e: CreEvent, more: seq<Job>)
    ensures Passes(w, [Quiet(e)] + more) == Passes(Turn(w, e), more)
  {
    hide GetCre, ReconcilePipelineRun, WriteStatus;
    var jobs := [Quiet(e)] + more;
    assert jobs[1..] == more;
    FirstRead(w, e);
  }

  /** The resource lives, as it was made or last edited, with what landed for it so far. */
  ghost predicate Lives(w: CreWorld, spec: CreSpec, generation: nat, h: seq<Observed>) {
    && "demo" in w.cres && Landed(w, 1) == h
    && var cre := w.cres["demo"];
      cre.uid == 1 && !cre.deleting && cre.generation == generation && cre.spec == spec
  }

  function RunKey(spec: CreSpec, generation: nat): string {
    PrintRun(RunId("demo", generation, spec.buildType))
  }

  lemma TurnTaken(w: CreWorld, e: CreEvent, spec: CreSpec, generation: nat, h: seq<Observed>)
    requires Lives(Happen(w, e), spec, generation, h)
    ensures var w0 := Happen(w, e); var w1 := Turn(w, e); var key := RunKey(spec, generation);
      && Lives(w1, spec, generation, h + [Finding(w0, key)]) && key in w1.runs
      && (key in w0.runs ==> w1.runs == w0.runs)
      && (key !in w0.runs ==>
            w1.runs == w0.runs[key := w1.runs[key]] && w1.runs[key].pipeline == PipelineOf(spec.buildType))
  {
    hide Happen, Reconcile, Finding, Landed, PrintRun, Decimal, PipelineOf, Params;
    QuietPass(Happen(w, e), "demo");
  }

  // ---------------------------------------------------------------- the runs

  const EMPTY := CreWorld(map[], [], map[], [], map[], 1, 1)

  const ANNOTATIONS := Some(map[NAME_KEY := "name", CREATOR_KEY := "creator", DESCRIPTION_KEY := "text"])
  const GIT := CreSpec(RuntimeSpec("", "", ""), [], GitRepository, "", "", "https://example.org/repo", "main")
  const IMPORT := GIT.(buildType := ImageImport, fromImage := "image")
  const PACKAGES := GIT.(buildType := PackageList, packages := ["numpy"], baseImage := "image")

  function Made(spec: CreSpec): CreEvent {
    UserCreates("demo", ANNOTATIONS, spec)
  }

  /** Tekton reports how the run of a generation ended. */
  function Reported(spec: CreSpec, generation: nat, status: CondStatus): CreEvent {
    TektonReports(RunKey(spec, generation), [Condition("Succeeded", status, "Completed")], true)
  }

  lemma Admitted()
    ensures Admissible(ANNOTATIONS, GIT) && Admissible(ANNOTATIONS, IMPORT) && Admissible(ANNOTATIONS, PACKAGES)
  {
  }

  /** After the first pass the run exists and has said nothing yet. */
  lemma Started(spec: CreSpec)
    ensures var w := Turn(EMPTY, Made(spec)); var key := RunKey(spec, 1);
      Lives(w, spec, 1, [CreateTried(true)]) && w.runs.Keys == {key} && w.runs[key].pipeline == PipelineOf(spec.buildType)
  {
    hide Turn, PrintRun, PipelineOf;
    TurnTaken(EMPTY, Made(spec), spec, 1, []);
  }

  lemma Finished(w: CreWorld, spec: CreSpec, generation: nat, h: seq<Observed>, status: CondStatus)
    requires Lives(w, spec, generation, h) && status != CondUnknown
    requires var key := RunKey(spec, generation); key in w.runs && w.runs[key].pipeline == PipelineOf(spec.buildType)
    ensures var w1 := Turn(w, Reported(spec, generation, status)); var key := RunKey(spec, generation);
      var outcome := if status == CondTrue then Won else Lost;
      && Lives(w1, spec, generation, h + [Seen(outcome, PipelineOf(spec.buildType))])
      && w1.runs.Keys == w.runs.Keys && OutcomeOf(w1.runs[key]) == outcome
  {
    hide Turn, PrintRun, PipelineOf;
    TurnTaken(w, Reported(spec, generation, status), spec, generation, h);
  }

  /** A new generation with a build type of its own gets a run of its own. */
  lemma Edited(w: CreWorld, spec: CreSpec, spec': CreSpec, h: seq<Observed>)
    requires Lives(w, spec, 1, h) && w.runs.Keys == {RunKey(spec, 1)}
    ensures var w1 := Turn(w, UserEditsSpec("demo", spec')); var key := RunKey(spec', 2);
      && Lives(w1, spec', 2, h + [CreateTried(true)])
      && key in w1.runs && w1.runs[key].pipeline == PipelineOf(spec'.buildType)
  {
    hide Turn, PrintRun, PipelineOf;
    if RunKey(spec', 2) == RunKey(spec, 1) {
      RunNamesAreDistinct(RunId("demo", 2, spec'.buildType), RunId("demo", 1, spec.buildType));
    }
    TurnTaken(w, UserEditsSpec("demo", spec'), spec', 2, h);
  }

  /** What is stored at the end of such a run. */
  lemma {:induction false} StoredPhase(w: CreWorld, jobs: seq<Job>, spec: CreSpec, generation: nat, h: seq<Observed>)
    requires Initial(w) && h != [] && Lives(Passes(w, jobs), spec, generation, h)
    ensures Passes(w, jobs).cres["demo"].status.phase == PhaseOf(Fold(h))
  {
    hide Passes, Fold, PhaseOf, Sound;
    InitialSound(w);
    PassesSound(w, jobs);
    StoredNow(Passes(w, jobs), "demo");
  }

  lemma {:induction false} NoneLeft(w: CreWorld)
    ensures Passes(w, []) == w
  {
  }

  lemma {:induction false} TwoTurns(w: CreWorld, e0: CreEvent, e1: CreEvent, more: seq<Job>)
    ensures Passes(w, [Quiet(e0), Quiet(e1)] + more) == Passes(Turn(Turn(w, e0), e1), more)
  {
    hide Passes, Turn, Quiet;
    JobsTakeTurns(w, e0, [Quiet(e1)] + more);
    JobsTakeTurns(Turn(w, e0), e1, more);
    assert [Quiet(e0), Quiet(e1)] + more == [Quiet(e0)] + ([Quiet(e1)] + more);
  }

  const GIT_JOBS := [Quiet(Made(GIT)), Quiet(Reported(GIT, 1, CondTrue))]

  /** An admitted git repository whose one run succeeds is stored as Failed, although the pass that wrote
      it saw the success. */
  lemma GitSuccessStoredAsFailed()
    ensures Initial(EMPTY) && Admissible(ANNOTATIONS, GIT)
    ensures var w := Passes(EMPTY, GIT_JOBS); var key := RunKey(GIT, 1);
      && "demo" in w.cres && w.cres["demo"].spec == GIT && w.cres["demo"].generation == 1
      && w.runs.Keys == {key} && OutcomeOf(w.runs[key]) == Won
      && Landed(w, w.cres["demo"].uid) == [CreateTried(true), Seen(Won, "gitrepo")]
      && w.cres["demo"].status.phase == Failed
  {
    hide Passes, Turn, RunKey, Fold, PhaseOf, Machine, Happen, Quiet, Reported;
    Admitted();
    hide Admissible;
    var w1, last := Turn(EMPTY, Made(GIT)), Reported(GIT, 1, CondTrue);
    Started(GIT);
    Finished(w1, GIT, 1, [CreateTried(true)], CondTrue);
    assert GIT_JOBS == GIT_JOBS + [];
    TwoTurns(EMPTY, Made(GIT), last, []);
    NoneLeft(Turn(w1, last));
    StoredPhase(EMPTY, GIT_JOBS, GIT, 1, [CreateTried(true), Seen(Won, "gitrepo")]);
    GitSuccessShowsFailed();
  }

  const MIXED_JOBS :=
    [Quiet(Made(IMPORT)), Quiet(Reported(IMPORT, 1, CondTrue)),
     Quiet(UserEditsSpec("demo", PACKAGES)), Quiet(Reported(PACKAGES, 2, CondFalse))]

  const MIXED_HISTORY := [CreateTried(true), Seen(Won, "import"), CreateTried(true), Seen(Lost, "package-list")]

  /** The world between the second job and the third. */
  function Imported(): CreWorld {
    Turn(Turn(EMPTY, Made(IMPORT)), Reported(IMPORT, 1, CondTrue))
  }

  function Mixed(): CreWorld {
    Turn(Turn(Imported(), UserEditsSpec("demo", PACKAGES)), Reported(PACKAGES, 2, CondFalse))
  }

  lemma ImportWorks()
    ensures Lives(Imported(), IMPORT, 1, MIXED_HISTORY[..2]) && Imported().runs.Keys == {RunKey(IMPORT, 1)}
  {
    hide Turn, Reported, RunKey;
    var w := Turn(EMPTY, Made(IMPORT));
    Started(IMPORT);
    Finished(w, IMPORT, 1, [CreateTried(true)], CondTrue);
    assert MIXED_HISTORY[..2] == [CreateTried(true)] + [Seen(Won, "import")];
  }

  lemma PackagesFail()
    ensures Lives(Mixed(), PACKAGES, 2, MIXED_HISTORY)
    ensures var key := RunKey(PACKAGES, 2); key in Mixed().runs && OutcomeOf(Mixed().runs[key]) == Lost
  {
    hide Turn, Imported, Reported, RunKey;
    ImportWorks();
    var h := MIXED_HISTORY[..2];
    Edited(Imported(), IMPORT, PACKAGES, h);
    Finished(Turn(Imported(), UserEditsSpec("demo", PACKAGES)), PACKAGES, 2, h + [CreateTried(true)], CondFalse);
    assert MIXED_HISTORY == h + [CreateTried(true)] + [Seen(Lost, "package-list")];
  }

  lemma MixedJobs()
    ensures Passes(EMPTY, MIXED_JOBS) == Mixed()
  {
    hide Passes, Turn, Quiet;
    var e0, e1 := Made(IMPORT), Reported(IMPORT, 1, CondTrue);
    var e2, e3 := UserEditsSpec("demo", PACKAGES), Reported(PACKAGES, 2, CondFalse);
    TwoTurns(EMPTY, e0, e1, [Quiet(e2), Quiet(e3)]);
    assert MIXED_JOBS == [Quiet(e0), Quiet(e1)] + [Quiet(e2), Quiet(e3)];
    TwoTurns(Imported(), e2, e3, []);
    assert [Quiet(e2), Quiet(e3)] == [Quiet(e2), Quiet(e3)] + [];
    NoneLeft(Mixed());
  }

  /** An import that works is edited into a package list whose run fails: the stored phase is Succeeded,
      although the pass that wrote it saw the failure. */
  lemma FailedBuildStoredAsSucceeded()
    ensures Initial(EMPTY) && Admissible(ANNOTATIONS, IMPORT) && Admissible(ANNOTATIONS, PACKAGES)
    ensures var w := Passes(EMPTY, MIXED_JOBS); var key := RunKey(PACKAGES, 2);
      && "demo" in w.cres && w.cres["demo"].spec == PACKAGES && w.cres["demo"].generation == 2
      && key in w.runs && OutcomeOf(w.runs[key]) == Lost
      && Landed(w, w.cres["demo"].uid) == MIXED_HISTORY
      && w.cres["demo"].status.phase == Succeeded
  {
    hide Passes, Mixed, RunKey, Fold, PhaseOf, Machine;
    Admitted();
    hide Admissible;
    PackagesFail();
    MixedJobs();
    StoredPhase(EMPTY, MIXED_JOBS, PACKAGES, 2, MIXED_HISTORY);
    FailureHidesBehindOtherBuildType();
  }
}
