/** The API server as seen by the CustomRuntimeEnvironment controller: all resources of one namespace,
    their Tekton runs, and the environment that acts between any two calls. Calls consume plans as in
    module Cluster. */
module CreCluster {
  import opened Kube
  import opened CreApi
  import opened CreNames

  datatype Cre = Cre(
    uid: nat,
    rv: nat,
    generation: nat,
    deleting: bool,
    annotations: Option<map<string, string>>,
    spec: CreSpec,
    status: CreStatus)

  /** A Tekton run: the controlling resource, its two labels, parameters and reported status. */
  datatype AnyCreRun = AnyCreRun(
    owner: string,
    spouseGeneration: string,
    pipeline: string,
    params: seq<Param>,
    conditions: seq<Condition>,
    completed: bool)

  /** Tekton's promise: a run with a completion time has at least one condition. */
  type CreRun = r: AnyCreRun | r.completed ==> r.conditions != []
    witness AnyCreRun("", "", "", [], [], false)

  datatype RunOutcome = Unfinished | Won | Lost

  /** What the first condition of a run says. */
  function OutcomeOf(run: CreRun): RunOutcome {
    if run.conditions == [] || run.conditions[0].kind != "Succeeded" then Unfinished
    else match run.conditions[0].status
      case CondTrue => Won
      case CondFalse => Lost
      case CondUnknown => Unfinished
  }

  /** What a pass learnt about its run. */
  datatype Observed = CreateTried(ok: bool) | FetchFailed | Seen(outcome: RunOutcome, pipeline: string)

  datatype CreVersion = CreVersion(name: string, cre: Cre)

  datatype CreRunVersion = CreRunVersion(name: string, run: CreRun)

  /** The store. `versions` and `runLog` hold everything ever committed. `landed` is history: for each
      UID, what was observed by the passes whose status write committed, oldest first. */
  datatype CreWorld = CreWorld(
    cres: map<string, Cre>,
    versions: seq<CreVersion>,
    runs: map<string, CreRun>,
    runLog: seq<CreRunVersion>,
    landed: map<nat, seq<Observed>>,
    nextUid: nat,
    nextRv: nat)

  function Landed(w: CreWorld, uid: nat): seq<Observed> {
    if uid in w.landed then w.landed[uid] else []
  }

  function PutCre(w: CreWorld, name: string, cre: Cre): CreWorld {
    var v := cre.(rv := w.nextRv);
    w.(cres := w.cres[name := v], versions := w.versions + [CreVersion(name, v)], nextRv := w.nextRv + 1)
  }

  function PutRun(w: CreWorld, name: string, run: CreRun): CreWorld {
    w.(runs := w.runs[name := run], runLog := w.runLog + [CreRunVersion(name, run)])
  }

  // ---------------------------------------------------------------- environment

  datatype CreEvent =
    | UserCreates(name: string, annotations: Option<map<string, string>>, spec: CreSpec)
    | UserEditsSpec(name: string, spec: CreSpec)
    | UserEditsAnnotations(name: string, annotations: Option<map<string, string>>)
    | UserDeletes(name: string)
    | Removed(name: string)
    | OthersCreateRun(run: string, made: CreRun)
    | RunDeleted(run: string)
    | TektonReports(run: string, conditions: seq<Condition>, completed: bool)

  function Happen(w: CreWorld, e: CreEvent): CreWorld {
    match e
    case UserCreates(name, annotations, spec) =>
      if name in w.cres then w
      else PutCre(w, name, Cre(w.nextUid, 0, 1, false, annotations, spec, EMPTY_CRE_STATUS)).(nextUid := w.nextUid + 1)
    case UserEditsSpec(name, spec) =>
      if name !in w.cres then w
      else PutCre(w, name, w.cres[name].(spec := spec, generation := w.cres[name].generation + 1))
    case UserEditsAnnotations(name, annotations) =>
      if name !in w.cres then w else PutCre(w, name, w.cres[name].(annotations := annotations))
    case UserDeletes(name) =>
      if name !in w.cres then w else PutCre(w, name, w.cres[name].(deleting := true, generation := w.cres[name].generation + 1))
    case Removed(name) =>
      w.(cres := w.cres - {name})
    case OthersCreateRun(name, run) =>
      if name in w.runs then w else PutRun(w, name, run)
    case RunDeleted(name) =>
      w.(runs := w.runs - {name})
    case TektonReports(name, conditions, completed) =>
      if name in w.runs && (completed ==> conditions != []) then
        PutRun(w, name, w.runs[name].(conditions := conditions, completed := completed))
      else w
  }

  // ---------------------------------------------------------------- calls

  datatype CrePlan = CrePlan(env: seq<CreEvent>, mode: Mode)

  /** `seen` is what the current pass has learnt so far. The controller keeps nothing between passes,
      so a crash is a script whose remaining calls fail. */
  datatype CreSys = CreSys(world: CreWorld, script: seq<CrePlan>, seen: Option<Observed>)

  function Environment(w: CreWorld, es: seq<CreEvent>): CreWorld
    decreases |es|
  {
    if es == [] then w else Environment(Happen(w, es[0]), es[1..])
  }

  /** The moment a call reaches the API server. */
  function Arrive(s: CreSys): (CreSys, Mode) {
    if s.script == [] then (s, Normal)
    else
      (s.(world := Environment(s.world, s.script[0].env), script := s.script[1..]),
       if s.script[0].mode.Crash? then Fails else s.script[0].mode)
  }

  datatype CreReply<T> = CreReply(sys: CreSys, res: Result<T>)

  function GetCre(s: CreSys, name: string): CreReply<Cre> {
    var (s1, mode) := Arrive(s);
    var w := s1.world;
    if mode.Fails? || mode.AnswerLost? then CreReply(s1, Err(Fault))
    else if mode.Stale? && mode.i < |w.versions| && w.versions[mode.i].name == name then
      CreReply(s1, Ok(w.versions[mode.i].cre))
    else if mode.Missing? || name !in w.cres then CreReply(s1, Err(NotFound))
    else CreReply(s1, Ok(w.cres[name]))
  }

  function GetRun(s: CreSys, name: string): CreReply<CreRun> {
    var (s1, mode) := Arrive(s);
    var w := s1.world;
    if mode.Fails? || mode.AnswerLost? then CreReply(s1.(seen := Some(FetchFailed)), Err(Fault))
    else if mode.Stale? && mode.i < |w.runLog| && w.runLog[mode.i].name == name then Found(s1, w.runLog[mode.i].run)
    else if mode.Missing? || name !in w.runs then CreReply(s1, Err(NotFound))
    else Found(s1, w.runs[name])
  }

  function Found(s: CreSys, run: CreRun): CreReply<CreRun> {
    CreReply(s.(seen := Some(Seen(OutcomeOf(run), run.pipeline))), Ok(run))
  }

  function CreateRun(s: CreSys, name: string, run: CreRun): CreReply<()> {
    var (s1, mode) := Arrive(s);
    var w := s1.world;
    if mode.Fails? then CreReply(s1.(seen := Some(CreateTried(false))), Err(Fault))
    else if name in w.runs then CreReply(s1.(seen := Some(CreateTried(false))), Err(AlreadyExists))
    else
      CreReply(s1.(world := PutRun(w, name, run), seen := Some(CreateTried(!mode.AnswerLost?))),
               if mode.AnswerLost? then Err(Fault) else Ok(()))
  }

  predicate Matches(w: CreWorld, name: string, cre: Cre) {
    name in w.cres && w.cres[name].rv == cre.rv
  }

  /** Commit the status of `cre`, and with it what the pass has learnt. */
  function CommitStatus(w: CreWorld, name: string, cre: Cre, seen: Option<Observed>): CreWorld
    requires name in w.cres
  {
    var uid := w.cres[name].uid;
    var w1 := PutCre(w, name, w.cres[name].(status := cre.status));
    if seen.Some? then w1.(landed := w.landed[uid := Landed(w, uid) + [seen.value]]) else w1
  }

  function WriteStatus(s: CreSys, name: string, cre: Cre): CreReply<()> {
    var (s1, mode) := Arrive(s);
    if mode.Fails? then CreReply(s1, Err(Fault))
    else if !Matches(s1.world, name, cre) then CreReply(s1, Err(Conflict))
    else
      CreReply(s1.(world := CommitStatus(s1.world, name, cre, s1.seen)), if mode.AnswerLost? then Err(Fault) else Ok(()))
  }
}
