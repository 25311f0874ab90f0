/** The API server as seen by the Meteor controller: a versioned store, the environment that acts
    between any two calls, and one function per client call.

    Every call first consumes a plan: the environment events that happen before it and what becomes
    of it. A pass is therefore a function of the starting state and the script of plans, and a
    statement about all scripts is a statement about all interleavings and all faults. */
module Cluster {
  import opened Kube
  import opened MeteorApi

  datatype Key = Key(namespace: string, name: string)

  datatype Coma = Coma(uid: nat, owner: Option<Ref>)

  datatype Born = Born(key: Key, uid: nat)

  datatype RunSpec = RunSpec(
    pipeline: string, url: string, gitRef: string, owners: seq<Ref>, host: Option<string>, services: seq<ExternalService>)

  datatype ResultValue = Text(text: string) | NotText

  datatype AnyRun = AnyRun(
    uid: nat, spec: RunSpec, conditions: seq<Condition>, completed: bool, results: seq<ResultValue>)

  /** Tekton's promise: a run with a completion time has at least one condition. */
  type Run = r: AnyRun | r.completed ==> r.conditions != []
    witness AnyRun(0, RunSpec("", "", "", [], None, []), [], false, [])

  datatype RunVersion = RunVersion(name: string, run: Run)

  /** The store. `key` names the one Meteor; `versions`, `comaLog` and `runLog` hold everything that
      was ever committed, which is what a stale read may return. `now` is in nanoseconds. */
  datatype World = World(
    key: Key,
    meteor: Option<Meteor>,
    versions: seq<Meteor>,
    comas: map<Key, Coma>,
    comaLog: seq<Born>,
    runs: map<string, Run>,
    runLog: seq<RunVersion>,
    showers: seq<Shower>,
    nextUid: nat,
    nextRv: nat,
    now: int)

  // ---------------------------------------------------------------- committed changes

  /** Commit a new version of the Meteor under a fresh resource version. */
  function Put(w: World, m: Meteor): World {
    var v := m.(rv := w.nextRv);
    w.(meteor := Some(v), versions := w.versions + [v], nextRv := w.nextRv + 1)
  }

  /** Remove the object; that too uses up a resource version. */
  function Drop(w: World): World {
    w.(meteor := None, nextRv := w.nextRv + 1)
  }

  /** Commit a version, or remove the object when deletion is pending and no finalizer is left. */
  function PutOrDrop(w: World, m: Meteor): World {
    if m.deleting && m.finalizers == [] then Drop(w) else Put(w, m)
  }

  function MarkDeleted(w: World): World
    requires w.meteor.Some?
  {
    var m := w.meteor.value;
    if m.deleting then w else PutOrDrop(w, m.(deleting := true, generation := m.generation + 1))
  }

  function StoredStatus(w: World): MeteorStatus {
    if w.meteor.Some? then w.meteor.value.status else EMPTY_STATUS
  }

  function AddComa(w: World, k: Key): World {
    w.(comas := w.comas[k := Coma(w.nextUid, None)], comaLog := w.comaLog + [Born(k, w.nextUid)], nextUid := w.nextUid + 1)
  }

  function SetRun(w: World, name: string, run: Run): World {
    w.(runs := w.runs[name := run], runLog := w.runLog + [RunVersion(name, run)])
  }

  function AddRun(w: World, name: string, spec: RunSpec): World {
    SetRun(w, name, AnyRun(w.nextUid, spec, [], false, [])).(nextUid := w.nextUid + 1)
  }

  // ---------------------------------------------------------------- environment

  datatype Event =
    | UserCreates(spec: MeteorSpec, selector: Option<string>, finalizers: seq<string>)
    | UserDeletes
    | UserEditsSpec(spec: MeteorSpec)
    | UserEditsLabel(selector: Option<string>)
    | OthersEditFinalizers(finalizers: seq<string>)
    | UserCreatesComa(coma: Key)
    | UserDeletesComa(coma: Key)
    | OthersCreateRun(run: string, runSpec: RunSpec)
    | RunDeleted(run: string)
    | TektonReports(run: string, conditions: seq<Condition>, completed: bool, results: seq<ResultValue>)
    | ShowersChange(showers: seq<Shower>)
    | TimePasses(nanos: nat)

  /** Tekton's promise: completion and the reason given for it are permanent. */
  predicate TektonMayReport(run: Run, conditions: seq<Condition>, completed: bool) {
    && (completed ==> conditions != [])
    && (run.completed ==> completed && conditions == run.conditions)
  }

  /** What an event does to the store; an event the API server would refuse does nothing.
      Others may edit finalizers, but never the operator's own, and may not add any during deletion. */
  function Happen(w: World, e: Event): World
  {
    match e
    case UserCreates(spec, selector, finalizers) =>
      if w.meteor.Some? then w
      else Put(w, Meteor(w.nextUid, 0, 1, w.now / SECOND, finalizers, false, selector, spec, EMPTY_STATUS))
           .(nextUid := w.nextUid + 1)
    case UserDeletes =>
      if w.meteor.None? then w else MarkDeleted(w)
    case UserEditsSpec(spec) =>
      if w.meteor.None? then w
      else Put(w, w.meteor.value.(spec := spec, generation := w.meteor.value.generation + 1))
    case UserEditsLabel(selector) =>
      if w.meteor.None? then w else Put(w, w.meteor.value.(selector := selector))
    case OthersEditFinalizers(fs) =>
      if w.meteor.None? then w
      else
        var m := w.meteor.value;
        if (FINALIZER in fs <==> FINALIZER in m.finalizers) && (m.deleting ==> forall f | f in fs :: f in m.finalizers)
        then PutOrDrop(w, m.(finalizers := fs))
        else w
    case UserCreatesComa(k) =>
      if k in w.comas then w else AddComa(w, k)
    case UserDeletesComa(k) =>
      w.(comas := w.comas - {k})
    case OthersCreateRun(name, spec) =>
      if name in w.runs then w else AddRun(w, name, spec)
    case RunDeleted(name) =>
      w.(runs := w.runs - {name})
    case TektonReports(name, conditions, completed, results) =>
      if name in w.runs && TektonMayReport(w.runs[name], conditions, completed) then
        SetRun(w, name, w.runs[name].(conditions := conditions, completed := completed, results := results))
      else w
    case ShowersChange(showers) => w.(showers := showers)
    case TimePasses(nanos) => w.(now := w.now + nanos)
  }

  // ---------------------------------------------------------------- plans and history

  /** `processed` says whether a Coma just created comes back with its API version. */
  datatype Plan = Plan(env: seq<Event>, mode: Mode, processed: bool)

  /** One run read of a pass: the run that was found and the place of that version in the log, or
      nothing when the run was missing or the call failed. */
  datatype RunRead = RunRead(name: string, found: Option<Run>, version: nat)

  /** What a pass has read so far: the Meteor it works from, and its run reads in order. */
  datatype Seen = Seen(meteor: Meteor, runs: seq<RunRead>)

  /** Every change of the store is logged with its cause; an operator call carries the in-memory
      Meteor it was made with, and a status write also what its pass had read. */
  datatype Cause =
    | Env(event: Event)
    | OpUpdate(view: Meteor)
    | OpWriteStatus(view: Meteor, seen: Seen)
    | OpDelete(view: Meteor)
    | OpCreateComa(coma: Key, view: Meteor)
    | OpDeleteComa(coma: Key)
    | OpOwnComa(coma: Key, owner: Ref)
    | OpCreateRun(run: string, runSpec: RunSpec, view: Meteor)

  /** The change a cause makes to the store. */
  function Apply(cause: Cause, w: World): World
  {
    match cause
    case Env(e) => Happen(w, e)
    case OpUpdate(m) => PutOrDrop(w, m.(status := StoredStatus(w)))
    case OpWriteStatus(m, _) => if w.meteor.Some? then Put(w, w.meteor.value.(status := m.status)) else w
    case OpDelete(_) => if w.meteor.Some? then MarkDeleted(w) else w
    case OpCreateComa(k, _) => AddComa(w, k)
    case OpDeleteComa(k) => w.(comas := w.comas - {k})
    case OpOwnComa(k, owner) => if k in w.comas then w.(comas := w.comas[k := w.comas[k].(owner := Some(owner))]) else w
    case OpCreateRun(name, spec, _) => AddRun(w, name, spec)
  }

  datatype Entry = Entry(cause: Cause, before: World, after: World)

  /** Where the stage lists put a run that was observed. */
  datatype Place = AtWork | Won | Lost

  function PlaceOf(run: Run): Place {
    if !run.completed then AtWork else if run.conditions[0].reason == "Succeeded" then Won else Lost
  }

  /** Tekton reports a success that the phase accepts. */
  predicate SaysSuccess(run: Run) {
    && run.conditions != [] && run.conditions[0].status != CondFalse
    && (run.conditions[0].reason == "Succeeded" || run.conditions[0].reason == "Completed")
  }

  /** `up` is false once the operator crashed: its remaining calls go nowhere. `seen` belongs to the
      current pass; `landed` holds, for each UID of the Meteor, the run reads of the passes whose status
      write committed, oldest first. A pass may write twice, but its first write comes before any run
      read. Both are history only. */
  datatype Sys = Sys(
    world: World,
    up: bool,
    script: seq<Plan>,
    trace: seq<Entry>,
    seen: Seen,
    landed: map<nat, seq<RunRead>>)

  function Landed(s: Sys, uid: nat): seq<RunRead> {
    if uid in s.landed then s.landed[uid] else []
  }

  function Effect(s: Sys, cause: Cause): Sys {
    var w := Apply(cause, s.world);
    s.(world := w, trace := s.trace + [Entry(cause, s.world, w)])
  }

  function Environment(s: Sys, es: seq<Event>): Sys
    decreases |es|
  {
    if es == [] then s else Environment(Effect(s, Env(es[0])), es[1..])
  }

  datatype Arrival = Arrival(sys: Sys, mode: Mode, processed: bool)

  /** The moment a call reaches the API server. */
  function Arrive(s: Sys): Arrival {
    if !s.up then Arrival(s, Fails, false)
    else if s.script == [] then Arrival(s, Normal, true)
    else
      var p := s.script[0];
      var s1 := Environment(s.(script := s.script[1..]), p.env);
      if p.mode == Crash then Arrival(s1.(up := false), Fails, false) else Arrival(s1, p.mode, p.processed)
  }

  datatype Reply<T> = Reply(sys: Sys, res: Result<T>)

  /** A write: refused when not possible, otherwise committed and answered, unless the plan interferes. */
  function Attempt<T>(a: Arrival, possible: bool, refusal: ApiError, cause: Cause, value: T): Reply<T> {
    if a.mode.Fails? then Reply(a.sys, Err(Fault))
    else if !possible then Reply(a.sys, Err(refusal))
    else Reply(Effect(a.sys, cause), if a.mode.AnswerLost? then Err(Fault) else Ok(value))
  }

  // ---------------------------------------------------------------- client calls

  function GetMeteor(s: Sys): Reply<Meteor> {
    var a := Arrive(s);
    var w := a.sys.world;
    if a.mode.Fails? || a.mode.AnswerLost? then Reply(a.sys, Err(Fault))
    else if a.mode.Stale? && a.mode.i < |w.versions| then Obtained(a.sys, w.versions[a.mode.i])
    else if a.mode.Missing? || w.meteor.None? then Reply(a.sys, Err(NotFound))
    else Obtained(a.sys, w.meteor.value)
  }

  function Obtained(s: Sys, m: Meteor): Reply<Meteor> {
    Reply(s.(seen := s.seen.(meteor := m)), Ok(m))
  }

  /** Whether an optimistic write of `m` meets the stored version it was read from. */
  predicate Matches(w: World, m: Meteor) {
    w.meteor.Some? && w.meteor.value.rv == m.rv
  }

  /** Update: metadata and specification of `m`; the status subresource is not touched. The answer
      refreshes the in-memory resource version and leaves the in-memory status alone. */
  function UpdateMeteor(s: Sys, m: Meteor): Reply<Meteor> {
    var a := Arrive(s);
    var w := a.sys.world;
    Attempt(a, Matches(w, m), Conflict, OpUpdate(m), m.(rv := w.nextRv))
  }

  /** Status().Update: the status of `m`; everything else stays as stored. */
  function WriteStatus(s: Sys, m: Meteor): Reply<Meteor> {
    var a := Arrive(s);
    var w := a.sys.world;
    var r := Attempt(a, Matches(w, m), Conflict, OpWriteStatus(m, s.seen), m.(rv := w.nextRv));
    if !a.mode.Fails? && Matches(w, m) then Reply(Land(r.sys, w.meteor.value.uid), r.res) else r
  }

  /** The run reads of the pass land. */
  function Land(s: Sys, uid: nat): Sys {
    s.(landed := s.landed[uid := Landed(s, uid) + s.seen.runs])
  }

  /** Delete carries no precondition: it deletes whatever Meteor is stored. */
  function DeleteMeteor(s: Sys, m: Meteor): Reply<()> {
    var a := Arrive(s);
    var w := a.sys.world;
    Attempt(a, w.meteor.Some?, NotFound, OpDelete(m), ())
  }

  datatype FoundComa = FoundComa(uid: nat, processed: bool)

  function GetComa(s: Sys, k: Key): Reply<FoundComa> {
    var a := Arrive(s);
    var w := a.sys.world;
    if a.mode.Fails? || a.mode.AnswerLost? then Reply(a.sys, Err(Fault))
    else if a.mode.Stale? && a.mode.i < |w.comaLog| && w.comaLog[a.mode.i].key == k then
      Reply(a.sys, Ok(FoundComa(w.comaLog[a.mode.i].uid, true)))
    else if a.mode.Missing? || k !in w.comas then Reply(a.sys, Err(NotFound))
    else Reply(a.sys, Ok(FoundComa(w.comas[k].uid, true)))
  }

  function CreateComa(s: Sys, k: Key, view: Meteor): Reply<FoundComa> {
    var a := Arrive(s);
    var w := a.sys.world;
    Attempt(a, k !in w.comas, AlreadyExists, OpCreateComa(k, view), FoundComa(w.nextUid, a.processed))
  }

  function DeleteComa(s: Sys, k: Key): Reply<()> {
    var a := Arrive(s);
    var w := a.sys.world;
    Attempt(a, k in w.comas, NotFound, OpDeleteComa(k), ())
  }

  /** Status().Update of the Coma that was found or created. */
  function WriteComaOwner(s: Sys, k: Key, uid: nat, owner: Ref): Reply<()> {
    var a := Arrive(s);
    var w := a.sys.world;
    Attempt(a, k in w.comas && w.comas[k].uid == uid, Conflict, OpOwnComa(k, owner), ())
  }

  /** The place of the last version of a run. */
  function LastVersion(log: seq<RunVersion>, name: string): (i: nat)
    ensures (exists j :: 0 <= j < |log| && log[j].name == name) ==> i < |log| && log[i].name == name
    ensures forall j :: i < j < |log| ==> log[j].name != name
  {
    if log == [] then 0
    else if log[|log| - 1].name == name then |log| - 1
    else
      var i := LastVersion(log[..|log| - 1], name);
      assert forall j :: 0 <= j < |log| - 1 ==> log[..|log| - 1][j] == log[j];
      i
  }

  function GetRun(s: Sys, name: string): Reply<Run> {
    var a := Arrive(s);
    var w := a.sys.world;
    if a.mode.Fails? || a.mode.AnswerLost? then Reply(Noted(a.sys, RunRead(name, None, 0)), Err(Fault))
    else if a.mode.Stale? && a.mode.i < |w.runLog| && w.runLog[a.mode.i].name == name then
      Found(a.sys, name, w.runLog[a.mode.i].run, a.mode.i)
    else if a.mode.Missing? || name !in w.runs then Reply(Noted(a.sys, RunRead(name, None, 0)), Err(NotFound))
    else Found(a.sys, name, w.runs[name], LastVersion(w.runLog, name))
  }

  function Noted(s: Sys, r: RunRead): Sys {
    s.(seen := s.seen.(runs := s.seen.runs + [r]))
  }

  function Found(s: Sys, name: string, run: Run, version: nat): Reply<Run> {
    Reply(Noted(s, RunRead(name, Some(run), version)), Ok(run))
  }

  function CreateRun(s: Sys, name: string, spec: RunSpec, view: Meteor): Reply<()> {
    var a := Arrive(s);
    var w := a.sys.world;
    Attempt(a, name !in w.runs, AlreadyExists, OpCreateRun(name, spec, view), ())
  }

  function ListShowers(s: Sys): Reply<seq<Shower>> {
    var a := Arrive(s);
    if a.mode.Fails? || a.mode.AnswerLost? then Reply(a.sys, Err(Fault)) else Reply(a.sys, Ok(a.sys.world.showers))
  }
}
