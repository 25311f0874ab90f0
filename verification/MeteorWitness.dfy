/** Runs that show where the evident intentions of the Meteor controller fail: each starts from an initial
    cluster, and each failure it ends in is one that an exact condition elsewhere allows for. */
module MeteorWitness {
  import opened Kube
  import opened MeteorApi
  import opened Cluster
  import opened MeteorPass
  import opened MeteorReads
  import L = MeteorLiveness
  import O = MeteorOwners
  import P = MeteorProgress
  import T = MeteorTrace

  const KEY := Key("default", "demo")
  const SHOWER := Shower("shower", [ExternalService("hub", "hub", "")], "")
  const SPEC := MeteorSpec("https://example.org/repo", "main", 0, ["build"])
  const COMA := Key("hub", "demo")

  /** A call that nothing interferes with. */
  const CALM := Plan([], Normal, true)

  function Start(): Op {
    Op(Sys(World(KEY, None, [], map[], [], map[], [], [SHOWER], 1, 1, 0), true, [], [], NOTHING, map[]), EMPTY_METEOR, None, map[])
  }

  // ---------------------------------------------------------------- a deletion that hits an unexpired Meteor

  const SHORT := SPEC.(ttl := 1)
  const LONG := SPEC.(ttl := 1000)

  /** The Meteor is made with one second to live; ten seconds pass; the user gives it a thousand; and the
      pass reads the version from before. */
  const LATE := [Plan([UserCreates(SHORT, None, []), TimePasses(10 * SECOND), UserEditsSpec(LONG)], Stale(0), true)]

  const FRESH := Meteor(1, 1, 1, 0, [], false, None, SHORT, EMPTY_STATUS)
  const EXTENDED := Meteor(1, 2, 2, 0, [], false, None, LONG, EMPTY_STATUS)

  lemma LateEvents(w: World)
    requires w == Start().sys.world
    ensures var w1 := Happen(w, LATE[0].env[0]); var w2 := Happen(w1, LATE[0].env[1]); var w3 := Happen(w2, LATE[0].env[2]);
      && w1 == w.(meteor := Some(FRESH), versions := [FRESH], nextUid := 2, nextRv := 2)
      && w2 == w1.(now := 10 * SECOND)
      && w3 == w2.(meteor := Some(EXTENDED), versions := [FRESH, EXTENDED], nextRv := 3)
  {
  }

  lemma LateRead(s: Sys)
    requires s == Resume(Start(), LATE).sys
    ensures var got := GetMeteor(s); var w := got.sys.world;
      && got.res == Ok(FRESH) && got.sys == s.(script := [], world := w, trace := got.sys.trace, seen := Seen(FRESH, []))
      && |got.sys.trace| == 3
      && w == Start().sys.world.(
           meteor := Some(EXTENDED), versions := [FRESH, EXTENDED], nextUid := 2, nextRv := 3, now := 10 * SECOND)
  {
    hide Happen, Start;
    LateEvents(s.world);
    assert LATE[1..] == [];
    var es := LATE[0].env;
    var s0 := s.(script := []);
    var s1 := Effect(s0, Env(es[0]));
    var s2 := Effect(s1, Env(es[1]));
    assert es[1..] == [es[1], es[2]] && es[1..][1..] == [es[2]] && es[1..][1..][1..] == [];
    assert Environment(s0, es) == Environment(s1, es[1..]) == Environment(s2, es[1..][1..])
        == Environment(Effect(s2, Env(es[2])), []);
    StartsEmpty();
  }

  lemma StartsEmpty()
    ensures Start().sys.trace == [] && Start().sys.up && Start().sys.landed == map[] && Start().shower == None
    ensures Start().sys.world.showers == [SHOWER] && Start().sys.world.meteor == None
  {
  }

  /** The deletion itself: the stale view has expired, and the Meteor it hits has no finalizer. */
  lemma LateDeletion(s: Sys)
    requires Idle(s) && s.world.meteor == Some(EXTENDED) && s.world.now == 10 * SECOND && s.world.showers == [SHOWER]
    ensures var l := Local(s, Refresh(FRESH));
      Locate(l, None) == (l, Some(SHOWER)) && Proceed(l, Some(SHOWER)).0.sys == Effect(s, OpDelete(Refresh(FRESH)))
    ensures Apply(OpDelete(Refresh(FRESH)), s.world).meteor == None
    ensures !IsTTLReached(EXTENDED, s.world.now)
  {
    hide AggregatePhase, EnsureFinalizers, Work, UpdateStatusNow;
  }

  /** The operator removes a Meteor that is alive and has not run out. */
  lemma DeletionHitsUnexpired()
    ensures var t := Passes(Start(), [LATE]).sys.trace;
      && Initial(Start()) && |t| == 4 && t[3].cause.OpDelete?
      && t[3].before.meteor.Some? && !t[3].before.meteor.value.deleting
      && !IsTTLReached(t[3].before.meteor.value, t[3].before.now)
      && t[3].after.meteor == None
  {
    hide AggregatePhase, Proceed, Locate, GetMeteor, Apply, Refresh;
    var op0 := Resume(Start(), LATE);
    LateRead(op0.sys);
    var got := GetMeteor(op0.sys);
    LateDeletion(got.sys);
    assert Reconcile(op0).0.sys == Effect(got.sys, OpDelete(Refresh(FRESH)));
    assert [LATE][1..] == [];
    assert Passes(Start(), [LATE]) == Passes(Reconcile(op0).0, []) == Reconcile(op0).0;
  }

  // ---------------------------------------------------------------- a build under way

  function RunKey(): string { RunName(KEY.name, "build") }

  const OWNED := Ref("hub", "demo", 2, false)

  /** The Meteor is made before the first read; nothing else interferes. */
  const FIRST := [Plan([UserCreates(SPEC, None, [])], Normal, true)]

  /** The Meteor lives, with its Coma recorded. */
  ghost predicate Site(w: World) {
    && w.key == KEY && w.showers == [SHOWER] && w.now == 0 && COMA in w.comas && w.comas[COMA].uid == 2
    && w.meteor.Some?
    && var m := w.meteor.value;
      && m.uid == 1 && !m.deleting && m.finalizers == [FINALIZER] && m.spec == SPEC && m.status.comas == [OWNED]
      && |m.status.pipelines| == 1 && m.status.pipelines[0].name == "build"
  }

  /** The run is created; Tekton has said nothing yet. */
  ghost predicate UnderWay(op: Op) {
    var w := op.sys.world;
    && op.sys.up && Site(w)
    && w.runs.Keys == {RunKey()} && w.runLog == [RunVersion(RunKey(), w.runs[RunKey()])]
    && w.runs[RunKey()].conditions == [] && !w.runs[RunKey()].completed
    && w.meteor.value.status.conditions == [Condition(CondKind("build"), CondTrue, "BuildStated")]
    && w.meteor.value.status.stage == EMPTY_STATUS.stage
    && Landed(op.sys, 1) == [RunRead(RunKey(), None, 0)]
  }

  /** The Meteor as it was just made, and with the finalizer committed. */
  const MADE := Meteor(1, 1, 1, 0, [], false, None, SPEC, EMPTY_STATUS)

  function Held(): Meteor { MADE.(finalizers := [FINALIZER], rv := 2, status := Refresh(MADE).status) }

  /** The operator's own steps: they log no event, and only versions with the one specification. */
  ghost predicate Steps(s: Sys, s': Sys) {
    && s.trace <= s'.trace && (forall i :: |s.trace| <= i < |s'.trace| ==> !s'.trace[i].cause.Env?)
    && ((forall v :: v in s.world.versions ==> v.spec == SPEC) ==> (forall v :: v in s'.world.versions ==> v.spec == SPEC))
  }

  lemma StepsTransitive(a: Sys, b: Sys, c: Sys)
    requires Steps(a, b) && Steps(b, c)
    ensures Steps(a, c)
  {
    forall i | |a.trace| <= i < |c.trace| ensures !c.trace[i].cause.Env? {
      if i < |b.trace| { assert c.trace[i] == b.trace[i]; }
    }
  }

  lemma FirstRead(s: Sys)
    requires s == Resume(Start(), FIRST).sys
    ensures var got := GetMeteor(s); var w := got.sys.world;
      && got.res == Ok(MADE)
      && got.sys == s.(script := [], world := w, trace := got.sys.trace, seen := Seen(MADE, []))
      && w == Start().sys.world.(meteor := Some(MADE), versions := [MADE], nextUid := 2, nextRv := 2)
      && got.sys.trace == [Entry(Env(UserCreates(SPEC, None, [])), Start().sys.world, w)]
  {
    var s0 := s.(script := []);
    var es := FIRST[0].env;
    assert FIRST[1..] == [] && es[1..] == [];
    assert Environment(s0, es) == Environment(Effect(s0, Env(es[0])), []) == Effect(s0, Env(es[0]));
  }

  /** A quiet system with nothing left to plan. */
  predicate Idle(s: Sys) { s.up && s.script == [] }

  lemma FirstHold(s: Sys)
    requires Idle(s) && s.world.meteor == Some(MADE) && s.world.showers == [SHOWER] && s.world.nextRv == 2
    ensures var (l, shower) := Locate(Local(s, Refresh(MADE)), None); l == Local(s, Refresh(MADE)) && shower == Some(SHOWER)
    ensures var (l1, ok) := EnsureFinalizers(Local(s, Refresh(MADE)));
      && ok && l1.meteor == Held() && Steps(s, l1.sys)
      && l1.sys == s.(world := l1.sys.world, trace := l1.sys.trace)
      && l1.sys.world == s.world.(
           meteor := Some(Held().(status := EMPTY_STATUS)), versions := l1.sys.world.versions, nextRv := 3)
  {
  }

  lemma {:induction false} FirstComa(l: Local)
    requires Idle(l.sys) && l.sys.world.key == KEY && l.sys.world.comas == map[] && l.sys.world.nextUid == 2
    requires l.meteor == Held()
    ensures var (l1, ok) := ReconcileComas(l, SHOWER.services); var w := l.sys.world; var w1 := l1.sys.world;
      && ok && Steps(l.sys, l1.sys) && l1.meteor == l.meteor.(status := l.meteor.status.(comas := [OWNED]))
      && l1.sys == l.sys.(world := w1, trace := l1.sys.trace)
      && w1 == w.(comas := w1.comas, comaLog := w1.comaLog, nextUid := 3)
      && COMA in w1.comas && w1.comas[COMA].uid == 2
  {
    FreshIsEmpty();
    hide Refresh;
    assert SHOWER.services[1..] == [];
    assert COMA == Key("hub", KEY.name);
    FirstRecord(l);
  }

  lemma FirstRecord(l: Local)
    requires Idle(l.sys) && l.sys.world.key == KEY && l.sys.world.comas == map[] && l.sys.world.nextUid == 2
    requires l.meteor.status.comas == []
    ensures var (l1, step) := ReconcileComa(l, "hub"); var w := l.sys.world; var w1 := l1.sys.world;
      && step == Next && Steps(l.sys, l1.sys) && l1.meteor == l.meteor.(status := l.meteor.status.(comas := [OWNED]))
      && l1.sys == l.sys.(world := w1, trace := l1.sys.trace)
      && w1 == w.(comas := w1.comas, comaLog := w1.comaLog, nextUid := 3)
      && COMA in w1.comas && w1.comas[COMA].uid == 2
  {
    assert COMA == Key("hub", l.sys.world.key.name);
    var made := CreateComa(l.sys, COMA, l.meteor);
    assert made.res == Ok(FoundComa(2, true));
    assert AddRef([], OWNED) == [OWNED];
    StepsTransitive(l.sys, made.sys, ReconcileComa(l, "hub").0.sys);
  }

  lemma {:induction false} FirstRun(l: Local)
    requires Idle(l.sys) && l.sys.world.key == KEY && l.sys.world.runs == map[] && l.sys.world.runLog == []
    requires l.sys.seen.runs == [] && l.meteor.spec == SPEC
    requires l.meteor.status.comas == [OWNED] && l.meteor.status.conditions == [] && l.meteor.status.pipelines == []
    ensures var (l1, ok) := ReconcilePipelines(l, SHOWER, SPEC.pipelines); var w1 := l1.sys.world; var st := l1.meteor.status;
      && ok && Steps(l.sys, l1.sys)
      && l1.sys == l.sys.(
           world := w1, trace := l1.sys.trace, seen := l.sys.seen.(runs := [RunRead(RunKey(), None, 0)]))
      && w1 == l.sys.world.(runs := w1.runs, runLog := w1.runLog, nextUid := w1.nextUid)
      && w1.runs.Keys == {RunKey()} && w1.runLog == [RunVersion(RunKey(), w1.runs[RunKey()])]
      && w1.runs[RunKey()].conditions == [] && !w1.runs[RunKey()].completed
      && l1.meteor == l.meteor.(status := st)
      && st == l.meteor.status.(conditions := st.conditions, pipelines := st.pipelines)
      && st.conditions == [Condition(CondKind("build"), CondTrue, "BuildStated")]
      && |st.pipelines| == 1 && st.pipelines[0].name == "build"
  {
    hide CondKind, RunName, RunSpecOf;
    assert SPEC.pipelines[1..] == [];
    var (l1, ok) := ReconcilePipelineRun(l, SHOWER, "build");
    assert ReconcilePipelines(l1, SHOWER, []) == (l1, true);
  }

  lemma FirstPass()
    ensures UnderWay(Passes(Start(), [FIRST])) && Passes(Start(), [FIRST]) == Reconcile(Resume(Start(), FIRST)).0
    ensures Orderly(Passes(Start(), [FIRST]).sys) && P.EndsWithWrite(Passes(Start(), [FIRST]).sys)
  {
    hide Refresh, ReconcileComas, ReconcilePipelines, EnsureFinalizers, Locate, GetMeteor, UpdateStatusNow;
    hide CondKind, RunName, Steps;
    var op0 := Resume(Start(), FIRST);
    FirstRead(op0.sys);
    var got := GetMeteor(op0.sys);
    FirstHold(got.sys);
    var (l1, _) := EnsureFinalizers(Local(got.sys, Refresh(MADE)));
    FirstComa(l1);
    var (l2, _) := ReconcileComas(l1, SHOWER.services);
    FreshIsEmpty();
    FirstRun(l2);
    var (l3, _) := ReconcilePipelines(l2, SHOWER, SPEC.pipelines);
    assert Work(l1, SHOWER) == UpdateStatusNow(l3, false);
    assert !IsTTLReached(Refresh(MADE), got.sys.world.now);
    assert Proceed(Local(got.sys, Refresh(MADE)), Some(SHOWER)) == Work(l1, SHOWER);
    FirstWrite(l3);
    var l4 := UpdateStatusNow(l3, false).0;
    StepsTransitive(got.sys, l1.sys, l2.sys);
    StepsTransitive(got.sys, l2.sys, l3.sys);
    StepsTransitive(got.sys, l3.sys, l4.sys);
    StepsOrderly(got.sys, l4.sys);
    assert [FIRST][1..] == [];
    assert Passes(Start(), [FIRST]) == Passes(Reconcile(op0).0, []) == Reconcile(op0).0;
  }

  /** Nothing so far breaks an assumption under which Succeeded is never early. */
  ghost predicate Orderly(s: Sys) {
    P.TameTrace(s.trace) && forall v :: v in s.world.versions ==> v.spec == SPEC
  }

  lemma StepsOrderly(s: Sys, s': Sys)
    requires Orderly(s) && Steps(s, s')
    ensures Orderly(s')
  {
    forall i | 0 <= i < |s'.trace| ensures P.Tame(s'.trace[i]) {
      if i < |s.trace| { assert s'.trace[i] == s.trace[i]; }
    }
  }

  lemma FreshIsEmpty()
    ensures Refresh(MADE).status == EMPTY_STATUS.(phase := Building, observedGeneration := 1)
    ensures Refresh(MADE) == MADE.(status := Refresh(MADE).status)
  {
  }

  lemma FirstWrite(l: Local)
    requires Idle(l.sys) && l.sys.world.meteor == Some(Held().(status := EMPTY_STATUS))
    requires l.meteor == Held().(status := l.meteor.status)
    requires l.sys.landed == map[]
    ensures var l1 := UpdateStatusNow(l, false).0;
      && Idle(l1.sys) && Landed(l1.sys, 1) == l.sys.seen.runs && Steps(l.sys, l1.sys) && P.EndsWithWrite(l1.sys)
      && l1.sys.world == l.sys.world.(
           meteor := l1.sys.world.meteor, versions := l1.sys.world.versions, nextRv := l1.sys.world.nextRv)
      && l1.sys.world.meteor.Some? && l1.sys.world.meteor.value == l.meteor.(rv := l1.sys.world.meteor.value.rv)
  {
    hide Refresh;
  }

  // ---------------------------------------------------------------- a build that has succeeded

  const DONE_WELL := [Condition("Succeeded", CondTrue, "Succeeded")]

  /** Tekton reports before a pass whose first read fails. */
  function Report(): seq<Plan> { Only([TektonReports(RunKey(), DONE_WELL, true, [])]) }

  /** A pass over a settled site in which only the run read is not calm. */
  function Check(x: Plan): seq<Plan> { [CALM, CALM, CALM, CALM, x] }

  /** Tekton has reported success; the log has the run before and after. */
  ghost predicate Finished(w: World) {
    && Site(w) && w.runs.Keys == {RunKey()} && |w.runLog| == 2
    && w.runLog[0].name == RunKey() && w.runLog[0].run.conditions == [] && !w.runLog[0].run.completed
    && w.runLog[1] == RunVersion(RunKey(), w.runs[RunKey()])
    && w.runs[RunKey()].conditions == DONE_WELL && w.runs[RunKey()].completed && w.runs[RunKey()].results == []
  }

  lemma ReportPass(op: Op)
    requires UnderWay(op)
    ensures var op1 := Reconcile(Resume(op, Report())).0; var w := op.sys.world;
      && op1.sys.up && Finished(op1.sys.world) && op1.sys.world.meteor == w.meteor && op1.sys.landed == op.sys.landed
      && (Orderly(op.sys) ==> Orderly(op1.sys)) && P.Lands(op.sys, op1.sys)
  {
    hide RunName, CondKind, Reconcile;
    var es := [TektonReports(RunKey(), DONE_WELL, true, [])];
    OnlyEvents(op, es);
    var s := op.sys.(script := [], seen := NOTHING);
    assert es[1..] == [];
    assert Environment(s, es) == Environment(Effect(s, Env(es[0])), []) == Effect(s, Env(es[0]));
  }

  /** A pass over a site leads up to its run read without touching anything but the Coma's owner. */
  lemma UpToRun(op: Op, x: Plan) returns (l: Local)
    requires op.sys.up && Site(op.sys.world)
    ensures var w := op.sys.world; var m := w.meteor.value;
      && l.sys == op.sys.(world := l.sys.world, trace := l.sys.trace, script := [x], seen := Seen(m, []))
      && l.sys.world == w.(comas := l.sys.world.comas) && Site(l.sys.world) && l.meteor == Refresh(m) && Steps(op.sys, l.sys)
      && var (l1, ok) := ReconcilePipelineRun(l, SHOWER, "build");
        Reconcile(Resume(op, Check(x))).0.sys == UpdateStatusNow(l1, !ok).0.sys
  {
    hide Refresh, AggregatePhase, GetMeteor, Locate, ReconcileComas, ReconcilePipelineRun, Steps;
    var op0 := Resume(op, Check(x));
    var m := op.sys.world.meteor.value;
    ReadAgain(op0.sys, x);
    var got := GetMeteor(op0.sys);
    RefreshKeeps(m);
    LocateAgain(got.sys, x, m, op0.shower);
    var l1 := Local(got.sys.(script := [CALM, CALM, x]), Refresh(m));
    assert EnsureFinalizers(l1) == (l1, true);
    OwnAgain(l1, x);
    l := ReconcileComas(l1, SHOWER.services).0;
    SameSteps(op.sys, l1.sys);
    StepsTransitive(op.sys, l1.sys, l.sys);
    assert SPEC.pipelines[1..] == [];
    var (l2, ok) := ReconcilePipelineRun(l, SHOWER, "build");
    assert ReconcilePipelines(l, SHOWER, SPEC.pipelines) == (l2, ok);
    assert Proceed(l1, Some(SHOWER)) == Work(l1, SHOWER);
  }

  lemma ReadAgain(s: Sys, x: Plan)
    requires s.up && s.script == Check(x) && s.seen == NOTHING && s.world.meteor.Some?
    ensures var m := s.world.meteor.value;
      GetMeteor(s) == Reply(s.(script := [CALM, CALM, CALM, x], seen := Seen(m, [])), Ok(m))
  {
    CalmArrives(s, [CALM, CALM, CALM, x]);
  }

  lemma LocateAgain(s: Sys, x: Plan, m: Meteor, previous: Option<Shower>)
    requires s.up && s.script == [CALM, CALM, CALM, x] && s.world.showers == [SHOWER]
    ensures Locate(Local(s, Refresh(m)), previous) == (Local(s.(script := [CALM, CALM, x]), Refresh(m)), Some(SHOWER))
  {
    hide Refresh;
    CalmArrives(s, [CALM, CALM, x]);
  }

  lemma RefreshKeeps(m: Meteor)
    ensures Refresh(m) == m.(status := Refresh(m).status) && Refresh(m).status.comas == m.status.comas
  {
  }

  lemma CalmArrives(s: Sys, rest: seq<Plan>)
    requires s.up && s.script == [CALM] + rest
    ensures Arrive(s) == Arrival(s.(script := rest), Normal, true)
  {
    assert s.script[1..] == rest;
  }

  lemma {:induction false} OwnAgain(l: Local, x: Plan)
    requires l.sys.up && l.sys.script == [CALM, CALM, x] && Site(l.sys.world) && l.meteor.status.comas == [OWNED]
    ensures var (l1, ok) := ReconcileComas(l, SHOWER.services); var w1 := l1.sys.world;
      && ok && Steps(l.sys, l1.sys)
      && l1.meteor == l.meteor && l1.sys == l.sys.(world := w1, trace := l1.sys.trace, script := [x])
      && w1 == l.sys.world.(comas := w1.comas) && Site(w1)
  {
    hide Steps, GetComa, RecordComa;
    FindAgain(l.sys, x);
    var got := GetComa(l.sys, COMA);
    assert COMA == Key("hub", l.sys.world.key.name);
    RecordAgain(Local(got.sys, l.meteor), x);
    assert SHOWER.services[1..] == [];
    SameSteps(l.sys, got.sys);
    var l1 := RecordComa(Local(got.sys, l.meteor), COMA, FoundComa(2, true)).0;
    StepsTransitive(l.sys, got.sys, l1.sys);
    assert ReconcileComa(l, "hub") == (l1, Next);
    assert ReconcileComas(l1, []) == (l1, true);
  }

  lemma SameSteps(s: Sys, s': Sys)
    requires s'.world == s.world && s'.trace == s.trace
    ensures Steps(s, s')
  {
  }

  lemma FindAgain(s: Sys, x: Plan)
    requires s.up && s.script == [CALM, CALM, x] && Site(s.world)
    ensures GetComa(s, COMA) == Reply(s.(script := [CALM, x]), Ok(FoundComa(2, true)))
  {
    CalmArrives(s, [CALM, x]);
  }

  lemma RecordAgain(l: Local, x: Plan)
    requires l.sys.up && l.sys.script == [CALM, x] && Site(l.sys.world) && l.meteor.status.comas == [OWNED]
    ensures var (l1, step) := RecordComa(l, COMA, FoundComa(2, true)); var w1 := l1.sys.world;
      && step == Next && Steps(l.sys, l1.sys)
      && l1.meteor == l.meteor && l1.sys == l.sys.(world := w1, trace := l1.sys.trace, script := [x])
      && w1 == l.sys.world.(comas := w1.comas) && Site(w1)
  {
    CalmArrives(l.sys, [x]);
    assert OWNED in l.meteor.status.comas;
    assert AddRef(l.meteor.status.comas, OWNED) == l.meteor.status.comas;
    assert l.meteor.(status := l.meteor.status.(comas := l.meteor.status.comas)) == l.meteor;
  }

  /** The run read and the write that end a pass over a finished run: the read found `run`. */
  lemma FoundEnd(l: Local, x: Plan, run: Run, version: nat)
    requires l.sys.up && l.sys.script == [x] && x.env == [] && Finished(l.sys.world) && l.meteor.spec == SPEC
    requires l.sys.seen.runs == [] && 1 in l.sys.landed
    requires l.meteor == l.sys.world.meteor.value.(status := l.meteor.status)
    requires |l.meteor.status.pipelines| == 1 && l.meteor.status.pipelines[0].name == "build"
    requires GetRun(l.sys, RunKey()) == Found(l.sys.(script := []), RunKey(), run, version)
    ensures var (l1, ok) := ReconcilePipelineRun(l, SHOWER, "build"); var l2 := UpdateStatusNow(l1, !ok).0;
      var st := Observe(l.meteor.status, KEY.name, "build", run);
      && ok && l2.sys.up && Steps(l.sys, l2.sys) && P.EndsWithWrite(l2.sys)
      && l2.sys.world == l.sys.world.(
           meteor := l2.sys.world.meteor, versions := l2.sys.world.versions, nextRv := l2.sys.world.nextRv)
      && l2.sys.world.meteor.Some?
      && l2.sys.world.meteor.value == l.meteor.(rv := l2.sys.world.meteor.value.rv, status := st)
      && 1 in l2.sys.landed && Landed(l2.sys, 1) == Landed(l.sys, 1) + [RunRead(RunKey(), Some(run), version)]
  {
    hide RunName, CondKind, Observe;
    assert WithResult(l.meteor.status, KEY.name, "build") == l.meteor.status;
    assert l.meteor.(status := l.meteor.status) == l.meteor;
  }

  /** The same when the read failed. */
  lemma FailedEnd(l: Local)
    requires l.sys.up && l.sys.script == [Plan([], Fails, true)] && Finished(l.sys.world) && l.meteor.spec == SPEC
    requires l.sys.seen.runs == [] && 1 in l.sys.landed
    requires l.meteor == l.sys.world.meteor.value.(status := l.meteor.status)
    requires |l.meteor.status.pipelines| == 1 && l.meteor.status.pipelines[0].name == "build"
    ensures var (l1, ok) := ReconcilePipelineRun(l, SHOWER, "build"); var l2 := UpdateStatusNow(l1, !ok).0;
      && !ok && l2.sys.up && Steps(l.sys, l2.sys) && P.EndsWithWrite(l2.sys)
      && l2.sys.world.meteor.Some?
      && l2.sys.world.meteor.value.status == SetRunCondition(l.meteor.status, "build", CondFalse, "Error")
  {
    hide RunName, CondKind, SetRunCondition;
    assert WithResult(l.meteor.status, KEY.name, "build") == l.meteor.status;
    assert l.meteor.(status := l.meteor.status) == l.meteor;
  }

  /** What observing the finished run makes of the status, and the run before it finished. */
  lemma ObservedWell(st: MeteorStatus, run: Run)
    requires |st.pipelines| == 1 && st.pipelines[0].name == "build"
    requires |st.conditions| == 1 && st.conditions[0].kind == CondKind("build")
    requires st.stage == EMPTY_STATUS.stage && run.conditions == DONE_WELL && run.completed && run.results == []
    ensures var st1 := Observe(st, KEY.name, "build", run);
      && st1 == st.(conditions := st1.conditions, stage := st1.stage, pipelines := st1.pipelines)
      && st1.conditions == [Condition(CondKind("build"), CondTrue, "Succeeded")]
      && st1.stage == Stage([], [RunKey()], [])
      && |st1.pipelines| == 1 && st1.pipelines[0].name == "build"
  {
    hide RunName, CondKind;
  }

  lemma ObservedAgain(st: MeteorStatus, run: Run)
    requires |st.pipelines| == 1 && st.pipelines[0].name == "build"
    requires st.stage == Stage([], [RunKey()], []) && run.conditions == [] && !run.completed
    ensures Observe(st, KEY.name, "build", run).stage == Stage([RunKey()], [RunKey()], [])
  {
    hide RunName, CondKind;
  }

  /** The success has been seen and has landed. */
  ghost predicate Settled(op: Op) {
    var w := op.sys.world;
    && op.sys.up && Finished(w) && 1 in op.sys.landed
    && w.meteor.value.status.conditions == [Condition(CondKind("build"), CondTrue, "Succeeded")]
    && w.meteor.value.status.stage == Stage([], [RunKey()], [])
    && Landed(op.sys, 1) == [RunRead(RunKey(), None, 0), RunRead(RunKey(), Some(w.runs[RunKey()]), 1)]
  }

  lemma CurrentRead(s: Sys)
    requires s.up && s.script == [CALM] && Finished(s.world)
    ensures GetRun(s, RunKey()) == Found(s.(script := []), RunKey(), s.world.runs[RunKey()], 1)
  {
    hide RunName;
    CalmArrives(s, []);
  }

  lemma StaleRead(s: Sys)
    requires s.up && s.script == [Plan([], Stale(0), true)] && Finished(s.world)
    ensures GetRun(s, RunKey()) == Found(s.(script := []), RunKey(), s.world.runLog[0].run, 0)
  {
    hide RunName;
    assert s.script[1..] == [];
  }

  lemma SettlingPass(op: Op)
    requires op.sys.up && Finished(op.sys.world) && 1 in op.sys.landed && Landed(op.sys, 1) == [RunRead(RunKey(), None, 0)]
    requires var st := op.sys.world.meteor.value.status;
      st.conditions == [Condition(CondKind("build"), CondTrue, "BuildStated")] && st.stage == EMPTY_STATUS.stage
    ensures var op1 := Reconcile(Resume(op, Check(CALM))).0;
      Settled(op1) && (Orderly(op.sys) ==> Orderly(op1.sys)) && P.Lands(op.sys, op1.sys)
  {
    hide RunName, CondKind, Observe, ReconcilePipelineRun, UpdateStatusNow, Orderly, Steps, GetRun, Reconcile;
    var l := UpToRun(op, CALM);
    var m := op.sys.world.meteor.value;
    RefreshKeeps(m);
    RefreshKeepsRest(m);
    var run := l.sys.world.runs[RunKey()];
    CurrentRead(l.sys);
    FoundEnd(l, CALM, run, 1);
    ObservedWell(l.meteor.status, run);
    var (l1, ok) := ReconcilePipelineRun(l, SHOWER, "build");
    StepsTransitive(op.sys, l.sys, UpdateStatusNow(l1, !ok).0.sys);
    if Orderly(op.sys) { StepsOrderly(op.sys, UpdateStatusNow(l1, !ok).0.sys); }
  }

  lemma RefreshKeepsRest(m: Meteor)
    ensures var st := Refresh(m).status;
      st.conditions == m.status.conditions && st.stage == m.status.stage && st.pipelines == m.status.pipelines
    ensures Refresh(m).status.phase == AggregatePhase(m.status)
  {
  }

  /** The scripts up to the settled success. */
  function Prelude(): seq<seq<Plan>> { [FIRST, Report(), Check(CALM)] }

  lemma {:induction false} PassesOneMore(op: Op, scripts: seq<seq<Plan>>, last: seq<Plan>)
    ensures Passes(op, scripts + [last]) == Reconcile(Resume(Passes(op, scripts), last)).0
    decreases |scripts|
  {
    hide Reconcile, Resume;
    if scripts == [] {
      assert ([] + [last])[1..] == [];
    } else {
      assert (scripts + [last])[1..] == scripts[1..] + [last];
      PassesOneMore(Reconcile(Resume(op, scripts[0])).0, scripts[1..], last);
    }
  }

  lemma {:induction false} LandOneMore(op: Op, scripts: seq<seq<Plan>>, last: seq<Plan>)
    requires P.AllLand(op, scripts)
    requires P.Lands(Passes(op, scripts).sys, Reconcile(Resume(Passes(op, scripts), last)).0.sys)
    ensures P.AllLand(op, scripts + [last])
    decreases |scripts|
  {
    hide Reconcile, Resume, P.Lands;
    if scripts == [] {
      assert ([] + [last])[1..] == [];
    } else {
      assert (scripts + [last])[1..] == scripts[1..] + [last];
      LandOneMore(Reconcile(Resume(op, scripts[0])).0, scripts[1..], last);
    }
  }

  lemma PreludeSettles()
    ensures var op := Passes(Start(), Prelude()); Settled(op) && Orderly(op.sys) && P.AllLand(Start(), Prelude())
  {
    hide Reconcile, Resume, Passes, RunName, CondKind, Orderly, P.Lands, P.AllLand, Landed;
    FirstPass();
    var op1 := Passes(Start(), [FIRST]);
    NothingLands();
    LandOneMore(Start(), [], FIRST);
    assert [] + [FIRST] == [FIRST];
    ReportPass(op1);
    LandedHere(op1.sys, Reconcile(Resume(op1, Report())).0.sys);
    PassesOneMore(Start(), [FIRST], Report());
    LandOneMore(Start(), [FIRST], Report());
    var two := [FIRST] + [Report()];
    var op2 := Passes(Start(), two);
    SettlingPass(op2);
    PassesOneMore(Start(), two, Check(CALM));
    LandOneMore(Start(), two, Check(CALM));
    assert two + [Check(CALM)] == Prelude();
  }

  lemma NothingLands()
    ensures P.AllLand(Start(), []) && Passes(Start(), []) == Start()
    ensures forall op: Op :: P.EndsWithWrite(op.sys) ==> P.Lands(Start().sys, op.sys)
  {
  }

  lemma LandedHere(s: Sys, s': Sys)
    requires Landed(s, 1) == [RunRead(RunKey(), None, 0)] && s'.landed == s.landed
    ensures 1 in s'.landed && Landed(s', 1) == Landed(s, 1)
  {
  }

  // ---------------------------------------------------------------- a run listed twice

  /** After the success has landed, one stale read of the run. */
  function Lagging(): seq<seq<Plan>> { Prelude() + [Check(Plan([], Stale(0), true))] }

  /** One stale read lists a run both as running and as succeeded, in the stored status. */
  lemma StaleReadListsTwice()
    ensures var s := Passes(Start(), Lagging()).sys;
      && Initial(Start()) && s.world.meteor.Some?
      && RunKey() in s.world.meteor.value.status.stage.running && RunKey() in s.world.meteor.value.status.stage.succeeded
      && !Disjoint(s.world.meteor.value.status.stage)
  {
    hide Reconcile, Passes, RunName, CondKind, Observe, ReconcilePipelineRun, UpdateStatusNow, GetRun, Steps;
    PreludeSettles();
    var op := Passes(Start(), Prelude());
    var x := Plan([], Stale(0), true);
    PassesOneMore(Start(), Prelude(), Check(x));
    var l := UpToRun(op, x);
    RefreshKeeps(op.sys.world.meteor.value);
    RefreshKeepsRest(op.sys.world.meteor.value);
    StaleRead(l.sys);
    FoundEnd(l, x, l.sys.world.runLog[0].run, 0);
    ObservedAgain(l.meteor.status, l.sys.world.runLog[0].run);
  }

  // ---------------------------------------------------------------- Succeeded beside a failure

  /** After the success has landed, one failed read of the run. */
  function Faulty(): seq<seq<Plan>> { Prelude() + [Check(Plan([], Fails, true))] }

  /** Under all assumptions, one failed read stores the phase Succeeded beside a False condition for the
      only pipeline: the phase is that of the conditions read, not of those written. */
  lemma SucceededBesideFailure()
    ensures var m := Passes(Start(), Faulty()).sys.world.meteor;
      && P.Assumed(Start(), Faulty())
      && m.Some? && m.value.status.phase == Succeeded
      && m.value.status.conditions == [Condition(CondKind("build"), CondFalse, "Error")]
      && AggregatePhase(m.value.status) == Failed
  {
    hide Reconcile, Passes, RunName, CondKind, ReconcilePipelineRun, UpdateStatusNow, GetRun, Steps, P.AllLand, P.TameTrace;
    PreludeSettles();
    var op := Passes(Start(), Prelude());
    var x := Plan([], Fails, true);
    PassesOneMore(Start(), Prelude(), Check(x));
    var l := UpToRun(op, x);
    var m := op.sys.world.meteor.value;
    RefreshKeeps(m);
    RefreshKeepsRest(m);
    FailedEnd(l);
    AcceptedScan(m.status);
    var (l1, ok) := ReconcilePipelineRun(l, SHOWER, "build");
    var s := UpdateStatusNow(l1, !ok).0.sys;
    StepsTransitive(op.sys, l.sys, s);
    StepsOrderly(op.sys, s);
    LandOneMore(Start(), Prelude(), Check(x));
    LowerBuild(s);
  }

  lemma AcceptedScan(st: MeteorStatus)
    requires st.conditions == [Condition(CondKind("build"), CondTrue, "Succeeded")]
    ensures AggregatePhase(st) == Succeeded
  {
    assert PIPELINE_RUN <= CondKind("build");
    SucceededIffAllAccepted(st);
  }

  lemma LowerBuild(s: Sys)
    requires forall v :: v in s.world.versions ==> v.spec == SPEC
    ensures P.AllLower(s.world)
  {
    assert LowerName("build");
  }

  // ---------------------------------------------------------------- a Meteor made anew over an old run

  const BARE := Shower("shower", [], "")
  const PAIR := SPEC.(pipelines := ["build", "book"])

  function WellCondition(): Condition { Condition(CondKind("build"), CondTrue, "Succeeded") }

  /** Events before a pass whose first read fails: nothing else happens. */
  function Only(es: seq<Event>): seq<Plan> { [Plan(es, Fails, true)] }

  /** After the success, the Meteor is deleted and torn down; the Shower loses its service; and a Meteor of
      the same name, with a second pipeline, is made while the old run is still there. */
  function Anew(): seq<seq<Plan>> {
    Prelude() + [Only([UserDeletes])] + [[]] + [Only([ShowersChange([BARE]), UserCreates(PAIR, None, [])])] + [[]] + [[]]
  }

  lemma {:induction false} OnlyEvents(op: Op, es: seq<Event>)
    requires op.sys.up
    ensures var s := op.sys.(script := [], seen := NOTHING); var op1 := Reconcile(Resume(op, Only(es))).0;
      op1.sys == Environment(s, es) && op1.sys.up
  {
    var s := op.sys.(script := [], seen := NOTHING);
    assert Only(es)[1..] == [];
    T.EnvironmentWithout(s, es, T.StatusWrites);
  }

  /** The run of the first pipeline is there and has succeeded; nothing is known of the second. */
  ghost predicate OldRun(w: World) {
    && w.key == KEY && w.now == 0 && RunKey() in w.runs && RunName(KEY.name, "book") !in w.runs
    && w.runs[RunKey()].conditions == DONE_WELL && w.runs[RunKey()].completed && w.runs[RunKey()].results == []
    && forall v :: v in w.runLog ==> v.name == RunKey()
  }

  lemma SettledIsOld(op: Op)
    requires Settled(op)
    ensures OldRun(op.sys.world)
  {
    hide CondKind;
    if RunName(KEY.name, "book") == RunKey() { RunNameInjective(KEY.name, "book", "build"); }
  }

  lemma UserDeletesPass(op: Op)
    requires op.sys.up && Site(op.sys.world) && OldRun(op.sys.world)
    ensures var op1 := Reconcile(Resume(op, Only([UserDeletes]))).0; var w1 := op1.sys.world;
      && op1.sys.up && OldRun(w1) && COMA in w1.comas && w1.meteor.Some?
      && w1.meteor.value.deleting && w1.meteor.value.finalizers == [FINALIZER] && w1.meteor.value.status.comas == [OWNED]
  {
    hide RunName, CondKind;
    OnlyEvents(op, [UserDeletes]);
    var s := op.sys.(script := [], seen := NOTHING);
    assert [UserDeletes][1..] == [];
    assert Environment(s, [UserDeletes]) == Environment(Effect(s, Env(UserDeletes)), []) == Effect(s, Env(UserDeletes));
  }

  lemma TeardownPass(op: Op)
    requires op.sys.up && OldRun(op.sys.world) && COMA in op.sys.world.comas && op.sys.world.meteor.Some?
    requires var m := op.sys.world.meteor.value; m.deleting && m.finalizers == [FINALIZER] && m.status.comas == [OWNED]
    ensures var op1 := Reconcile(Resume(op, [])).0; op1.sys.up && OldRun(op1.sys.world) && op1.sys.world.meteor == None
  {
    hide RunName, Reconcile;
    var op0 := Resume(op, []);
    assert L.KeyOf(OWNED) == COMA;
    L.DeletionPassCompletesIff(op0);
    assert L.Removable(op.sys.world, [OWNED]);
    assert RemoveFinalizer([FINALIZER]) == [];
  }

  /** The Meteor of two pipelines lives, with no Coma to record. */
  ghost predicate Leftover(w: World) {
    && OldRun(w) && w.showers == [BARE] && w.meteor.Some?
    && var m := w.meteor.value;
      && !m.deleting && m.spec == PAIR && m.status.comas == []
      && (m.status.conditions == [] || m.status.conditions == [WellCondition()])
  }

  lemma RecreatePass(op: Op)
    requires op.sys.up && OldRun(op.sys.world) && op.sys.world.meteor == None
    ensures var op1 := Reconcile(Resume(op, Only([ShowersChange([BARE]), UserCreates(PAIR, None, [])]))).0;
      op1.sys.up && Leftover(op1.sys.world) && op1.sys.world.meteor.Some?
  {
    hide RunName, CondKind;
    var es := [ShowersChange([BARE]), UserCreates(PAIR, None, [])];
    OnlyEvents(op, es);
    var s := op.sys.(script := [], seen := NOTHING);
    var s1 := Effect(s, Env(es[0]));
    assert es[1..] == [es[1]] && es[1..][1..] == [];
    assert Environment(s, es) == Environment(s1, es[1..]) == Environment(Effect(s1, Env(es[1])), []);
  }

  lemma BareHold(s: Sys, m: Meteor, previous: Option<Shower>)
    requires Idle(s) && Leftover(s.world) && s.world.meteor == Some(m)
    ensures var (l, shower) := Locate(Local(s, Refresh(m)), previous);
      l == Local(s, Refresh(m)) && shower == Some(BARE)
    ensures var (l1, ok) := EnsureFinalizers(Local(s, Refresh(m)));
      && ok && Idle(l1.sys) && Matches(l1.sys.world, l1.meteor) && l1.sys.world.meteor.value == l1.meteor.(status := m.status)
      && l1.meteor == Refresh(m).(finalizers := l1.meteor.finalizers, rv := l1.meteor.rv)
      && l1.sys.world == s.world.(
           meteor := l1.sys.world.meteor, versions := l1.sys.world.versions, nextRv := l1.sys.world.nextRv)
  {
    hide RunName, CondKind, AggregatePhase;
    RefreshKeeps(m);
  }

  /** Both pipelines: the first finds the old run; the second finds none and, with no Coma recorded, does
      nothing. */
  lemma {:induction false} BareRuns(l: Local)
    requires Idle(l.sys) && OldRun(l.sys.world) && l.meteor.spec == PAIR && l.meteor.status.comas == []
    requires l.meteor.status.conditions == [] || l.meteor.status.conditions == [WellCondition()]
    ensures var (l1, ok) := ReconcilePipelines(l, BARE, PAIR.pipelines); var st := l1.meteor.status;
      && ok && Idle(l1.sys) && l1.sys.world == l.sys.world && l1.meteor == l.meteor.(status := st)
      && st.conditions == [WellCondition()] && st.comas == [] && st.phase == l.meteor.status.phase
  {
    hide RunName, CondKind, Observe, WithResult;
    var names := PAIR.pipelines;
    assert names[1..] == ["book"] && names[1..][1..] == [];
    BareFound(l);
    var l1 := ReconcilePipelineRun(l, BARE, "build").0;
    BareMissing(l1);
    var l2 := ReconcilePipelineRun(l1, BARE, "book").0;
    assert ReconcilePipelines(l, BARE, names) == ReconcilePipelines(l1, BARE, ["book"]) == ReconcilePipelines(l2, BARE, []);
  }

  lemma BareFound(l: Local)
    requires Idle(l.sys) && OldRun(l.sys.world)
    requires l.meteor.status.conditions == [] || l.meteor.status.conditions == [WellCondition()]
    ensures var (l1, ok) := ReconcilePipelineRun(l, BARE, "build"); var st := l1.meteor.status;
      && ok && Idle(l1.sys) && l1.sys.world == l.sys.world && l1.meteor == l.meteor.(status := st)
      && st.conditions == [WellCondition()] && st.comas == l.meteor.status.comas && st.phase == l.meteor.status.phase
  {
    hide CondKind, PlaceRun, MarkReady;
  }

  lemma BareMissing(l: Local)
    requires Idle(l.sys) && OldRun(l.sys.world) && l.meteor.status.comas == []
    ensures var (l1, ok) := ReconcilePipelineRun(l, BARE, "book"); var st := l1.meteor.status;
      && ok && Idle(l1.sys) && l1.sys.world == l.sys.world && l1.meteor == l.meteor.(status := st)
      && st == l.meteor.status.(pipelines := st.pipelines)
  {
  }

  lemma BareWrite(l: Local)
    requires Idle(l.sys) && Leftover(l.sys.world) && Matches(l.sys.world, l.meteor)
    requires l.meteor == l.sys.world.meteor.value.(status := l.meteor.status)
    requires l.meteor.status.comas == [] && l.meteor.status.conditions == [WellCondition()]
    ensures var l1 := UpdateStatusNow(l, false).0;
      && l1.sys.up && Leftover(l1.sys.world)
      && l1.sys.world.meteor.value.status == l.meteor.status
  {
    hide RunName, CondKind;
  }

  lemma BarePass(op: Op)
    requires op.sys.up && Leftover(op.sys.world)
    ensures var op1 := Reconcile(Resume(op, [])).0;
      && op1.sys.up && Leftover(op1.sys.world) && op1.sys.world.meteor.Some?
      && op1.sys.world.meteor.value.status.conditions == [WellCondition()]
      && op1.sys.world.meteor.value.status.phase == AggregatePhase(op.sys.world.meteor.value.status)
  {
    hide Refresh, AggregatePhase, Locate, EnsureFinalizers, ReconcilePipelines, UpdateStatusNow, RunName, CondKind;
    var op0 := Resume(op, []);
    var got := GetMeteor(op0.sys);
    var m := op.sys.world.meteor.value;
    assert got.res == Ok(m);
    RefreshKeeps(m);
    RefreshKeepsRest(m);
    BareHold(got.sys, m, op0.shower);
    var l0 := Local(got.sys, Refresh(m));
    var (l1, _) := EnsureFinalizers(l0);
    BareRuns(l1);
    var (l2, _) := ReconcilePipelines(l1, BARE, PAIR.pipelines);
    assert ReconcileComas(l1, []) == (l1, true);
    assert Work(l1, BARE) == UpdateStatusNow(l2, false);
    assert Proceed(l0, Some(BARE)) == Work(l1, BARE);
    BareWrite(l2);
  }

  /** Made anew over an old run, a Meteor claims Succeeded while its second pipeline has neither a
      condition nor, ever, a run: the list of all-accepted conditions covers one pipeline of two. */
  lemma SucceededOverOldRun()
    ensures var w := Passes(Start(), Anew()).sys.world;
      && Initial(Start()) && w.meteor.Some? && w.meteor.value.spec.pipelines == ["build", "book"]
      && w.meteor.value.status.phase == Succeeded
      && !HasKind(w.meteor.value.status.conditions, CondKind("book")) && !P.RunEver(w, "book")
  {
    hide Reconcile, Resume, Passes, RunName, CondKind, Orderly, P.AllLand, Site, OldRun, Leftover;
    PreludeSettles();
    var s0 := Prelude();
    var op0 := Passes(Start(), s0);
    SettledIsOld(op0);
    SettledIsSite(op0);
    UserDeletesPass(op0);
    PassesOneMore(Start(), s0, Only([UserDeletes]));
    var s1 := s0 + [Only([UserDeletes])];
    TeardownPass(Passes(Start(), s1));
    PassesOneMore(Start(), s1, []);
    var s2 := s1 + [[]];
    var es := [ShowersChange([BARE]), UserCreates(PAIR, None, [])];
    RecreatePass(Passes(Start(), s2));
    PassesOneMore(Start(), s2, Only(es));
    var s3 := s2 + [Only(es)];
    BarePass(Passes(Start(), s3));
    PassesOneMore(Start(), s3, []);
    var s4 := s3 + [[]];
    BarePass(Passes(Start(), s4));
    PassesOneMore(Start(), s4, []);
    assert s4 + [[]] == Anew();
    AcceptedScan(Passes(Start(), s4).sys.world.meteor.value.status);
    SecondUnknown(Passes(Start(), Anew()).sys.world);
  }

  lemma SettledIsSite(op: Op)
    requires Settled(op)
    ensures op.sys.up && Site(op.sys.world)
  {
  }

  lemma SecondUnknown(w: World)
    requires Leftover(w) && w.meteor.value.status.conditions == [WellCondition()]
    ensures w.meteor.value.spec.pipelines == ["build", "book"]
    ensures !HasKind(w.meteor.value.status.conditions, CondKind("book")) && !P.RunEver(w, "book")
  {
    hide RunName, CondKind;
    if CondKind("book") == CondKind("build") { CondKindInjective("book", "build"); }
    if RunName(KEY.name, "book") == RunKey() { RunNameInjective(KEY.name, "book", "build"); }
    assert [WellCondition()][1..] == [];
  }

  // ---------------------------------------------------------------- a deletion that never completes

  /** The user deletes; the Coma's deletion works but its answer is lost. */
  const LOST := [Plan([UserDeletes], Normal, true), CALM, Plan([], AnswerLost, true)]

  lemma LostArrival(op: Op)
    requires UnderWay(op)
    ensures var s := Resume(op, LOST).sys; var got := GetMeteor(s); var m := got.res.value;
      && got.res.Ok? && got.sys.up && got.sys.script == [CALM, Plan([], AnswerLost, true)]
      && got.sys.world.meteor == Some(m) && got.sys.world.showers == [SHOWER]
      && COMA in got.sys.world.comas
      && m.deleting && m.finalizers == [FINALIZER] && m.spec == SPEC && m.status.comas == [OWNED]
  {
    hide RunName, CondKind;
    var rest := [CALM, Plan([], AnswerLost, true)];
    var s := Resume(op, LOST).sys.(script := rest);
    var es := LOST[0].env;
    assert LOST[1..] == rest && es[1..] == [];
    assert Environment(s, es) == Environment(Effect(s, Env(es[0])), []) == Effect(s, Env(es[0]));
  }

  /** One lost answer during teardown leaves a deletion stuck: the Coma is gone, but every later pass
      takes its absence for a failure. */
  lemma LostAnswerSticks()
    ensures Initial(Start()) && L.Stuck(Passes(Start(), [FIRST, LOST]).sys.world)
  {
    hide RunName, CondKind, Refresh, AggregatePhase, Reconcile, Passes, GetMeteor;
    FirstPass();
    var op := Passes(Start(), [FIRST]);
    PassesOneMore(Start(), [FIRST], LOST);
    assert [FIRST] + [LOST] == [FIRST, LOST];
    LostArrival(op);
    LostTeardown(Resume(op, LOST));
  }

  lemma LostTeardown(op: Op)
    requires var got := GetMeteor(op.sys);
      && got.res.Ok? && got.sys.up && got.sys.script == [CALM, Plan([], AnswerLost, true)]
      && got.sys.world.meteor == Some(got.res.value) && got.sys.world.showers == [SHOWER]
      && var m := got.res.value;
        m.deleting && m.finalizers == [FINALIZER] && m.spec == SPEC && m.status.comas == [OWNED]
    ensures L.Stuck(Reconcile(op).0.sys.world)
  {
    hide Refresh, AggregatePhase, GetMeteor, DeleteComas;
    var got := GetMeteor(op.sys);
    var m := got.res.value;
    RefreshKeeps(m);
    var x := Plan([], AnswerLost, true);
    CalmArrives(got.sys, [x]);
    var l := Locate(Local(got.sys, Refresh(m)), op.shower).0;
    assert l == Local(got.sys.(script := [x]), Refresh(m));
    LostAnswer(l.sys);
    assert Reconcile(op).0.sys == DeleteComas(l.sys, [OWNED]).0;
    assert L.KeyOf([OWNED][0]) == COMA;
  }

  /** Whether the Coma was there or not, it is not afterwards, and the loop has failed. */
  lemma {:induction false} LostAnswer(s: Sys)
    requires s.up && s.script == [Plan([], AnswerLost, true)]
    ensures var (s1, ok) := DeleteComas(s, [OWNED]);
      !ok && COMA !in s1.world.comas && s1.world.meteor == s.world.meteor
  {
    assert s.script[1..] == [];
    assert Key(OWNED.namespace, OWNED.name) == COMA;
  }

  // ---------------------------------------------------------------- a recorded Coma without its owner

  const FAILING := Plan([], Fails, true)

  /** The Coma is made anew; the pass that records it fails to write the owner. */
  const UNOWNED := [Plan([UserDeletesComa(COMA), UserCreatesComa(COMA)], Normal, true), CALM, CALM, FAILING]

  /** The Coma is there, without an owner. */
  ghost predicate Ownerless(w: World) {
    && w.key == KEY && COMA in w.comas && w.comas[COMA].owner == None
    && w.meteor.Some? && !w.meteor.value.deleting && w.meteor.value.spec == SPEC
  }

  /** And it is on the stored list. */
  ghost predicate RecordedOwnerless(w: World) {
    Ownerless(w) && Ref("hub", "demo", w.comas[COMA].uid, false) in w.meteor.value.status.comas
  }

  lemma UnownedRead(op: Op)
    requires op.sys.up && Site(op.sys.world)
    ensures var s := Resume(op, UNOWNED).sys; var got := GetMeteor(s); var w := got.sys.world;
      && got.res.Ok? && got.sys.up && got.sys.script == [CALM, CALM, FAILING] && Ownerless(w)
      && w.meteor == Some(got.res.value) && w.showers == [SHOWER] && got.res.value.finalizers == [FINALIZER]
      && got.res.value.status.comas == [OWNED]
  {
    var rest := [CALM, CALM, FAILING];
    var s := Resume(op, UNOWNED).sys.(script := rest);
    var es := UNOWNED[0].env;
    var s1 := Effect(s, Env(es[0]));
    assert UNOWNED[1..] == rest && es[1..] == [es[1]] && es[1..][1..] == [];
    assert Environment(s, es) == Environment(s1, es[1..]) == Environment(Effect(s1, Env(es[1])), []);
  }

  lemma {:induction false} UnownedRecord(l: Local)
    requires l.sys.up && l.sys.script == [CALM, FAILING] && Ownerless(l.sys.world) && l.meteor.status.comas == [OWNED]
    ensures var (l1, ok) := ReconcileComas(l, SHOWER.services); var uid := l.sys.world.comas[COMA].uid;
      && ok && l1.sys == l.sys.(script := []) && l1.meteor == l.meteor.(status := l1.meteor.status)
      && Ref("hub", "demo", uid, false) in l1.meteor.status.comas
  {
    assert COMA == Key("hub", l.sys.world.key.name);
    CalmArrives(l.sys, [FAILING]);
    var uid := l.sys.world.comas[COMA].uid;
    var s1 := l.sys.(script := [FAILING]);
    assert GetComa(l.sys, COMA) == Reply(s1, Ok(FoundComa(uid, true)));
    UnownedFails(Local(s1, l.meteor), uid);
    var l1 := RecordComa(Local(s1, l.meteor), COMA, FoundComa(uid, true)).0;
    assert ReconcileComa(l, "hub") == (l1, Next);
    assert SHOWER.services[1..] == [];
    assert ReconcileComas(l1, []) == (l1, true);
  }

  lemma UnownedFails(l: Local, uid: nat)
    requires l.sys.up && l.sys.script == [FAILING] && l.meteor.status.comas == [OWNED]
    ensures var (l1, step) := RecordComa(l, COMA, FoundComa(uid, true));
      && step == Next && l1.sys == l.sys.(script := []) && l1.meteor == l.meteor.(status := l1.meteor.status)
      && Ref("hub", "demo", uid, false) in l1.meteor.status.comas
  {
    assert l.sys.script[1..] == [];
    assert OWNED in AddRef([OWNED], Ref("hub", "demo", uid, false));
  }

  lemma UnownedPass(op: Op)
    requires op.sys.up && Site(op.sys.world)
    ensures var op1 := Reconcile(Resume(op, UNOWNED)).0; op1.sys.up && RecordedOwnerless(op1.sys.world)
  {
    hide Refresh, AggregatePhase, GetMeteor, ReconcileComas, ReconcilePipelines, UpdateStatusNow, Site;
    var op0 := Resume(op, UNOWNED);
    UnownedRead(op);
    var got := GetMeteor(op0.sys);
    var m := got.res.value;
    RefreshKeeps(m);
    CalmArrives(got.sys, [CALM, FAILING]);
    var l := Local(got.sys.(script := [CALM, FAILING]), Refresh(m));
    assert Locate(Local(got.sys, Refresh(m)), op0.shower) == (l, Some(SHOWER));
    assert EnsureFinalizers(l) == (l, true);
    assert Proceed(l, Some(SHOWER)) == Work(l, SHOWER);
    UnownedRecord(l);
    var l1 := ReconcileComas(l, SHOWER.services).0;
    L.QuietRuns(l1, SHOWER, SPEC.pipelines);
    var (l2, ok) := ReconcilePipelines(l1, SHOWER, SPEC.pipelines);
    L.QuietWrite(l2, !ok);
  }

  lemma BareShower(op: Op)
    requires op.sys.up && RecordedOwnerless(op.sys.world)
    ensures var op1 := Reconcile(Resume(op, Only([ShowersChange([BARE])]))).0;
      op1.sys.up && RecordedOwnerless(op1.sys.world) && op1.sys.world.showers == [BARE]
  {
    OnlyEvents(op, [ShowersChange([BARE])]);
    var s := op.sys.(script := [], seen := NOTHING);
    var e := ShowersChange([BARE]);
    assert [e][1..] == [];
    assert Environment(s, [e]) == Environment(Effect(s, Env(e)), []) == Effect(s, Env(e));
  }

  lemma BareLeavesAlone(op: Op)
    requires op.sys.up && RecordedOwnerless(op.sys.world) && op.sys.world.showers == [BARE]
    ensures RecordedOwnerless(Reconcile(Resume(op, [])).0.sys.world)
  {
    hide Reconcile;
    var op0 := Resume(op, []);
    assert L.Picks(op0, BARE);
    O.PassHands(op0, BARE);
    assert !O.IsServed(op.sys.world, BARE.services, COMA);
    L.SetupPass(op0, BARE);
  }

  /** A recorded Coma stays without an owner through a fault-free pass: its owner was not written when it
      was recorded, and the Shower no longer serves its namespace. */
  lemma RecordedComaWithoutOwner()
    ensures var w := Passes(Start(), [FIRST, UNOWNED, Only([ShowersChange([BARE])]), []]).sys.world;
      && Initial(Start()) && w.meteor.Some? && COMA in w.comas
      && Ref("hub", "demo", w.comas[COMA].uid, false) in w.meteor.value.status.comas && w.comas[COMA].owner == None
  {
    hide Reconcile, Resume, Passes, Site;
    FirstPass();
    var op := Passes(Start(), [FIRST]);
    FirstIsSite(op);
    UnownedPass(op);
    PassesOneMore(Start(), [FIRST], UNOWNED);
    var s2 := [FIRST] + [UNOWNED];
    BareShower(Passes(Start(), s2));
    PassesOneMore(Start(), s2, Only([ShowersChange([BARE])]));
    var s3 := s2 + [Only([ShowersChange([BARE])])];
    BareLeavesAlone(Passes(Start(), s3));
    PassesOneMore(Start(), s3, []);
    assert s3 + [[]] == [FIRST, UNOWNED, Only([ShowersChange([BARE])]), []];
  }

  lemma FirstIsSite(op: Op)
    requires UnderWay(op)
    ensures op.sys.up && Site(op.sys.world)
  {
  }

  // ---------------------------------------------------------------- a Coma that is not created

  /** The first pass over a new Meteor, in which the creation of the Coma is refused. */
  const REFUSED := [Plan([UserCreates(SPEC, None, [])], Normal, true), CALM, CALM, CALM, FAILING]

  lemma RefusedRead(s: Sys)
    requires s == Resume(Start(), REFUSED).sys
    ensures var got := GetMeteor(s); var w := got.sys.world;
      && got.res == Ok(MADE) && got.sys.up && got.sys.script == [CALM, CALM, CALM, FAILING]
      && w == Start().sys.world.(meteor := Some(MADE), versions := [MADE], nextUid := 2, nextRv := 2)
  {
    var rest := [CALM, CALM, CALM, FAILING];
    var s0 := s.(script := rest);
    var es := REFUSED[0].env;
    assert REFUSED[1..] == rest && es[1..] == [];
    assert Environment(s0, es) == Environment(Effect(s0, Env(es[0])), []) == Effect(s0, Env(es[0]));
  }

  lemma RefusedHold(s: Sys)
    requires s.up && s.script == [CALM, CALM, FAILING] && s.world.meteor == Some(MADE) && s.world.nextRv == 2
    ensures var (l1, ok) := EnsureFinalizers(Local(s, Refresh(MADE)));
      && ok && l1.meteor == Held() && l1.sys == s.(script := [CALM, FAILING], world := l1.sys.world, trace := l1.sys.trace)
      && l1.sys.world == s.world.(
           meteor := Some(Held().(status := EMPTY_STATUS)), versions := l1.sys.world.versions, nextRv := 3)
  {
    CalmArrives(s, [CALM, FAILING]);
  }

  lemma {:induction false} RefusedLoop(l: Local)
    requires l.sys.up && l.sys.script == [CALM, FAILING] && COMA !in l.sys.world.comas && l.sys.world.key == KEY
    ensures ReconcileComas(l, SHOWER.services) == (Local(l.sys.(script := []), l.meteor), false)
  {
    assert COMA == Key("hub", l.sys.world.key.name);
    CalmArrives(l.sys, [FAILING]);
    var s1 := l.sys.(script := [FAILING]);
    assert GetComa(l.sys, COMA) == Reply(s1, Err(NotFound));
    assert s1.script[1..] == [];
    assert ReconcileComa(l, "hub") == (Local(l.sys.(script := []), l.meteor), Stop);
  }

  /** When a Coma cannot be created, the pass goes no further: it creates no run, writes its status and
      reports the error. */
  lemma RefusedComaStopsThePass()
    ensures var (op, o) := Reconcile(Resume(Start(), REFUSED)); var w := op.sys.world;
      && Initial(Start()) && o == Outcome(false, true, true)
      && w.comas == map[] && w.runs == map[] && w.meteor == Some(op.meteor)
      && op.meteor.finalizers == [FINALIZER] && op.meteor.status.conditions == [] && op.meteor.status.pipelines == []
  {
    hide Refresh, ReconcileComas, EnsureFinalizers, GetMeteor;
    var op0 := Resume(Start(), REFUSED);
    RefusedRead(op0.sys);
    var got := GetMeteor(op0.sys);
    CalmArrives(got.sys, [CALM, CALM, FAILING]);
    var s := got.sys.(script := [CALM, CALM, FAILING]);
    var l0 := Local(s, Refresh(MADE));
    assert Locate(Local(got.sys, Refresh(MADE)), None) == (l0, Some(SHOWER));
    RefusedHold(s);
    var (l1, _) := EnsureFinalizers(l0);
    assert !IsTTLReached(l0.meteor, s.world.now) by { FreshIsEmpty(); }
    assert Proceed(l0, Some(SHOWER)) == Work(l1, SHOWER);
    RefusedLoop(l1);
    assert Work(l1, SHOWER) == UpdateStatusNow(Local(l1.sys.(script := []), l1.meteor), true);
    RefusedWrite(Local(l1.sys.(script := []), l1.meteor));
  }

  lemma RefusedWrite(l: Local)
    requires Idle(l.sys) && l.meteor == Held() && l.sys.world.nextRv == 3
    requires l.sys.world.meteor == Some(Held().(status := EMPTY_STATUS))
    ensures var (l1, o) := UpdateStatusNow(l, true); var w, w1 := l.sys.world, l1.sys.world;
      && o == Outcome(false, true, true) && w1.comas == w.comas && w1.runs == w.runs && w1.meteor == Some(l1.meteor)
      && l1.meteor.finalizers == [FINALIZER] && l1.meteor.status.conditions == [] && l1.meteor.status.pipelines == []
  {
    FreshIsEmpty();
  }

  // ---------------------------------------------------------------- the wrong Shower

  /** Of two Showers, the one that the Meteor selects by its label is passed over. */
  lemma WrongShowerPicked()
    ensures var a, b := Shower("a", [], ""), Shower("b", [], "");
      PickShower([a, b], Some("a"), None) == Some(b)
  {
    var a, b := Shower("a", [], ""), Shower("b", [], "");
    assert [a, b][0] in [a, b];
  }
}
