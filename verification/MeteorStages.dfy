/** The stage lists of a stored status over all runs, under stale reads, deleted runs and any faults: they
    tell what the landed passes have read, and they partition the runs exactly when what was read agrees. */
module MeteorStages {
  import opened Kube
  import opened MeteorApi
  import opened Cluster
  import opened MeteorPass
  import opened MeteorStatusLemmas
  import opened MeteorReads
  import opened MeteorResults
  import S = MeteorSafety
  import T = MeteorTrace

  // ---------------------------------------------------------------- the invariant

  /** Stage lists and results tell the reads of the history. */
  ghost predicate StatusFits(meteor: string, st: MeteorStatus, h: seq<RunRead>) {
    Fits(st.stage, h) && ResultsFit(meteor, st.pipelines, h)
  }

  /** What was read is on record, and the stored lists fit the reads that landed for that Meteor. */
  ghost predicate Bound(s: Sys) {
    var w := s.world;
    && Permanent(w) && OnRecord(w, s.seen.runs)
    && (forall uid :: uid in s.landed ==> uid < w.nextUid && OnRecord(w, s.landed[uid]))
    && (w.meteor.Some? ==>
          && w.meteor.value.uid < w.nextUid && w.meteor.value.rv < w.nextRv
          && StatusFits(w.key.name, w.meteor.value.status, Landed(s, w.meteor.value.uid)))
  }

  /** The in-memory lists, as long as a write of them would still match. */
  ghost predicate Tracked(l: Local) {
    && Bound(l.sys)
    && l.meteor.rv < l.sys.world.nextRv && StageSound(l.meteor.status.stage)
    && (Matches(l.sys.world, l.meteor) ==>
          && l.sys.world.meteor.value.uid == l.meteor.uid
          && StatusFits(l.sys.world.key.name, l.meteor.status, Landed(l.sys, l.meteor.uid) + l.sys.seen.runs))
  }

  ghost predicate Keeps(l: Local, l1: Local) {
    Tracked(l) ==> Tracked(l1)
  }

  lemma KeepsTransitive(a: Local, b: Local, c: Local)
    requires Keeps(a, b) && Keeps(b, c)
    ensures Keeps(a, c)
  {
    hide Tracked;
  }

  /** What a change does to the stored version, as far as the lists care. */
  ghost predicate VersionsStep(w: World, w': World, rv: nat) {
    && w.nextRv <= w'.nextRv && w.nextUid <= w'.nextUid
    && (rv < w.nextRv && w'.meteor.Some? && w'.meteor.value.rv == rv ==> w.meteor == w'.meteor)
    && (w.meteor.Some? && w.meteor.value.rv < w.nextRv && w'.meteor.Some? ==>
          w'.meteor.value.uid == w.meteor.value.uid && w'.meteor.value.rv < w'.nextRv)
    && (!w.meteor.Some? && w'.meteor.Some? ==>
          && w'.meteor.value.status == EMPTY_STATUS && w'.meteor.value.rv < w'.nextRv
          && w'.meteor.value.uid == w.nextUid < w'.nextUid)
  }

  lemma HappenVersions(w: World, e: Event, rv: nat)
    ensures VersionsStep(w, Happen(w, e), rv)
  {
  }

  lemma VersionsKept(cause: Cause, w: World, rv: nat)
    requires !cause.OpWriteStatus? && !cause.OpUpdate?
    ensures VersionsStep(w, Apply(cause, w), rv)
  {
    hide Happen;
    if cause.Env? { HappenVersions(w, cause.event, rv); }
  }

  lemma LandedKept(s: Sys, cause: Cause)
    requires Bound(s) && (cause.OpCreateRun? ==> cause.run !in s.world.runs) && s.world.nextUid <= Apply(cause, s.world).nextUid
    ensures var s1 := Effect(s, cause); var w1 := s1.world;
      && Permanent(w1) && OnRecord(w1, s1.seen.runs)
      && forall uid :: uid in s1.landed ==> uid < w1.nextUid && OnRecord(w1, s1.landed[uid])
  {
    hide Apply, Permanent, StatusFits, OnRecord;
    var w := s.world;
    CausePermanent(cause, w);
    var w1 := Apply(cause, w);
    OnRecordKept(w, w1, s.seen.runs);
    forall uid | uid in s.landed ensures OnRecord(w1, s.landed[uid]) { OnRecordKept(w, w1, s.landed[uid]); }
  }

  lemma EffectBound(s: Sys, cause: Cause)
    requires Bound(s) && !cause.OpWriteStatus? && !cause.OpUpdate? && (cause.OpCreateRun? ==> cause.run !in s.world.runs)
    ensures Bound(Effect(s, cause))
  {
    hide Apply, Permanent, StatusFits, OnRecord;
    var w := s.world;
    VersionsKept(cause, w, 0);
    T.KeyStays(cause, w);
    LandedKept(s, cause);
    var w' := Apply(cause, w);
    if w'.meteor.Some? {
      if w.meteor.Some? {
        T.StatusKept(cause, w);
      } else {
        EmptyStatusFits(w.key.name);
      }
    }
  }

  lemma EmptyStatusFits(meteor: string)
    ensures StatusFits(meteor, EMPTY_STATUS, [])
  {
    EmptyFits();
    EmptyResults(meteor);
  }

  lemma EffectKeeps(l: Local, cause: Cause)
    requires !cause.OpWriteStatus? && !cause.OpUpdate? && (cause.OpCreateRun? ==> cause.run !in l.sys.world.runs)
    ensures Keeps(l, Local(Effect(l.sys, cause), l.meteor))
  {
    hide Apply, Bound, StatusFits;
    if Tracked(l) {
      EffectBound(l.sys, cause);
      T.KeyStays(cause, l.sys.world);
      VersionsKept(cause, l.sys.world, l.meteor.rv);
    }
  }

  lemma SameSys(l: Local, s: Sys)
    requires s == l.sys.(script := s.script, up := s.up)
    ensures Keeps(l, Local(s, l.meteor))
  {
  }

  lemma {:induction false} EnvironmentKeeps(l: Local, es: seq<Event>)
    ensures Keeps(l, Local(Environment(l.sys, es), l.meteor))
    decreases |es|
  {
    hide Keeps, Apply;
    SameSys(l, l.sys);
    if es != [] {
      var l1 := Local(Effect(l.sys, Env(es[0])), l.meteor);
      EffectKeeps(l, Env(es[0]));
      EnvironmentKeeps(l1, es[1..]);
      KeepsTransitive(l, l1, Local(Environment(l.sys, es), l.meteor));
    }
  }

  lemma ArriveKeeps(l: Local)
    ensures Keeps(l, Local(Arrive(l.sys).sys, l.meteor))
  {
    hide Keeps;
    SameSys(l, l.sys);
    if l.sys.up && l.sys.script != [] {
      var l0 := Local(l.sys.(script := l.sys.script[1..]), l.meteor);
      SameSys(l, l0.sys);
      EnvironmentKeeps(l0, l.sys.script[0].env);
      var l1 := Local(Environment(l0.sys, l.sys.script[0].env), l.meteor);
      SameSys(l1, Arrive(l.sys).sys);
      KeepsTransitive(l, l0, l1);
      KeepsTransitive(l, l1, Local(Arrive(l.sys).sys, l.meteor));
    }
  }

  lemma AttemptKeeps<T>(l: Local, possible: bool, refusal: ApiError, cause: Cause, value: T)
    requires !cause.OpWriteStatus? && !cause.OpUpdate?
    requires possible && cause.OpCreateRun? ==> cause.run !in Arrive(l.sys).sys.world.runs
    ensures Keeps(l, Local(Attempt(Arrive(l.sys), possible, refusal, cause, value).sys, l.meteor))
  {
    hide Keeps, Apply, Effect, Arrive;
    ArriveKeeps(l);
    var l1 := Local(Arrive(l.sys).sys, l.meteor);
    if possible {
      EffectKeeps(l1, cause);
      KeepsTransitive(l, l1, Local(Effect(l1.sys, cause), l.meteor));
    }
  }

  /** In-memory edits that leave the stage lists and the results alone. */
  lemma EditKeeps(l: Local, m: Meteor)
    requires m.status.stage == l.meteor.status.stage && m.status.pipelines == l.meteor.status.pipelines
    requires m.rv == l.meteor.rv && m.uid == l.meteor.uid
    ensures Keeps(l, Local(l.sys, m))
  {
  }

  // ---------------------------------------------------------------- writes of the Meteor

  lemma UpdateEffect(l: Local, m: Meteor)
    requires m.status == l.meteor.status && m.rv == l.meteor.rv && m.uid == l.meteor.uid
    requires Matches(l.sys.world, m)
    ensures var s1 := Effect(l.sys, OpUpdate(m));
      Keeps(l, Local(s1, m)) && Keeps(l, Local(s1, m.(rv := l.sys.world.nextRv)))
  {
    hide Permanent, OnRecord, StatusFits;
    if Tracked(l) { LandedKept(l.sys, OpUpdate(m)); }
  }

  lemma UpdateKeeps(s: Sys, m0: Meteor, m: Meteor)
    requires m.status == m0.status && m.rv == m0.rv && m.uid == m0.uid
    ensures var l1 := UpdateFinalizers(s, m).0; Keeps(Local(s, m0), l1)
  {
    hide Keeps, Apply, Effect, Arrive;
    var l := Local(s, m0);
    ArriveKeeps(l);
    var a := Arrive(s);
    var l0 := Local(a.sys, m0);
    EditKeeps(l0, m);
    KeepsTransitive(l, l0, Local(a.sys, m));
    if Matches(a.sys.world, m) {
      UpdateEffect(l0, m);
      var s1 := Effect(a.sys, OpUpdate(m));
      KeepsTransitive(l, l0, Local(s1, m));
      KeepsTransitive(l, l0, Local(s1, m.(rv := a.sys.world.nextRv)));
    }
  }

  lemma OnRecordAppend(w: World, h: seq<RunRead>, g: seq<RunRead>)
    requires OnRecord(w, h) && OnRecord(w, g)
    ensures OnRecord(w, h + g)
  {
  }

  lemma EmptyOnRecord(w: World)
    ensures OnRecord(w, [])
  {
  }

  /** A committed status write lands what the pass has read. */
  lemma StatusEffect(l: Local, cause: Cause)
    requires Matches(l.sys.world, l.meteor) && cause == OpWriteStatus(l.meteor, l.sys.seen)
    ensures var m := l.meteor; var s1 := Land(Effect(l.sys, cause), l.sys.world.meteor.value.uid);
      Keeps(l, Local(s1, m)) && Keeps(l, Local(s1, m.(rv := l.sys.world.nextRv)))
  {
    hide Permanent, OnRecord, StatusFits;
    if Tracked(l) {
      LandedKept(l.sys, cause);
      var s0 := Effect(l.sys, cause);
      var uid := l.meteor.uid;
      EmptyOnRecord(s0.world);
      OnRecordAppend(s0.world, Landed(l.sys, uid), l.sys.seen.runs);
      StatusFitsTwice(l.sys.world.key.name, l.meteor.status, Landed(l.sys, uid), l.sys.seen.runs);
    }
  }

  lemma StatusFitsTwice(meteor: string, st: MeteorStatus, h: seq<RunRead>, g: seq<RunRead>)
    requires StatusFits(meteor, st, h + g)
    ensures StatusFits(meteor, st, h + g + g)
  {
    hide Fits, ResultsFit;
    FitsTwice(st.stage, h, g);
    ResultsTwice(meteor, st.pipelines, h, g);
  }

  lemma WriteKeeps(l: Local, failed: bool)
    ensures Keeps(l, UpdateStatusNow(l, failed).0)
  {
    hide Keeps, Apply, Effect, Arrive, Land;
    ArriveKeeps(l);
    T.ArriveWithout(l.sys, T.StatusWrites);
    var a := Arrive(l.sys);
    var l0 := Local(a.sys, l.meteor);
    if Matches(a.sys.world, l.meteor) {
      var cause := OpWriteStatus(l.meteor, l.sys.seen);
      StatusEffect(l0, cause);
      var s1 := Land(Effect(a.sys, cause), a.sys.world.meteor.value.uid);
      KeepsTransitive(l, l0, Local(s1, l.meteor));
      KeepsTransitive(l, l0, Local(s1, l.meteor.(rv := a.sys.world.nextRv)));
    }
  }

  // ---------------------------------------------------------------- finalizers and Comas

  lemma {:induction false} DeleteComasKeep(l: Local, refs: seq<Ref>)
    ensures Keeps(l, Local(DeleteComas(l.sys, refs).0, l.meteor))
    decreases |refs|
  {
    hide Keeps, Apply, Effect, Arrive;
    SameSys(l, l.sys);
    if refs != [] {
      var k := Key(refs[0].namespace, refs[0].name);
      AttemptKeeps(l, k in Arrive(l.sys).sys.world.comas, NotFound, OpDeleteComa(k), ());
      var l1 := Local(DeleteComa(l.sys, k).sys, l.meteor);
      DeleteComasKeep(l1, refs[1..]);
      KeepsTransitive(l, l1, Local(DeleteComas(l1.sys, refs[1..]).0, l.meteor));
    }
  }

  lemma EnsureKeeps(l: Local)
    ensures Keeps(l, EnsureFinalizers(l).0)
  {
    hide Keeps, UpdateFinalizers;
    var m := l.meteor;
    SameSys(l, l.sys);
    if !m.deleting {
      UpdateKeeps(l.sys, m, m.(finalizers := AddFinalizer(m.finalizers)));
    } else {
      DeleteComasKeep(l, m.status.comas);
      var s := DeleteComas(l.sys, m.status.comas).0;
      var m1 := m.(finalizers := RemoveFinalizer(m.finalizers));
      UpdateKeeps(s, m, m1);
      KeepsTransitive(l, Local(s, m), UpdateFinalizers(s, m1).0);
    }
  }

  lemma RecordKeeps(l: Local, k: Key, c: FoundComa)
    ensures Keeps(l, RecordComa(l, k, c).0)
  {
    hide Keeps, Apply, Effect, Arrive, AddRef;
    SameSys(l, l.sys);
    if c.processed {
      var comas := AddRef(l.meteor.status.comas, Ref(k.namespace, k.name, c.uid, false));
      var l0 := Local(l.sys, l.meteor.(status := l.meteor.status.(comas := comas)));
      EditKeeps(l, l0.meteor);
      var w := Arrive(l.sys).sys.world;
      var owner := OwnerRef(l.sys.world.key, l0.meteor, true);
      AttemptKeeps(l0, k in w.comas && w.comas[k].uid == c.uid, Conflict, OpOwnComa(k, owner), ());
      KeepsTransitive(l, l0, RecordComa(l, k, c).0);
    }
  }

  lemma ComaKeeps(l: Local, namespace: string)
    ensures Keeps(l, ReconcileComa(l, namespace).0)
  {
    hide Keeps, Apply, Effect, Arrive, RecordComa;
    var k := Key(namespace, l.sys.world.key.name);
    ArriveKeeps(l);
    var got := GetComa(l.sys, k);
    var l1 := Local(got.sys, l.meteor);
    if got.res == Err(NotFound) {
      var a := Arrive(got.sys);
      AttemptKeeps(l1, k !in a.sys.world.comas, AlreadyExists, OpCreateComa(k, l.meteor),
                   FoundComa(a.sys.world.nextUid, a.processed));
      var made := CreateComa(got.sys, k, l.meteor);
      var l2 := Local(made.sys, l.meteor);
      KeepsTransitive(l, l1, l2);
      if made.res.Ok? {
        RecordKeeps(l2, k, made.res.value);
        KeepsTransitive(l, l2, RecordComa(l2, k, made.res.value).0);
      }
    } else {
      var c := if got.res.Ok? then got.res.value else FoundComa(0, false);
      RecordKeeps(l1, k, c);
      KeepsTransitive(l, l1, RecordComa(l1, k, c).0);
    }
  }

  lemma {:induction false} ComasKeep(l: Local, services: seq<ExternalService>)
    ensures Keeps(l, ReconcileComas(l, services).0)
    decreases |services|
  {
    hide Keeps, ReconcileComa;
    SameSys(l, l.sys);
    if services != [] {
      if services[0].namespace == "" {
        ComasKeep(l, services[1..]);
      } else {
        ComaKeeps(l, services[0].namespace);
        var l1 := ReconcileComa(l, services[0].namespace).0;
        ComasKeep(l1, services[1..]);
        KeepsTransitive(l, l1, ReconcileComas(l1, services[1..]).0);
      }
    }
  }

  // ---------------------------------------------------------------- pipeline runs

  /** What a read leaves of lists and results. */
  function AfterRead(st: MeteorStatus, n: string, r: RunRead): MeteorStatus
    requires ResultIndex(st.pipelines, n) < |st.pipelines|
  {
    if r.found.None? then st
    else
      var i, run := ResultIndex(st.pipelines, n), r.found.value;
      st.(stage := PlaceRun(st.stage, r.name, PlaceOf(run)),
          pipelines := if PlaceOf(run) == Won then st.pipelines[i := MarkReady(st.pipelines[i], run)] else st.pipelines)
  }

  lemma {:induction false} AfterReadFits(meteor: string, st: MeteorStatus, n: string, h: seq<RunRead>, r: RunRead)
    requires StatusFits(meteor, st, h) && StageSound(st.stage)
    requires r.name == RunName(meteor, n) && ResultIndex(st.pipelines, n) < |st.pipelines|
    ensures StatusFits(meteor, AfterRead(st, n, r), h + [r])
  {
    hide Fits, ResultsFit, PlaceRun, MarkReady;
    LookingFits(meteor, st.pipelines, h, n, r);
    if r.found.Some? { PlacingFits(st.stage, h, r); } else { NothingFoundFits(st.stage, h, r); }
  }

  lemma {:induction false} AfterReadSound(st: MeteorStatus, n: string, r: RunRead)
    requires StageSound(st.stage) && ResultIndex(st.pipelines, n) < |st.pipelines|
    ensures StageSound(AfterRead(st, n, r).stage)
  {
    hide PlaceRun, MarkReady, StageSound;
    if r.found.Some? { PlaceRunSound(st.stage, r.name, PlaceOf(r.found.value)); }
  }

  /** Noting a read, and sorting what was found into lists and results. */
  lemma {:induction false} NotingKeeps(l: Local, n: string, r: RunRead)
    requires r.name == RunName(l.sys.world.key.name, n) && ResultIndex(l.meteor.status.pipelines, n) < |l.meteor.status.pipelines|
    requires Bound(l.sys) && r.found.Some? ==>
               r.version < |l.sys.world.runLog| && l.sys.world.runLog[r.version] == RunVersion(r.name, r.found.value)
    ensures Keeps(l, Local(Noted(l.sys, r), l.meteor.(status := AfterRead(l.meteor.status, n, r))))
  {
    hide StatusFits, Permanent, AfterRead, StageSound;
    var s := l.sys;
    if Tracked(l) {
      AfterReadSound(l.meteor.status, n, r);
      var h := Landed(s, l.meteor.uid) + s.seen.runs;
      assert Landed(s, l.meteor.uid) + (s.seen.runs + [r]) == h + [r];
      if Matches(s.world, l.meteor) { AfterReadFits(s.world.key.name, l.meteor.status, n, h, r); }
    }
  }

  lemma {:induction false} ObserveIsAfterRead(st: MeteorStatus, meteor: string, n: string, r: RunRead)
    requires ResultIndex(st.pipelines, n) < |st.pipelines| && r.found.Some? && r.name == RunName(meteor, n)
    ensures var st1 := Observe(st, meteor, n, r.found.value); var st2 := AfterRead(st, n, r);
      st1.stage == st2.stage && st1.pipelines == st2.pipelines
  {
    hide PlaceRun, MarkReady;
  }

  /** Reading the run of a listed pipeline, and sorting what was found into lists and results. */
  lemma GetRunKeeps(l: Local, n: string) returns (r: RunRead)
    requires ResultIndex(l.meteor.status.pipelines, n) < |l.meteor.status.pipelines|
    ensures var got := GetRun(l.sys, RunName(l.sys.world.key.name, n));
      && r.name == RunName(l.sys.world.key.name, n) && got.sys.world.key == l.sys.world.key
      && r.found == (if got.res.Ok? then Some(got.res.value) else None)
      && Keeps(l, Local(got.sys, l.meteor.(status := AfterRead(l.meteor.status, n, r))))
  {
    hide Keeps, Arrive, PlaceRun, StatusFits, OnRecord, LastVersion, AfterRead, RunName;
    ArriveKeeps(l);
    T.ArriveWithout(l.sys, T.StatusWrites);
    var a := Arrive(l.sys);
    var l0 := Local(a.sys, l.meteor);
    var w := a.sys.world;
    var name := RunName(l.sys.world.key.name, n);
    var got := GetRun(l.sys, name);
    var version := if a.mode.Stale? && a.mode.i < |w.runLog| && w.runLog[a.mode.i].name == name then a.mode.i
                   else LastVersion(w.runLog, name);
    r := if got.res.Ok? then RunRead(name, Some(got.res.value), version) else RunRead(name, None, 0);
    NotingKeeps(l0, n, r);
    KeepsTransitive(l, l0, Local(got.sys, l.meteor.(status := AfterRead(l.meteor.status, n, r))));
  }

  lemma WithResultKeeps(l: Local, n: string)
    ensures Keeps(l, Local(l.sys, l.meteor.(status := WithResult(l.meteor.status, l.sys.world.key.name, n))))
  {
    hide Fits, Permanent, OnRecord, ResultsFit, Bound;
    if Tracked(l) && Matches(l.sys.world, l.meteor) {
      WithResultFits(l.sys.world.key.name, l.meteor.status, n, Landed(l.sys, l.meteor.uid) + l.sys.seen.runs);
    }
  }

  lemma RunKeeps(l: Local, shower: Shower, n: string)
    ensures Keeps(l, ReconcilePipelineRun(l, shower, n).0)
  {
    hide Keeps, Apply, Effect, Arrive, GetRun, Observe, RunSpecOf, PlaceRun, AfterRead, RunName;
    var key := l.sys.world.key;
    var st := WithResult(l.meteor.status, key.name, n);
    var m := l.meteor.(status := st);
    var name := RunName(key.name, n);
    var l0 := Local(l.sys, m);
    WithResultKeeps(l, n);
    var r := GetRunKeeps(l0, n);
    var got := GetRun(l.sys, name);
    var l1 := Local(got.sys, m.(status := AfterRead(st, n, r)));
    KeepsTransitive(l, l0, l1);
    if got.res.Ok? {
      ObserveIsAfterRead(st, key.name, n, r);
      var end := ReconcilePipelineRun(l, shower, n).0;
      EditKeeps(l1, end.meteor);
      KeepsTransitive(l, l1, end);
    } else {
      NothingRead(st, n, r);
      MissingKeeps(l, l1, shower, n);
    }
  }

  lemma {:induction false} NothingRead(st: MeteorStatus, n: string, r: RunRead)
    requires ResultIndex(st.pipelines, n) < |st.pipelines| && r.found.None?
    ensures AfterRead(st, n, r) == st
  {
  }

  /** The branches after a run was not found. */
  lemma MissingKeeps(l: Local, l1: Local, shower: Shower, n: string)
    requires var key := l.sys.world.key; var got := GetRun(l.sys, RunName(key.name, n));
      && got.res.Err? && l1 == Local(got.sys, l.meteor.(status := WithResult(l.meteor.status, key.name, n)))
    requires Keeps(l, l1)
    ensures Keeps(l, ReconcilePipelineRun(l, shower, n).0)
  {
    hide Keeps, Apply, Effect, Arrive, GetRun, Observe, RunSpecOf, RunName, WithResult;
    var key := l.sys.world.key;
    var name := RunName(key.name, n);
    var m := l1.meteor;
    var st := m.status;
    EditKeeps(l1, m.(status := SetRunCondition(st, n, CondFalse, "Error")));
    KeepsTransitive(l, l1, Local(l1.sys, m.(status := SetRunCondition(st, n, CondFalse, "Error"))));
    var spec := RunSpecOf(key, m, shower, n);
    AttemptKeeps(l1, name !in Arrive(l1.sys).sys.world.runs, AlreadyExists, OpCreateRun(name, spec, m), ());
    var l2 := Local(CreateRun(l1.sys, name, spec, m).sys, m);
    KeepsTransitive(l, l1, l2);
    EditKeeps(l2, m.(status := SetRunCondition(st, n, CondTrue, "CreateError")));
    EditKeeps(l2, m.(status := SetRunCondition(st, n, CondTrue, "BuildStated")));
    KeepsTransitive(l, l2, Local(l2.sys, m.(status := SetRunCondition(st, n, CondTrue, "CreateError"))));
    KeepsTransitive(l, l2, Local(l2.sys, m.(status := SetRunCondition(st, n, CondTrue, "BuildStated"))));
  }

  lemma {:induction false} RunsKeep(l: Local, shower: Shower, names: seq<string>)
    ensures Keeps(l, ReconcilePipelines(l, shower, names).0)
    decreases |names|
  {
    hide Keeps, ReconcilePipelineRun;
    SameSys(l, l.sys);
    if names != [] {
      RunKeeps(l, shower, names[0]);
      var l1 := ReconcilePipelineRun(l, shower, names[0]).0;
      RunsKeep(l1, shower, names[1..]);
      KeepsTransitive(l, l1, ReconcilePipelines(l1, shower, names[1..]).0);
    }
  }

  // ---------------------------------------------------------------- whole passes

  lemma WorkKeeps(l: Local, shower: Shower)
    ensures Keeps(l, Work(l, shower).0)
  {
    hide Keeps, ReconcileComas, ReconcilePipelines, UpdateStatusNow;
    ComasKeep(l, shower.services);
    var l1 := ReconcileComas(l, shower.services).0;
    WriteKeeps(l1, true);
    KeepsTransitive(l, l1, UpdateStatusNow(l1, true).0);
    RunsKeep(l1, shower, l1.meteor.spec.pipelines);
    var (l2, ok) := ReconcilePipelines(l1, shower, l1.meteor.spec.pipelines);
    KeepsTransitive(l, l1, l2);
    WriteKeeps(l2, !ok);
    KeepsTransitive(l, l2, UpdateStatusNow(l2, !ok).0);
  }

  lemma ProceedKeeps(l: Local, shower: Option<Shower>)
    ensures Keeps(l, Proceed(l, shower).0)
  {
    hide Keeps, Work, EnsureFinalizers, Apply, Effect, Arrive;
    AttemptKeeps(l, Arrive(l.sys).sys.world.meteor.Some?, NotFound, OpDelete(l.meteor), ());
    EnsureKeeps(l);
    var l1 := EnsureFinalizers(l).0;
    SameSys(l1, l1.sys.(up := false));
    KeepsTransitive(l, l1, l1.(sys := l1.sys.(up := false)));
    if shower.Some? {
      WorkKeeps(l1, shower.value);
      KeepsTransitive(l, l1, Work(l1, shower.value).0);
    }
  }

  lemma LocateKeeps(l: Local, previous: Option<Shower>)
    ensures Keeps(l, Locate(l, previous).0)
  {
    hide Keeps, UpdateStatusNow, Arrive;
    ArriveKeeps(l);
    var l1 := Local(Arrive(l.sys).sys, l.meteor);
    WriteKeeps(l1, true);
    KeepsTransitive(l, l1, UpdateStatusNow(l1, true).0);
  }

  // ---------------------------------------------------------------- the theorems

  lemma SameBound(s: Sys, s': Sys)
    requires s' == s.(script := s'.script, up := s'.up, trace := s'.trace, seen := s.seen.(meteor := s'.seen.meteor))
    ensures Bound(s) <==> Bound(s')
  {
    hide Permanent, OnRecord, StatusFits;
  }

  lemma {:induction false} EnvironmentBound(s: Sys, es: seq<Event>)
    requires Bound(s)
    ensures Bound(Environment(s, es))
    decreases |es|
  {
    hide Bound, Apply;
    if es != [] {
      EffectBound(s, Env(es[0]));
      EnvironmentBound(Effect(s, Env(es[0])), es[1..]);
    }
  }

  lemma GetMeteorBound(s: Sys)
    requires Bound(s)
    ensures Bound(GetMeteor(s).sys) && GetMeteor(s).sys.seen.runs == s.seen.runs
  {
    hide Bound;
    T.ArriveWithout(s, T.StatusWrites);
    if s.up && s.script != [] {
      var s0 := s.(script := s.script[1..]);
      SameBound(s, s0);
      EnvironmentBound(s0, s.script[0].env);
      SameBound(Environment(s0, s.script[0].env), Arrive(s).sys);
    }
    SameBound(Arrive(s).sys, GetMeteor(s).sys);
  }

  lemma ReadTracks(w0: World, s: Sys, m: Meteor)
    requires S.SysOk(w0, s) && Bound(s) && s.seen.runs == [] && m in s.world.versions
    ensures Tracked(Local(s, Refresh(m)))
  {
    hide AggregatePhase, StatusFits, Permanent, OnRecord, S.Sound, Refresh, StageSound;
    S.RefreshShape(m);
    VersionRead(s.world, m);
    assert Landed(s, m.uid) + [] == Landed(s, m.uid);
    SameFits(s.world.key.name, m.status, Refresh(m).status, Landed(s, m.uid));
  }

  lemma SameFits(meteor: string, st: MeteorStatus, st': MeteorStatus, h: seq<RunRead>)
    requires st'.stage == st.stage && st'.pipelines == st.pipelines
    ensures StatusFits(meteor, st', h) <==> StatusFits(meteor, st, h)
  {
    hide Fits, ResultsFit;
  }

  lemma VersionRead(w: World, m: Meteor)
    requires S.Sound(w) && m in w.versions
    ensures m.rv < w.nextRv && StageSound(m.status.stage)
    ensures w.meteor.Some? && w.meteor.value.rv == m.rv ==> w.meteor.value == m
  {
    hide S.NoOrphan, S.RecordGrows, ResultsAgree, RecordSound, UniqueKinds, StageSound;
    var i :| 0 <= i < |w.versions| && w.versions[i] == m;
    assert StatusSound(w.key, w.versions[i].status);
  }

  lemma PassKeepsBound(w0: World, op: Op)
    requires S.SysOk(w0, op.sys) && Bound(op.sys) && op.sys.seen.runs == []
    ensures Bound(Reconcile(op).0.sys)
  {
    hide S.SysOk, Bound, Locate, Proceed, Refresh, GetMeteor;
    GetMeteorBound(op.sys);
    S.GetMeteorOk(w0, op.sys);
    var got := GetMeteor(op.sys);
    if got.res.Ok? {
      var m := got.res.value;
      var l0 := Local(got.sys, Refresh(m));
      LocateKeeps(l0, op.shower);
      var (l, shower) := Locate(l0, op.shower);
      ProceedKeeps(l, shower);
      ReadTracks(w0, got.sys, m);
    }
  }

  lemma ResumeBound(s: Sys, s': Sys)
    requires Bound(s) && s' == s.(script := s'.script, up := s'.up, seen := NOTHING)
    ensures Bound(s')
  {
    hide Permanent, StatusFits;
  }

  lemma {:induction false} PassesKeepBound(w0: World, op: Op, scripts: seq<seq<Plan>>)
    requires S.SysOk(w0, op.sys) && Bound(op.sys)
    ensures Bound(Passes(op, scripts).sys)
    decreases |scripts|
  {
    hide S.SysOk, Bound, Reconcile;
    if scripts != [] {
      var op0 := Resume(op, scripts[0]);
      S.HistoryIsFree(w0, op.sys, op0.sys);
      ResumeBound(op.sys, op0.sys);
      S.ReconcileOk(w0, op0);
      PassKeepsBound(w0, op0);
      PassesKeepBound(w0, Reconcile(op0).0, scripts[1..]);
    }
  }

  lemma {:induction false} AllTracked(op: Op, scripts: seq<seq<Plan>>)
    requires Initial(op)
    ensures Bound(Passes(op, scripts).sys) && S.Sound(Passes(op, scripts).sys.world)
  {
    hide Passes, S.SysOk, S.NoOrphan, S.RecordGrows;
    S.InitialOk(op);
    S.PassesOk(op.sys.world, op, scripts);
    PassesKeepBound(op.sys.world, op, scripts);
    S.SoundNow(op.sys.world, Passes(op, scripts).sys);
  }

  /** What the stage lists say, with no assumption on reads, runs or incarnations: each list is free of
      repetition; succeeded holds exactly the runs that a landed pass ever found won, failed those ever
      found lost, and running those that were at work when a landed pass found them last. */
  lemma {:induction false} StageListsTellTheReads(op: Op, scripts: seq<seq<Plan>>)
    requires Initial(op) && Passes(op, scripts).sys.world.meteor.Some?
    ensures var s := Passes(op, scripts).sys; var m := s.world.meteor.value; var stage := m.status.stage; var h := Landed(s, m.uid);
      && NoDup(stage.running) && NoDup(stage.succeeded) && NoDup(stage.failed)
      && (forall x :: x in stage.running <==> LastPlace(h, x) == Some(AtWork))
      && (forall x :: x in stage.succeeded <==> Ever(h, x, Won))
      && (forall x :: x in stage.failed <==> Ever(h, x, Lost))
  {
    hide Passes, LastPlace, Ever, Permanent, OnRecord, S.Sound;
    AllTracked(op, scripts);
    S.StoredIsGuarded(Passes(op, scripts).sys.world);
  }

  /** What the results say, under the same lack of assumptions: one for each run that a landed pass looked
      for, under the name of its pipeline; ready exactly when the run was ever found won, and with the first
      result of the run, as it was when last found won with a text, for its url. */
  lemma {:induction false} ResultsTellTheReads(op: Op, scripts: seq<seq<Plan>>)
    requires Initial(op) && Passes(op, scripts).sys.world.meteor.Some?
    ensures var s := Passes(op, scripts).sys; var m := s.world.meteor.value;
      var rs := m.status.pipelines; var h := Landed(s, m.uid);
      && (forall i, j :: 0 <= i < j < |rs| ==> rs[i].name != rs[j].name)
      && (forall r :: r in rs ==>
            && r.runName == s.world.key.name + "-" + r.name && r.url == LastUrl(h, r.runName)
            && r.ready == (if Ever(h, r.runName, Won) then "True" else "False"))
      && (forall x :: x in h ==> exists i :: 0 <= i < |rs| && rs[i].runName == x.name)
  {
    hide Passes, LastPlace, Ever, LastUrl, Permanent, OnRecord, S.Sound, RecordSound, UniqueKinds, StageSound;
    AllTracked(op, scripts);
    S.StoredIsGuarded(Passes(op, scripts).sys.world);
  }

  /** The lists partition the runs, each placed by its latest landed observation, exactly when every
      completion that landed is what its run was found as last; being disjoint takes no less. In particular
      they do when no landed observation contradicts an earlier landed completion. */
  lemma {:induction false} StageListsPartitionIff(op: Op, scripts: seq<seq<Plan>>)
    requires Initial(op) && Passes(op, scripts).sys.world.meteor.Some?
    ensures var s := Passes(op, scripts).sys; var m := s.world.meteor.value; var h := Landed(s, m.uid);
      && (Partition(m.status.stage, h) <==> Agreed(h))
      && (Disjoint(m.status.stage) <==> Agreed(h))
      && (Uncontradicted(h) ==> Partition(m.status.stage, h))
  {
    hide Passes, Agreed, Uncontradicted, Partition, Disjoint, Permanent, OnRecord, Fits, S.Sound;
    AllTracked(op, scripts);
    var s := Passes(op, scripts).sys;
    var m := s.world.meteor.value;
    var h := Landed(s, m.uid);
    PartitionIffAgreed(m.status.stage, h);
    if Uncontradicted(h) {
      AlwaysAgreedIff(h);
      assert h[..|h|] == h;
    }
  }

  /** Reads may lag and runs may be deleted: as long as the landed reads of each run never go back to an
      older version and find the same run object, the lists partition the runs. */
  lemma {:induction false} ReadsInOrderPartition(op: Op, scripts: seq<seq<Plan>>)
    requires Initial(op) && Passes(op, scripts).sys.world.meteor.Some?
    requires var s := Passes(op, scripts).sys; InOrder(Landed(s, s.world.meteor.value.uid))
    ensures var s := Passes(op, scripts).sys; var m := s.world.meteor.value; Partition(m.status.stage, Landed(s, m.uid))
  {
    hide Passes, Agreed, Uncontradicted, Partition, Permanent, OnRecord, InOrder, Fits, S.Sound;
    AllTracked(op, scripts);
    StageListsPartitionIff(op, scripts);
    var s := Passes(op, scripts).sys;
    EmptyOnRecord(s.world);
    InOrderIsUncontradicted(s.world, Landed(s, s.world.meteor.value.uid));
  }
}
