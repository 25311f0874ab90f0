/** What the trace of a pass can hold: which steps log no status write, and that every status write of
    a pass carries the phase computed at its start. */
module MeteorTrace {
  import opened Kube
  import opened MeteorApi
  import opened Cluster
  import opened MeteorPass

  /** The two kinds of logged changes that the theorems follow through a pass. */
  datatype Topic = StatusWrites | RunCreations

  predicate About(c: Cause, t: Topic) {
    match t
    case StatusWrites => c.OpWriteStatus?
    case RunCreations => c.OpCreateRun?
  }

  /** Every status write logged from `n` on carries the phase. */
  ghost predicate Speaks(s: Sys, n: nat, p: Phase) {
    forall i :: n <= i < |s.trace| && s.trace[i].cause.OpWriteStatus? ==> s.trace[i].cause.view.status.phase == p
  }

  // ---------------------------------------------------------------- what a pass writes

  /** The step from `s` to `s'` logs nothing on the topic; the Meteor's name is fixed. */
  ghost predicate Without(s: Sys, s': Sys, t: Topic) {
    s'.world.key == s.world.key && s.trace <= s'.trace && forall i :: |s.trace| <= i < |s'.trace| ==> !About(s'.trace[i].cause, t)
  }

  /** The step from `s` to `s'` only logs status writes with that phase. */
  ghost predicate Tells(s: Sys, s': Sys, p: Phase) {
    s.trace <= s'.trace && Speaks(s', |s.trace|, p)
  }

  lemma WithoutTransitive(a: Sys, b: Sys, c: Sys, t: Topic)
    requires Without(a, b, t) && Without(b, c, t)
    ensures Without(a, c, t)
  {
    forall i | |a.trace| <= i < |c.trace| ensures !About(c.trace[i].cause, t) {
      if i < |b.trace| { assert c.trace[i] == b.trace[i]; }
    }
  }

  lemma TellsTransitive(a: Sys, b: Sys, c: Sys, p: Phase)
    requires Tells(a, b, p) && Tells(b, c, p)
    ensures Tells(a, c, p)
  {
    forall i | |a.trace| <= i < |c.trace| && c.trace[i].cause.OpWriteStatus?
      ensures c.trace[i].cause.view.status.phase == p
    {
      if i < |b.trace| { assert c.trace[i] == b.trace[i]; }
    }
  }

  lemma WithoutTells(a: Sys, b: Sys, p: Phase)
    requires Without(a, b, StatusWrites)
    ensures Tells(a, b, p)
  {
  }

  lemma KeyStays(cause: Cause, w: World)
    ensures Apply(cause, w).key == w.key
  {
  }

  /** The environment logs its events and leaves the operator alone. */
  lemma {:induction false} EnvironmentWithout(s: Sys, es: seq<Event>, t: Topic)
    ensures var s1 := Environment(s, es); Without(s, s1, t) && s1 == s.(world := s1.world, trace := s1.trace)
    decreases |es|
  {
    hide Apply;
    if es != [] {
      KeyStays(Env(es[0]), s.world);
      EnvironmentWithout(Effect(s, Env(es[0])), es[1..], t);
      WithoutTransitive(s, Effect(s, Env(es[0])), Environment(s, es), t);
    }
  }

  lemma ArriveWithout(s: Sys, t: Topic)
    ensures Without(s, Arrive(s).sys, t) && Arrive(s).sys.seen == s.seen
  {
    if s.up && s.script != [] {
      EnvironmentWithout(s.(script := s.script[1..]), s.script[0].env, t);
    }
  }

  lemma AttemptWithout<T>(s: Sys, possible: bool, refusal: ApiError, cause: Cause, value: T, t: Topic)
    requires !About(cause, t)
    ensures var s1 := Attempt(Arrive(s), possible, refusal, cause, value).sys; Without(s, s1, t) && s1.seen == s.seen
  {
    hide Apply;
    ArriveWithout(s, t);
    KeyStays(cause, Arrive(s).sys.world);
    WithoutTransitive(s, Arrive(s).sys, Attempt(Arrive(s), possible, refusal, cause, value).sys, t);
  }

  lemma WriteTells(l: Local, failed: bool)
    ensures var l1 := UpdateStatusNow(l, failed).0;
      Tells(l.sys, l1.sys, l.meteor.status.phase) && l1.meteor == l.meteor.(rv := l1.meteor.rv)
  {
    hide Apply, Arrive;
    ArriveWithout(l.sys, StatusWrites);
    var p := l.meteor.status.phase;
    WithoutTells(l.sys, Arrive(l.sys).sys, p);
    TellsTransitive(l.sys, Arrive(l.sys).sys, UpdateStatusNow(l, failed).0.sys, p);
  }

  lemma WriteWithoutRuns(l: Local, failed: bool)
    ensures var l1 := UpdateStatusNow(l, failed).0; Without(l.sys, l1.sys, RunCreations) && l1.sys.seen == l.sys.seen
  {
    hide Apply, Arrive;
    ArriveWithout(l.sys, RunCreations);
    KeyStays(OpWriteStatus(l.meteor, l.sys.seen), Arrive(l.sys).sys.world);
    WithoutTransitive(l.sys, Arrive(l.sys).sys, UpdateStatusNow(l, failed).0.sys, RunCreations);
  }

  lemma UpdateWithout(s: Sys, m: Meteor, t: Topic)
    ensures var l1 := UpdateFinalizers(s, m).0;
      Without(s, l1.sys, t) && l1.sys.seen == s.seen && l1.meteor == m.(rv := l1.meteor.rv)
  {
    hide Apply, Effect;
    var w := Arrive(s).sys.world;
    AttemptWithout(s, Matches(w, m), Conflict, OpUpdate(m), m.(rv := w.nextRv), t);
  }

  lemma {:induction false} DeleteComasWithout(s: Sys, refs: seq<Ref>, t: Topic)
    ensures var s1 := DeleteComas(s, refs).0; Without(s, s1, t) && s1.seen == s.seen
    decreases |refs|
  {
    hide Apply, Effect, Arrive;
    if refs != [] {
      var k := Key(refs[0].namespace, refs[0].name);
      AttemptWithout(s, k in Arrive(s).sys.world.comas, NotFound, OpDeleteComa(k), (), t);
      var r := DeleteComa(s, k);
      if r.res.Ok? {
        DeleteComasWithout(r.sys, refs[1..], t);
        WithoutTransitive(s, r.sys, DeleteComas(s, refs).0, t);
      }
    }
  }

  lemma EnsureWithout(l: Local, t: Topic)
    ensures var l1 := EnsureFinalizers(l).0;
      && Without(l.sys, l1.sys, t) && l1.sys.seen == l.sys.seen
      && l1.meteor == l.meteor.(finalizers := l1.meteor.finalizers, rv := l1.meteor.rv)
  {
    hide UpdateFinalizers;
    var m := l.meteor;
    if !m.deleting {
      if FINALIZER !in m.finalizers { UpdateWithout(l.sys, m.(finalizers := AddFinalizer(m.finalizers)), t); }
    } else if FINALIZER in m.finalizers {
      DeleteComasWithout(l.sys, m.status.comas, t);
      var (s, ok) := DeleteComas(l.sys, m.status.comas);
      if ok {
        var m1 := m.(finalizers := RemoveFinalizer(m.finalizers));
        UpdateWithout(s, m1, t);
        WithoutTransitive(l.sys, s, UpdateFinalizers(s, m1).0.sys, t);
      }
    }
  }

  /** Comas and runs are worked on without touching the phase, and nothing is logged on the topic. */
  ghost predicate Mute(l: Local, l': Local, t: Topic) {
    Without(l.sys, l'.sys, t) && l'.meteor.status.phase == l.meteor.status.phase
  }

  lemma MuteTransitive(a: Local, b: Local, c: Local, t: Topic)
    requires Mute(a, b, t) && Mute(b, c, t)
    ensures Mute(a, c, t)
  {
    hide Without;
    WithoutTransitive(a.sys, b.sys, c.sys, t);
  }

  lemma RecordMute(l: Local, k: Key, c: FoundComa, t: Topic)
    ensures Mute(l, RecordComa(l, k, c).0, t) && RecordComa(l, k, c).0.sys.seen == l.sys.seen
  {
    hide Apply, Effect, Arrive, AddRef;
    if c.processed {
      var ref := Ref(k.namespace, k.name, c.uid, false);
      var m := l.meteor.(status := l.meteor.status.(comas := AddRef(l.meteor.status.comas, ref)));
      var w := Arrive(l.sys).sys.world;
      var owner := OwnerRef(l.sys.world.key, m, true);
      AttemptWithout(l.sys, k in w.comas && w.comas[k].uid == c.uid, Conflict, OpOwnComa(k, owner), (), t);
    }
  }

  lemma CreateComaWithout(s: Sys, k: Key, m: Meteor, t: Topic)
    ensures Without(s, CreateComa(s, k, m).sys, t) && CreateComa(s, k, m).sys.seen == s.seen
  {
    hide Apply, Effect, Arrive;
    var a := Arrive(s);
    var made := FoundComa(a.sys.world.nextUid, a.processed);
    AttemptWithout(s, k !in a.sys.world.comas, AlreadyExists, OpCreateComa(k, m), made, t);
  }

  lemma ComaMute(l: Local, namespace: string, t: Topic)
    ensures Mute(l, ReconcileComa(l, namespace).0, t) && ReconcileComa(l, namespace).0.sys.seen == l.sys.seen
  {
    hide Apply, Effect, Arrive, RecordComa, CreateComa;
    var k := Key(namespace, l.sys.world.key.name);
    ArriveWithout(l.sys, t);
    var got := GetComa(l.sys, k);
    var l1 := Local(got.sys, l.meteor);
    if got.res == Err(NotFound) {
      CreateComaWithout(got.sys, k, l.meteor, t);
      var made := CreateComa(got.sys, k, l.meteor);
      var l2 := Local(made.sys, l.meteor);
      MuteTransitive(l, l1, l2, t);
      if made.res.Ok? {
        RecordMute(l2, k, made.res.value, t);
        MuteTransitive(l, l2, RecordComa(l2, k, made.res.value).0, t);
      }
    } else {
      var c := if got.res.Ok? then got.res.value else FoundComa(0, false);
      RecordMute(l1, k, c, t);
      MuteTransitive(l, l1, RecordComa(l1, k, c).0, t);
    }
  }

  lemma {:induction false} ComasMute(l: Local, services: seq<ExternalService>, t: Topic)
    ensures Mute(l, ReconcileComas(l, services).0, t) && ReconcileComas(l, services).0.sys.seen == l.sys.seen
    decreases |services|
  {
    hide ReconcileComa;
    if services != [] {
      if services[0].namespace == "" {
        ComasMute(l, services[1..], t);
      } else {
        ComaMute(l, services[0].namespace, t);
        var (l1, step) := ReconcileComa(l, services[0].namespace);
        if step == Next {
          ComasMute(l1, services[1..], t);
          MuteTransitive(l, l1, ReconcileComas(l1, services[1..]).0, t);
        }
      }
    }
  }

  lemma {:induction false} ObservePhase(st: MeteorStatus, meteor: string, n: string, run: Run)
    requires ResultIndex(st.pipelines, n) < |st.pipelines|
    ensures Observe(st, meteor, n, run).phase == st.phase
  {
  }

  lemma CreateRunWithout(s: Sys, name: string, spec: RunSpec, m: Meteor)
    ensures Without(s, CreateRun(s, name, spec, m).sys, StatusWrites) && CreateRun(s, name, spec, m).sys.seen == s.seen
  {
    hide Apply, Effect, Arrive;
    AttemptWithout(s, name !in Arrive(s).sys.world.runs, AlreadyExists, OpCreateRun(name, spec, m), (), StatusWrites);
  }

  lemma RunMute(l: Local, shower: Shower, n: string)
    ensures Mute(l, ReconcilePipelineRun(l, shower, n).0, StatusWrites)
  {
    hide Apply, Effect, Arrive, Observe, RunSpecOf, CreateRun;
    var key := l.sys.world.key;
    var st := WithResult(l.meteor.status, key.name, n);
    var m := l.meteor.(status := st);
    var name := RunName(key.name, n);
    ArriveWithout(l.sys, StatusWrites);
    var got := GetRun(l.sys, name);
    if got.res.Ok? {
      ObservePhase(st, key.name, n, got.res.value);
    } else if got.res == Err(NotFound) && st.comas != [] {
      var spec := RunSpecOf(key, m, shower, n);
      CreateRunWithout(got.sys, name, spec, m);
      WithoutTransitive(l.sys, got.sys, CreateRun(got.sys, name, spec, m).sys, StatusWrites);
    }
  }

  lemma {:induction false} RunsMute(l: Local, shower: Shower, names: seq<string>)
    ensures Mute(l, ReconcilePipelines(l, shower, names).0, StatusWrites)
    decreases |names|
  {
    hide ReconcilePipelineRun;
    if names != [] {
      RunMute(l, shower, names[0]);
      var (l1, ok) := ReconcilePipelineRun(l, shower, names[0]);
      if ok {
        RunsMute(l1, shower, names[1..]);
        MuteTransitive(l, l1, ReconcilePipelines(l1, shower, names[1..]).0, StatusWrites);
      }
    }
  }

  lemma DeleteWithout(s: Sys, m: Meteor, t: Topic)
    ensures Without(s, DeleteMeteor(s, m).sys, t)
  {
    hide Apply, Effect, Arrive;
    AttemptWithout(s, Arrive(s).sys.world.meteor.Some?, NotFound, OpDelete(m), (), t);
  }

  lemma ProceedTells(l: Local, shower: Option<Shower>)
    ensures Tells(l.sys, Proceed(l, shower).0.sys, l.meteor.status.phase)
  {
    hide DeleteMeteor, EnsureFinalizers, Work, Without;
    var p := l.meteor.status.phase;
    if IsTTLReached(l.meteor, l.sys.world.now) && !l.meteor.deleting {
      DeleteWithout(l.sys, l.meteor, StatusWrites);
      WithoutTells(l.sys, DeleteMeteor(l.sys, l.meteor).sys, p);
    } else {
      EnsureWithout(l, StatusWrites);
      var (l1, ok) := EnsureFinalizers(l);
      WithoutTells(l.sys, l1.sys, p);
      if ok && !l1.meteor.deleting && shower.Some? {
        WorkTells(l1, shower.value);
        TellsTransitive(l.sys, l1.sys, Work(l1, shower.value).0.sys, p);
      }
    }
  }

  lemma WorkTells(l: Local, shower: Shower)
    ensures Tells(l.sys, Work(l, shower).0.sys, l.meteor.status.phase)
  {
    hide ReconcileComas, ReconcilePipelines, UpdateStatusNow, Without;
    var p := l.meteor.status.phase;
    ComasMute(l, shower.services, StatusWrites);
    var (l1, ok) := ReconcileComas(l, shower.services);
    WithoutTells(l.sys, l1.sys, p);
    if !ok {
      WriteTells(l1, true);
      TellsTransitive(l.sys, l1.sys, UpdateStatusNow(l1, true).0.sys, p);
    } else {
      RunsMute(l1, shower, l1.meteor.spec.pipelines);
      var (l2, ok2) := ReconcilePipelines(l1, shower, l1.meteor.spec.pipelines);
      MuteTransitive(l, l1, l2, StatusWrites);
      WithoutTells(l.sys, l2.sys, p);
      WriteTells(l2, !ok2);
      TellsTransitive(l.sys, l2.sys, UpdateStatusNow(l2, !ok2).0.sys, p);
    }
  }

  lemma LocateTells(l: Local, previous: Option<Shower>)
    ensures var l1 := Locate(l, previous).0;
      Tells(l.sys, l1.sys, l.meteor.status.phase) && l1.meteor == l.meteor.(rv := l1.meteor.rv)
  {
    hide Apply, Effect, Arrive, UpdateStatusNow;
    var p := l.meteor.status.phase;
    ArriveWithout(l.sys, StatusWrites);
    var o := FindOwnerShower(l.sys, l.meteor, previous);
    WithoutTells(l.sys, o.sys, p);
    WriteTells(Local(o.sys, l.meteor), true);
    TellsTransitive(l.sys, o.sys, UpdateStatusNow(Local(o.sys, l.meteor), true).0.sys, p);
  }

  lemma LocateWithoutRuns(l: Local, previous: Option<Shower>)
    ensures var l1 := Locate(l, previous).0; Without(l.sys, l1.sys, RunCreations) && l1.sys.seen == l.sys.seen
  {
    hide Apply, Arrive, UpdateStatusNow;
    ArriveWithout(l.sys, RunCreations);
    var o := FindOwnerShower(l.sys, l.meteor, previous);
    WriteWithoutRuns(Local(o.sys, l.meteor), true);
    WithoutTransitive(l.sys, o.sys, UpdateStatusNow(Local(o.sys, l.meteor), true).0.sys, RunCreations);
  }

  /** Only a status write changes the stored status of a living Meteor. */
  lemma StatusKept(cause: Cause, w: World)
    requires w.meteor.Some? && Apply(cause, w).meteor.Some?
    ensures Apply(cause, w).meteor.value.status
            == if cause.OpWriteStatus? then cause.view.status else w.meteor.value.status
  {
  }
}
