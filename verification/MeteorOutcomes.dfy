/** What a pass of the Meteor controller answers to its caller, and which Shower it is left with: a status
    that did not reach the store is never passed over in silence. */
module MeteorOutcomes {
  import opened Kube
  import opened MeteorApi
  import opened Cluster
  import opened MeteorPass
  import opened MeteorSafety
  import L = MeteorLiveness
  import T = MeteorTrace
  import Y = MeteorTally

  /** The last write of a pass: either it is answered, and the store holds what the operator holds, or the
      pass is asked for again and its error, if any, is swallowed. */
  lemma FinalWrite(w0: World, l: Local, failed: bool)
    requires LocalOk(w0, l)
    ensures var (l1, o) := UpdateStatusNow(l, failed);
      && l1.meteor.(rv := l.meteor.rv) == l.meteor
      && (o.later ==> o == Outcome(false, true, failed) && l1.sys.world.meteor == Some(l1.meteor))
      && (!o.later ==> o == Outcome(true, false, false))
  {
    hide SysOk, Sound, Later, Backed, Refreshed;
    WriteStatusOk(w0, l, failed);
    var a := Arrive(l.sys);
    var w := a.sys.world;
    ArriveOk(w0, l.sys);
    SoundNow(w0, a.sys);
    BackedStable(l.sys.world, w, l.meteor);
    if Matches(w, l.meteor) { MatchMeansStored(w, l.meteor); }
  }

  lemma WorkAnswers(w0: World, l: Local, shower: Shower)
    requires Ready(w0, l)
    ensures var (l1, o) := Work(l, shower);
      if o.later then !o.requeue && l1.sys.world.meteor == Some(l1.meteor) else o == Outcome(true, false, false)
  {
    hide SysOk, Backed, Guarded, Refreshed, ReconcileComas, ReconcilePipelines, UpdateStatusNow;
    ReconcileComasOk(w0, l, shower.services);
    var (l1, ok) := ReconcileComas(l, shower.services);
    if !ok {
      FinalWrite(w0, l1, true);
    } else {
      ReconcilePipelinesOk(w0, l1, shower, l1.meteor.spec.pipelines);
      var (l2, ok2) := ReconcilePipelines(l1, shower, l1.meteor.spec.pipelines);
      FinalWrite(w0, l2, !ok2);
    }
  }

  /** The operator is done with the Meteor: it is being deleted, or it has expired. */
  predicate Over(m: Meteor, now: int) {
    m.deleting || IsTTLReached(m, now)
  }

  lemma OverStays(w: World, w': World, m: Meteor)
    requires Over(m, w.now) && Later(w, w')
    ensures Over(m, w'.now)
  {
    hide Numbered;
  }

  /** The last change on the log is a deletion by the operator. */
  predicate EndsWithDelete(s: Sys) {
    s.trace != [] && s.trace[|s.trace| - 1].cause.OpDelete?
  }

  lemma ProceedAnswers(w0: World, l: Local, shower: Option<Shower>)
    requires LocalOk(w0, l)
    ensures var (l1, o) := Proceed(l, shower);
      && (o.later ==> !o.requeue && l1.sys.world.meteor == Some(l1.meteor))
      && (o == DONE ==> !l1.sys.up || l1.meteor.deleting || EndsWithDelete(l1.sys))
      && (o.requeue && o.failed ==> Over(l1.meteor, l1.sys.world.now))
      && (!IsTTLReached(l.meteor, l.sys.world.now) && EnsureFinalizers(l).1 && o.failed ==> o.later)
  {
    hide SysOk, Backed, Guarded, Refreshed, Later, Work, EnsureFinalizers, Arrive, IsTTLReached, Apply;
    if IsTTLReached(l.meteor, l.sys.world.now) && !l.meteor.deleting {
      DeleteMeteorOk(w0, l);
      OverStays(l.sys.world, DeleteMeteor(l.sys, l.meteor).sys.world, l.meteor);
    } else {
      EnsureFinalizersOk(w0, l);
      var (l1, ok) := EnsureFinalizers(l);
      if ok && !l1.meteor.deleting && shower.Some? {
        WorkAnswers(w0, l1, shower.value);
      }
    }
  }

  lemma PassAnswers(w0: World, op: Op)
    requires SysOk(w0, op.sys)
    ensures var (op1, o) := Reconcile(op); var read := GetMeteor(op.sys).res;
      && (o.later ==> !o.requeue && op1.sys.world.meteor == Some(op1.meteor))
      && (o == DONE ==> read == Err(NotFound) || !op1.sys.up || op1.meteor.deleting || EndsWithDelete(op1.sys))
      && (o.requeue && o.failed ==> read.Err? || Over(op1.meteor, op1.sys.world.now))
  {
    hide SysOk, Backed, Refreshed, Later, Locate, Proceed, GetMeteor, Refresh, Over;
    GetMeteorOk(w0, op.sys);
    var got := GetMeteor(op.sys);
    if got.res.Ok? {
      var m := got.res.value;
      SoundNow(w0, got.sys);
      RefreshShape(m);
      VersionBacked(got.sys.world, m, Refresh(m).status);
      LocateOk(w0, Local(got.sys, Refresh(m)), op.shower);
      var (l, shower) := Locate(Local(got.sys, Refresh(m)), op.shower);
      ProceedAnswers(w0, l, shower);
    }
  }

  /** In any run, under any faults: a pass that is content to be called again later has left in the store
      exactly the Meteor it holds in memory. A pass that asks for nothing at all found no Meteor, died, holds
      one that is being deleted, or has just deleted it. One that returns an error and asks to be repeated could
      not read the Meteor or not delete an expired one. So whenever the last write of a living Meteor is
      refused or its answer lost, the pass asks to be repeated, or reports the error of an earlier step. */
  lemma {:induction false} NoStatusIsLostInSilence(op: Op, scripts: seq<seq<Plan>>, last: seq<Plan>)
    requires Initial(op)
    ensures var op0 := Resume(Passes(op, scripts), last); var (op1, o) := Reconcile(op0); var read := GetMeteor(op0.sys).res;
      && (o.later ==> !o.requeue && op1.sys.world.meteor == Some(op1.meteor))
      && (!o.later && !o.requeue && !o.failed ==>
            read == Err(NotFound) || !op1.sys.up || op1.meteor.deleting || EndsWithDelete(op1.sys))
      && (o.requeue && o.failed ==>
            read.Err? || op1.meteor.deleting || IsTTLReached(op1.meteor, op1.sys.world.now))
      && (read.Ok? && op1.sys.up && op1.sys.world.meteor != Some(op1.meteor)
          && !op1.meteor.deleting && !IsTTLReached(op1.meteor, op1.sys.world.now) && !EndsWithDelete(op1.sys) ==>
            !o.later && o.requeue != o.failed)
  {
    hide Passes, SysOk, Reconcile, GetMeteor, IsTTLReached, EndsWithDelete;
    InitialOk(op);
    PassesOk(op.sys.world, op, scripts);
    var op0 := Resume(Passes(op, scripts), last);
    HistoryIsFree(op.sys.world, Passes(op, scripts).sys, op0.sys);
    PassAnswers(op.sys.world, op0);
  }

  // ---------------------------------------------------------------- where the pipelines stop

  /** The status says that the run of the pipeline could not be read or not be created. */
  predicate Refused(cs: seq<Condition>, n: string) {
    var c := Lookup(cs, CondKind(n));
    c == Some(Condition(CondKind(n), CondFalse, "Error")) || c == Some(Condition(CondKind(n), CondTrue, "CreateError"))
  }

  /** One pipeline makes one run read. It is refused only with a condition that says so; a run that was
      missing and has been created leaves the condition of a build that was started. */
  lemma RunAnswers(l: Local, shower: Shower, n: string) returns (r: RunRead)
    ensures var (l1, ok) := ReconcilePipelineRun(l, shower, n); var cs := l1.meteor.status.conditions;
      && l1.sys.world.key == l.sys.world.key && l1.meteor.spec == l.meteor.spec
      && l1.sys.seen.runs == l.sys.seen.runs + [r] && r.name == RunName(l.sys.world.key.name, n)
      && (!ok ==> r.found.None? && Refused(cs, n))
      && (ok && r.found.None? && l1.meteor.status.comas != [] ==>
            Lookup(cs, CondKind(n)) == Some(Condition(CondKind(n), CondTrue, "BuildStated")))
  {
    hide Arrive, GetRun, CreateRun, Observe, RunSpecOf, CondKind, RunName, SetCondition, Lookup;
    T.RunMute(l, shower, n);
    var key := l.sys.world.key;
    var m := l.meteor.(status := WithResult(l.meteor.status, key.name, n));
    r := Y.GetRunReads(l.sys, RunName(key.name, n));
    var got := GetRun(l.sys, RunName(key.name, n));
    T.CreateRunWithout(got.sys, RunName(key.name, n), RunSpecOf(key, m, shower, n), m);
    var cs := m.status.conditions;
    LookupAfterSet(cs, Condition(CondKind(n), CondFalse, "Error"), CondKind(n));
    LookupAfterSet(cs, Condition(CondKind(n), CondTrue, "CreateError"), CondKind(n));
    LookupAfterSet(cs, Condition(CondKind(n), CondTrue, "BuildStated"), CondKind(n));
  }

  /** The run reads go through these pipelines, in order. */
  predicate ReadInOrder(meteor: string, names: seq<string>, log: seq<RunRead>) {
    |log| <= |names| && forall i :: 0 <= i < |log| ==> log[i].name == RunName(meteor, names[i])
  }

  /** The loop over pipelines reads one run each, in order, and stops at the first that is refused. */
  lemma {:induction false} PipelinesAnswer(l: Local, shower: Shower, names: seq<string>) returns (log: seq<RunRead>)
    ensures var (l1, ok) := ReconcilePipelines(l, shower, names);
      && l1.sys.seen.runs == l.sys.seen.runs + log && ReadInOrder(l.sys.world.key.name, names, log)
      && l1.meteor.spec == l.meteor.spec
      && (ok ==> |log| == |names|)
      && (!ok ==> log != [] && log[|log| - 1].found.None? && Refused(l1.meteor.status.conditions, names[|log| - 1]))
    decreases |names|
  {
    hide ReconcilePipelineRun, Refused, RunName;
    log := [];
    if names != [] {
      var r := RunAnswers(l, shower, names[0]);
      var (l1, ok) := ReconcilePipelineRun(l, shower, names[0]);
      log := [r];
      if ok {
        var rest := PipelinesAnswer(l1, shower, names[1..]);
        log := [r] + rest;
        assert forall i :: 0 < i < |log| ==> log[i] == rest[i - 1] && names[i] == names[1..][i - 1];
      }
    }
  }

  lemma WriteReads(l: Local, failed: bool)
    ensures var (l1, o) := UpdateStatusNow(l, failed);
      && l1.sys.seen.runs == l.sys.seen.runs && l1.meteor == l.meteor.(rv := l1.meteor.rv) && (o.later ==> o.failed == failed)
  {
    hide Apply, Arrive;
    T.ArriveWithout(l.sys, T.StatusWrites);
  }

  /** The run reads that go with the answer of a pass that came to its last write. */
  ghost predicate ReadsTell(key: Key, l: Local, o: Outcome) {
    var log, names, cs := l.sys.seen.runs, l.meteor.spec.pipelines, l.meteor.status.conditions;
    o.later ==>
      && ReadInOrder(key.name, names, log)
      && (!o.failed ==> |log| == |names|)
      && (o.failed && log != [] ==> log[|log| - 1].found.None? && Refused(cs, names[|log| - 1]))
  }

  lemma WriteTells(key: Key, l: Local, failed: bool)
    requires ReadsTell(key, l, Outcome(false, true, failed))
    ensures var (l1, o) := UpdateStatusNow(l, failed); ReadsTell(key, l1, o)
  {
    hide ReadInOrder, Refused, UpdateStatusNow;
    WriteReads(l, failed);
  }

  lemma NoReadsTell(key: Key, l: Local)
    requires l.sys.seen.runs == []
    ensures ReadsTell(key, l, Outcome(false, true, true))
  {
    hide Refused;
  }

  lemma WorkReads(l: Local, shower: Shower)
    requires l.sys.seen.runs == []
    ensures var (l1, o) := Work(l, shower); ReadsTell(l.sys.world.key, l1, o)
  {
    hide ReconcileComas, ReconcilePipelines, UpdateStatusNow, Refused, ReadInOrder, ReadsTell;
    T.ComasMute(l, shower.services, T.StatusWrites);
    var (l1, ok) := ReconcileComas(l, shower.services);
    if !ok {
      NoReadsTell(l.sys.world.key, l1);
      WriteTells(l.sys.world.key, l1, true);
    } else {
      PipelinesTell(l1, shower);
      var (l2, ok2) := ReconcilePipelines(l1, shower, l1.meteor.spec.pipelines);
      WriteTells(l.sys.world.key, l2, !ok2);
    }
  }

  lemma {:induction false} PipelinesTell(l: Local, shower: Shower)
    requires l.sys.seen.runs == []
    ensures var (l1, ok) := ReconcilePipelines(l, shower, l.meteor.spec.pipelines);
      ReadsTell(l.sys.world.key, l1, Outcome(false, true, !ok))
  {
    hide ReconcilePipelines, Refused, ReadInOrder;
    var log := PipelinesAnswer(l, shower, l.meteor.spec.pipelines);
    assert [] + log == log;
  }

  lemma ProceedReads(l: Local, shower: Option<Shower>)
    requires l.sys.seen.runs == []
    ensures var (l1, o) := Proceed(l, shower); ReadsTell(l.sys.world.key, l1, o)
  {
    hide Work, EnsureFinalizers, DeleteMeteor, ReadInOrder, Refused;
    T.EnsureWithout(l, T.StatusWrites);
    if shower.Some? { WorkReads(EnsureFinalizers(l).0, shower.value); }
  }

  /** A pass that reports no error has read the run of every listed pipeline, in order. One that reports an
      error from its last write has stopped at the first run that it could not read or not create, and the
      status it left says so for that pipeline; or it has read no run at all. Under any faults. */
  lemma AnswerTellsOfTheRuns(op: Op, script: seq<Plan>)
    ensures var op0 := Resume(op, script); var (op1, o) := Reconcile(op0);
      var log, names := op1.sys.seen.runs, op1.meteor.spec.pipelines;
      o.later ==>
        && ReadInOrder(op.sys.world.key.name, names, log)
        && (!o.failed ==> |log| == |names|)
        && (o.failed && log != [] ==>
              log[|log| - 1].found.None? && Refused(op1.meteor.status.conditions, names[|log| - 1]))
  {
    hide Proceed, Locate, GetMeteor, Refresh, ReadInOrder, Refused;
    var op0 := Resume(op, script);
    GetReads(op0.sys);
    var got := GetMeteor(op0.sys);
    if got.res.Ok? {
      var l0 := Local(got.sys, Refresh(got.res.value));
      T.LocateWithoutRuns(l0, op0.shower);
      var (l, shower) := Locate(l0, op0.shower);
      ProceedReads(l, shower);
    }
  }

  lemma GetReads(s: Sys)
    ensures var s1 := GetMeteor(s).sys; s1.world.key == s.world.key && s1.seen.runs == s.seen.runs
  {
    hide Environment;
    T.ArriveWithout(s, T.StatusWrites);
  }

  // ---------------------------------------------------------------- Showers

  /** Which Shower a fault-free pass is left with. A single one is taken whatever the Meteor selects; among
      several, any match brings in the last of the list; otherwise the Shower of an earlier pass stays. */
  lemma ShowerOfAPass(op: Op)
    requires L.Quiet(op.sys) && op.sys.world.meteor.Some?
    ensures var items := op.sys.world.showers; var selector := op.sys.world.meteor.value.selector;
      var shower := Reconcile(op).0.shower;
      && (|items| == 1 ==> shower == Some(items[0]))
      && (|items| > 1 && (exists s :: s in items && selector == Some(s.name)) ==> shower == Some(items[|items| - 1]))
      && (|items| != 1 && (forall s :: s in items ==> selector != Some(s.name)) ==> shower == op.shower)
  {
    hide Proceed, AggregatePhase, Locate, GetMeteor;
    L.QuietRead(op.sys);
    var got := GetMeteor(op.sys);
    L.QuietLocate(Local(got.sys, Refresh(got.res.value)), op.shower);
  }

  /** Finding no Shower is on record before anything else happens: if none is listed, or several without a
      match and none is kept from before, the first change a fault-free pass makes is to write the refreshed
      status, even when it goes on with a Shower kept from before. */
  lemma NoShowerIsOnRecord(op: Op)
    requires L.Quiet(op.sys) && op.sys.world.meteor.Some?
    requires var items := op.sys.world.showers; var selector := op.sys.world.meteor.value.selector;
      items == [] || (|items| > 1 && op.shower == None && forall s :: s in items ==> selector != Some(s.name))
    ensures var t, t1 := op.sys.trace, Reconcile(op).0.sys.trace; var m := op.sys.world.meteor.value;
      && |t| < |t1| && t <= t1 && t1[|t|].cause.OpWriteStatus? && t1[|t|].after.meteor.Some?
      && var m1 := t1[|t|].after.meteor.value;
        && m1 == m.(rv := m1.rv, status := m1.status)
        && m1.status.phase == AggregatePhase(m.status) && m1.status.observedGeneration == m.generation
  {
    hide AggregatePhase, ExpirationOf, Proceed;
    L.QuietRead(op.sys);
    QuietTrace(op.sys);
    var got := GetMeteor(op.sys);
    hide GetMeteor;
    var m := got.res.value;
    RefreshShape(m);
    var l0 := Local(got.sys, Refresh(m));
    QuietTrace(got.sys);
    L.QuietArrive(got.sys);
    var l1 := Local(Arrive(got.sys).sys, Refresh(m));
    FirstIsWrite(l1);
    var (l, shower) := Locate(l0, op.shower);
    assert l == UpdateStatusNow(l1, true).0;
    T.ProceedTells(l, shower);
  }

  lemma QuietTrace(s: Sys)
    requires L.Quiet(s)
    ensures Arrive(s).sys.trace == s.trace && GetMeteor(s).sys.trace == s.trace
  {
    L.QuietArrive(s);
  }

  lemma FirstIsWrite(l: Local)
    requires L.Quiet(l.sys) && L.Current(l.sys.world, l.meteor)
    ensures var t, t1 := l.sys.trace, UpdateStatusNow(l, true).0.sys.trace;
      && |t1| == |t| + 1 && t <= t1 && t1[|t|].cause.OpWriteStatus? && t1[|t|].after.meteor.Some?
      && t1[|t|].after.meteor.value == l.meteor.(rv := t1[|t|].after.meteor.value.rv)
  {
    L.QuietArrive(l.sys);
  }

  /** Without any Shower, now or before, a fault-free pass over a living Meteor writes the refreshed status,
      puts the finalizer in place, and ends the process before it looks at a Coma or a run. */
  lemma PassWithoutShower(op: Op)
    requires L.Quiet(op.sys) && op.sys.world.meteor.Some? && op.sys.world.showers == [] && op.shower == None
    requires var m := op.sys.world.meteor.value; !m.deleting && !IsTTLReached(m, op.sys.world.now)
    ensures var w := op.sys.world; var op1 := Reconcile(op).0; var w1 := op1.sys.world;
      && !op1.sys.up && L.SameButMeteor(w, w1) && w1.meteor.Some?
      && var m, m1 := w.meteor.value, w1.meteor.value;
        && m1 == m.(rv := m1.rv, finalizers := m1.finalizers, status := m1.status)
        && "meteor.zone/finalizer" in m1.finalizers && m1.status.observedGeneration == m.generation
        && m1.status == m.status.(
             phase := AggregatePhase(m.status), expiration := m1.status.expiration, observedGeneration := m.generation)
  {
    hide AggregatePhase, ExpirationOf, GetMeteor, UpdateStatusNow, UpdateFinalizers;
    L.QuietRead(op.sys);
    var got := GetMeteor(op.sys);
    var m := got.res.value;
    RefreshShape(m);
    var l0 := Local(got.sys, Refresh(m));
    L.QuietArrive(got.sys);
    L.QuietWrite(Local(Arrive(got.sys).sys, Refresh(m)), true);
    var (l, shower) := Locate(l0, op.shower);
    assert shower == None && l == UpdateStatusNow(Local(Arrive(got.sys).sys, Refresh(m)), true).0;
    L.SameExpiry(m, l.meteor);
    if FINALIZER !in m.finalizers { UpdateKeepsStatus(l); }
  }

  lemma UpdateKeepsStatus(l: Local)
    requires L.Quiet(l.sys) && l.sys.world.meteor == Some(l.meteor) && !l.meteor.deleting
    ensures var (l1, ok) := UpdateFinalizers(l.sys, l.meteor.(finalizers := AddFinalizer(l.meteor.finalizers)));
      && ok && l1.sys.up && L.SameButMeteor(l.sys.world, l1.sys.world) && l1.sys.world.meteor == Some(l1.meteor)
      && l1.meteor == l.meteor.(rv := l1.meteor.rv, finalizers := l1.meteor.finalizers) && FINALIZER in l1.meteor.finalizers
  {
    L.QuietArrive(l.sys);
  }
}
