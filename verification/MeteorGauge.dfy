/** One phase gauge at a time: while one Meteor lives and its reads are current, every pass leaves
    exactly one phase label lit, whichever of its status writes are lost. */
module MeteorGauge {
  import opened Kube
  import opened MeteorApi
  import opened Cluster
  import opened MeteorPass
  import opened MeteorStatusLemmas
  import opened MeteorSafety
  import opened MeteorTrace

  predicate Lit(g: map<Phase, int>, p: Phase) {
    p in g && g[p] == 1
  }

  /** The label is what the stored status shows or is about to show. */
  predicate Shows(w: World, p: Phase) {
    w.meteor.Some? ==> w.meteor.value.status.phase == p || AggregatePhase(w.meteor.value.status) == p
  }

  /** At most one label is lit, and it goes with the stored status. */
  ghost predicate GaugeOk(op: Op) {
    && (forall p, q :: Lit(op.gauge, p) && Lit(op.gauge, q) ==> p == q)
    && (forall p :: Lit(op.gauge, p) ==> op.sys.world.versions != [] && Shows(op.sys.world, p))
  }

  ghost predicate OneIncarnation(w: World) {
    forall i, j :: 0 <= i < j < |w.versions| ==> w.versions[i].uid == w.versions[j].uid
  }

  // ---------------------------------------------------------------- the stored status keeps showing the label

  /** A Meteor appears in a store without one only by being created, under a fresh UID. */
  lemma AppearsFresh(cause: Cause, w: World)
    requires !w.meteor.Some? && Apply(cause, w).meteor.Some? && !cause.OpUpdate?
    ensures var w' := Apply(cause, w);
      |w'.versions| == |w.versions| + 1 && w'.versions[|w.versions|].uid == w.nextUid
  {
  }

  /** A Meteor does not come back while one incarnation is assumed. */
  lemma NoComeback(e: Entry)
    requires EntryOk(e) && e.before.versions != [] && OneIncarnation(e.after) && !e.before.meteor.Some?
    ensures !e.after.meteor.Some?
  {
    hide Apply, NoOrphan, RecordGrows, StatusSound, Backed, Guarded, TornDown;
    var n := |e.before.versions|;
    assert e.before.versions <= e.after.versions;
    assert e.after.versions[0] == e.before.versions[0] && e.before.versions[0].uid < e.before.nextUid;
    if e.after.meteor.Some? {
      AppearsFresh(e.cause, e.before);
    }
  }

  lemma OneEntryShows(e: Entry, p: Phase)
    requires EntryOk(e) && e.before.versions != [] && OneIncarnation(e.after) && Shows(e.before, p)
    requires e.cause.OpWriteStatus? ==> e.cause.view.status.phase == p
    ensures Shows(e.after, p)
  {
    hide Sound, CauseOk, Apply, AggregatePhase;
    if !e.before.meteor.Some? {
      NoComeback(e);
    } else if e.after.meteor.Some? {
      StatusKept(e.cause, e.before);
    }
  }

  lemma SmallerWorldOneIncarnation(w: World, w': World)
    requires OneIncarnation(w') && w.versions <= w'.versions
    ensures OneIncarnation(w)
  {
    forall i, j | 0 <= i < j < |w.versions| ensures w.versions[i].uid == w.versions[j].uid {
      assert w'.versions[i] == w.versions[i] && w'.versions[j] == w.versions[j];
    }
  }

  lemma {:induction false} ShowsAlong(w0: World, s: Sys, n: nat, p: Phase)
    requires SysOk(w0, s) && OneIncarnation(s.world) && n < |s.trace| && Speaks(s, n, p)
    requires s.trace[n].before.versions != [] && Shows(s.trace[n].before, p)
    ensures Shows(s.world, p)
    decreases |s.trace| - n
  {
    hide Shows, Sound, EntryOk, OneIncarnation, Speaks;
    LaterEntries(w0, s, n);
    SmallerWorldOneIncarnation(s.trace[n].after, s.world);
    OneEntryShows(s.trace[n], p) by { SpeaksNow(s, n, p); }
    if n + 1 < |s.trace| {
      SpeaksNext(w0, s, n, p);
      ShowsAlong(w0, s, n + 1, p);
    }
  }

  lemma SpeaksNow(s: Sys, n: nat, p: Phase)
    requires Speaks(s, n, p) && n < |s.trace|
    ensures s.trace[n].cause.OpWriteStatus? ==> s.trace[n].cause.view.status.phase == p
  {
  }

  lemma SpeaksNext(w0: World, s: Sys, n: nat, p: Phase)
    requires SysOk(w0, s) && Speaks(s, n, p) && n + 1 < |s.trace| && s.trace[n].before.versions != []
    ensures s.trace[n + 1].before == s.trace[n].after && Speaks(s, n + 1, p) && s.trace[n].after.versions != []
  {
    hide Sound, CauseOk, Apply;
    assert EntryOk(s.trace[n]);
  }

  /** Whatever an entry committed is still among the versions at the end. */
  lemma {:induction false} LaterEntries(w0: World, s: Sys, n: nat)
    requires SysOk(w0, s) && n < |s.trace|
    ensures EntryOk(s.trace[n]) && s.trace[n].after.versions <= s.world.versions
    decreases |s.trace| - n
  {
    hide Sound, CauseOk, Apply;
    assert EntryOk(s.trace[n]);
    if n + 1 < |s.trace| {
      LaterEntries(w0, s, n + 1);
      assert EntryOk(s.trace[n + 1]);
    }
  }

  // ---------------------------------------------------------------- the theorem

  /** The read of a pass returned the stored Meteor, or missed for good. */
  predicate FreshRead(op: Op) {
    var got := GetMeteor(op.sys);
    got.res.Ok? ==> got.sys.world.meteor == Some(got.res.value)
  }

  lemma ShowsAcross(w0: World, s: Sys, s': Sys, p: Phase)
    requires SysOk(w0, s) && SysOk(w0, s') && Tells(s, s', p) && OneIncarnation(s'.world)
    requires s.world.versions != [] && Shows(s.world, p)
    ensures Shows(s'.world, p)
  {
    hide Sound, EntryOk, Shows, OneIncarnation;
    var n := |s.trace|;
    if n < |s'.trace| {
      assert s'.trace[n].before == s.world by {
        if n > 0 { assert s'.trace[n - 1] == s.trace[n - 1]; }
      }
      ShowsAlong(w0, s', n, p);
    } else {
      assert s'.trace == s.trace;
      if n == 0 { assert s'.world == w0 == s.world; }
    }
  }

  /** One pass: the gauge stays in step, and if the Meteor was read then exactly one label is lit, the
      aggregate of the conditions that were read. Any of its writes may be lost. */
  lemma PassLightsOne(w0: World, op: Op)
    requires SysOk(w0, op.sys) && GaugeOk(op) && FreshRead(op) && OneIncarnation(Reconcile(op).0.sys.world)
    ensures GaugeOk(Reconcile(op).0)
    ensures var got := GetMeteor(op.sys);
      got.res.Ok? ==> forall p :: Lit(Reconcile(op).0.gauge, p) <==> p == AggregatePhase(got.res.value.status)
  {
    hide SysOk, Sound, OneIncarnation, Reconcile, GetMeteor, AggregatePhase;
    var op1 := Reconcile(op).0;
    ReconcileOk(w0, op);
    var got := GetMeteor(op.sys);
    GetMeteorOk(w0, op.sys);
    ReadFrame(w0, op, got, op1);
    if got.res.Ok? {
      var m := got.res.value;
      PassShows(w0, op);
      Relight(op.gauge, m.status.phase, AggregatePhase(m.status), op1.gauge);
    } else {
      GaugeAfterMiss(op);
    }
  }

  lemma GaugeAfterMiss(op: Op)
    requires GetMeteor(op.sys).res.Err?
    ensures Reconcile(op).0.gauge == op.gauge && Reconcile(op).0.sys == GetMeteor(op.sys).sys
  {
    hide GetMeteor;
  }

  lemma Relight(g: map<Phase, int>, p: Phase, a: Phase, g': map<Phase, int>)
    requires g' == g[p := 0][a := 1]
    requires forall q :: Lit(g, q) ==> q == p || q == a
    ensures forall q :: Lit(g', q) <==> q == a
  {
    forall q ensures Lit(g', q) <==> q == a {
      assert Lit(g, q) ==> q == p || q == a;
    }
  }

  /** After a pass that read the Meteor, the stored status shows the aggregate of what was read. */
  lemma PassShows(w0: World, op: Op)
    requires SysOk(w0, op.sys) && FreshRead(op) && OneIncarnation(Reconcile(op).0.sys.world)
    requires GetMeteor(op.sys).res.Ok?
    ensures var m := GetMeteor(op.sys).res.value; var op1 := Reconcile(op).0; var a := AggregatePhase(m.status);
      op1.gauge == op.gauge[m.status.phase := 0][a := 1] && Shows(op1.sys.world, a) && op1.sys.world.versions != []
  {
    hide SysOk, Sound, OneIncarnation, Locate, Proceed, ScanConditions, GetMeteor;
    var op1 := Reconcile(op).0;
    ReconcileOk(w0, op);
    ReadBeforeEnd(w0, op);
    GetMeteorOk(w0, op.sys);
    var got := GetMeteor(op.sys);
    var m := got.res.value;
    var a := AggregatePhase(m.status);
    RefreshShape(m);
    var l0 := Local(got.sys, Refresh(m));
    LocateTells(l0, op.shower);
    var (l, shower) := Locate(l0, op.shower);
    ProceedTells(l, shower);
    TellsTransitive(got.sys, l.sys, op1.sys, a);
    ShowsAcross(w0, got.sys, op1.sys, a);
  }

  /** Up to the read only the environment acts: lit labels still go with the stored status. */
  lemma ReadFrame(w0: World, op: Op, got: Reply<Meteor>, op1: Op)
    requires SysOk(w0, op.sys) && GaugeOk(op) && got == GetMeteor(op.sys) && SysOk(w0, got.sys)
    requires op1 == Reconcile(op).0 && SysOk(w0, op1.sys) && OneIncarnation(op1.sys.world)
    requires Advances(op.sys, got.sys) && (got.res.Ok? ==> got.res.value in got.sys.world.versions)
    ensures got.sys.world.versions <= op1.sys.world.versions
    ensures forall p :: Lit(op.gauge, p) ==> got.sys.world.versions != [] && Shows(got.sys.world, p)
    ensures got.res.Ok? ==> got.sys.world.versions != []
  {
    hide SysOk, Sound, OneIncarnation, Locate, Proceed, Shows, Refresh;
    assert got.sys.world.versions <= op1.sys.world.versions by { ReadBeforeEnd(w0, op); }
    SmallerWorldOneIncarnation(got.sys.world, op1.sys.world);
    forall p | Lit(op.gauge, p) ensures got.sys.world.versions != [] && Shows(got.sys.world, p) {
      ArriveWithout(op.sys, StatusWrites);
      WithoutTells(op.sys, got.sys, p);
      ShowsAcross(w0, op.sys, got.sys, p);
    }
  }

  lemma ReadBeforeEnd(w0: World, op: Op)
    requires SysOk(w0, op.sys)
    ensures GetMeteor(op.sys).sys.world.versions <= Reconcile(op).0.sys.world.versions
  {
    hide SysOk, Sound, Backed, Locate, Proceed, Refresh;
    GetMeteorOk(w0, op.sys);
    var got := GetMeteor(op.sys);
    if got.res.Ok? {
      var m := got.res.value;
      SoundNow(w0, got.sys);
      RefreshShape(m);
      VersionBacked(got.sys.world, m, Refresh(m).status);
      var l0 := Local(got.sys, Refresh(m));
      LocateOk(w0, l0, op.shower);
      var (l, shower) := Locate(l0, op.shower);
      ProceedOk(w0, l, shower);
    }
  }

  /** Every pass of a run reads the current Meteor. */
  predicate FreshReads(op: Op, scripts: seq<seq<Plan>>)
    decreases |scripts|
  {
    scripts == [] ||
    (FreshRead(Resume(op, scripts[0])) && FreshReads(Reconcile(Resume(op, scripts[0])).0, scripts[1..]))
  }

  lemma {:induction false} GaugeStaysOk(w0: World, op: Op, scripts: seq<seq<Plan>>)
    requires SysOk(w0, op.sys) && GaugeOk(op) && FreshReads(op, scripts)
    requires OneIncarnation(Passes(op, scripts).sys.world)
    ensures GaugeOk(Passes(op, scripts))
    decreases |scripts|
  {
    hide Reconcile, SysOk, OneIncarnation, Shows;
    if scripts != [] {
      var op0 := Resume(op, scripts[0]);
      HistoryIsFree(w0, op.sys, op0.sys);
      ReconcileOk(w0, op0);
      var op1 := Reconcile(op0).0;
      PassesOk(w0, op1, scripts[1..]);
      SmallerWorldOneIncarnation(op1.sys.world, Passes(op, scripts).sys.world);
      PassLightsOne(w0, op0);
      GaugeStaysOk(w0, op1, scripts[1..]);
    }
  }

  /** Exactly one phase label is lit after every pass that read the Meteor, in every run over one
      incarnation with current reads, with any faults, lost writes and operator restarts. */
  lemma {:induction false} ExactlyOnePhaseIsLit(op: Op, scripts: seq<seq<Plan>>, last: seq<Plan>)
    requires Initial(op) && FreshReads(op, scripts)
    requires FreshRead(Resume(Passes(op, scripts), last))
    requires GetMeteor(Resume(Passes(op, scripts), last).sys).res.Ok?
    requires OneIncarnation(Reconcile(Resume(Passes(op, scripts), last)).0.sys.world)
    ensures var before := Resume(Passes(op, scripts), last);
      forall p :: Lit(Reconcile(before).0.gauge, p) <==> p == AggregatePhase(GetMeteor(before.sys).res.value.status)
  {
    hide Reconcile, Passes, SysOk, OneIncarnation, AggregatePhase;
    var w0 := op.sys.world;
    InitialOk(op);
    PassesOk(w0, op, scripts);
    var op1 := Passes(op, scripts);
    var before := Resume(op1, last);
    HistoryIsFree(w0, op1.sys, before.sys);
    ReconcileOk(w0, before);
    SmallerWorldOneIncarnation(op1.sys.world, Reconcile(before).0.sys.world);
    GaugeStaysOk(w0, op, scripts);
    PassLightsOne(w0, before);
  }
}
