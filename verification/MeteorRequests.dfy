/** What the Meteor operator asks of others: the finalizers it leaves on the Meteor, the owner it gives a
    Coma, the run it orders from Tekton, and the expiry it reports. Statements about the logged changes of
    every run, in terms of what is stored. */
module MeteorRequests {
  import opened Kube
  import opened MeteorApi
  import opened Cluster
  import opened MeteorPass
  import opened MeteorSafety
  import opened MeteorStatusLemmas
  import T = MeteorTrace

  // ---------------------------------------------------------------- the Shower behind a run

  /** The host and the services of the run are those that the Shower stands for. */
  predicate Equipped(spec: RunSpec, ttl: int, shower: Shower) {
    && spec.services == shower.services
    && (spec.host.Some? <==> ttl == 0 && shower.persistentHost != "")
    && (spec.host.Some? ==> spec.host.value == shower.persistentHost)
  }

  /** From `s` to `s'`, runs are created with this Shower only. */
  ghost predicate Equips(s: Sys, s': Sys, shower: Shower) {
    && s.trace <= s'.trace
    && forall i :: |s.trace| <= i < |s'.trace| && s'.trace[i].cause.OpCreateRun? ==>
         Equipped(s'.trace[i].cause.runSpec, s'.trace[i].cause.view.spec.ttl, shower)
  }

  lemma EquipsTransitive(a: Sys, b: Sys, c: Sys, shower: Shower)
    requires Equips(a, b, shower) && Equips(b, c, shower)
    ensures Equips(a, c, shower)
  {
    hide Equipped;
    forall i | |a.trace| <= i < |c.trace| && c.trace[i].cause.OpCreateRun?
      ensures Equipped(c.trace[i].cause.runSpec, c.trace[i].cause.view.spec.ttl, shower)
    {
      if i < |b.trace| { assert c.trace[i] == b.trace[i]; }
    }
  }

  lemma WithoutEquips(a: Sys, b: Sys, shower: Shower)
    requires T.Without(a, b, T.RunCreations)
    ensures Equips(a, b, shower)
  {
    hide Equipped;
  }

  lemma CreateRunEquips(s: Sys, name: string, spec: RunSpec, view: Meteor, shower: Shower)
    requires Equipped(spec, view.spec.ttl, shower)
    ensures Equips(s, CreateRun(s, name, spec, view).sys, shower)
  {
    hide Apply, Arrive, Equipped;
    T.ArriveWithout(s, T.RunCreations);
    WithoutEquips(s, Arrive(s).sys, shower);
    EquipsTransitive(s, Arrive(s).sys, CreateRun(s, name, spec, view).sys, shower);
  }

  lemma SpecEquipped(key: Key, m: Meteor, shower: Shower, n: string)
    ensures Equipped(RunSpecOf(key, m, shower, n), m.spec.ttl, shower)
  {
  }

  lemma RunEquips(l: Local, shower: Shower, n: string)
    ensures Equips(l.sys, ReconcilePipelineRun(l, shower, n).0.sys, shower)
  {
    hide Apply, Arrive, Observe, RunSpecOf, CreateRun, Equipped, Equips;
    var key := l.sys.world.key;
    var m := l.meteor.(status := WithResult(l.meteor.status, key.name, n));
    var name := RunName(key.name, n);
    T.ArriveWithout(l.sys, T.RunCreations);
    var got := GetRun(l.sys, name);
    WithoutEquips(l.sys, got.sys, shower);
    if got.res == Err(NotFound) && m.status.comas != [] {
      var spec := RunSpecOf(key, m, shower, n);
      SpecEquipped(key, m, shower, n);
      CreateRunEquips(got.sys, name, spec, m, shower);
      EquipsTransitive(l.sys, got.sys, CreateRun(got.sys, name, spec, m).sys, shower);
    }
  }

  lemma {:induction false} RunsEquip(l: Local, shower: Shower, names: seq<string>)
    ensures Equips(l.sys, ReconcilePipelines(l, shower, names).0.sys, shower)
    decreases |names|
  {
    hide ReconcilePipelineRun, Equipped;
    if names != [] {
      RunEquips(l, shower, names[0]);
      var (l1, ok) := ReconcilePipelineRun(l, shower, names[0]);
      if ok {
        RunsEquip(l1, shower, names[1..]);
        EquipsTransitive(l.sys, l1.sys, ReconcilePipelines(l1, shower, names[1..]).0.sys, shower);
      }
    }
  }

  lemma WorkEquips(l: Local, shower: Shower)
    ensures Equips(l.sys, Work(l, shower).0.sys, shower)
  {
    hide ReconcileComas, ReconcilePipelines, UpdateStatusNow, Equips;
    T.ComasMute(l, shower.services, T.RunCreations);
    var (l1, ok) := ReconcileComas(l, shower.services);
    WithoutEquips(l.sys, l1.sys, shower);
    var l2 := if ok then ReconcilePipelines(l1, shower, l1.meteor.spec.pipelines).0 else l1;
    if ok {
      RunsEquip(l1, shower, l1.meteor.spec.pipelines);
      EquipsTransitive(l.sys, l1.sys, l2.sys, shower);
    }
    var failed := !ok || !ReconcilePipelines(l1, shower, l1.meteor.spec.pipelines).1;
    T.WriteWithoutRuns(l2, failed);
    var s3 := UpdateStatusNow(l2, failed).0.sys;
    WithoutEquips(l2.sys, s3, shower);
    EquipsTransitive(l.sys, l2.sys, s3, shower);
  }

  /** Without a Shower no run is created at all. */
  lemma ProceedEquips(l: Local, shower: Option<Shower>)
    ensures var s1 := Proceed(l, shower).0.sys;
      if shower.Some? then Equips(l.sys, s1, shower.value) else T.Without(l.sys, s1, T.RunCreations)
  {
    hide DeleteMeteor, EnsureFinalizers, Work, Equips;
    if IsTTLReached(l.meteor, l.sys.world.now) && !l.meteor.deleting {
      T.DeleteWithout(l.sys, l.meteor, T.RunCreations);
      if shower.Some? { WithoutEquips(l.sys, DeleteMeteor(l.sys, l.meteor).sys, shower.value); }
    } else {
      T.EnsureWithout(l, T.RunCreations);
      var (l1, ok) := EnsureFinalizers(l);
      if shower.Some? {
        WithoutEquips(l.sys, l1.sys, shower.value);
        WorkEquips(l1, shower.value);
        EquipsTransitive(l.sys, l1.sys, Work(l1, shower.value).0.sys, shower.value);
      }
    }
  }

  /** The Shower was in the cluster at the start, or after one of the logged changes. */
  ghost predicate WasListed(w0: World, t: seq<Entry>, shower: Shower) {
    shower in w0.showers || exists e :: e in t && shower in e.after.showers
  }

  lemma ListedNow(w0: World, s: Sys, shower: Shower)
    requires Chained(w0, s) && shower in s.world.showers
    ensures WasListed(w0, s.trace, shower)
  {
    if s.trace != [] { assert s.trace[|s.trace| - 1] in s.trace; }
  }

  lemma ListedStays(w0: World, t: seq<Entry>, t': seq<Entry>, shower: Shower)
    requires WasListed(w0, t, shower) && t <= t'
    ensures WasListed(w0, t', shower)
  {
    if e :| e in t && shower in e.after.showers { assert e in t'; }
  }

  /** Every run on the log was created with a Shower that had been listed by then. */
  ghost predicate AllEquipped(w0: World, t: seq<Entry>) {
    forall i :: 0 <= i < |t| && t[i].cause.OpCreateRun? ==> EquippedAt(w0, t, i)
  }

  ghost predicate EquippedAt(w0: World, t: seq<Entry>, i: nat)
    requires i < |t| && t[i].cause.OpCreateRun?
  {
    exists shower :: WasListed(w0, t[..i], shower) && Equipped(t[i].cause.runSpec, t[i].cause.view.spec.ttl, shower)
  }

  ghost predicate KeptWasListed(w0: World, t: seq<Entry>, shower: Option<Shower>) {
    shower.Some? ==> WasListed(w0, t, shower.value)
  }

  lemma AllEquippedStep(w0: World, t: seq<Entry>, n: nat, t': seq<Entry>, shower: Shower)
    requires AllEquipped(w0, t) && n <= |t| && t <= t' && WasListed(w0, t, shower)
    requires forall i :: |t| <= i < |t'| && t'[i].cause.OpCreateRun? ==>
               Equipped(t'[i].cause.runSpec, t'[i].cause.view.spec.ttl, shower)
    ensures AllEquipped(w0, t')
  {
    hide Equipped;
    forall i | 0 <= i < |t'| && t'[i].cause.OpCreateRun? ensures EquippedAt(w0, t', i) {
      if i < |t| {
        assert EquippedAt(w0, t, i) && t'[i] == t[i] && t'[..i] == t[..i];
      } else {
        ListedStays(w0, t, t'[..i], shower);
      }
    }
  }

  lemma AllEquippedWithout(w0: World, s: Sys, s': Sys)
    requires AllEquipped(w0, s.trace) && T.Without(s, s', T.RunCreations)
    ensures AllEquipped(w0, s'.trace)
  {
    var t, t' := s.trace, s'.trace;
    forall i | 0 <= i < |t'| && t'[i].cause.OpCreateRun? ensures EquippedAt(w0, t', i) {
      assert i < |t| && EquippedAt(w0, t, i) && t'[i] == t[i] && t'[..i] == t[..i];
    }
  }

  /** The Shower a pass ends up with was listed by the time it is used. */
  lemma LocateWasListed(w0: World, l: Local, previous: Option<Shower>)
    requires LocalOk(w0, l) && KeptWasListed(w0, l.sys.trace, previous)
    ensures var (l1, shower) := Locate(l, previous); KeptWasListed(w0, l1.sys.trace, shower)
  {
    hide SysOk, Backed, Refreshed, WasListed, UpdateStatusNow, Arrive, Later;
    ArriveOk(w0, l.sys);
    var o := FindOwnerShower(l.sys, l.meteor, previous);
    if previous.Some? { ListedStays(w0, l.sys.trace, o.sys.trace, previous.value); }
    ChainedNow(w0, o.sys);
    if o.shower.Some? && o.shower != previous { ListedNow(w0, o.sys, o.shower.value); }
    LocateOk(w0, l, previous);
    T.WriteWithoutRuns(Local(o.sys, l.meteor), true);
    if o.shower.Some? { ListedStays(w0, o.sys.trace, Locate(l, previous).0.sys.trace, o.shower.value); }
  }

  lemma ChainedNow(w0: World, s: Sys)
    requires SysOk(w0, s)
    ensures Chained(w0, s)
  {
  }

  lemma GetWithoutRuns(s: Sys)
    ensures T.Without(s, GetMeteor(s).sys, T.RunCreations)
  {
    hide Environment;
    T.ArriveWithout(s, T.RunCreations);
  }

  lemma PassEquips(w0: World, op: Op)
    requires SysOk(w0, op.sys) && AllEquipped(w0, op.sys.trace) && KeptWasListed(w0, op.sys.trace, op.shower)
    ensures var op1 := Reconcile(op).0; AllEquipped(w0, op1.sys.trace) && KeptWasListed(w0, op1.sys.trace, op1.shower)
  {
    hide SysOk, Backed, Refreshed, Later, Locate, Proceed, GetMeteor, Refresh, AllEquipped, WasListed, Sound, Equipped;
    GetMeteorOk(w0, op.sys);
    GetWithoutRuns(op.sys);
    var got := GetMeteor(op.sys);
    AllEquippedWithout(w0, op.sys, got.sys);
    if op.shower.Some? { ListedStays(w0, op.sys.trace, got.sys.trace, op.shower.value); }
    if got.res.Ok? {
      var m := got.res.value;
      SoundNow(w0, got.sys);
      RefreshShape(m);
      VersionBacked(got.sys.world, m, Refresh(m).status);
      var l0 := Local(got.sys, Refresh(m));
      T.LocateWithoutRuns(l0, op.shower);
      LocateWasListed(w0, l0, op.shower);
      var (l, shower) := Locate(l0, op.shower);
      AllEquippedWithout(w0, got.sys, l.sys);
      ProceedEquips(l, shower);
      var s1 := Proceed(l, shower).0.sys;
      if shower.Some? {
        AllEquippedStep(w0, l.sys.trace, |l.sys.trace|, s1.trace, shower.value);
        ListedStays(w0, l.sys.trace, s1.trace, shower.value);
      } else {
        AllEquippedWithout(w0, l.sys, s1);
      }
    }
  }

  lemma {:induction false} PassesEquip(w0: World, op: Op, scripts: seq<seq<Plan>>)
    requires SysOk(w0, op.sys) && AllEquipped(w0, op.sys.trace) && KeptWasListed(w0, op.sys.trace, op.shower)
    ensures AllEquipped(w0, Passes(op, scripts).sys.trace)
    decreases |scripts|
  {
    hide SysOk, Reconcile, AllEquipped, WasListed;
    if scripts != [] {
      var op0 := Resume(op, scripts[0]);
      HistoryIsFree(w0, op.sys, op0.sys);
      ReconcileOk(w0, op0);
      PassEquips(w0, op0);
      PassesEquip(w0, Reconcile(op0).0, scripts[1..]);
    }
  }

  // ---------------------------------------------------------------- the theorems

  lemma {:induction false} EntryIsOk(op: Op, scripts: seq<seq<Plan>>, i: nat)
    requires Initial(op) && i < |Passes(op, scripts).sys.trace|
    ensures EntryOk(Passes(op, scripts).sys.trace[i])
  {
    hide Passes, EntryOk;
    InitialOk(op);
    PassesOk(op.sys.world, op, scripts);
  }

  /** An update by the operator touches its own finalizer and nothing else. A living Meteor keeps its list,
      with the operator's finalizer behind it; a dying one loses that finalizer only, and goes exactly when
      it held no other. Specification, selector, status and everybody else's finalizers stay. */
  lemma {:induction false} UpdateTouchesOwnFinalizerOnly(op: Op, scripts: seq<seq<Plan>>, i: nat)
    requires Initial(op) && i < |Passes(op, scripts).sys.trace|
    requires Passes(op, scripts).sys.trace[i].cause.OpUpdate?
    ensures var e := Passes(op, scripts).sys.trace[i];
      && e.before.meteor.Some?
      && e.after == e.before.(meteor := e.after.meteor, versions := e.after.versions, nextRv := e.after.nextRv)
      && var m := e.before.meteor.value;
        && (e.after.meteor.None? <==> m.deleting && forall f :: f in m.finalizers ==> f == "meteor.zone/finalizer")
        && (e.after.meteor.Some? ==> var m1 := e.after.meteor.value;
              && m1 == m.(rv := m1.rv, finalizers := m1.finalizers)
              && (forall f :: f != "meteor.zone/finalizer" ==> (f in m1.finalizers <==> f in m.finalizers))
              && (m.deleting ==> "meteor.zone/finalizer" in m.finalizers && "meteor.zone/finalizer" !in m1.finalizers)
              && (!m.deleting ==> m1.finalizers == m.finalizers + ["meteor.zone/finalizer"]))
  {
    hide Passes, Sound, Later, TornDown;
    EntryIsOk(op, scripts, i);
    NobodyElse(Passes(op, scripts).sys.trace[i].cause.view.finalizers);
  }

  lemma NobodyElse(fs: seq<string>)
    ensures fs == [] <==> forall f :: f !in fs
  {
    if fs != [] { assert fs[0] in fs; }
  }

  /** The owner written to a Coma is the Meteor itself, as its controller: its namespace, its name and the
      UID of a committed, undeleted version that held the finalizer. The Coma carries the Meteor's name in a
      real namespace, and nothing else changes. */
  lemma {:induction false} OwnerIsTheMeteor(op: Op, scripts: seq<seq<Plan>>, i: nat)
    requires Initial(op) && i < |Passes(op, scripts).sys.trace|
    requires Passes(op, scripts).sys.trace[i].cause.OpOwnComa?
    ensures var e := Passes(op, scripts).sys.trace[i]; var k, owner := e.cause.coma, e.cause.owner;
      && owner.namespace == e.before.key.namespace && owner.name == e.before.key.name && owner.controller
      && (exists v :: v in e.before.versions && v.uid == owner.uid && FINALIZER in v.finalizers && !v.deleting)
      && k.name == e.before.key.name && k.namespace != "" && k in e.before.comas
      && e.after == e.before.(comas := e.before.comas[k := Coma(e.before.comas[k].uid, Some(owner))])
  {
    hide Passes, Sound, Later;
    EntryIsOk(op, scripts, i);
  }

  lemma {:induction false} RunsAreEquipped(op: Op, scripts: seq<seq<Plan>>)
    requires Initial(op)
    ensures AllEquipped(op.sys.world, Passes(op, scripts).sys.trace)
  {
    hide Passes, SysOk;
    InitialOk(op);
    PassesEquip(op.sys.world, op, scripts);
  }

  /** What a run is created for. It is stored under the Meteor's name and the pipeline's, which was not
      taken; a committed, undeleted version with the finalizer lists the pipeline and has the run's url and
      ref; the owners are Comas of the Meteor, those recorded by that version first, and then the Meteor
      itself, not as controller; services and host are those of a Shower that had been listed, the host
      exactly when the Meteor has no time to live and the Shower a persistent host. */
  lemma {:induction false} RunAsksForTheMeteor(op: Op, scripts: seq<seq<Plan>>, i: nat)
    requires Initial(op) && i < |Passes(op, scripts).sys.trace|
    requires Passes(op, scripts).sys.trace[i].cause.OpCreateRun?
    ensures var t := Passes(op, scripts).sys.trace; var e := t[i]; var key, spec := e.before.key, e.cause.runSpec;
      && e.cause.run == key.name + "-" + spec.pipeline && e.cause.run !in e.before.runs
      && e.after.runs == e.before.runs[e.cause.run := AnyRun(e.before.nextUid, spec, [], false, [])]
      && (exists v, comas, shower ::
            && v in e.before.versions && FINALIZER in v.finalizers && !v.deleting
            && spec.pipeline in v.spec.pipelines && spec.url == v.spec.url && spec.gitRef == v.spec.gitRef
            && spec.owners == comas + [Ref(key.namespace, key.name, v.uid, false)]
            && comas != [] && v.status.comas <= comas
            && (forall r :: r in comas ==> r.name == key.name && r.namespace != "" && !r.controller)
            && WasListed(op.sys.world, t[..i], shower) && Equipped(spec, v.spec.ttl, shower))
  {
    hide Passes, Sound, Later, AllEquipped, WasListed, Equipped, ResultsAgree, UniqueKinds, StageSound;
    EntryIsOk(op, scripts, i);
    RunsAreEquipped(op, scripts);
    var t := Passes(op, scripts).sys.trace;
    var e := t[i];
    var view := e.cause.view;
    var j :| 0 <= j < |e.before.versions| && BackedBy(e.before.versions[j], view);
    assert EquippedAt(op.sys.world, t, i) by { EquippedOne(op.sys.world, t, i); }
    var shower :| WasListed(op.sys.world, t[..i], shower) && Equipped(e.cause.runSpec, view.spec.ttl, shower);
    var v, comas := e.before.versions[j], view.status.comas;
    assert v in e.before.versions;
    assert e.cause.runSpec.owners == comas + [Ref(e.before.key.namespace, e.before.key.name, v.uid, false)];
  }

  lemma EquippedOne(w0: World, t: seq<Entry>, i: nat)
    requires AllEquipped(w0, t) && i < |t| && t[i].cause.OpCreateRun?
    ensures EquippedAt(w0, t, i)
  {
    hide EquippedAt;
  }

  /** A status write changes the status alone, and what it leaves is about the Meteor that is stored: its
      generation, and with a time to live the very moment from which it counts as expired. Without one the
      expiry stored before stays, be it left over from a time to live that was lifted. */
  lemma {:induction false} StatusTellsExpiry(op: Op, scripts: seq<seq<Plan>>, i: nat)
    requires Initial(op) && i < |Passes(op, scripts).sys.trace|
    requires Passes(op, scripts).sys.trace[i].cause.OpWriteStatus?
    ensures var e := Passes(op, scripts).sys.trace[i];
      && e.before.meteor.Some? && e.after.meteor.Some?
      && var m, m1 := e.before.meteor.value, e.after.meteor.value; var expiration := m1.status.expiration;
        && m1 == m.(rv := m1.rv, status := m1.status)
        && m1.status.observedGeneration == m1.generation
        && (m1.spec.ttl != 0 ==>
              expiration.Some? && forall now :: IsTTLReached(m1, now) <==> expiration.value < now)
        && (m1.spec.ttl == 0 ==> expiration == m.status.expiration)
  {
    hide Passes, Sound, Later, Wrap64;
    EntryIsOk(op, scripts, i);
  }
}
