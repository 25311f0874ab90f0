/** Safety of the Meteor protocol over all runs: no recorded Coma outlives its Meteor, the finalizer
    comes before any Coma, the record only grows, and the operator deletes only on a version that had
    expired. */
module MeteorSafety {
  import opened Kube
  import opened MeteorApi
  import opened Cluster
  import opened MeteorPass
  import opened MeteorStatusLemmas

  // ---------------------------------------------------------------- the invariant of the store

  predicate Alive(w: World, r: Ref) {
    var k := Key(r.namespace, r.name);
    k in w.comas && w.comas[k].uid == r.uid
  }

  /** The reference was in the status of some committed version of the Meteor. */
  ghost predicate Recorded(w: World, r: Ref) {
    exists i :: 0 <= i < |w.versions| && r in w.versions[i].status.comas
  }

  /** The claim: a Coma that was ever recorded and still exists is listed by a stored Meteor that
      still carries the finalizer. */
  ghost predicate NoOrphan(w: World) {
    forall r :: Recorded(w, r) && Alive(w, r) ==>
      w.meteor.Some? && r in w.meteor.value.status.comas && FINALIZER in w.meteor.value.finalizers
  }

  /** While one Meteor lives its record of Comas only grows, and its time of creation stays. */
  ghost predicate RecordGrows(w: World) {
    forall i, j :: 0 <= i < j < |w.versions| && w.versions[i].uid == w.versions[j].uid ==>
      w.versions[i].status.comas <= w.versions[j].status.comas && w.versions[i].created == w.versions[j].created
  }

  ghost predicate Numbered(w: World) {
    && (forall i :: 0 <= i < |w.versions| ==> w.versions[i].rv < w.nextRv && w.versions[i].uid < w.nextUid)
    && (forall i, j :: 0 <= i < j < |w.versions| ==> w.versions[i].rv < w.versions[j].rv)
    && (forall k :: k in w.comas ==> w.comas[k].uid < w.nextUid)
    && (forall b :: b in w.comaLog ==> b.uid < w.nextUid)
    && (forall r :: Recorded(w, r) ==> r.uid < w.nextUid)
  }

  ghost predicate Sound(w: World) {
    && Numbered(w)
    && (w.meteor.Some? ==> w.versions != [] && w.meteor.value == w.versions[|w.versions| - 1])
    && (forall i :: 0 <= i < |w.versions| ==> StatusSound(w.key, w.versions[i].status))
    && RecordGrows(w)
    && NoOrphan(w)
  }

  /** What never goes back as the store evolves. */
  ghost predicate Later(w: World, w': World) {
    && w'.key == w.key
    && w.versions <= w'.versions && w.comaLog <= w'.comaLog && w.runLog <= w'.runLog
    && w.nextUid <= w'.nextUid && w.nextRv <= w'.nextRv && w.now <= w'.now
    && (forall r: Ref :: r.uid < w.nextUid && !Alive(w, r) ==> !Alive(w', r))
  }

  // ---------------------------------------------------------------- history

  /** The in-memory Meteor goes back to a committed version: same everything but status, and a record
      that extends the version's record, extended only under the finalizer. */
  ghost predicate Backed(w: World, m: Meteor) {
    && (exists i :: 0 <= i < |w.versions| && BackedBy(w.versions[i], m))
    && StatusSound(w.key, m.status)
    && (forall r :: r in m.status.comas ==> r.uid < w.nextUid)
  }

  ghost predicate BackedBy(v: Meteor, m: Meteor) {
    && m == v.(status := m.status)
    && v.status.comas <= m.status.comas
    && (v.status.comas == m.status.comas || FINALIZER in m.finalizers)
    && (m.spec.ttl == 0 ==> m.status.expiration == v.status.expiration)
  }

  /** The status speaks of the Meteor it belongs to: its generation and, with a time to live, its expiry. */
  predicate Refreshed(m: Meteor) {
    m.status.observedGeneration == m.generation && (m.spec.ttl != 0 ==> m.status.expiration == Some(ExpirationOf(m)))
  }

  /** A committed version with the finalizer stands behind the in-memory Meteor. */
  ghost predicate Guarded(w: World, m: Meteor) {
    && FINALIZER in m.finalizers && !m.deleting
    && exists i :: 0 <= i < |w.versions| && w.versions[i] == m.(status := w.versions[i].status)
  }

  /** Every Coma listed in memory is gone. */
  predicate TornDown(w: World, m: Meteor) {
    forall r :: r in m.status.comas ==> !Alive(w, r)
  }

  /** The view is the Meteor `v` with the operator's own finalizer added at the end, or, under deletion,
      taken out; the finalizers of others are as they were. */
  ghost predicate FinalizerEdit(v: Meteor, view: Meteor) {
    && view == v.(finalizers := view.finalizers, status := view.status)
    && (forall f :: f != FINALIZER ==> (f in view.finalizers <==> f in v.finalizers))
    && (!v.deleting ==> FINALIZER !in v.finalizers && view.finalizers == v.finalizers + [FINALIZER])
    && (v.deleting ==> FINALIZER in v.finalizers && FINALIZER !in view.finalizers)
  }

  /** The reference is to the Meteor as its controller; a committed, undeleted version with the finalizer
      has its UID. */
  ghost predicate NamesMeteor(w: World, owner: Ref) {
    && owner.namespace == w.key.namespace && owner.name == w.key.name && owner.controller
    && exists v :: v in w.versions && v.uid == owner.uid && FINALIZER in v.finalizers && !v.deleting
  }

  /** What a run is created for, as far as the Meteor decides it. */
  ghost predicate AsksFor(key: Key, name: string, spec: RunSpec, view: Meteor) {
    && name == key.name + "-" + spec.pipeline && spec.pipeline in view.spec.pipelines
    && spec.url == view.spec.url && spec.gitRef == view.spec.gitRef
    && spec.owners == view.status.comas + [Ref(key.namespace, key.name, view.uid, false)]
  }

  ghost predicate CauseOk(cause: Cause, before: World) {
    match cause
    case OpWriteStatus(view, _) =>
      before.meteor.Some? && BackedBy(before.meteor.value, view) && Refreshed(view)
    case OpOwnComa(k, owner) =>
      k in before.comas && k.name == before.key.name && k.namespace != "" && NamesMeteor(before, owner)
    case OpCreateComa(k, view) => k.name == before.key.name && k.namespace != "" && Guarded(before, view)
    case OpDelete(view) =>
      before.meteor.Some? && IsTTLReached(view, before.now) && !view.deleting && Backed(before, view)
    case OpUpdate(view) =>
      && before.meteor.Some? && before.meteor.value.status.comas <= view.status.comas
      && (FINALIZER in view.finalizers || TornDown(before, view))
      && FinalizerEdit(before.meteor.value, view)
    case OpCreateRun(name, spec, view) =>
      && name !in before.runs && Guarded(before, view) && Backed(before, view)
      && view.status.comas != [] && AsksFor(before.key, name, spec, view)
    case _ => true
  }

  ghost predicate EntryOk(e: Entry) {
    && e.after == Apply(e.cause, e.before)
    && Sound(e.before) && Sound(e.after) && Later(e.before, e.after)
    && CauseOk(e.cause, e.before)
  }

  /** The trace is complete: it starts at the store `w0`, every entry begins where the one before
      ended, and it ends at the current store. */
  ghost predicate Chained(w0: World, s: Sys) {
    && (s.trace == [] ==> s.world == w0)
    && (s.trace != [] ==> s.trace[0].before == w0 && s.trace[|s.trace| - 1].after == s.world)
    && (forall i :: 0 < i < |s.trace| ==> s.trace[i].before == s.trace[i - 1].after)
  }

  ghost predicate SysOk(w0: World, s: Sys) {
    && Sound(s.world)
    && Chained(w0, s)
    && forall i :: 0 <= i < |s.trace| ==> EntryOk(s.trace[i])
  }

  ghost predicate Advances(s: Sys, s': Sys) {
    Later(s.world, s'.world) && s.trace <= s'.trace
  }

  ghost predicate LocalOk(w0: World, l: Local) {
    SysOk(w0, l.sys) && Backed(l.sys.world, l.meteor) && Refreshed(l.meteor)
  }

  // ---------------------------------------------------------------- committed changes keep the store sound

  lemma RecordedAfterPut(w: World, m: Meteor, r: Ref)
    ensures Recorded(Put(w, m), r) <==> Recorded(w, r) || r in m.status.comas
  {
    var w' := Put(w, m);
    if Recorded(w, r) {
      var i :| 0 <= i < |w.versions| && r in w.versions[i].status.comas;
      assert w'.versions[i] == w.versions[i];
    }
    if r in m.status.comas {
      assert r in w'.versions[|w.versions|].status.comas;
    }
  }

  lemma PutKeepsRecordGrowing(w: World, m: Meteor)
    requires Sound(w) && w.meteor.Some?
    requires m.uid == w.meteor.value.uid && m.created == w.meteor.value.created
    requires w.meteor.value.status.comas <= m.status.comas
    ensures RecordGrows(Put(w, m))
  {
    var w' := Put(w, m);
    var n := |w.versions|;
    forall i | 0 <= i < n && w'.versions[i].uid == w'.versions[n].uid
      ensures w'.versions[i].status.comas <= w'.versions[n].status.comas && w'.versions[i].created == w'.versions[n].created
    {
      assert i < n - 1 ==> w.versions[i].status.comas <= w.versions[n - 1].status.comas;
    }
  }

  lemma PutSound(w: World, m: Meteor)
    requires Sound(w) && w.meteor.Some?
    requires m.uid == w.meteor.value.uid && m.created == w.meteor.value.created && StatusSound(w.key, m.status)
    requires w.meteor.value.status.comas <= m.status.comas
    requires forall r :: r in m.status.comas ==> r.uid < w.nextUid
    requires forall r :: r in m.status.comas && Alive(w, r) ==> FINALIZER in m.finalizers
    ensures Sound(Put(w, m)) && Later(w, Put(w, m))
  {
    hide RecordGrows, Recorded, StatusSound;
    var w' := Put(w, m);
    PutKeepsRecordGrowing(w, m);
    forall r ensures Recorded(w', r) <==> Recorded(w, r) || r in m.status.comas { RecordedAfterPut(w, m, r); }
  }

  lemma DropSound(w: World)
    requires Sound(w) && w.meteor.Some?
    requires forall r :: r in w.meteor.value.status.comas ==> !Alive(w, r)
    ensures Sound(Drop(w)) && Later(w, Drop(w))
  {
    var w' := Drop(w);
    assert forall r :: Recorded(w', r) <==> Recorded(w, r);
    assert forall r: Ref :: Alive(w', r) <==> Alive(w, r);
  }

  lemma PutOrDropSound(w: World, m: Meteor)
    requires Sound(w) && w.meteor.Some?
    requires m.uid == w.meteor.value.uid && m.created == w.meteor.value.created && m.status == w.meteor.value.status
    requires forall r :: r in m.status.comas && Alive(w, r) ==> FINALIZER in m.finalizers
    ensures Sound(PutOrDrop(w, m)) && Later(w, PutOrDrop(w, m))
  {
    var n := |w.versions|;
    assert forall r :: r in m.status.comas ==> r in w.versions[n - 1].status.comas && Recorded(w, r);
    assert StatusSound(w.key, w.versions[n - 1].status);
    if m.deleting && m.finalizers == [] { DropSound(w); } else { PutSound(w, m); }
  }

  /** The stored Meteor itself satisfies the finalizer condition. */
  lemma StoredIsGuarded(w: World)
    requires Sound(w) && w.meteor.Some?
    ensures forall r :: r in w.meteor.value.status.comas && Alive(w, r) ==> FINALIZER in w.meteor.value.finalizers
    ensures StatusSound(w.key, w.meteor.value.status)
    ensures forall r :: r in w.meteor.value.status.comas ==> r.uid < w.nextUid
  {
    var n := |w.versions|;
    assert forall r :: r in w.meteor.value.status.comas ==> r in w.versions[n - 1].status.comas && Recorded(w, r);
  }

  lemma MarkDeletedSound(w: World)
    requires Sound(w) && w.meteor.Some?
    ensures Sound(MarkDeleted(w)) && Later(w, MarkDeleted(w))
  {
    hide Sound, Later, PutOrDrop, Alive;
    NothingHappens(w);
    StoredIsGuarded(w);
    var m := w.meteor.value;
    if !m.deleting {
      PutOrDropSound(w, m.(deleting := true, generation := m.generation + 1));
    }
  }

  lemma ComasChangeSound(w: World, w': World)
    requires Sound(w) && w' == w.(comas := w'.comas, comaLog := w'.comaLog, nextUid := w'.nextUid)
    requires w.nextUid <= w'.nextUid && w.comaLog <= w'.comaLog
    requires forall k :: k in w'.comas ==> w'.comas[k].uid < w'.nextUid
    requires forall b :: b in w'.comaLog ==> b.uid < w'.nextUid
    requires forall r: Ref :: r.uid < w.nextUid && Alive(w', r) ==> Alive(w, r)
    ensures Sound(w') && Later(w, w')
  {
    assert forall r :: Recorded(w', r) <==> Recorded(w, r);
  }

  lemma AddComaSound(w: World, k: Key)
    requires Sound(w) && k !in w.comas
    ensures Sound(AddComa(w, k)) && Later(w, AddComa(w, k))
  {
    ComasChangeSound(w, AddComa(w, k));
  }

  lemma DeleteComaSound(w: World, k: Key)
    requires Sound(w)
    ensures var w1 := w.(comas := w.comas - {k}); Sound(w1) && Later(w, w1)
  {
    ComasChangeSound(w, w.(comas := w.comas - {k}));
  }

  lemma RunsChangeSound(w: World, w': World)
    requires Sound(w) && w' == w.(runs := w'.runs, runLog := w'.runLog, nextUid := w'.nextUid)
    requires w.nextUid <= w'.nextUid && w.runLog <= w'.runLog
    ensures Sound(w') && Later(w, w')
  {
    assert forall r :: Recorded(w', r) <==> Recorded(w, r);
    assert forall r: Ref :: Alive(w', r) <==> Alive(w, r);
  }

  lemma EmptyStatusSound(key: Key)
    ensures StatusSound(key, EMPTY_STATUS)
  {
  }

  lemma CreateMeteorSound(w: World, m: Meteor)
    requires Sound(w) && w.meteor.None? && m.status == EMPTY_STATUS && m.uid == w.nextUid
    ensures var w' := Put(w, m).(nextUid := w.nextUid + 1); Sound(w') && Later(w, w')
  {
    hide StatusSound, Recorded, RecordGrows;
    EmptyStatusSound(w.key);
    var w' := Put(w, m).(nextUid := w.nextUid + 1);
    forall r ensures Recorded(w', r) <==> Recorded(w, r) { RecordedInNew(w, m, r); }
    NewRecordGrows(w, m);
  }

  lemma RecordedInNew(w: World, m: Meteor, r: Ref)
    requires m.status == EMPTY_STATUS
    ensures Recorded(Put(w, m).(nextUid := w.nextUid + 1), r) <==> Recorded(w, r)
  {
    RecordedAfterPut(w, m, r);
    assert Put(w, m).(nextUid := w.nextUid + 1).versions == Put(w, m).versions;
  }

  lemma NewRecordGrows(w: World, m: Meteor)
    requires RecordGrows(w) && m.uid == w.nextUid && forall i :: 0 <= i < |w.versions| ==> w.versions[i].uid < w.nextUid
    ensures RecordGrows(Put(w, m).(nextUid := w.nextUid + 1))
  {
  }

  /** A user or a third party acts on the stored Meteor. */
  lemma MeteorEventSound(w: World, e: Event)
    requires Sound(w) && w.meteor.Some?
    requires e.UserDeletes? || e.UserEditsSpec? || e.UserEditsLabel? || e.OthersEditFinalizers?
    ensures Sound(Happen(w, e)) && Later(w, Happen(w, e))
  {
    hide Sound, Later, PutOrDrop, Put, Alive;
    var m := w.meteor.value;
    StoredIsGuarded(w);
    match e
    case UserDeletes => MarkDeletedSound(w);
    case UserEditsSpec(spec) => PutSound(w, m.(spec := spec, generation := m.generation + 1));
    case UserEditsLabel(selector) => PutSound(w, m.(selector := selector));
    case OthersEditFinalizers(fs) =>
      if Happen(w, e) != w { PutOrDropSound(w, m.(finalizers := fs)); } else { NothingHappens(w); }
  }

  lemma NothingHappens(w: World)
    ensures Later(w, w)
  {
  }

  /** The environment cannot break the invariant. */
  lemma HappenSound(w: World, e: Event)
    requires Sound(w)
    ensures Sound(Happen(w, e)) && Later(w, Happen(w, e))
  {
    hide Sound, Later, PutOrDrop, Put;
    NothingHappens(w);
    match e
    case UserCreates(spec, selector, finalizers) =>
      if w.meteor.None? {
        CreateMeteorSound(w, Meteor(w.nextUid, 0, 1, w.now / SECOND, finalizers, false, selector, spec, EMPTY_STATUS));
      }
    case UserCreatesComa(k) => if k !in w.comas { AddComaSound(w, k); }
    case UserDeletesComa(k) => DeleteComaSound(w, k);
    case OthersCreateRun(name, spec) => RunsChangeSound(w, Happen(w, e));
    case RunDeleted(name) => RunsChangeSound(w, Happen(w, e));
    case TektonReports(name, conditions, completed, results) => RunsChangeSound(w, Happen(w, e));
    case ShowersChange(showers) => OtherChangeSound(w, Happen(w, e));
    case TimePasses(nanos) => OtherChangeSound(w, Happen(w, e));
    case _ => if w.meteor.Some? { MeteorEventSound(w, e); }
  }

  lemma OtherChangeSound(w: World, w': World)
    requires Sound(w) && w' == w.(showers := w'.showers, now := w'.now) && w.now <= w'.now
    ensures Sound(w') && Later(w, w')
  {
    assert forall r :: Recorded(w', r) <==> Recorded(w, r);
    assert forall r: Ref :: Alive(w', r) <==> Alive(w, r);
  }

  // ---------------------------------------------------------------- calls

  /** A change that is allowed, and keeps the store sound, extends the history. */
  lemma EffectOk(w0: World, s: Sys, cause: Cause)
    requires SysOk(w0, s) && CauseOk(cause, s.world)
    requires Sound(Apply(cause, s.world)) && Later(s.world, Apply(cause, s.world))
    ensures SysOk(w0, Effect(s, cause)) && Advances(s, Effect(s, cause))
  {
    hide Sound, Later, CauseOk, Apply;
  }

  lemma AdvancesTransitive(a: Sys, b: Sys, c: Sys)
    requires Advances(a, b) && Advances(b, c)
    ensures Advances(a, c)
  {
  }

  lemma {:induction false} EnvironmentOk(w0: World, s: Sys, es: seq<Event>)
    requires SysOk(w0, s)
    ensures SysOk(w0, Environment(s, es)) && Advances(s, Environment(s, es))
    ensures Environment(s, es).up == s.up
    decreases |es|
  {
    if es != [] {
      HappenSound(s.world, es[0]);
      var s1 := Effect(s, Env(es[0]));
      EffectOk(w0, s, Env(es[0]));
      EnvironmentOk(w0, s1, es[1..]);
      AdvancesTransitive(s, s1, Environment(s, es));
    }
  }

  lemma ArriveOk(w0: World, s: Sys)
    requires SysOk(w0, s)
    ensures SysOk(w0, Arrive(s).sys) && Advances(s, Arrive(s).sys)
  {
    hide Sound, EntryOk;
    if s.up && s.script != [] {
      var s0 := s.(script := s.script[1..]);
      HistoryIsFree(w0, s, s0);
      EnvironmentOk(w0, s0, s.script[0].env);
      HistoryIsFree(w0, Environment(s0, s.script[0].env), Arrive(s).sys);
    }
  }

  lemma BackedStable(w: World, w': World, m: Meteor)
    requires Backed(w, m) && Later(w, w')
    ensures Backed(w', m)
  {
    var i :| 0 <= i < |w.versions| && BackedBy(w.versions[i], m);
    assert w'.versions[i] == w.versions[i];
  }

  lemma GuardedStable(w: World, w': World, m: Meteor)
    requires Guarded(w, m) && Later(w, w')
    ensures Guarded(w', m)
  {
    var i :| 0 <= i < |w.versions| && w.versions[i] == m.(status := w.versions[i].status);
    assert w'.versions[i] == w.versions[i];
  }

  /** A matching resource version means the stored Meteor is the version that was read. */
  lemma MatchMeansStored(w: World, m: Meteor)
    requires Sound(w) && Matches(w, m) && Backed(w, m)
    ensures BackedBy(w.meteor.value, m)
  {
    var i :| 0 <= i < |w.versions| && BackedBy(w.versions[i], m);
    var n := |w.versions| - 1;
    assert w.versions[i].rv == w.versions[n].rv;
    assert i == n;
  }

  lemma VersionBacked(w: World, v: Meteor, st: MeteorStatus)
    requires Sound(w) && v in w.versions
    requires st.comas == v.status.comas && st.conditions == v.status.conditions
    requires st.pipelines == v.status.pipelines && st.stage == v.status.stage
    requires v.spec.ttl == 0 ==> st.expiration == v.status.expiration
    ensures Backed(w, v.(status := st))
  {
    var i :| 0 <= i < |w.versions| && w.versions[i] == v;
    assert StatusSound(w.key, w.versions[i].status);
    assert BackedBy(w.versions[i], v.(status := st));
    assert forall x :: x in st.comas ==> Recorded(w, x);
  }

  /** The status computed at the start of a pass keeps everything but phase, expiry and generation. */
  lemma RefreshShape(m: Meteor)
    ensures Refresh(m) == m.(status := Refresh(m).status)
    ensures Refresh(m).status == m.status.(
      phase := AggregatePhase(m.status), expiration := Refresh(m).status.expiration, observedGeneration := m.generation)
    ensures m.spec.ttl == 0 ==> Refresh(m).status.expiration == m.status.expiration
    ensures Refreshed(Refresh(m))
  {
  }

  lemma GetMeteorOk(w0: World, s: Sys)
    requires SysOk(w0, s)
    ensures var r := GetMeteor(s); SysOk(w0, r.sys) && Advances(s, r.sys)
    ensures var r := GetMeteor(s); r.res.Ok? ==> r.res.value in r.sys.world.versions
  {
    hide SysOk, Sound, Later;
    ArriveOk(w0, s);
    SoundNow(w0, Arrive(s).sys);
    HistoryIsFree(w0, Arrive(s).sys, GetMeteor(s).sys);
    StoredIsVersion(Arrive(s).sys.world);
  }

  lemma StoredIsVersion(w: World)
    requires Sound(w)
    ensures w.meteor.Some? ==> w.meteor.value in w.versions
  {
  }

  /** A committed status write keeps the store sound, and the in-memory Meteor is the new version. */
  lemma StatusWriteSound(w: World, m: Meteor)
    requires Sound(w) && Backed(w, m) && Matches(w, m)
    ensures var w1 := Put(w, w.meteor.value.(status := m.status));
      Sound(w1) && Later(w, w1) && w1.versions[|w.versions|] == m.(rv := w.nextRv) && Backed(w1, m.(rv := w.nextRv))
    ensures BackedBy(w.meteor.value, m)
  {
    MatchMeansStored(w, m);
    StoredIsGuarded(w);
    PutSound(w, w.meteor.value.(status := m.status));
    var w1 := Put(w, w.meteor.value.(status := m.status));
    assert BackedBy(w1.versions[|w.versions|], m.(rv := w.nextRv));
  }

  /** The history variables have no part in the invariant. */
  lemma HistoryIsFree(w0: World, s: Sys, s': Sys)
    requires SysOk(w0, s) && s'.world == s.world && s'.trace == s.trace
    ensures SysOk(w0, s')
  {
  }

  lemma WriteStatusOk(w0: World, l: Local, failed: bool)
    requires LocalOk(w0, l)
    ensures var l1 := UpdateStatusNow(l, failed).0; LocalOk(w0, l1) && Advances(l.sys, l1.sys)
    ensures var l1 := UpdateStatusNow(l, failed).0; l1.meteor == l.meteor.(rv := l1.meteor.rv)
  {
    hide SysOk, Sound, Later, Backed;
    ArriveOk(w0, l.sys);
    var a := Arrive(l.sys);
    var w := a.sys.world;
    var m := l.meteor;
    BackedStable(l.sys.world, w, m);
    SoundNow(w0, a.sys);
    if Matches(w, m) {
      StatusWriteSound(w, m);
      var w1 := Put(w, w.meteor.value.(status := m.status));
      EffectOk(w0, a.sys, OpWriteStatus(m, l.sys.seen));
      BackedStable(w, w1, m);
      var s1 := Effect(a.sys, OpWriteStatus(m, l.sys.seen));
      HistoryIsFree(w0, s1, Land(s1, w.meteor.value.uid));
      AdvancesTransitive(l.sys, a.sys, s1);
    }
  }

  lemma DeleteMeteorOk(w0: World, l: Local)
    requires LocalOk(w0, l) && IsTTLReached(l.meteor, l.sys.world.now) && !l.meteor.deleting
    ensures var r := DeleteMeteor(l.sys, l.meteor); SysOk(w0, r.sys) && Advances(l.sys, r.sys) && Backed(r.sys.world, l.meteor)
  {
    hide SysOk, Sound, Backed, MarkDeleted;
    ArriveOk(w0, l.sys);
    var a := Arrive(l.sys);
    var w := a.sys.world;
    SoundNow(w0, a.sys);
    BackedStable(l.sys.world, w, l.meteor);
    if w.meteor.Some? {
      MarkDeletedSound(w);
      EffectOk(w0, a.sys, OpDelete(l.meteor));
      BackedStable(w, MarkDeleted(w), l.meteor);
    }
  }

  // ---------------------------------------------------------------- finalizer protocol

  /** A committed finalizer write, with the in-memory finalizers edited to `fs`. */
  lemma FinalizerWriteSound(w: World, m: Meteor, fs: seq<string>)
    requires Sound(w) && Backed(w, m) && Matches(w, m)
    requires FINALIZER in fs || TornDown(w, m)
    ensures var w1 := PutOrDrop(w, m.(finalizers := fs, status := StoredStatus(w))); Sound(w1) && Later(w, w1)
    ensures var w1 := PutOrDrop(w, m.(finalizers := fs, status := StoredStatus(w)));
      FINALIZER in fs ==>
        var m1 := m.(finalizers := fs, rv := w.nextRv);
        Backed(w1, m1) && (!m.deleting ==> Guarded(w1, m1))
    ensures w.meteor.value.status.comas <= m.status.comas
    ensures w.meteor.value == m.(status := w.meteor.value.status)
  {
    MatchMeansStored(w, m);
    StoredIsGuarded(w);
    var stored := m.(finalizers := fs, status := StoredStatus(w));
    PutOrDropSound(w, stored);
    if FINALIZER in fs {
      var w1 := Put(w, stored);
      var m1 := m.(finalizers := fs, rv := w.nextRv);
      assert BackedBy(w1.versions[|w.versions|], m1);
    }
  }

  lemma SoundNow(w0: World, s: Sys)
    requires SysOk(w0, s)
    ensures Sound(s.world)
  {
  }

  /** A Coma that is gone stays gone: its UID is never handed out again. */
  lemma TornDownStable(w: World, w': World, m: Meteor, m1: Meteor)
    requires TornDown(w, m) && Backed(w, m) && Later(w, w') && m1.status == m.status
    ensures TornDown(w', m) && TornDown(w', m1)
  {
  }

  lemma UpdateFinalizersOk(w0: World, s: Sys, m: Meteor, fs: seq<string>)
    requires SysOk(w0, s) && Backed(s.world, m) && FinalizerEdit(m, m.(finalizers := fs))
    requires FINALIZER in fs || TornDown(s.world, m)
    ensures var (l1, ok) := UpdateFinalizers(s, m.(finalizers := fs));
      && SysOk(w0, l1.sys) && Advances(s, l1.sys)
      && (ok && FINALIZER in fs ==> Backed(l1.sys.world, l1.meteor) && (!m.deleting ==> Guarded(l1.sys.world, l1.meteor)))
      && l1.meteor == m.(finalizers := fs, rv := l1.meteor.rv)
  {
    hide SysOk, Sound, Later, Backed, Guarded, PutOrDrop, TornDown;
    var m1 := m.(finalizers := fs);
    ArriveOk(w0, s);
    var a := Arrive(s);
    var w := a.sys.world;
    BackedStable(s.world, w, m);
    if FINALIZER !in fs { TornDownStable(s.world, w, m, m1); }
    SoundNow(w0, a.sys);
    if Matches(w, m) {
      FinalizerWriteSound(w, m, fs);
      SameEdit(w.meteor.value, m, m1);
      EffectOk(w0, a.sys, OpUpdate(m1));
      AdvancesTransitive(s, a.sys, Effect(a.sys, OpUpdate(m1)));
    }
  }

  lemma SameEdit(v: Meteor, m: Meteor, m1: Meteor)
    requires FinalizerEdit(m, m1) && v == m.(status := v.status)
    ensures FinalizerEdit(v, m1)
  {
  }

  lemma DeleteComaAllowed(w: World, k: Key)
    ensures CauseOk(OpDeleteComa(k), w)
  {
  }

  /** One deletion call; when it succeeds, no Coma under the key is left. */
  lemma DeleteComaOk(w0: World, s: Sys, k: Key)
    requires SysOk(w0, s)
    ensures var r := DeleteComa(s, k);
      SysOk(w0, r.sys) && Advances(s, r.sys) && (r.res.Ok? ==> k !in r.sys.world.comas)
  {
    hide SysOk, Sound, CauseOk, Later;
    ArriveOk(w0, s);
    var a := Arrive(s);
    SoundNow(w0, a.sys);
    DeleteComaSound(a.sys.world, k);
    if k in a.sys.world.comas {
      DeleteComaAllowed(a.sys.world, k);
      EffectOk(w0, a.sys, OpDeleteComa(k));
      AdvancesTransitive(s, a.sys, Effect(a.sys, OpDeleteComa(k)));
    }
  }

  lemma GoneStays(s: Sys, s1: Sys, r: Ref)
    requires Advances(s, s1) && r.uid < s.world.nextUid && !Alive(s.world, r)
    ensures !Alive(s1.world, r)
  {
  }

  lemma UidsGrow(s: Sys, s1: Sys)
    requires Advances(s, s1)
    ensures s.world.nextUid <= s1.world.nextUid
  {
  }

  lemma SameAdvances(s: Sys)
    ensures Advances(s, s)
  {
  }

  /** A teardown that ran to its end leaves none of the listed Comas alive. */
  lemma {:induction false} DeleteComasOk(w0: World, s: Sys, refs: seq<Ref>)
    requires SysOk(w0, s)
    ensures var (s1, ok) := DeleteComas(s, refs);
      && SysOk(w0, s1) && Advances(s, s1)
      && (ok ==> forall r :: r in refs && r.uid < s.world.nextUid ==> !Alive(s1.world, r))
    decreases |refs|
  {
    hide SysOk, Advances, DeleteComa;
    SameAdvances(s);
    if refs != [] {
      var k := Key(refs[0].namespace, refs[0].name);
      DeleteComaOk(w0, s, k);
      var r := DeleteComa(s, k);
      if r.res.Ok? {
        assert !Alive(r.sys.world, refs[0]);
        UidsGrow(s, r.sys);
        DeleteComasOk(w0, r.sys, refs[1..]);
        var s1 := DeleteComas(r.sys, refs[1..]).0;
        AdvancesTransitive(s, r.sys, s1);
        if refs[0].uid < s.world.nextUid { GoneStays(r.sys, s1, refs[0]); }
        assert refs == [refs[0]] + refs[1..];
      }
    }
  }

  lemma EnsureFinalizersOk(w0: World, l: Local)
    requires LocalOk(w0, l)
    ensures var (l1, ok) := EnsureFinalizers(l);
      && SysOk(w0, l1.sys) && Advances(l.sys, l1.sys)
      && l1.meteor.status == l.meteor.status && l1.meteor.spec == l.meteor.spec
      && (ok && !l1.meteor.deleting ==> LocalOk(w0, l1) && Guarded(l1.sys.world, l1.meteor))
  {
    hide SysOk, Sound, Backed, Guarded, FinalizerEdit, AddFinalizer, UpdateFinalizers, DeleteComas;
    var m := l.meteor;
    NothingHappens(l.sys.world);
    FinalizerEdits(m);
    if !m.deleting {
      if FINALIZER in m.finalizers {
        BackedIsGuarded(l.sys.world, m);
      } else {
        UpdateFinalizersOk(w0, l.sys, m, AddFinalizer(m.finalizers));
      }
    } else if FINALIZER in m.finalizers {
      DeleteComasOk(w0, l.sys, m.status.comas);
      var (s, ok) := DeleteComas(l.sys, m.status.comas);
      if ok {
        BackedStable(l.sys.world, s.world, m);
        BackedUids(l.sys.world, m);
        UpdateFinalizersOk(w0, s, m, RemoveFinalizer(m.finalizers));
      }
    }
  }

  lemma FinalizerEdits(m: Meteor)
    ensures !m.deleting && FINALIZER !in m.finalizers ==> FinalizerEdit(m, m.(finalizers := AddFinalizer(m.finalizers)))
    ensures m.deleting && FINALIZER in m.finalizers ==> FinalizerEdit(m, m.(finalizers := RemoveFinalizer(m.finalizers)))
    ensures FINALIZER in AddFinalizer(m.finalizers)
  {
  }

  lemma BackedUids(w: World, m: Meteor)
    requires Backed(w, m)
    ensures forall r :: r in m.status.comas ==> r.uid < w.nextUid
  {
  }

  lemma BackedIsGuarded(w: World, m: Meteor)
    requires Backed(w, m) && FINALIZER in m.finalizers && !m.deleting
    ensures Guarded(w, m)
  {
  }

  // ---------------------------------------------------------------- Comas and runs

  /** What holds while Comas and runs are worked on. */
  ghost predicate Ready(w0: World, l: Local) {
    LocalOk(w0, l) && Guarded(l.sys.world, l.meteor)
  }

  lemma ReadyStable(w0: World, l: Local, s: Sys)
    requires Ready(w0, l) && SysOk(w0, s) && Advances(l.sys, s)
    ensures Ready(w0, Local(s, l.meteor))
  {
    hide SysOk, Later, Backed, Guarded;
    BackedStable(l.sys.world, s.world, l.meteor);
    GuardedStable(l.sys.world, s.world, l.meteor);
  }

  /** Editing anything but the record of Comas, the expiry and the generation keeps the in-memory Meteor
      backed. */
  lemma EditOk(w0: World, l: Local, st: MeteorStatus)
    requires Ready(w0, l) && StatusSound(l.sys.world.key, st) && SameHead(l.meteor.status, st)
    ensures Ready(w0, Local(l.sys, l.meteor.(status := st)))
  {
    hide SysOk, StatusSound;
    var w := l.sys.world;
    var i :| 0 <= i < |w.versions| && BackedBy(w.versions[i], l.meteor);
    assert BackedBy(w.versions[i], l.meteor.(status := st));
    var j :| 0 <= j < |w.versions| && w.versions[j] == l.meteor.(status := w.versions[j].status);
    assert w.versions[j] == l.meteor.(status := st).(status := w.versions[j].status);
  }

  predicate SameHead(st: MeteorStatus, st': MeteorStatus) {
    st'.comas == st.comas && st'.expiration == st.expiration && st'.observedGeneration == st.observedGeneration
  }

  /** Recording a Coma that exists or once existed keeps it backed, thanks to the finalizer. */
  lemma RecordRefOk(w0: World, l: Local, ref: Ref)
    requires Ready(w0, l) && ref.uid < l.sys.world.nextUid
    requires ref.name == l.sys.world.key.name && ref.namespace != "" && !ref.controller
    ensures var st := l.meteor.status.(comas := AddRef(l.meteor.status.comas, ref));
      Ready(w0, Local(l.sys, l.meteor.(status := st)))
  {
    hide SysOk, RecordSound;
    var w := l.sys.world;
    AddRefSound(w.key, l.meteor.status.comas, ref);
    var st := l.meteor.status.(comas := AddRef(l.meteor.status.comas, ref));
    var i :| 0 <= i < |w.versions| && BackedBy(w.versions[i], l.meteor);
    assert BackedBy(w.versions[i], l.meteor.(status := st));
    var j :| 0 <= j < |w.versions| && w.versions[j] == l.meteor.(status := w.versions[j].status);
    assert w.versions[j] == l.meteor.(status := st).(status := w.versions[j].status);
  }

  lemma WriteComaOwnerOk(w0: World, s: Sys, k: Key, uid: nat, owner: Ref)
    requires SysOk(w0, s) && uid < s.world.nextUid
    requires k.name == s.world.key.name && k.namespace != "" && NamesMeteor(s.world, owner)
    ensures var r := WriteComaOwner(s, k, uid, owner); SysOk(w0, r.sys) && Advances(s, r.sys)
  {
    hide SysOk, Sound, NamesMeteor;
    ArriveOk(w0, s);
    var a := Arrive(s);
    var w := a.sys.world;
    SoundNow(w0, a.sys);
    NamesStable(s.world, w, owner);
    if k in w.comas && w.comas[k].uid == uid {
      OwnerChangeSound(w, k, owner);
      EffectOk(w0, a.sys, OpOwnComa(k, owner));
    }
  }

  lemma NamesStable(w: World, w': World, owner: Ref)
    requires NamesMeteor(w, owner) && Later(w, w')
    ensures NamesMeteor(w', owner)
  {
    var v :| v in w.versions && v.uid == owner.uid && FINALIZER in v.finalizers && !v.deleting;
    assert v in w'.versions;
  }

  lemma GuardedNames(w: World, m: Meteor)
    requires Guarded(w, m)
    ensures NamesMeteor(w, OwnerRef(w.key, m, true))
  {
    var i :| 0 <= i < |w.versions| && w.versions[i] == m.(status := w.versions[i].status);
    assert w.versions[i] in w.versions;
  }

  lemma OwnerChangeSound(w: World, k: Key, owner: Ref)
    requires Sound(w) && k in w.comas
    ensures var w1 := w.(comas := w.comas[k := w.comas[k].(owner := Some(owner))]); Sound(w1) && Later(w, w1)
  {
    ComasChangeSound(w, w.(comas := w.comas[k := w.comas[k].(owner := Some(owner))]));
  }

  lemma GetComaOk(w0: World, s: Sys, k: Key)
    requires SysOk(w0, s)
    ensures var r := GetComa(s, k);
      SysOk(w0, r.sys) && Advances(s, r.sys) && (r.res.Ok? ==> r.res.value.uid < r.sys.world.nextUid)
  {
    hide SysOk, Later;
    ArriveOk(w0, s);
    SoundNow(w0, Arrive(s).sys);
  }

  lemma CreateComaOk(w0: World, l: Local, k: Key)
    requires Ready(w0, l) && k.name == l.sys.world.key.name && k.namespace != ""
    ensures var r := CreateComa(l.sys, k, l.meteor);
      SysOk(w0, r.sys) && Advances(l.sys, r.sys) && (r.res.Ok? ==> r.res.value.uid < r.sys.world.nextUid)
  {
    hide SysOk, Sound, Guarded;
    ArriveOk(w0, l.sys);
    var a := Arrive(l.sys);
    var w := a.sys.world;
    SoundNow(w0, a.sys);
    GuardedStable(l.sys.world, w, l.meteor);
    if k !in w.comas {
      AddComaSound(w, k);
      EffectOk(w0, a.sys, OpCreateComa(k, l.meteor));
    }
  }

  lemma RecordComaOk(w0: World, l: Local, k: Key, c: FoundComa)
    requires Ready(w0, l) && (c.processed ==> c.uid < l.sys.world.nextUid)
    requires k.name == l.sys.world.key.name && k.namespace != ""
    ensures var l1 := RecordComa(l, k, c).0; Ready(w0, l1) && Advances(l.sys, l1.sys)
  {
    hide SysOk, Sound, Backed, Guarded, AddRef, NamesMeteor, OwnerRef;
    NothingHappens(l.sys.world);
    if c.processed {
      var ref := Ref(k.namespace, k.name, c.uid, false);
      RecordRefOk(w0, l, ref);
      var m := l.meteor.(status := l.meteor.status.(comas := AddRef(l.meteor.status.comas, ref)));
      var owner := OwnerRef(l.sys.world.key, m, true);
      GuardedNames(l.sys.world, m);
      WriteComaOwnerOk(w0, l.sys, k, c.uid, owner);
      ReadyStable(w0, Local(l.sys, m), WriteComaOwner(l.sys, k, c.uid, owner).sys);
    }
  }

  lemma ReconcileComaOk(w0: World, l: Local, namespace: string)
    requires Ready(w0, l) && namespace != ""
    ensures var l1 := ReconcileComa(l, namespace).0; Ready(w0, l1) && Advances(l.sys, l1.sys)
  {
    hide SysOk, Sound, Backed, Guarded, RecordComa, GetComa, CreateComa;
    var k := Key(namespace, l.sys.world.key.name);
    GetComaOk(w0, l.sys, k);
    var got := GetComa(l.sys, k);
    ReadyStable(w0, l, got.sys);
    var l1 := Local(got.sys, l.meteor);
    if got.res == Err(NotFound) {
      CreateComaOk(w0, l1, k);
      var made := CreateComa(got.sys, k, l.meteor);
      ReadyStable(w0, l1, made.sys);
      AdvancesTransitive(l.sys, got.sys, made.sys);
      if made.res.Ok? {
        RecordComaOk(w0, Local(made.sys, l.meteor), k, made.res.value);
      }
    } else {
      RecordComaOk(w0, l1, k, if got.res.Ok? then got.res.value else FoundComa(0, false));
    }
  }

  lemma {:induction false} ReconcileComasOk(w0: World, l: Local, services: seq<ExternalService>)
    requires Ready(w0, l)
    ensures var l1 := ReconcileComas(l, services).0; Ready(w0, l1) && Advances(l.sys, l1.sys)
    decreases |services|
  {
    hide SysOk, Backed, Guarded, ReconcileComa;
    NothingHappens(l.sys.world);
    if services != [] {
      if services[0].namespace == "" {
        ReconcileComasOk(w0, l, services[1..]);
      } else {
        ReconcileComaOk(w0, l, services[0].namespace);
        var (l1, step) := ReconcileComa(l, services[0].namespace);
        if step == Next { ReconcileComasOk(w0, l1, services[1..]); }
      }
    }
  }

  lemma GetRunOk(w0: World, s: Sys, name: string)
    requires SysOk(w0, s)
    ensures var r := GetRun(s, name); SysOk(w0, r.sys) && Advances(s, r.sys)
  {
    hide Sound, EntryOk;
    ArriveOk(w0, s);
    var a := Arrive(s);
    var r := GetRun(s, name);
    HistoryIsFree(w0, a.sys, r.sys);
  }

  lemma CreateRunOk(w0: World, l: Local, name: string, spec: RunSpec)
    requires Ready(w0, l) && l.meteor.status.comas != [] && AsksFor(l.sys.world.key, name, spec, l.meteor)
    ensures var r := CreateRun(l.sys, name, spec, l.meteor); SysOk(w0, r.sys) && Advances(l.sys, r.sys)
  {
    hide SysOk, Sound, Guarded, Backed, AsksFor;
    ArriveOk(w0, l.sys);
    var a := Arrive(l.sys);
    var w := a.sys.world;
    SoundNow(w0, a.sys);
    SameKey(l.sys, a.sys);
    GuardedStable(l.sys.world, w, l.meteor);
    BackedStable(l.sys.world, w, l.meteor);
    if name !in w.runs {
      RunsChangeSound(w, AddRun(w, name, spec));
      EffectOk(w0, a.sys, OpCreateRun(name, spec, l.meteor));
    }
  }

  lemma ReconcilePipelineRunOk(w0: World, l: Local, shower: Shower, n: string)
    requires Ready(w0, l) && n in l.meteor.spec.pipelines
    ensures var l1 := ReconcilePipelineRun(l, shower, n).0;
      Ready(w0, l1) && Advances(l.sys, l1.sys) && l1.meteor.spec == l.meteor.spec
  {
    hide SysOk, Later, Sound, Guarded, Backed, StatusSound, WithResult, Observe, GetRun, CreateRun, AsksFor, RunSpecOf, Refreshed;
    var key := l.sys.world.key;
    var st := WithResult(l.meteor.status, key.name, n);
    BackedStatus(l.sys.world, l.meteor);
    WithResultSound(key, l.meteor.status, n);
    WithResultComas(l.meteor.status, key.name, n);
    EditOk(w0, l, st);
    var m := l.meteor.(status := st);
    var name := RunName(key.name, n);
    GetRunOk(w0, l.sys, name);
    var got := GetRun(l.sys, name);
    var l1 := Local(got.sys, m);
    SameKey(l.sys, got.sys);
    ReadyStable(w0, Local(l.sys, m), got.sys);
    if got.res.Ok? {
      ObserveSound(key, st, n, got.res.value);
      ObserveComas(st, key.name, n, got.res.value);
      EditOk(w0, l1, Observe(st, key.name, n, got.res.value));
    } else if got.res != Err(NotFound) {
      SetRunConditionSound(key, st, n, CondFalse, "Error");
      EditOk(w0, l1, SetRunCondition(st, n, CondFalse, "Error"));
    } else if st.comas != [] {
      var spec := RunSpecOf(key, m, shower, n);
      SpecAsks(key, m, shower, n);
      CreateRunOk(w0, l1, name, spec);
      var made := CreateRun(got.sys, name, spec, m);
      SameKey(got.sys, made.sys);
      AdvancesTransitive(l.sys, got.sys, made.sys);
      ReadyStable(w0, l1, made.sys);
      SetRunConditionSound(key, st, n, CondTrue, "CreateError");
      SetRunConditionSound(key, st, n, CondTrue, "BuildStated");
      EditOk(w0, Local(made.sys, m), SetRunCondition(st, n, CondTrue, "CreateError"));
      EditOk(w0, Local(made.sys, m), SetRunCondition(st, n, CondTrue, "BuildStated"));
    }
  }

  lemma SpecAsks(key: Key, m: Meteor, shower: Shower, n: string)
    requires n in m.spec.pipelines
    ensures AsksFor(key, RunName(key.name, n), RunSpecOf(key, m, shower, n), m)
  {
  }

  lemma SameKey(s: Sys, s': Sys)
    requires Advances(s, s')
    ensures s'.world.key == s.world.key
  {
  }

  lemma BackedStatus(w: World, m: Meteor)
    requires Backed(w, m)
    ensures StatusSound(w.key, m.status)
  {
  }

  lemma WithResultComas(st: MeteorStatus, meteor: string, n: string)
    ensures WithResult(st, meteor, n) == st.(pipelines := WithResult(st, meteor, n).pipelines)
  {
  }

  lemma {:induction false} ObserveComas(st: MeteorStatus, meteor: string, n: string, run: Run)
    requires ResultIndex(st.pipelines, n) < |st.pipelines|
    ensures SameHead(st, Observe(st, meteor, n, run))
  {
  }

  lemma {:induction false} ReconcilePipelinesOk(w0: World, l: Local, shower: Shower, names: seq<string>)
    requires Ready(w0, l) && forall n :: n in names ==> n in l.meteor.spec.pipelines
    ensures var l1 := ReconcilePipelines(l, shower, names).0; Ready(w0, l1) && Advances(l.sys, l1.sys)
    decreases |names|
  {
    hide SysOk, Backed, Guarded, ReconcilePipelineRun;
    NothingHappens(l.sys.world);
    if names != [] {
      ReconcilePipelineRunOk(w0, l, shower, names[0]);
      var (l1, ok) := ReconcilePipelineRun(l, shower, names[0]);
      if ok { ReconcilePipelinesOk(w0, l1, shower, names[1..]); }
    }
  }

  // ---------------------------------------------------------------- whole passes

  lemma WorkOk(w0: World, l: Local, shower: Shower)
    requires Ready(w0, l)
    ensures var l1 := Work(l, shower).0; SysOk(w0, l1.sys) && Advances(l.sys, l1.sys)
  {
    hide SysOk, Backed, Guarded, Later, ReconcileComas, ReconcilePipelines, UpdateStatusNow;
    ReconcileComasOk(w0, l, shower.services);
    var (l1, ok) := ReconcileComas(l, shower.services);
    if !ok {
      WriteStatusOk(w0, l1, true);
      AdvancesTransitive(l.sys, l1.sys, UpdateStatusNow(l1, true).0.sys);
    } else {
      ReconcilePipelinesOk(w0, l1, shower, l1.meteor.spec.pipelines);
      var (l2, ok2) := ReconcilePipelines(l1, shower, l1.meteor.spec.pipelines);
      WriteStatusOk(w0, l2, !ok2);
      AdvancesTransitive(l.sys, l1.sys, l2.sys);
      AdvancesTransitive(l.sys, l2.sys, UpdateStatusNow(l2, !ok2).0.sys);
    }
  }

  lemma LocateOk(w0: World, l: Local, previous: Option<Shower>)
    requires LocalOk(w0, l)
    ensures var l1 := Locate(l, previous).0; LocalOk(w0, l1) && Advances(l.sys, l1.sys)
    ensures var l1 := Locate(l, previous).0; l1.meteor == l.meteor.(rv := l1.meteor.rv)
  {
    hide SysOk, Backed, Later, UpdateStatusNow, PickShower;
    ArriveOk(w0, l.sys);
    var o := FindOwnerShower(l.sys, l.meteor, previous);
    BackedStable(l.sys.world, o.sys.world, l.meteor);
    var l1 := Local(o.sys, l.meteor);
    if !o.ok {
      WriteStatusOk(w0, l1, true);
      AdvancesTransitive(l.sys, o.sys, UpdateStatusNow(l1, true).0.sys);
    }
  }

  lemma ProceedOk(w0: World, l: Local, shower: Option<Shower>)
    requires LocalOk(w0, l)
    ensures var l1 := Proceed(l, shower).0; SysOk(w0, l1.sys) && Advances(l.sys, l1.sys)
  {
    hide SysOk, Backed, Guarded, Later, Work, EnsureFinalizers, DeleteMeteor;
    if IsTTLReached(l.meteor, l.sys.world.now) && !l.meteor.deleting {
      DeleteMeteorOk(w0, l);
    } else {
      EnsureFinalizersOk(w0, l);
      var (l1, ok) := EnsureFinalizers(l);
      if ok && !l1.meteor.deleting {
        if shower.None? {
          HistoryIsFree(w0, l1.sys, l1.sys.(up := false));
        } else {
          WorkOk(w0, l1, shower.value);
          AdvancesTransitive(l.sys, l1.sys, Work(l1, shower.value).0.sys);
        }
      }
    }
  }

  /** One pass, under any script, keeps the invariant and extends the history. */
  lemma ReconcileOk(w0: World, op: Op)
    requires SysOk(w0, op.sys)
    ensures var op1 := Reconcile(op).0; SysOk(w0, op1.sys) && Advances(op.sys, op1.sys)
  {
    hide SysOk, Backed, Later, Locate, Proceed, GetMeteor, Refresh;
    GetMeteorOk(w0, op.sys);
    var got := GetMeteor(op.sys);
    if got.res.Ok? {
      var m := got.res.value;
      SoundNow(w0, got.sys);
      RefreshShape(m);
      VersionBacked(got.sys.world, m, Refresh(m).status);
      var l0 := Local(got.sys, Refresh(m));
      LocateOk(w0, l0, op.shower);
      var (l, shower) := Locate(l0, op.shower);
      ProceedOk(w0, l, shower);
      AdvancesTransitive(op.sys, got.sys, l.sys);
      AdvancesTransitive(op.sys, l.sys, Proceed(l, shower).0.sys);
    }
  }

  lemma {:induction false} PassesOk(w0: World, op: Op, scripts: seq<seq<Plan>>)
    requires SysOk(w0, op.sys)
    ensures var op1 := Passes(op, scripts); SysOk(w0, op1.sys) && Advances(op.sys, op1.sys)
    decreases |scripts|
  {
    hide SysOk, Reconcile;
    NothingHappens(op.sys.world);
    if scripts != [] {
      var op0 := Resume(op, scripts[0]);
      HistoryIsFree(w0, op.sys, op0.sys);
      ReconcileOk(w0, op0);
      PassesOk(w0, Reconcile(op0).0, scripts[1..]);
    }
  }

  lemma InitialOk(op: Op)
    requires Initial(op)
    ensures SysOk(op.sys.world, op.sys)
  {
  }

  // ---------------------------------------------------------------- the theorems

  /** No recorded Coma outlives its Meteor: after every single change of the store, in every run, a
      Coma that was ever recorded and still exists belongs to a stored Meteor that lists it and holds
      the finalizer. */
  lemma {:induction false} NoRecordedComaOutlivesItsMeteor(op: Op, scripts: seq<seq<Plan>>, i: nat, r: Ref)
    requires Initial(op) && i < |Passes(op, scripts).sys.trace|
    requires var w := Passes(op, scripts).sys.trace[i].after; Recorded(w, r) && Alive(w, r)
    ensures var w := Passes(op, scripts).sys.trace[i].after;
      w.meteor.Some? && r in w.meteor.value.status.comas && FINALIZER in w.meteor.value.finalizers
  {
    hide Passes;
    InitialOk(op);
    PassesOk(op.sys.world, op, scripts);
    var t := Passes(op, scripts).sys.trace;
    assert EntryOk(t[i]);
  }

  /** The trace leaves nothing out: it is a chain of changes from the initial to the final store. */
  lemma {:induction false} TraceIsComplete(op: Op, scripts: seq<seq<Plan>>)
    requires Initial(op)
    ensures Chained(op.sys.world, Passes(op, scripts).sys)
  {
    hide Passes;
    InitialOk(op);
    PassesOk(op.sys.world, op, scripts);
  }

  /** Finalizer before Coma: every Coma the operator creates carries the Meteor's name, goes to a real
      namespace, and is created while a committed, undeleted version with the finalizer stands behind
      the pass. */
  lemma {:induction false} FinalizerBeforeComa(op: Op, scripts: seq<seq<Plan>>, i: nat)
    requires Initial(op) && i < |Passes(op, scripts).sys.trace|
    requires Passes(op, scripts).sys.trace[i].cause.OpCreateComa?
    ensures var e := Passes(op, scripts).sys.trace[i];
      && e.cause.coma.name == e.before.key.name && e.cause.coma.namespace != ""
      && exists v :: v in e.before.versions && v.rv == e.cause.view.rv && FINALIZER in v.finalizers && !v.deleting
  {
    hide Passes, Apply, Sound, Later, Chained;
    InitialOk(op);
    PassesOk(op.sys.world, op, scripts);
    var e := Passes(op, scripts).sys.trace[i];
    assert EntryOk(e);
    var j :| 0 <= j < |e.before.versions|
      && e.before.versions[j] == e.cause.view.(status := e.before.versions[j].status);
    assert e.before.versions[j] in e.before.versions;
  }

  /** The record of a living Meteor only grows, repeats nothing, and lists only Comas of the Meteor's
      name in real namespaces; and per-pipeline results agree with the stage lists. In every version
      ever stored. */
  lemma {:induction false} StoredStatusesAreSound(op: Op, scripts: seq<seq<Plan>>)
    requires Initial(op)
    ensures var w := Passes(op, scripts).sys.world;
      && (forall i, j :: 0 <= i < j < |w.versions| && w.versions[i].uid == w.versions[j].uid ==>
            w.versions[i].status.comas <= w.versions[j].status.comas)
      && (forall i :: 0 <= i < |w.versions| ==>
            && RecordSound(w.key, w.versions[i].status.comas)
            && ResultsAgree(w.key.name, w.versions[i].status)
            && UniqueKinds(w.versions[i].status.conditions)
            && StageSound(w.versions[i].status.stage))
  {
    hide Passes;
    InitialOk(op);
    PassesOk(op.sys.world, op, scripts);
    var w := Passes(op, scripts).sys.world;
    forall i | 0 <= i < |w.versions|
      ensures RecordSound(w.key, w.versions[i].status.comas)
      ensures ResultsAgree(w.key.name, w.versions[i].status)
      ensures UniqueKinds(w.versions[i].status.conditions) && StageSound(w.versions[i].status.stage)
    {
      assert StatusSound(w.key, w.versions[i].status);
    }
  }

  /** The view the operator deletes by and the Meteor it hits, when both are of one incarnation, agree on
      the time of creation; when their resource versions agree, on everything but the status. */
  lemma ViewOfStored(w: World, view: Meteor)
    requires Sound(w) && w.meteor.Some? && Backed(w, view)
    ensures w.meteor.value.uid == view.uid ==> w.meteor.value.created == view.created
    ensures w.meteor.value.rv == view.rv ==> w.meteor.value == view.(status := w.meteor.value.status)
  {
    hide StatusSound, NoOrphan;
    var i :| 0 <= i < |w.versions| && BackedBy(w.versions[i], view);
    var n := |w.versions| - 1;
    if w.versions[n].uid == view.uid && i < n { assert w.versions[i].created == w.versions[n].created; }
    if w.versions[n].rv == view.rv { assert i == n; }
  }

  /** What an operator deletion hits. The view it acts on is a committed version, not being deleted and
      expired by then; but Delete names no version, so the Meteor it hits is the stored one. That one is
      expired as well whenever it is of the same incarnation and has the same time to live, in particular
      whenever it is the version that was read. Put the other way round, an unexpired Meteor (by
      definition one without time to live, or whose expiry has not passed) is hit only after incarnation
      or time to live have changed since the read. */
  lemma {:induction false} DeletionHitsExpiredIff(op: Op, scripts: seq<seq<Plan>>, i: nat)
    requires Initial(op) && i < |Passes(op, scripts).sys.trace|
    requires Passes(op, scripts).sys.trace[i].cause.OpDelete?
    ensures var e := Passes(op, scripts).sys.trace[i]; var view := e.cause.view; var now := e.before.now;
      && (exists v :: v in e.before.versions && v == view.(status := v.status))
      && !view.deleting && view.spec.ttl != 0 && ExpirationOf(view) < now
      && e.before.meteor.Some?
      && var hit := e.before.meteor.value;
        && (hit.rv == view.rv ==> IsTTLReached(hit, now))
        && (hit.uid == view.uid && hit.spec.ttl == view.spec.ttl ==> IsTTLReached(hit, now))
        && (!IsTTLReached(hit, now) <==>
              && (hit.uid != view.uid || hit.spec.ttl != view.spec.ttl)
              && (hit.spec.ttl == 0 || now <= ExpirationOf(hit)))
  {
    hide Passes, Apply, Sound, Later, Chained, StatusSound;
    InitialOk(op);
    PassesOk(op.sys.world, op, scripts);
    var e := Passes(op, scripts).sys.trace[i];
    assert EntryOk(e);
    var view := e.cause.view;
    var j :| 0 <= j < |e.before.versions| && BackedBy(e.before.versions[j], view);
    assert e.before.versions[j] in e.before.versions;
    ViewOfStored(e.before, view);
  }

  /** In seconds: an unexpired Meteor of the same incarnation that is hit has had its time to live
      lifted or extended since the read, and has not been alive for that long. */
  lemma {:induction false} UnexpiredHitWasExtended(op: Op, scripts: seq<seq<Plan>>, i: nat)
    requires Initial(op) && i < |Passes(op, scripts).sys.trace|
    requires Passes(op, scripts).sys.trace[i].cause.OpDelete?
    requires var e := Passes(op, scripts).sys.trace[i];
      e.before.meteor.Some? ==>
        && e.before.meteor.value.uid == e.cause.view.uid
        && 0 <= e.before.meteor.value.spec.ttl <= MAX_EXACT_TTL && 0 <= e.cause.view.spec.ttl <= MAX_EXACT_TTL
    ensures var e := Passes(op, scripts).sys.trace[i];
      && e.before.meteor.Some?
      && var hit := e.before.meteor.value; var ttl := hit.spec.ttl;
        && (!IsTTLReached(hit, e.before.now) <==>
              ttl == 0 || (ttl > e.cause.view.spec.ttl && e.before.now - hit.created * SECOND <= ttl * SECOND))
  {
    hide Passes, Backed, Sound, Wrap64;
    DeletionHitsExpiredIff(op, scripts, i);
    InitialOk(op);
    PassesOk(op.sys.world, op, scripts);
    var e := Passes(op, scripts).sys.trace[i];
    assert EntryOk(e);
    ViewOfStored(e.before, e.cause.view);
    ExpirationExactIff(e.before.meteor.value);
    ExpirationExactIff(e.cause.view);
  }

  /** The finalizer is given up only when every Coma on the stored list is gone: the write commits only
      against the list that was just torn down. */
  lemma {:induction false} FinalizerGoesLast(op: Op, scripts: seq<seq<Plan>>, i: nat, r: Ref)
    requires Initial(op) && i < |Passes(op, scripts).sys.trace|
    requires var e := Passes(op, scripts).sys.trace[i];
      && e.cause.OpUpdate? && FINALIZER !in e.cause.view.finalizers
      && e.before.meteor.Some? && r in e.before.meteor.value.status.comas
    ensures !Alive(Passes(op, scripts).sys.trace[i].after, r)
  {
    hide Passes;
    InitialOk(op);
    PassesOk(op.sys.world, op, scripts);
    var e := Passes(op, scripts).sys.trace[i];
    assert EntryOk(e);
    var w := e.before;
    assert Recorded(w, r) by { assert r in w.versions[|w.versions| - 1].status.comas; }
  }
}
