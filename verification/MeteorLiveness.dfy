/** What fault-free passes achieve: teardown completes exactly when every recorded Coma is distinct and
    present, an expired Meteor is gone after two passes, and the set-up of Comas terminates. */
module MeteorLiveness {
  import opened Kube
  import opened MeteorApi
  import opened Cluster
  import opened MeteorPass

  /** No faults and no interference; whether a created Coma comes back processed stays open. */
  predicate QuietScript(script: seq<Plan>) {
    forall p :: p in script ==> p.env == [] && p.mode == Normal
  }

  predicate Quiet(s: Sys) {
    s.up && QuietScript(s.script)
  }

  lemma QuietArrive(s: Sys)
    requires Quiet(s)
    ensures var a := Arrive(s); a.mode == Normal && Quiet(a.sys) && a.sys == s.(script := a.sys.script)
  {
    if s.script != [] {
      assert s.script[0] in s.script;
      assert s.(script := s.script[1..]).(script := s.script[1..]) == s.(script := s.script[1..]);
    }
  }

  /** The in-memory Meteor is the stored one but for its status. */
  predicate Current(w: World, m: Meteor) {
    w.meteor.Some? && m == w.meteor.value.(status := m.status)
  }

  /** Stores that differ in the Meteor and its versions only. */
  predicate SameButMeteor(w: World, w': World) {
    w' == w.(meteor := w'.meteor, versions := w'.versions, nextRv := w'.nextRv)
  }

  lemma QuietWrite(l: Local, failed: bool)
    requires Quiet(l.sys) && Current(l.sys.world, l.meteor)
    ensures var (l1, o) := UpdateStatusNow(l, failed);
      && Quiet(l1.sys) && o == Outcome(false, true, failed)
      && SameButMeteor(l.sys.world, l1.sys.world)
      && l1.sys.world.meteor == Some(l1.meteor) && l1.meteor == l.meteor.(rv := l1.meteor.rv)
  {
    QuietArrive(l.sys);
  }

  lemma QuietLocate(l: Local, previous: Option<Shower>)
    requires Quiet(l.sys) && Current(l.sys.world, l.meteor)
    ensures var (l1, shower) := Locate(l, previous);
      && Quiet(l1.sys) && SameButMeteor(l.sys.world, l1.sys.world)
      && Current(l1.sys.world, l1.meteor) && l1.meteor == l.meteor.(rv := l1.meteor.rv)
      && shower == PickShower(l.sys.world.showers, l.meteor.selector, previous)
  {
    QuietArrive(l.sys);
    var o := FindOwnerShower(l.sys, l.meteor, previous);
    if !o.ok {
      QuietWrite(Local(o.sys, l.meteor), true);
    }
  }

  lemma QuietUpdate(s: Sys, m: Meteor, fs: seq<string>)
    requires Quiet(s) && Current(s.world, m)
    ensures var (l1, ok) := UpdateFinalizers(s, m.(finalizers := fs));
      && ok && Quiet(l1.sys) && SameButMeteor(s.world, l1.sys.world)
      && (if m.deleting && fs == [] then l1.sys.world.meteor == None else Current(l1.sys.world, l1.meteor))
      && l1.meteor == m.(finalizers := fs, rv := l1.meteor.rv)
  {
    QuietArrive(s);
  }

  // ---------------------------------------------------------------- teardown

  function KeyOf(r: Ref): Key { Key(r.namespace, r.name) }

  predicate DistinctKeys(refs: seq<Ref>) {
    forall i, j :: 0 <= i < j < |refs| ==> KeyOf(refs[i]) != KeyOf(refs[j])
  }

  predicate AllPresent(w: World, refs: seq<Ref>) {
    forall i :: 0 <= i < |refs| ==> KeyOf(refs[i]) in w.comas
  }

  function KeysOf(refs: seq<Ref>): set<Key> {
    set r | r in refs :: KeyOf(r)
  }

  /** The Comas can be torn down in one go. */
  predicate Removable(w: World, refs: seq<Ref>) {
    DistinctKeys(refs) && AllPresent(w, refs)
  }

  lemma RemovableStep(w: World, refs: seq<Ref>)
    requires refs != []
    ensures var k := KeyOf(refs[0]);
      Removable(w, refs) <==> k in w.comas && Removable(w.(comas := w.comas - {k}), refs[1..])
  {
    var k := KeyOf(refs[0]);
    var w1 := w.(comas := w.comas - {k});
    var rest := refs[1..];
    if Removable(w, refs) {
      assert forall i :: 0 <= i < |rest| ==> rest[i] == refs[i + 1];
      assert forall i :: 0 <= i < |rest| ==> KeyOf(rest[i]) != KeyOf(refs[0]);
    }
    if k in w.comas && Removable(w1, rest) {
      forall i | 0 < i < |refs| ensures KeyOf(refs[i]) in w.comas && KeyOf(refs[i]) != k {
        assert refs[i] == rest[i - 1];
      }
      forall i, j | 0 <= i < j < |refs| ensures KeyOf(refs[i]) != KeyOf(refs[j]) {
        assert refs[j] == rest[j - 1];
        if i > 0 { assert refs[i] == rest[i - 1]; }
      }
    }
  }

  lemma EmptyRemovable(w: World)
    ensures Removable(w, [])
  {
  }

  /** The teardown loop runs to its end exactly when the listed keys are distinct and all present, and
      it then removes those Comas and nothing else. */
  lemma {:induction false} TeardownCompletesIff(s: Sys, refs: seq<Ref>)
    requires Quiet(s)
    ensures var (s1, ok) := DeleteComas(s, refs);
      && (ok <==> Removable(s.world, refs))
      && Quiet(s1) && s1.world == s.world.(comas := s1.world.comas)
      && s1.world.comas.Keys <= s.world.comas.Keys
      && (ok ==> s1.world.comas == s.world.comas - KeysOf(refs))
    decreases |refs|
  {
    hide Arrive, Removable;
    if refs == [] {
      assert s.world.comas - KeysOf(refs) == s.world.comas;
      assert Removable(s.world, refs) by { EmptyRemovable(s.world); }
    } else {
      QuietArrive(s);
      RemovableStep(s.world, refs);
      var k := KeyOf(refs[0]);
      var r := DeleteComa(s, k);
      if r.res.Ok? {
        TeardownCompletesIff(r.sys, refs[1..]);
        assert refs == [refs[0]] + refs[1..];
        assert KeysOf(refs) == {k} + KeysOf(refs[1..]);
        assert s.world.comas - {k} - KeysOf(refs[1..]) == s.world.comas - KeysOf(refs);
      }
    }
  }

  /** A fault-free pass over a Meteor under deletion gives up the finalizer exactly when the recorded
      Comas are distinct and all present; the Meteor is then gone unless another finalizer holds it. */
  lemma DeletionPassCompletesIff(op: Op)
    requires Quiet(op.sys) && op.sys.world.meteor.Some?
    requires op.sys.world.meteor.value.deleting && FINALIZER in op.sys.world.meteor.value.finalizers
    ensures var w := op.sys.world; var m := w.meteor.value; var w1 := Reconcile(op).0.sys.world;
      && (Removable(w, m.status.comas) <==> (w1.meteor.None? || FINALIZER !in w1.meteor.value.finalizers))
      && (Removable(w, m.status.comas) ==>
            && w1.comas == w.comas - KeysOf(m.status.comas)
            && SameButMeteor(w.(comas := w1.comas), w1) && Reconcile(op).0.sys.up
            && (w1.meteor.Some? ==> w1.meteor.value.finalizers == RemoveFinalizer(m.finalizers) && w1.meteor.value.deleting)
            && (w1.meteor == None <==> RemoveFinalizer(m.finalizers) == []))
  {
    QuietArrive(op.sys);
    var got := GetMeteor(op.sys);
    var m := got.res.value;
    QuietLocate(Local(got.sys, Refresh(m)), op.shower);
    var (l, shower) := Locate(Local(got.sys, Refresh(m)), op.shower);
    TeardownCompletesIff(l.sys, m.status.comas);
    var (s, ok) := DeleteComas(l.sys, m.status.comas);
    assert Removable(op.sys.world, m.status.comas) <==> Removable(l.sys.world, m.status.comas);
    if ok {
      QuietUpdate(s, l.meteor, RemoveFinalizer(m.finalizers));
    }
  }

  /** Deletion is pending, and the recorded Comas cannot be torn down in one go. */
  predicate Stuck(w: World) {
    && w.meteor.Some? && w.meteor.value.deleting && FINALIZER in w.meteor.value.finalizers
    && !Removable(w, w.meteor.value.status.comas)
  }

  lemma StuckPass(op: Op)
    requires Quiet(op.sys) && Stuck(op.sys.world)
    ensures Reconcile(op).0.sys.up && Stuck(Reconcile(op).0.sys.world)
  {
    QuietArrive(op.sys);
    var got := GetMeteor(op.sys);
    var m := got.res.value;
    QuietLocate(Local(got.sys, Refresh(m)), op.shower);
    LocateKeepsComas(Local(got.sys, Refresh(m)), op.shower);
    var (l, shower) := Locate(Local(got.sys, Refresh(m)), op.shower);
    TeardownCompletesIff(l.sys, m.status.comas);
    var (s, ok) := DeleteComas(l.sys, m.status.comas);
    assert !Removable(l.sys.world, m.status.comas);
    assert AllPresent(s.world, m.status.comas) ==> AllPresent(op.sys.world, m.status.comas);
  }

  /** A deletion whose recorded Comas are not distinct and all present never completes by itself: a
      missing Coma is an error in every pass, so the finalizer stays however often the pass is retried. */
  lemma {:induction false} StuckDeletionStaysStuck(op: Op, scripts: seq<seq<Plan>>)
    requires op.sys.up && Stuck(op.sys.world) && forall x :: x in scripts ==> QuietScript(x)
    ensures Stuck(Passes(op, scripts).sys.world)
    decreases |scripts|
  {
    hide Reconcile, Stuck;
    if scripts != [] {
      assert scripts[0] in scripts;
      StuckPass(Resume(op, scripts[0]));
      StuckDeletionStaysStuck(Reconcile(Resume(op, scripts[0])).0, scripts[1..]);
    }
  }

  /** The first fault-free pass over an expired Meteor marks it, or removes it when it has no finalizer. */
  lemma ExpiredIsMarked(op: Op)
    requires Quiet(op.sys) && op.sys.world.meteor.Some?
    requires var m := op.sys.world.meteor.value; !m.deleting && IsTTLReached(m, op.sys.world.now)
    ensures var w := op.sys.world; var m := w.meteor.value; var op1 := Reconcile(op).0; var w1 := op1.sys.world;
      && Quiet(op1.sys) && SameButMeteor(w, w1) && (w1.meteor == None <==> m.finalizers == [])
      && (w1.meteor.Some? ==>
            && w1.meteor.value.deleting && w1.meteor.value.finalizers == m.finalizers
            && w1.meteor.value.status.comas == m.status.comas)
  {
    hide Quiet, Locate, DeleteMeteor, EnsureFinalizers, Work, AggregatePhase, Arrive, PickShower;
    QuietRead(op.sys);
    var got := GetMeteor(op.sys);
    hide GetMeteor;
    var m := got.res.value;
    var l0 := Local(got.sys, Refresh(m));
    QuietLocate(l0, op.shower);
    LocateKeepsComas(l0, op.shower);
    QuietDelete(Locate(l0, op.shower).0);
  }

  lemma QuietRead(s: Sys)
    requires Quiet(s) && s.world.meteor.Some?
    ensures var got := GetMeteor(s); Quiet(got.sys) && got.sys.world == s.world && got.res == Ok(s.world.meteor.value)
  {
    QuietArrive(s);
  }

  lemma QuietDelete(l: Local)
    requires Quiet(l.sys) && Current(l.sys.world, l.meteor) && !l.meteor.deleting
    ensures var m := l.meteor; var s1 := DeleteMeteor(l.sys, m).sys; var w1 := s1.world;
      && Quiet(s1) && SameButMeteor(l.sys.world, w1) && (w1.meteor == None <==> m.finalizers == [])
      && (w1.meteor.Some? ==>
            && w1.meteor.value.deleting && w1.meteor.value.finalizers == m.finalizers
            && w1.meteor.value.status.comas == l.sys.world.meteor.value.status.comas)
  {
    QuietArrive(l.sys);
  }

  /** A Meteor under deletion that does not hold the operator's finalizer is left to others. */
  lemma ForeignDeletionPass(op: Op)
    requires Quiet(op.sys) && op.sys.world.meteor.Some?
    requires op.sys.world.meteor.value.deleting && FINALIZER !in op.sys.world.meteor.value.finalizers
    ensures Reconcile(op).0.sys.world.meteor.Some?
  {
    QuietArrive(op.sys);
    var got := GetMeteor(op.sys);
    QuietLocate(Local(got.sys, Refresh(got.res.value)), op.shower);
  }

  lemma NobodyThere(op: Op)
    requires Quiet(op.sys) && op.sys.world.meteor == None
    ensures Reconcile(op).0.sys.world == op.sys.world
  {
    QuietArrive(op.sys);
  }

  lemma LocateKeepsComas(l: Local, previous: Option<Shower>)
    requires Quiet(l.sys) && Current(l.sys.world, l.meteor)
    requires l.sys.world.meteor.value.status.comas == l.meteor.status.comas
    ensures var l1 := Locate(l, previous).0;
      l1.sys.world.meteor.Some? && l1.sys.world.meteor.value.status.comas == l.meteor.status.comas
  {
    QuietArrive(l.sys);
    var o := FindOwnerShower(l.sys, l.meteor, previous);
    if !o.ok {
      QuietWrite(Local(o.sys, l.meteor), true);
    }
  }

  lemma {:induction false} NoneLeft(fs: seq<string>)
    ensures FINALIZER !in fs ==> RemoveFinalizer(fs) == fs
    ensures RemoveFinalizer(fs) == [] <==> forall f :: f in fs ==> f == FINALIZER
  {
    if fs != [] {
      NoneLeft(fs[1..]);
      assert fs == [fs[0]] + fs[1..];
    }
    if forall f :: f in fs ==> f == FINALIZER {
      if RemoveFinalizer(fs) != [] { assert RemoveFinalizer(fs)[0] in RemoveFinalizer(fs); }
    }
  }

  /** What two fault-free passes make of an expired Meteor, whatever finalizers it has. It is gone exactly
      when it has no finalizer but the operator's, and, if it has that, its recorded Comas are distinct and
      present. With the operator's finalizer and such Comas, the Comas are gone and the finalizer is given
      up even when others still hold the Meteor. */
  lemma {:induction false} ExpiredIsGoneAfterTwoPasses(op: Op, first: seq<Plan>, second: seq<Plan>)
    requires op.sys.up && QuietScript(first) && QuietScript(second) && op.sys.world.meteor.Some?
    requires var m := op.sys.world.meteor.value; !m.deleting && IsTTLReached(m, op.sys.world.now)
    ensures var w := op.sys.world; var m := w.meteor.value; var w2 := Passes(op, [first, second]).sys.world;
      && (w2.meteor == None <==>
            && (forall f :: f in m.finalizers ==> f == FINALIZER)
            && (FINALIZER in m.finalizers ==> Removable(w, m.status.comas)))
      && (FINALIZER in m.finalizers && Removable(w, m.status.comas) ==>
            && (forall r :: r in m.status.comas ==> KeyOf(r) !in w2.comas)
            && (w2.meteor.Some? ==> FINALIZER !in w2.meteor.value.finalizers && w2.meteor.value.deleting))
  {
    hide Reconcile, Removable, RemoveFinalizer;
    var op0 := Resume(op, first);
    var op1 := Reconcile(op0).0;
    ExpiredIsMarked(op0);
    var op2 := Reconcile(Resume(op1, second)).0;
    assert [first, second][1..] == [second] && [second][1..] == [];
    assert Passes(op, [first, second]) == Passes(op1, [second]) == Passes(op2, []);
    var m := op.sys.world.meteor.value;
    NoneLeft(m.finalizers);
    if m.finalizers == [] {
      NobodyThere(Resume(op1, second));
    } else if FINALIZER !in m.finalizers {
      ForeignDeletionPass(Resume(op1, second));
    } else {
      SameRemovable(op.sys.world, op1.sys.world, m.status.comas);
      DeletionPassCompletesIff(Resume(op1, second));
    }
  }

  lemma SameRemovable(w: World, w': World, refs: seq<Ref>)
    requires w'.comas == w.comas
    ensures Removable(w, refs) <==> Removable(w', refs)
  {
  }

  // ---------------------------------------------------------------- set-up of Comas

  function Namespaces(services: seq<ExternalService>): set<string> {
    set x | x in services && x.namespace != "" :: x.namespace
  }

  predicate HasComa(w: World, namespace: string) {
    Key(namespace, w.key.name) in w.comas
  }

  /** The Coma of a namespace exists and is on the list. */
  predicate Listed(w: World, refs: seq<Ref>, namespace: string) {
    HasComa(w, namespace) &&
    ContainsComa(refs, Ref(namespace, w.key.name, w.comas[Key(namespace, w.key.name)].uid, false))
  }

  function MissingComas(w: World, services: seq<ExternalService>): set<string> {
    set x | x in Namespaces(services) && !HasComa(w, x)
  }

  /** Every external namespace has a Coma on the stored list. */
  predicate Complete(w: World, services: seq<ExternalService>) {
    w.meteor.Some? && forall x :: x in Namespaces(services) ==> Listed(w, w.meteor.value.status.comas, x)
  }

  /** Comas are only added, and keep their UIDs. */
  ghost predicate Grown(w: World, w': World) {
    w'.key == w.key && forall k :: k in w.comas ==> k in w'.comas && w'.comas[k].uid == w.comas[k].uid
  }

  lemma ListedStable(w: World, refs: seq<Ref>, w': World, refs': seq<Ref>, namespace: string)
    requires Listed(w, refs, namespace) && Grown(w, w') && refs <= refs'
    ensures Listed(w', refs', namespace)
  {
    var uid := w.comas[Key(namespace, w.key.name)].uid;
    var r :| r in refs && r.namespace == namespace && r.name == w.key.name && r.uid == uid;
    assert r in refs';
  }

  /** What one turn of the service loop, or all of it, may change. */
  ghost predicate SetupKeeps(l: Local, l': Local) {
    && Quiet(l'.sys) && Grown(l.sys.world, l'.sys.world)
    && l'.sys.world == l.sys.world.(
         comas := l'.sys.world.comas, comaLog := l'.sys.world.comaLog, nextUid := l'.sys.world.nextUid)
    && l'.meteor == l.meteor.(status := l.meteor.status.(comas := l'.meteor.status.comas))
    && l.meteor.status.comas <= l'.meteor.status.comas
  }

  lemma SetupRecords(l: Local, k: Key, c: FoundComa)
    requires Quiet(l.sys) && k.name == l.sys.world.key.name && k in l.sys.world.comas
    requires c.processed ==> c.uid == l.sys.world.comas[k].uid
    ensures var (l1, step) := RecordComa(l, k, c);
      && SetupKeeps(l, l1)
      && step == (if c.processed then Next else Wait)
      && (c.processed ==> Listed(l1.sys.world, l1.meteor.status.comas, k.namespace))
  {
    if c.processed {
      QuietArrive(l.sys);
      var ref := Ref(k.namespace, k.name, c.uid, false);
      assert ref in l.meteor.status.comas + [ref];
    }
  }

  lemma SetupOne(l: Local, namespace: string)
    requires Quiet(l.sys) && namespace != ""
    ensures var (l1, step) := ReconcileComa(l, namespace);
      && SetupKeeps(l, l1) && step != Stop && HasComa(l1.sys.world, namespace)
      && (step == Next ==> Listed(l1.sys.world, l1.meteor.status.comas, namespace))
      && (step == Wait ==> !HasComa(l.sys.world, namespace))
  {
    hide RecordComa;
    var k := Key(namespace, l.sys.world.key.name);
    QuietArrive(l.sys);
    var got := GetComa(l.sys, k);
    if got.res.Ok? {
      SetupRecords(Local(got.sys, l.meteor), k, got.res.value);
    } else {
      QuietArrive(got.sys);
      var made := CreateComa(got.sys, k, l.meteor);
      SetupRecords(Local(made.sys, l.meteor), k, made.res.value);
    }
  }

  lemma SetupKeepsTransitive(a: Local, b: Local, c: Local)
    requires SetupKeeps(a, b) && SetupKeeps(b, c)
    ensures SetupKeeps(a, c)
  {
  }

  /** The service loop never fails, and either lists the Coma of every namespace or has created one
      that was missing. */
  lemma {:induction false} SetupLoop(l: Local, services: seq<ExternalService>)
    requires Quiet(l.sys)
    ensures var (l1, ok) := ReconcileComas(l, services);
      && ok && SetupKeeps(l, l1)
      && ((forall x :: x in Namespaces(services) ==> Listed(l1.sys.world, l1.meteor.status.comas, x))
          || exists x :: x in Namespaces(services) && !HasComa(l.sys.world, x) && HasComa(l1.sys.world, x))
    decreases |services|
  {
    if services != [] {
      assert services == [services[0]] + services[1..];
      var namespace := services[0].namespace;
      assert Namespaces(services) == Namespaces(services[1..]) + if namespace == "" then {} else {namespace};
      if namespace == "" {
        SetupLoop(l, services[1..]);
      } else {
        SetupOne(l, namespace);
        var (l1, step) := ReconcileComa(l, namespace);
        if step == Next {
          SetupLoop(l1, services[1..]);
          var l2 := ReconcileComas(l1, services[1..]).0;
          SetupKeepsTransitive(l, l1, l2);
          ListedStable(l1.sys.world, l1.meteor.status.comas, l2.sys.world, l2.meteor.status.comas, namespace);
        }
      }
    }
  }

  ghost predicate RunsKeep(l: Local, l': Local) {
    && Quiet(l'.sys)
    && l'.sys.world == l.sys.world.(
         runs := l'.sys.world.runs, runLog := l'.sys.world.runLog, nextUid := l'.sys.world.nextUid)
    && l'.meteor == l.meteor.(status := l'.meteor.status)
    && l'.meteor.status.comas == l.meteor.status.comas
  }

  lemma QuietRun(l: Local, shower: Shower, n: string)
    requires Quiet(l.sys)
    ensures RunsKeep(l, ReconcilePipelineRun(l, shower, n).0)
  {
    hide Observe, SetRunCondition, RunSpecOf, WithResult;
    QuietArrive(l.sys);
    var key := l.sys.world.key;
    var st := WithResult(l.meteor.status, key.name, n);
    var got := GetRun(l.sys, RunName(key.name, n));
    StatusEditsKeepComas(l.meteor.status, key.name, n, st);
    if got.res.Ok? {
      ObserveKeepsComas(st, key.name, n, got.res.value);
    } else if st.comas != [] {
      QuietArrive(got.sys);
    }
  }

  lemma StatusEditsKeepComas(st0: MeteorStatus, meteor: string, n: string, st: MeteorStatus)
    requires st == WithResult(st0, meteor, n)
    ensures st.comas == st0.comas
    ensures forall c, r :: SetRunCondition(st, n, c, r).comas == st.comas
  {
  }

  lemma {:induction false} ObserveKeepsComas(st: MeteorStatus, meteor: string, n: string, run: Run)
    requires ResultIndex(st.pipelines, n) < |st.pipelines|
    ensures Observe(st, meteor, n, run).comas == st.comas
  {
  }

  lemma {:induction false} QuietRuns(l: Local, shower: Shower, names: seq<string>)
    requires Quiet(l.sys)
    ensures RunsKeep(l, ReconcilePipelines(l, shower, names).0)
    decreases |names|
  {
    hide ReconcilePipelineRun;
    if names != [] {
      QuietRun(l, shower, names[0]);
      var (l1, ok) := ReconcilePipelineRun(l, shower, names[0]);
      if ok { QuietRuns(l1, shower, names[1..]); }
    }
  }

  /** The Shower a pass ends up with, be it found in the list or kept from an earlier pass. */
  predicate Picks(op: Op, shower: Shower) {
    var w := op.sys.world;
    w.meteor.Some? && PickShower(w.showers, w.meteor.value.selector, op.shower) == Some(shower)
  }

  /** On a list that does not change, the pick does not change either. */
  lemma PickStays(op: Op, op1: Op, shower: Shower)
    requires Picks(op, shower) && op1.shower == Some(shower) && op1.sys.world.showers == op.sys.world.showers
    requires op1.sys.world.meteor.Some? && op1.sys.world.meteor.value.selector == op.sys.world.meteor.value.selector
    ensures Picks(op1, shower)
  {
  }

  /** A Meteor that a pass will work on: found, alive, unexpired, with some Shower picked for it. */
  predicate Workable(op: Op, shower: Shower) {
    var w := op.sys.world;
    && Quiet(op.sys) && Picks(op, shower)
    && !w.meteor.value.deleting && !IsTTLReached(w.meteor.value, w.now)
  }

  lemma SetupWork(l: Local, shower: Shower)
    requires Quiet(l.sys) && Current(l.sys.world, l.meteor)
    ensures var l1 := Work(l, shower).0; var w := l.sys.world; var w1 := l1.sys.world;
      && Quiet(l1.sys) && Grown(w, w1) && w1.showers == w.showers && w1.now == w.now
      && w1.meteor.Some?
      && w1.meteor.value == l.meteor.(rv := w1.meteor.value.rv, status := w1.meteor.value.status)
      && l.meteor.status.comas <= w1.meteor.value.status.comas
      && (Complete(w1, shower.services) || MissingComas(w1, shower.services) < MissingComas(w, shower.services))
  {
    hide ReconcileComas, ReconcilePipelines, UpdateStatusNow;
    var services := shower.services;
    SetupLoop(l, services);
    var l1 := ReconcileComas(l, services).0;
    QuietRuns(l1, shower, l1.meteor.spec.pipelines);
    var (l2, ok) := ReconcilePipelines(l1, shower, l1.meteor.spec.pipelines);
    QuietWrite(l2, !ok);
    var w3 := UpdateStatusNow(l2, !ok).0.sys.world;
    assert forall x :: HasComa(l1.sys.world, x) <==> HasComa(w3, x);
    if forall x :: x in Namespaces(services) ==> Listed(l1.sys.world, l1.meteor.status.comas, x) {
      forall x | x in Namespaces(services) ensures Listed(w3, w3.meteor.value.status.comas, x) {
        ListedStable(l1.sys.world, l1.meteor.status.comas, w3, w3.meteor.value.status.comas, x);
      }
    } else {
      var x :| x in Namespaces(services) && !HasComa(l.sys.world, x) && HasComa(l1.sys.world, x);
      assert x in MissingComas(l.sys.world, services) && x !in MissingComas(w3, services);
    }
  }

  /** One fault-free pass completes the set-up or creates at least one missing Coma, and it never
      loses what is already listed. */
  lemma SetupPass(op: Op, shower: Shower)
    requires Workable(op, shower)
    ensures var op1 := Reconcile(op).0; var w := op.sys.world; var w1 := op1.sys.world;
      && Workable(op1, shower)
      && (Complete(w1, shower.services) || MissingComas(w1, shower.services) < MissingComas(w, shower.services))
      && (Complete(w, shower.services) ==> Complete(w1, shower.services))
  {
    hide Work, Locate, UpdateFinalizers, ExpirationOf, AggregatePhase, PickShower;
    QuietArrive(op.sys);
    var w := op.sys.world;
    var got := GetMeteor(op.sys);
    var m := got.res.value;
    QuietLocate(Local(got.sys, Refresh(m)), op.shower);
    var (l, found) := Locate(Local(got.sys, Refresh(m)), op.shower);
    assert found == Some(shower);
    SameExpiry(m, l.meteor);
    var (l1, ok) := EnsureFinalizers(l);
    if FINALIZER !in m.finalizers {
      QuietUpdate(l.sys, l.meteor, AddFinalizer(m.finalizers));
    }
    assert ok && Current(l1.sys.world, l1.meteor) && Quiet(l1.sys) && SameButMeteor(w, l1.sys.world);
    SetupWork(l1, shower);
    var w1 := Work(l1, shower).0.sys.world;
    SameExpiry(m, w1.meteor.value);
    PickStays(op, Reconcile(op).0, shower);
    assert MissingComas(l1.sys.world, shower.services) == MissingComas(w, shower.services);
    if Complete(w, shower.services) {
      forall x | x in Namespaces(shower.services) ensures Listed(w1, w1.meteor.value.status.comas, x) {
        ListedStable(w, m.status.comas, w1, w1.meteor.value.status.comas, x);
      }
    }
  }

  lemma SameExpiry(m: Meteor, m': Meteor)
    requires m'.spec == m.spec && m'.created == m.created
    ensures forall now :: IsTTLReached(m', now) <==> IsTTLReached(m, now)
  {
  }

  lemma SmallerSet<T>(a: set<T>, b: set<T>)
    requires a < b
    ensures |a| < |b|
  {
    var x :| x in b && x !in a;
    assert a <= b - {x};
    SubsetSize(a, b - {x});
  }

  lemma {:induction false} SubsetSize<T>(a: set<T>, b: set<T>)
    requires a <= b
    ensures |a| <= |b|
    decreases a
  {
    if a != {} {
      var x :| x in a;
      SubsetSize(a - {x}, b - {x});
    }
  }

  /** Set-up terminates: with m Comas missing, m + 1 fault-free passes leave every external namespace
      with a Coma on the stored list, and it stays that way. */
  lemma {:induction false} SetupTerminates(op: Op, shower: Shower, scripts: seq<seq<Plan>>)
    requires op.sys.up && Workable(Resume(op, []), shower)
    requires forall x :: x in scripts ==> QuietScript(x)
    requires Complete(op.sys.world, shower.services) || |scripts| > |MissingComas(op.sys.world, shower.services)|
    ensures Complete(Passes(op, scripts).sys.world, shower.services)
    decreases |scripts|
  {
    hide Reconcile, Complete, MissingComas;
    if scripts != [] {
      assert scripts[0] in scripts;
      var op0 := Resume(op, scripts[0]);
      SetupPass(op0, shower);
      var op1 := Reconcile(op0).0;
      var before := MissingComas(op.sys.world, shower.services);
      var after := MissingComas(op1.sys.world, shower.services);
      if !Complete(op1.sys.world, shower.services) { SmallerSet(after, before); }
      assert forall x :: x in scripts[1..] ==> x in scripts;
      SetupTerminates(op1, shower, scripts[1..]);
    }
  }
}
