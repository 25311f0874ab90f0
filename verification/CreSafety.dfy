/** What every run of the CustomRuntimeEnvironment controller keeps: the stored conditions are the fold
    of the landed observations, and with one build type the stored phase refines the outcome machine. */
module CreSafety {
  import opened Kube
  import opened CreApi
  import opened CreNames
  import opened CreCluster
  import opened CrePass
  import opened CreHistory

  // ---------------------------------------------------------------- the invariant of the store

  /** A stored status tells its history, and its phase is the aggregate of its own conditions. */
  ghost predicate Faithful(name: string, st: CreStatus, h: seq<Observed>) {
    && st.conditions == Fold(h)
    && (h != [] ==> st.phase == PhaseOf(st.conditions))
    && |st.pipelines| <= 1
    && forall r :: r in st.pipelines ==> r.name == name && r.ready == "False"
  }

  ghost predicate StoredOk(w: CreWorld, name: string)
    requires name in w.cres
  {
    var cre := w.cres[name];
    && cre.uid < w.nextUid && cre.rv < w.nextRv && CreVersion(name, cre) in w.versions
    && Faithful(name, cre.status, Landed(w, cre.uid))
  }

  ghost predicate VersionsOk(versions: seq<CreVersion>, nextRv: nat) {
    && (forall v :: v in versions ==> v.cre.rv < nextRv)
    && (forall u, v :: u in versions && v in versions && u.cre.rv == v.cre.rv ==> u == v)
  }

  ghost predicate OwnUids(cres: map<string, Cre>) {
    forall a, b :: a in cres && b in cres && cres[a].uid == cres[b].uid ==> a == b
  }

  ghost predicate Sound(w: CreWorld) {
    && VersionsOk(w.versions, w.nextRv) && OwnUids(w.cres)
    && (forall name :: name in w.cres ==> StoredOk(w, name))
    && (forall uid :: uid in w.landed ==> uid < w.nextUid)
  }

  /** A version that was read stays on record. */
  ghost predicate Later(w: CreWorld, w': CreWorld) {
    forall v :: v in w.versions ==> v in w'.versions
  }

  lemma VersionsGrow(versions: seq<CreVersion>, nextRv: nat, v: CreVersion)
    requires VersionsOk(versions, nextRv) && v.cre.rv == nextRv
    ensures VersionsOk(versions + [v], nextRv + 1)
  {
  }

  lemma StoredNow(w: CreWorld, name: string)
    requires Sound(w) && name in w.cres
    ensures StoredOk(w, name)
    ensures forall a :: a in w.cres && w.cres[a].uid == w.cres[name].uid ==> a == name
  {
  }

  lemma StoredElsewhere(w: CreWorld, w': CreWorld, n: string)
    requires n in w.cres && n in w'.cres && w'.cres[n] == w.cres[n] && StoredOk(w, n) && Later(w, w')
    requires w.nextUid <= w'.nextUid && w.nextRv <= w'.nextRv
    requires Landed(w', w.cres[n].uid) == Landed(w, w.cres[n].uid)
    ensures StoredOk(w', n)
  {
    hide Faithful;
  }

  lemma PutSound(w: CreWorld, name: string, cre: Cre)
    requires Sound(w) && cre.uid < w.nextUid && Faithful(name, cre.status, Landed(w, cre.uid))
    requires forall a :: a in w.cres && w.cres[a].uid == cre.uid ==> a == name
    ensures Sound(PutCre(w, name, cre)) && Later(w, PutCre(w, name, cre))
  {
    hide Faithful, VersionsOk;
    var w' := PutCre(w, name, cre);
    var v := CreVersion(name, cre.(rv := w.nextRv));
    VersionsGrow(w.versions, w.nextRv, v);
    assert v in w'.versions;
    assert Later(w, w');
    hide Later;
    forall n | n in w'.cres ensures StoredOk(w', n) {
      if n != name { StoredElsewhere(w, w', n); }
    }
  }

  lemma PutFresh(w: CreWorld, name: string, cre: Cre)
    requires Sound(w) && name !in w.cres && cre.uid == w.nextUid && cre.status == EMPTY_CRE_STATUS
    ensures var w' := PutCre(w, name, cre).(nextUid := w.nextUid + 1); Sound(w') && Later(w, w')
  {
    hide VersionsOk, OwnUids, PutCre, Faithful;
    var w0 := w.(nextUid := w.nextUid + 1);
    LaterSame(w);
    forall n | n in w0.cres ensures StoredOk(w0, n) { StoredElsewhere(w, w0, n); }
    assert Sound(w0);
    EmptyFaithful(name);
    forall a | a in w0.cres ensures w0.cres[a].uid != cre.uid { assert StoredOk(w, a); }
    assert Landed(w0, cre.uid) == [];
    hide Sound;
    PutSound(w0, name, cre);
    PutCommutes(w, name, cre);
  }

  lemma PutCommutes(w: CreWorld, name: string, cre: Cre)
    ensures PutCre(w.(nextUid := w.nextUid + 1), name, cre) == PutCre(w, name, cre).(nextUid := w.nextUid + 1)
    ensures w.(nextUid := w.nextUid + 1).versions == w.versions
  {
  }

  lemma EmptyFaithful(name: string)
    ensures Faithful(name, EMPTY_CRE_STATUS, [])
  {
  }

  /** Changes to runs, and the removal of a resource, leave the rest as it is. */
  lemma SmallerSound(w: CreWorld, w': CreWorld)
    requires Sound(w) && w' == w.(cres := w'.cres, runs := w'.runs, runLog := w'.runLog)
    requires forall n :: n in w'.cres ==> n in w.cres && w'.cres[n] == w.cres[n]
    ensures Sound(w') && Later(w, w')
  {
    hide Faithful;
    forall n | n in w'.cres ensures StoredOk(w', n) { assert StoredOk(w, n); }
  }

  lemma EditSound(w: CreWorld, name: string, cre: Cre)
    requires Sound(w) && name in w.cres && cre.uid == w.cres[name].uid && cre.status == w.cres[name].status
    ensures Sound(PutCre(w, name, cre)) && Later(w, PutCre(w, name, cre))
  {
    hide Faithful;
    assert StoredOk(w, name);
    PutSound(w, name, cre);
  }

  lemma HappenSound(w: CreWorld, e: CreEvent)
    requires Sound(w)
    ensures Sound(Happen(w, e)) && Later(w, Happen(w, e))
  {
    hide Sound, PutCre;
    match e
    case UserCreates(name, annotations, spec) =>
      if name !in w.cres {
        PutFresh(w, name, Cre(w.nextUid, 0, 1, false, annotations, spec, EMPTY_CRE_STATUS));
      }
    case UserEditsSpec(name, spec) =>
      if name in w.cres {
        EditSound(w, name, w.cres[name].(spec := spec, generation := w.cres[name].generation + 1));
      }
    case UserEditsAnnotations(name, annotations) =>
      if name in w.cres { EditSound(w, name, w.cres[name].(annotations := annotations)); }
    case UserDeletes(name) =>
      if name in w.cres {
        EditSound(w, name, w.cres[name].(deleting := true, generation := w.cres[name].generation + 1));
      }
    case _ => SmallerSound(w, Happen(w, e));
  }

  lemma {:induction false} EnvironmentSound(w: CreWorld, es: seq<CreEvent>)
    requires Sound(w)
    ensures Sound(Environment(w, es)) && Later(w, Environment(w, es))
    decreases |es|
  {
    hide Sound, Happen;
    if es != [] {
      HappenSound(w, es[0]);
      EnvironmentSound(Happen(w, es[0]), es[1..]);
    }
  }

  lemma ArriveSound(s: CreSys)
    requires Sound(s.world)
    ensures var s1 := Arrive(s).0; Sound(s1.world) && Later(s.world, s1.world) && s1.seen == s.seen
  {
    hide Sound, Later;
    if s.script != [] {
      EnvironmentSound(s.world, s.script[0].env);
    } else {
      assert Later(s.world, s.world) by { LaterSame(s.world); }
    }
  }

  lemma LaterSame(w: CreWorld)
    ensures Later(w, w)
  {
  }

  // ---------------------------------------------------------------- one pass

  /** A write that matches was made from the stored version. */
  lemma MatchMeansStored(w: CreWorld, name: string, v: Cre)
    requires Sound(w) && CreVersion(name, v) in w.versions && Matches(w, name, v)
    ensures w.cres[name] == v
  {
    hide Faithful;
    assert StoredOk(w, name);
    var u := CreVersion(name, w.cres[name]);
    assert u in w.versions && u.cre.rv == v.rv;
  }

  /** The status a pass writes over the version it read, given what it learnt. */
  ghost predicate Written(name: string, v: Cre, st: CreStatus, seen: Option<Observed>) {
    && st.conditions == (if seen.Some? then After(v.status.conditions, seen.value) else v.status.conditions)
    && st.phase == PhaseOf(st.conditions)
    && seen.Some?
    && (exists runName :: st.pipelines == WithResult(v.status.pipelines, name, runName))
  }

  lemma {:induction false} FoldExtends(h: seq<Observed>, o: Observed)
    ensures Fold(h + [o]) == After(Fold(h), o)
  {
    assert Init(h + [o]) == h;
  }

  lemma WrittenFaithful(name: string, v: Cre, st: CreStatus, h: seq<Observed>, seen: Option<Observed>)
    requires Faithful(name, v.status, h) && Written(name, v, st, seen)
    ensures Faithful(name, st, h + [seen.value])
  {
    hide Fold, After, PhaseOf;
    FoldExtends(h, seen.value);
    var runName :| st.pipelines == WithResult(v.status.pipelines, name, runName);
    if |v.status.pipelines| == 1 {
      assert v.status.pipelines[0] in v.status.pipelines;
    }
  }

  lemma LandedSound(w: CreWorld, name: string, h: seq<Observed>)
    requires Sound(w) && name in w.cres
    ensures var w0 := w.(landed := w.landed[w.cres[name].uid := h], cres := w.cres - {name}); Sound(w0) && Later(w, w0)
  {
    hide Faithful, VersionsOk;
    var w0 := w.(landed := w.landed[w.cres[name].uid := h], cres := w.cres - {name});
    StoredNow(w, name);
    LaterSame(w);
    forall n | n in w0.cres ensures StoredOk(w0, n) {
      StoredElsewhere(w, w0, n);
    }
  }

  lemma CommitSound(w: CreWorld, name: string, v: Cre, cre: Cre, seen: Option<Observed>)
    requires Sound(w) && CreVersion(name, v) in w.versions && cre.rv == v.rv && Matches(w, name, cre)
    requires Written(name, v, cre.status, seen)
    ensures var w' := CommitStatus(w, name, cre, seen); Sound(w') && Later(w, w')
  {
    hide Faithful, Sound;
    MatchMeansStored(w, name, v);
    StoredNow(w, name);
    var h := Landed(w, v.uid) + [seen.value];
    WrittenFaithful(name, v, cre.status, Landed(w, v.uid), seen);
    assert seen.Some?;
    hide Written;
    var w0 := w.(landed := w.landed[v.uid := h], cres := w.cres - {name});
    LandedSound(w, name, h);
    var stored := w.cres[name].(status := cre.status);
    PutSound(w0, name, stored);
    assert w0.cres[name := stored.(rv := w.nextRv)] == w.cres[name := stored.(rv := w.nextRv)];
    assert PutCre(w0, name, stored) == CommitStatus(w, name, cre, seen);
  }

  lemma CreateRunSound(s: CreSys, name: string, run: CreRun)
    requires Sound(s.world)
    ensures var s1 := CreateRun(s, name, run).sys; Sound(s1.world) && Later(s.world, s1.world)
  {
    hide Sound, Environment;
    ArriveSound(s);
    var w := Arrive(s).0.world;
    SmallerSound(w, PutRun(w, name, run));
  }

  lemma ReconcileRunSound(s: CreSys, name: string, cre: Cre)
    requires Sound(s.world)
    ensures var (s1, cre1) := ReconcilePipelineRun(s, name, cre);
      && Sound(s1.world) && Later(s.world, s1.world)
      && s1.seen.Some? && cre1 == cre.(status := cre1.status)
      && cre1.status.conditions == After(cre.status.conditions, s1.seen.value)
      && cre1.status.pipelines == WithResult(cre.status.pipelines, name, RunNameOf(name, cre))
  {
    hide Sound, AfterCreate, AfterFetchError, AfterWon, AfterLost, Arrive, WithResult, RunOf, RunNameOf;
    ArriveSound(s);
    var got := GetRun(s, RunNameOf(name, cre));
    if got.res.Err? && got.res.error == NotFound {
      CreateRunSound(got.sys, RunNameOf(name, cre), RunOf(name, cre));
      var made := CreateRun(got.sys, RunNameOf(name, cre), RunOf(name, cre));
      LaterTransitive(s.world, got.sys.world, made.sys.world);
    }
  }

  lemma LaterTransitive(a: CreWorld, b: CreWorld, c: CreWorld)
    requires Later(a, b) && Later(b, c)
    ensures Later(a, c)
  {
  }

  lemma GetCreSound(s: CreSys, name: string)
    requires Sound(s.world)
    ensures var got := GetCre(s, name);
      && Sound(got.sys.world)
      && (got.res.Ok? ==> CreVersion(name, got.res.value) in got.sys.world.versions)
  {
    hide Faithful, Environment;
    ArriveSound(s);
    var w := Arrive(s).0.world;
    if name in w.cres { assert StoredOk(w, name); }
  }

  lemma ConcludedWrites(name: string, v: Cre, cre0: Cre, cre1: Cre, seen: Option<Observed>)
    requires cre0 == v.(status := v.status.(phase := cre0.status.phase)) && cre1 == cre0.(status := cre1.status)
    requires seen.Some? && cre1.status.conditions == After(cre0.status.conditions, seen.value)
    requires cre1.status.pipelines == WithResult(cre0.status.pipelines, name, RunNameOf(name, cre0))
    ensures Written(name, v, Concluded(cre1).status, seen) && Concluded(cre1).rv == v.rv
  {
    hide After, WithResult, PhaseOf, RunNameOf;
  }

  lemma ReconcileSound(s: CreSys, name: string)
    requires Sound(s.world)
    ensures Sound(Reconcile(s, name).0.world)
  {
    hide Sound, ReconcilePipelineRun, Arrive, Written, CommitStatus, GetCre, Concluded, After, WithResult, RunNameOf, PhaseOf;
    GetCreSound(s, name);
    var got := GetCre(s, name);
    if got.res.Ok? && !got.res.value.deleting {
      var v := got.res.value;
      var cre0 := v.(status := v.status.(phase := PhaseOf(v.status.conditions)));
      ReconcileRunSound(got.sys, name, cre0);
      var (s1, cre1) := ReconcilePipelineRun(got.sys, name, cre0);
      ArriveSound(s1);
      ConcludedWrites(name, v, cre0, cre1, s1.seen);
      var w := Arrive(s1).0.world;
      if Matches(w, name, Concluded(cre1)) {
        CommitSound(w, name, v, Concluded(cre1), s1.seen);
      }
    }
  }

  lemma {:induction false} PassesSound(w: CreWorld, jobs: seq<Job>)
    requires Sound(w)
    ensures Sound(Passes(w, jobs))
    decreases |jobs|
  {
    hide Sound, Reconcile;
    if jobs != [] {
      ReconcileSound(Begin(w, jobs[0].script), jobs[0].name);
      PassesSound(Reconcile(Begin(w, jobs[0].script), jobs[0].name).0.world, jobs[1..]);
    }
  }

  lemma InitialSound(w: CreWorld)
    requires Initial(w)
    ensures Sound(w)
  {
  }

  /** In every reachable state, whatever was stale, refused, lost or deleted on the way, the stored
      conditions of every resource are exactly the fold of what was observed in the passes whose status
      write landed; lost writes leave no trace. After one landed pass the phase is the aggregate of the
      resource's own conditions, and its one result is never marked ready. */
  lemma {:induction false} ConditionsAreHistory(w: CreWorld, jobs: seq<Job>, name: string, kind: string)
    requires Initial(w) && name in Passes(w, jobs).cres
    ensures var w1 := Passes(w, jobs); var cre := w1.cres[name]; var h := Landed(w1, cre.uid);
      && UniqueKinds(cre.status.conditions) && Lookup(cre.status.conditions, kind) == Reading(h, kind)
      && (h != [] ==> cre.status.phase == PhaseOf(cre.status.conditions))
      && |cre.status.pipelines| <= 1 && (forall r :: r in cre.status.pipelines ==> r.name == name && r.ready == "False")
  {
    hide Passes, Fold, Reading, UniqueKinds;
    InitialSound(w);
    PassesSound(w, jobs);
    var w1 := Passes(w, jobs);
    assert StoredOk(w1, name);
    FoldReadsAsHistory(Landed(w1, w1.cres[name].uid), kind);
  }
}
