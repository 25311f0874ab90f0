/** What a fault-free pass hands over: which Comas carry the Meteor as their owner afterwards, and which
    pipelines have a run. */
module MeteorOwners {
  import opened Kube
  import opened MeteorApi
  import opened Cluster
  import opened MeteorPass
  import opened MeteorLiveness

  /** The Coma is there and carries the Meteor with that UID as its owner and controller. */
  predicate Names(w: World, k: Key, uid: nat) {
    k in w.comas && w.comas[k].owner == Some(Ref(w.key.namespace, w.key.name, uid, true))
  }

  predicate IsServed(w: World, services: seq<ExternalService>, k: Key) {
    k.name == w.key.name && k.namespace in Namespaces(services)
  }

  /** From `w` to `w'`, Comas are added or given that owner, and nothing else happens to them. */
  ghost predicate Handed(w: World, w': World, uid: nat) {
    && w'.key == w.key
    && forall k :: k in w.comas ==>
         && k in w'.comas && w'.comas[k].uid == w.comas[k].uid
         && (w'.comas[k].owner == w.comas[k].owner || Names(w', k, uid))
  }

  /** The same, but outside the served keys not even that. */
  ghost predicate LeftAlone(w: World, w': World, services: seq<ExternalService>) {
    && w'.key == w.key
    && forall k :: !IsServed(w, services, k) ==>
         (k in w'.comas <==> k in w.comas) && (k in w.comas ==> w'.comas[k] == w.comas[k])
  }

  lemma HandedTransitive(a: World, b: World, c: World, uid: nat)
    requires Handed(a, b, uid) && Handed(b, c, uid)
    ensures Handed(a, c, uid)
  {
    forall k | k in a.comas
      ensures k in c.comas && c.comas[k].uid == a.comas[k].uid
      ensures c.comas[k].owner == a.comas[k].owner || Names(c, k, uid)
    {
      assert k in b.comas;
    }
  }

  lemma NamesStay(w: World, w': World, k: Key, uid: nat)
    requires Handed(w, w', uid) && Names(w, k, uid)
    ensures Names(w', k, uid)
  {
  }

  lemma RecordNames(l: Local, k: Key, c: FoundComa)
    requires Quiet(l.sys) && k in l.sys.world.comas && (c.processed ==> c.uid == l.sys.world.comas[k].uid)
    ensures var l1 := RecordComa(l, k, c).0; var w, w1 := l.sys.world, l1.sys.world;
      && Quiet(l1.sys) && l1.meteor.uid == l.meteor.uid && w1.key == w.key
      && w1.comas == (if c.processed then w.comas[k := w1.comas[k]] else w.comas)
      && k in w1.comas && w1.comas[k].uid == w.comas[k].uid && (c.processed ==> Names(w1, k, l.meteor.uid))
  {
    hide AddRef;
    QuietArrive(l.sys);
  }

  /** One turn of the service loop: the Coma is handed over, or was missing and has been created. */
  lemma TurnNames(l: Local, namespace: string)
    requires Quiet(l.sys)
    ensures var (l1, step) := ReconcileComa(l, namespace); var w, w1 := l.sys.world, l1.sys.world;
      var k := Key(namespace, w.key.name); var uid := l.meteor.uid;
      && Quiet(l1.sys) && l1.meteor.uid == uid && w1.key == w.key && Handed(w, w1, uid)
      && (forall k' :: k' != k ==> (k' in w1.comas <==> k' in w.comas) && (k' in w.comas ==> w1.comas[k'] == w.comas[k']))
      && k in w1.comas && step != Stop && (if step == Next then Names(w1, k, uid) else k !in w.comas)
  {
    hide RecordComa;
    var k := Key(namespace, l.sys.world.key.name);
    QuietArrive(l.sys);
    var got := GetComa(l.sys, k);
    StepOfRecord(Local(got.sys, l.meteor), k, if got.res.Ok? then got.res.value else FoundComa(0, false));
    if got.res.Ok? {
      RecordNames(Local(got.sys, l.meteor), k, got.res.value);
    } else {
      QuietArrive(got.sys);
      var made := CreateComa(got.sys, k, l.meteor);
      StepOfRecord(Local(made.sys, l.meteor), k, made.res.value);
      RecordNames(Local(made.sys, l.meteor), k, made.res.value);
    }
  }

  lemma StepOfRecord(l: Local, k: Key, c: FoundComa)
    ensures RecordComa(l, k, c).1 == if c.processed then Next else Wait
  {
  }

  /** Every served Coma was handed over, or one that was missing has been created. */
  ghost predicate Served(w: World, w': World, services: seq<ExternalService>, uid: nat) {
    || (forall x :: x in Namespaces(services) ==> Names(w', Key(x, w.key.name), uid))
    || (exists x :: x in Namespaces(services) && !HasComa(w, x) && HasComa(w', x))
  }

  lemma NamespacesStep(services: seq<ExternalService>)
    requires services != []
    ensures var x := services[0].namespace;
      Namespaces(services) == Namespaces(services[1..]) + if x == "" then {} else {x}
  {
    assert services == [services[0]] + services[1..];
  }

  lemma ServedStep(w: World, w1: World, w2: World, services: seq<ExternalService>, uid: nat)
    requires services != [] && services[0].namespace != "" && w1.key == w.key
    requires Handed(w, w1, uid) && Handed(w1, w2, uid)
    requires Names(w1, Key(services[0].namespace, w.key.name), uid) && Served(w1, w2, services[1..], uid)
    ensures Served(w, w2, services, uid)
  {
    hide Names, Namespaces;
    var namespace, rest := services[0].namespace, services[1..];
    NamespacesStep(services);
    NamesStay(w1, w2, Key(namespace, w.key.name), uid);
    if x :| x in Namespaces(rest) && !HasComa(w1, x) && HasComa(w2, x) {
      assert x in Namespaces(services) && !HasComa(w, x);
    }
  }

  lemma LeftAloneStep(w: World, w1: World, w2: World, services: seq<ExternalService>)
    requires services != [] && services[0].namespace != "" && w1.key == w.key && LeftAlone(w1, w2, services[1..])
    requires var k := Key(services[0].namespace, w.key.name);
      forall k' :: k' != k ==> (k' in w1.comas <==> k' in w.comas) && (k' in w.comas ==> w1.comas[k'] == w.comas[k'])
    ensures LeftAlone(w, w2, services)
  {
    NamespacesStep(services);
    forall k | !IsServed(w, services, k)
      ensures (k in w2.comas <==> k in w.comas) && (k in w.comas ==> w2.comas[k] == w.comas[k])
    {
      assert !IsServed(w1, services[1..], k);
    }
  }

  /** The service loop hands over the Coma of every namespace or creates one that was missing, and leaves
      all other Comas alone. */
  lemma {:induction false} LoopNames(l: Local, services: seq<ExternalService>)
    requires Quiet(l.sys)
    ensures var l1 := ReconcileComas(l, services).0; var w, w1 := l.sys.world, l1.sys.world;
      && Quiet(l1.sys) && l1.meteor.uid == l.meteor.uid && Handed(w, w1, l.meteor.uid)
      && LeftAlone(w, w1, services) && Served(w, w1, services, l.meteor.uid)
    decreases |services|
  {
    hide ReconcileComa, Names, Namespaces, Handed, LeftAlone, Served;
    var w := l.sys.world;
    NothingHanded(w, services, l.meteor.uid);
    if services != [] {
      NamespacesStep(services);
      var namespace, rest := services[0].namespace, services[1..];
      if namespace == "" {
        LoopNames(l, rest);
        NoNamespace(w, ReconcileComas(l, rest).0.sys.world, services, l.meteor.uid);
      } else {
        TurnNames(l, namespace);
        var (l1, step) := ReconcileComa(l, namespace);
        if step == Next {
          LoopNames(l1, rest);
          var w2 := ReconcileComas(l1, rest).0.sys.world;
          HandedTransitive(w, l1.sys.world, w2, l.meteor.uid);
          ServedStep(w, l1.sys.world, w2, services, l.meteor.uid);
          LeftAloneStep(w, l1.sys.world, w2, services);
        } else {
          NothingHanded(l1.sys.world, rest, l.meteor.uid);
          LeftAloneStep(w, l1.sys.world, l1.sys.world, services);
          MadeOne(w, l1.sys.world, services, l.meteor.uid);
        }
      }
    }
  }

  lemma NothingHanded(w: World, services: seq<ExternalService>, uid: nat)
    ensures Handed(w, w, uid) && LeftAlone(w, w, services) && Served(w, w, [], uid)
  {
  }

  lemma NoNamespace(w: World, w': World, services: seq<ExternalService>, uid: nat)
    requires services != [] && Namespaces(services) == Namespaces(services[1..])
    ensures LeftAlone(w, w', services) <==> LeftAlone(w, w', services[1..])
    ensures Served(w, w', services, uid) <==> Served(w, w', services[1..], uid)
  {
    hide Names, Namespaces;
  }

  lemma MadeOne(w: World, w': World, services: seq<ExternalService>, uid: nat)
    requires services != [] && services[0].namespace != "" && w'.key == w.key
    requires var k := Key(services[0].namespace, w.key.name); k !in w.comas && k in w'.comas
    ensures Served(w, w', services, uid)
  {
    hide Names;
    assert services[0] in services;
    assert services[0].namespace in Namespaces(services);
  }

  // ---------------------------------------------------------------- runs

  /** Without faults, a missing run is created exactly when there is a recorded Coma to own it. */
  lemma RunMade(l: Local, shower: Shower, n: string)
    requires Quiet(l.sys)
    ensures var (l1, ok) := ReconcilePipelineRun(l, shower, n); var w, w1 := l.sys.world, l1.sys.world;
      var name := RunName(w.key.name, n);
      && ok && RunsKeep(l, l1)
      && w1.runs.Keys == w.runs.Keys + (if l.meteor.status.comas == [] then {} else {name})
      && (forall x :: x in w.runs ==> x in w1.runs && w1.runs[x] == w.runs[x])
  {
    hide Observe, SetRunCondition, RunSpecOf, WithResult, RunName;
    QuietRun(l, shower, n);
    QuietArrive(l.sys);
    var key := l.sys.world.key;
    var st := WithResult(l.meteor.status, key.name, n);
    StatusEditsKeepComas(l.meteor.status, key.name, n, st);
    var got := GetRun(l.sys, RunName(key.name, n));
    QuietArrive(got.sys);
  }

  lemma {:induction false} RunsMade(l: Local, shower: Shower, names: seq<string>)
    requires Quiet(l.sys)
    ensures var (l1, ok) := ReconcilePipelines(l, shower, names); var w, w1 := l.sys.world, l1.sys.world;
      && ok && RunsKeep(l, l1)
      && (forall x :: x in w1.runs <==>
            x in w.runs || (l.meteor.status.comas != [] && exists n :: n in names && x == RunName(w.key.name, n)))
      && (forall x :: x in w.runs ==> w1.runs[x] == w.runs[x])
    decreases |names|
  {
    hide ReconcilePipelineRun, RunName;
    if names != [] {
      assert names == [names[0]] + names[1..];
      RunMade(l, shower, names[0]);
      var (l1, ok) := ReconcilePipelineRun(l, shower, names[0]);
      RunsMade(l1, shower, names[1..]);
    }
  }

  /** The runs a Meteor is owed are there exactly when it has a Coma to own them, or they were there before;
      runs that were there stay as they are. */
  ghost predicate RunsGiven(w: World, w': World, names: seq<string>, comas: seq<Ref>) {
    && (forall x :: x in w'.runs <==> x in w.runs || (comas != [] && exists n :: n in names && x == RunName(w.key.name, n)))
    && (forall x :: x in w.runs ==> w'.runs[x] == w.runs[x])
  }

  // ---------------------------------------------------------------- the pass

  lemma WorkHands(l: Local, shower: Shower)
    requires Quiet(l.sys) && Current(l.sys.world, l.meteor)
    ensures var w, w1 := l.sys.world, Work(l, shower).0.sys.world; var uid := l.meteor.uid;
      && Handed(w, w1, uid) && LeftAlone(w, w1, shower.services) && Served(w, w1, shower.services, uid)
      && w1.meteor.Some? && w1.meteor.value.uid == uid && w1.meteor.value.spec == l.meteor.spec
      && l.meteor.status.comas <= w1.meteor.value.status.comas
      && RunsGiven(w, w1, l.meteor.spec.pipelines, w1.meteor.value.status.comas)
  {
    hide ReconcileComas, ReconcilePipelines, UpdateStatusNow, Served, LeftAlone, Handed;
    LoopNames(l, shower.services);
    SetupLoop(l, shower.services);
    var l1 := ReconcileComas(l, shower.services).0;
    RunsMade(l1, shower, l1.meteor.spec.pipelines);
    var (l2, ok) := ReconcilePipelines(l1, shower, l1.meteor.spec.pipelines);
    QuietWrite(l2, !ok);
    var w3 := UpdateStatusNow(l2, !ok).0.sys.world;
    SameComas(l.sys.world, l1.sys.world, l.sys.world, w3, shower.services, l.meteor.uid);
  }

  lemma SameComas(a: World, b: World, a': World, b': World, services: seq<ExternalService>, uid: nat)
    requires a'.key == a.key && b'.key == b.key && a'.comas == a.comas && b'.comas == b.comas
    requires Handed(a, b, uid) && LeftAlone(a, b, services) && Served(a, b, services, uid)
    ensures Handed(a', b', uid) && LeftAlone(a', b', services) && Served(a', b', services, uid)
  {
    hide Namespaces;
    if forall x :: x in Namespaces(services) ==> Names(b, Key(x, a.key.name), uid) {
      forall x | x in Namespaces(services) ensures Names(b', Key(x, a.key.name), uid) {
        assert Names(b, Key(x, a.key.name), uid);
      }
    } else {
      var x :| x in Namespaces(services) && !HasComa(a, x) && HasComa(b, x);
      assert !HasComa(a', x) && HasComa(b', x);
    }
  }

  /** One fault-free pass hands over or creates, leaves other Comas alone, and gives every listed pipeline a
      run once there is a Coma to own it. */
  lemma PassHands(op: Op, shower: Shower)
    requires Workable(op, shower)
    ensures var w, w1 := op.sys.world, Reconcile(op).0.sys.world; var m := w.meteor.value;
      && Handed(w, w1, m.uid) && LeftAlone(w, w1, shower.services) && Served(w, w1, shower.services, m.uid)
      && w1.meteor.Some? && w1.meteor.value.uid == m.uid && w1.meteor.value.spec == m.spec
      && m.status.comas <= w1.meteor.value.status.comas
      && RunsGiven(w, w1, m.spec.pipelines, w1.meteor.value.status.comas)
  {
    hide Quiet, Work, Locate, UpdateFinalizers, ExpirationOf, AggregatePhase, PickShower, GetMeteor;
    hide Handed, LeftAlone, Served, AddFinalizer;
    QuietRead(op.sys);
    var w := op.sys.world;
    var got := GetMeteor(op.sys);
    var m := got.res.value;
    QuietLocate(Local(got.sys, Refresh(m)), op.shower);
    var (l, found) := Locate(Local(got.sys, Refresh(m)), op.shower);
    assert found == Some(shower);
    SameExpiry(m, l.meteor);
    var (l1, ok) := EnsureFinalizers(l);
    if FINALIZER !in m.finalizers {
      QuietUpdate(l.sys, l.meteor, AddFinalizer(m.finalizers));
    }
    WorkHands(l1, shower);
    var w1 := Work(l1, shower).0.sys.world;
    SameComas(l1.sys.world, w1, w, w1, shower.services, m.uid);
  }

  // ---------------------------------------------------------------- the theorems

  /** After a fault-free pass that had nothing to create, a Coma carries the stored Meteor as its owner
      exactly when the Shower serves its namespace, or it did so before: a Coma recorded for a namespace that
      is no longer served is not looked at again. And every listed pipeline has a run exactly when one was
      there or some Coma is recorded. */
  lemma ComaIsOwnedIff(op: Op, shower: Shower, k: Key, n: string)
    requires Workable(op, shower) && n in op.sys.world.meteor.value.spec.pipelines
    ensures var w, w1 := op.sys.world, Reconcile(op).0.sys.world;
      && w1.meteor.Some? && w1.meteor.value.uid == w.meteor.value.uid
      && w.meteor.value.status.comas <= w1.meteor.value.status.comas
      && var m1 := w1.meteor.value;
        && (MissingComas(w1, shower.services) < MissingComas(w, shower.services)
            || (k in w1.comas ==>
                  (w1.comas[k].owner == Some(Ref(w.key.namespace, w.key.name, m1.uid, true))
                   <==> || (k.name == w.key.name && k.namespace != ""
                            && exists x :: x in shower.services && x.namespace == k.namespace)
                        || (k in w.comas && w.comas[k].owner == Some(Ref(w.key.namespace, w.key.name, m1.uid, true))))))
        && (w.key.name + "-" + n in w1.runs <==> w.key.name + "-" + n in w.runs || m1.status.comas != [])
  {
    hide Reconcile, MissingComas, Served;
    var w, w1 := op.sys.world, Reconcile(op).0.sys.world;
    var uid := w.meteor.value.uid;
    hide Workable;
    PassHands(op, shower);
    ServedOrFewer(w, w1, shower.services, uid);
    ServedMeaning(w, shower.services, k);
    assert RunName(w.key.name, n) == w.key.name + "-" + n;
    assert n in w.meteor.value.spec.pipelines;
  }

  lemma ServedMeaning(w: World, services: seq<ExternalService>, k: Key)
    ensures IsServed(w, services, k)
            <==> k.name == w.key.name && k.namespace != "" && exists x :: x in services && x.namespace == k.namespace
  {
  }

  lemma ServedOrFewer(w: World, w': World, services: seq<ExternalService>, uid: nat)
    requires Handed(w, w', uid) && Served(w, w', services, uid)
    ensures MissingComas(w', services) < MissingComas(w, services)
         || (w'.key == w.key && forall k :: IsServed(w, services, k) ==> Names(w', k, uid))
  {
    hide Names;
    if x :| x in Namespaces(services) && !HasComa(w, x) && HasComa(w', x) {
      assert x in MissingComas(w, services) && x !in MissingComas(w', services);
      assert MissingComas(w', services) <= MissingComas(w, services);
    } else {
      forall k | IsServed(w, services, k) ensures Names(w', k, uid) {
        assert k == Key(k.namespace, w.key.name);
      }
    }
  }

  /** Every external namespace has a Coma on the stored list that carries the Meteor as its owner; and if
      there is such a namespace, every listed pipeline has a run. */
  predicate HandedOver(w: World, services: seq<ExternalService>) {
    && Complete(w, services)
    && var m := w.meteor.value;
      && (forall x :: x in Namespaces(services) ==> Names(w, Key(x, w.key.name), m.uid))
      && (Namespaces(services) != {} ==> forall n :: n in m.spec.pipelines ==> RunName(w.key.name, n) in w.runs)
  }

  lemma PassHandsOver(op: Op, shower: Shower)
    requires Workable(op, shower)
    ensures var w, w1 := op.sys.world, Reconcile(op).0.sys.world;
      && (HandedOver(w1, shower.services) || MissingComas(w1, shower.services) < MissingComas(w, shower.services))
      && (HandedOver(w, shower.services) ==> HandedOver(w1, shower.services))
  {
    hide Reconcile, MissingComas, Served, Names;
    var w, w1 := op.sys.world, Reconcile(op).0.sys.world;
    var m, services := w.meteor.value, shower.services;
    hide Workable;
    PassHands(op, shower);
    SetupPass(op, shower);
    ServedOrFewer(w, w1, services, m.uid);
    if HandedOver(w, services) {
      forall x | x in Namespaces(services) ensures Names(w1, Key(x, w.key.name), m.uid) {
        NamesStay(w, w1, Key(x, w.key.name), m.uid);
      }
    } else if !(MissingComas(w1, services) < MissingComas(w, services)) {
      forall x | x in Namespaces(services) ensures Names(w1, Key(x, w.key.name), m.uid) {
        assert IsServed(w, services, Key(x, w.key.name));
      }
      if x :| x in Namespaces(services) { assert Listed(w1, w1.meteor.value.status.comas, x); }
    }
  }

  /** With m Comas missing, m + 1 fault-free passes hand everything over, and it stays that way. */
  lemma {:induction false} EverythingIsHandedOver(op: Op, shower: Shower, scripts: seq<seq<Plan>>)
    requires op.sys.up && Workable(Resume(op, []), shower)
    requires forall x :: x in scripts ==> QuietScript(x)
    requires HandedOver(op.sys.world, shower.services) || |scripts| > |MissingComas(op.sys.world, shower.services)|
    ensures HandedOver(Passes(op, scripts).sys.world, shower.services)
    decreases |scripts|
  {
    hide Reconcile, HandedOver, MissingComas;
    if scripts != [] {
      assert scripts[0] in scripts;
      var op0 := Resume(op, scripts[0]);
      SetupPass(op0, shower);
      PassHandsOver(op0, shower);
      var op1 := Reconcile(op0).0;
      var before := MissingComas(op.sys.world, shower.services);
      var after := MissingComas(op1.sys.world, shower.services);
      if !HandedOver(op1.sys.world, shower.services) { SmallerSet(after, before); }
      assert forall x :: x in scripts[1..] ==> x in scripts;
      EverythingIsHandedOver(op1, shower, scripts[1..]);
    }
  }
}
