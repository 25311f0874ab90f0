/** What every stored Meteor status satisfies, and that each in-memory edit of a pass keeps it. */
module MeteorStatusLemmas {
  import opened Kube
  import opened MeteorApi
  import opened Cluster
  import opened MeteorPass

  /** The record of Comas: the Meteor's own name, a real namespace, no repetition. */
  ghost predicate RecordSound(key: Key, comas: seq<Ref>) {
    && (forall r :: r in comas ==> r.name == key.name && r.namespace != "" && !r.controller)
    && NoDup(comas)
  }

  /** Per-pipeline results: unique names, the run name of their pipeline, and Ready is "True" exactly
      for the runs listed as succeeded. */
  ghost predicate ResultsAgree(meteor: string, st: MeteorStatus) {
    var rs := st.pipelines;
    && (forall i, j :: 0 <= i < j < |rs| ==> rs[i].name != rs[j].name)
    && (forall i :: 0 <= i < |rs| ==>
          && rs[i].runName == RunName(meteor, rs[i].name)
          && rs[i].ready in {"True", "False"}
          && (rs[i].ready == "True" <==> rs[i].runName in st.stage.succeeded))
    && (forall x :: x in st.stage.succeeded ==> exists i :: 0 <= i < |rs| && rs[i].runName == x)
  }

  ghost predicate StageSound(stage: Stage) {
    NoDup(stage.running) && NoDup(stage.succeeded) && NoDup(stage.failed)
  }

  ghost predicate StatusSound(key: Key, st: MeteorStatus) {
    RecordSound(key, st.comas) && ResultsAgree(key.name, st) && UniqueKinds(st.conditions) && StageSound(st.stage)
  }

  lemma PlaceRunSound(stage: Stage, runName: string, place: Place)
    requires StageSound(stage)
    ensures StageSound(PlaceRun(stage, runName, place))
  {
    RemoveMeaning(stage.running, runName);
  }

  /** No two results share a run: the results are injective in the pipeline. */
  lemma ResultsHaveOwnRuns(meteor: string, st: MeteorStatus, i: nat, j: nat)
    requires ResultsAgree(meteor, st) && i < j < |st.pipelines|
    ensures st.pipelines[i].runName != st.pipelines[j].runName
  {
    if st.pipelines[i].runName == st.pipelines[j].runName {
      RunNameInjective(meteor, st.pipelines[i].name, st.pipelines[j].name);
    }
  }

  lemma AddRefSound(key: Key, refs: seq<Ref>, ref: Ref)
    requires RecordSound(key, refs) && ref.name == key.name && ref.namespace != "" && !ref.controller
    ensures RecordSound(key, AddRef(refs, ref)) && refs <= AddRef(refs, ref)
    ensures ref in AddRef(refs, ref)
    ensures forall r :: r in AddRef(refs, ref) ==> r in refs || r == ref
  {
    if ContainsComa(refs, ref) {
      var r :| r in refs && r.namespace == ref.namespace && r.name == ref.name && r.uid == ref.uid;
      assert r == ref;
    }
  }

  lemma WithResultSound(key: Key, st: MeteorStatus, n: string)
    requires StatusSound(key, st)
    ensures StatusSound(key, WithResult(st, key.name, n))
  {
    var rs := st.pipelines;
    var st1 := WithResult(st, key.name, n);
    if ResultIndex(rs, n) == |rs| {
      var x := RunName(key.name, n);
      if x in st.stage.succeeded {
        var i :| 0 <= i < |rs| && rs[i].runName == x;
        RunNameInjective(key.name, rs[i].name, n);
        assert false;
      }
      forall y | y in st.stage.succeeded ensures exists i :: 0 <= i < |st1.pipelines| && st1.pipelines[i].runName == y {
        var i :| 0 <= i < |rs| && rs[i].runName == y;
        assert st1.pipelines[i] == rs[i];
      }
    }
  }

  lemma SetRunConditionSound(key: Key, st: MeteorStatus, n: string, status: CondStatus, reason: string)
    requires StatusSound(key, st)
    ensures StatusSound(key, SetRunCondition(st, n, status, reason))
  {
    SetKeepsUnique(st.conditions, Condition(CondKind(n), status, reason));
  }

  /** The run of a pipeline that succeeded: its result, and only its result, becomes ready. */
  lemma MarkReadyAgrees(key: Key, st: MeteorStatus, n: string, run: Run, i: nat)
    requires ResultsAgree(key.name, st) && i < |st.pipelines| && st.pipelines[i].name == n
    ensures ResultsAgree(key.name, st.(
      pipelines := st.pipelines[i := MarkReady(st.pipelines[i], run)],
      stage := PlaceRun(st.stage, RunName(key.name, n), Won)))
  {
    var x := RunName(key.name, n);
    var done := st.pipelines[i := MarkReady(st.pipelines[i], run)];
    var succeeded := AppendUnique(st.stage.succeeded, x);
    forall j | 0 <= j < |done|
      ensures done[j].name == st.pipelines[j].name && done[j].runName == st.pipelines[j].runName
      ensures done[j].ready in {"True", "False"} && (done[j].ready == "True" <==> done[j].runName in succeeded)
    {
      OneResultAgrees(key, st, n, run, i, j);
    }
    forall y | y in succeeded ensures exists j :: 0 <= j < |done| && done[j].runName == y {
      var j :| 0 <= j < |done| && st.pipelines[j].runName == y;
      assert done[j].runName == y;
    }
  }

  lemma OneResultAgrees(key: Key, st: MeteorStatus, n: string, run: Run, i: nat, j: nat)
    requires ResultsAgree(key.name, st) && i < |st.pipelines| && j < |st.pipelines| && st.pipelines[i].name == n
    ensures var done := st.pipelines[i := MarkReady(st.pipelines[i], run)];
      && done[j].name == st.pipelines[j].name && done[j].runName == st.pipelines[j].runName
      && done[j].ready in {"True", "False"}
      && (done[j].ready == "True" <==> done[j].runName in AppendUnique(st.stage.succeeded, RunName(key.name, n)))
  {
    if j < i {
      ResultsHaveOwnRuns(key.name, st, j, i);
    } else if i < j {
      ResultsHaveOwnRuns(key.name, st, i, j);
    }
  }

  /** Finding a run keeps results and stage lists in step, however the run is found. */
  lemma {:induction false} ObserveSound(key: Key, st: MeteorStatus, n: string, run: Run)
    requires StatusSound(key, st) && ResultIndex(st.pipelines, n) < |st.pipelines|
    ensures StatusSound(key, Observe(st, key.name, n, run))
  {
    hide RecordSound, UniqueKinds, StageSound, MarkReady;
    PlaceRunSound(st.stage, RunName(key.name, n), PlaceOf(run));
    if run.conditions != [] {
      SetRunConditionSound(key, st, n, run.conditions[0].status, run.conditions[0].reason);
    }
    if PlaceOf(run) == Won {
      hide ResultsAgree;
      MarkReadyAgrees(key, CopyCondition(st, n, run), n, run, ResultIndex(st.pipelines, n));
    }
  }
}
