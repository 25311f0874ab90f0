/** The Meteor controller as it is written: an object whose methods overwrite its in-memory Meteor and
    Shower and call the API server. Every method is proved against its function in MeteorPass. */
module MeteorController {
  import opened Kube
  import opened MeteorApi
  import opened Cluster
  import P = MeteorPass

  /** The phase gauge of one Meteor (controllers/common/metrics.go). */
  class PhaseGauge {
    var cells: map<Phase, int>

    constructor ()
      ensures cells == map[]
    {
      cells := map[];
    }

    method BeforeReconcile(m: Meteor)
      modifies this
      ensures cells == old(cells)[m.status.phase := 0]
    {
      cells := cells[m.status.phase := 0];
    }

    method AfterReconcile(m: Meteor)
      modifies this
      ensures cells == old(cells)[m.status.phase := 1]
    {
      cells := cells[m.status.phase := 1];
    }
  }

  method ContainsString(slice: seq<string>, s: string) returns (found: bool)
    ensures found <==> s in slice
  {
    for i := 0 to |slice|
      invariant s !in slice[..i]
    {
      if slice[i] == s {
        return true;
      }
    }
    return false;
  }

  method ContainsComa(slice: seq<Ref>, ref: Ref) returns (found: bool)
    ensures found <==> P.ContainsComa(slice, ref)
  {
    for i := 0 to |slice|
      invariant forall j :: 0 <= j < i ==>
        !(slice[j].namespace == ref.namespace && slice[j].name == ref.name && slice[j].uid == ref.uid)
    {
      var item := slice[i];
      if item.namespace == ref.namespace && item.name == ref.name && item.uid == ref.uid {
        assert item in slice;
        return true;
      }
    }
    return false;
  }

  method AppendUniqueTo(slice: seq<string>, elem: string) returns (r: seq<string>)
    ensures r == AppendUnique(slice, elem)
  {
    for i := 0 to |slice|
      invariant elem !in slice[..i]
    {
      if slice[i] == elem {
        return slice;
      }
    }
    return slice + [elem];
  }

  lemma {:induction false} RemoveStep(slice: seq<string>, i: nat, elem: string)
    requires i < |slice| && slice[i] != elem
    ensures slice[..i] + Remove(slice[i..], elem) == slice[..i + 1] + Remove(slice[i + 1..], elem)
    ensures elem in slice[..i + 1] ==> elem in slice[..i]
  {
    assert slice[i..][1..] == slice[i + 1..];
    assert slice[..i + 1] == slice[..i] + [slice[i]];
  }

  method RemoveFrom(slice: seq<string>, elem: string) returns (r: seq<string>)
    ensures r == Remove(slice, elem)
  {
    for i := 0 to |slice|
      invariant elem !in slice[..i]
      invariant Remove(slice, elem) == slice[..i] + Remove(slice[i..], elem)
    {
      if slice[i] == elem {
        return slice[..i] + slice[i + 1..];
      }
      RemoveStep(slice, i, elem);
    }
    assert slice[|slice|..] == [] && slice[..|slice|] == slice;
    return slice;
  }

  class MeteorReconciler {
    var sys: Sys
    var meteor: Meteor
    var shower: Option<Shower>
    const metrics: PhaseGauge

    ghost function State(): P.Op
      reads this, metrics
    {
      P.Op(sys, meteor, shower, metrics.cells)
    }

    ghost function Here(): P.Local
      reads this
    {
      P.Local(sys, meteor)
    }

    constructor (sys: Sys, metrics: PhaseGauge)
      ensures this.sys == sys && this.metrics == metrics && meteor == EMPTY_METEOR && shower == None
    {
      this.sys := sys;
      this.meteor := EMPTY_METEOR;
      this.shower := None;
      this.metrics := metrics;
    }

    method Reconcile() returns (outcome: P.Outcome)
      modifies this, metrics
      ensures (State(), outcome) == P.Reconcile(old(State()))
    {
      meteor := EMPTY_METEOR;
      var got := GetMeteor(sys);
      sys := got.sys;
      if got.res.Err? {
        if got.res.error == NotFound {
          return P.DONE;
        }
        return P.Outcome(true, false, true);
      }
      meteor := got.res.value;

      metrics.BeforeReconcile(meteor);
      meteor := meteor.(status := meteor.status.(observedGeneration := meteor.generation));
      meteor := meteor.(status := meteor.status.(phase := AggregatePhase(meteor.status)));
      if meteor.spec.ttl != 0 {
        meteor := meteor.(status := meteor.status.(expiration := Some(ExpirationOf(meteor))));
      }
      assert meteor == P.Refresh(got.res.value);

      ghost var start := Here();
      var found := FindOwnerShower();
      if !found {
        var _ := UpdateStatusNow(true);
      }
      assert (Here(), shower) == P.Locate(start, old(shower));

      metrics.AfterReconcile(meteor);
      outcome := Proceed();
    }

    /** The rest of the pass, from the expiry check on. */
    method Proceed() returns (outcome: P.Outcome)
      modifies this`sys, this`meteor
      ensures (Here(), outcome) == P.Proceed(old(Here()), shower)
    {
      if IsTTLReached(meteor, sys.world.now) && !meteor.deleting {
        var deleted := DeleteMeteor(sys, meteor);
        sys := deleted.sys;
        if deleted.res.Err? {
          return P.Outcome(true, false, true);
        }
        return P.DONE;
      }

      var ok := EnsureFinalizers();
      if !ok {
        return P.Outcome(false, false, true);
      }
      if meteor.deleting {
        return P.DONE;
      }
      if shower.None? {
        // The loop header of ReconcileComas dereferences a nil Shower: the process dies here.
        sys := sys.(up := false);
        return P.DONE;
      }

      ghost var l0 := Here();
      ok := ReconcileComas();
      if !ok {
        outcome := UpdateStatusNow(true);
        return;
      }

      ghost var l1 := Here();
      var pipelines := meteor.spec.pipelines;
      for i := 0 to |pipelines|
        invariant P.ReconcilePipelines(l1, shower.value, pipelines)
                  == P.ReconcilePipelines(Here(), shower.value, pipelines[i..])
      {
        ok := ReconcilePipelineRun(pipelines[i]);
        assert pipelines[i..][1..] == pipelines[i + 1..];
        if !ok {
          assert P.ReconcilePipelines(l1, shower.value, pipelines) == (Here(), false);
          outcome := UpdateStatusNow(true);
          return;
        }
      }
      outcome := UpdateStatusNow(false);
    }

    method UpdateStatusNow(failed: bool) returns (outcome: P.Outcome)
      modifies this`sys, this`meteor
      ensures (Here(), outcome) == P.UpdateStatusNow(old(Here()), failed)
    {
      var written := WriteStatus(sys, meteor);
      sys := written.sys;
      if written.res.Err? {
        return P.Outcome(true, false, false);
      }
      meteor := written.res.value;
      return P.Outcome(false, true, failed);
    }

    method SetPipelineCondition(name: string, status: CondStatus, reason: string)
      modifies this`meteor
      ensures meteor == old(meteor).(status := P.SetRunCondition(old(meteor).status, name, status, reason))
    {
      var condition := Condition(PIPELINE_RUN + Title(name), status, reason);
      meteor := meteor.(status := meteor.status.(conditions := SetCondition(meteor.status.conditions, condition)));
    }

    method FindOwnerShower() returns (ok: bool)
      modifies this`sys, this`shower
      ensures P.Owner(sys, shower, ok) == P.FindOwnerShower(old(sys), meteor, old(shower))
    {
      var listed := ListShowers(sys);
      sys := listed.sys;
      if listed.res.Err? {
        return false;
      }
      var items := listed.res.value;
      if |items| == 0 {
        return false;
      }
      if |items| == 1 {
        shower := Some(items[0]);
      } else if meteor.selector.Some? {
        // One loop variable for the whole loop: its address is what a match stores.
        var s := items[0];
        var stored := false;
        for i := 0 to |items|
          invariant i > 0 ==> s == items[i - 1]
          invariant stored <==> exists j :: 0 <= j < i && items[j].name == meteor.selector.value
        {
          s := items[i];
          if s.name == meteor.selector.value {
            stored := true;
          }
        }
        if stored {
          shower := Some(s);
        }
      }
      return shower.Some?;
    }

    method EnsureFinalizers() returns (ok: bool)
      modifies this`sys, this`meteor
      ensures (Here(), ok) == P.EnsureFinalizers(old(Here()))
    {
      var held := ContainsString(meteor.finalizers, FINALIZER);
      if !meteor.deleting {
        if !held {
          meteor := meteor.(finalizers := P.AddFinalizer(meteor.finalizers));
          var updated := UpdateMeteor(sys, meteor);
          sys := updated.sys;
          if updated.res.Err? {
            return false;
          }
          meteor := updated.res.value;
        }
      } else if held {
        ok := DeleteComas();
        if !ok {
          return false;
        }
        meteor := meteor.(finalizers := P.RemoveFinalizer(meteor.finalizers));
        var updated := UpdateMeteor(sys, meteor);
        sys := updated.sys;
        if updated.res.Err? {
          return false;
        }
        meteor := updated.res.value;
      }
      return true;
    }

    method ReconcileComas() returns (ok: bool)
      requires shower.Some?
      modifies this`sys, this`meteor
      ensures (Here(), ok) == P.ReconcileComas(old(Here()), shower.value.services)
    {
      var services := shower.value.services;
      ghost var l0 := Here();
      for i := 0 to |services|
        invariant P.ReconcileComas(l0, services) == P.ReconcileComas(Here(), services[i..])
      {
        assert services[i..][1..] == services[i + 1..];
        var namespace := services[i].namespace;
        if namespace == "" {
          continue;
        }
        ghost var here := Here();
        var k := Key(namespace, sys.world.key.name);
        var coma := FoundComa(0, false);
        var got := GetComa(sys, k);
        sys := got.sys;
        if got.res.Ok? {
          coma := got.res.value;
        } else if got.res.error == NotFound {
          var made := CreateComa(sys, k, meteor);
          sys := made.sys;
          if made.res.Err? {
            assert P.ReconcileComa(here, namespace) == (Here(), P.Stop);
            return false;
          }
          coma := made.res.value;
        }
        if !coma.processed {
          assert P.ReconcileComa(here, namespace) == (Here(), P.Wait);
          return true;
        }
        RecordComa(k, coma);
        assert P.ReconcileComa(here, namespace) == (Here(), P.Next);
      }
      return true;
    }

    /** The part of the loop body after the Coma was found or created. */
    method RecordComa(k: Key, coma: FoundComa)
      requires coma.processed
      modifies this`sys, this`meteor
      ensures (Here(), P.Next) == P.RecordComa(old(Here()), k, coma)
    {
      var ref := Ref(k.namespace, k.name, coma.uid, false);
      var listed := ContainsComa(meteor.status.comas, ref);
      if !listed {
        meteor := meteor.(status := meteor.status.(comas := meteor.status.comas + [ref]));
      }
      var written := WriteComaOwner(sys, k, coma.uid, P.OwnerRef(sys.world.key, meteor, true));
      sys := written.sys;
    }

    method DeleteComas() returns (ok: bool)
      modifies this`sys
      ensures (sys, ok) == P.DeleteComas(old(sys), meteor.status.comas)
    {
      var refs := meteor.status.comas;
      for i := 0 to |refs|
        invariant P.DeleteComas(old(sys), refs) == P.DeleteComas(sys, refs[i..])
      {
        assert refs[i..][1..] == refs[i + 1..];
        var deleted := DeleteComa(sys, Key(refs[i].namespace, refs[i].name));
        sys := deleted.sys;
        if deleted.res.Err? {
          return false;
        }
      }
      return true;
    }

    /** Index of the result of a pipeline, appending a fresh one when there is none. */
    method StatusIndex(name: string, runName: string) returns (index: nat)
      requires runName == RunName(sys.world.key.name, name)
      modifies this`meteor
      ensures meteor == old(meteor).(status := P.WithResult(old(meteor).status, sys.world.key.name, name))
      ensures index == P.ResultIndex(meteor.status.pipelines, name) < |meteor.status.pipelines|
    {
      var results := meteor.status.pipelines;
      for i := 0 to |results|
        invariant forall j :: 0 <= j < i ==> results[j].name != name
      {
        if results[i].name == name {
          return i;
        }
      }
      meteor := meteor.(status := meteor.status.(pipelines := results + [PipelineResult(name, runName, "", "False")]));
      return |results|;
    }

    method ReconcilePipelineRun(name: string) returns (ok: bool)
      requires shower.Some?
      modifies this`sys, this`meteor
      ensures (Here(), ok) == P.ReconcilePipelineRun(old(Here()), shower.value, name)
    {
      var key := sys.world.key;
      var runName := RunName(key.name, name);
      var index := StatusIndex(name, runName);

      var got := GetRun(sys, runName);
      sys := got.sys;
      if got.res.Err? {
        if got.res.error == NotFound {
          if |meteor.status.comas| == 0 {
            return true;
          }
          var spec := P.RunSpecOf(key, meteor, shower.value, name);
          var made := CreateRun(sys, runName, spec, meteor);
          sys := made.sys;
          if made.res.Err? {
            SetPipelineCondition(name, CondTrue, "CreateError");
            return false;
          }
          SetPipelineCondition(name, CondTrue, "BuildStated");
          return true;
        }
        SetPipelineCondition(name, CondFalse, "Error");
        return false;
      }
      RecordRun(key.name, name, index, got.res.value);
      return true;
    }

    /** The status edits for a run that was found. */
    method RecordRun(meteorName: string, name: string, index: nat, run: Run)
      requires index == P.ResultIndex(meteor.status.pipelines, name) < |meteor.status.pipelines|
      modifies this`meteor
      ensures meteor == old(meteor).(status := P.Observe(old(meteor).status, meteorName, name, run))
    {
      var runName := RunName(meteorName, name);
      if |run.conditions| > 0 {
        SetPipelineCondition(name, run.conditions[0].status, run.conditions[0].reason);
      }
      var st := meteor.status;
      if run.completed {
        var running := RemoveFrom(st.stage.running, runName);
        st := st.(stage := st.stage.(running := running));
        if run.conditions[0].reason == "Succeeded" {
          st := st.(pipelines := st.pipelines[index := st.pipelines[index].(ready := "True")]);
          var succeeded := AppendUniqueTo(st.stage.succeeded, runName);
          st := st.(stage := st.stage.(succeeded := succeeded));
          if |run.results| > 0 && run.results[0].Text? {
            st := st.(pipelines := st.pipelines[index := st.pipelines[index].(url := run.results[0].text)]);
          }
        } else {
          var failed := AppendUniqueTo(st.stage.failed, runName);
          st := st.(stage := st.stage.(failed := failed));
        }
      } else {
        var running := AppendUniqueTo(st.stage.running, runName);
        st := st.(stage := st.stage.(running := running));
      }
      meteor := meteor.(status := st);
    }
  }
}
