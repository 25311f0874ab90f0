/** The CustomRuntimeEnvironment controller as it is written: the resource is an object whose status is
    edited in place, condition by condition. Every method is proved against its function in CrePass. */
module CreController {
  import opened Kube
  import opened CreApi
  import opened CreNames
  import opened CreCluster
  import P = CrePass

  class CustomRuntimeEnvironment {
    const name: string
    const uid: nat
    const rv: nat
    const generation: nat
    const deleting: bool
    const annotations: Option<map<string, string>>
    const spec: CreSpec
    var phase: Phase
    var conditions: seq<Condition>
    var pipelines: seq<CreResult>
    var observedGeneration: nat

    constructor (name: string, cre: Cre)
      ensures this.name == name && Value() == cre
    {
      this.name := name;
      uid, rv, generation, deleting := cre.uid, cre.rv, cre.generation, cre.deleting;
      annotations, spec := cre.annotations, cre.spec;
      phase, conditions := cre.status.phase, cre.status.conditions;
      pipelines, observedGeneration := cre.status.pipelines, cre.status.observedGeneration;
    }

    function Value(): Cre
      reads this
    {
      Cre(uid, rv, generation, deleting, annotations, spec, CreStatus(phase, conditions, pipelines, observedGeneration))
    }

    /** The loop over the conditions, with its two early returns. */
    method AggregatePhase() returns (r: Phase)
      ensures r == PhaseOf(conditions)
    {
      var created, completed, importReady, packagesBuilt := false, false, false, false;
      if |conditions| == 0 {
        return Pending;
      }
      for i := 0 to |conditions|
        invariant created <==> Shows(conditions[..i], RUN_CREATED)
        invariant completed <==> Shows(conditions[..i], RUN_COMPLETED)
        invariant importReady <==> Shows(conditions[..i], IMPORT_READY)
        invariant packagesBuilt <==> Shows(conditions[..i], PACKAGES_BUILT)
        invariant !Shows(conditions[..i], RUN_CREATE_ERROR) && !Shows(conditions[..i], IMPORT_INVALID)
      {
        forall k ensures Shows(conditions[..i + 1], k) <==>
                           Shows(conditions[..i], k) || (conditions[i].kind == k && conditions[i].status == CondTrue)
        {
          ShowsStep(conditions, i, k);
        }
        var c := conditions[i];
        if c.kind == RUN_COMPLETED && c.status == CondTrue {
          completed := true;
        }
        if c.kind == RUN_CREATE_ERROR && c.status == CondTrue {
          ShowsStep(conditions, i, RUN_CREATE_ERROR);
          return Failed;
        }
        if c.kind == RUN_CREATED && c.status == CondTrue {
          created := true;
        }
        if c.kind == IMPORT_READY {
          if c.status == CondTrue {
            importReady := true;
          }
        }
        if c.kind == PACKAGES_BUILT {
          if c.status == CondTrue {
            packagesBuilt := true;
          }
        }
        if c.kind == IMPORT_INVALID && c.status == CondTrue {
          ShowsStep(conditions, i, IMPORT_INVALID);
          return Failed;
        }
      }
      assert conditions[..|conditions|] == conditions;
      if created {
        return Running;
      }
      if completed {
        if importReady || packagesBuilt {
          return Succeeded;
        } else {
          return Failed;
        }
      }
      return Pending;
    }

    method SetStatusCondition(kind: string, status: CondStatus, reason: string)
      modifies this`conditions
      ensures conditions == SetCondition(old(conditions), Condition(kind, status, reason))
    {
      conditions := SetCondition(conditions, Condition(kind, status, reason));
    }

    method RemoveStatusCondition(kind: string)
      modifies this`conditions
      ensures conditions == RemoveCondition(old(conditions), kind)
    {
      conditions := RemoveCondition(conditions, kind);
    }

    /** The parameters, appended one group after the other. */
    method BuildRunParams() returns (params: seq<Param>)
      ensures params == Params(annotations, spec)
    {
      params := [
        Param("name", StringVal(Annotation(annotations, NAME_KEY))),
        Param("creator", StringVal(Annotation(annotations, CREATOR_KEY))),
        Param("description", StringVal(Annotation(annotations, DESCRIPTION_KEY)))];
      match spec.buildType
      case ImageImport =>
        params := params + [Param("baseImage", StringVal(spec.fromImage))];
      case PackageList =>
        if spec.baseImage != "" {
          params := params + [Param("baseImage", StringVal(spec.baseImage))];
        } else {
          params := params + [
            Param("osVersion", StringVal(spec.runtime.osVersion)),
            Param("osName", StringVal(spec.runtime.osName)),
            Param("pythonVersion", StringVal(spec.runtime.pythonVersion))];
        }
        if |spec.packages| > 0 {
          params := params + [Param("packages", ArrayVal(spec.packages))];
        }
      case GitRepository =>
        params := params + [Param("url", StringVal(spec.repository)), Param("ref", StringVal(spec.gitRef))];
    }
  }

  class CreReconciler {
    var sys: CreSys

    constructor (sys: CreSys)
      ensures this.sys == sys
    {
      this.sys := sys;
    }

    method Reconcile(name: string) returns (failed: bool)
      modifies this
      ensures (sys, failed) == P.Reconcile(old(sys), name)
    {
      var got := GetCre(sys, name);
      sys := got.sys;
      if got.res.Err? {
        return got.res.error != NotFound;
      }
      var cre := new CustomRuntimeEnvironment(name, got.res.value);
      if cre.deleting {
        return false;
      }
      cre.phase := cre.AggregatePhase();
      ReconcilePipelineRun(cre);
      cre.observedGeneration := cre.generation;
      cre.phase := cre.AggregatePhase();
      var written := WriteStatus(sys, name, cre.Value());
      sys := written.sys;
      return written.res.Err?;
    }

    method ReconcilePipelineRun(cre: CustomRuntimeEnvironment)
      modifies this, cre`conditions, cre`pipelines
      ensures (sys, cre.Value()) == P.ReconcilePipelineRun(old(sys), cre.name, old(cre.Value()))
    {
      var pipeline := PipelineOf(cre.spec.buildType);
      var runName := "cre-" + cre.name + "-" + Decimal(cre.generation) + "-" + pipeline;
      assert runName == P.RunNameOf(cre.name, cre.Value());
      EnsureResult(cre, runName);

      var got := GetRun(sys, runName);
      sys := got.sys;
      if got.res.Err? {
        if got.res.error == NotFound {
          var params := cre.BuildRunParams();
          var run := AnyCreRun(cre.name, Decimal(cre.generation), pipeline, params, [], false);
          var made := CreateRun(sys, runName, run);
          sys := made.sys;
          if made.res.Err? {
            cre.SetStatusCondition(RUN_CREATE_ERROR, CondTrue, "PipelineRunCreateFailed");
          }
          cre.SetStatusCondition(RUN_CREATED, CondTrue, "PipelineRunCreated");
          return;
        }
        cre.SetStatusCondition(GENERIC_ERROR, CondTrue, "PipelineRunGenericError");
        return;
      }

      var run := got.res.value;
      if |run.conditions| > 0 {
        ReadRun(cre, run);
        return;
      }
      // What follows in the source reads the first condition of a completed run. It is never reached:
      // a completed run has conditions, and a run with conditions has returned.
      assert !run.completed;
    }

    method EnsureResult(cre: CustomRuntimeEnvironment, runName: string)
      modifies cre`pipelines
      ensures cre.pipelines == P.WithResult(old(cre.pipelines), cre.name, runName)
    {
      for i := 0 to |cre.pipelines|
        invariant cre.pipelines == old(cre.pipelines)
        invariant forall j :: 0 <= j < i ==> cre.pipelines[j].name != cre.name
      {
        if cre.pipelines[i].name == cre.name {
          assert cre.pipelines[i] in cre.pipelines;
          return;
        }
      }
      cre.pipelines := cre.pipelines + [CreResult(cre.name, runName, "False")];
    }

    /** The conclusions drawn from the first condition of the run. */
    method ReadRun(cre: CustomRuntimeEnvironment, run: CreRun)
      requires run.conditions != []
      modifies cre`conditions
      ensures cre.conditions == P.AfterFound(old(cre.conditions), run)
    {
      var first := run.conditions[0];
      if first.status == CondTrue && first.kind == "Succeeded" {
        cre.SetStatusCondition(RUN_COMPLETED, CondTrue, "PipelineRunCompleted");
        cre.RemoveStatusCondition(RUN_CREATED);
        if run.pipeline == "import" {
          cre.SetStatusCondition(IMPORT_READY, CondTrue, "ImageImportReady");
        }
        if run.pipeline == "package-list" {
          cre.SetStatusCondition(PACKAGES_BUILT, CondTrue, "PackageListBuildCompleted");
        }
      } else if first.status == CondFalse && first.kind == "Succeeded" {
        cre.SetStatusCondition(RUN_COMPLETED, CondTrue, "PipelineRunCompleted");
        cre.RemoveStatusCondition(RUN_CREATED);
        if run.pipeline == "import" {
          cre.SetStatusCondition(IMPORT_READY, CondFalse, "ImageImportNotReady");
        } else if run.pipeline == "gitrepo" {
          cre.SetStatusCondition(BUILD_ERROR, CondTrue, "ErrorBuildingImage");
        } else if run.pipeline == "package-list" {
          cre.SetStatusCondition(PACKAGES_BUILT, CondFalse, "PackageListBuildCompleted");
        }
      }
    }
  }
}
