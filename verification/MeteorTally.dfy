/** While a pass that started from an all-accepted list works on its pipelines, the in-memory conditions
    keep a tally of its run reads: the list is still all accepted exactly when no read was troubling. */
module MeteorTally {
  import opened Kube
  import opened MeteorApi
  import opened Cluster
  import opened MeteorPass
  import opened MeteorReads
  import T = MeteorTrace

  ghost predicate LowerPipelines(m: Meteor) {
    forall n :: n in m.spec.pipelines ==> LowerName(n)
  }

  predicate AllAccepted(cs: seq<Condition>) {
    cs != [] && forall c :: c in cs ==> Accepted(c)
  }

  /** Every listed pipeline has a condition of its own. */
  predicate OwnConditions(m: Meteor) {
    forall n :: n in m.spec.pipelines ==> HasKind(m.status.conditions, CondKind(n))
  }

  /** The reads are those of the first pipelines, in order; a pipeline's condition is accepted exactly
      when its last telling read was good; all other conditions are accepted. */
  ghost predicate Tally(m: Meteor, meteor: string, log: seq<RunRead>) {
    var cs, names := m.status.conditions, m.spec.pipelines;
    && cs != [] && UniqueKinds(cs) && (names != [] ==> m.status.comas != [])
    && (forall c :: c in cs ==> Accepted(c) || exists n :: n in names && c.kind == CondKind(n))
    && OwnConditions(m)
    && (forall n :: n in names ==> (Accepted(Lookup(cs, CondKind(n)).value) <==> FineFor(log, RunName(meteor, n))))
    && |log| <= |names| && (forall i :: 0 <= i < |log| ==> log[i].name == RunName(meteor, names[i]))
  }

  /** The tally decides: the list is all accepted exactly when the reads are untroubled. */
  lemma TallyDecides(m: Meteor, meteor: string, log: seq<RunRead>)
    requires Tally(m, meteor, log)
    ensures AllAccepted(m.status.conditions) <==> Untroubled(log)
  {
    hide CondKind, RunName, Accepted, LastTelling;
    var cs, names := m.status.conditions, m.spec.pipelines;
    forall n | n in names ensures Lookup(cs, CondKind(n)).value in cs { LookupMember(cs, CondKind(n)); }
    if AllAccepted(cs) {
      forall x ensures FineFor(log, x) {
        LastTellingMember(log, x);
        if LastTelling(log, x).Some? {
          var i :| 0 <= i < |log| && log[i] == LastTelling(log, x).value;
          assert names[i] in names;
        }
      }
    }
    if Untroubled(log) {
      forall c | c in cs ensures Accepted(c) {
        if n :| n in names && c.kind == CondKind(n) {
          var i :| 0 <= i < |cs| && cs[i] == c;
          LookupAt(cs, i);
          assert FineFor(log, RunName(meteor, n));
        }
      }
    }
  }

  /** At the start of a pass, over an all-accepted list that covers every pipeline. */
  lemma TallyStarts(m: Meteor, meteor: string)
    requires AllAccepted(m.status.conditions) && UniqueKinds(m.status.conditions) && OwnConditions(m)
    requires m.spec.pipelines != [] ==> m.status.comas != []
    ensures Tally(m, meteor, [])
  {
    hide CondKind, Accepted;
    var cs := m.status.conditions;
    forall n | n in m.spec.pipelines ensures Accepted(Lookup(cs, CondKind(n)).value) { LookupMember(cs, CondKind(n)); }
  }

  /** Edits that leave conditions, specification and the presence of Comas alone. */
  lemma TallyUnseen(m: Meteor, m': Meteor, meteor: string, log: seq<RunRead>)
    requires Tally(m, meteor, log) && m'.spec == m.spec && m'.status.conditions == m.status.conditions
    requires m.status.comas != [] ==> m'.status.comas != []
    ensures Tally(m', meteor, log)
  {
    hide CondKind, RunName, Accepted, FineFor, UniqueKinds;
  }

  /** The next pipeline is read, and its condition is set by what the read tells. */
  lemma TallyTelling(m: Meteor, meteor: string, log: seq<RunRead>, r: RunRead, n: string, status: CondStatus, reason: string)
    requires Tally(m, meteor, log) && LowerPipelines(m)
    requires |log| < |m.spec.pipelines| && m.spec.pipelines[|log|] == n && r.name == RunName(meteor, n) && Telling(r)
    requires Accepted(Condition(CondKind(n), status, reason)) <==> Good(r)
    ensures Tally(m.(status := SetRunCondition(m.status, n, status, reason)), meteor, log + [r])
  {
    hide CondKind, RunName, Accepted, FineFor, UniqueKinds, LowerName;
    var cs, names := m.status.conditions, m.spec.pipelines;
    var c0 := Condition(CondKind(n), status, reason);
    var cs1 := SetCondition(cs, c0);
    MembersAfterSet(cs, c0);
    SetKeepsUnique(cs, c0);
    forall x | x in names
      ensures HasKind(cs1, CondKind(x))
      ensures Accepted(Lookup(cs1, CondKind(x)).value) <==> FineFor(log + [r], RunName(meteor, x))
    {
      LookupAfterSet(cs, c0, CondKind(x));
      FineAppend(log, r, RunName(meteor, x));
      if CondKind(x) == CondKind(n) { CondKindInjective(x, n); }
      if RunName(meteor, x) == RunName(meteor, n) { RunNameInjective(meteor, x, n); }
    }
    assert n in names;
  }

  /** The next pipeline is read, and the read tells nothing. */
  lemma TallySilent(m: Meteor, meteor: string, log: seq<RunRead>, r: RunRead)
    requires Tally(m, meteor, log) && !Telling(r)
    requires |log| < |m.spec.pipelines| && r.name == RunName(meteor, m.spec.pipelines[|log|])
    ensures Tally(m, meteor, log + [r])
  {
    hide CondKind, RunName, Accepted, FineFor, UniqueKinds;
    forall x ensures FineFor(log + [r], x) <==> FineFor(log, x) { FineAppend(log, r, x); }
  }

  // ---------------------------------------------------------------- the loop over pipelines

  /** The read of the call, appended to what the pass has read. */
  lemma GetRunReads(s: Sys, name: string) returns (r: RunRead)
    ensures var got := GetRun(s, name);
      && got.sys.seen == s.seen.(runs := s.seen.runs + [r]) && r.name == name
      && r.found == (if got.res.Ok? then Some(got.res.value) else None)
  {
    hide Arrive, LastVersion;
    T.ArriveWithout(s, T.StatusWrites);
    var got := GetRun(s, name);
    r := got.sys.seen.runs[|s.seen.runs|];
  }

  lemma AcceptedIffGood(n: string, run: Run)
    requires run.conditions != []
    ensures Accepted(Condition(CondKind(n), run.conditions[0].status, run.conditions[0].reason)) <==> SaysSuccess(run)
  {
    assert PIPELINE_RUN <= CondKind(n);
  }

  /** No condition the operator sets by itself is accepted. */
  lemma OperatorReasons(n: string, status: CondStatus, reason: string)
    requires (status == CondFalse && reason == "Error") || reason == "CreateError" || reason == "BuildStated"
    ensures !Accepted(Condition(CondKind(n), status, reason))
  {
    assert PIPELINE_RUN <= CondKind(n);
  }

  lemma {:induction false} ObserveTallies(m: Meteor, meteor: string, log: seq<RunRead>, r: RunRead, n: string)
    requires Tally(m, meteor, log) && LowerPipelines(m) && r.found.Some?
    requires |log| < |m.spec.pipelines| && m.spec.pipelines[|log|] == n && r.name == RunName(meteor, n)
    requires ResultIndex(m.status.pipelines, n) < |m.status.pipelines|
    ensures Tally(m.(status := Observe(m.status, meteor, n, r.found.value)), meteor, log + [r])
  {
    hide Tally, LowerPipelines, CondKind, Accepted, PlaceRun, MarkReady, RunName, ResultIndex;
    var run := r.found.value;
    var m1 := m.(status := CopyCondition(m.status, n, run));
    if run.conditions == [] {
      TallySilent(m, meteor, log, r);
    } else {
      AcceptedIffGood(n, run);
      TallyTelling(m, meteor, log, r, n, run.conditions[0].status, run.conditions[0].reason);
    }
    TallyUnseen(m1, m.(status := Observe(m.status, meteor, n, run)), meteor, log + [r]);
  }

  lemma PipelineTallies(l: Local, shower: Shower, n: string)
    requires Tally(l.meteor, l.sys.world.key.name, l.sys.seen.runs) && LowerPipelines(l.meteor)
    requires |l.sys.seen.runs| < |l.meteor.spec.pipelines| && l.meteor.spec.pipelines[|l.sys.seen.runs|] == n
    ensures var l1 := ReconcilePipelineRun(l, shower, n).0;
      && Tally(l1.meteor, l.sys.world.key.name, l1.sys.seen.runs) && l1.meteor.spec == l.meteor.spec
      && |l1.sys.seen.runs| == |l.sys.seen.runs| + 1 && l1.sys.seen.meteor == l.sys.seen.meteor
  {
    hide Tally, LowerPipelines, GetRun, CreateRun, RunSpecOf, Observe, CondKind, RunName, SetRunCondition;
    var meteor := l.sys.world.key.name;
    var st := WithResult(l.meteor.status, meteor, n);
    var m := l.meteor.(status := st);
    var log := l.sys.seen.runs;
    var name := RunName(meteor, n);
    TallyUnseen(l.meteor, m, meteor, log);
    LowerUnseen(l.meteor, m);
    var got := GetRun(l.sys, name);
    var r := GetRunReads(l.sys, name);
    if got.res.Ok? {
      ObserveTallies(m, meteor, log, r, n);
    } else {
      OperatorReasons(n, CondFalse, "Error");
      OperatorReasons(n, CondTrue, "CreateError");
      OperatorReasons(n, CondTrue, "BuildStated");
      TallyTelling(m, meteor, log, r, n, CondFalse, "Error");
      TallyTelling(m, meteor, log, r, n, CondTrue, "CreateError");
      TallyTelling(m, meteor, log, r, n, CondTrue, "BuildStated");
      ComasThere(m, meteor, log);
      T.CreateRunWithout(got.sys, name, RunSpecOf(l.sys.world.key, m, shower, n), m);
    }
  }

  lemma LowerUnseen(m: Meteor, m': Meteor)
    requires LowerPipelines(m) && m'.spec == m.spec
    ensures LowerPipelines(m')
  {
  }

  lemma ComasThere(m: Meteor, meteor: string, log: seq<RunRead>)
    requires Tally(m, meteor, log) && |log| < |m.spec.pipelines|
    ensures m.status.comas != []
  {
  }

  lemma {:induction false} PipelinesTally(l: Local, shower: Shower, names: seq<string>)
    requires Tally(l.meteor, l.sys.world.key.name, l.sys.seen.runs) && LowerPipelines(l.meteor)
    requires |l.sys.seen.runs| + |names| == |l.meteor.spec.pipelines|
    requires l.meteor.spec.pipelines[|l.sys.seen.runs|..] == names
    ensures var l1 := ReconcilePipelines(l, shower, names).0;
      Tally(l1.meteor, l.sys.world.key.name, l1.sys.seen.runs) && l1.sys.seen.meteor == l.sys.seen.meteor
    decreases |names|
  {
    hide Tally, LowerPipelines, ReconcilePipelineRun;
    if names != [] {
      assert names[0] == l.meteor.spec.pipelines[|l.sys.seen.runs|];
      PipelineTallies(l, shower, names[0]);
      var (l1, ok) := ReconcilePipelineRun(l, shower, names[0]);
      T.RunMute(l, shower, names[0]);
      LowerUnseen(l.meteor, l1.meteor);
      if ok { PipelinesTally(l1, shower, names[1..]); }
    }
  }
}
