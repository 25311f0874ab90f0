/** A Meteor never claims Succeeded too early. For Meteors with a fixed list of lower-case pipelines, none
    made anew over runs of its pipelines from before, runs created only by the operator, and passes that
    land their status write whenever they created a run: a stored phase Succeeded goes back to a version
    whose conditions were all accepted, one for each listed pipeline, and to a report of success by Tekton
    for each of them. */
module MeteorProgress {
  import opened Kube
  import opened MeteorApi
  import opened Cluster
  import opened MeteorPass
  import opened MeteorReads
  import opened MeteorTally
  import G = MeteorGauge
  import T = MeteorTrace
  import L = MeteorStatusLemmas
  import S = MeteorSafety

  // ---------------------------------------------------------------- what Tekton has said

  /** A run of the pipeline existed at some time. */
  ghost predicate RunEver(w: World, n: string) {
    exists i :: 0 <= i < |w.runLog| && w.runLog[i].name == RunName(w.key.name, n)
  }

  /** Tekton has reported success for a run of the pipeline. */
  ghost predicate Reported(w: World, n: string) {
    exists i :: 0 <= i < |w.runLog| && w.runLog[i].name == RunName(w.key.name, n) && SaysSuccess(w.runLog[i].run)
  }

  ghost predicate AllReported(w: World, pipelines: seq<string>) {
    forall n :: n in pipelines ==> Reported(w, n)
  }

  // ---------------------------------------------------------------- the invariant

  /** If every condition is accepted, every listed pipeline has one. */
  ghost predicate Covered(m: Meteor) {
    AllAccepted(m.status.conditions) ==> OwnConditions(m)
  }

  /** An accepted condition of a pipeline goes back to a report, and once a run existed the pipeline has
      a condition and some Coma is recorded. */
  ghost predicate Grounded(w: World, m: Meteor) {
    && (forall c, n :: c in m.status.conditions && n in m.spec.pipelines && c.kind == CondKind(n) && Accepted(c) ==>
          Reported(w, n))
    && (forall n :: n in m.spec.pipelines && RunEver(w, n) ==>
          m.status.comas != [] && HasKind(m.status.conditions, CondKind(n)))
  }

  /** The invariant of the stored Meteor between passes. */
  ghost predicate Evidence(w: World) {
    w.meteor.Some? ==> Covered(w.meteor.value) && Grounded(w, w.meteor.value)
  }

  /** The version from which a phase Succeeded of `m` may be claimed: of the same incarnation, all
      accepted, with a condition of its own for every listed pipeline. */
  ghost predicate EarnedBy(v: Meteor, m: Meteor) {
    && v.uid == m.uid && v.spec.pipelines == m.spec.pipelines
    && AllAccepted(v.status.conditions) && OwnConditions(v)
  }

  /** What a stored phase Succeeded stands on. */
  ghost predicate Deserved(w: World, m: Meteor) {
    && AllReported(w, m.spec.pipelines) && OwnConditions(m)
    && exists v :: v in w.versions && EarnedBy(v, m)
  }

  ghost predicate Honest(w: World) {
    w.meteor.Some? && w.meteor.value.status.phase == Succeeded ==> Deserved(w, w.meteor.value)
  }

  /** A status write that claims Succeeded was earned by the version its pass had read, and its own
      conditions are the tally of its run reads. */
  ghost predicate HonestWrite(e: Entry) {
    e.cause.OpWriteStatus? && e.cause.view.status.phase == Succeeded ==>
      && e.cause.seen.meteor in e.before.versions && EarnedBy(e.cause.seen.meteor, e.cause.view)
      && Tally(e.cause.view, e.before.key.name, e.cause.seen.runs)
  }

  ghost predicate Logged(w: World) {
    && (forall name :: name in w.runs ==> exists i :: 0 <= i < |w.runLog| && w.runLog[i] == RunVersion(name, w.runs[name]))
    && (w.versions == [] ==> w.runLog == [] && w.meteor.None?)
  }

  lemma CoveredAndGroundedMeansReported(w: World, m: Meteor)
    requires Covered(m) && Grounded(w, m) && AggregatePhase(m.status) == Succeeded
    ensures AllReported(w, m.spec.pipelines)
  {
    SucceededIffAllAccepted(m.status);
    forall n | n in m.spec.pipelines ensures Reported(w, n) {
      LookupMember(m.status.conditions, CondKind(n));
    }
  }

  // ---------------------------------------------------------------- assumptions on a run

  /** Runs are created by the operator only, the list of pipelines is fixed while a Meteor lives, and a
      Meteor is made anew only if no run of its pipelines is on record from before. */
  ghost predicate Tame(e: Entry) {
    match e.cause
    case Env(OthersCreateRun(_, _)) => false
    case Env(UserEditsSpec(spec)) => e.before.meteor.Some? ==> spec.pipelines == e.before.meteor.value.spec.pipelines
    case Env(UserCreates(spec, _, _)) => e.before.meteor.Some? || forall n :: n in spec.pipelines ==> !RunEver(e.before, n)
    case _ => true
  }

  ghost predicate TameTrace(t: seq<Entry>) {
    forall i :: 0 <= i < |t| ==> Tame(t[i])
  }

  /** The passed part of the trace holds no run creation from `n` on. */
  ghost predicate NoRunSince(t: seq<Entry>, n: nat) {
    forall i :: n <= i < |t| ==> !t[i].cause.OpCreateRun?
  }

  predicate EndsWithWrite(s: Sys) {
    s.trace != [] && s.trace[|s.trace| - 1].cause.OpWriteStatus?
  }

  /** A pass that created a run ended by landing its status write. */
  ghost predicate Lands(before: Sys, after: Sys) {
    NoRunSince(after.trace, |before.trace|) ||
    EndsWithWrite(after)
  }

  ghost predicate AllLand(op: Op, scripts: seq<seq<Plan>>)
    decreases |scripts|
  {
    scripts == [] ||
    var op1 := Reconcile(Resume(op, scripts[0])).0;
    Lands(op.sys, op1.sys) && AllLand(op1, scripts[1..])
  }

  ghost predicate HonestTrace(t: seq<Entry>) {
    forall i :: 0 <= i < |t| ==> Honest(t[i].after) && HonestWrite(t[i])
  }

  // ---------------------------------------------------------------- frames

  /** The store moved on without a new pipeline getting a run. */
  ghost predicate Steady(w: World, w': World) {
    && w'.key == w.key && w.runLog <= w'.runLog && w.nextRv <= w'.nextRv
    && w.versions <= w'.versions
    && (forall n :: RunEver(w', n) ==> RunEver(w, n))
  }

  lemma ReportedStable(w: World, w': World, n: string)
    requires w'.key == w.key && w.runLog <= w'.runLog
    ensures Reported(w, n) ==> Reported(w', n)
    ensures RunEver(w, n) ==> RunEver(w', n)
  {
    if Reported(w, n) {
      var i :| 0 <= i < |w.runLog| && w.runLog[i].name == RunName(w.key.name, n) && SaysSuccess(w.runLog[i].run);
      assert w'.runLog[i] == w.runLog[i];
    }
    if RunEver(w, n) {
      var i :| 0 <= i < |w.runLog| && w.runLog[i].name == RunName(w.key.name, n);
      assert w'.runLog[i] == w.runLog[i];
    }
  }

  lemma GroundedStable(w: World, w': World, m: Meteor, m': Meteor)
    requires Grounded(w, m) && Steady(w, w') && m'.status == m.status && m'.spec.pipelines == m.spec.pipelines
    ensures Grounded(w', m')
  {
    hide Reported, RunEver;
    forall n ensures Reported(w, n) ==> Reported(w', n) { ReportedStable(w, w', n); }
  }

  lemma AllReportedStable(w: World, w': World, pipelines: seq<string>)
    requires AllReported(w, pipelines) && w'.key == w.key && w.runLog <= w'.runLog
    ensures AllReported(w', pipelines)
  {
    forall n | n in pipelines ensures Reported(w', n) { ReportedStable(w, w', n); }
  }

  lemma DeservedStable(w: World, w': World, m: Meteor, m': Meteor)
    requires Deserved(w, m) && w'.key == w.key && w.runLog <= w'.runLog && w.versions <= w'.versions
    requires m'.spec.pipelines == m.spec.pipelines && m'.uid == m.uid && m'.status.conditions == m.status.conditions
    ensures Deserved(w', m')
  {
    hide Reported;
    AllReportedStable(w, w', m.spec.pipelines);
    var v :| v in w.versions && EarnedBy(v, m);
    assert v in w'.versions && EarnedBy(v, m');
  }

  predicate RunNeutral(cause: Cause) {
    !cause.OpWriteStatus? && !cause.OpCreateRun? && !cause.OpUpdate?
  }

  lemma SetRunLogged(w: World, name: string, run: Run)
    requires Logged(w) && w.versions != []
    ensures Logged(SetRun(w, name, run)) && SetRun(w, name, run).versions == w.versions
  {
    var w' := SetRun(w, name, run);
    assert w'.runLog[|w.runLog|] == RunVersion(name, run);
    forall x | x in w'.runs ensures exists i :: 0 <= i < |w'.runLog| && w'.runLog[i] == RunVersion(x, w'.runs[x]) {
      if x != name {
        var i :| 0 <= i < |w.runLog| && w.runLog[i] == RunVersion(x, w.runs[x]);
        assert w'.runLog[i] == RunVersion(x, w'.runs[x]);
      }
    }
  }

  lemma ReportSteady(w: World, name: string, run: Run)
    requires Logged(w) && name in w.runs
    ensures Logged(SetRun(w, name, run)) && Steady(w, SetRun(w, name, run))
  {
    var w' := SetRun(w, name, run);
    var k :| 0 <= k < |w.runLog| && w.runLog[k] == RunVersion(name, w.runs[name]);
    SetRunLogged(w, name, run);
    forall n | RunEver(w', n) ensures RunEver(w, n) {
      var i :| 0 <= i < |w'.runLog| && w'.runLog[i].name == RunName(w.key.name, n);
      if i == |w.runLog| { assert w.runLog[k].name == RunName(w.key.name, n); } else { assert w.runLog[i] == w'.runLog[i]; }
    }
  }

  lemma FewerRunsSteady(w: World, w': World)
    requires Logged(w) && w'.key == w.key && w'.runLog == w.runLog && w.nextRv <= w'.nextRv
    requires w.versions <= w'.versions
    requires w'.versions == [] ==> w'.meteor.None?
    requires forall name :: name in w'.runs ==> name in w.runs && w'.runs[name] == w.runs[name]
    ensures Logged(w') && Steady(w, w')
  {
    assert forall n :: RunEver(w', n) <==> RunEver(w, n);
  }

  lemma EventSteady(e: Event, w: World)
    requires Logged(w) && Tame(Entry(Env(e), w, Happen(w, e)))
    ensures Logged(Happen(w, e)) && Steady(w, Happen(w, e))
  {
    hide Steady, RunEver;
    assert w.versions == [] ==> w.meteor.None?;
    hide Logged;
    if e.TektonReports? && Happen(w, e) != w {
      ReportSteady(w, e.run, w.runs[e.run].(conditions := e.conditions, completed := e.completed, results := e.results));
    } else {
      FewerRunsSteady(w, Happen(w, e));
    }
  }

  /** Causes other than run creations leave the runs steady. */
  lemma CauseSteady(cause: Cause, w: World)
    requires Logged(w) && Tame(Entry(cause, w, Apply(cause, w))) && !cause.OpCreateRun?
    requires cause.OpUpdate? ==> w.meteor.Some?
    ensures Logged(Apply(cause, w)) && Steady(w, Apply(cause, w))
  {
    hide Steady, RunEver, Happen;
    if cause.Env? {
      EventSteady(cause.event, w);
    } else {
      FewerRunsSteady(w, Apply(cause, w));
    }
  }

  /** Such a cause keeps the stored status and specification, and a version that was superseded stays so. */
  lemma CauseKeepsMeteor(cause: Cause, w: World, rv: nat)
    requires RunNeutral(cause) && Logged(w) && Tame(Entry(cause, w, Apply(cause, w)))
    ensures var w' := Apply(cause, w);
      && (w.meteor.Some? && w'.meteor.Some? ==>
            && w'.meteor.value.status == w.meteor.value.status
            && w'.meteor.value.spec.pipelines == w.meteor.value.spec.pipelines
            && w'.meteor.value.uid == w.meteor.value.uid)
      && (!w.meteor.Some? && w'.meteor.Some? ==>
            && w'.meteor.value.status == EMPTY_STATUS && w'.runLog == w.runLog && w'.key == w.key
            && forall n :: n in w'.meteor.value.spec.pipelines ==> !RunEver(w, n))
      && (rv < w.nextRv && w'.meteor.Some? && w'.meteor.value.rv == rv ==> w.meteor == w'.meteor)
  {
  }

  // ---------------------------------------------------------------- what holds during a pass

  /** The in-memory Meteor, as long as a write of it would still match. */
  ghost predicate MemoryOk(w: World, m: Meteor, v: Meteor) {
    Matches(w, m) ==>
      && Grounded(w, m) && w.meteor.value.spec == m.spec && w.meteor.value.uid == m.uid
      && (m.status.phase == Succeeded ==> AllReported(w, m.spec.pipelines) && EarnedBy(v, m) && v in w.versions)
  }

  ghost predicate During(n: nat, l: Local) {
    var w := l.sys.world;
    && Logged(w) && w.versions != [] && l.meteor.rv < w.nextRv && n <= |l.sys.trace|
    && Honest(w) && HonestTrace(l.sys.trace)
    && (NoRunSince(l.sys.trace, n) ==> Evidence(w))
    && MemoryOk(w, l.meteor, l.sys.seen.meteor)
  }

  /** As long as a write would still match: the list is covered, and under a phase Succeeded the
      conditions are the tally of the run reads. */
  ghost predicate CoveredIfCurrent(l: Local) {
    Matches(l.sys.world, l.meteor) ==>
      && Covered(l.meteor)
      && (l.meteor.status.phase == Succeeded ==> Tally(l.meteor, l.sys.world.key.name, l.sys.seen.runs))
  }

  lemma EvidenceKept(cause: Cause, w: World)
    requires RunNeutral(cause) && Logged(w) && Tame(Entry(cause, w, Apply(cause, w)))
    ensures Evidence(w) ==> Evidence(Apply(cause, w))
    ensures Honest(w) ==> Honest(Apply(cause, w))
  {
    hide Apply, Logged, Reported, Covered, Deserved, Tame;
    var w' := Apply(cause, w);
    CauseSteady(cause, w);
    CauseKeepsMeteor(cause, w, 0);
    if w'.meteor.Some? && w.meteor.Some? {
      var m, m' := w.meteor.value, w'.meteor.value;
      if Evidence(w) { GroundedStable(w, w', m, m'); SameCovered(m, m'); }
      if Honest(w) && m'.status.phase == Succeeded { DeservedStable(w, w', m, m'); }
    } else if w'.meteor.Some? {
      FreshEvidence(w');
    }
  }

  lemma SameCovered(m: Meteor, m': Meteor)
    requires m'.status.conditions == m.status.conditions && m'.spec.pipelines == m.spec.pipelines
    ensures Covered(m) ==> Covered(m')
  {
  }

  lemma FreshEvidence(w: World)
    requires w.meteor.Some? && w.meteor.value.status == EMPTY_STATUS
    requires forall n :: n in w.meteor.value.spec.pipelines ==> !RunEver(w, n)
    ensures Evidence(w)
  {
  }

  lemma MemoryKept(cause: Cause, w: World, m: Meteor, v: Meteor)
    requires RunNeutral(cause) && Logged(w) && Tame(Entry(cause, w, Apply(cause, w))) && m.rv < w.nextRv
    requires MemoryOk(w, m, v)
    ensures MemoryOk(Apply(cause, w), m, v)
    ensures Matches(Apply(cause, w), m) ==> Matches(w, m)
  {
    hide Apply, Logged, Grounded, Reported, EarnedBy, Tame;
    var w' := Apply(cause, w);
    CauseSteady(cause, w);
    CauseKeepsMeteor(cause, w, m.rv);
    if Matches(w', m) {
      GroundedStable(w, w', m, m);
      if m.status.phase == Succeeded { AllReportedStable(w, w', m.spec.pipelines); }
    }
  }

  lemma NeutralKeeps(n: nat, l: Local, cause: Cause)
    requires During(n, l) && RunNeutral(cause) && Tame(Entry(cause, l.sys.world, Apply(cause, l.sys.world)))
    ensures var l1 := Local(Effect(l.sys, cause), l.meteor);
      During(n, l1) && (Matches(l1.sys.world, l.meteor) ==> Matches(l.sys.world, l.meteor))
  {
    hide Apply, Logged, Evidence, Honest, Tame, MemoryOk;
    var w := l.sys.world;
    CauseSteady(cause, w);
    EvidenceKept(cause, w);
    MemoryKept(cause, w, l.meteor, l.sys.seen.meteor);
    if NoRunSince(Effect(l.sys, cause).trace, n) { ShorterNoRun(l.sys.trace, Effect(l.sys, cause).trace, n); }
  }

  lemma ShorterNoRun(t: seq<Entry>, t': seq<Entry>, n: nat)
    requires t <= t' && NoRunSince(t', n)
    ensures NoRunSince(t, n)
  {
    forall i | n <= i < |t| ensures !t[i].cause.OpCreateRun? { assert t'[i] == t[i]; }
  }

  lemma ShorterTame(t: seq<Entry>, t': seq<Entry>)
    requires t <= t' && TameTrace(t')
    ensures TameTrace(t)
  {
    forall i | 0 <= i < |t| ensures Tame(t[i]) { assert t'[i] == t[i]; }
  }

  /** The call has been made: the trace grew, and a write matches now only if it matched before. */
  ghost predicate Carries(n: nat, l: Local, s: Sys) {
    && l.sys.trace <= s.trace
    && (TameTrace(s.trace) ==> During(n, Local(s, l.meteor)) && (Matches(s.world, l.meteor) ==> Matches(l.sys.world, l.meteor)))
  }

  lemma {:induction false} EnvironmentCarries(n: nat, l: Local, es: seq<Event>)
    requires During(n, l)
    ensures Carries(n, l, Environment(l.sys, es))
    decreases |es|
  {
    hide Apply, During, Tame;
    if es != [] {
      var s1 := Effect(l.sys, Env(es[0]));
      var s2 := Environment(s1, es[1..]);
      T.EnvironmentWithout(s1, es[1..], T.StatusWrites);
      if TameTrace(s2.trace) {
        assert s2.trace[|l.sys.trace|] == s1.trace[|l.sys.trace|];
        NeutralKeeps(n, l, Env(es[0]));
        EnvironmentCarries(n, Local(s1, l.meteor), es[1..]);
      }
    }
  }

  lemma SameSys(n: nat, l: Local, s: Sys)
    requires During(n, l) && s.world == l.sys.world && s.trace == l.sys.trace && s.seen.meteor == l.sys.seen.meteor
    ensures During(n, Local(s, l.meteor))
  {
  }

  lemma ArriveCarries(n: nat, l: Local)
    requires During(n, l)
    ensures Carries(n, l, Arrive(l.sys).sys)
  {
    hide During, TameTrace;
    if l.sys.up && l.sys.script != [] {
      var s0 := l.sys.(script := l.sys.script[1..]);
      SameSys(n, l, s0);
      EnvironmentCarries(n, Local(s0, l.meteor), l.sys.script[0].env);
      var s1 := Environment(s0, l.sys.script[0].env);
      if TameTrace(s1.trace) { SameSys(n, Local(s1, l.meteor), Arrive(l.sys).sys); }
    }
  }

  lemma NeutralAttempt<T>(n: nat, l: Local, possible: bool, refusal: ApiError, cause: Cause, value: T)
    requires During(n, l) && RunNeutral(cause) && !cause.Env?
    ensures Carries(n, l, Attempt(Arrive(l.sys), possible, refusal, cause, value).sys)
  {
    hide Apply, During;
    ArriveCarries(n, l);
    var a := Arrive(l.sys);
    var s := Attempt(a, possible, refusal, cause, value).sys;
    if TameTrace(s.trace) {
      ShorterTame(a.sys.trace, s.trace);
      NeutralKeeps(n, Local(a.sys, l.meteor), cause);
    }
  }

  // ---------------------------------------------------------------- writes of the Meteor

  /** A committed finalizer write: the same status under a new resource version. */
  lemma UpdateEffect(n: nat, l: Local, fs: seq<string>)
    requires During(n, l) && Matches(l.sys.world, l.meteor)
    ensures var m1 := l.meteor.(finalizers := fs); var s1 := Effect(l.sys, OpUpdate(m1));
      && During(n, Local(s1, m1)) && During(n, Local(s1, m1.(rv := l.sys.world.nextRv)))
      && !Matches(s1.world, m1)
  {
    hide Reported, Covered, Deserved, EarnedBy;
    var w := l.sys.world;
    var m1 := l.meteor.(finalizers := fs);
    var s1 := Effect(l.sys, OpUpdate(m1));
    var w1 := s1.world;
    assert Tame(Entry(OpUpdate(m1), w, w1));
    CauseSteady(OpUpdate(m1), w);
    GroundedStable(w, w1, l.meteor, m1.(rv := w.nextRv));
    if m1.status.phase == Succeeded {
      AllReportedStable(w, w1, m1.spec.pipelines);
      SameEarned(l.sys.seen.meteor, l.meteor, m1);
      SameEarned(l.sys.seen.meteor, l.meteor, m1.(rv := w.nextRv));
    }
    if NoRunSince(s1.trace, n) { ShorterNoRun(l.sys.trace, s1.trace, n); }
    if w1.meteor.Some? {
      var stored, stored1 := w.meteor.value, w1.meteor.value;
      if Evidence(w) { GroundedStable(w, w1, stored, stored1); SameCovered(stored, stored1); }
      if stored.status.phase == Succeeded { DeservedStable(w, w1, stored, stored1); }
    }
  }

  lemma SameEarned(v: Meteor, m: Meteor, m': Meteor)
    requires EarnedBy(v, m) && m'.uid == m.uid && m'.spec == m.spec
    ensures EarnedBy(v, m')
  {
  }

  lemma UpdateKeeps(n: nat, l: Local, fs: seq<string>)
    requires During(n, l)
    ensures var l1 := UpdateFinalizers(l.sys, l.meteor.(finalizers := fs)).0;
      && l.sys.trace <= l1.sys.trace
      && (TameTrace(l1.sys.trace) ==>
            During(n, l1) && (Matches(l1.sys.world, l1.meteor) ==> Matches(l.sys.world, l.meteor)))
  {
    hide Apply, During, Tame;
    ArriveCarries(n, l);
    var a := Arrive(l.sys);
    var m1 := l.meteor.(finalizers := fs);
    var l1 := UpdateFinalizers(l.sys, m1).0;
    if TameTrace(l1.sys.trace) {
      ShorterTame(a.sys.trace, l1.sys.trace);
      if Matches(a.sys.world, l.meteor) {
        UpdateEffect(n, Local(a.sys, l.meteor), fs);
      }
      FinalizersUnseen(n, Local(a.sys, l.meteor), m1);
    }
  }

  lemma FinalizersUnseen(n: nat, l: Local, m: Meteor)
    requires During(n, l) && m.status == l.meteor.status && m.spec == l.meteor.spec && m.rv == l.meteor.rv && m.uid == l.meteor.uid
    ensures During(n, Local(l.sys, m))
  {
    hide Reported, RunEver;
  }

  /** A committed status write: the in-memory status becomes the evidence. */
  lemma StatusEffect(n: nat, l: Local, cause: Cause)
    requires During(n, l) && Matches(l.sys.world, l.meteor) && CoveredIfCurrent(l) && cause == OpWriteStatus(l.meteor, l.sys.seen)
    ensures var m := l.meteor; var s1 := Effect(l.sys, cause);
      && During(n, Local(s1, m)) && During(n, Local(s1, m.(rv := l.sys.world.nextRv)))
      && !Matches(s1.world, m) && Evidence(s1.world)
  {
    hide Reported, EarnedBy, Tally, OwnConditions;
    var w := l.sys.world;
    var m := l.meteor;
    var s1 := Effect(l.sys, cause);
    var w1 := s1.world;
    assert Tame(Entry(cause, w, w1));
    CauseSteady(cause, w);
    var m1 := m.(rv := w.nextRv);
    GroundedStable(w, w1, m, m1);
    GroundedStable(w, w1, m, w1.meteor.value);
    SameCovered(m, w1.meteor.value);
    if m.status.phase == Succeeded {
      AllReportedStable(w, w1, m.spec.pipelines);
      SameEarned(l.sys.seen.meteor, m, m1);
      SameEarned(l.sys.seen.meteor, m, w1.meteor.value);
      assert l.sys.seen.meteor in w1.versions;
      TallyOwns(m, w1.meteor.value, w.key.name, l.sys.seen.runs);
    }
  }

  lemma TallyOwns(m: Meteor, m': Meteor, meteor: string, log: seq<RunRead>)
    requires Tally(m, meteor, log) && m'.spec == m.spec && m'.status.conditions == m.status.conditions
    ensures OwnConditions(m')
  {
  }

  lemma WriteKeeps(n: nat, l: Local, failed: bool)
    requires During(n, l) && CoveredIfCurrent(l)
    ensures var l1 := UpdateStatusNow(l, failed).0;
      && l.sys.trace <= l1.sys.trace
      && (TameTrace(l1.sys.trace) ==> During(n, l1))
      && (TameTrace(l1.sys.trace) && |l.sys.trace| < |l1.sys.trace| && EndsWithWrite(l1.sys) ==> Evidence(l1.sys.world))
      && (TameTrace(l1.sys.trace) && Matches(l1.sys.world, l1.meteor) ==> Matches(l.sys.world, l.meteor))
  {
    hide Apply, During, Tame, Evidence, Covered, Tally;
    ArriveCarries(n, l);
    var a := Arrive(l.sys);
    var m := l.meteor;
    var l1 := UpdateStatusNow(l, failed).0;
    T.ArriveWithout(l.sys, T.StatusWrites);
    if TameTrace(l1.sys.trace) {
      ShorterTame(a.sys.trace, l1.sys.trace);
      if !a.mode.Fails? && Matches(a.sys.world, m) {
        var cause := OpWriteStatus(m, l.sys.seen);
        StatusEffect(n, Local(a.sys, m), cause);
        var s1 := Effect(a.sys, cause);
        SameSys(n, Local(s1, m), l1.sys);
        SameSys(n, Local(s1, m.(rv := a.sys.world.nextRv)), l1.sys);
      }
    }
  }

  // ---------------------------------------------------------------- finalizers and Comas

  lemma {:induction false} DeleteComasCarry(n: nat, l: Local, refs: seq<Ref>)
    requires During(n, l)
    ensures Carries(n, l, DeleteComas(l.sys, refs).0)
    decreases |refs|
  {
    hide Apply, During, Arrive, TameTrace;
    if refs != [] {
      var k := Key(refs[0].namespace, refs[0].name);
      NeutralAttempt(n, l, k in Arrive(l.sys).sys.world.comas, NotFound, OpDeleteComa(k), ());
      var r := DeleteComa(l.sys, k);
      var s := DeleteComas(l.sys, refs).0;
      T.DeleteComasWithout(r.sys, refs[1..], T.StatusWrites);
      if r.res.Ok? && TameTrace(s.trace) {
        ShorterTame(r.sys.trace, s.trace);
        DeleteComasCarry(n, Local(r.sys, l.meteor), refs[1..]);
      }
    }
  }

  lemma EnsureKeeps(n: nat, l: Local)
    requires During(n, l)
    ensures var l1 := EnsureFinalizers(l).0;
      && l.sys.trace <= l1.sys.trace
      && l1.meteor.status == l.meteor.status && l1.meteor.spec == l.meteor.spec
      && (TameTrace(l1.sys.trace) ==>
            During(n, l1) && (Matches(l1.sys.world, l1.meteor) ==> Matches(l.sys.world, l.meteor)))
  {
    hide Apply, During, UpdateFinalizers, TameTrace;
    var m := l.meteor;
    if !m.deleting {
      if FINALIZER !in m.finalizers {
        UpdateKeeps(n, l, AddFinalizer(m.finalizers));
        T.UpdateWithout(l.sys, m.(finalizers := AddFinalizer(m.finalizers)), T.StatusWrites);
      }
    } else if FINALIZER in m.finalizers {
      DeleteComasCarry(n, l, m.status.comas);
      var (s, ok) := DeleteComas(l.sys, m.status.comas);
      if ok {
        var m1 := m.(finalizers := RemoveFinalizer(m.finalizers));
        var l1 := UpdateFinalizers(s, m1).0;
        T.UpdateWithout(s, m1, T.StatusWrites);
        if TameTrace(l1.sys.trace) {
          ShorterTame(s.trace, l1.sys.trace);
          UpdateKeeps(n, Local(s, m), RemoveFinalizer(m.finalizers));
        }
      }
    }
  }

  /** A longer record of Comas does not disturb the evidence. */
  lemma MoreComas(n: nat, l: Local, comas: seq<Ref>)
    requires During(n, l) && l.meteor.status.comas <= comas
    ensures During(n, Local(l.sys, l.meteor.(status := l.meteor.status.(comas := comas))))
  {
    hide Reported, RunEver;
  }

  /** What working on Comas keeps. */
  ghost predicate ComasKeep(n: nat, l: Local, l1: Local) {
    && l.sys.trace <= l1.sys.trace
    && l1.meteor == l.meteor.(status := l.meteor.status.(comas := l1.meteor.status.comas))
    && (TameTrace(l1.sys.trace) ==>
          During(n, l1) && (Matches(l1.sys.world, l1.meteor) ==> Matches(l.sys.world, l.meteor)))
  }

  lemma RecordKeeps(n: nat, l: Local, k: Key, c: FoundComa)
    requires During(n, l)
    ensures ComasKeep(n, l, RecordComa(l, k, c).0)
  {
    hide Apply, During, Arrive, AddRef, TameTrace;
    if c.processed {
      var comas := AddRef(l.meteor.status.comas, Ref(k.namespace, k.name, c.uid, false));
      var m := l.meteor.(status := l.meteor.status.(comas := comas));
      AddRefExtends(l.meteor.status.comas, Ref(k.namespace, k.name, c.uid, false));
      MoreComas(n, l, comas);
      var w := Arrive(l.sys).sys.world;
      var owner := OwnerRef(l.sys.world.key, m, true);
      NeutralAttempt(n, Local(l.sys, m), k in w.comas && w.comas[k].uid == c.uid, Conflict, OpOwnComa(k, owner), ());
    }
  }

  lemma AddRefExtends(refs: seq<Ref>, ref: Ref)
    ensures refs <= AddRef(refs, ref)
  {
  }

  lemma ComaKeeps(n: nat, l: Local, namespace: string)
    requires During(n, l)
    ensures ComasKeep(n, l, ReconcileComa(l, namespace).0)
  {
    hide Apply, During, Arrive, RecordComa, TameTrace;
    var k := Key(namespace, l.sys.world.key.name);
    ArriveCarries(n, l);
    var got := GetComa(l.sys, k);
    var l1 := Local(got.sys, l.meteor);
    var end := ReconcileComa(l, namespace).0;
    T.ComaMute(l, namespace, T.StatusWrites);
    if got.res == Err(NotFound) {
      var a := Arrive(got.sys);
      var made := CreateComa(got.sys, k, l.meteor);
      var l2 := Local(made.sys, l.meteor);
      T.CreateComaWithout(got.sys, k, l.meteor, T.StatusWrites);
      if made.res.Ok? { T.RecordMute(l2, k, made.res.value, T.StatusWrites); }
      RecordShape(l2, k, if made.res.Ok? then made.res.value else FoundComa(0, false));
      if TameTrace(end.sys.trace) {
        ShorterTame(made.sys.trace, end.sys.trace);
        ShorterTame(got.sys.trace, made.sys.trace);
        NeutralAttempt(n, l1, k !in a.sys.world.comas, AlreadyExists, OpCreateComa(k, l.meteor),
                       FoundComa(a.sys.world.nextUid, a.processed));
        if made.res.Ok? { RecordKeeps(n, l2, k, made.res.value); }
      }
    } else {
      var c := if got.res.Ok? then got.res.value else FoundComa(0, false);
      T.RecordMute(l1, k, c, T.StatusWrites);
      RecordShape(l1, k, c);
      if TameTrace(end.sys.trace) {
        ShorterTame(got.sys.trace, end.sys.trace);
        RecordKeeps(n, l1, k, c);
      }
    }
  }

  lemma RecordShape(l: Local, k: Key, c: FoundComa)
    ensures var l1 := RecordComa(l, k, c).0;
      l1.meteor == l.meteor.(status := l.meteor.status.(comas := l1.meteor.status.comas))
  {
    hide Apply;
  }

  lemma {:induction false} ComasLoopKeeps(n: nat, l: Local, services: seq<ExternalService>)
    requires During(n, l)
    ensures ComasKeep(n, l, ReconcileComas(l, services).0)
    decreases |services|
  {
    hide During, ReconcileComa, TameTrace;
    var end := ReconcileComas(l, services).0;
    if services != [] {
      if services[0].namespace == "" {
        ComasLoopKeeps(n, l, services[1..]);
      } else {
        ComaKeeps(n, l, services[0].namespace);
        var (l1, step) := ReconcileComa(l, services[0].namespace);
        if step == Next {
          T.ComasMute(l1, services[1..], T.StatusWrites);
          ComasShape(l1, services[1..]);
          if TameTrace(end.sys.trace) {
            ShorterTame(l1.sys.trace, end.sys.trace);
            ComasLoopKeeps(n, l1, services[1..]);
          }
        }
      }
    }
  }

  lemma {:induction false} ComasShape(l: Local, services: seq<ExternalService>)
    ensures var l1 := ReconcileComas(l, services).0;
      l1.meteor == l.meteor.(status := l.meteor.status.(comas := l1.meteor.status.comas))
    decreases |services|
  {
    hide RecordComa, GetComa, CreateComa;
    if services != [] {
      if services[0].namespace == "" {
        ComasShape(l, services[1..]);
      } else {
        var namespace := services[0].namespace;
        var (l1, step) := ReconcileComa(l, namespace);
        ComaShape(l, namespace);
        if step == Next { ComasShape(l1, services[1..]); }
      }
    }
  }

  lemma ComaShape(l: Local, namespace: string)
    ensures var l1 := ReconcileComa(l, namespace).0;
      l1.meteor == l.meteor.(status := l.meteor.status.(comas := l1.meteor.status.comas))
  {
    hide RecordComa, GetComa, CreateComa;
    var k := Key(namespace, l.sys.world.key.name);
    var got := GetComa(l.sys, k);
    if got.res == Err(NotFound) {
      var made := CreateComa(got.sys, k, l.meteor);
      if made.res.Ok? { RecordShape(Local(made.sys, l.meteor), k, made.res.value); }
    } else {
      RecordShape(Local(got.sys, l.meteor), k, if got.res.Ok? then got.res.value else FoundComa(0, false));
    }
  }

  // ---------------------------------------------------------------- pipeline runs

  /** A new condition for pipeline `n`: if it is accepted, the report is there. */
  lemma ConditionGrounded(w: World, m: Meteor, n: string, status: CondStatus, reason: string)
    requires Grounded(w, m) && LowerPipelines(m) && n in m.spec.pipelines
    requires Accepted(Condition(CondKind(n), status, reason)) ==> Reported(w, n)
    ensures var m1 := m.(status := SetRunCondition(m.status, n, status, reason));
      Grounded(w, m1) && HasKind(m1.status.conditions, CondKind(n))
  {
    hide RunEver, Reported;
    var c0 := Condition(CondKind(n), status, reason);
    var cs := m.status.conditions;
    var m1 := m.(status := SetRunCondition(m.status, n, status, reason));
    MembersAfterSet(cs, c0);
    forall kind ensures Lookup(SetCondition(cs, c0), kind) == if kind == c0.kind then Some(c0) else Lookup(cs, kind) {
      LookupAfterSet(cs, c0, kind);
    }
    forall c, x | c in m1.status.conditions && x in m.spec.pipelines && c.kind == CondKind(x) && Accepted(c)
      ensures Reported(w, x)
    {
      if c == c0 { CondKindInjective(n, x); }
    }
  }

  /** Only conditions, results and stage lists are edited. */
  predicate RunEdit(m: Meteor, m1: Meteor) {
    && m1 == m.(status := m1.status)
    && m1.status.comas == m.status.comas && m1.status.phase == m.status.phase
  }

  /** In-memory edits that leave the conditions alone. */
  lemma ResultsUnseen(n0: nat, l: Local, m: Meteor)
    requires During(n0, l) && RunEdit(l.meteor, m) && m.status.conditions == l.meteor.status.conditions
    ensures During(n0, Local(l.sys, m))
  {
    hide Reported, RunEver;
  }

  lemma EditConditions(n0: nat, l: Local, m: Meteor)
    requires During(n0, l) && RunEdit(l.meteor, m)
    requires Matches(l.sys.world, l.meteor) ==> Grounded(l.sys.world, m)
    ensures During(n0, Local(l.sys, m))
  {
    hide Grounded, Reported;
  }

  lemma ConditionKeeps(n0: nat, l: Local, n: string, status: CondStatus, reason: string)
    requires During(n0, l) && LowerPipelines(l.meteor) && n in l.meteor.spec.pipelines
    requires Accepted(Condition(CondKind(n), status, reason)) ==> Reported(l.sys.world, n)
    ensures var m1 := l.meteor.(status := SetRunCondition(l.meteor.status, n, status, reason));
      During(n0, Local(l.sys, m1)) && HasKind(m1.status.conditions, CondKind(n))
  {
    hide During, Grounded, Reported;
    SetHasKind(l.meteor.status, n, status, reason);
    var m1 := l.meteor.(status := SetRunCondition(l.meteor.status, n, status, reason));
    if Matches(l.sys.world, l.meteor) {
      MatchedGrounded(n0, l);
      ConditionGrounded(l.sys.world, l.meteor, n, status, reason);
    }
    EditConditions(n0, l, m1);
  }

  lemma MatchedGrounded(n0: nat, l: Local)
    requires During(n0, l) && Matches(l.sys.world, l.meteor)
    ensures Grounded(l.sys.world, l.meteor)
  {
  }

  lemma SetHasKind(st: MeteorStatus, n: string, status: CondStatus, reason: string)
    ensures var cs := SetRunCondition(st, n, status, reason).conditions;
      HasKind(cs, CondKind(n)) && Condition(CondKind(n), status, reason) in cs
      && forall kind :: HasKind(st.conditions, kind) ==> HasKind(cs, kind)
  {
    var c := Condition(CondKind(n), status, reason);
    MembersAfterSet(st.conditions, c);
    forall kind ensures HasKind(st.conditions, kind) || kind == c.kind ==> HasKind(SetCondition(st.conditions, c), kind) {
      LookupAfterSet(st.conditions, c, kind);
    }
  }

  /** A run creation that took effect, followed by the edit of its condition. */
  lemma CreateRunEffect(n0: nat, l: Local, n: string, spec: RunSpec, reason: string)
    requires During(n0, l) && LowerPipelines(l.meteor) && n in l.meteor.spec.pipelines && l.meteor.status.comas != []
    requires reason == "BuildStated" || reason == "CreateError"
    ensures var m1 := l.meteor.(status := SetRunCondition(l.meteor.status, n, CondTrue, reason));
      During(n0, Local(Effect(l.sys, OpCreateRun(RunName(l.sys.world.key.name, n), spec, l.meteor)), m1))
  {
    hide Reported, Grounded, Evidence, Deserved, EarnedBy;
    var w := l.sys.world;
    var cause := OpCreateRun(RunName(w.key.name, n), spec, l.meteor);
    var s1 := Effect(l.sys, cause);
    var w1 := s1.world;
    var m1 := l.meteor.(status := SetRunCondition(l.meteor.status, n, CondTrue, reason));
    SetRunLogged(w, RunName(w.key.name, n), AnyRun(w.nextUid, spec, [], false, []));
    assert Logged(w1);
    assert s1.trace[|l.sys.trace|].cause.OpCreateRun?;
    if w.meteor.Some? && w.meteor.value.status.phase == Succeeded {
      DeservedStable(w, w1, w.meteor.value, w1.meteor.value);
    }
    if Matches(w1, m1) {
      if m1.status.phase == Succeeded {
        AllReportedStable(w, w1, m1.spec.pipelines);
        SameEarned(l.sys.seen.meteor, l.meteor, m1);
      }
      ConditionGrounded(w, l.meteor, n, CondTrue, reason);
      NewRunGrounded(w, w1, m1, n);
    }
  }

  lemma NewRunGrounded(w: World, w1: World, m1: Meteor, n: string)
    requires Grounded(w, m1) && HasKind(m1.status.conditions, CondKind(n)) && m1.status.comas != []
    requires w1.key == w.key && |w1.runLog| == |w.runLog| + 1 && w.runLog <= w1.runLog
    requires w1.runLog[|w.runLog|].name == RunName(w.key.name, n)
    ensures Grounded(w1, m1)
  {
    forall x ensures Reported(w, x) ==> Reported(w1, x) { ReportedStable(w, w1, x); }
    forall x | x in m1.spec.pipelines && RunEver(w1, x)
      ensures m1.status.comas != [] && HasKind(m1.status.conditions, CondKind(x))
    {
      var i :| 0 <= i < |w1.runLog| && w1.runLog[i].name == RunName(w1.key.name, x);
      if i == |w.runLog| {
        RunNameInjective(w.key.name, n, x);
      } else {
        assert w.runLog[i] == w1.runLog[i];
        assert RunEver(w, x);
      }
    }
  }

  /** What working on one pipeline keeps and achieves, as long as a write would still match. */
  ghost predicate RunKeeps(n0: nat, l: Local, n: string, l1: Local, ok: bool) {
    && l.sys.trace <= l1.sys.trace
    && RunEdit(l.meteor, l1.meteor)
    && (TameTrace(l1.sys.trace) ==>
          && During(n0, l1)
          && (Matches(l1.sys.world, l1.meteor) ==>
                && Matches(l.sys.world, l.meteor)
                && Treated(l.meteor.status, n, l1.meteor.status, ok)))
  }

  /** A failure leaves a condition that is not accepted; otherwise the pipeline has a condition, unless
      no Coma is recorded yet and nothing changed. */
  ghost predicate Treated(st: MeteorStatus, n: string, st1: MeteorStatus, ok: bool) {
    && (forall kind :: HasKind(st.conditions, kind) ==> HasKind(st1.conditions, kind))
    && (!ok ==> exists c :: c in st1.conditions && !Accepted(c))
    && (ok && st.comas != [] ==> HasKind(st1.conditions, CondKind(n)))
    && (ok && st.comas == [] ==> st1.conditions == st.conditions)
  }

  /** A run that is found was logged, so the pipeline already has a condition and a recorded Coma. */
  lemma FoundRun(n0: nat, l: Local, n: string)
    requires During(n0, l) && n in l.meteor.spec.pipelines && LowerPipelines(l.meteor)
    ensures var got := GetRun(l.sys, RunName(l.sys.world.key.name, n)); var w := got.sys.world;
      && l.sys.trace <= got.sys.trace
      && (TameTrace(got.sys.trace) ==>
            && During(n0, Local(got.sys, l.meteor))
            && (Matches(w, l.meteor) ==> Matches(l.sys.world, l.meteor))
            && w.key == l.sys.world.key
            && (got.res.Ok? ==> RunEver(w, n) && (SaysSuccess(got.res.value) ==> Reported(w, n))))
  {
    hide Apply, MemoryOk, Evidence, Honest, HonestTrace;
    ArriveCarries(n0, l);
    var a := Arrive(l.sys);
    T.ArriveWithout(l.sys, T.StatusWrites);
    var name := RunName(l.sys.world.key.name, n);
    var got := GetRun(l.sys, name);
    if TameTrace(got.sys.trace) {
      SameSys(n0, Local(a.sys, l.meteor), got.sys);
      var w := a.sys.world;
      if got.res.Ok? {
        var i :| 0 <= i < |w.runLog| && w.runLog[i] == RunVersion(name, got.res.value);
        assert w.runLog[i].name == RunName(w.key.name, n);
      }
    }
  }

  lemma {:induction false} ObserveTreats(n0: nat, l: Local, n: string, run: Run)
    requires During(n0, l) && LowerPipelines(l.meteor) && n in l.meteor.spec.pipelines
    requires ResultIndex(l.meteor.status.pipelines, n) < |l.meteor.status.pipelines|
    requires RunEver(l.sys.world, n) && (SaysSuccess(run) ==> Reported(l.sys.world, n))
    ensures var m1 := l.meteor.(status := Observe(l.meteor.status, l.sys.world.key.name, n, run));
      && During(n0, Local(l.sys, m1)) && RunEdit(l.meteor, m1)
      && (Matches(l.sys.world, l.meteor) ==> Treated(l.meteor.status, n, m1.status, true))
  {
    hide During, Grounded, Reported, RunEver;
    var st := l.meteor.status;
    var m0 := l.meteor.(status := CopyCondition(st, n, run));
    var m1 := l.meteor.(status := Observe(st, l.sys.world.key.name, n, run));
    if Matches(l.sys.world, l.meteor) {
      MatchedGrounded(n0, l);
      EverHasKind(l.sys.world, l.meteor, n);
    }
    if run.conditions != [] {
      var c := run.conditions[0];
      AcceptedIffGood(n, run);
      ConditionKeeps(n0, l, n, c.status, c.reason);
      SetHasKind(st, n, c.status, c.reason);
    }
    assert During(n0, Local(l.sys, m0));
    ResultsUnseen(n0, Local(l.sys, m0), m1);
  }

  lemma EverHasKind(w: World, m: Meteor, n: string)
    requires Grounded(w, m) && n in m.spec.pipelines && RunEver(w, n)
    ensures m.status.comas != [] && HasKind(m.status.conditions, CondKind(n))
  {
  }

  lemma FailureTreats(n0: nat, l: Local, n: string, status: CondStatus, reason: string)
    requires During(n0, l) && LowerPipelines(l.meteor) && n in l.meteor.spec.pipelines
    requires (status == CondFalse && reason == "Error") || reason == "CreateError" || reason == "BuildStated"
    ensures var m1 := l.meteor.(status := SetRunCondition(l.meteor.status, n, status, reason));
      && During(n0, Local(l.sys, m1)) && RunEdit(l.meteor, m1)
  {
    hide During, Grounded, Reported;
    assert PIPELINE_RUN <= CondKind(n);
    ConditionKeeps(n0, l, n, status, reason);
  }

  /** The condition set on failure or creation, as a treatment. */
  lemma ConditionTreats(st: MeteorStatus, n: string, status: CondStatus, reason: string, ok: bool)
    requires (status == CondFalse && reason == "Error") || reason == "CreateError" || reason == "BuildStated"
    requires ok ==> st.comas != []
    ensures Treated(st, n, SetRunCondition(st, n, status, reason), ok)
  {
    SetHasKind(st, n, status, reason);
    assert PIPELINE_RUN <= CondKind(n);
    assert !Accepted(Condition(CondKind(n), status, reason));
  }

  lemma PipelineKeeps(n0: nat, l: Local, shower: Shower, n: string)
    requires During(n0, l) && LowerPipelines(l.meteor) && n in l.meteor.spec.pipelines
    ensures var (l1, ok) := ReconcilePipelineRun(l, shower, n); RunKeeps(n0, l, n, l1, ok)
  {
    hide During, Treated, Observe, SetRunCondition, RunSpecOf, GetRun, CreateRun, TameTrace, RunEver, Reported;
    var key := l.sys.world.key;
    var st := WithResult(l.meteor.status, key.name, n);
    var m := l.meteor.(status := st);
    ResultsUnseen(n0, l, m);
    var l0 := Local(l.sys, m);
    var name := RunName(key.name, n);
    FoundRun(n0, l0, n);
    var got := GetRun(l.sys, name);
    var l1 := Local(got.sys, m);
    var (end, ok) := ReconcilePipelineRun(l, shower, n);
    T.RunMute(l, shower, n);
    if got.res.Ok? {
      ObserveShape(m, key.name, n, got.res.value);
      if TameTrace(end.sys.trace) {
        ObserveTreats(n0, l1, n, got.res.value);
        SameTreatment(l.meteor.status, st, n, end.meteor.status, ok);
      }
    } else if got.res != Err(NotFound) {
      ConditionShape(m, n, CondFalse, "Error");
      if TameTrace(end.sys.trace) {
        FailureTreats(n0, l1, n, CondFalse, "Error");
        ConditionTreats(st, n, CondFalse, "Error", false);
        SameTreatment(l.meteor.status, st, n, end.meteor.status, ok);
      }
    } else if st.comas == [] {
      NothingTreats(st, n);
      SameTreatment(l.meteor.status, st, n, end.meteor.status, ok);
    } else {
      var spec := RunSpecOf(key, m, shower, n);
      ConditionShape(m, n, CondTrue, "CreateError");
      ConditionShape(m, n, CondTrue, "BuildStated");
      var made := CreateRun(got.sys, name, spec, m);
      T.CreateRunWithout(got.sys, name, spec, m);
      if TameTrace(end.sys.trace) {
        ShorterTame(got.sys.trace, end.sys.trace);
        CreationKeeps(n0, l1, n, spec, if made.res.Err? then "CreateError" else "BuildStated");
        ConditionTreats(st, n, CondTrue, "CreateError", false);
        ConditionTreats(st, n, CondTrue, "BuildStated", true);
        SameTreatment(l.meteor.status, st, n, end.meteor.status, ok);
      }
    }
  }

  lemma {:induction false} ObserveShape(m: Meteor, meteor: string, n: string, run: Run)
    requires ResultIndex(m.status.pipelines, n) < |m.status.pipelines|
    ensures RunEdit(m, m.(status := Observe(m.status, meteor, n, run)))
  {
  }

  lemma ConditionShape(m: Meteor, n: string, status: CondStatus, reason: string)
    ensures RunEdit(m, m.(status := SetRunCondition(m.status, n, status, reason)))
  {
  }

  lemma NothingTreats(st: MeteorStatus, n: string)
    requires st.comas == []
    ensures Treated(st, n, st, true)
  {
  }

  lemma SameTreatment(st: MeteorStatus, st0: MeteorStatus, n: string, st1: MeteorStatus, ok: bool)
    requires st0.conditions == st.conditions && st0.comas == st.comas
    ensures Treated(st0, n, st1, ok) ==> Treated(st, n, st1, ok)
  {
  }

  /** The creation call of a pipeline's run together with the condition it leaves. */
  lemma CreationKeeps(n0: nat, l: Local, n: string, spec: RunSpec, reason: string)
    requires During(n0, l) && LowerPipelines(l.meteor) && n in l.meteor.spec.pipelines && l.meteor.status.comas != []
    requires reason == "BuildStated" || reason == "CreateError"
    ensures var made := CreateRun(l.sys, RunName(l.sys.world.key.name, n), spec, l.meteor);
      var m1 := l.meteor.(status := SetRunCondition(l.meteor.status, n, CondTrue, reason));
      && l.sys.trace <= made.sys.trace
      && (TameTrace(made.sys.trace) ==>
            During(n0, Local(made.sys, m1)) && (Matches(made.sys.world, m1) ==> Matches(l.sys.world, l.meteor)))
  {
    hide During, Grounded, Reported, SetRunCondition;
    ArriveCarries(n0, l);
    T.ArriveWithout(l.sys, T.StatusWrites);
    var a := Arrive(l.sys);
    var name := RunName(l.sys.world.key.name, n);
    var made := CreateRun(l.sys, name, spec, l.meteor);
    T.CreateRunWithout(l.sys, name, spec, l.meteor);
    if TameTrace(made.sys.trace) {
      ShorterTame(a.sys.trace, made.sys.trace);
      CreateRunEffect(n0, Local(a.sys, l.meteor), n, spec, reason);
      FailureTreats(n0, Local(a.sys, l.meteor), n, CondTrue, reason);
      ConditionShape(l.meteor, n, CondTrue, reason);
    }
  }

  /** The loop over pipelines: `done` were treated before. */
  lemma {:induction false} PipelinesKeep(n0: nat, l: Local, shower: Shower, done: seq<string>, names: seq<string>)
    requires During(n0, l) && LowerPipelines(l.meteor) && l.meteor.spec.pipelines == done + names
    requires Matches(l.sys.world, l.meteor) ==>
      if l.meteor.status.comas == [] then Covered(l.meteor)
      else forall x :: x in done ==> HasKind(l.meteor.status.conditions, CondKind(x))
    ensures var (l1, ok) := ReconcilePipelines(l, shower, names);
      && l.sys.trace <= l1.sys.trace && RunEdit(l.meteor, l1.meteor)
      && (TameTrace(l1.sys.trace) ==>
            && During(n0, l1)
            && (Matches(l1.sys.world, l1.meteor) ==> Matches(l.sys.world, l.meteor) && Covered(l1.meteor)))
    decreases |names|
  {
    hide During, ReconcilePipelineRun, TameTrace, HasKind, Accepted;
    var (end, ok1) := ReconcilePipelines(l, shower, names);
    if names != [] {
      var n := names[0];
      assert n in l.meteor.spec.pipelines;
      PipelineKeeps(n0, l, shower, n);
      var (l1, ok) := ReconcilePipelineRun(l, shower, n);
      if ok {
        T.RunsMute(l1, shower, names[1..]);
        assert done + names == done + [n] + names[1..];
        PipelinesShape(l1, shower, names[1..]);
        if TameTrace(end.sys.trace) {
          ShorterTame(l1.sys.trace, end.sys.trace);
          PipelinesKeep(n0, l1, shower, done + [n], names[1..]);
        }
      }
    } else {
      assert done + names == done;
    }
  }

  lemma PipelineShape(l: Local, shower: Shower, n: string)
    ensures RunEdit(l.meteor, ReconcilePipelineRun(l, shower, n).0.meteor)
  {
    hide Observe, SetRunCondition, RunSpecOf, GetRun, CreateRun;
    var key := l.sys.world.key;
    var st := WithResult(l.meteor.status, key.name, n);
    var m := l.meteor.(status := st);
    var got := GetRun(l.sys, RunName(key.name, n));
    if got.res.Ok? { ObserveShape(m, key.name, n, got.res.value); }
    ConditionShape(m, n, CondFalse, "Error");
    ConditionShape(m, n, CondTrue, "CreateError");
    ConditionShape(m, n, CondTrue, "BuildStated");
  }

  lemma {:induction false} PipelinesShape(l: Local, shower: Shower, names: seq<string>)
    ensures RunEdit(l.meteor, ReconcilePipelines(l, shower, names).0.meteor)
    decreases |names|
  {
    hide ReconcilePipelineRun;
    if names != [] {
      PipelineShape(l, shower, names[0]);
      var (l1, ok) := ReconcilePipelineRun(l, shower, names[0]);
      if ok { PipelinesShape(l1, shower, names[1..]); }
    }
  }

  // ---------------------------------------------------------------- whole passes

  /** The invariant at pass boundaries. */
  ghost predicate Between(s: Sys) {
    Logged(s.world) && Evidence(s.world) && Honest(s.world) && HonestTrace(s.trace)
  }

  lemma LocateKeeps(n: nat, l: Local, previous: Option<Shower>)
    requires During(n, l) && CoveredIfCurrent(l)
    ensures var l1 := Locate(l, previous).0;
      && l.sys.trace <= l1.sys.trace && l1.meteor == l.meteor.(rv := l1.meteor.rv)
      && (TameTrace(l1.sys.trace) ==> During(n, l1) && CoveredIfCurrent(l1))
  {
    hide Apply, Arrive, During, TameTrace, UpdateStatusNow, CoveredIfCurrent, T.Tells;
    ArriveCarries(n, l);
    var o := FindOwnerShower(l.sys, l.meteor, previous);
    var l0 := Local(o.sys, l.meteor);
    var l1 := Locate(l, previous).0;
    T.ArriveWithout(l.sys, T.StatusWrites);
    T.WriteWithoutRuns(l0, true);
    T.WriteTells(l0, true);
    if TameTrace(l1.sys.trace) {
      ShorterTame(o.sys.trace, l1.sys.trace);
      SameCoveredIfCurrent(l, l0);
      if !o.ok {
        WriteKeeps(n, l0, true);
        SameCoveredIfCurrent(l0, l1);
      }
    }
  }

  /** The final write of a pass, made from `l` after silent work since `start`. */
  lemma FinalWrite(n: nat, start: Local, l: Local, failed: bool)
    requires During(n, l) && CoveredIfCurrent(l)
    requires T.Without(start.sys, l.sys, T.StatusWrites) && NoRunSince(start.sys.trace, n)
    ensures var l1 := UpdateStatusNow(l, failed).0;
      TameTrace(l1.sys.trace) ==>
        During(n, l1) && (NoRunSince(l1.sys.trace, n) || EndsWithWrite(l1.sys) ==> Evidence(l1.sys.world))
  {
    hide TameTrace, UpdateStatusNow, Evidence, Logged, Honest, HonestTrace, MemoryOk;
    var l1 := UpdateStatusNow(l, failed).0;
    WriteKeeps(n, l, failed);
    if TameTrace(l1.sys.trace) && EndsWithWrite(l1.sys) && |l1.sys.trace| == |l.sys.trace| {
      assert l1.sys.trace == l.sys.trace;
      assert l1.sys.trace == start.sys.trace;
    }
  }

  lemma WorkKeeps(n: nat, l: Local, shower: Shower)
    requires During(n, l) && CoveredIfCurrent(l) && LowerPipelines(l.meteor) && NoRunSince(l.sys.trace, n)
    requires l.sys.seen.runs == []
    ensures var l1 := Work(l, shower).0;
      && l.sys.trace <= l1.sys.trace
      && (TameTrace(l1.sys.trace) ==>
            During(n, l1) && (NoRunSince(l1.sys.trace, n) || EndsWithWrite(l1.sys) ==> Evidence(l1.sys.world)))
  {
    hide During, TameTrace, NoRunSince, ReconcileComas, ReconcilePipelines, UpdateStatusNow;
    hide Evidence, CoveredIfCurrent, LowerPipelines;
    var end := Work(l, shower).0;
    var (l1, ok) := ReconcileComas(l, shower.services);
    T.ComasMute(l, shower.services, T.StatusWrites);
    T.WorkTells(l, shower);
    ComasShape(l, shower.services);
    T.WriteWithoutRuns(l1, true);
    if !ok {
      if TameTrace(end.sys.trace) {
        TameBefore(l1.sys, end.sys);
        ComasLoopKeeps(n, l, shower.services);
        ComasStay(l, shower.services);
        SameCoveredIfCurrent(l, l1);
        FinalWrite(n, l, l1, true);
      }
    } else {
      var names := l1.meteor.spec.pipelines;
      var (l2, ok2) := ReconcilePipelines(l1, shower, names);
      T.RunsMute(l1, shower, names);
      T.MuteTransitive(l, l1, l2, T.StatusWrites);
      T.WriteWithoutRuns(l2, !ok2);
      if TameTrace(end.sys.trace) {
        TameBefore(l2.sys, end.sys);
        SilentPrefix(l1.sys, l2.sys);
        ShorterTame(l1.sys.trace, l2.sys.trace);
        ComasLoopKeeps(n, l, shower.services);
        ComasStay(l, shower.services);
        SameCoveredIfCurrent(l, l1);
        LowerUnseen(l.meteor, l1.meteor);
        PipelinesStart(n, l1, shower);
        FinalWrite(n, l, l2, !ok2);
      }
    }
  }

  lemma {:induction false} ComasStay(l: Local, services: seq<ExternalService>)
    ensures l.meteor.status.comas <= ReconcileComas(l, services).0.meteor.status.comas
    decreases |services|
  {
    hide GetComa, CreateComa, WriteComaOwner, AddRef;
    if services != [] {
      if services[0].namespace == "" {
        ComasStay(l, services[1..]);
      } else {
        var k := Key(services[0].namespace, l.sys.world.key.name);
        forall c: FoundComa ensures l.meteor.status.comas <= AddRef(l.meteor.status.comas, Ref(k.namespace, k.name, c.uid, false)) {
          AddRefExtends(l.meteor.status.comas, Ref(k.namespace, k.name, c.uid, false));
        }
        var (l1, step) := ReconcileComa(l, services[0].namespace);
        if step == Next { ComasStay(l1, services[1..]); }
      }
    }
  }

  lemma {:induction false} PipelinesStart(n: nat, l: Local, shower: Shower)
    requires During(n, l) && CoveredIfCurrent(l) && LowerPipelines(l.meteor) && l.sys.seen.runs == []
    ensures var l1 := ReconcilePipelines(l, shower, l.meteor.spec.pipelines).0;
      TameTrace(l1.sys.trace) ==> During(n, l1) && CoveredIfCurrent(l1)
  {
    hide During, TameTrace, ReconcilePipelines, HasKind, Tally;
    var names := l.meteor.spec.pipelines;
    assert [] + names == names && names[0..] == names;
    PipelinesKeep(n, l, shower, [], names);
    T.RunsMute(l, shower, names);
    var l1 := ReconcilePipelines(l, shower, names).0;
    if Matches(l.sys.world, l.meteor) && l.meteor.status.phase == Succeeded { PipelinesTally(l, shower, names); }
  }

  lemma SilentPrefix(s: Sys, s': Sys)
    requires T.Without(s, s', T.StatusWrites)
    ensures s.trace <= s'.trace
  {
  }

  lemma TameBefore(s: Sys, s': Sys)
    requires T.Without(s, s', T.RunCreations) && TameTrace(s'.trace)
    ensures TameTrace(s.trace)
  {
    ShorterTame(s.trace, s'.trace);
  }

  lemma SameCoveredIfCurrent(l: Local, l1: Local)
    requires CoveredIfCurrent(l)
    requires l1.meteor.status.conditions == l.meteor.status.conditions && l1.meteor.spec == l.meteor.spec
    requires l1.meteor.status.phase == l.meteor.status.phase && (l.meteor.status.comas != [] ==> l1.meteor.status.comas != [])
    requires l1.sys.world.key == l.sys.world.key && l1.sys.seen == l.sys.seen
    requires Matches(l1.sys.world, l1.meteor) ==> Matches(l.sys.world, l.meteor)
    ensures CoveredIfCurrent(l1)
  {
    hide Tally;
    if Matches(l1.sys.world, l1.meteor) && l1.meteor.status.phase == Succeeded {
      TallyUnseen(l.meteor, l1.meteor, l.sys.world.key.name, l.sys.seen.runs);
    }
  }

  lemma ProceedKeeps(n: nat, l: Local, shower: Option<Shower>)
    requires During(n, l) && CoveredIfCurrent(l) && LowerPipelines(l.meteor) && NoRunSince(l.sys.trace, n)
    requires l.sys.seen.runs == []
    ensures var l1 := Proceed(l, shower).0;
      && l.sys.trace <= l1.sys.trace
      && (TameTrace(l1.sys.trace) ==>
            During(n, l1) && (NoRunSince(l1.sys.trace, n) || EndsWithWrite(l1.sys) ==> Evidence(l1.sys.world)))
  {
    hide During, TameTrace, Work, EnsureFinalizers, DeleteMeteor, Evidence;
    var end := Proceed(l, shower).0;
    if IsTTLReached(l.meteor, l.sys.world.now) && !l.meteor.deleting {
      DeleteKeeps(n, l);
      StillRunless(n, l.sys, end.sys);
      if TameTrace(end.sys.trace) { EvidenceWhenRunless(n, end); }
    } else {
      EnsureKeeps(n, l);
      T.EnsureWithout(l, T.RunCreations);
      var (l1, ok) := EnsureFinalizers(l);
      StillRunless(n, l.sys, l1.sys);
      if ok && !l1.meteor.deleting && shower.Some? {
        T.WorkTells(l1, shower.value);
        if TameTrace(end.sys.trace) {
          ShorterTame(l1.sys.trace, end.sys.trace);
          SameCoveredIfCurrent(l, l1);
          WorkKeeps(n, l1, shower.value);
        }
      } else if TameTrace(end.sys.trace) {
        SameSys(n, l1, end.sys);
        EvidenceWhenRunless(n, end);
      }
    }
  }

  lemma DeleteKeeps(n: nat, l: Local)
    requires During(n, l)
    ensures var s := DeleteMeteor(l.sys, l.meteor).sys;
      T.Without(l.sys, s, T.RunCreations) && (TameTrace(s.trace) ==> During(n, Local(s, l.meteor)))
  {
    hide Apply, Effect, Arrive, During, TameTrace;
    T.DeleteWithout(l.sys, l.meteor, T.RunCreations);
    NeutralAttempt(n, l, Arrive(l.sys).sys.world.meteor.Some?, NotFound, OpDelete(l.meteor), ());
  }

  lemma StillRunless(n: nat, s: Sys, s': Sys)
    requires NoRunSince(s.trace, n) && T.Without(s, s', T.RunCreations)
    ensures NoRunSince(s'.trace, n)
  {
    forall i | n <= i < |s'.trace| ensures !s'.trace[i].cause.OpCreateRun? {
      if i < |s.trace| { assert s'.trace[i] == s.trace[i]; }
    }
  }

  lemma EvidenceWhenRunless(n: nat, l: Local)
    requires During(n, l) && NoRunSince(l.sys.trace, n)
    ensures Evidence(l.sys.world)
  {
  }

  // ---------------------------------------------------------------- the theorem

  lemma {:induction false} EnvironmentBetween(s: Sys, es: seq<Event>)
    requires Between(s)
    ensures var s1 := Environment(s, es); TameTrace(s1.trace) ==> Between(s1)
    decreases |es|
  {
    hide Apply, Evidence, Logged, Honest, Tame;
    if es != [] {
      var s0 := Effect(s, Env(es[0]));
      T.EnvironmentWithout(s0, es[1..], T.StatusWrites);
      var s1 := Environment(s, es);
      if TameTrace(s1.trace) {
        assert s1.trace[|s.trace|] == s0.trace[|s.trace|];
        CauseSteady(Env(es[0]), s.world);
        EvidenceKept(Env(es[0]), s.world);
        EnvironmentBetween(s0, es[1..]);
      }
    }
  }

  lemma SameBetween(s: Sys, s': Sys)
    requires Between(s) && s'.world == s.world && s'.trace == s.trace
    ensures Between(s')
  {
  }

  lemma ArriveBetween(s: Sys)
    requires Between(s)
    ensures var s1 := Arrive(s).sys; TameTrace(s1.trace) ==> Between(s1)
  {
    hide Between, TameTrace;
    if s.up && s.script != [] {
      var s0 := s.(script := s.script[1..]);
      SameBetween(s, s0);
      EnvironmentBetween(s0, s.script[0].env);
      var s1 := Environment(s0, s.script[0].env);
      if TameTrace(s1.trace) { SameBetween(s1, Arrive(s).sys); }
    }
  }

  /** The Meteor just read, with its status refreshed, satisfies what holds during a pass. */
  lemma ReadStarts(w0: World, n: nat, s: Sys, m: Meteor)
    requires S.SysOk(w0, s) && Between(s) && m in s.world.versions && n <= |s.trace|
    requires s.seen == Seen(m, [])
    ensures During(n, Local(s, Refresh(m))) && CoveredIfCurrent(Local(s, Refresh(m)))
  {
    hide AggregatePhase, S.NoOrphan, S.RecordGrows, S.EntryOk, Reported, RunEver, EarnedBy, OwnConditions, AllAccepted, Deserved;
    var w := s.world;
    S.RefreshShape(m);
    var i :| 0 <= i < |w.versions| && w.versions[i] == m;
    var m1 := Refresh(m);
    if Matches(w, m1) {
      assert w.meteor.value == m;
      assert Grounded(w, m1);
      SameCovered(m, m1);
      assert L.StatusSound(w.key, w.versions[i].status);
      if m1.status.phase == Succeeded { SuccessStarts(w, m, m1); }
    }
  }

  lemma ReportedRan(w: World, n: string)
    requires Reported(w, n)
    ensures RunEver(w, n)
  {
  }

  /** A phase Succeeded computed from the stored Meteor is earned by it, and its tally begins. */
  lemma SuccessStarts(w: World, m: Meteor, m1: Meteor)
    requires Covered(m) && Grounded(w, m) && AggregatePhase(m.status) == Succeeded && UniqueKinds(m.status.conditions)
    requires m1.spec == m.spec && m1.uid == m.uid
    requires m1.status.conditions == m.status.conditions && m1.status.comas == m.status.comas
    ensures AllReported(w, m.spec.pipelines) && EarnedBy(m, m1) && Tally(m1, w.key.name, [])
  {
    hide Tally;
    CoveredAndGroundedMeansReported(w, m);
    SucceededIffAllAccepted(m.status);
    if m.spec.pipelines != [] {
      var n := m.spec.pipelines[0];
      assert n in m.spec.pipelines && Reported(w, n);
      ReportedRan(w, n);
    }
    TallyStarts(m1, w.key.name);
  }

  lemma PassKeepsEvidence(w0: World, op: Op)
    requires S.SysOk(w0, op.sys) && Between(op.sys) && op.sys.seen.runs == []
    requires TameTrace(Reconcile(op).0.sys.trace) && Lands(op.sys, Reconcile(op).0.sys)
    requires GetMeteor(op.sys).res.Ok? ==> LowerPipelines(GetMeteor(op.sys).res.value)
    ensures Between(Reconcile(op).0.sys)
  {
    hide S.SysOk, TameTrace, During, GetMeteor, Locate, Proceed, Between, Refresh, NoRunSince, Evidence;
    var n := |op.sys.trace|;
    var got := GetMeteor(op.sys);
    S.GetMeteorOk(w0, op.sys);
    GetMeteorArrives(op.sys);
    if got.res.Ok? {
      var m := got.res.value;
      S.RefreshShape(m);
      var l0 := Local(got.sys, Refresh(m));
      T.LocateWithoutRuns(l0, op.shower);
      var (l, shower) := Locate(l0, op.shower);
      T.ProceedTells(l, shower);
      var end := Proceed(l, shower).0;
      ShorterTame(l.sys.trace, end.sys.trace);
      ShorterTame(got.sys.trace, l.sys.trace);
      ReadStarts(w0, n, got.sys, m);
      LocateKeeps(n, l0, op.shower);
      FromStart(n, op.sys, got.sys, l.sys);
      ProceedKeeps(n, l, shower);
      DuringIsBetween(n, end);
    }
  }

  lemma GetMeteorArrives(s: Sys)
    requires Between(s)
    ensures var got := GetMeteor(s);
      && (got.res.Ok? ==> got.sys.seen == Seen(got.res.value, s.seen.runs))
      && T.Without(s, got.sys, T.RunCreations) && (TameTrace(got.sys.trace) ==> Between(got.sys))
  {
    hide Between, TameTrace, T.Without, Arrive;
    ArriveBetween(s);
    T.ArriveWithout(s, T.RunCreations);
    SameHistory(s, Arrive(s).sys, GetMeteor(s).sys);
    if TameTrace(Arrive(s).sys.trace) { SameBetween(Arrive(s).sys, GetMeteor(s).sys); }
  }

  lemma SameHistory(s: Sys, s0: Sys, s1: Sys)
    requires T.Without(s, s0, T.RunCreations) && s1.world == s0.world && s1.trace == s0.trace
    ensures T.Without(s, s1, T.RunCreations)
  {
  }

  lemma FromStart(n: nat, s: Sys, got: Sys, located: Sys)
    requires n == |s.trace| && T.Without(s, got, T.RunCreations) && T.Without(got, located, T.RunCreations)
    ensures n <= |got.trace| && NoRunSince(located.trace, n)
  {
    T.WithoutTransitive(s, got, located, T.RunCreations);
  }

  lemma DuringIsBetween(n: nat, l: Local)
    requires During(n, l) && Evidence(l.sys.world)
    ensures Between(l.sys)
  {
  }

  ghost predicate AllLower(w: World) {
    forall v :: v in w.versions ==> LowerPipelines(v)
  }

  lemma {:induction false} PassesKeepEvidence(w0: World, op: Op, scripts: seq<seq<Plan>>)
    requires S.SysOk(w0, op.sys) && Between(op.sys)
    requires TameTrace(Passes(op, scripts).sys.trace) && AllLand(op, scripts) && AllLower(Passes(op, scripts).sys.world)
    ensures Between(Passes(op, scripts).sys)
    decreases |scripts|
  {
    hide S.SysOk, Between, TameTrace, Reconcile, Lands, LowerPipelines, GetMeteor;
    if scripts != [] {
      var op0 := Resume(op, scripts[0]);
      var op1 := Reconcile(op0).0;
      S.HistoryIsFree(w0, op.sys, op0.sys);
      SameBetween(op.sys, op0.sys);
      S.ReconcileOk(w0, op0);
      S.PassesOk(w0, op1, scripts[1..]);
      ShorterTame(op1.sys.trace, Passes(op, scripts).sys.trace);
      S.GetMeteorOk(w0, op0.sys);
      G.ReadBeforeEnd(w0, op0);
      SameLands(op.sys, op0.sys, op1.sys);
      PassKeepsEvidence(w0, op0);
      PassesKeepEvidence(w0, op1, scripts[1..]);
    }
  }

  lemma SameLands(s: Sys, s0: Sys, s1: Sys)
    requires s0.trace == s.trace && Lands(s, s1)
    ensures Lands(s0, s1)
  {
  }

  /** The assumptions: lower-case pipelines, fixed while a Meteor lives; runs created by the operator only;
      a Meteor made anew only if no run of its pipelines is on record; and no status write lost by a pass
      that created a run. */
  ghost predicate Assumed(op: Op, scripts: seq<seq<Plan>>) {
    && Initial(op)
    && TameTrace(Passes(op, scripts).sys.trace) && AllLand(op, scripts) && AllLower(Passes(op, scripts).sys.world)
  }

  lemma {:induction false} TraceIsHonest(op: Op, scripts: seq<seq<Plan>>)
    requires Assumed(op, scripts)
    ensures HonestTrace(Passes(op, scripts).sys.trace)
  {
    hide Passes, S.SysOk, TameTrace;
    S.InitialOk(op);
    PassesKeepEvidence(op.sys.world, op, scripts);
  }

  /** A Meteor never claims Succeeded too early: whenever a stored phase is Succeeded, in any state of the
      run, there is a committed version of that Meteor whose conditions were all accepted, with one of its
      own for every listed pipeline; every listed pipeline still has its own condition beside the phase; and
      Tekton had by then reported success for the run of each. */
  lemma {:induction false} SucceededIsNeverEarly(op: Op, scripts: seq<seq<Plan>>, i: nat)
    requires Assumed(op, scripts) && i < |Passes(op, scripts).sys.trace|
    ensures var w := Passes(op, scripts).sys.trace[i].after;
      w.meteor.Some? && w.meteor.value.status.phase == Succeeded ==>
        && (exists v :: v in w.versions && v.uid == w.meteor.value.uid
              && v.spec.pipelines == w.meteor.value.spec.pipelines && AllAccepted(v.status.conditions) && OwnConditions(v))
        && (forall n :: n in w.meteor.value.spec.pipelines ==>
              HasKind(w.meteor.value.status.conditions, CondKind(n)) && Reported(w, n))
  {
    hide Passes, Assumed, Reported, AllAccepted;
    TraceIsHonest(op, scripts);
    assert Honest(Passes(op, scripts).sys.trace[i].after);
  }

  /** What a status write that claims Succeeded was made from and carries: the version its pass had read
      was all accepted, with a condition of its own for every listed pipeline; the run reads of the pass
      are those of the first listed pipelines; and the conditions beside the phase are still all accepted
      exactly when each run's last telling read was good. If no pipeline is listed twice, that is when
      every run read of the pass found a run that has no condition or says success. */
  lemma {:induction false} SucceededWriteAgreesIff(op: Op, scripts: seq<seq<Plan>>, i: nat)
    requires Assumed(op, scripts) && i < |Passes(op, scripts).sys.trace|
    requires var c := Passes(op, scripts).sys.trace[i].cause; c.OpWriteStatus? && c.view.status.phase == Succeeded
    ensures var e := Passes(op, scripts).sys.trace[i]; var view := e.cause.view; var v := e.cause.seen.meteor;
      var names := view.spec.pipelines; var log := e.cause.seen.runs; var key := e.before.key;
      && v in e.before.versions && v.uid == view.uid && v.spec.pipelines == names
      && AllAccepted(v.status.conditions) && OwnConditions(v) && OwnConditions(view)
      && |log| <= |names| && (forall k :: 0 <= k < |log| ==> log[k].name == RunName(key.name, names[k]))
      && (AllAccepted(view.status.conditions) <==> Untroubled(log))
      && (NoDup(names) ==>
            (AllAccepted(view.status.conditions)
             <==> forall r :: r in log ==> r.found.Some? && (r.found.value.conditions == [] || SaysSuccess(r.found.value))))
  {
    hide Passes, Assumed, AllAccepted, Untroubled, RunName, LastTelling;
    TraceIsHonest(op, scripts);
    var e := Passes(op, scripts).sys.trace[i];
    assert HonestWrite(e);
    var names, log, meteor := e.cause.view.spec.pipelines, e.cause.seen.runs, e.before.key.name;
    TallyDecides(e.cause.view, meteor, log);
    if NoDup(names) {
      forall a, b | 0 <= a < b < |log| ensures log[a].name != log[b].name {
        if RunName(meteor, names[a]) == RunName(meteor, names[b]) { RunNameInjective(meteor, names[a], names[b]); }
      }
      UntroubledWithoutRepeats(log);
    }
  }
}
