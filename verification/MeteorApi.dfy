/** The Meteor and Shower resources, the phase aggregation and the time-to-live arithmetic
    (api/v1alpha1/meteor_types.go, api/v1alpha1/shower_types.go). */
module MeteorApi {
  import opened Kube

  const FINALIZER := "meteor.zone/finalizer"
  const PIPELINE_RUN := "PipelineRun"

  /** An owner reference with its namespace; API version, kind and block-deletion flag are constant. */
  datatype Ref = Ref(namespace: string, name: string, uid: nat, controller: bool)

  datatype MeteorSpec = MeteorSpec(url: string, gitRef: string, ttl: int, pipelines: seq<string>)

  datatype PipelineResult = PipelineResult(name: string, runName: string, url: string, ready: string)

  datatype Stage = Stage(running: seq<string>, succeeded: seq<string>, failed: seq<string>)

  datatype MeteorStatus = MeteorStatus(
    phase: Phase,
    conditions: seq<Condition>,
    pipelines: seq<PipelineResult>,
    expiration: Option<int>,
    observedGeneration: nat,
    comas: seq<Ref>,
    stage: Stage)

  /** One version of the Meteor. Its name and namespace are those of the reconcile request.
      `created` is in whole seconds; `selector` is the value of the Shower selector label. */
  datatype Meteor = Meteor(
    uid: nat,
    rv: nat,
    generation: nat,
    created: int,
    finalizers: seq<string>,
    deleting: bool,
    selector: Option<string>,
    spec: MeteorSpec,
    status: MeteorStatus)

  const EMPTY_STATUS := MeteorStatus(NoPhase, [], [], None, 0, [], Stage([], [], []))
  const EMPTY_METEOR := Meteor(0, 0, 0, 0, [], false, None, MeteorSpec("", "", 0, []), EMPTY_STATUS)

  datatype ExternalService = ExternalService(name: string, namespace: string, url: string)

  datatype Shower = Shower(name: string, services: seq<ExternalService>, persistentHost: string)

  // ---------------------------------------------------------------- phase

  /** A condition that does not stop the Meteor from being Succeeded. */
  predicate Accepted(c: Condition) {
    c.status != CondFalse &&
    if PIPELINE_RUN <= c.kind then c.reason == "Succeeded" || c.reason == "Completed" else c.reason == "Ready"
  }

  /** The scan of the condition list: the first condition that is not accepted decides. */
  function ScanConditions(cs: seq<Condition>): (p: Phase)
  {
    if cs == [] then Succeeded
    else if cs[0].status == CondFalse then Failed
    else if PIPELINE_RUN <= cs[0].kind then
      if cs[0].reason == "Succeeded" || cs[0].reason == "Completed" then ScanConditions(cs[1..]) else Building
    else if cs[0].reason != "Ready" then Building
    else ScanConditions(cs[1..])
  }

  function AggregatePhase(st: MeteorStatus): (p: Phase)
  {
    if st.conditions == [] then Building else ScanConditions(st.conditions)
  }

  /** The scan is decided by the earliest condition that is not accepted, whatever follows it. */
  lemma {:induction false} ScanIsDecidedByEarliest(cs: seq<Condition>, k: nat)
    requires k < |cs| && !Accepted(cs[k]) && forall i :: 0 <= i < k ==> Accepted(cs[i])
    ensures ScanConditions(cs) == if cs[k].status == CondFalse then Failed else Building
  {
    if k > 0 {
      ScanIsDecidedByEarliest(cs[1..], k - 1);
    }
  }

  lemma {:induction false} ScanSucceedsIffAllAccepted(cs: seq<Condition>)
    ensures ScanConditions(cs) == Succeeded <==> forall c :: c in cs ==> Accepted(c)
    ensures ScanConditions(cs) in {Succeeded, Failed, Building}
  {
    if cs != [] {
      ScanSucceedsIffAllAccepted(cs[1..]);
      assert Accepted(cs[0]) ==> ScanConditions(cs) == ScanConditions(cs[1..]);
      assert !Accepted(cs[0]) ==> ScanConditions(cs) != Succeeded;
      assert forall c :: c in cs <==> c == cs[0] || c in cs[1..];
    }
  }

  /** Succeeded is claimed exactly for a non-empty list of accepted conditions. */
  lemma SucceededIffAllAccepted(st: MeteorStatus)
    ensures AggregatePhase(st) == Succeeded <==> st.conditions != [] && forall c :: c in st.conditions ==> Accepted(c)
  {
    ScanSucceedsIffAllAccepted(st.conditions);
  }

  /** The Succeeded verdict depends on the set of conditions only, not on order or repetition. */
  lemma SucceededIgnoresOrder(a: MeteorStatus, b: MeteorStatus)
    requires forall c :: c in a.conditions <==> c in b.conditions
    ensures AggregatePhase(a) == Succeeded <==> AggregatePhase(b) == Succeeded
  {
    SucceededIffAllAccepted(a);
    SucceededIffAllAccepted(b);
    if a.conditions != [] { assert a.conditions[0] in b.conditions; }
    if b.conditions != [] { assert b.conditions[0] in a.conditions; }
  }

  // ---------------------------------------------------------------- time to live

  const SECOND := 1_000_000_000
  const TWO_63 := 0x8000_0000_0000_0000
  const TWO_64 := 0x1_0000_0000_0000_0000
  const MAX_EXACT_TTL := 9_223_372_036

  predicate IsInt64(x: int) { -TWO_63 <= x < TWO_63 }

  /** Two's complement reduction to 64 bits. */
  function Wrap64(x: int): (r: int)
    ensures IsInt64(r) && (IsInt64(x) ==> r == x)
    ensures exists k: int :: r == x + k * TWO_64
  {
    var r := (x + TWO_63) % TWO_64 - TWO_63;
    assert r == x + (-((x + TWO_63) / TWO_64)) * TWO_64;
    r
  }

  /** creation + Duration(TTL) * Second in nanoseconds; the product is a 64-bit one. */
  function ExpirationOf(m: Meteor): (t: int)
  {
    m.created * SECOND + Wrap64(m.spec.ttl * SECOND)
  }

  predicate IsTTLReached(m: Meteor, now: int) {
    m.spec.ttl != 0 && ExpirationOf(m) < now
  }

  /** The expiry is creation plus TTL seconds exactly for the TTLs whose nanoseconds fit 64 bits. */
  lemma ExpirationExactIff(m: Meteor)
    requires IsInt64(m.spec.ttl)
    ensures ExpirationOf(m) == (m.created + m.spec.ttl) * SECOND
            <==> -MAX_EXACT_TTL <= m.spec.ttl <= MAX_EXACT_TTL
  {
    var d := m.spec.ttl * SECOND;
    assert ExpirationOf(m) == (m.created + m.spec.ttl) * SECOND <==> Wrap64(d) == d;
    assert Wrap64(d) == d <==> IsInt64(d);
  }

  /** The bound is tight: the next TTL already expires before the Meteor was created. */
  lemma NextTTLWrapsBeforeCreation(m: Meteor, now: int)
    requires m.spec.ttl == MAX_EXACT_TTL + 1 && m.created * SECOND <= now
    ensures ExpirationOf(m) < m.created * SECOND && IsTTLReached(m, now)
  {
    var d := m.spec.ttl * SECOND;
    assert (d + TWO_63) % TWO_64 == d + TWO_63 - TWO_64;
  }

  /** For the exact TTLs a Meteor is expired exactly when more than TTL seconds have passed,
      and expiry, once reached, stays reached. */
  lemma TTLReachedMeaning(m: Meteor, now: int, later: int)
    requires 0 <= m.spec.ttl <= MAX_EXACT_TTL && now <= later
    ensures IsTTLReached(m, now) <==> m.spec.ttl != 0 && now - m.created * SECOND > m.spec.ttl * SECOND
    ensures IsTTLReached(m, now) ==> IsTTLReached(m, later)
  {
    ExpirationExactIff(m);
  }

  // ---------------------------------------------------------------- names

  predicate IsSeparator(c: char) {
    c < 128 as char && !('a' <= c <= 'z' || 'A' <= c <= 'Z' || '0' <= c <= '9' || c == '_')
  }

  function ToUpper(c: char): char {
    if 'a' <= c <= 'z' then (c as int - 32) as char else c
  }

  function ToLower(c: char): char {
    if 'A' <= c <= 'Z' then (c as int + 32) as char else c
  }

  /** strings.Title on ASCII: upper-case every letter that follows a separator. */
  function TitleAfter(s: string, prev: char): (t: string)
    ensures |t| == |s|
  {
    if s == [] then [] else [if IsSeparator(prev) then ToUpper(s[0]) else s[0]] + TitleAfter(s[1..], s[0])
  }

  function Title(s: string): string { TitleAfter(s, ' ') }

  function Lower(s: string): (t: string) {
    if s == [] then [] else [ToLower(s[0])] + Lower(s[1..])
  }

  /** A pipeline name without upper-case letters. */
  predicate LowerName(s: string) {
    forall i :: 0 <= i < |s| ==> !('A' <= s[i] <= 'Z')
  }

  function CondKind(pipeline: string): string { PIPELINE_RUN + Title(pipeline) }

  function RunName(meteor: string, pipeline: string): string { meteor + "-" + pipeline }

  lemma {:induction false} LowerUndoesTitle(s: string, prev: char)
    requires LowerName(s)
    ensures Lower(TitleAfter(s, prev)) == s
  {
    if s != [] {
      LowerUndoesTitle(s[1..], s[0]);
      assert TitleAfter(s, prev)[1..] == TitleAfter(s[1..], s[0]);
      assert s == [s[0]] + s[1..];
    }
  }

  /** The type is `PipelineRun` and the name, letter by letter: a letter at the start or after a separator is
      in upper case, every other character as it is. */
  lemma CondKindSpelling(n: string, i: nat)
    requires i < |n|
    ensures var kind := CondKind(n);
      && |kind| == 11 + |n| && kind[..11] == "PipelineRun"
      && kind[11 + i] ==
           if (i == 0 || IsSeparator(n[i - 1])) && 'a' <= n[i] <= 'z' then n[i] - 'a' + 'A' else n[i]
  {
    TitleSpelling(n, ' ', i);
    assert CondKind(n)[11..] == Title(n);
  }

  lemma {:induction false} TitleSpelling(s: string, prev: char, i: nat)
    requires i < |s|
    ensures TitleAfter(s, prev)[i] == if IsSeparator(if i == 0 then prev else s[i - 1]) then ToUpper(s[i]) else s[i]
  {
    if i > 0 { TitleSpelling(s[1..], s[0], i - 1); }
  }

  /** Lower-case pipelines never share a condition type. */
  lemma CondKindInjective(a: string, b: string)
    requires LowerName(a) && LowerName(b) && CondKind(a) == CondKind(b)
    ensures a == b
  {
    assert Title(a) == CondKind(a)[|PIPELINE_RUN|..] && Title(b) == CondKind(b)[|PIPELINE_RUN|..];
    LowerUndoesTitle(a, ' ');
    LowerUndoesTitle(b, ' ');
  }

  /** Pipelines of one Meteor never share a run. */
  lemma RunNameInjective(meteor: string, a: string, b: string)
    requires RunName(meteor, a) == RunName(meteor, b)
    ensures a == b
  {
    assert a == RunName(meteor, a)[|meteor| + 1..];
    assert b == RunName(meteor, b)[|meteor| + 1..];
  }

  // ---------------------------------------------------------------- lists of names

  /** appendUnique (controllers/meteor/pipelinerun_reconciler.go). */
  function AppendUnique(xs: seq<string>, x: string): seq<string> {
    if x in xs then xs else xs + [x]
  }

  /** remove: drop the first occurrence. */
  function Remove(xs: seq<string>, x: string): seq<string> {
    if xs == [] then [] else if xs[0] == x then xs[1..] else [xs[0]] + Remove(xs[1..], x)
  }

  ghost predicate NoDup<T(!new)>(xs: seq<T>) {
    forall i, j :: 0 <= i < j < |xs| ==> xs[i] != xs[j]
  }

  /** On a duplicate-free list, remove takes out exactly the element. */
  lemma {:induction false} RemoveMeaning(xs: seq<string>, x: string)
    requires NoDup(xs)
    ensures NoDup(Remove(xs, x))
    ensures forall y :: y in Remove(xs, x) <==> y in xs && y != x
  {
    if xs != [] {
      assert xs == [xs[0]] + xs[1..];
      if xs[0] == x {
        assert x !in xs[1..];
      } else {
        RemoveMeaning(xs[1..], x);
        var tail := Remove(xs[1..], x);
        forall j | 0 <= j < |tail| ensures tail[j] != xs[0] { assert tail[j] in tail; }
      }
    }
  }

  lemma {:induction false} RemoveAbsent(xs: seq<string>, x: string)
    requires x !in xs
    ensures Remove(xs, x) == xs
  {
    if xs != [] {
      RemoveAbsent(xs[1..], x);
    }
  }
}
