/** What a history of run reads says: which runs were ever found won or lost, where each was found last,
    and when the stage lists that grow out of such a history partition the runs. */
module MeteorReads {
  import opened Kube
  import opened MeteorApi
  import opened Cluster
  import opened MeteorPass
  import opened MeteorStatusLemmas

  // ---------------------------------------------------------------- reading a history

  /** The read found the run `x` in that place. */
  predicate Finds(r: RunRead, x: string, place: Place) {
    r.name == x && r.found.Some? && PlaceOf(r.found.value) == place
  }

  ghost predicate Ever(h: seq<RunRead>, x: string, place: Place) {
    exists r :: r in h && Finds(r, x, place)
  }

  /** Where the run was found last. */
  function LastPlace(h: seq<RunRead>, x: string): Option<Place> {
    if h == [] then None
    else
      var r := h[|h| - 1];
      if r.name == x && r.found.Some? then Some(PlaceOf(r.found.value)) else LastPlace(h[..|h| - 1], x)
  }

  lemma {:induction false} LastPlaceAppend(h: seq<RunRead>, g: seq<RunRead>, x: string)
    ensures LastPlace(h + g, x) == if LastPlace(g, x).Some? then LastPlace(g, x) else LastPlace(h, x)
    decreases |g|
  {
    if g == [] {
      assert h + g == h;
    } else {
      assert (h + g)[..|h + g| - 1] == h + g[..|g| - 1];
      LastPlaceAppend(h, g[..|g| - 1], x);
    }
  }

  /** The last place is that of the latest read that found the run. */
  lemma {:induction false} LastPlaceIsLatest(h: seq<RunRead>, x: string) returns (i: nat)
    ensures LastPlace(h, x).Some? ==> i < |h| && Finds(h[i], x, LastPlace(h, x).value)
    ensures forall j :: 0 <= j < |h| && h[j].name == x && h[j].found.Some? ==> LastPlace(h, x).Some? && j <= i
  {
    i := 0;
    if h != [] {
      var r := h[|h| - 1];
      if r.name == x && r.found.Some? {
        i := |h| - 1;
      } else {
        i := LastPlaceIsLatest(h[..|h| - 1], x);
        assert forall j :: 0 <= j < |h| - 1 ==> h[..|h| - 1][j] == h[j];
      }
    }
  }

  // ---------------------------------------------------------------- stage lists over a history

  /** The lists as the history has them: succeeded holds what was ever found won, failed what was ever
      found lost, running what was at work when found last. */
  ghost predicate Fits(stage: Stage, h: seq<RunRead>) {
    && (forall x :: x in stage.running <==> LastPlace(h, x) == Some(AtWork))
    && (forall x :: x in stage.succeeded <==> Ever(h, x, Won))
    && (forall x :: x in stage.failed <==> Ever(h, x, Lost))
  }

  /** What one history reads as for a run, after some more reads. */
  lemma {:induction false} ReadsAppend(h: seq<RunRead>, g: seq<RunRead>, x: string)
    ensures LastPlace(h + g, x) == if LastPlace(g, x).Some? then LastPlace(g, x) else LastPlace(h, x)
    ensures Ever(h + g, x, Won) <==> Ever(h, x, Won) || Ever(g, x, Won)
    ensures Ever(h + g, x, Lost) <==> Ever(h, x, Lost) || Ever(g, x, Lost)
  {
    LastPlaceAppend(h, g, x);
  }

  lemma {:induction false} OneRead(r: RunRead, x: string)
    ensures LastPlace([r], x) == if r.name == x && r.found.Some? then Some(PlaceOf(r.found.value)) else None
    ensures Ever([r], x, Won) <==> Finds(r, x, Won)
    ensures Ever([r], x, Lost) <==> Finds(r, x, Lost)
  {
    assert r in [r];
    assert [r][..0] == [];
  }

  /** Placing what one more read found keeps the lists fitting. */
  lemma PlacingFits(stage: Stage, h: seq<RunRead>, r: RunRead)
    requires StageSound(stage) && Fits(stage, h) && r.found.Some?
    ensures Fits(PlaceRun(stage, r.name, PlaceOf(r.found.value)), h + [r])
  {
    hide Ever, LastPlace;
    RemoveMeaning(stage.running, r.name);
    forall x
      ensures LastPlace(h + [r], x) == if r.name == x then Some(PlaceOf(r.found.value)) else LastPlace(h, x)
      ensures Ever(h + [r], x, Won) <==> Ever(h, x, Won) || Finds(r, x, Won)
      ensures Ever(h + [r], x, Lost) <==> Ever(h, x, Lost) || Finds(r, x, Lost)
    {
      ReadsAppend(h, [r], x);
      OneRead(r, x);
    }
  }

  /** Lists that fit one history fit another that reads the same. */
  lemma {:induction false} FitsAlike(stage: Stage, h: seq<RunRead>, h': seq<RunRead>)
    requires Fits(stage, h)
    requires forall x :: LastPlace(h', x) == LastPlace(h, x)
    requires forall x :: Ever(h', x, Won) <==> Ever(h, x, Won)
    requires forall x :: Ever(h', x, Lost) <==> Ever(h, x, Lost)
    ensures Fits(stage, h')
  {
    hide Ever, LastPlace;
  }

  /** A read that found nothing leaves the lists fitting. */
  lemma NothingFoundFits(stage: Stage, h: seq<RunRead>, r: RunRead)
    requires Fits(stage, h) && r.found.None?
    ensures Fits(stage, h + [r])
  {
    hide Ever, LastPlace, Fits;
    forall x
      ensures LastPlace(h + [r], x) == LastPlace(h, x)
      ensures Ever(h + [r], x, Won) <==> Ever(h, x, Won)
      ensures Ever(h + [r], x, Lost) <==> Ever(h, x, Lost)
    {
      ReadsAppend(h, [r], x);
      OneRead(r, x);
    }
    FitsAlike(stage, h, h + [r]);
  }

  /** Reads that are repeated at the end change nothing. */
  lemma FitsTwice(stage: Stage, h: seq<RunRead>, g: seq<RunRead>)
    requires Fits(stage, h + g)
    ensures Fits(stage, h + g + g)
  {
    hide Ever, LastPlace, Fits;
    forall x
      ensures LastPlace(h + g + g, x) == LastPlace(h + g, x)
      ensures Ever(h + g + g, x, Won) <==> Ever(h + g, x, Won)
      ensures Ever(h + g + g, x, Lost) <==> Ever(h + g, x, Lost)
    {
      ReadsAppend(h, g, x);
      ReadsAppend(h + g, g, x);
    }
    FitsAlike(stage, h + g, h + g + g);
  }

  lemma EmptyFits()
    ensures Fits(EMPTY_STATUS.stage, [])
  {
  }

  // ---------------------------------------------------------------- when the lists partition the runs

  predicate Disjoint(stage: Stage) {
    && (forall x :: x in stage.running ==> x !in stage.succeeded && x !in stage.failed)
    && (forall x :: x in stage.succeeded ==> x !in stage.failed)
  }

  /** Each run that was found is on one list only, that of its latest observation. */
  ghost predicate Partition(stage: Stage, h: seq<RunRead>) {
    && (forall x :: x in stage.running <==> LastPlace(h, x) == Some(AtWork))
    && (forall x :: x in stage.succeeded <==> LastPlace(h, x) == Some(Won))
    && (forall x :: x in stage.failed <==> LastPlace(h, x) == Some(Lost))
  }

  predicate Completion(r: RunRead) { r.found.Some? && PlaceOf(r.found.value) != AtWork }

  /** Every completion that was observed is what the run was found as last. */
  ghost predicate Agreed(h: seq<RunRead>) {
    forall i :: 0 <= i < |h| && Completion(h[i]) ==> LastPlace(h, h[i].name) == Some(PlaceOf(h[i].found.value))
  }

  /** No observation contradicts an earlier completion. */
  ghost predicate Uncontradicted(h: seq<RunRead>) {
    forall i, j :: 0 <= i < j < |h| && Completion(h[i]) && h[j].found.Some? && h[j].name == h[i].name ==>
      PlaceOf(h[j].found.value) == PlaceOf(h[i].found.value)
  }

  lemma {:induction false} AgreedEver(h: seq<RunRead>, x: string, place: Place)
    requires place != AtWork
    ensures Agreed(h) && Ever(h, x, place) ==> LastPlace(h, x) == Some(place)
    ensures LastPlace(h, x) == Some(place) ==> Ever(h, x, place)
  {
    if Agreed(h) && Ever(h, x, place) {
      var r :| r in h && Finds(r, x, place);
      var i :| 0 <= i < |h| && h[i] == r;
      assert Completion(h[i]);
    }
    if LastPlace(h, x) == Some(place) {
      var i := LastPlaceIsLatest(h, x);
      assert h[i] in h;
    }
  }

  /** Lists that fit partition the runs, by their latest observation, exactly when every completion
      observed is what its run was found as last; and merely being disjoint takes no less. */
  lemma PartitionIffAgreed(stage: Stage, h: seq<RunRead>)
    requires Fits(stage, h)
    ensures Partition(stage, h) <==> Agreed(h)
    ensures Disjoint(stage) <==> Agreed(h)
  {
    hide Ever, LastPlace, Agreed;
    forall x, p | p != AtWork
      ensures Agreed(h) && Ever(h, x, p) ==> LastPlace(h, x) == Some(p)
      ensures LastPlace(h, x) == Some(p) ==> Ever(h, x, p)
    {
      AgreedEver(h, x, p);
    }
    if Partition(stage, h) || Disjoint(stage) {
      assert Agreed(h) by { DisjointAgrees(stage, h); }
    }
  }

  lemma DisjointAgrees(stage: Stage, h: seq<RunRead>)
    requires Fits(stage, h) && (Disjoint(stage) || Partition(stage, h))
    ensures Agreed(h)
  {
    hide LastPlace;
    forall i | 0 <= i < |h| && Completion(h[i])
      ensures LastPlace(h, h[i].name) == Some(PlaceOf(h[i].found.value))
    {
      var x, p := h[i].name, PlaceOf(h[i].found.value);
      assert h[i] in h && Finds(h[i], x, p);
      assert Ever(h, x, p) && (x in stage.succeeded || x in stage.failed);
      var k := LastPlaceIsLatest(h, x);
      var q := LastPlace(h, x).value;
      assert h[k] in h && Finds(h[k], x, q);
      assert Ever(h, x, q);
      assert x in stage.running <==> q == AtWork;
    }
  }

  /** Along a history the lists partition the runs at every point exactly when no observation
      contradicts an earlier completion. */
  lemma AlwaysAgreedIff(h: seq<RunRead>)
    ensures (forall n :: 0 <= n <= |h| ==> Agreed(h[..n])) <==> Uncontradicted(h)
  {
    if Uncontradicted(h) {
      forall n | 0 <= n <= |h| ensures Agreed(h[..n]) { PrefixAgrees(h, n); }
    }
    if forall n :: 0 <= n <= |h| ==> Agreed(h[..n]) {
      forall i, j | 0 <= i < j < |h| && Completion(h[i]) && h[j].found.Some? && h[j].name == h[i].name
        ensures PlaceOf(h[j].found.value) == PlaceOf(h[i].found.value)
      {
        var g := h[..j + 1];
        assert Agreed(g) && g[i] == h[i] && g[j] == h[j];
        assert LastPlace(g, h[j].name) == Some(PlaceOf(h[j].found.value));
      }
    }
  }

  lemma PrefixAgrees(h: seq<RunRead>, n: nat)
    requires Uncontradicted(h) && n <= |h|
    ensures Agreed(h[..n])
  {
    hide LastPlace;
    var g := h[..n];
    forall i | 0 <= i < |g| && Completion(g[i]) ensures LastPlace(g, g[i].name) == Some(PlaceOf(g[i].found.value)) {
      var k := LastPlaceIsLatest(g, g[i].name);
      assert g[i] == h[i] && g[k] == h[k];
    }
  }

  /** A contradiction can be taken back: won, then at work, then won again. The lists are disjoint at the
      end, but they were not on the way. */
  lemma ContradictionMayHeal(x: string, running: Run, won: Run)
    requires PlaceOf(running) == AtWork && PlaceOf(won) == Won
    ensures var h := [RunRead(x, Some(won), 1), RunRead(x, Some(running), 0), RunRead(x, Some(won), 1)];
      Agreed(h) && !Uncontradicted(h) && !Agreed(h[..2])
  {
    var a, b := RunRead(x, Some(won), 1), RunRead(x, Some(running), 0);
    var h := [a, b, a];
    assert LastPlace(h, x) == Some(Won);
    assert h[..2] == [a, b];
    assert LastPlace([a, b], x) == Some(AtWork);
    assert Completion(h[0]) && Completion([a, b][0]);
  }

  // ---------------------------------------------------------------- reads and the log of versions

  /** Reads of one run never go back to an older version, and all find the same run object. */
  ghost predicate InOrder(h: seq<RunRead>) {
    forall i, j :: 0 <= i < j < |h| && h[i].found.Some? && h[j].found.Some? && h[j].name == h[i].name ==>
      h[i].version <= h[j].version && h[i].found.value.uid == h[j].found.value.uid
  }

  /** Every read that found a run found a version on record. */
  ghost predicate OnRecord(w: World, h: seq<RunRead>) {
    forall r :: r in h && r.found.Some? ==>
      r.version < |w.runLog| && w.runLog[r.version] == RunVersion(r.name, r.found.value)
  }

  /** Tekton's promise seen through the log: a completion on record, with its conditions, is that of
      every later version of the run, the stored one included. */
  ghost predicate Permanent(w: World) {
    && (forall i :: 0 <= i < |w.runLog| ==> w.runLog[i].run.uid < w.nextUid)
    && (forall x :: x in w.runs ==>
          var i := LastVersion(w.runLog, x); i < |w.runLog| && w.runLog[i] == RunVersion(x, w.runs[x]))
    && (forall i, j :: 0 <= i < j < |w.runLog| && w.runLog[i].name == w.runLog[j].name
                       && w.runLog[i].run.uid == w.runLog[j].run.uid && w.runLog[i].run.completed ==>
          w.runLog[j].run.completed && w.runLog[j].run.conditions == w.runLog[i].run.conditions)
  }

  /** Reads in order never contradict a completion. */
  lemma InOrderIsUncontradicted(w: World, h: seq<RunRead>)
    requires Permanent(w) && OnRecord(w, h) && InOrder(h)
    ensures Uncontradicted(h)
  {
    hide LastVersion;
    forall i, j | 0 <= i < j < |h| && Completion(h[i]) && h[j].found.Some? && h[j].name == h[i].name
      ensures PlaceOf(h[j].found.value) == PlaceOf(h[i].found.value)
    {
      assert h[i] in h && h[j] in h;
      assert h[i].version <= h[j].version;
    }
  }

  lemma {:induction false} LastVersionAppend(log: seq<RunVersion>, v: RunVersion, x: string)
    ensures LastVersion(log + [v], x) == if v.name == x then |log| else LastVersion(log, x)
  {
    assert (log + [v])[..|log|] == log;
  }

  /** One more version of the stored run keeps the versions of that run permanent. */
  lemma NewVersionPermanent(w: World, x: string, run: Run, i: nat)
    requires Permanent(w) && x in w.runs && run.uid == w.runs[x].uid
    requires w.runs[x].completed ==> run.completed && run.conditions == w.runs[x].conditions
    requires i < |w.runLog| && w.runLog[i].name == x && w.runLog[i].run.uid == run.uid && w.runLog[i].run.completed
    ensures run.completed && run.conditions == w.runLog[i].run.conditions
  {
    hide LastVersion;
    LastIsLatest(w.runLog, x, i);
  }

  lemma SetRunPermanent(w: World, x: string, run: Run)
    requires Permanent(w) && run.uid < w.nextUid
    requires x in w.runs && run.uid == w.runs[x].uid
    requires w.runs[x].completed ==> run.completed && run.conditions == w.runs[x].conditions
    ensures Permanent(SetRun(w, x, run))
  {
    hide LastVersion;
    var w' := SetRun(w, x, run);
    var n := |w.runLog|;
    assert forall i :: 0 <= i < n ==> w'.runLog[i] == w.runLog[i];
    assert w'.runLog[n] == RunVersion(x, run);
    forall i | 0 <= i < n && w.runLog[i].name == x && w.runLog[i].run.uid == run.uid && w.runLog[i].run.completed
      ensures run.completed && run.conditions == w.runLog[i].run.conditions
    {
      NewVersionPermanent(w, x, run, i);
    }
    forall y | y in w'.runs
      ensures var i := LastVersion(w'.runLog, y); i <= n && w'.runLog[i] == RunVersion(y, w'.runs[y])
    {
      LastVersionAppend(w.runLog, RunVersion(x, run), y);
    }
  }

  lemma {:induction false} LastIsLatest(log: seq<RunVersion>, x: string, i: nat)
    requires i < |log| && log[i].name == x
    ensures i <= LastVersion(log, x) < |log| && log[LastVersion(log, x)].name == x
  {
  }

  lemma AddRunPermanent(w: World, x: string, spec: RunSpec)
    requires Permanent(w)
    ensures Permanent(AddRun(w, x, spec))
  {
    hide LastVersion;
    var w' := AddRun(w, x, spec);
    var run := AnyRun(w.nextUid, spec, [], false, []);
    forall y ensures LastVersion(w'.runLog, y) == if y == x then |w.runLog| else LastVersion(w.runLog, y) {
      LastVersionAppend(w.runLog, RunVersion(x, run), y);
    }
  }

  lemma SameRunsPermanent(w: World, w': World)
    requires Permanent(w) && w'.runLog == w.runLog && w.nextUid <= w'.nextUid
    requires forall x :: x in w'.runs ==> x in w.runs && w'.runs[x] == w.runs[x]
    ensures Permanent(w')
  {
    hide LastVersion;
  }

  lemma EventPermanent(w: World, e: Event)
    requires Permanent(w)
    ensures Permanent(Happen(w, e)) && w.runLog <= Happen(w, e).runLog
  {
    hide Permanent;
    match e
    case OthersCreateRun(name, spec) =>
      if name !in w.runs { AddRunPermanent(w, name, spec); }
    case TektonReports(name, conditions, completed, results) =>
      if Happen(w, e) != w { ReportPermanent(w, name, conditions, completed, results); }
    case _ => SameRunsPermanent(w, Happen(w, e));
  }

  lemma ReportPermanent(w: World, name: string, conditions: seq<Condition>, completed: bool, results: seq<ResultValue>)
    requires Permanent(w) && name in w.runs && TektonMayReport(w.runs[name], conditions, completed)
    ensures Permanent(SetRun(w, name, w.runs[name].(conditions := conditions, completed := completed, results := results)))
  {
    hide LastVersion;
    assert w.runLog[LastVersion(w.runLog, name)].run.uid < w.nextUid;
    SetRunPermanent(w, name, w.runs[name].(conditions := conditions, completed := completed, results := results));
  }

  /** Every cause keeps completions permanent and only adds to the log. */
  lemma CausePermanent(cause: Cause, w: World)
    requires Permanent(w) && (cause.OpCreateRun? ==> cause.run !in w.runs)
    ensures Permanent(Apply(cause, w)) && w.runLog <= Apply(cause, w).runLog
  {
    hide Permanent, Happen;
    match cause
    case Env(e) => EventPermanent(w, e);
    case OpCreateRun(name, spec, _) => AddRunPermanent(w, name, spec);
    case _ => SameRunsPermanent(w, Apply(cause, w));
  }

  lemma OnRecordKept(w: World, w': World, h: seq<RunRead>)
    requires OnRecord(w, h) && w.runLog <= w'.runLog
    ensures OnRecord(w', h)
  {
  }

  // ---------------------------------------------------------------- what a history of reads tells

  /** A read that leaves its mark on the condition of its pipeline: it failed, missed the run, or found
      one on which Tekton has set a condition. */
  predicate Telling(r: RunRead) {
    r.found.Some? ==> r.found.value.conditions != []
  }

  predicate Good(r: RunRead) {
    r.found.Some? && SaysSuccess(r.found.value)
  }

  /** The last read of the run that left its mark. */
  function LastTelling(h: seq<RunRead>, x: string): Option<RunRead> {
    if h == [] then None
    else
      var r := h[|h| - 1];
      if r.name == x && Telling(r) then Some(r) else LastTelling(h[..|h| - 1], x)
  }

  predicate FineFor(h: seq<RunRead>, x: string) {
    LastTelling(h, x).Some? ==> Good(LastTelling(h, x).value)
  }

  /** For every run that was read, the last telling read found it successful. */
  ghost predicate Untroubled(h: seq<RunRead>) {
    forall x :: FineFor(h, x)
  }

  lemma FineAppend(h: seq<RunRead>, r: RunRead, x: string)
    ensures FineFor(h + [r], x) <==> if r.name == x && Telling(r) then Good(r) else FineFor(h, x)
  {
    assert (h + [r])[..|h|] == h;
  }

  lemma {:induction false} LastTellingMember(h: seq<RunRead>, x: string)
    ensures var last := LastTelling(h, x); last.Some? ==> last.value in h && last.value.name == x && Telling(last.value)
    ensures LastTelling(h, x).None? ==> forall r :: r in h && r.name == x ==> !Telling(r)
  {
    if h != [] {
      LastTellingMember(h[..|h| - 1], x);
      assert h == h[..|h| - 1] + [h[|h| - 1]];
    }
  }

  /** When no run is read twice: every read found a run that has no condition or says success. */
  lemma UntroubledWithoutRepeats(h: seq<RunRead>)
    requires forall i, j :: 0 <= i < j < |h| ==> h[i].name != h[j].name
    ensures Untroubled(h)
            <==> forall r :: r in h ==> r.found.Some? && (r.found.value.conditions == [] || SaysSuccess(r.found.value))
  {
    hide LastTelling;
    forall x ensures FineFor(h, x) <==> forall r :: r in h && r.name == x && Telling(r) ==> Good(r) {
      LastTellingMember(h, x);
      var last := LastTelling(h, x);
      if last.Some? {
        forall r | r in h && r.name == x ensures r == last.value {
          var i :| 0 <= i < |h| && h[i] == r;
          var j :| 0 <= j < |h| && h[j] == last.value;
        }
      }
    }
    if Untroubled(h) {
      forall r | r in h ensures r.found.Some? && (r.found.value.conditions == [] || SaysSuccess(r.found.value)) {
        assert FineFor(h, r.name);
      }
    }
  }
}
