/** The conditions of a CustomRuntimeEnvironment as a fold of what was observed, what each condition
    says about that history, and the simple machine that the phase refines. */
module CreHistory {
  import opened Kube
  import opened CreApi
  import opened CreCluster
  import opened CrePass

  /** What one observation makes of the conditions. */
  function After(cs: seq<Condition>, o: Observed): seq<Condition> {
    match o
    case CreateTried(ok) => AfterCreate(cs, ok)
    case FetchFailed => AfterFetchError(cs)
    case Seen(Won, p) => AfterWon(cs, p)
    case Seen(Lost, p) => AfterLost(cs, p)
    case Seen(Unfinished, _) => cs
  }

  function Last<T>(h: seq<T>): T
    requires h != []
  {
    h[|h| - 1]
  }

  function Init<T>(h: seq<T>): seq<T>
    requires h != []
  {
    h[..|h| - 1]
  }

  /** The conditions after a whole history, oldest observation first. */
  function Fold(h: seq<Observed>): seq<Condition> {
    if h == [] then [] else After(Fold(Init(h)), Last(h))
  }

  // ---------------------------------------------------------------- reading a history

  predicate Terminal(o: Observed) { o.Seen? && o.outcome != Unfinished }

  /** A create attempt is newer than every terminal observation. */
  predicate CreatePending(h: seq<Observed>) {
    exists i :: 0 <= i < |h| && h[i].CreateTried? && forall j :: i < j < |h| ==> !Terminal(h[j])
  }

  predicate EverTerminal(h: seq<Observed>) {
    exists o :: o in h && Terminal(o)
  }

  /** The last outcome seen for a pipeline. */
  function LastOutcome(h: seq<Observed>, pipeline: string): Option<RunOutcome> {
    if h == [] then None
    else if Terminal(Last(h)) && Last(h).pipeline == pipeline then Some(Last(h).outcome)
    else LastOutcome(Init(h), pipeline)
  }

  /** A condition as True, when the history calls for it. */
  function TrueIf(b: bool, kind: string, reason: string): Option<Condition> {
    if b then Some(Condition(kind, CondTrue, reason)) else None
  }

  /** A condition that reports the last outcome of a pipeline. */
  function Verdict(outcome: Option<RunOutcome>, kind: string, won: string, lost: string): Option<Condition> {
    match outcome
    case None => None
    case Some(o) => if o == Won then Some(Condition(kind, CondTrue, won)) else Some(Condition(kind, CondFalse, lost))
  }

  /** What the list must read as, type by type. */
  function Reading(h: seq<Observed>, kind: string): Option<Condition> {
    if kind == RUN_CREATED then TrueIf(CreatePending(h), kind, "PipelineRunCreated")
    else if kind == RUN_COMPLETED then TrueIf(EverTerminal(h), kind, "PipelineRunCompleted")
    else if kind == IMPORT_READY then Verdict(LastOutcome(h, "import"), kind, "ImageImportReady", "ImageImportNotReady")
    else if kind == PACKAGES_BUILT then
      Verdict(LastOutcome(h, "package-list"), kind, "PackageListBuildCompleted", "PackageListBuildCompleted")
    else if kind == RUN_CREATE_ERROR then TrueIf(CreateTried(false) in h, kind, "PipelineRunCreateFailed")
    else if kind == GENERIC_ERROR then TrueIf(FetchFailed in h, kind, "PipelineRunGenericError")
    else if kind == BUILD_ERROR then TrueIf(Seen(Lost, "gitrepo") in h, kind, "ErrorBuildingImage")
    else None
  }

  // ---------------------------------------------------------------- the fold reads as its history

  lemma KindsDiffer()
    ensures RUN_CREATED != RUN_COMPLETED && RUN_CREATED != IMPORT_READY && RUN_CREATED != PACKAGES_BUILT
    ensures RUN_CREATED != RUN_CREATE_ERROR && RUN_CREATED != GENERIC_ERROR && RUN_CREATED != BUILD_ERROR
    ensures RUN_COMPLETED != IMPORT_READY && RUN_COMPLETED != PACKAGES_BUILT && RUN_COMPLETED != RUN_CREATE_ERROR
    ensures RUN_COMPLETED != GENERIC_ERROR && RUN_COMPLETED != BUILD_ERROR
    ensures IMPORT_READY != PACKAGES_BUILT && IMPORT_READY != RUN_CREATE_ERROR && IMPORT_READY != GENERIC_ERROR
    ensures IMPORT_READY != BUILD_ERROR && PACKAGES_BUILT != RUN_CREATE_ERROR && PACKAGES_BUILT != GENERIC_ERROR
    ensures PACKAGES_BUILT != BUILD_ERROR && RUN_CREATE_ERROR != GENERIC_ERROR && RUN_CREATE_ERROR != BUILD_ERROR
    ensures GENERIC_ERROR != BUILD_ERROR
    ensures IMPORT_INVALID !in {RUN_CREATED, RUN_COMPLETED, IMPORT_READY, PACKAGES_BUILT}
    ensures IMPORT_INVALID !in {RUN_CREATE_ERROR, GENERIC_ERROR, BUILD_ERROR}
  {
    assert |RUN_CREATED| == 18 && |RUN_CREATE_ERROR| == 22 && |RUN_COMPLETED| == 20 && |IMPORT_READY| == 16;
    assert |IMPORT_INVALID| == 18 && |PACKAGES_BUILT| == 25 && |BUILD_ERROR| == 18 && |GENERIC_ERROR| == 20;
    assert RUN_CREATED[0] == 'P' && IMPORT_INVALID[0] == 'I' && BUILD_ERROR[0] == 'E';
    assert RUN_COMPLETED[0] == 'P' && GENERIC_ERROR[0] == 'G';
  }

  lemma {:induction false} FoldIsUnique(h: seq<Observed>)
    ensures UniqueKinds(Fold(h))
  {
    if h != [] {
      FoldIsUnique(Init(h));
      AfterIsUnique(Fold(Init(h)), Last(h));
    }
  }

  lemma AfterIsUnique(cs: seq<Condition>, o: Observed)
    requires UniqueKinds(cs)
    ensures UniqueKinds(After(cs, o))
  {
    hide UniqueKinds, SetCondition, RemoveCondition, RUN_CREATED, RUN_CREATE_ERROR, RUN_COMPLETED, IMPORT_READY;
    hide PACKAGES_BUILT, BUILD_ERROR, GENERIC_ERROR;
    forall xs: seq<Condition>, c | UniqueKinds(xs) ensures UniqueKinds(SetCondition(xs, c)) { SetKeepsUnique(xs, c); }
    forall xs: seq<Condition>, k | UniqueKinds(xs) ensures UniqueKinds(RemoveCondition(xs, k)) { RemoveKeepsUnique(xs, k); }
  }

  /** How one observation changes what the list reads as. */
  function ReadingAfter(cur: Option<Condition>, o: Observed, kind: string): Option<Condition> {
    match o
    case CreateTried(ok) =>
      if kind == RUN_CREATED then TrueIf(true, kind, "PipelineRunCreated")
      else if !ok && kind == RUN_CREATE_ERROR then TrueIf(true, kind, "PipelineRunCreateFailed") else cur
    case FetchFailed => if kind == GENERIC_ERROR then TrueIf(true, kind, "PipelineRunGenericError") else cur
    case Seen(Unfinished, _) => cur
    case Seen(outcome, p) =>
      if kind == RUN_CREATED then None
      else if kind == RUN_COMPLETED then TrueIf(true, kind, "PipelineRunCompleted")
      else if kind == IMPORT_READY && p == "import" then Verdict(Some(outcome), kind, "ImageImportReady", "ImageImportNotReady")
      else if kind == PACKAGES_BUILT && p == "package-list" then
        Verdict(Some(outcome), kind, "PackageListBuildCompleted", "PackageListBuildCompleted")
      else if kind == BUILD_ERROR && p == "gitrepo" && outcome == Lost then TrueIf(true, kind, "ErrorBuildingImage")
      else cur
  }

  lemma {:induction false} AfterTerminalReads(cs: seq<Condition>, kind: string)
    ensures Lookup(AfterTerminal(cs), kind) ==
            if kind == RUN_CREATED then None
            else if kind == RUN_COMPLETED then TrueIf(true, kind, "PipelineRunCompleted") else Lookup(cs, kind)
  {
    var c := Condition(RUN_COMPLETED, CondTrue, "PipelineRunCompleted");
    LookupAfterSet(cs, c, kind);
    LookupAfterRemove(SetCondition(cs, c), RUN_CREATED, kind);
  }

  lemma {:induction false} AfterCreateReads(cs: seq<Condition>, ok: bool, kind: string)
    ensures Lookup(AfterCreate(cs, ok), kind) == ReadingAfter(Lookup(cs, kind), CreateTried(ok), kind)
  {
    hide SetCondition, Lookup, RUN_CREATED, RUN_CREATE_ERROR;
    KindsDiffer();
    var error := Condition(RUN_CREATE_ERROR, CondTrue, "PipelineRunCreateFailed");
    LookupAfterSet(cs, error, kind);
    LookupAfterSet(if ok then cs else SetCondition(cs, error), Condition(RUN_CREATED, CondTrue, "PipelineRunCreated"), kind);
  }

  lemma {:induction false} AfterWonReads(cs: seq<Condition>, p: string, kind: string)
    ensures Lookup(AfterWon(cs, p), kind) == ReadingAfter(Lookup(cs, kind), Seen(Won, p), kind)
  {
    hide SetCondition, Lookup, AfterTerminal, RUN_CREATED, RUN_COMPLETED, IMPORT_READY, PACKAGES_BUILT, BUILD_ERROR;
    KindsDiffer();
    AfterTerminalReads(cs, kind);
    var cs1 := AfterTerminal(cs);
    LookupAfterSet(cs1, Condition(IMPORT_READY, CondTrue, "ImageImportReady"), kind);
    LookupAfterSet(cs1, Condition(PACKAGES_BUILT, CondTrue, "PackageListBuildCompleted"), kind);
  }

  lemma {:induction false} AfterLostReads(cs: seq<Condition>, p: string, kind: string)
    ensures Lookup(AfterLost(cs, p), kind) == ReadingAfter(Lookup(cs, kind), Seen(Lost, p), kind)
  {
    hide SetCondition, Lookup, AfterTerminal, RUN_CREATED, RUN_COMPLETED, IMPORT_READY, PACKAGES_BUILT, BUILD_ERROR;
    KindsDiffer();
    AfterTerminalReads(cs, kind);
    var cs1 := AfterTerminal(cs);
    LookupAfterSet(cs1, Condition(IMPORT_READY, CondFalse, "ImageImportNotReady"), kind);
    LookupAfterSet(cs1, Condition(BUILD_ERROR, CondTrue, "ErrorBuildingImage"), kind);
    LookupAfterSet(cs1, Condition(PACKAGES_BUILT, CondFalse, "PackageListBuildCompleted"), kind);
  }

  lemma {:induction false} AfterReads(cs: seq<Condition>, o: Observed, kind: string)
    ensures Lookup(After(cs, o), kind) == ReadingAfter(Lookup(cs, kind), o, kind)
  {
    hide Lookup, AfterCreate, AfterWon, AfterLost, ReadingAfter, SetCondition;
    match o
    case CreateTried(ok) => AfterCreateReads(cs, ok, kind);
    case Seen(Won, p) => AfterWonReads(cs, p, kind);
    case Seen(Lost, p) => AfterLostReads(cs, p, kind);
    case Seen(Unfinished, p) => UnfinishedReads(Lookup(cs, kind), p, kind);
    case FetchFailed => AfterFetchReads(cs, kind);
  }

  lemma {:induction false} AfterFetchReads(cs: seq<Condition>, kind: string)
    ensures Lookup(AfterFetchError(cs), kind) == ReadingAfter(Lookup(cs, kind), FetchFailed, kind)
  {
    hide SetCondition, Lookup, GENERIC_ERROR;
    LookupAfterSet(cs, Condition(GENERIC_ERROR, CondTrue, "PipelineRunGenericError"), kind);
  }

  lemma UnfinishedReads(cur: Option<Condition>, p: string, kind: string)
    ensures ReadingAfter(cur, Seen(Unfinished, p), kind) == cur
  {
  }

  lemma PendingStep(h: seq<Observed>)
    requires h != []
    ensures CreatePending(h) <==> Last(h).CreateTried? || (CreatePending(Init(h)) && !Terminal(Last(h)))
  {
    var t := Init(h);
    if CreatePending(h) {
      var i :| 0 <= i < |h| && h[i].CreateTried? && forall j :: i < j < |h| ==> !Terminal(h[j]);
      if i < |t| {
        assert t[i] == h[i] && forall j :: i < j < |t| ==> t[j] == h[j];
        assert !Terminal(h[|h| - 1]);
      }
    }
    if Last(h).CreateTried? {
      assert h[|h| - 1].CreateTried?;
    }
    if CreatePending(t) && !Terminal(Last(h)) {
      var i :| 0 <= i < |t| && t[i].CreateTried? && forall j :: i < j < |t| ==> !Terminal(t[j]);
      assert h[i].CreateTried?;
      forall j | i < j < |h| ensures !Terminal(h[j]) { if j < |t| { assert t[j] == h[j]; } }
    }
  }

  lemma MembersStep(h: seq<Observed>, o: Observed)
    requires h != []
    ensures o in h <==> o in Init(h) || o == Last(h)
    ensures EverTerminal(h) <==> EverTerminal(Init(h)) || Terminal(Last(h))
  {
    assert h == Init(h) + [Last(h)];
  }

  lemma ReadingStep(h: seq<Observed>, kind: string)
    requires h != []
    ensures Reading(h, kind) == ReadingAfter(Reading(Init(h), kind), Last(h), kind)
  {
    hide CreatePending, EverTerminal, Init, Last;
    hide RUN_CREATED, RUN_CREATE_ERROR, RUN_COMPLETED, IMPORT_READY, PACKAGES_BUILT, BUILD_ERROR, GENERIC_ERROR;
    KindsDiffer();
    PendingStep(h);
    MembersStep(h, CreateTried(false));
    MembersStep(h, FetchFailed);
    MembersStep(h, Seen(Lost, "gitrepo"));
  }

  /** The conditions say exactly what was observed: no type is repeated, and each reads as its part of
      the history. */
  lemma {:induction false} FoldReadsAsHistory(h: seq<Observed>, kind: string)
    ensures UniqueKinds(Fold(h)) && Lookup(Fold(h), kind) == Reading(h, kind)
  {
    hide After, Reading, ReadingAfter;
    FoldIsUnique(h);
    if h == [] {
      NothingRead(kind);
    } else {
      FoldReadsAsHistory(Init(h), kind);
      AfterReads(Fold(Init(h)), Last(h), kind);
      ReadingStep(h, kind);
    }
  }

  lemma NothingRead(kind: string)
    ensures Reading([], kind) == None
  {
  }

  // ---------------------------------------------------------------- the phase of a history

  /** Which of the two readiness conditions is True is decided by the last outcome of its pipeline. */
  predicate LastWon(h: seq<Observed>, pipeline: string) {
    LastOutcome(h, pipeline) == Some(Won)
  }

  lemma {:induction false} PhaseOfHistory(h: seq<Observed>)
    ensures PhaseOf(Fold(h)) ==
            if CreateTried(false) in h then Failed
            else if CreatePending(h) then Running
            else if !EverTerminal(h) then Pending
            else if LastWon(h, "import") || LastWon(h, "package-list") then Succeeded
            else Failed
  {
    hide Fold, CreatePending, EverTerminal, LastOutcome, UniqueKinds, Shows, Lookup;
    hide RUN_CREATED, RUN_CREATE_ERROR, RUN_COMPLETED, IMPORT_READY, IMPORT_INVALID, PACKAGES_BUILT, BUILD_ERROR, GENERIC_ERROR;
    KindsDiffer();
    var cs := Fold(h);
    forall k | k in {RUN_CREATE_ERROR, IMPORT_INVALID, RUN_CREATED, RUN_COMPLETED, IMPORT_READY, PACKAGES_BUILT}
      ensures Shows(cs, k) <==> Reading(h, k).Some? && Reading(h, k).value.status == CondTrue
    {
      FoldReadsAsHistory(h, k);
      ShowsIsLookup(cs, k);
    }
  }

  /** A create error that was once stored makes every later phase Failed. */
  lemma {:induction false} CreateErrorIsForever(h: seq<Observed>, more: seq<Observed>)
    requires CreateTried(false) in h
    ensures PhaseOf(Fold(h + more)) == Failed
  {
    PhaseOfHistory(h + more);
  }

  // ---------------------------------------------------------------- the outcome machine

  /** The build as a user thinks of it: nothing yet, a run under way, or the outcome of the last run. */
  datatype Build = Idle | Waiting | Done(outcome: RunOutcome, pipeline: string)

  function Machine(h: seq<Observed>): Build {
    if h == [] then Idle
    else if Last(h).CreateTried? then Waiting
    else if Terminal(Last(h)) then Done(Last(h).outcome, Last(h).pipeline)
    else Machine(Init(h))
  }

  function MachinePhase(b: Build): Phase {
    match b
    case Idle => Pending
    case Waiting => Running
    case Done(outcome, _) => if outcome == Won then Succeeded else Failed
  }

  lemma {:induction false} MachineMeaning(h: seq<Observed>)
    ensures Machine(h).Waiting? <==> CreatePending(h)
    ensures Machine(h).Idle? <==> !CreatePending(h) && !EverTerminal(h)
    ensures Machine(h).Done? ==> LastOutcome(h, Machine(h).pipeline) == Some(Machine(h).outcome)
    ensures Machine(h).Done? ==> exists o :: o in h && Terminal(o) && o.pipeline == Machine(h).pipeline
  {
    hide CreatePending, EverTerminal;
    if h == [] {
      assert !CreatePending(h) && !EverTerminal(h) by { NothingPending(); }
    } else {
      MachineMeaning(Init(h));
      PendingStep(h);
      MembersStep(h, Last(h));
      if Machine(h).Done? && !Terminal(Last(h)) {
        var o :| o in Init(h) && Terminal(o) && o.pipeline == Machine(h).pipeline;
        MembersStep(h, o);
      }
    }
  }

  lemma NothingPending()
    ensures !CreatePending([]) && !EverTerminal([])
  {
  }

  /** A pipeline that the phase takes notice of. */
  predicate HasReadiness(pipeline: string) {
    pipeline == "import" || pipeline == "package-list"
  }

  /** A success of another build type is still on the list. */
  predicate RemembersOther(h: seq<Observed>, pipeline: string) {
    (pipeline != "import" && LastWon(h, "import")) || (pipeline != "package-list" && LastWon(h, "package-list"))
  }

  /** Without a create error, the phase is that of the machine exactly when no success of another build
      type lingers over a failure, and a success is of a build type that has a readiness condition or is
      covered by one that lingers. */
  lemma {:induction false} PhaseAgreesIff(h: seq<Observed>)
    requires CreateTried(false) !in h
    ensures PhaseOf(Fold(h)) == MachinePhase(Machine(h))
            <==> (Machine(h).Done? ==>
                    (Machine(h).outcome == Won && HasReadiness(Machine(h).pipeline)) ||
                    (Machine(h).outcome == Won <==> RemembersOther(h, Machine(h).pipeline)))
  {
    hide Fold, CreatePending, EverTerminal, LastOutcome, PhaseOf;
    PhaseOfHistory(h);
    MachineMeaning(h);
  }

  lemma {:induction false} UnseenHasNoOutcome(h: seq<Observed>, pipeline: string)
    requires forall o :: o in h && Terminal(o) ==> o.pipeline != pipeline
    ensures LastOutcome(h, pipeline) == None
  {
    if h != [] {
      forall o | o in Init(h) && Terminal(o) ensures o.pipeline != pipeline { MembersStep(h, o); }
      MembersStep(h, Last(h));
      UnseenHasNoOutcome(Init(h), pipeline);
    }
  }

  /** With one build type that has a readiness condition, and no create error, the phase is that of the
      machine: Succeeded or Failed after a terminal observation, as the run ended, and Running exactly
      while a create is the latest create-or-terminal observation. */
  lemma {:induction false} OneBuildTypeRefinesMachine(h: seq<Observed>, pipeline: string)
    requires CreateTried(false) !in h && HasReadiness(pipeline)
    requires forall o :: o in h && Terminal(o) ==> o.pipeline == pipeline
    ensures PhaseOf(Fold(h)) == MachinePhase(Machine(h))
    ensures PhaseOf(Fold(h)) == Running <==> CreatePending(h)
  {
    hide Fold, CreatePending, EverTerminal, LastOutcome, PhaseOf;
    PhaseAgreesIff(h);
    MachineMeaning(h);
    UnseenHasNoOutcome(h, if pipeline == "import" then "package-list" else "import");
  }

  /** A build from a git repository that succeeds is reported as Failed. */
  lemma GitSuccessShowsFailed()
    ensures var h := [CreateTried(true), Seen(Won, "gitrepo")];
      MachinePhase(Machine(h)) == Succeeded && PhaseOf(Fold(h)) == Failed
  {
    var h := [CreateTried(true), Seen(Won, "gitrepo")];
    PhaseAgreesIff(h);
    UnseenHasNoOutcome(h, "import");
    UnseenHasNoOutcome(h, "package-list");
    PhaseOfHistory(h);
    MachineMeaning(h);
  }

  /** A failed package build after an import that worked is reported as Succeeded. */
  lemma FailureHidesBehindOtherBuildType()
    ensures var h := [CreateTried(true), Seen(Won, "import"), CreateTried(true), Seen(Lost, "package-list")];
      MachinePhase(Machine(h)) == Failed && PhaseOf(Fold(h)) == Succeeded
  {
    hide Fold, PhaseOf, CreatePending, EverTerminal;
    var h := [CreateTried(true), Seen(Won, "import"), CreateTried(true), Seen(Lost, "package-list")];
    assert Init(h) == h[..3] && Init(h[..3]) == h[..2];
    assert LastOutcome(h[..2], "import") == LastOutcome(h[..3], "import") == LastOutcome(h, "import");
    PhaseOfHistory(h);
    MachineMeaning(h);
  }
}
