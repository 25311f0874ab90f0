/** The CustomRuntimeEnvironment resource: phase aggregation
    (api/v1alpha1/customruntimeenvironment_types.go), admission checks
    (api/v1alpha1/customruntimeenvironment_webhook.go) and the parameters of a run. */
module CreApi {
  import opened Kube

  // Condition types (api/v1alpha1/customruntimeenvironment_condition_consts.go).
  const RUN_CREATED := "PipelineRunCreated"
  const RUN_CREATE_ERROR := "ErrorPipelineRunCreate"
  const RUN_COMPLETED := "PipelineRunCompleted"
  const IMPORT_READY := "ImageImportReady"
  const IMPORT_INVALID := "ImageImportInvalid"
  const PACKAGES_BUILT := "PackageListBuildCompleted"
  const BUILD_ERROR := "ErrorBuildingImage"
  const GENERIC_ERROR := "GenericPipelineError"

  /** The admission schema allows these three build types only. */
  datatype BuildType = ImageImport | PackageList | GitRepository

  datatype RuntimeSpec = RuntimeSpec(pythonVersion: string, osName: string, osVersion: string)

  /** An absent package list and an empty one are the same to every reader. */
  datatype CreSpec = CreSpec(
    runtime: RuntimeSpec,
    packages: seq<string>,
    buildType: BuildType,
    fromImage: string,
    baseImage: string,
    repository: string,
    gitRef: string)

  datatype CreResult = CreResult(name: string, runName: string, ready: string)

  datatype CreStatus = CreStatus(
    phase: Phase,
    conditions: seq<Condition>,
    pipelines: seq<CreResult>,
    observedGeneration: nat)

  const EMPTY_CRE_STATUS := CreStatus(NoPhase, [], [], 0)

  // ---------------------------------------------------------------- phase

  /** Some condition of the type has status True. */
  predicate Shows(cs: seq<Condition>, kind: string) {
    exists c :: c in cs && c.kind == kind && c.status == CondTrue
  }

  /** The phase as a table of priorities. */
  function PhaseOf(cs: seq<Condition>): Phase {
    if Shows(cs, RUN_CREATE_ERROR) || Shows(cs, IMPORT_INVALID) then Failed
    else if Shows(cs, RUN_CREATED) then Running
    else if !Shows(cs, RUN_COMPLETED) then Pending
    else if Shows(cs, IMPORT_READY) || Shows(cs, PACKAGES_BUILT) then Succeeded
    else Failed
  }

  lemma ShowsStep(cs: seq<Condition>, i: nat, kind: string)
    requires i < |cs|
    ensures Shows(cs[..i + 1], kind) <==> Shows(cs[..i], kind) || (cs[i].kind == kind && cs[i].status == CondTrue)
    ensures Shows(cs[..i + 1], kind) ==> Shows(cs, kind)
  {
    assert cs[..i + 1] == cs[..i] + [cs[i]];
    if Shows(cs[..i], kind) {
      var c :| c in cs[..i] && c.kind == kind && c.status == CondTrue;
      assert c in cs[..i + 1];
    }
    if cs[i].kind == kind && cs[i].status == CondTrue {
      assert cs[i] in cs[..i + 1];
    }
  }

  /** The phase depends on the set of conditions only: any reordering or repetition leaves it alone. */
  lemma PhaseIgnoresOrder(a: seq<Condition>, b: seq<Condition>)
    requires forall c :: c in a <==> c in b
    ensures PhaseOf(a) == PhaseOf(b)
  {
    forall k ensures Shows(a, k) <==> Shows(b, k) {
      if Shows(a, k) {
        var c :| c in a && c.kind == k && c.status == CondTrue;
        assert c in b;
      }
      if Shows(b, k) {
        var c :| c in b && c.kind == k && c.status == CondTrue;
        assert c in a;
      }
    }
  }

  /** On a list without repeated types, showing a type is reading it as True. */
  lemma {:induction false} ShowsIsLookup(cs: seq<Condition>, kind: string)
    requires UniqueKinds(cs)
    ensures Shows(cs, kind) <==> Lookup(cs, kind).Some? && Lookup(cs, kind).value.status == CondTrue
  {
    LookupMember(cs, kind);
    if Shows(cs, kind) {
      var c :| c in cs && c.kind == kind && c.status == CondTrue;
      var i :| 0 <= i < |cs| && cs[i] == c;
      LookupAt(cs, i);
    }
  }

  // ---------------------------------------------------------------- admission

  const NAME_KEY := "opendatahub.io/notebook-image-name"
  const DESCRIPTION_KEY := "opendatahub.io/notebook-image-desc"
  const CREATOR_KEY := "opendatahub.io/notebook-image-creator"

  datatype FieldError = AnnotationRequired(key: string) | PackagesRequired | BaseOrRuntimeRequired | BaseAndRuntimeExclusive

  predicate IsValidRuntime(r: RuntimeSpec) {
    r.pythonVersion != "" && r.osName != "" && r.osVersion != ""
  }

  method ValidateAnnotation(annotations: Option<map<string, string>>, key: string) returns (error: Option<FieldError>)
    ensures error == if annotations.Some? && key in annotations.value then None else Some(AnnotationRequired(key))
  {
    if annotations.None? {
      return Some(AnnotationRequired(key));
    }
    if key !in annotations.value {
      return Some(AnnotationRequired(key));
    }
    return None;
  }

  /** The rules of a package list, in the order in which a violation is reported. */
  method ValidatePackageList(spec: CreSpec) returns (error: Option<FieldError>)
    ensures error == Some(PackagesRequired) <==> spec.packages == []
    ensures error == Some(BaseAndRuntimeExclusive)
            <==> spec.packages != [] && spec.baseImage != "" && IsValidRuntime(spec.runtime)
    ensures error == Some(BaseOrRuntimeRequired)
            <==> spec.packages != [] && spec.baseImage == "" && !IsValidRuntime(spec.runtime)
    ensures error.Some? ==> !error.value.AnnotationRequired?
  {
    if |spec.packages| == 0 {
      return Some(PackagesRequired);
    }
    if spec.baseImage != "" && IsValidRuntime(spec.runtime) {
      return Some(BaseAndRuntimeExclusive);
    }
    if spec.baseImage == "" && !IsValidRuntime(spec.runtime) {
      return Some(BaseOrRuntimeRequired);
    }
    return None;
  }

  /** What admission promises about a resource. */
  predicate Admissible(annotations: Option<map<string, string>>, spec: CreSpec) {
    && annotations.Some?
    && NAME_KEY in annotations.value && DESCRIPTION_KEY in annotations.value && CREATOR_KEY in annotations.value
    && (spec.buildType.PackageList? ==>
          spec.packages != [] && (spec.baseImage != "" <==> !IsValidRuntime(spec.runtime)))
  }

  /** A resource is admitted exactly when it meets every rule, and each missing annotation is reported
      once, in the order of the checks. */
  method Validate(annotations: Option<map<string, string>>, spec: CreSpec) returns (errors: seq<FieldError>)
    ensures errors == [] <==> Admissible(annotations, spec)
    ensures forall k :: AnnotationRequired(k) in errors
              <==> k in {NAME_KEY, DESCRIPTION_KEY, CREATOR_KEY} && !(annotations.Some? && k in annotations.value)
    ensures |errors| <= 4
  {
    errors := [];
    var error := ValidateAnnotation(annotations, NAME_KEY);
    if error.Some? {
      errors := errors + [error.value];
    }
    error := ValidateAnnotation(annotations, DESCRIPTION_KEY);
    if error.Some? {
      errors := errors + [error.value];
    }
    error := ValidateAnnotation(annotations, CREATOR_KEY);
    if error.Some? {
      errors := errors + [error.value];
    }
    if spec.buildType.PackageList? {
      error := ValidatePackageList(spec);
      if error.Some? {
        errors := errors + [error.value];
      }
    }
  }

  // ---------------------------------------------------------------- parameters

  datatype ParamValue = StringVal(text: string) | ArrayVal(items: seq<string>)

  datatype Param = Param(name: string, value: ParamValue)

  function Annotation(annotations: Option<map<string, string>>, key: string): string {
    if annotations.Some? && key in annotations.value then annotations.value[key] else ""
  }

  /** The parameters of the run, in the order in which they are appended. */
  function Params(annotations: Option<map<string, string>>, spec: CreSpec): seq<Param> {
    [Param("name", StringVal(Annotation(annotations, NAME_KEY))),
     Param("creator", StringVal(Annotation(annotations, CREATOR_KEY))),
     Param("description", StringVal(Annotation(annotations, DESCRIPTION_KEY)))]
    + BuildParams(spec)
  }

  function BuildParams(spec: CreSpec): seq<Param> {
    match spec.buildType
    case ImageImport => [Param("baseImage", StringVal(spec.fromImage))]
    case PackageList =>
      (if spec.baseImage != "" then [Param("baseImage", StringVal(spec.baseImage))]
       else
         [Param("osVersion", StringVal(spec.runtime.osVersion)),
          Param("osName", StringVal(spec.runtime.osName)),
          Param("pythonVersion", StringVal(spec.runtime.pythonVersion))])
      + (if spec.packages != [] then [Param("packages", ArrayVal(spec.packages))] else [])
    case GitRepository => [Param("url", StringVal(spec.repository)), Param("ref", StringVal(spec.gitRef))]
  }

  /** A parameter of that name carries a non-empty string. */
  predicate Gives(ps: seq<Param>, name: string) {
    exists p :: p in ps && p.name == name && p.value.StringVal? && p.value.text != ""
  }

  predicate GivesPackages(ps: seq<Param>) {
    exists p :: p in ps && p.name == "packages" && p.value.ArrayVal? && p.value.items != []
  }

  predicate Names(ps: seq<Param>, name: string) {
    exists p :: p in ps && p.name == name
  }

  predicate UniqueNames(ps: seq<Param>) {
    forall i, j :: 0 <= i < j < |ps| ==> ps[i].name != ps[j].name
  }

  /** A package-list run has all it needs: packages, and either a base image or a whole runtime, never
      a mixture. */
  predicate CompleteForPackages(ps: seq<Param>) {
    && GivesPackages(ps)
    && (Gives(ps, "baseImage") || (Gives(ps, "osVersion") && Gives(ps, "osName") && Gives(ps, "pythonVersion")))
    && !(Names(ps, "baseImage") && (Names(ps, "osVersion") || Names(ps, "osName") || Names(ps, "pythonVersion")))
  }

  /** With unique names, what a list gives under a name is decided at the one place that has it. */
  lemma GivenAt(ps: seq<Param>, i: nat)
    requires UniqueNames(ps) && i < |ps|
    ensures Names(ps, ps[i].name)
    ensures Gives(ps, ps[i].name) <==> ps[i].value.StringVal? && ps[i].value.text != ""
    ensures ps[i].name == "packages" ==> (GivesPackages(ps) <==> ps[i].value.ArrayVal? && ps[i].value.items != [])
  {
    assert ps[i] in ps;
    forall p | p in ps && p.name == ps[i].name ensures p == ps[i] {
      var j :| 0 <= j < |ps| && ps[j] == p;
    }
  }

  lemma NotGiven(ps: seq<Param>, name: string)
    requires forall i :: 0 <= i < |ps| ==> ps[i].name != name
    ensures !Names(ps, name) && !Gives(ps, name)
    ensures name == "packages" ==> !GivesPackages(ps)
  {
  }

  lemma BaseImageParams(annotations: Option<map<string, string>>, spec: CreSpec)
    requires spec.buildType.PackageList? && spec.baseImage != ""
    ensures CompleteForPackages(Params(annotations, spec)) <==> spec.packages != []
  {
    hide Names, Gives, GivesPackages, UniqueNames, Annotation;
    var ps := Params(annotations, spec);
    ParamNamesUnique(annotations, spec);
    GivenAt(ps, 3);
    NotGiven(ps, "osVersion");
    NotGiven(ps, "osName");
    NotGiven(ps, "pythonVersion");
    if spec.packages != [] { GivenAt(ps, 4); } else { NotGiven(ps, "packages"); }
  }

  lemma RuntimeEntries(annotations: Option<map<string, string>>, spec: CreSpec)
    requires spec.buildType.PackageList? && spec.baseImage == ""
    ensures var ps := Params(annotations, spec);
      && |ps| == (if spec.packages != [] then 7 else 6)
      && ps[0].name == "name" && ps[1].name == "creator" && ps[2].name == "description"
      && ps[3] == Param("osVersion", StringVal(spec.runtime.osVersion))
      && ps[4] == Param("osName", StringVal(spec.runtime.osName))
      && ps[5] == Param("pythonVersion", StringVal(spec.runtime.pythonVersion))
      && (spec.packages != [] ==> ps[6] == Param("packages", ArrayVal(spec.packages)))
  {
  }

  lemma RuntimeParams(annotations: Option<map<string, string>>, spec: CreSpec)
    requires spec.buildType.PackageList? && spec.baseImage == ""
    ensures CompleteForPackages(Params(annotations, spec)) <==> spec.packages != [] && IsValidRuntime(spec.runtime)
  {
    hide Names, Gives, GivesPackages, UniqueNames, Annotation, Params;
    var ps := Params(annotations, spec);
    RuntimeEntries(annotations, spec);
    ParamNamesUnique(annotations, spec);
    GivenAt(ps, 3);
    GivenAt(ps, 4);
    GivenAt(ps, 5);
    NotGiven(ps, "baseImage");
    if spec.packages != [] { GivenAt(ps, 6); } else { NotGiven(ps, "packages"); }
  }

  /** Which parameters a package list yields: complete ones exactly when there are packages and a base
      image or a whole runtime. */
  lemma PackageParamsCompleteIff(annotations: Option<map<string, string>>, spec: CreSpec)
    requires spec.buildType.PackageList?
    ensures CompleteForPackages(Params(annotations, spec))
            <==> spec.packages != [] && (spec.baseImage != "" || IsValidRuntime(spec.runtime))
  {
    hide CompleteForPackages, Params;
    if spec.baseImage != "" {
      BaseImageParams(annotations, spec);
    } else {
      RuntimeParams(annotations, spec);
    }
  }

  /** Parameter names are unique for every resource. */
  lemma ParamNamesUnique(annotations: Option<map<string, string>>, spec: CreSpec)
    ensures UniqueNames(Params(annotations, spec))
  {
    hide Annotation;
    var ps := Params(annotations, spec);
    assert ps[0].name == "name" && ps[1].name == "creator" && ps[2].name == "description";
    match spec.buildType
    case ImageImport => assert ps[3].name == "baseImage";
    case GitRepository => assert ps[3].name == "url" && ps[4].name == "ref";
    case PackageList =>
      if spec.baseImage != "" {
        assert ps[3].name == "baseImage" && (|ps| > 4 ==> ps[4].name == "packages");
      } else {
        assert ps[3].name == "osVersion" && ps[4].name == "osName" && ps[5].name == "pythonVersion";
        assert |ps| > 6 ==> ps[6].name == "packages";
      }
  }

  /** Every admitted package list yields a run with unique parameter names, a non-empty package array,
      and exactly one of a non-empty base image or a whole runtime. */
  lemma AdmittedPackageListIsComplete(annotations: Option<map<string, string>>, spec: CreSpec)
    requires Admissible(annotations, spec) && spec.buildType.PackageList?
    ensures UniqueNames(Params(annotations, spec)) && CompleteForPackages(Params(annotations, spec))
  {
    PackageParamsCompleteIff(annotations, spec);
    ParamNamesUnique(annotations, spec);
  }
}
