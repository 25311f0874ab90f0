/** The names of the Tekton runs of a CustomRuntimeEnvironment, `cre-<name>-<generation>-<pipeline>`,
    and a parser that shows them to be uniquely decodable (controllers/cre/controller.go). */
module CreNames {
  import opened Kube
  import opened CreApi

  /** What a run is made for. */
  datatype RunId = RunId(name: string, generation: nat, build: BuildType)

  function PipelineOf(b: BuildType): string {
    match b
    case GitRepository => "gitrepo"
    case PackageList => "package-list"
    case ImageImport => "import"
  }

  // ---------------------------------------------------------------- decimal numbers

  predicate IsDigit(c: char) { '0' <= c <= '9' }

  predicate AllDigits(s: string) {
    forall i :: 0 <= i < |s| ==> IsDigit(s[i])
  }

  function Decimal(n: nat): string {
    if n < 10 then [('0' as int + n) as char] else Decimal(n / 10) + [('0' as int + n % 10) as char]
  }

  function ValueOf(s: string): nat
    requires AllDigits(s)
  {
    if s == [] then 0 else ValueOf(s[..|s| - 1]) * 10 + (s[|s| - 1] as int - '0' as int)
  }

  /** Digits as they are printed: at least one, and no leading zero. */
  predicate Canonical(s: string) {
    s != [] && AllDigits(s) && (|s| > 1 ==> s[0] != '0')
  }

  lemma {:induction false} DecimalReadsBack(n: nat)
    ensures Canonical(Decimal(n)) && ValueOf(Decimal(n)) == n && (n > 0 ==> Decimal(n)[0] != '0')
  {
    if n >= 10 {
      DecimalReadsBack(n / 10);
      var s := Decimal(n);
      assert s[..|s| - 1] == Decimal(n / 10);
    }
  }

  lemma {:induction false} ValuePrintsBack(s: string)
    requires Canonical(s)
    ensures Decimal(ValueOf(s)) == s && (s[0] != '0' ==> ValueOf(s) > 0)
  {
    var d := s[|s| - 1] as int - '0' as int;
    if |s| == 1 {
      assert s[..0] == [];
      assert s == [s[0]];
    } else {
      var t := s[..|s| - 1];
      ValuePrintsBack(t);
      assert ValueOf(s) == ValueOf(t) * 10 + d;
      assert s == t + [s[|s| - 1]];
    }
  }

  // ---------------------------------------------------------------- printing and parsing

  function PrintRun(id: RunId): string {
    "cre-" + id.name + "-" + Decimal(id.generation) + "-" + PipelineOf(id.build)
  }

  predicate EndsWith(s: string, t: string) {
    |t| <= |s| && s[|s| - |t|..] == t
  }

  /** The number of digits at the end. */
  function TrailingDigits(s: string): (k: nat)
    ensures k <= |s| && AllDigits(s[|s| - k..])
  {
    if s == [] || !IsDigit(s[|s| - 1]) then 0
    else
      var k := TrailingDigits(s[..|s| - 1]);
      assert s[|s| - 1 - k..] == s[..|s| - 1][|s| - 1 - k..] + [s[|s| - 1]];
      k + 1
  }

  /** `cre-<name>-<digits>`: the name reaches to the last dash. */
  function ParseStem(s: string, b: BuildType): Option<RunId> {
    var start := |s| - TrailingDigits(s);
    if Canonical(s[start..]) && start >= 5 && s[start - 1] == '-' && s[..4] == "cre-" then
      Some(RunId(s[4..start - 1], ValueOf(s[start..]), b))
    else None
  }

  function ParseRun(s: string): Option<RunId> {
    if EndsWith(s, "-gitrepo") then ParseStem(s[..|s| - 8], GitRepository)
    else if EndsWith(s, "-package-list") then ParseStem(s[..|s| - 13], PackageList)
    else if EndsWith(s, "-import") then ParseStem(s[..|s| - 7], ImageImport)
    else None
  }

  function Stem(name: string, generation: nat): string { "cre-" + name + "-" + Decimal(generation) }

  lemma {:induction false} TrailingDigitsAfterDash(p: string, ds: string)
    requires AllDigits(ds) && p != [] && p[|p| - 1] == '-'
    ensures TrailingDigits(p + ds) == |ds|
  {
    if ds == [] {
      assert p + ds == p;
    } else {
      TrailingDigitsAfterDash(p, ds[..|ds| - 1]);
      assert (p + ds)[..|p + ds| - 1] == p + ds[..|ds| - 1];
    }
  }

  lemma StemReadsBack(id: RunId)
    ensures ParseStem(Stem(id.name, id.generation), id.build) == Some(id)
  {
    var p := "cre-" + id.name + "-";
    var ds := Decimal(id.generation);
    var s := Stem(id.name, id.generation);
    DecimalReadsBack(id.generation);
    TrailingDigitsAfterDash(p, ds);
    assert s == p + ds && s[|p|..] == ds;
    assert s[..4] == "cre-" && s[4..|p| - 1] == id.name;
  }

  lemma AppendedEnds(stem: string, end: string)
    ensures EndsWith(stem + end, end) && (stem + end)[..|stem + end| - |end|] == stem
  {
  }

  /** The ending decides the build type, and what is left is the stem. */
  lemma EndingParses(stem: string, b: BuildType)
    ensures ParseRun(stem + ("-" + PipelineOf(b))) == ParseStem(stem, b)
  {
    hide ParseStem, EndsWith;
    match b
    case GitRepository =>
      assert "-" + PipelineOf(b) == "-gitrepo";
      AppendedEnds(stem, "-gitrepo");
    case PackageList =>
      assert "-" + PipelineOf(b) == "-package-list";
      AppendedEnds(stem, "-package-list");
      SuffixesDiffer(stem + "-package-list");
    case ImageImport =>
      assert "-" + PipelineOf(b) == "-import";
      AppendedEnds(stem, "-import");
      SuffixesDiffer(stem + "-import");
  }

  /** Parsing undoes printing, for every name, every generation and every build type. */
  lemma PrintedRunReadsBack(id: RunId)
    ensures ParseRun(PrintRun(id)) == Some(id)
  {
    hide ParseRun, ParseStem, PipelineOf;
    var stem := Stem(id.name, id.generation);
    assert PrintRun(id) == stem + ("-" + PipelineOf(id.build));
    EndingParses(stem, id.build);
    StemReadsBack(id);
  }

  lemma SuffixesDiffer(s: string)
    ensures !(EndsWith(s, "-gitrepo") && EndsWith(s, "-package-list"))
    ensures !(EndsWith(s, "-gitrepo") && EndsWith(s, "-import"))
    ensures !(EndsWith(s, "-package-list") && EndsWith(s, "-import"))
  {
    if EndsWith(s, "-gitrepo") { assert s[|s| - 1] == s[|s| - 8..][7] == 'o'; }
    if EndsWith(s, "-package-list") {
      assert s[|s| - 1] == s[|s| - 13..][12] == 't';
      assert s[|s| - 2] == s[|s| - 13..][11] == 's';
    }
    if EndsWith(s, "-import") {
      assert s[|s| - 1] == s[|s| - 7..][6] == 't';
      assert s[|s| - 2] == s[|s| - 7..][5] == 'r';
    }
  }

  lemma StemPrintsBack(s: string, b: BuildType)
    requires ParseStem(s, b).Some?
    ensures var id := ParseStem(s, b).value; Stem(id.name, id.generation) == s && id.build == b
  {
    hide Decimal, ValueOf, Canonical, AllDigits, TrailingDigits;
    var start := |s| - TrailingDigits(s);
    ValuePrintsBack(s[start..]);
    assert s == s[..4] + s[4..start - 1] + [s[start - 1]] + s[start..];
  }

  lemma EndingPrintsBack(s: string, end: string, b: BuildType)
    requires EndsWith(s, end) && end == "-" + PipelineOf(b) && ParseStem(s[..|s| - |end|], b).Some?
    ensures PrintRun(ParseStem(s[..|s| - |end|], b).value) == s
  {
    hide ParseStem, PipelineOf;
    StemPrintsBack(s[..|s| - |end|], b);
    assert s == s[..|s| - |end|] + s[|s| - |end|..];
  }

  /** Printing undoes parsing: nothing but a printed name parses. */
  lemma ParsedRunPrintsBack(s: string)
    requires ParseRun(s).Some?
    ensures PrintRun(ParseRun(s).value) == s
  {
    hide ParseStem, EndsWith, PrintRun;
    if EndsWith(s, "-gitrepo") {
      EndingPrintsBack(s, "-gitrepo", GitRepository);
    } else if EndsWith(s, "-package-list") {
      EndingPrintsBack(s, "-package-list", PackageList);
    } else {
      EndingPrintsBack(s, "-import", ImageImport);
    }
  }

  /** Two resources, generations or build types never share a run. */
  lemma RunNamesAreDistinct(a: RunId, b: RunId)
    requires PrintRun(a) == PrintRun(b)
    ensures a == b
  {
    PrintedRunReadsBack(a);
    PrintedRunReadsBack(b);
  }
}
