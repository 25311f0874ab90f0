/** The per-pipeline results of a Meteor status against the history of run reads: which run each of them
    names, and where its url comes from. */
module MeteorResults {
  import opened Kube
  import opened MeteorApi
  import opened Cluster
  import opened MeteorPass

  /** The read found a run that had succeeded, with a text as its first result. */
  predicate TellsUrl(r: RunRead) {
    r.found.Some? && PlaceOf(r.found.value) == Won && r.found.value.results != [] && r.found.value.results[0].Text?
  }

  /** The first result of the run when it was last found won with a text; empty if it never was. */
  function LastUrl(h: seq<RunRead>, name: string): string {
    if h == [] then ""
    else
      var r := h[|h| - 1];
      if r.name == name && TellsUrl(r) then r.found.value.results[0].text else LastUrl(h[..|h| - 1], name)
  }

  /** One result for each run that was looked for, under the name of its pipeline, with the last url told. */
  ghost predicate ResultsFit(meteor: string, rs: seq<PipelineResult>, h: seq<RunRead>) {
    && (forall i, j :: 0 <= i < j < |rs| ==> rs[i].name != rs[j].name)
    && (forall i :: 0 <= i < |rs| ==> rs[i].runName == RunName(meteor, rs[i].name) && rs[i].url == LastUrl(h, rs[i].runName))
    && (forall r :: r in h ==> exists i :: 0 <= i < |rs| && rs[i].runName == r.name)
  }

  lemma EmptyResults(meteor: string)
    ensures ResultsFit(meteor, [], [])
  {
  }

  lemma {:induction false} NeverLooked(h: seq<RunRead>, name: string)
    requires forall r :: r in h ==> r.name != name
    ensures LastUrl(h, name) == ""
  {
    if h != [] {
      assert h[|h| - 1] in h;
      NeverLooked(h[..|h| - 1], name);
    }
  }

  lemma {:induction false} UrlStep(h: seq<RunRead>, r: RunRead, name: string)
    ensures LastUrl(h + [r], name) == if r.name == name && TellsUrl(r) then r.found.value.results[0].text else LastUrl(h, name)
  {
    assert (h + [r])[..|h|] == h;
  }

  lemma {:induction false} UrlsOfTwo(h: seq<RunRead>, g: seq<RunRead>, name: string)
    ensures LastUrl(h + g, name) ==
            if exists r :: r in g && r.name == name && TellsUrl(r) then LastUrl(g, name) else LastUrl(h, name)
    decreases |g|
  {
    if g == [] {
      assert h + g == h;
    } else {
      var g0, r := g[..|g| - 1], g[|g| - 1];
      assert g == g0 + [r] && h + g == (h + g0) + [r];
      UrlStep(h + g0, r, name);
      UrlStep(g0, r, name);
      UrlsOfTwo(h, g0, name);
    }
  }

  /** Landing the same reads again tells nothing new. */
  lemma ResultsTwice(meteor: string, rs: seq<PipelineResult>, h: seq<RunRead>, g: seq<RunRead>)
    requires ResultsFit(meteor, rs, h + g)
    ensures ResultsFit(meteor, rs, h + g + g)
  {
    hide TellsUrl;
    forall name ensures LastUrl(h + g + g, name) == LastUrl(h + g, name) {
      UrlsOfTwo(h + g, g, name);
      UrlsOfTwo(h, g, name);
    }
    forall r | r in h + g + g ensures exists i :: 0 <= i < |rs| && rs[i].runName == r.name { assert r in h + g; }
  }

  lemma WithResultFits(meteor: string, st: MeteorStatus, n: string, h: seq<RunRead>)
    requires ResultsFit(meteor, st.pipelines, h)
    ensures ResultsFit(meteor, WithResult(st, meteor, n).pipelines, h)
  {
    hide LastUrl;
    var rs := st.pipelines;
    var rs1 := WithResult(st, meteor, n).pipelines;
    if ResultIndex(rs, n) == |rs| {
      forall r | r in h ensures r.name != RunName(meteor, n) && exists i :: 0 <= i < |rs1| && rs1[i].runName == r.name {
        var i :| 0 <= i < |rs| && rs[i].runName == r.name;
        assert rs1[i] == rs[i];
        if r.name == RunName(meteor, n) { RunNameInjective(meteor, rs[i].name, n); }
      }
      NeverLooked(h, RunName(meteor, n));
    }
  }

  /** Looking for the run of a listed pipeline, with whatever outcome. */
  lemma {:induction false} LookingFits(meteor: string, rs: seq<PipelineResult>, h: seq<RunRead>, n: string, r: RunRead)
    requires ResultsFit(meteor, rs, h) && r.name == RunName(meteor, n) && ResultIndex(rs, n) < |rs|
    ensures var i := ResultIndex(rs, n);
      var rs1 := if r.found.Some? && PlaceOf(r.found.value) == Won then rs[i := MarkReady(rs[i], r.found.value)] else rs;
      ResultsFit(meteor, rs1, h + [r])
  {
    hide LastUrl, RunName;
    var k := ResultIndex(rs, n);
    var rs1 := if r.found.Some? && PlaceOf(r.found.value) == Won then rs[k := MarkReady(rs[k], r.found.value)] else rs;
    forall i | 0 <= i < |rs1|
      ensures rs1[i].name == rs[i].name && rs1[i].runName == RunName(meteor, rs1[i].name)
      ensures rs1[i].url == LastUrl(h + [r], rs1[i].runName)
    {
      UrlStep(h, r, rs[i].runName);
      if i != k && rs[i].runName == r.name { RunNameInjective(meteor, rs[i].name, n); }
    }
    forall x | x in h + [r] ensures exists i :: 0 <= i < |rs1| && rs1[i].runName == x.name {
      if x in h {
        var i :| 0 <= i < |rs| && rs[i].runName == x.name;
        assert rs1[i].runName == x.name;
      } else {
        assert rs1[k].runName == x.name;
      }
    }
  }
}
