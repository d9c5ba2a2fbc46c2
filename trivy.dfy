/** The container scan (`analyze_trivy_data`): every vulnerability of every result
    of every report counts towards the total; its severity, compared with exact
    case, picks a bucket. */
module Trivy {
  import opened JsonData
  import opened Loader
  import opened Statuses
  import opened Histogram

  datatype TrivySummary = TrivySummary(
    total: nat,
    severityCounts: map<string, nat>,
    scannedTargets: nat,
    status: Status)

  const Buckets: set<string> := {"CRITICAL", "HIGH", "MEDIUM", "LOW"}

  /** `vuln.get('Severity', 'UNKNOWN')`, when it is a string. */
  function VulnSeverity(v: Json): Option<string> {
    match Get(v, "Severity", JStr("UNKNOWN"))
    case JStr(s) => Some(s)
    case _ => None
  }

  /** `result.get('Vulnerabilities', [])`. */
  function Vulnerabilities(result: Json): Json {
    Get(result, "Vulnerabilities", EmptyList)
  }

  /** `data.get('Results', [])` of a usable report, as iterated. */
  function FileResults(data: Option<Json>): seq<Json> {
    if Usable(data) then Items(Get(data.value, "Results", EmptyList)) else []
  }

  function VulnSeverities(vs: seq<Json>): (r: seq<Option<string>>)
    ensures |r| == |vs|
  {
    if vs == [] then [] else VulnSeverities(vs[..|vs| - 1]) + [VulnSeverity(vs[|vs| - 1])]
  }

  /** The severities of the vulnerabilities visited in a list of results. */
  function ResultSeverities(rs: seq<Json>): seq<Option<string>> {
    if rs == [] then []
    else ResultSeverities(rs[..|rs| - 1]) + VulnSeverities(Items(Vulnerabilities(rs[|rs| - 1])))
  }

  /** The sum of `len(vulnerabilities)` over a list of results. */
  function ResultTotal(rs: seq<Json>): nat {
    if rs == [] then 0 else ResultTotal(rs[..|rs| - 1]) + Len(Vulnerabilities(rs[|rs| - 1]))
  }

  function Severities(files: seq<Option<Json>>): seq<Option<string>> {
    if files == [] then [] else Severities(files[..|files| - 1]) + ResultSeverities(FileResults(files[|files| - 1]))
  }

  function Total(files: seq<Option<Json>>): nat {
    if files == [] then 0 else Total(files[..|files| - 1]) + ResultTotal(FileResults(files[|files| - 1]))
  }

  /** `scanned_targets`: the reports that loaded to a truthy value. */
  function Scanned(files: seq<Option<Json>>): (r: nat)
    ensures r <= |files|
  {
    if files == [] then 0 else Scanned(files[..|files| - 1]) + (if Usable(files[|files| - 1]) then 1 else 0)
  }

  /** The bucket dictionary as it is initialised (line 128). */
  const Initial: map<string, nat> := map["CRITICAL" := 0, "HIGH" := 0, "MEDIUM" := 0, "LOW" := 0]

  function Scan(dir: Dir): TrivySummary {
    var files := if dir.None? then [] else dir.value;
    var counts := Apply(Initial, Severities(files));
    TrivySummary(Total(files), counts, Scanned(files), Escalate(counts["CRITICAL"], counts["HIGH"]))
  }

  /** The loop over one result's vulnerabilities (lines 142-145). */
  method CountVulnerabilities(vs: seq<Json>, counts: map<string, nat>) returns (counts': map<string, nat>)
    ensures counts' == Apply(counts, VulnSeverities(vs))
  {
    counts' := counts;
    var j := 0;
    while j < |vs|
      invariant 0 <= j <= |vs|
      invariant counts' == Apply(counts, VulnSeverities(vs[..j]))
    {
      assert vs[..j + 1][..j] == vs[..j];
      var severity := VulnSeverity(vs[j]);
      ghost var prev := VulnSeverities(vs[..j]);
      assert VulnSeverities(vs[..j + 1]) == prev + [severity];
      assert (prev + [severity])[..|prev|] == prev;
      if severity.Some? && severity.value in counts' {
        counts' := counts'[severity.value := counts'[severity.value] + 1];
      }
      j := j + 1;
    }
    assert vs[..j] == vs;
  }

  /** The loop over one report's results (lines 138-145). */
  method CountResults(rs: seq<Json>, total: nat, counts: map<string, nat>)
    returns (total': nat, counts': map<string, nat>)
    ensures total' == total + ResultTotal(rs)
    ensures counts' == Apply(counts, ResultSeverities(rs))
  {
    total', counts' := total, counts;
    var k := 0;
    while k < |rs|
      invariant 0 <= k <= |rs|
      invariant total' == total + ResultTotal(rs[..k])
      invariant counts' == Apply(counts, ResultSeverities(rs[..k]))
    {
      assert rs[..k + 1][..k] == rs[..k];
      var vulnerabilities := Get(rs[k], "Vulnerabilities", EmptyList);
      ApplyAppend(counts, ResultSeverities(rs[..k]), VulnSeverities(Items(vulnerabilities)));
      total' := total' + Len(vulnerabilities);
      counts' := CountVulnerabilities(Items(vulnerabilities), counts');
      k := k + 1;
    }
    assert rs[..k] == rs;
  }

  /** `analyze_trivy_data`. */
  method AnalyzeTrivy(dir: Dir) returns (s: TrivySummary)
    ensures s == Scan(dir)
  {
    var total, scanned := 0, 0;
    var counts: map<string, nat> := map["CRITICAL" := 0, "HIGH" := 0, "MEDIUM" := 0, "LOW" := 0];
    if dir.Some? {
      var files := dir.value;
      assert files[..0] == [];
      var i := 0;
      while i < |files|
        invariant 0 <= i <= |files|
        invariant total == Total(files[..i]) && scanned == Scanned(files[..i])
        invariant counts == Apply(Initial, Severities(files[..i]))
      {
        assert files[..i + 1][..i] == files[..i];
        var data := files[i];
        ApplyAppend(Initial, Severities(files[..i]), ResultSeverities(FileResults(data)));
        if data.Some? && Truthy(data.value) {
          scanned := scanned + 1;
          var results := Get(data.value, "Results", EmptyList);
          total, counts := CountResults(Items(results), total, counts);
        } else {
          assert FileResults(data) == [] && ResultSeverities([]) == [];
          assert Severities(files[..i + 1]) == Severities(files[..i]) + [];
        }
        i := i + 1;
      }
      assert files[..i] == files;
    }
    s := TrivySummary(total, counts, scanned, Escalate(counts["CRITICAL"], counts["HIGH"]));
  }

  lemma {:induction false} ResultSeveritiesWithinTotal(rs: seq<Json>)
    ensures |ResultSeverities(rs)| <= ResultTotal(rs)
  {
    if rs != [] {
      ResultSeveritiesWithinTotal(rs[..|rs| - 1]);
    }
  }

  lemma {:induction false} SeveritiesWithinTotal(files: seq<Option<Json>>)
    ensures |Severities(files)| <= Total(files)
  {
    if files != [] {
      SeveritiesWithinTotal(files[..|files| - 1]);
      ResultSeveritiesWithinTotal(FileResults(files[|files| - 1]));
    }
  }

  /** The four buckets together never exceed the total, and every usable report
      is a scanned target. */
  lemma ScanCounters(dir: Dir)
    ensures Scan(dir).severityCounts.Keys == Buckets
    ensures Scan(dir).severityCounts["CRITICAL"] + Scan(dir).severityCounts["HIGH"]
            + Scan(dir).severityCounts["MEDIUM"] + Scan(dir).severityCounts["LOW"] <= Scan(dir).total
    ensures Scan(dir).scannedTargets == Scanned(if dir.None? then [] else dir.value)
  {
    var files := if dir.None? then [] else dir.value;
    SeveritiesWithinTotal(files);
    ApplyCounts(Initial, Severities(files));
    BucketsBounded(Severities(files), "CRITICAL", "HIGH", "MEDIUM", "LOW");
  }

  /** `scanned_targets` is the number of reports that loaded to a truthy value. */
  lemma {:induction false} ScannedCountsUsable(files: seq<Option<Json>>)
    ensures Scanned(files) == |set i | 0 <= i < |files| && Usable(files[i])|
  {
    if files != [] {
      var n := |files| - 1;
      ScannedCountsUsable(files[..n]);
      var before := set i | 0 <= i < n && Usable(files[..n][i]);
      var after := set i | 0 <= i < |files| && Usable(files[i]);
      assert before == set i | 0 <= i < n && Usable(files[i]);
      if Usable(files[n]) {
        assert after == before + {n};
      } else {
        assert after == before;
      }
    }
  }

  /** The status in terms of the vulnerabilities: `critical` iff some has severity
      exactly `CRITICAL`, `warning` iff none does but some is exactly `HIGH`. */
  lemma ScanStatus(dir: Dir)
    ensures var sevs := Severities(if dir.None? then [] else dir.value);
      && (Scan(dir).status == Critical <==> Some("CRITICAL") in sevs)
      && (Scan(dir).status == Warning <==> Some("CRITICAL") !in sevs && Some("HIGH") in sevs)
  {
    var sevs := Severities(if dir.None? then [] else dir.value);
    ApplyCounts(Initial, sevs);
    CountPositive(sevs, "CRITICAL");
    CountPositive(sevs, "HIGH");
  }

  /** One report whose single result holds a `HIGH` and a `LOW` vulnerability:
      two in total, one in each of those buckets, `warning`. */
  lemma HighAndLow(report: Json, result: Json, high: Json, low: Json)
    requires Usable(Some(report)) && FileResults(Some(report)) == [result]
    requires Vulnerabilities(result) == JArr([high, low])
    requires VulnSeverity(high) == Some("HIGH") && VulnSeverity(low) == Some("LOW")
    ensures Scan(Some([Some(report)]))
              == TrivySummary(2, map["CRITICAL" := 0, "HIGH" := 1, "MEDIUM" := 0, "LOW" := 1], 1, Warning)
  {
    var files := [Some(report)];
    assert files[..0] == [] && [result][..0] == [] && [high, low][..1] == [high] && [high][..0] == [];
    assert VulnSeverities([high, low]) == [Some("HIGH"), Some("LOW")];
    assert ResultSeverities([result]) == [] + [Some("HIGH"), Some("LOW")];
    assert ResultTotal([result]) == 2;
    var sevs := [Some("HIGH"), Some("LOW")];
    assert Severities(files) == [] + sevs == sevs;
    assert Total(files) == 2;
    assert sevs[..1] == [Some("HIGH")] && [Some("HIGH")][..0] == [];
    var counts := Apply(Initial, Severities(files));
    assert counts == map["CRITICAL" := 0, "HIGH" := 1, "MEDIUM" := 0, "LOW" := 1];
    assert counts["CRITICAL"] == 0 && counts["HIGH"] == 1;
    assert Scanned(files) == 1;
    assert Scan(Some(files)) == TrivySummary(2, counts, 1, Escalate(0, 1));
  }
}
