/** The SBOM-based vulnerability scan (`analyze_grype_data`): every match of every
    report counts towards the total; its severity, lower-cased, picks a bucket. */
module Grype {
  import opened JsonData
  import opened Loader
  import opened Statuses
  import opened Histogram
  import opened Text

  /** The `grype-reports` directory: the loaded `grype-*.json` reports and the
      number of `sbom-*.json` files beside them. */
  datatype GrypeReports = GrypeReports(scans: seq<Option<Json>>, sbomFiles: nat)

  datatype GrypeSummary = GrypeSummary(
    total: nat,
    severityCounts: map<string, nat>,
    sbomFiles: nat,
    status: Status)

  const Buckets: set<string> := {"critical", "high", "medium", "low"}

  /** `match.get('vulnerability', {}).get('severity', 'unknown').lower()`. */
  function MatchSeverity(m: Json): Option<string> {
    match Get(Get(m, "vulnerability", EmptyDict), "severity", JStr("unknown"))
    case JStr(s) => Some(Lower(s))
    case _ => None
  }

  /** `data.get('matches', [])` of a usable report. */
  function FileMatches(data: Option<Json>): Json {
    if Usable(data) then Get(data.value, "matches", EmptyList) else EmptyList
  }

  function MatchSeverities(ms: seq<Json>): (r: seq<Option<string>>)
    ensures |r| == |ms|
  {
    if ms == [] then [] else MatchSeverities(ms[..|ms| - 1]) + [MatchSeverity(ms[|ms| - 1])]
  }

  /** The severities of all matches visited, report by report. */
  function Severities(files: seq<Option<Json>>): seq<Option<string>> {
    if files == [] then []
    else Severities(files[..|files| - 1]) + MatchSeverities(Items(FileMatches(files[|files| - 1])))
  }

  /** `total_vulns`: the sum of `len(matches)`. */
  function Total(files: seq<Option<Json>>): nat {
    if files == [] then 0 else Total(files[..|files| - 1]) + Len(FileMatches(files[|files| - 1]))
  }

  /** The bucket dictionary as it is initialised (line 95). */
  const Initial: map<string, nat> := map["critical" := 0, "high" := 0, "medium" := 0, "low" := 0]

  function Scan(dir: Option<GrypeReports>): GrypeSummary {
    var files := if dir.None? then [] else dir.value.scans;
    var counts := Apply(Initial, Severities(files));
    GrypeSummary(Total(files), counts, if dir.None? then 0 else dir.value.sbomFiles,
                 Escalate(counts["critical"], counts["high"]))
  }

  /** The loop over one report's matches (lines 105-109). */
  method CountMatches(ms: seq<Json>, counts: map<string, nat>) returns (counts': map<string, nat>)
    ensures counts' == Apply(counts, MatchSeverities(ms))
  {
    counts' := counts;
    var j := 0;
    while j < |ms|
      invariant 0 <= j <= |ms|
      invariant counts' == Apply(counts, MatchSeverities(ms[..j]))
    {
      assert ms[..j + 1][..j] == ms[..j];
      var severity := MatchSeverity(ms[j]);
      ghost var prev := MatchSeverities(ms[..j]);
      assert MatchSeverities(ms[..j + 1]) == prev + [severity];
      assert (prev + [severity])[..|prev|] == prev;
      if severity.Some? && severity.value in counts' {
        counts' := counts'[severity.value := counts'[severity.value] + 1];
      }
      j := j + 1;
    }
    assert ms[..j] == ms;
  }

  /** One report of the loop (lines 100-109). */
  method ScanReport(data: Option<Json>, total: nat, counts: map<string, nat>)
    returns (total': nat, counts': map<string, nat>)
    ensures total' == total + Len(FileMatches(data))
    ensures counts' == Apply(counts, MatchSeverities(Items(FileMatches(data))))
  {
    total', counts' := total, counts;
    if data.Some? && Truthy(data.value) {
      var matches := Get(data.value, "matches", EmptyList);
      total' := total + Len(matches);
      counts' := CountMatches(Items(matches), counts);
    }
  }

  /** `analyze_grype_data`. */
  method AnalyzeGrype(dir: Option<GrypeReports>) returns (s: GrypeSummary)
    ensures s == Scan(dir)
  {
    var total := 0;
    var counts: map<string, nat> := map["critical" := 0, "high" := 0, "medium" := 0, "low" := 0];
    var sbomFiles := 0;
    if dir.Some? {
      var files := dir.value.scans;
      assert files[..0] == [];
      var i := 0;
      while i < |files|
        invariant 0 <= i <= |files|
        invariant total == Total(files[..i])
        invariant counts == Apply(Initial, Severities(files[..i]))
      {
        assert files[..i + 1][..i] == files[..i];
        ApplyAppend(Initial, Severities(files[..i]), MatchSeverities(Items(FileMatches(files[i]))));
        total, counts := ScanReport(files[i], total, counts);
        i := i + 1;
      }
      assert files[..i] == files;
      sbomFiles := dir.value.sbomFiles;
    }
    s := GrypeSummary(total, counts, sbomFiles, Escalate(counts["critical"], counts["high"]));
  }

  /** Fewer matches are visited than counted. */
  lemma {:induction false} SeveritiesWithinTotal(files: seq<Option<Json>>)
    ensures |Severities(files)| <= Total(files)
  {
    if files != [] {
      SeveritiesWithinTotal(files[..|files| - 1]);
    }
  }

  /** The four buckets together never exceed the total. */
  lemma BucketsWithinTotal(dir: Option<GrypeReports>)
    ensures Scan(dir).severityCounts.Keys == Buckets
    ensures Scan(dir).severityCounts["critical"] + Scan(dir).severityCounts["high"]
            + Scan(dir).severityCounts["medium"] + Scan(dir).severityCounts["low"] <= Scan(dir).total
  {
    var files := if dir.None? then [] else dir.value.scans;
    SeveritiesWithinTotal(files);
    ApplyCounts(Initial, Severities(files));
    BucketsBounded(Severities(files), "critical", "high", "medium", "low");
  }

  /** The status in terms of the matches: `critical` iff some match is critical,
      `warning` iff none is but some is high. */
  lemma ScanStatus(dir: Option<GrypeReports>)
    ensures var sevs := Severities(if dir.None? then [] else dir.value.scans);
      && (Scan(dir).status == Critical <==> Some("critical") in sevs)
      && (Scan(dir).status == Warning <==> Some("critical") !in sevs && Some("high") in sevs)
  {
    var sevs := Severities(if dir.None? then [] else dir.value.scans);
    ApplyCounts(Initial, sevs);
    CountPositive(sevs, "critical");
    CountPositive(sevs, "high");
  }

  /** Severity matching ignores case: a match reporting `"Critical"` lands in the
      `critical` bucket. */
  lemma MatchSeverityIgnoresCase(m: Json, name: string)
    requires Get(Get(m, "vulnerability", EmptyDict), "severity", JStr("unknown")) == JStr(name)
    requires |name| == 8 && name[0] in "cC" && name[1] in "rR" && name[2] in "iI" && name[3] in "tT"
    requires name[4] in "iI" && name[5] in "cC" && name[6] in "aA" && name[7] in "lL"
    ensures MatchSeverity(m) == Some("critical")
  {
    assert Lower(name) == "critical" by {
      forall k | 0 <= k < 8 ensures Lower(name)[k] == "critical"[k] {
      }
    }
  }
}
