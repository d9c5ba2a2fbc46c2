/** The infrastructure-as-code policy scan (`analyze_checkov_data`): passed, failed
    and skipped checks summed over all reports, judged by the pass rate. */
module Checkov {
  import opened JsonData
  import opened Loader
  import opened Statuses

  /** `pass_rate` is kept exact; the source rounds it to one decimal for display only. */
  datatype CheckovSummary = CheckovSummary(
    passed: nat,
    failed: nat,
    skipped: nat,
    passRate: real,
    status: Status)

  /** `len(data.get('results', {}).get(key, []))` of a usable report. */
  function FileChecks(data: Option<Json>, key: string): nat {
    if Usable(data) then Len(Get(Get(data.value, "results", EmptyDict), key, EmptyList)) else 0
  }

  /** The checks under `key`, summed over the reports. */
  function Checks(files: seq<Option<Json>>, key: string): nat {
    if files == [] then 0 else Checks(files[..|files| - 1], key) + FileChecks(files[|files| - 1], key)
  }

  /** `passed / total * 100`, or 0 when there are no checks. */
  function PassRate(passed: nat, total: nat): real {
    if total > 0 then passed as real / total as real * 100.0 else 0.0
  }

  /** Thresholds on the unrounded rate. */
  function CheckovStatus(rate: real): Status {
    if rate < 70.0 then Critical else if rate < 90.0 then Warning else Good
  }

  function Scan(dir: Dir): CheckovSummary {
    var files := if dir.None? then [] else dir.value;
    var p, f, s := Checks(files, "passed_checks"), Checks(files, "failed_checks"), Checks(files, "skipped_checks");
    CheckovSummary(p, f, s, PassRate(p, p + f + s), CheckovStatus(PassRate(p, p + f + s)))
  }

  /** `analyze_checkov_data`. */
  method AnalyzeCheckov(dir: Dir) returns (r: CheckovSummary)
    ensures r == Scan(dir)
  {
    var passed, failed, skipped := 0, 0, 0;
    if dir.Some? {
      var files := dir.value;
      var i := 0;
      while i < |files|
        invariant 0 <= i <= |files|
        invariant passed == Checks(files[..i], "passed_checks")
        invariant failed == Checks(files[..i], "failed_checks")
        invariant skipped == Checks(files[..i], "skipped_checks")
      {
        assert files[..i + 1][..i] == files[..i];
        var data := files[i];
        if data.Some? && Truthy(data.value) {
          var results := Get(data.value, "results", EmptyDict);
          passed := passed + Len(Get(results, "passed_checks", EmptyList));
          failed := failed + Len(Get(results, "failed_checks", EmptyList));
          skipped := skipped + Len(Get(results, "skipped_checks", EmptyList));
        }
        i := i + 1;
      }
      assert files[..i] == files;
    }
    var total := passed + failed + skipped;
    var rate := if total > 0 then passed as real / total as real * 100.0 else 0.0;
    var status := if rate < 70.0 then Critical else if rate < 90.0 then Warning else Good;
    r := CheckovSummary(passed, failed, skipped, rate, status);
  }

  /** The rate compared with a percentage threshold, restated in integers. */
  lemma RateBelow(passed: nat, total: nat, threshold: nat)
    requires total > 0
    ensures PassRate(passed, total) < threshold as real <==> passed * 100 < threshold * total
  {
  }

  /** The pass rate is a percentage. */
  lemma RateIsPercentage(passed: nat, failed: nat, skipped: nat)
    ensures 0.0 <= PassRate(passed, passed + failed + skipped) <= 100.0
  {
  }

  /** The status in integers: `critical` when there are no checks at all or fewer
      than 70% pass, `warning` when 70% to under 90% pass, `good` from 90%. */
  lemma ScanStatus(dir: Dir)
    ensures var r := Scan(dir); var total := r.passed + r.failed + r.skipped;
      && (r.status == Critical <==> total == 0 || r.passed * 100 < 70 * total)
      && (r.status == Warning <==> total > 0 && 70 * total <= r.passed * 100 < 90 * total)
      && (r.status == Good <==> total > 0 && 90 * total <= r.passed * 100)
  {
    var r := Scan(dir);
    var total := r.passed + r.failed + r.skipped;
    if total > 0 {
      RateBelow(r.passed, total, 70);
      RateBelow(r.passed, total, 90);
    }
  }

  /** No checks at all, a missing directory included, is `critical`. */
  lemma NoChecksIsCritical(dir: Dir)
    requires dir.None? || forall i :: 0 <= i < |dir.value| ==> !Usable(dir.value[i])
    ensures Scan(dir).status == Critical && Scan(dir).passRate == 0.0
  {
    if dir.Some? {
      NoUsableNoChecks(dir.value, "passed_checks");
      NoUsableNoChecks(dir.value, "failed_checks");
      NoUsableNoChecks(dir.value, "skipped_checks");
    }
  }

  lemma {:induction false} NoUsableNoChecks(files: seq<Option<Json>>, key: string)
    requires forall i :: 0 <= i < |files| ==> !Usable(files[i])
    ensures Checks(files, key) == 0
  {
    if files != [] {
      NoUsableNoChecks(files[..|files| - 1], key);
    }
  }

  /** One report with 8 passed, 2 failed and no skipped checks: an 80% pass rate, `warning`. */
  lemma EightOfTen(passed: seq<Json>, failed: seq<Json>)
    requires |passed| == 8 && |failed| == 2
    ensures var report := JObj(map["results" := JObj(map["passed_checks" := JArr(passed),
                                                          "failed_checks" := JArr(failed)])]);
      Scan(Some([Some(report)])) == CheckovSummary(8, 2, 0, 80.0, Warning)
  {
    var results := JObj(map["passed_checks" := JArr(passed), "failed_checks" := JArr(failed)]);
    var report := JObj(map["results" := results]);
    assert [Some(report)][..0] == [];
    assert "results" in report.fields && "passed_checks" in results.fields && "failed_checks" in results.fields;
    assert "skipped_checks" !in results.fields;
    assert Checks([Some(report)], "passed_checks") == 8;
    assert Checks([Some(report)], "failed_checks") == 2;
    assert Checks([Some(report)], "skipped_checks") == 0;
  }
}
