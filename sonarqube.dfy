/** The code-quality scan (`analyze_sonarqube_data`): candidate directories are tried
    in order; in each, the first file that loaded to a truthy value is read and the
    rest are ignored; the search stops once a coverage figure is known. */
module SonarQube {
  import opened JsonData
  import opened Loader
  import opened Statuses

  /** The number handling the source leaves to Python: `tenths(x)` is the number of
      tenths that `f"{x:.1f}"` shows (so `"85.3%"` is 853), and `parseFloat(s)` is
      `float(s)`, `None` where it raises. */
  datatype Numbers = Numbers(tenths: real -> int, parseFloat: string -> Option<real>)

  /** The variables of the search: `coverage` in tenths of a percent, `None` for
      "N/A"; `tests` and `passedTests` as displayed, `None` for "N/A". */
  datatype SonarState = SonarState(coverage: Option<int>, tests: Option<Json>, passedTests: Option<Json>, issues: Json)

  datatype SonarSummary = SonarSummary(
    coverage: Option<int>,
    tests: Option<Json>,
    passedTests: Option<Json>,
    issues: Json,
    hasData: bool,
    status: Status)

  /** Lines 217-220. */
  const Start: SonarState := SonarState(None, None, None, JNum(0.0))

  /** The numbers `:.1f` accepts directly (a bool formats as 0 or 1). */
  function AsNumber(j: Json): Option<real> {
    match j
    case JNum(n) => Some(n)
    case JBool(b) => Some(if b then 1.0 else 0.0)
    case _ => None
  }

  /** `float(v)`. */
  function ToFloat(j: Json, nums: Numbers): Option<real> {
    match j
    case JStr(s) => nums.parseFloat(s)
    case _ => AsNumber(j)
  }

  /** One entry of the `measures` list (lines 242-245). */
  function Measure(st: SonarState, m: Json, nums: Numbers): SonarState {
    var metric := Get(m, "metric", JNull);
    if metric == JStr("coverage") then
      match ToFloat(Get(m, "value", JNum(0.0)), nums)
      case Some(x) => st.(coverage := Some(nums.tenths(x)))
      case None => st
    else if metric == JStr("tests") then st.(tests := GetShown(m, "value"))
    else st
  }

  /** The `measures` loop: later entries overwrite earlier ones. */
  function Measures(st: SonarState, ms: seq<Json>, nums: Numbers): SonarState {
    if ms == [] then st else Measure(Measures(st, ms[..|ms| - 1], nums), ms[|ms| - 1], nums)
  }

  /** Reading the first usable file of a directory (lines 228-249): the custom
      format, the measures format, the issues format, or nothing recognised. */
  function ReadFile(st: SonarState, data: Json, nums: Numbers): SonarState {
    if HasKey(data, "test_results") && HasKey(data, "coverage") then
      var results := data.fields["test_results"];
      var cov := data.fields["coverage"];
      if !results.JObj? || !cov.JObj? then st
      else match AsNumber(Get(cov, "statement_coverage", JNum(0.0)))
        case None => st
        case Some(x) =>
          SonarState(Some(nums.tenths(x)), GetShown(results, "total_tests"),
                     GetShown(results, "passed_tests"), Get(results, "failed_tests", JNum(0.0)))
    else if HasKey(data, "component") && HasKey(data.fields["component"], "measures") then
      Measures(st, Items(data.fields["component"].fields["measures"]), nums)
    else if HasKey(data, "issues") then
      st.(issues := JNum(Len(data.fields["issues"]) as real))
    else st
  }

  /** One candidate directory: only its first usable file is read. */
  function ScanDir(st: SonarState, dir: Dir, nums: Numbers): SonarState {
    if dir.None? then st
    else match FirstUsable(dir.value)
      case None => st
      case Some(data) => ReadFile(st, data, nums)
  }

  /** The candidate directories in order, stopping once coverage is known. */
  function ScanDirs(st: SonarState, dirs: seq<Dir>, nums: Numbers): SonarState
    decreases |dirs|
  {
    if dirs == [] then st
    else
      var next := ScanDir(st, dirs[0], nums);
      if next.coverage.Some? then next else ScanDirs(next, dirs[1..], nums)
  }

  /** Lines 256-266: coverage 90.0% and up is `good`, 70.0% and up `warning`,
      below that `critical`; without coverage, `warning`. */
  function SonarStatus(coverage: Option<int>): Status {
    match coverage
    case None => Warning
    case Some(t) => if t >= 900 then Good else if t >= 700 then Warning else Critical
  }

  function Summarize(st: SonarState): SonarSummary {
    SonarSummary(st.coverage, st.tests, st.passedTests, st.issues, st.coverage.Some?, SonarStatus(st.coverage))
  }

  function Scan(dirs: seq<Dir>, nums: Numbers): SonarSummary {
    Summarize(ScanDirs(Start, dirs, nums))
  }

  /** The `measures` loop (lines 241-245). */
  method ReadMeasures(st: SonarState, ms: seq<Json>, nums: Numbers) returns (st': SonarState)
    ensures st' == Measures(st, ms, nums)
  {
    st' := st;
    var k := 0;
    while k < |ms|
      invariant 0 <= k <= |ms|
      invariant st' == Measures(st, ms[..k], nums)
    {
      assert ms[..k + 1][..k] == ms[..k];
      var measure := ms[k];
      var metric := Get(measure, "metric", JNull);
      if metric == JStr("coverage") {
        var value := ToFloat(Get(measure, "value", JNum(0.0)), nums);
        if value.Some? {
          st' := st'.(coverage := Some(nums.tenths(value.value)));
        }
      } else if metric == JStr("tests") {
        st' := st'.(tests := GetShown(measure, "value"));
      }
      k := k + 1;
    }
    assert ms[..k] == ms;
  }

  /** One file (lines 227-249). */
  method ReadSonarFile(st: SonarState, data: Json, nums: Numbers) returns (st': SonarState)
    ensures st' == ReadFile(st, data, nums)
  {
    st' := st;
    if HasKey(data, "test_results") && HasKey(data, "coverage") {
      var results := data.fields["test_results"];
      var cov := data.fields["coverage"];
      if results.JObj? && cov.JObj? {
        var x := AsNumber(Get(cov, "statement_coverage", JNum(0.0)));
        if x.Some? {
          st' := SonarState(Some(nums.tenths(x.value)), GetShown(results, "total_tests"),
                            GetShown(results, "passed_tests"), Get(results, "failed_tests", JNum(0.0)));
        }
      }
    } else if HasKey(data, "component") && HasKey(data.fields["component"], "measures") {
      st' := ReadMeasures(st, Items(data.fields["component"].fields["measures"]), nums);
    } else if HasKey(data, "issues") {
      st' := st.(issues := JNum(Len(data.fields["issues"]) as real));
    }
  }

  /** `analyze_sonarqube_data` over the candidate directories, in order. */
  method AnalyzeSonarqube(dirs: seq<Dir>, nums: Numbers) returns (s: SonarSummary)
    ensures s == Scan(dirs, nums)
  {
    var st := Start;
    var d := 0;
    while d < |dirs|
      invariant 0 <= d <= |dirs|
      invariant st.coverage.None?
      invariant ScanDirs(st, dirs[d..], nums) == ScanDirs(Start, dirs, nums)
    {
      assert dirs[d..][0] == dirs[d] && dirs[d..][1..] == dirs[d + 1..];
      ghost var before := st;
      if dirs[d].Some? {
        var files := dirs[d].value;
        var j := 0;
        while j < |files|
          invariant 0 <= j <= |files|
          invariant FirstUsable(files[j..]) == FirstUsable(files)
          invariant st == before
        {
          assert files[j..][1..] == files[j + 1..];
          if files[j].Some? && Truthy(files[j].value) {
            st := ReadSonarFile(st, files[j].value, nums);
            break;
          }
          j := j + 1;
        }
        assert st == ScanDir(before, dirs[d], nums);
        if st.coverage.Some? {
          break;
        }
      }
      d := d + 1;
    }
    s := Summarize(st);
  }

  /** First file wins: the directory's first usable file alone decides what the
      directory contributes, whatever its shape and whatever follows it. */
  lemma FirstFileWins(st: SonarState, files: seq<Option<Json>>, k: nat, rest: seq<Option<Json>>, nums: Numbers)
    requires k < |files| && Usable(files[k])
    requires forall i :: 0 <= i < k ==> !Usable(files[i])
    ensures ScanDir(st, Some(files), nums) == ReadFile(st, files[k].value, nums)
    ensures ScanDir(st, Some(files[..k + 1] + rest), nums) == ScanDir(st, Some(files), nums)
  {
    FirstUsableAt(files, k);
    FirstUsableAt(files[..k + 1] + rest, k);
  }

  /** Once coverage is known, no later directory is read. */
  lemma {:induction false} LaterDirsIgnored(st: SonarState, dirs: seq<Dir>, more: seq<Dir>, nums: Numbers)
    requires st.coverage.None?
    requires ScanDirs(st, dirs, nums).coverage.Some?
    ensures ScanDirs(st, dirs + more, nums) == ScanDirs(st, dirs, nums)
    decreases |dirs|
  {
    if dirs != [] {
      assert (dirs + more)[0] == dirs[0] && (dirs + more)[1..] == dirs[1..] + more;
      var next := ScanDir(st, dirs[0], nums);
      if next.coverage.None? {
        LaterDirsIgnored(next, dirs[1..], more, nums);
      }
    }
  }

  /** Reading a file never turns a known coverage back into "N/A". */
  lemma {:induction false} MeasuresKeepCoverage(st: SonarState, ms: seq<Json>, nums: Numbers)
    requires st.coverage.Some?
    ensures Measures(st, ms, nums).coverage.Some?
  {
    if ms != [] {
      MeasuresKeepCoverage(st, ms[..|ms| - 1], nums);
    }
  }

  lemma CoverageKept(st: SonarState, dirs: seq<Dir>, nums: Numbers)
    requires st.coverage.Some?
    ensures ScanDirs(st, dirs, nums).coverage.Some?
  {
    if dirs != [] {
      var next := ScanDir(st, dirs[0], nums);
      if dirs[0].Some? && FirstUsable(dirs[0].value).Some? {
        var data := FirstUsable(dirs[0].value).value;
        if HasKey(data, "component") && HasKey(data.fields["component"], "measures") {
          MeasuresKeepCoverage(st, Items(data.fields["component"].fields["measures"]), nums);
        }
      }
      assert next.coverage.Some?;
    }
  }

  /** `has_data` holds exactly when coverage was found; the status is `warning`
      without it, otherwise judged on the one-decimal coverage. */
  lemma ScanStatus(dirs: seq<Dir>, nums: Numbers)
    ensures var s := Scan(dirs, nums);
      && (s.hasData <==> s.coverage.Some?)
      && (s.status == Good <==> s.hasData && s.coverage.value >= 900)
      && (s.status == Warning <==> !s.hasData || 700 <= s.coverage.value < 900)
      && (s.status == Critical <==> s.hasData && s.coverage.value < 700)
  {
  }

  /** With no directory present there is no data, and the status is `warning`. */
  lemma NoDirsNoData(dirs: seq<Dir>, nums: Numbers)
    requires forall d :: 0 <= d < |dirs| ==> dirs[d].None?
    ensures !Scan(dirs, nums).hasData && Scan(dirs, nums).status == Warning
  {
    NoDirsKeepStart(Start, dirs, nums);
  }

  lemma {:induction false} NoDirsKeepStart(st: SonarState, dirs: seq<Dir>, nums: Numbers)
    requires st.coverage.None?
    requires forall d :: 0 <= d < |dirs| ==> dirs[d].None?
    ensures ScanDirs(st, dirs, nums) == st
  {
    if dirs != [] {
      NoDirsKeepStart(st, dirs[1..], nums);
    }
  }
}
