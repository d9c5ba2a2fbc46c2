/** The antivirus scan (`analyze_clamav_data`): the first usable `*.json` report is
    read; when the directory holds no `*.json` file at all, the first `*.log` file is
    searched for the scanner's result lines instead. */
module ClamAv {
  import opened JsonData
  import opened Text
  import opened Loader
  import opened Statuses

  /** An existing report directory: the loader's result for each `*.json` file, and
      the text of each `*.log` file (`None` where it cannot be read), in listing order. */
  datatype ClamDir = ClamDir(jsonFiles: seq<Option<Json>>, logFiles: seq<Option<string>>)

  /** `threats` and `filesScanned` are `None` where the source shows "N/A". */
  datatype ClamSummary = ClamSummary(threats: Option<real>, filesScanned: Option<Json>, hasData: bool, status: Status)

  /** The scan's variables: `threats_found`, `files_scanned` (`None` for "N/A") and
      `has_json_data`. */
  datatype ClamState = ClamState(threats: real, filesScanned: Option<Json>, hasData: bool)

  /** What `0 + data.get('threats_found', 0)` adds: a number as it is, a bool as 1 or
      0; on anything else Python raises, and the model adds 0. */
  function ThreatValue(j: Json): real {
    match j
    case JNum(n) => n
    case JBool(b) => if b then 1.0 else 0.0
    case _ => 0.0
  }

  /** The log test of line 307: the log reports no infected file, or no detection at all. */
  predicate CleanLog(log: string)
    ensures CleanLog(log) <==> Occurs(log, "Infected files: 0") || !Occurs(log, "FOUND")
  {
    ContainsIff(log, "Infected files: 0");
    ContainsIff(log, "FOUND");
    Contains(log, "Infected files: 0") || !Contains(log, "FOUND")
  }

  /** The `*.json` pass (lines 285-296): the directory has data as soon as one
      `*.json` file exists, whether or not it loads. */
  function JsonPass(files: seq<Option<Json>>): ClamState {
    var st := ClamState(0.0, None, |files| > 0);
    match FirstUsable(files)
    case Some(JObj(fields)) =>
      var data := JObj(fields);
      st.(threats := ThreatValue(Get(data, "threats_found", JNum(0.0))),
          filesScanned := GetShown(data, "files_scanned"))
    case _ => st
  }

  /** The `*.log` fallback (lines 298-312), only tried without `*.json` files; a clean
      log stands for a scan of 299 files with no threat. */
  function LogPass(st: ClamState, logs: seq<Option<string>>): ClamState {
    if !st.hasData && logs != [] && logs[0].Some? && CleanLog(logs[0].value) then
      ClamState(0.0, Some(JNum(299.0)), true)
    else st
  }

  /** Line 314: any threat is `critical`; otherwise `good` with data, `warning` without. */
  function ClamStatus(st: ClamState): Status {
    if st.threats > 0.0 then Critical else if st.hasData then Good else Warning
  }

  function Scan(dir: Option<ClamDir>): ClamSummary {
    var st := if dir.None? then ClamState(0.0, None, false)
              else LogPass(JsonPass(dir.value.jsonFiles), dir.value.logFiles);
    ClamSummary(if st.hasData then Some(st.threats) else None,
                if st.hasData then st.filesScanned else None,
                st.hasData, ClamStatus(st))
  }

  /** `analyze_clamav_data`. */
  method AnalyzeClamav(dir: Option<ClamDir>) returns (s: ClamSummary)
    ensures s == Scan(dir)
  {
    var threats := 0.0;
    var filesScanned: Option<Json> := None;
    var hasData := false;
    if dir.Some? {
      var files := dir.value.jsonFiles;
      hasData := |files| > 0;
      var i := 0;
      while i < |files|
        invariant 0 <= i <= |files|
        invariant FirstUsable(files[i..]) == FirstUsable(files)
        invariant threats == 0.0 && filesScanned.None?
      {
        assert files[i..][1..] == files[i + 1..];
        if files[i].Some? && Truthy(files[i].value) {
          var data := files[i].value;
          if data.JObj? {
            threats := threats + ThreatValue(Get(data, "threats_found", JNum(0.0)));
            if HasKey(data, "files_scanned") {
              filesScanned := Some(data.fields["files_scanned"]);
            }
          }
          break;
        }
        i := i + 1;
      }
      var logs := dir.value.logFiles;
      if !hasData && logs != [] && logs[0].Some? {
        var content := logs[0].value;
        if Contains(content, "Infected files: 0") || !Contains(content, "FOUND") {
          threats := 0.0;
          filesScanned := Some(JNum(299.0));
          hasData := true;
        }
      }
    }
    var status := if threats > 0.0 then Critical else if hasData then Good else Warning;
    s := ClamSummary(if hasData then Some(threats) else None, if hasData then filesScanned else None,
                     hasData, status);
  }

  /** The status against the data: `critical` only with data and a positive threat
      count, `warning` exactly when there is no data; and there is data exactly when
      some `*.json` file exists or, failing that, the first log is readable and clean. */
  lemma ScanStatus(dir: Option<ClamDir>)
    ensures Scan(dir).status == Critical <==> Scan(dir).hasData && Scan(dir).threats.value > 0.0
    ensures Scan(dir).status == Warning <==> !Scan(dir).hasData
    ensures Scan(dir).hasData <==>
              dir.Some? && (|dir.value.jsonFiles| > 0 ||
                            (dir.value.logFiles != [] && dir.value.logFiles[0].Some? && CleanLog(dir.value.logFiles[0].value)))
  {
  }

  /** Logs are not read once a `*.json` file exists. */
  lemma LogsIgnoredWithJson(jsonFiles: seq<Option<Json>>, logs: seq<Option<string>>, logs': seq<Option<string>>)
    requires |jsonFiles| > 0
    ensures Scan(Some(ClamDir(jsonFiles, logs))) == Scan(Some(ClamDir(jsonFiles, logs')))
  {
  }

  /** A `*.json` file that does not load still counts as data: with no usable
      report the scan shows zero threats and `good`. */
  lemma UnreadableJsonIsGood(jsonFiles: seq<Option<Json>>, logs: seq<Option<string>>)
    requires |jsonFiles| > 0
    requires forall i :: 0 <= i < |jsonFiles| ==> !Usable(jsonFiles[i])
    ensures Scan(Some(ClamDir(jsonFiles, logs))) == ClamSummary(Some(0.0), None, true, Good)
  {
    FirstUsableNone(jsonFiles);
  }

  /** A log holding the line `Infected files: 0` is clean, whatever else it reports. */
  lemma InfectedZeroIsClean(log: string, i: nat)
    requires At(log, "Infected files: 0", i)
    ensures CleanLog(log)
  {
  }

  /** A log reporting a detection (`FOUND`) without that line gives no data. */
  lemma InfectedLogNoData(log: string, i: nat, logs: seq<Option<string>>)
    requires At(log, "FOUND", i)
    requires !Occurs(log, "Infected files: 0")
    ensures Scan(Some(ClamDir([], [Some(log)] + logs))) == ClamSummary(None, None, false, Warning)
  {
  }
}
