/** The end-of-life scan (`analyze_xeol_data`): the number of end-of-life matches
    over all reports. */
module Xeol {
  import opened JsonData
  import opened Loader
  import opened Statuses

  datatype XeolSummary = XeolSummary(eolPackages: nat, status: Status)

  /** `len(data.get('matches', []))` of a usable report. */
  function FileEol(data: Option<Json>): nat {
    if Usable(data) then Len(Get(data.value, "matches", EmptyList)) else 0
  }

  function EolCount(files: seq<Option<Json>>): nat {
    if files == [] then 0 else EolCount(files[..|files| - 1]) + FileEol(files[|files| - 1])
  }

  function Scan(dir: Dir): XeolSummary {
    var n := if dir.None? then 0 else EolCount(dir.value);
    XeolSummary(n, if n > 0 then Warning else Good)
  }

  /** `analyze_xeol_data`. */
  method AnalyzeXeol(dir: Dir) returns (s: XeolSummary)
    ensures s == Scan(dir)
  {
    var eolPackages := 0;
    if dir.Some? {
      var files := dir.value;
      var i := 0;
      while i < |files|
        invariant 0 <= i <= |files|
        invariant eolPackages == EolCount(files[..i])
      {
        assert files[..i + 1][..i] == files[..i];
        var data := files[i];
        if data.Some? && Truthy(data.value) {
          var matches := Get(data.value, "matches", EmptyList);
          eolPackages := eolPackages + Len(matches);
        }
        i := i + 1;
      }
      assert files[..i] == files;
    }
    s := XeolSummary(eolPackages, if eolPackages > 0 then Warning else Good);
  }

  /** The count is non-zero exactly when some report has a match. */
  lemma {:induction false} EolPositive(files: seq<Option<Json>>)
    ensures EolCount(files) > 0 <==> exists i :: 0 <= i < |files| && FileEol(files[i]) > 0
  {
    if files != [] {
      var n := |files| - 1;
      EolPositive(files[..n]);
      if EolCount(files[..n]) > 0 {
        var i :| 0 <= i < n && FileEol(files[..n][i]) > 0;
        assert files[i] == files[..n][i];
      }
      if exists i :: 0 <= i < |files| && FileEol(files[i]) > 0 {
        var i :| 0 <= i < |files| && FileEol(files[i]) > 0;
        if i < n {
          assert files[..n][i] == files[i];
        }
      }
    }
  }

  /** `warning` exactly when some report lists an end-of-life match; a missing
      directory gives 0 and `good`. Only `warning` or `good` is ever reported. */
  lemma ScanStatus(dir: Dir)
    ensures Scan(dir).status != Critical
    ensures Scan(dir).status == Warning <==>
              dir.Some? && exists i :: 0 <= i < |dir.value| && FileEol(dir.value[i]) > 0
    ensures dir.None? ==> Scan(dir) == XeolSummary(0, Good)
  {
    if dir.Some? {
      EolPositive(dir.value);
    }
  }
}
