/** The chart validation (`analyze_helm_data`): the first usable report supplies the
    resource count and the validity mark; the tool is `good` whenever its directory
    exists. */
module Helm {
  import opened JsonData
  import opened Loader
  import opened Statuses

  /** `resources` and `valid` are `None` where the source shows "N/A"; `valid` is
      the check mark (`true`) or the cross (`false`). */
  datatype HelmSummary = HelmSummary(resources: Option<Json>, valid: Option<bool>, hasData: bool, status: Status)

  /** The fields the first usable report supplies (lines 331-336); a usable report
      that is not a dict supplies none. */
  function Fields(files: seq<Option<Json>>): (Option<Json>, Option<bool>) {
    match FirstUsable(files)
    case Some(JObj(fields)) =>
      var data := JObj(fields);
      (GetShown(data, "resource_count"), Some(Truthy(Get(data, "valid", JBool(true)))))
    case _ => (None, None)
  }

  function Scan(dir: Dir): HelmSummary {
    if dir.None? then HelmSummary(None, None, false, Warning)
    else
      var (resources, valid) := Fields(dir.value);
      HelmSummary(resources, valid, true, Good)
  }

  /** `analyze_helm_data`. */
  method AnalyzeHelm(dir: Dir) returns (s: HelmSummary)
    ensures s == Scan(dir)
  {
    var resources: Option<Json> := None;
    var valid: Option<bool> := None;
    if dir.Some? {
      var files := dir.value;
      var i := 0;
      while i < |files|
        invariant 0 <= i <= |files|
        invariant FirstUsable(files[i..]) == FirstUsable(files)
        invariant resources.None? && valid.None?
      {
        assert files[i..][1..] == files[i + 1..];
        if files[i].Some? && Truthy(files[i].value) {
          var data := files[i].value;
          if data.JObj? {
            resources := GetShown(data, "resource_count");
            valid := Some(Truthy(Get(data, "valid", JBool(true))));
          }
          break;
        }
        i := i + 1;
      }
    }
    s := HelmSummary(resources, valid, dir.Some?, if dir.Some? then Good else Warning);
  }

  /** The status records only whether the directory exists: `good` with it,
      `warning` without, never `critical`; the report's own `valid` flag does not
      enter the status. */
  lemma ScanStatus(dir: Dir)
    ensures Scan(dir).hasData <==> dir.Some?
    ensures Scan(dir).status == Good <==> Scan(dir).hasData
    ensures Scan(dir).status == Warning <==> !Scan(dir).hasData
    ensures Scan(dir).status != Critical
  {
  }

  /** The first usable report decides the fields; a report without `valid` counts
      as valid, and one with a falsy `valid` shows the cross. */
  lemma FirstReportDecides(files: seq<Option<Json>>, k: nat)
    requires k < |files| && Usable(files[k]) && files[k].value.JObj?
    requires forall i :: 0 <= i < k ==> !Usable(files[i])
    ensures Scan(Some(files)).resources == GetShown(files[k].value, "resource_count")
    ensures Scan(Some(files)).valid == Some(!HasKey(files[k].value, "valid") || Truthy(files[k].value.fields["valid"]))
  {
    FirstUsableAt(files, k);
  }

  /** Without a usable report both fields stay "N/A". */
  lemma NoReportNoFields(files: seq<Option<Json>>)
    requires forall i :: 0 <= i < |files| ==> !Usable(files[i])
    ensures Scan(Some(files)) == HelmSummary(None, None, true, Good)
  {
    FirstUsableNone(files);
  }
}
