/** The secret scan (`analyze_trufflehog_data`): TruffleHog writes JSON Lines mixing
    findings with log records; only records with a detector name, the raw match and
    the source location are findings. */
module TruffleHog {
  import opened JsonData
  import opened Loader
  import opened Statuses

  datatype SecretSummary = SecretSummary(
    total: nat,
    verified: nat,
    unverified: nat,
    detectorTypes: nat,
    status: Status)

  /** A dict carrying `DetectorName`, `Raw` and `SourceMetadata`. */
  predicate IsFinding(e: Json) {
    HasKey(e, "DetectorName") && HasKey(e, "Raw") && HasKey(e, "SourceMetadata")
  }

  /** `entry.get('Verified', False)` is truthy. */
  predicate IsVerified(e: Json) {
    Truthy(Get(e, "Verified", JBool(false)))
  }

  /** `entry.get('DetectorName', 'Unknown')`. */
  function DetectorName(e: Json): Json {
    Get(e, "DetectorName", JStr("Unknown"))
  }

  /** The findings among the entries of one JSON Lines file, in order. */
  function EntryFindings(entries: seq<Json>): (r: seq<Json>)
    ensures |r| <= |entries|
    ensures forall f :: f in r ==> IsFinding(f) && f in entries
  {
    if entries == [] then []
    else
      var last := entries[|entries| - 1];
      EntryFindings(entries[..|entries| - 1]) + (if IsFinding(last) then [last] else [])
  }

  /** The findings of one loaded file: the findings among a list's entries, or the
      file itself when it is a single finding. */
  function FileFindings(data: Option<Json>): seq<Json> {
    if !Usable(data) then []
    else match data.value
      case JArr(entries) => EntryFindings(entries)
      case _ => if IsFinding(data.value) then [data.value] else []
  }

  /** The findings of all files, file by file. */
  function Findings(files: seq<Option<Json>>): (r: seq<Json>)
    ensures forall f :: f in r ==> IsFinding(f)
  {
    if files == [] then []
    else Findings(files[..|files| - 1]) + FileFindings(files[|files| - 1])
  }

  function DirFindings(dir: Dir): seq<Json> {
    if dir.None? then [] else Findings(dir.value)
  }

  function CountVerified(fs: seq<Json>): nat {
    if fs == [] then 0
    else CountVerified(fs[..|fs| - 1]) + (if IsVerified(fs[|fs| - 1]) then 1 else 0)
  }

  function CountUnverified(fs: seq<Json>): nat {
    if fs == [] then 0
    else CountUnverified(fs[..|fs| - 1]) + (if IsVerified(fs[|fs| - 1]) then 0 else 1)
  }

  /** The set `detector_types` of detector names seen. */
  function Detectors(fs: seq<Json>): set<Json> {
    set f | f in fs :: DetectorName(f)
  }

  function SecretStatus(verified: nat, unverified: nat): Status {
    Escalate(verified, unverified)
  }

  /** The summary the secret scan reports for a directory. */
  function Scan(dir: Dir): SecretSummary {
    var fs := DirFindings(dir);
    SecretSummary(|fs|, CountVerified(fs), CountUnverified(fs), |Detectors(fs)|,
                  SecretStatus(CountVerified(fs), CountUnverified(fs)))
  }

  /** The running counters of the scan loop. */
  datatype Counters = Counters(total: nat, verified: nat, unverified: nat, detectors: set<Json>)

  /** The counters hold the counts of the findings `seen` so far. */
  predicate Tracks(c: Counters, seen: seq<Json>) {
    c.total == |seen| && c.verified == CountVerified(seen) && c.unverified == CountUnverified(seen)
    && c.detectors == Detectors(seen)
  }

  /** Counting one more finding (lines 65-70). */
  method Record(e: Json, c: Counters, ghost seen: seq<Json>) returns (c': Counters)
    requires Tracks(c, seen)
    ensures Tracks(c', seen + [e])
  {
    assert (seen + [e])[..|seen|] == seen;
    var verified, unverified := c.verified, c.unverified;
    if IsVerified(e) {
      verified := verified + 1;
    } else {
      unverified := unverified + 1;
    }
    c' := Counters(c.total + 1, verified, unverified, c.detectors + {DetectorName(e)});
  }

  /** Counting the findings of one loaded file (lines 56-81). */
  method RecordFile(data: Option<Json>, c: Counters, ghost seen: seq<Json>) returns (c': Counters)
    requires Tracks(c, seen)
    ensures Tracks(c', seen + FileFindings(data))
  {
    c' := c;
    if data.Some? && Truthy(data.value) {
      if data.value.JArr? {
        var entries := data.value.items;
        ghost var acc := seen;
        assert entries[..0] == [] && seen + [] == seen;
        var j := 0;
        while j < |entries|
          invariant 0 <= j <= |entries|
          invariant acc == seen + EntryFindings(entries[..j])
          invariant Tracks(c', acc)
        {
          var entry := entries[j];
          assert entries[..j + 1][..j] == entries[..j];
          if IsFinding(entry) {
            c' := Record(entry, c', acc);
            acc := acc + [entry];
          }
          j := j + 1;
        }
        assert entries[..j] == entries;
      } else if IsFinding(data.value) {
        c' := Record(data.value, c', seen);
      } else {
        assert seen + FileFindings(data) == seen;
      }
    } else {
      assert seen + FileFindings(data) == seen;
    }
  }

  /** `analyze_trufflehog_data`. */
  method AnalyzeTrufflehog(dir: Dir) returns (s: SecretSummary)
    ensures s == Scan(dir)
  {
    var c := Counters(0, 0, 0, {});
    if dir.Some? {
      var files := dir.value;
      assert files[..0] == [];
      var i := 0;
      while i < |files|
        invariant 0 <= i <= |files|
        invariant Tracks(c, Findings(files[..i]))
      {
        assert files[..i + 1][..i] == files[..i];
        c := RecordFile(files[i], c, Findings(files[..i]));
        i := i + 1;
      }
      assert files[..i] == files;
    }
    s := SecretSummary(c.total, c.verified, c.unverified, |c.detectors|, SecretStatus(c.verified, c.unverified));
  }

  /** Every finding is either verified or not. */
  lemma {:induction false} CountsSplit(fs: seq<Json>)
    ensures CountVerified(fs) + CountUnverified(fs) == |fs|
  {
    if fs != [] {
      CountsSplit(fs[..|fs| - 1]);
    }
  }

  /** Each finding adds at most one detector name. */
  lemma {:induction false} DetectorsBounded(fs: seq<Json>)
    ensures |Detectors(fs)| <= |fs|
  {
    if fs != [] {
      var init := fs[..|fs| - 1];
      DetectorsBounded(init);
      assert fs == init + [fs[|fs| - 1]];
      assert Detectors(fs) == Detectors(init) + {DetectorName(fs[|fs| - 1])};
    }
  }

  /** Some finding is verified exactly when the verified count is non-zero. */
  lemma {:induction false} VerifiedPositive(fs: seq<Json>)
    ensures CountVerified(fs) > 0 <==> exists f :: f in fs && IsVerified(f)
  {
    if fs != [] {
      var init := fs[..|fs| - 1];
      VerifiedPositive(init);
      assert fs == init + [fs[|fs| - 1]];
    }
  }

  /** The counters of the secret scan: `total = verified + unverified` and there are
      no more detector types than findings. */
  lemma ScanCounters(dir: Dir)
    ensures Scan(dir).total == Scan(dir).verified + Scan(dir).unverified
    ensures Scan(dir).detectorTypes <= Scan(dir).total
  {
    CountsSplit(DirFindings(dir));
    DetectorsBounded(DirFindings(dir));
  }

  /** The status in terms of the findings: `critical` iff some finding is verified,
      `good` iff there is no finding at all, `warning` otherwise. */
  lemma ScanStatus(dir: Dir)
    ensures Scan(dir).status == Critical <==> exists f :: f in DirFindings(dir) && IsVerified(f)
    ensures Scan(dir).status == Good <==> DirFindings(dir) == []
    ensures Scan(dir).status == Warning <==>
              DirFindings(dir) != [] && forall f :: f in DirFindings(dir) ==> !IsVerified(f)
  {
    var fs := DirFindings(dir);
    CountsSplit(fs);
    VerifiedPositive(fs);
  }

  /** Completeness: a finding inside a usable list file, or a usable file that is
      itself a finding, is counted. */
  lemma {:induction false} FindingCounted(files: seq<Option<Json>>, i: nat, e: Json)
    requires i < |files| && Usable(files[i])
    requires (files[i].value.JArr? && e in files[i].value.items) || (!files[i].value.JArr? && e == files[i].value)
    requires IsFinding(e)
    ensures e in Findings(files)
  {
    var init := files[..|files| - 1];
    if i < |files| - 1 {
      assert init[i] == files[i];
      FindingCounted(init, i, e);
    } else if files[i].value.JArr? {
      EntryFindingsComplete(files[i].value.items, e);
    }
  }

  lemma {:induction false} EntryFindingsComplete(entries: seq<Json>, e: Json)
    requires e in entries && IsFinding(e)
    ensures e in EntryFindings(entries)
  {
    var init := entries[..|entries| - 1];
    if e != entries[|entries| - 1] {
      assert entries == init + [entries[|entries| - 1]];
      EntryFindingsComplete(init, e);
    }
  }

  /** A file holding one verified finding: one secret, verified, `critical`. */
  lemma SingleVerifiedFinding(finding: Json)
    requires IsFinding(finding) && IsVerified(finding)
    ensures Scan(Some([Some(finding)])) == SecretSummary(1, 1, 0, 1, Critical)
  {
    assert "DetectorName" in finding.fields;
    assert Truthy(finding) by {
      assert finding.fields != map[];
    }
    assert FileFindings(Some(finding)) == [finding];
    var files := [Some(finding)];
    assert files[..0] == [];
    var fs := DirFindings(Some(files));
    assert fs == [finding] by {
      assert fs == Findings([]) + [finding];
    }
    assert fs[..0] == [];
    assert Detectors(fs) == {DetectorName(finding)};
    assert CountVerified(fs) == 1;
    assert CountUnverified(fs) == 0;
  }
}
