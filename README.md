# Security dashboard generator: verified model of the analysis core

This project models the analysis core of `SecurityDashboardGenerator` in
`scripts/generate-dynamic-dashboard.py`. That is everything that turns the scanners'
report files into the numbers and verdicts the dashboard shows. It has three parts.

- **Safe loader** (`load_json_safely`). A report file is parsed whole. If that fails,
  it is read as JSON Lines: the non-blank lines that parse are kept, in order. If
  nothing parses, the result is "no value".
- **Eight normalizers** (`analyze_*_data`):
  - the secret scan (TruffleHog);
  - two vulnerability scans with severity histograms (Grype, Trivy);
  - the infrastructure-as-code policy scan with its pass rate (Checkov);
  - the end-of-life scan (Xeol);
  - the code-quality scan, which searches two directories and takes the first usable file (SonarQube);
  - the antivirus scan, which falls back from JSON to a log (ClamAV);
  - the chart validation (Helm).

  Each folds one tool's loaded files into counters and grades them `good`, `warning`
  or `critical`.
- **Aggregator.** It replaces the "no data" tools' status with `good`, then picks
  `CRITICAL` if any tool is critical, otherwise `WARNING` if any warns, otherwise
  `GOOD`. Each level has a fixed CSS class and message.

The source's loops become methods with loop invariants. They cover:
- the loader's line loop;
- each normalizer's walk over files and entries, in its own method;
- the in-place `severity_counts[severity] += 1` and `detector_types.add`;
- the `break`-terminated "first file wins" searches.

Each method is proved equal to a specification function of its inputs. The
properties the source promises are proved as lemmas about those functions.

Modules and files:

| file | module | models |
|---|---|---|
| `json.dfy` | `JsonData` | parsed JSON values, Python truthiness, `dict.get`, `len` |
| `text.dfy` | `Text` | `str.strip`, `str.split('\n')`, `str.lower`, substring test |
| `loader.dfy` | `Loader` | `load_json_safely`, report directories, "first usable file" |
| `status.dfy` | `Statuses`, `Histogram` | the three-valued status, the severity-bucket fold |
| `trufflehog.dfy` | `TruffleHog` | `analyze_trufflehog_data` |
| `grype.dfy` | `Grype` | `analyze_grype_data` |
| `trivy.dfy` | `Trivy` | `analyze_trivy_data` |
| `checkov.dfy` | `Checkov` | `analyze_checkov_data` |
| `xeol.dfy` | `Xeol` | `analyze_xeol_data` |
| `sonarqube.dfy` | `SonarQube` | `analyze_sonarqube_data` |
| `clamav.dfy` | `ClamAv` | `analyze_clamav_data` |
| `helm.dfy` | `Helm` | `analyze_helm_data` |
| `overall.dfy` | `Overall` | the status vote and level selection |
| `dashboard.dfy` | `Generator` | the analyses and verdict of `generate_dashboard_html` |

Inputs the model takes as parameters:
- A report directory is `Option<seq<Option<Json>>>`. `None` means the directory does
  not exist. Otherwise it holds the loader's result for each file its glob matches,
  in listing order.
- The Grype directory also carries its number of `sbom-*.json` files.
- The ClamAV directory carries its `*.json` results and its `*.log` texts separately.
- `json.loads` is the parameter `parse: string -> Option<Json>`, with `None` where it
  raises.
- The code-quality scan's number handling is the parameter `Numbers`:
  - `tenths(x)` is the value `f"{x:.1f}"` shows, in tenths of a percent;
  - `parseFloat(s)` is `float(s)`.

## Behaviour worth knowing

The model follows the code in each of these places.

- **Code-quality scan, first file.** In each directory the code stops at the first
  truthy file, whether or not its shape is recognised (line 251). A later file in the
  right shape is never read. `FirstFileWins` states this.
- **Code-quality scan, next directory.** The next directory is tried whenever coverage
  is still unknown (line 252). That includes a first directory that supplied only an
  issue count.
- **Antivirus scan.** The existence of any `*.json` file counts as data, even when
  none of them loads (lines 286-287). Such a directory reports zero threats and `good`
  (`UnreadableJsonIsGood`), and its logs are never read (`LogsIgnoredWithJson`).
- **Compliance scan.** It has no "no data" case: zero checks, a missing directory
  included, gives a 0% pass rate and `critical` (lines 173-177). So an empty reports
  directory gives an overall `CRITICAL` verdict (`NoReportsIsCritical`).
- **Container scan.** `scanned_targets` counts every truthy report, including ones
  without a `Results` list (line 135).

## Model

| member | source | states |
|---|---|---|
| Loader.LoadJsonSafely | scripts/generate-dynamic-dashboard.py:19-39 | The loader method returns `Load(parse, content)`: the stripped content parsed whole, or else the values of the non-blank lines that parse, or "no value". |
| Loader.LoadContract | scripts/generate-dynamic-dashboard.py:26-39 | A document that parses whole is returned unchanged. In the fallback, the result is "no value" exactly when no non-blank line parses. Otherwise it is a non-empty list of exactly the parsed lines' values, never an empty list. |
| Loader.ParsedLines | scripts/generate-dynamic-dashboard.py:32-38 | The JSON Lines pass yields at most one value per line. |
| Loader.ParsedLinesAppend | scripts/generate-dynamic-dashboard.py:32-38 | The JSON Lines pass keeps the original order: the values of a concatenation are the first part's values followed by the second part's. |
| Loader.ParsedLinesSound | scripts/generate-dynamic-dashboard.py:33-36 | Every collected value is the parse of some non-blank line. |
| Loader.ParsedLinesComplete | scripts/generate-dynamic-dashboard.py:33-36 | Every non-blank line that parses contributes its value. |
| Loader.ParsedLinesEmpty | scripts/generate-dynamic-dashboard.py:39 | Nothing is collected exactly when no non-blank line parses. |
| Loader.BlankFileIsAbsent | scripts/generate-dynamic-dashboard.py:23-39 | A whitespace-only file yields "no value" when the empty document does not parse. |
| Loader.LoadJsonLines | scripts/generate-dynamic-dashboard.py:30-39 | Newline-free records that do not parse as one joined document come back as exactly the records that parse, in order. |
| Loader.FirstUsable | scripts/generate-dynamic-dashboard.py:224-251 | "Use first valid file found": a file picked by the search is always truthy. |
| Loader.FirstUsableAt | scripts/generate-dynamic-dashboard.py:224-251 | The search picks the file at the first truthy index, whatever follows it. |
| Loader.FirstUsableNone | scripts/generate-dynamic-dashboard.py:224-251 | The search finds nothing exactly when no file loaded to a truthy value. |
| Loader.LoadDirectory | scripts/generate-dynamic-dashboard.py:54-55 | An absent directory stays absent. A present one yields one loader result per listed file, in listing order, with "no value" for a missing file. |
| JsonData.FalsyValues | scripts/generate-dynamic-dashboard.py:56 | `if data:` rejects exactly null, false, 0, the empty string, the empty list and the empty dict (also at lines 101, 134, 167, 196, 226, 291, 332). |
| JsonData.GetOrDefault | scripts/generate-dynamic-dashboard.py:102 | `d.get(key, default)` yields the stored value when `d` is a dict holding `key`, and the default otherwise. |
| JsonData.GetShownAgrees | scripts/generate-dynamic-dashboard.py:334 | `d.get(key, 'N/A')` shows a value exactly when `d` is a dict holding `key`, and then the same value `.get` with any default returns. |
| JsonData.LenIsSize | scripts/generate-dynamic-dashboard.py:103 | `len` of a list is its number of elements; for a list, dict or string it is zero exactly when the value is falsy. |
| JsonData.ItemsOfList | scripts/generate-dynamic-dashboard.py:105 | `for x in value` visits a list's elements in order, all `len(value)` of them, and nothing for any other value; it visits something only in a truthy value. |
| Text.Strip | scripts/generate-dynamic-dashboard.py:23 | `strip()` never lengthens its input and neither starts nor ends with whitespace. It is empty exactly when the input is all whitespace. |
| Text.StripInfix | scripts/generate-dynamic-dashboard.py:23 | `strip()` returns the input with exactly its leading and trailing whitespace removed: the slice of the input at some index, with only whitespace before and after it. |
| Text.TrimStart | scripts/generate-dynamic-dashboard.py:23 | The leading-whitespace strip returns a suffix of its input, preceded only by whitespace, that does not start with whitespace. |
| Text.TrimEnd | scripts/generate-dynamic-dashboard.py:23 | The trailing-whitespace strip returns a prefix of its input, followed only by whitespace, that does not end with whitespace. |
| Text.Split | scripts/generate-dynamic-dashboard.py:30 | `split('\n')` gives at least one piece, and no piece contains a newline. |
| Text.JoinSplit | scripts/generate-dynamic-dashboard.py:30 | Joining the pieces of `split('\n')` with newlines gives the text back. |
| Text.SplitJoin | scripts/generate-dynamic-dashboard.py:30 | Splitting the newline-join of newline-free pieces gives those pieces back. |
| Text.SplitPrefix | scripts/generate-dynamic-dashboard.py:30 | Prepending a newline-free string to a text extends the first piece of its split. |
| Text.Lower | scripts/generate-dynamic-dashboard.py:107 | `lower()` keeps the length and lower-cases character by character. |
| Text.ContainsAt | scripts/generate-dynamic-dashboard.py:307 | The substring test holds whenever the pattern occurs at some index. |
| Text.ContainsOnlyAt | scripts/generate-dynamic-dashboard.py:307 | The substring test holds only where the pattern occurs, and yields an index of an occurrence. |
| Text.ContainsIff | scripts/generate-dynamic-dashboard.py:307 | The substring test holds exactly when the pattern occurs at some index. |
| Statuses.Escalate | scripts/generate-dynamic-dashboard.py:88 | The escalation rule shared by the secret and vulnerability scans: `critical` iff the first counter is positive, `warning` iff it is zero and the second is positive, `good` iff both are zero. |
| Histogram.Apply | scripts/generate-dynamic-dashboard.py:108-109 | Incrementing buckets never adds or removes a bucket. |
| Histogram.Count | scripts/generate-dynamic-dashboard.py:108-109 | A bucket's reference count never exceeds the number of findings. |
| Histogram.ApplyAppend | scripts/generate-dynamic-dashboard.py:105-109 | Counting over files in turn equals counting over their concatenation. |
| Histogram.ApplyCounts | scripts/generate-dynamic-dashboard.py:108-109 | Each bucket grows by exactly the number of findings whose severity is its name. |
| Histogram.CountPositive | scripts/generate-dynamic-dashboard.py:115 | A bucket is non-zero exactly when some finding has that severity. |
| Histogram.BucketsBounded | scripts/generate-dynamic-dashboard.py:95 | Four distinct buckets together count no more than the number of findings. |
| TruffleHog.AnalyzeTrufflehog | scripts/generate-dynamic-dashboard.py:45-89 | The secret-scan method returns `Scan(dir)`: the counts, detector types and status of the findings of all truthy files. |
| TruffleHog.RecordFile | scripts/generate-dynamic-dashboard.py:56-81 | After one file, the counters track the findings seen so far followed by that file's findings. |
| TruffleHog.Record | scripts/generate-dynamic-dashboard.py:65-70 | Counting one finding extends the tracked findings by it. |
| TruffleHog.EntryFindings | scripts/generate-dynamic-dashboard.py:59-64 | Only entries of the file that carry `DetectorName`, `Raw` and `SourceMetadata` are counted, and no more than there are entries. |
| TruffleHog.Findings | scripts/generate-dynamic-dashboard.py:54-81 | Every counted finding carries the three fields. |
| TruffleHog.FindingCounted | scripts/generate-dynamic-dashboard.py:58-81 | A finding inside a truthy list file, or a truthy file that is itself a finding, is counted. |
| TruffleHog.EntryFindingsComplete | scripts/generate-dynamic-dashboard.py:59-65 | Every entry carrying the three fields is counted. |
| TruffleHog.CountsSplit | scripts/generate-dynamic-dashboard.py:65-80 | Every finding is counted as exactly one of verified or unverified. |
| TruffleHog.DetectorsBounded | scripts/generate-dynamic-dashboard.py:70 | There are no more detector types than findings. |
| TruffleHog.VerifiedPositive | scripts/generate-dynamic-dashboard.py:66-67 | The verified count is positive exactly when some finding is verified. |
| TruffleHog.ScanCounters | scripts/generate-dynamic-dashboard.py:83-87 | `total = verified + unverified` and `detector_types <= total`. |
| TruffleHog.ScanStatus | scripts/generate-dynamic-dashboard.py:88 | The secret scan is `critical` iff some finding is verified, `good` iff there is no finding, and `warning` iff there are findings and none is verified. |
| TruffleHog.SingleVerifiedFinding | scripts/generate-dynamic-dashboard.py:71-81 | A file holding one verified finding gives one secret, one verified, none unverified, one detector type, `critical`. |
| Grype.AnalyzeGrype | scripts/generate-dynamic-dashboard.py:91-122 | The Grype method returns `Scan(dir)`: the total matches, the case-insensitive severity buckets, the SBOM count and the status. |
| Grype.ScanReport | scripts/generate-dynamic-dashboard.py:100-109 | One report adds `len(matches)` to the total and increments the buckets for its matches' lower-cased severities. |
| Grype.CountMatches | scripts/generate-dynamic-dashboard.py:105-109 | The match loop leaves the buckets incremented for each match's severity, in order. |
| Grype.MatchSeverities | scripts/generate-dynamic-dashboard.py:105-107 | Each match contributes exactly one severity. |
| Grype.SeveritiesWithinTotal | scripts/generate-dynamic-dashboard.py:102-109 | Severities are read only from matches counted in the total. |
| Grype.BucketsWithinTotal | scripts/generate-dynamic-dashboard.py:95-109 | The buckets are exactly critical/high/medium/low, and their sum never exceeds the total. |
| Grype.ScanStatus | scripts/generate-dynamic-dashboard.py:115 | Grype is `critical` iff some match is critical, and `warning` iff none is critical but some is high. |
| Grype.MatchSeverityIgnoresCase | scripts/generate-dynamic-dashboard.py:107 | A severity spelled `critical` in any mix of cases lands in the `critical` bucket. |
| Trivy.AnalyzeTrivy | scripts/generate-dynamic-dashboard.py:124-155 | The Trivy method returns `Scan(dir)`: the total vulnerabilities, the exact-case severity buckets, the scanned targets and the status. |
| Trivy.CountResults | scripts/generate-dynamic-dashboard.py:138-145 | The results loop adds each result's `len(Vulnerabilities)` to the total and increments the buckets for their severities. |
| Trivy.CountVulnerabilities | scripts/generate-dynamic-dashboard.py:142-145 | The vulnerability loop increments the buckets for each vulnerability's severity, in order. |
| Trivy.VulnSeverities | scripts/generate-dynamic-dashboard.py:142-143 | Each vulnerability contributes exactly one severity. |
| Trivy.Scanned | scripts/generate-dynamic-dashboard.py:134-135 | There are never more scanned targets than files. |
| Trivy.ResultSeveritiesWithinTotal | scripts/generate-dynamic-dashboard.py:138-145 | Within a report, severities come only from vulnerabilities counted in the total. |
| Trivy.SeveritiesWithinTotal | scripts/generate-dynamic-dashboard.py:132-145 | Across reports, severities come only from vulnerabilities counted in the total. |
| Trivy.ScanCounters | scripts/generate-dynamic-dashboard.py:128-145 | The buckets are exactly CRITICAL/HIGH/MEDIUM/LOW and their sum never exceeds the total. The scanned targets are the truthy reports. |
| Trivy.ScannedCountsUsable | scripts/generate-dynamic-dashboard.py:134-135 | `scanned_targets` equals the number of files that loaded to a truthy value. |
| Trivy.ScanStatus | scripts/generate-dynamic-dashboard.py:148 | Trivy is `critical` iff some vulnerability's severity is exactly `CRITICAL`, and `warning` iff none is but some is exactly `HIGH`. |
| Trivy.HighAndLow | scripts/generate-dynamic-dashboard.py:131-148 | One result with a HIGH and a LOW vulnerability gives a total of 2, buckets {CRITICAL 0, HIGH 1, MEDIUM 0, LOW 1}, one target, `warning`. |
| Checkov.AnalyzeCheckov | scripts/generate-dynamic-dashboard.py:157-185 | The Checkov method returns `Scan(dir)`: checks summed across truthy reports, the pass rate and the status. |
| Checkov.RateBelow | scripts/generate-dynamic-dashboard.py:174-177 | A threshold test on the pass rate equals the integer test `passed*100 < threshold*total`. |
| Checkov.RateIsPercentage | scripts/generate-dynamic-dashboard.py:173-174 | The pass rate lies between 0 and 100. |
| Checkov.ScanStatus | scripts/generate-dynamic-dashboard.py:173-177 | Checkov is `critical` iff there are no checks or under 70% pass, `warning` iff 70% up to under 90% pass, and `good` iff at least 90% pass. All three are stated in integers. |
| Checkov.NoChecksIsCritical | scripts/generate-dynamic-dashboard.py:164-177 | A missing directory, or one without a truthy report, gives a 0% pass rate and `critical`. |
| Checkov.NoUsableNoChecks | scripts/generate-dynamic-dashboard.py:164-171 | Without a truthy report, every check count is zero. |
| Checkov.EightOfTen | scripts/generate-dynamic-dashboard.py:164-177 | A report with 8 passed, 2 failed and no skipped checks gives a pass rate of 80 and `warning`. |
| Xeol.AnalyzeXeol | scripts/generate-dynamic-dashboard.py:187-207 | The Xeol method returns `Scan(dir)`: the sum of `len(matches)` over truthy reports and the status. |
| Xeol.EolPositive | scripts/generate-dynamic-dashboard.py:196-202 | The end-of-life count is positive exactly when some report has matches. |
| Xeol.ScanStatus | scripts/generate-dynamic-dashboard.py:193-202 | Xeol is never `critical`. It is `warning` iff some report has end-of-life matches, and a missing directory gives 0 and `good`. |
| SonarQube.AnalyzeSonarqube | scripts/generate-dynamic-dashboard.py:222-266 | The SonarQube method returns `Scan(dirs)`: the candidate directories in order, the first truthy file of each, stopping once coverage is known. |
| SonarQube.ReadSonarFile | scripts/generate-dynamic-dashboard.py:227-249 | One file is read as the custom format, the measures format or the issues format, or changes nothing. |
| SonarQube.ReadMeasures | scripts/generate-dynamic-dashboard.py:240-245 | The measures loop applies each `coverage` and `tests` measure in order; later measures overwrite earlier ones. |
| SonarQube.FirstFileWins | scripts/generate-dynamic-dashboard.py:224-251 | The first truthy file alone decides a directory's contribution, even when its shape is unrecognised. The files after it are never read. |
| SonarQube.LaterDirsIgnored | scripts/generate-dynamic-dashboard.py:252-253 | Once coverage is found, appending more candidate directories changes nothing. |
| SonarQube.MeasuresKeepCoverage | scripts/generate-dynamic-dashboard.py:241-245 | The measures loop never turns a known coverage back into "N/A". |
| SonarQube.CoverageKept | scripts/generate-dynamic-dashboard.py:222-253 | A known coverage stays known through the directory search. |
| SonarQube.ScanStatus | scripts/generate-dynamic-dashboard.py:256-266 | `has_data` holds iff coverage was found. SonarQube is `good` iff it has data and coverage is at least 90.0%, `warning` iff it has no data or coverage is from 70.0% up to under 90.0%, and `critical` iff it has data and coverage is under 70.0%. |
| SonarQube.NoDirsNoData | scripts/generate-dynamic-dashboard.py:222-266 | With neither candidate directory present, there is no data and the status is `warning`. |
| SonarQube.NoDirsKeepStart | scripts/generate-dynamic-dashboard.py:222-223 | Absent directories leave the search's variables untouched. |
| ClamAv.AnalyzeClamav | scripts/generate-dynamic-dashboard.py:277-321 | The ClamAV method returns `Scan(dir)`: the first truthy JSON report, otherwise the log fallback, and the status. |
| ClamAv.ScanStatus | scripts/generate-dynamic-dashboard.py:285-314 | ClamAV is `critical` iff it has data and threats are positive, and `warning` iff it has no data. It has data iff some `*.json` file exists or, failing that, the first log is readable and clean. |
| ClamAv.LogsIgnoredWithJson | scripts/generate-dynamic-dashboard.py:298-299 | Once a `*.json` file exists, the logs do not affect the result. |
| ClamAv.UnreadableJsonIsGood | scripts/generate-dynamic-dashboard.py:285-296 | `*.json` files none of which loads to a truthy value give zero threats, data and `good`. |
| ClamAv.CleanLog | scripts/generate-dynamic-dashboard.py:307 | A log counts as clean exactly when it contains `Infected files: 0` or does not contain `FOUND`. |
| ClamAv.InfectedZeroIsClean | scripts/generate-dynamic-dashboard.py:307 | A log containing `Infected files: 0` is treated as clean. |
| ClamAv.InfectedLogNoData | scripts/generate-dynamic-dashboard.py:305-310 | A log reporting `FOUND` without `Infected files: 0` gives no data and `warning`, with both fields "N/A". |
| Helm.AnalyzeHelm | scripts/generate-dynamic-dashboard.py:323-345 | The Helm method returns `Scan(dir)`: the fields of the first truthy report, with data and status set by the directory's existence. |
| Helm.ScanStatus | scripts/generate-dynamic-dashboard.py:338-343 | Helm has data iff its directory exists. It is `good` iff it has data, `warning` iff it has none, and never `critical`. |
| Helm.FirstReportDecides | scripts/generate-dynamic-dashboard.py:329-335 | The first truthy dict report supplies `resource_count` and the validity mark. A missing `valid` counts as valid. |
| Helm.NoReportNoFields | scripts/generate-dynamic-dashboard.py:326-335 | Without a truthy report, both fields stay "N/A" while the status is still `good`. |
| Overall.Effective | scripts/generate-dynamic-dashboard.py:362-365 | A tool with data votes its own status and a tool without data votes `good`, so a vote is never more severe than the status. |
| Overall.Decide | scripts/generate-dynamic-dashboard.py:372-383 | The verdict is CRITICAL iff some vote is critical, WARNING iff none is critical and some is warning, and GOOD iff all votes are good. Each comes with its fixed class and message. |
| Overall.WorstIsMaximum | scripts/generate-dynamic-dashboard.py:372-383 | The most severe vote is one of the votes and is at least as severe as every vote. |
| Overall.DecideIsWorst | scripts/generate-dynamic-dashboard.py:372-383 | The cascade of membership tests selects the most severe vote. |
| Overall.DecideMonotone | scripts/generate-dynamic-dashboard.py:372-383 | Raising any votes, for example one tool to `critical`, never lowers the verdict. |
| Generator.Generate | scripts/generate-dynamic-dashboard.py:350-383 | The dashboard is the eight analyses together with `Decide` over their votes, in the source's order. |
| Generator.VerdictOfVotes | scripts/generate-dynamic-dashboard.py:361-383 | The verdict of the dashboard is decided by its own eight votes. |
| Generator.QuietTools | scripts/generate-dynamic-dashboard.py:364-365 | ClamAV's effective vote is never `warning`, and Helm's effective vote is always `good`. |
| Generator.VerdictIsWorstVote | scripts/generate-dynamic-dashboard.py:361-383 | The verdict is the banner of the most severe effective vote. |
| Generator.NoReportsIsCritical | scripts/generate-dynamic-dashboard.py:361-383 | An empty reports directory gives CRITICAL, through the compliance scan's 0% pass rate. |
| Generator.VerifiedSecretIsCritical | scripts/generate-dynamic-dashboard.py:361-383 | A verified secret makes the verdict CRITICAL whatever the other tools report. |
| Generator.CriticalVote | scripts/generate-dynamic-dashboard.py:363-372 | A critical secret-scan vote makes the verdict CRITICAL. |
| Generator.GoodVerdict | scripts/generate-dynamic-dashboard.py:361-383 | The verdict is GOOD iff each of the seven tools other than Helm has a `good` effective vote. |
| Generator.GoodVotes | scripts/generate-dynamic-dashboard.py:361-383 | Given Helm's vote is `good`, the vote is GOOD iff the seven other effective votes are `good`. |

## Left out

What the model does not cover:

- **HTML and output.** The HTML template, writing the output file, console printing
  with its encoding fallbacks, `main` and argument handling carry no analysis logic.
- **Timestamps.** They only feed the rendered page.
- **The file system.**
  - `Path.exists`, `glob` and file reading are inputs: a directory is a given listing,
    in a given order.
  - `FileNotFoundError` is a file whose result is "no value".
  - `load_json_safely` catches only `FileNotFoundError` (line 41). A `PermissionError`,
    a directory whose name matches `*.json`, or bytes that do not decode make the
    generator raise. A file is an `Option<string>`, which cannot express these, so
    they are not modelled.
  - An unreadable ClamAV log is `None`; a read error is swallowed by `except: pass`.
- **The JSON grammar.** `json.loads` is the parameter `parse`. Python's acceptance of
  `NaN` and `Infinity` is not modelled.
- **Python's own number types.** `int` and `float` are both `JNum` with a real value,
  and arithmetic on them is exact.
- **Python crash paths.** Where Python would raise, the model gives a total behaviour
  instead; it does not model the exception escaping the generator:
  - `.get` on a value that is not a dict yields the default;
  - `len` of a value that is not a list, dict or string is 0;
  - iterating a non-list visits nothing;
  - a non-string severity is not counted;
  - a non-numeric `threats_found` adds 0;
  - a custom-format SonarQube file whose `statement_coverage` cannot be formatted, or
    whose `test_results` or `coverage` is not a dict, changes nothing: coverage, tests,
    passed tests and issues all keep their values;
  - a SonarQube measure whose value cannot be converted by `float` is skipped.

  In particular, a JSON Lines file (a list) given to the Grype, Checkov or Xeol scan
  contributes nothing. Given to the Trivy scan, it is counted as a scanned target
  (line 135, before the `.get` at line 136 where Python raises), and it contributes
  no vulnerability.
- **Python `in` on JSON values.** A `'key' in data` test applied to a list or string
  is treated as false.
- **Python set equality in TruffleHog.** Python's `detector_types` set treats `True`
  and `1` as equal elements; the model's set of detector names does not. A
  `DetectorName` that is a dict or a list cannot be hashed, so `detector_types.add`
  raises at lines 70 and 81, while `TruffleHog.Record` adds it to the set.
- Text.Lower: only ASCII letters are lower-cased. For matching the four lower-case
  Grype bucket names this agrees with Python's `str.lower`.
- Checkov.AnalyzeCheckov: `passRate` is the exact rate. Its rounding to one decimal,
  which is display-only, is not modelled. The status is judged on the unrounded rate,
  as in the source.
- SonarQube.AnalyzeSonarqube: the coverage is the parameter `tenths`, the number of
  tenths `f"{x:.1f}"` displays. IEEE formatting and the re-parse by `float` are not
  modelled.
- Xeol.AnalyzeXeol: the `eol_items` list the source builds is never read, so the
  model does not build it.
- **No concurrency.** The generator is single-threaded and so is the model.
