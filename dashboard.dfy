/** `generate_dashboard_html` up to the HTML: every tool is analysed and the eight
    votes, in the source's order, decide the overall verdict. */
module Generator {
  import opened JsonData
  import opened Loader
  import opened Statuses
  import opened Overall
  import SonarQube
  import TruffleHog
  import ClamAv
  import Helm
  import Checkov
  import Trivy
  import Grype
  import Xeol

  /** What the reports directory holds for each tool (`None` for a missing directory). */
  datatype Reports = Reports(
    sonarReports: Dir,
    sonarRaw: Dir,
    trufflehog: Dir,
    clamav: Option<ClamAv.ClamDir>,
    helm: Dir,
    checkov: Dir,
    trivy: Dir,
    grype: Option<Grype.GrypeReports>,
    xeol: Dir)

  datatype Dashboard = Dashboard(
    sonarqube: SonarQube.SonarSummary,
    trufflehog: TruffleHog.SecretSummary,
    clamav: ClamAv.ClamSummary,
    helm: Helm.HelmSummary,
    checkov: Checkov.CheckovSummary,
    trivy: Trivy.TrivySummary,
    grype: Grype.GrypeSummary,
    xeol: Xeol.XeolSummary,
    overall: OverallStatus)

  /** `sonar-reports` first, then `security-reports/raw-data/SonarQube`. */
  function SonarDirs(r: Reports): seq<Dir> {
    [r.sonarReports, r.sonarRaw]
  }

  /** The status list of lines 361-370: the code-quality scan, the antivirus and the
      chart validation vote `good` when they have no data. */
  function Votes(sonarqube: SonarQube.SonarSummary, trufflehog: TruffleHog.SecretSummary,
                 clamav: ClamAv.ClamSummary, helm: Helm.HelmSummary, checkov: Checkov.CheckovSummary,
                 trivy: Trivy.TrivySummary, grype: Grype.GrypeSummary, xeol: Xeol.XeolSummary): seq<Status> {
    [Effective(sonarqube.status, sonarqube.hasData), trufflehog.status,
     Effective(clamav.status, clamav.hasData), Effective(helm.status, helm.hasData),
     checkov.status, trivy.status, grype.status, xeol.status]
  }

  function DashboardOf(r: Reports, nums: SonarQube.Numbers): Dashboard {
    var sonarqube := SonarQube.Scan(SonarDirs(r), nums);
    var trufflehog := TruffleHog.Scan(r.trufflehog);
    var clamav := ClamAv.Scan(r.clamav);
    var helm := Helm.Scan(r.helm);
    var checkov := Checkov.Scan(r.checkov);
    var trivy := Trivy.Scan(r.trivy);
    var grype := Grype.Scan(r.grype);
    var xeol := Xeol.Scan(r.xeol);
    Dashboard(sonarqube, trufflehog, clamav, helm, checkov, trivy, grype, xeol,
              Decide(Votes(sonarqube, trufflehog, clamav, helm, checkov, trivy, grype, xeol)))
  }

  function VotesOf(d: Dashboard): seq<Status> {
    Votes(d.sonarqube, d.trufflehog, d.clamav, d.helm, d.checkov, d.trivy, d.grype, d.xeol)
  }

  /** The analyses and the verdict of `generate_dashboard_html`. */
  method Generate(r: Reports, nums: SonarQube.Numbers) returns (d: Dashboard)
    ensures d == DashboardOf(r, nums)
  {
    var sonarqube := SonarQube.AnalyzeSonarqube(SonarDirs(r), nums);
    var trufflehog := TruffleHog.AnalyzeTrufflehog(r.trufflehog);
    var clamav := ClamAv.AnalyzeClamav(r.clamav);
    var helm := Helm.AnalyzeHelm(r.helm);
    var checkov := Checkov.AnalyzeCheckov(r.checkov);
    var trivy := Trivy.AnalyzeTrivy(r.trivy);
    var grype := Grype.AnalyzeGrype(r.grype);
    var xeol := Xeol.AnalyzeXeol(r.xeol);
    var votes := Votes(sonarqube, trufflehog, clamav, helm, checkov, trivy, grype, xeol);
    d := Dashboard(sonarqube, trufflehog, clamav, helm, checkov, trivy, grype, xeol, Decide(votes));
  }

  /** The verdict of a dashboard is decided by its own votes. */
  lemma VerdictOfVotes(r: Reports, nums: SonarQube.Numbers)
    ensures DashboardOf(r, nums).overall == Decide(VotesOf(DashboardOf(r, nums)))
  {
  }

  /** The antivirus and the chart validation never push the verdict to `WARNING`:
      their "no data" warnings are replaced by `good`, and the chart validation
      always votes `good`. */
  lemma QuietTools(clamav: Option<ClamAv.ClamDir>, helm: Dir)
    ensures Effective(ClamAv.Scan(clamav).status, ClamAv.Scan(clamav).hasData) != Warning
    ensures Effective(Helm.Scan(helm).status, Helm.Scan(helm).hasData) == Good
  {
  }

  /** The verdict is the most severe of the eight votes, with its fixed banner. */
  lemma VerdictIsWorstVote(r: Reports, nums: SonarQube.Numbers)
    ensures DashboardOf(r, nums).overall == Banner(Worst(VotesOf(DashboardOf(r, nums))))
  {
    VerdictOfVotes(r, nums);
    DecideIsWorst(VotesOf(DashboardOf(r, nums)));
  }

  /** An empty reports directory is `CRITICAL`: the compliance scan finds no check,
      so its pass rate is 0%. */
  lemma NoReportsIsCritical(nums: SonarQube.Numbers)
    ensures DashboardOf(Reports(None, None, None, None, None, None, None, None, None), nums).overall.level == Critical
  {
  }

  /** A verified secret makes the verdict `CRITICAL`, whatever the other tools report. */
  lemma VerifiedSecretIsCritical(r: Reports, nums: SonarQube.Numbers, f: Json)
    requires f in TruffleHog.DirFindings(r.trufflehog) && TruffleHog.IsVerified(f)
    ensures DashboardOf(r, nums).overall.level == Critical
  {
    var d := DashboardOf(r, nums);
    VerdictOfVotes(r, nums);
    assert d.trufflehog == TruffleHog.Scan(r.trufflehog);
    TruffleHog.ScanStatus(r.trufflehog);
    CriticalVote(d.sonarqube, d.trufflehog, d.clamav, d.helm, d.checkov, d.trivy, d.grype, d.xeol);
  }

  lemma CriticalVote(sonarqube: SonarQube.SonarSummary, trufflehog: TruffleHog.SecretSummary,
                     clamav: ClamAv.ClamSummary, helm: Helm.HelmSummary, checkov: Checkov.CheckovSummary,
                     trivy: Trivy.TrivySummary, grype: Grype.GrypeSummary, xeol: Xeol.XeolSummary)
    requires trufflehog.status == Critical
    ensures Decide(Votes(sonarqube, trufflehog, clamav, helm, checkov, trivy, grype, xeol)).level == Critical
  {
  }

  /** The verdict is `GOOD` exactly when every vote is `good`; the chart validation's
      vote is always `good`, so it is not among the conditions. */
  lemma GoodVerdict(r: Reports, nums: SonarQube.Numbers)
    ensures var d := DashboardOf(r, nums);
      d.overall.level == Good <==>
        && Effective(d.sonarqube.status, d.sonarqube.hasData) == Good
        && d.trufflehog.status == Good
        && Effective(d.clamav.status, d.clamav.hasData) == Good
        && d.checkov.status == Good
        && d.trivy.status == Good
        && d.grype.status == Good
        && d.xeol.status == Good
  {
    var d := DashboardOf(r, nums);
    VerdictOfVotes(r, nums);
    QuietTools(r.clamav, r.helm);
    assert d.helm == Helm.Scan(r.helm);
    GoodVotes(d.sonarqube, d.trufflehog, d.clamav, d.helm, d.checkov, d.trivy, d.grype, d.xeol);
  }

  lemma GoodVotes(sonarqube: SonarQube.SonarSummary, trufflehog: TruffleHog.SecretSummary,
                  clamav: ClamAv.ClamSummary, helm: Helm.HelmSummary, checkov: Checkov.CheckovSummary,
                  trivy: Trivy.TrivySummary, grype: Grype.GrypeSummary, xeol: Xeol.XeolSummary)
    requires Effective(helm.status, helm.hasData) == Good
    ensures Decide(Votes(sonarqube, trufflehog, clamav, helm, checkov, trivy, grype, xeol)).level == Good <==>
        && Effective(sonarqube.status, sonarqube.hasData) == Good
        && trufflehog.status == Good
        && Effective(clamav.status, clamav.hasData) == Good
        && checkov.status == Good
        && trivy.status == Good
        && grype.status == Good
        && xeol.status == Good
  {
  }
}
