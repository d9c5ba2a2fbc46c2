/** The overall verdict (lines 361-383): `CRITICAL` when any tool votes `critical`,
    otherwise `WARNING` when any votes `warning`, otherwise `GOOD`. */
module Overall {
  import opened Statuses

  /** The verdict with the CSS class and message shown in the banner. */
  datatype OverallStatus = OverallStatus(level: Status, cssClass: string, message: string)

  /** A tool's vote: its status, or `good` when it reports no data. */
  function Effective(status: Status, hasData: bool): (r: Status)
    ensures hasData ==> r == status
    ensures !hasData ==> r == Good
    ensures Rank(r) <= Rank(status)
  {
    if hasData then status else Good
  }

  /** The fixed banner of each level. */
  function Banner(level: Status): OverallStatus {
    match level
    case Critical => OverallStatus(Critical, "status-critical", "Critical security issues detected. Immediate action required.")
    case Warning => OverallStatus(Warning, "status-warning", "Security issues detected. Review and remediation recommended.")
    case Good => OverallStatus(Good, "status-good", "No critical security issues detected. Continue monitoring.")
  }

  /** The more severe of two statuses. */
  function Max(a: Status, b: Status): Status {
    if Rank(a) >= Rank(b) then a else b
  }

  /** The most severe vote (`good` for no votes): the reference reading of the rule. */
  function Worst(votes: seq<Status>): Status {
    if votes == [] then Good else Max(Worst(votes[..|votes| - 1]), votes[|votes| - 1])
  }

  /** The decision of lines 372-383. */
  function Decide(votes: seq<Status>): (r: OverallStatus)
    ensures r == Banner(r.level)
    ensures r.level == Critical <==> Critical in votes
    ensures r.level == Warning <==> Critical !in votes && Warning in votes
    ensures r.level == Good <==> forall k :: 0 <= k < |votes| ==> votes[k] == Good
  {
    if Critical in votes then Banner(Critical)
    else if Warning in votes then Banner(Warning)
    else Banner(Good)
  }

  /** The most severe vote is one of the votes and is at least as severe as each. */
  lemma {:induction false} WorstIsMaximum(votes: seq<Status>)
    ensures forall k :: 0 <= k < |votes| ==> Rank(votes[k]) <= Rank(Worst(votes))
    ensures votes != [] ==> Worst(votes) in votes
  {
    if votes != [] {
      var init := votes[..|votes| - 1];
      WorstIsMaximum(init);
      assert forall k :: 0 <= k < |init| ==> votes[k] == init[k];
    }
  }

  /** The cascade of `in` tests picks the most severe vote. */
  lemma DecideIsWorst(votes: seq<Status>)
    ensures Decide(votes).level == Worst(votes)
  {
  }

  /** Monotonicity: making any vote more severe never makes the verdict milder. */
  lemma DecideMonotone(a: seq<Status>, b: seq<Status>)
    requires |a| == |b|
    requires forall k :: 0 <= k < |a| ==> Rank(a[k]) <= Rank(b[k])
    ensures Rank(Decide(a).level) <= Rank(Decide(b).level)
  {
  }
}
