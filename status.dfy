/** The three-valued tool status and the severity histograms shared by the scanners. */
module Statuses {
  import opened JsonData

  /** A tool's `'good' | 'warning' | 'critical'`. */
  datatype Status = Good | Warning | Critical

  /** Severity order used by the escalation rule. */
  function Rank(s: Status): nat {
    match s
    case Good => 0
    case Warning => 1
    case Critical => 2
  }

  /** The rule shared by the secret scan and both vulnerability scans: the first
      counter decides `critical`, the second `warning`. */
  function Escalate(severe: nat, lesser: nat): (r: Status)
    ensures r == Critical <==> severe > 0
    ensures r == Warning <==> severe == 0 && lesser > 0
    ensures r == Good <==> severe == 0 && lesser == 0
  {
    if severe > 0 then Critical else if lesser > 0 then Warning else Good
  }
}

/** `severity_counts[severity] += 1` over a stream of severities: each element is
    the severity a finding reports (`None` where it has none usable), and a
    bucket counts the findings whose severity is exactly its name. */
module Histogram {
  import opened JsonData

  /** `if severity in severity_counts: severity_counts[severity] += 1`. */
  function Step(counts: map<string, nat>, s: Option<string>): map<string, nat> {
    if s.Some? && s.value in counts then counts[s.value := counts[s.value] + 1] else counts
  }

  /** The dictionary after the steps for `sevs`, in order. */
  function Apply(counts: map<string, nat>, sevs: seq<Option<string>>): (r: map<string, nat>)
    ensures r.Keys == counts.Keys
  {
    if sevs == [] then counts else Step(Apply(counts, sevs[..|sevs| - 1]), sevs[|sevs| - 1])
  }

  /** How many of `sevs` are `Some(b)`: the reference count of a bucket. */
  function Count(sevs: seq<Option<string>>, b: string): (r: nat)
    ensures r <= |sevs|
  {
    if sevs == [] then 0
    else Count(sevs[..|sevs| - 1], b) + (if sevs[|sevs| - 1] == Some(b) then 1 else 0)
  }

  /** Steps over a concatenation are the steps over each part in turn. */
  lemma {:induction false} ApplyAppend(counts: map<string, nat>, a: seq<Option<string>>, b: seq<Option<string>>)
    ensures Apply(counts, a + b) == Apply(Apply(counts, a), b)
    decreases |b|
  {
    if b == [] {
      assert a + b == a;
    } else {
      assert (a + b)[..|a + b| - 1] == a + b[..|b| - 1];
      ApplyAppend(counts, a, b[..|b| - 1]);
    }
  }

  /** The increments add up to the count: each bucket grows by exactly the
      number of findings with its name. */
  lemma {:induction false} ApplyCounts(counts: map<string, nat>, sevs: seq<Option<string>>)
    ensures forall b :: b in counts ==> Apply(counts, sevs)[b] == counts[b] + Count(sevs, b)
  {
    if sevs != [] {
      ApplyCounts(counts, sevs[..|sevs| - 1]);
    }
  }

  /** A bucket is non-zero exactly when some finding has that severity. */
  lemma {:induction false} CountPositive(sevs: seq<Option<string>>, b: string)
    ensures Count(sevs, b) > 0 <==> Some(b) in sevs
  {
    if sevs != [] {
      var init := sevs[..|sevs| - 1];
      CountPositive(init, b);
      assert sevs == init + [sevs[|sevs| - 1]];
    }
  }

  /** Four different buckets never hold more than the number of findings. */
  lemma {:induction false} BucketsBounded(sevs: seq<Option<string>>, a: string, b: string, c: string, d: string)
    requires a != b && a != c && a != d && b != c && b != d && c != d
    ensures Count(sevs, a) + Count(sevs, b) + Count(sevs, c) + Count(sevs, d) <= |sevs|
  {
    if sevs != [] {
      BucketsBounded(sevs[..|sevs| - 1], a, b, c, d);
    }
  }
}
