/** The assessment report `run_assessment` returns: the executive summary,
    the per-dimension entries, the findings split by severity and the
    three-phase remediation roadmap. */
module Report {
  import opened Common
  import opened Assessment
  import opened Analyzers
  import opened Scoring

  /* --------------------------------------------------------- severity buckets */

  /** A finding lands in the bucket of severity `s` exactly when it is a
      finding of the list with that severity. */
  lemma {:induction false} OfSeverityMembers(fs: seq<Finding>, s: Severity, f: Finding)
    ensures f in OfSeverity(fs, s) <==> f in fs && f.severity == s
  {
    if |fs| > 0 {
      OfSeverityMembers(fs[1..], s, f);
      assert fs == [fs[0]] + fs[1..];
    }
  }

  /** Bucketing distributes over concatenation, so every bucket keeps the
      original order. */
  lemma {:induction false} OfSeverityAppend(a: seq<Finding>, b: seq<Finding>, s: Severity)
    ensures OfSeverity(a + b, s) == OfSeverity(a, s) + OfSeverity(b, s)
  {
    if |a| == 0 {
      assert a + b == b;
    } else {
      var h := if a[0].severity == s then [a[0]] else [];
      assert (a + b)[0] == a[0];
      assert (a + b)[1..] == a[1..] + b;
      OfSeverityAppend(a[1..], b, s);
      assert OfSeverity(a + b, s) == h + (OfSeverity(a[1..], s) + OfSeverity(b, s));
      assert OfSeverity(a, s) == h + OfSeverity(a[1..], s);
      AppendAssoc(h, OfSeverity(a[1..], s), OfSeverity(b, s));
    }
  }

  /** The five buckets together hold every finding once. */
  lemma {:induction false} SeverityPartition(fs: seq<Finding>)
    ensures |OfSeverity(fs, Critical)| + |OfSeverity(fs, High)| + |OfSeverity(fs, Medium)|
            + |OfSeverity(fs, Low)| + |OfSeverity(fs, Info)| == |fs|
  {
    if |fs| > 0 {
      SeverityPartition(fs[1..]);
    }
  }

  /** The four reported buckets leave out exactly the informational findings. */
  lemma BucketCounts(fs: seq<Finding>)
    ensures |OfSeverity(fs, Critical)| + |OfSeverity(fs, High)| + |OfSeverity(fs, Medium)|
            + |OfSeverity(fs, Low)| <= |fs|
    ensures (|OfSeverity(fs, Critical)| + |OfSeverity(fs, High)| + |OfSeverity(fs, Medium)|
             + |OfSeverity(fs, Low)| == |fs|) <==> forall k :: 0 <= k < |fs| ==> fs[k].severity != Info
  {
    SeverityPartition(fs);
    if |OfSeverity(fs, Info)| > 0 {
      var f := OfSeverity(fs, Info)[0];
      OfSeverityMembers(fs, Info, f);
    }
    if exists k :: 0 <= k < |fs| && fs[k].severity == Info {
      var k :| 0 <= k < |fs| && fs[k].severity == Info;
      OfSeverityMembers(fs, Info, fs[k]);
    }
  }

  /* ----------------------------------------------------------------- roadmap */

  /** The critical findings of the security dimension, in order. */
  function CriticalSecurity(fs: seq<Finding>): (r: seq<Finding>)
    ensures |r| <= |fs|
  {
    if |fs| == 0 then []
    else (if fs[0].severity == Critical && fs[0].dimension == Security then [fs[0]] else [])
         + CriticalSecurity(fs[1..])
  }

  lemma {:induction false} CriticalSecurityMembers(fs: seq<Finding>, f: Finding)
    ensures f in CriticalSecurity(fs) <==> f in fs && f.severity == Critical && f.dimension == Security
  {
    if |fs| > 0 {
      CriticalSecurityMembers(fs[1..], f);
      assert fs == [fs[0]] + fs[1..];
    }
  }

  /** The titles of the listed findings. */
  function Titles(fs: seq<Finding>): (ts: seq<string>)
    ensures |ts| == |fs|
    ensures forall k :: 0 <= k < |fs| ==> ts[k] == fs[k].title
  {
    seq(|fs|, k requires 0 <= k < |fs| => fs[k].title)
  }

  datatype Phase = Phase(number: nat, name: string, duration: string, items: seq<string>)

  /** A phase holding the titles of the first five listed findings, present
      only when the list is non-empty. */
  function PhaseIf(number: nat, name: string, duration: string, fs: seq<Finding>): (r: seq<Phase>)
    ensures |r| == (if |fs| == 0 then 0 else 1)
    ensures forall k :: 0 <= k < |r| ==> r[k].number == number && 1 <= |r[k].items| <= 5
    ensures |r| == 1 ==> r[0].items == Titles(Take(fs, 5))
  {
    if |fs| == 0 then [] else [Phase(number, name, duration, Titles(Take(fs, 5)))]
  }

  /** Phases numbered 1, 2 and 3, at most one of each, in that order, with
      one to five items each. */
  lemma ThreePhases(p1: seq<Phase>, p2: seq<Phase>, p3: seq<Phase>)
    requires |p1| <= 1 && |p2| <= 1 && |p3| <= 1
    requires forall k :: 0 <= k < |p1| ==> p1[k].number == 1 && 1 <= |p1[k].items| <= 5
    requires forall k :: 0 <= k < |p2| ==> p2[k].number == 2 && 1 <= |p2[k].items| <= 5
    requires forall k :: 0 <= k < |p3| ==> p3[k].number == 3 && 1 <= |p3[k].items| <= 5
    ensures var r := p1 + p2 + p3;
            (forall k, j :: 0 <= k < j < |r| ==> r[k].number < r[j].number)
            && (forall k :: 0 <= k < |r| ==> 1 <= r[k].number <= 3 && 1 <= |r[k].items| <= 5)
  {
    var r := p1 + p2 + p3;
    var n1, n2 := |p1|, |p1| + |p2|;
    forall k | 0 <= k < |r|
      ensures r[k].number == (if k < n1 then 1 else if k < n2 then 2 else 3) && 1 <= |r[k].items| <= 5
    {
      if k < n1 {
        assert r[k] == p1[k];
      } else if k < n2 {
        assert r[k] == p2[k - n1];
      } else {
        assert r[k] == p3[k - n2];
      }
    }
  }

  /** `_generate_roadmap` (the score argument is not used). */
  function Roadmap(fs: seq<Finding>): (r: seq<Phase>)
    ensures forall k, j :: 0 <= k < j < |r| ==> r[k].number < r[j].number
    ensures forall k :: 0 <= k < |r| ==> 1 <= r[k].number <= 3 && 1 <= |r[k].items| <= 5
  {
    var p1 := PhaseIf(1, "Critical Security Remediation", "Week 1", CriticalSecurity(fs));
    var p2 := PhaseIf(2, "High Priority Issues", "Weeks 2-3", OfSeverity(fs, High));
    var p3 := PhaseIf(3, "Medium Priority Improvements", "Weeks 4-6", OfSeverity(fs, Medium));
    ThreePhases(p1, p2, p3);
    p1 + p2 + p3
  }

  /** The phase numbered `n` of a roadmap, if any. */
  function PhaseNumbered(r: seq<Phase>, n: nat): Option<Phase> {
    if |r| == 0 then None else if r[0].number == n then Some(r[0]) else PhaseNumbered(r[1..], n)
  }

  /** Looking up a number that the first part does not hold skips that part. */
  lemma {:induction false} PhaseNumberedAppend(a: seq<Phase>, b: seq<Phase>, n: nat)
    requires forall k :: 0 <= k < |a| ==> a[k].number != n
    ensures PhaseNumbered(a + b, n) == PhaseNumbered(b, n)
  {
    if |a| > 0 {
      assert (a + b)[1..] == a[1..] + b;
      PhaseNumberedAppend(a[1..], b, n);
    } else {
      assert a + b == b;
    }
  }

  /** A roadmap with no phase numbered `n` has none to find. */
  lemma {:induction false} PhaseNumberedAbsent(b: seq<Phase>, n: nat)
    requires forall k :: 0 <= k < |b| ==> b[k].number != n
    ensures PhaseNumbered(b, n) == None
  {
    if |b| > 0 {
      PhaseNumberedAbsent(b[1..], n);
    }
  }

  /** The phase found under number `n` in `a + PhaseIf(n, ...) + b`, where
      neither `a` nor `b` holds that number. */
  lemma {:induction false} FindPhase(a: seq<Phase>, n: nat, name: string, duration: string, fs: seq<Finding>, b: seq<Phase>)
    requires forall k :: 0 <= k < |a| ==> a[k].number != n
    requires forall k :: 0 <= k < |b| ==> b[k].number != n
    ensures PhaseNumbered(a + PhaseIf(n, name, duration, fs) + b, n)
            == if |fs| == 0 then None else Some(Phase(n, name, duration, Titles(Take(fs, 5))))
  {
    var p := PhaseIf(n, name, duration, fs);
    AppendAssoc(a, p, b);
    PhaseNumberedAppend(a, p + b, n);
    if |fs| == 0 {
      assert p + b == b;
      PhaseNumberedAbsent(b, n);
    } else {
      var ph := Phase(n, name, duration, Titles(Take(fs, 5)));
      assert p == [ph];
      assert (p + b)[0] == ph;
      assert PhaseNumbered(p + b, n) == Some(ph);
    }
  }

  /** Two parts that avoid the number `n` concatenate to one that does. */
  lemma NumbersAvoid(a: seq<Phase>, b: seq<Phase>, n: nat)
    requires forall k :: 0 <= k < |a| ==> a[k].number != n
    requires forall k :: 0 <= k < |b| ==> b[k].number != n
    ensures forall k :: 0 <= k < |a + b| ==> (a + b)[k].number != n
  {
    forall k | 0 <= k < |a + b| ensures (a + b)[k].number != n {
      if k < |a| {
        assert (a + b)[k] == a[k];
      } else {
        assert (a + b)[k] == b[k - |a|];
      }
    }
  }

  /** The first phase is present exactly when there is a critical security
      finding, and lists the titles of the first five of them. */
  lemma RoadmapPhaseOne(fs: seq<Finding>)
    ensures var cs := CriticalSecurity(fs);
            PhaseNumbered(Roadmap(fs), 1)
            == if |cs| == 0 then None
               else Some(Phase(1, "Critical Security Remediation", "Week 1", Titles(Take(cs, 5))))
  {
    var p1 := PhaseIf(1, "Critical Security Remediation", "Week 1", CriticalSecurity(fs));
    var p2 := PhaseIf(2, "High Priority Issues", "Weeks 2-3", OfSeverity(fs, High));
    var p3 := PhaseIf(3, "Medium Priority Improvements", "Weeks 4-6", OfSeverity(fs, Medium));
    NumbersAvoid(p2, p3, 1);
    FindPhase([], 1, "Critical Security Remediation", "Week 1", CriticalSecurity(fs), p2 + p3);
    AppendAssoc(p1, p2, p3);
    assert [] + p1 == p1;
  }

  /** The second phase is present exactly when there is a high finding, and
      lists the titles of the first five of them. */
  lemma RoadmapPhaseTwo(fs: seq<Finding>)
    ensures var hs := OfSeverity(fs, High);
            PhaseNumbered(Roadmap(fs), 2)
            == if |hs| == 0 then None else Some(Phase(2, "High Priority Issues", "Weeks 2-3", Titles(Take(hs, 5))))
  {
    FindPhase(PhaseIf(1, "Critical Security Remediation", "Week 1", CriticalSecurity(fs)),
              2, "High Priority Issues", "Weeks 2-3", OfSeverity(fs, High),
              PhaseIf(3, "Medium Priority Improvements", "Weeks 4-6", OfSeverity(fs, Medium)));
  }

  /** The third phase is present exactly when there is a medium finding, and
      lists the titles of the first five of them. */
  lemma RoadmapPhaseThree(fs: seq<Finding>)
    ensures var ms := OfSeverity(fs, Medium);
            PhaseNumbered(Roadmap(fs), 3)
            == if |ms| == 0 then None
               else Some(Phase(3, "Medium Priority Improvements", "Weeks 4-6", Titles(Take(ms, 5))))
  {
    var p1 := PhaseIf(1, "Critical Security Remediation", "Week 1", CriticalSecurity(fs));
    var p2 := PhaseIf(2, "High Priority Issues", "Weeks 2-3", OfSeverity(fs, High));
    var p3 := PhaseIf(3, "Medium Priority Improvements", "Weeks 4-6", OfSeverity(fs, Medium));
    NumbersAvoid(p1, p2, 3);
    FindPhase(p1 + p2, 3, "Medium Priority Improvements", "Weeks 4-6", OfSeverity(fs, Medium), []);
    assert p1 + p2 + p3 + [] == p1 + p2 + p3;
  }

  /** Every item of the first phase is the title of a critical security
      finding. */
  lemma PhaseOneIsCriticalSecurity(fs: seq<Finding>)
    ensures var r := Roadmap(fs);
            PhaseNumbered(r, 1).Some? ==>
              forall k :: 0 <= k < |PhaseNumbered(r, 1).value.items| ==>
                exists f :: f in fs && f.severity == Critical && f.dimension == Security
                            && f.title == PhaseNumbered(r, 1).value.items[k]
  {
    RoadmapPhaseOne(fs);
    var r := Roadmap(fs);
    if PhaseNumbered(r, 1).Some? {
      var cs := CriticalSecurity(fs);
      forall k | 0 <= k < |PhaseNumbered(r, 1).value.items|
        ensures exists f :: f in fs && f.severity == Critical && f.dimension == Security
                            && f.title == PhaseNumbered(r, 1).value.items[k]
      {
        var f := cs[k];
        CriticalSecurityMembers(fs, f);
      }
    }
  }

  /* ------------------------------------------------------------------ report */

  datatype ExecutiveSummary = ExecutiveSummary(
    overallScore: real,
    readiness: Readiness,
    totalFindings: nat,
    criticalCount: nat,
    highCount: nat,
    mediumCount: nat,
    lowCount: nat,
    recommendation: string)

  /** One entry of the report's `dimension_scores`. */
  datatype DimensionEntry = DimensionEntry(
    key: string,
    score: int,
    weight: real,
    summary: string,
    recommendations: seq<string>,
    findingCount: nat)

  datatype AssessmentReport = AssessmentReport(
    repository: string,
    assessmentDate: string,
    summary: ExecutiveSummary,
    dimensions: seq<DimensionEntry>,
    critical: seq<Finding>,
    high: seq<Finding>,
    medium: seq<Finding>,
    low: seq<Finding>,
    roadmap: seq<Phase>)

  function Entry(s: DimensionScore): DimensionEntry {
    DimensionEntry(DimensionValue(s.dimension), s.score, Weight(s.dimension), s.summary,
                   s.recommendations, |s.findings|)
  }

  /** `_generate_report` for the accumulated state and overall score; the
      start date is given. */
  function GenerateReport(repository: string, date: string, st: AssessmentState, overall: real)
    : (r: AssessmentReport)
    ensures r.critical == OfSeverity(st.findings, Critical) && r.high == OfSeverity(st.findings, High)
    ensures r.medium == OfSeverity(st.findings, Medium) && r.low == OfSeverity(st.findings, Low)
    ensures r.summary.totalFindings == |st.findings|
    ensures r.summary.criticalCount == |r.critical| && r.summary.highCount == |r.high|
    ensures r.summary.mediumCount == |r.medium| && r.summary.lowCount == |r.low|
    ensures r.summary.criticalCount + r.summary.highCount + r.summary.mediumCount + r.summary.lowCount
            <= r.summary.totalFindings
    ensures |r.dimensions| == |st.scores|
    ensures forall k :: 0 <= k < |st.scores| ==>
              r.dimensions[k].key == DimensionValue(st.scores[k].dimension)
              && r.dimensions[k].score == st.scores[k].score
              && r.dimensions[k].findingCount == |st.scores[k].findings|
              && r.dimensions[k].weight == Weight(st.scores[k].dimension)
              && r.dimensions[k].summary == st.scores[k].summary
              && r.dimensions[k].recommendations == st.scores[k].recommendations
    ensures r.repository == repository && r.assessmentDate == date
    ensures r.summary.overallScore == overall && r.summary.readiness == ReadinessOf(overall)
    ensures r.summary.recommendation == ExecutiveRecommendation(overall, |r.critical|)
    ensures r.roadmap == Roadmap(st.findings)
  {
    BucketCounts(st.findings);
    var critical := OfSeverity(st.findings, Critical);
    var high := OfSeverity(st.findings, High);
    var medium := OfSeverity(st.findings, Medium);
    var low := OfSeverity(st.findings, Low);
    var summary := ExecutiveSummary(overall, ReadinessOf(overall), |st.findings|,
                                    |critical|, |high|, |medium|, |low|,
                                    ExecutiveRecommendation(overall, |critical|));
    var entries := seq(|st.scores|, k requires 0 <= k < |st.scores| => Entry(st.scores[k]));
    AssessmentReport(repository, date, summary, entries, critical, high, medium, low, Roadmap(st.findings))
  }

  /** What `run_assessment` returns: an error when the clone fails, the
      report otherwise. */
  datatype Outcome = CloneFailed | Assessed(report: AssessmentReport)

  /** `run_assessment`, with the clone result and the detection results given. */
  function RunAssessment(repository: string, date: string, cloned: bool,
                         focus: Option<seq<string>>, obs: Observations): (o: Outcome)
    ensures o.CloneFailed? <==> !cloned
  {
    if !cloned then CloneFailed
    else
      var st := RunAnalyzers(focus, obs);
      Assessed(GenerateReport(repository, date, st, OverallScore(ScoreTable(st.scores))))
  }

  /** Scores in [0, 100] give an overall score in [0, 100]. */
  lemma OverallInRange(scores: seq<DimensionScore>)
    requires forall k :: 0 <= k < |scores| ==> 0 <= scores[k].score <= 100
    ensures 0.0 <= OverallScore(ScoreTable(scores)) <= 100.0
  {
    var m := ScoreTable(scores);
    assert forall d :: d in m ==> 0.0 <= m[d] <= 100.0;
    if m != map[] {
      OverallScoreBounds(m, 0.0, 100.0);
    }
  }

  /** Every stored score of a run lies in [0, 100]. */
  lemma RunScoresBounded(focus: Option<seq<string>>, obs: Observations)
    ensures forall k :: 0 <= k < |RunAnalyzers(focus, obs).scores| ==> 0 <= RunAnalyzers(focus, obs).scores[k].score <= 100
  {
    var st := RunAnalyzers(focus, obs);
    var ds := Selected(EffectiveFocus(focus), |AllDimensions|);
    forall k | 0 <= k < |st.scores| ensures 0 <= st.scores[k].score <= 100 {
      assert st.scores[k] == Analyze(ds[k], obs);
    }
  }

  /** Every dimension score of a run lies in [0, 100], and so does the
      overall score. */
  lemma RunScoresInRange(repository: string, date: string, focus: Option<seq<string>>, obs: Observations)
    ensures var o := RunAssessment(repository, date, true, focus, obs);
            && 0.0 <= o.report.summary.overallScore <= 100.0
            && forall k :: 0 <= k < |o.report.dimensions| ==> 0 <= o.report.dimensions[k].score <= 100
  {
    RunScoresBounded(focus, obs);
    OverallInRange(RunAnalyzers(focus, obs).scores);
  }
}
