/** The vocabulary of the production-readiness assessment: severities, the
    fifteen dimensions with their string values and scoring weights, findings,
    and the per-dimension score record. */
module Assessment {
  import opened Common

  datatype Severity = Critical | High | Medium | Low | Info

  /** The enum value string of a severity. */
  function SeverityValue(s: Severity): string {
    match s
    case Critical => "critical"
    case High => "high"
    case Medium => "medium"
    case Low => "low"
    case Info => "info"
  }

  datatype Dimension =
    | Security | Architecture | Reliability | Performance | Observability
    | Testing | DevOps | DataManagement | ApiContracts | Documentation
    | Compliance | CostOptimization | Dependencies | Configuration | TeamReadiness

  /** The fifteen dimensions in declaration order (also the order of the weight
      table and of the analysers). */
  const AllDimensions: seq<Dimension> := [
    Security, Architecture, Reliability, Performance, Observability,
    Testing, DevOps, DataManagement, ApiContracts, Documentation,
    Compliance, CostOptimization, Dependencies, Configuration, TeamReadiness
  ]

  /** The position of a dimension in declaration order. */
  function DimensionIndex(d: Dimension): (i: nat)
    ensures i < |AllDimensions| && AllDimensions[i] == d
  {
    match d
    case Security => 0
    case Architecture => 1
    case Reliability => 2
    case Performance => 3
    case Observability => 4
    case Testing => 5
    case DevOps => 6
    case DataManagement => 7
    case ApiContracts => 8
    case Documentation => 9
    case Compliance => 10
    case CostOptimization => 11
    case Dependencies => 12
    case Configuration => 13
    case TeamReadiness => 14
  }

  /** The enum value string of a dimension. */
  function DimensionValue(d: Dimension): string {
    match d
    case Security => "security"
    case Architecture => "architecture"
    case Reliability => "reliability"
    case Performance => "performance"
    case Observability => "observability"
    case Testing => "testing"
    case DevOps => "devops"
    case DataManagement => "data_management"
    case ApiContracts => "api_contracts"
    case Documentation => "documentation"
    case Compliance => "compliance"
    case CostOptimization => "cost_optimization"
    case Dependencies => "dependencies"
    case Configuration => "configuration"
    case TeamReadiness => "team_readiness"
  }

  type PositiveReal = r: real | r > 0.0 witness 1.0

  /** The fixed scoring weight of a dimension. */
  function Weight(d: Dimension): PositiveReal {
    match d
    case Security => 3.0
    case Architecture => 3.0
    case Reliability => 3.0
    case Performance => 2.0
    case Observability => 2.0
    case Testing => 2.0
    case DevOps => 2.0
    case DataManagement => 2.0
    case ApiContracts => 1.5
    case Documentation => 1.5
    case Compliance => 1.5
    case CostOptimization => 1.5
    case Dependencies => 1.5
    case Configuration => 1.5
    case TeamReadiness => 1.5
  }

  /** Every dimension is listed once, and the value strings tell dimensions
      apart; every weight is positive. */
  lemma DimensionTable()
    ensures |AllDimensions| == 15
    ensures forall d: Dimension :: d in AllDimensions
    ensures forall i, j :: 0 <= i < j < |AllDimensions| ==> AllDimensions[i] != AllDimensions[j]
    ensures forall d1: Dimension, d2: Dimension :: DimensionValue(d1) == DimensionValue(d2) ==> d1 == d2
    ensures forall d: Dimension :: 1.5 <= Weight(d) <= 3.0
  {
    forall d: Dimension ensures d in AllDimensions {
      var i := DimensionIndex(d);
    }
    forall d1: Dimension, d2: Dimension | DimensionValue(d1) == DimensionValue(d2)
      ensures d1 == d2
    {
      var v1, v2 := DimensionValue(d1), DimensionValue(d2);
      assert |v1| == |v2| && v1[0] == v2[0];
      if |v1| > 1 { assert v1[1] == v2[1]; }
    }
  }

  /** One issue found by an analyser. The prose fields the report shows but no
      rule inspects (description, impact, root cause, validation, effort,
      references) are not carried. */
  datatype Finding = Finding(
    title: string,
    severity: Severity,
    dimension: Dimension,
    location: string,
    remediation: string)

  /** The result of one analyser. */
  datatype DimensionScore = DimensionScore(
    dimension: Dimension,
    score: int,
    findings: seq<Finding>,
    summary: string,
    recommendations: seq<string>)

  /** The findings of severity `s`, in their original order (the list
      comprehension `[f for f in fs if f.severity == s]`). */
  function OfSeverity(fs: seq<Finding>, s: Severity): (r: seq<Finding>)
    ensures |r| <= |fs|
    ensures forall k :: 0 <= k < |r| ==> r[k].severity == s && r[k] in fs
  {
    if |fs| == 0 then []
    else (if fs[0].severity == s then [fs[0]] else []) + OfSeverity(fs[1..], s)
  }
}
