/** The fifteen dimension analysers of the assessment and the focus filter
    that selects them. What an analyser detects on disk (secret matches,
    vulnerable patterns, the presence of a README, ...) is an input, collected
    in `Observations`; what is modelled is the rule that turns those
    detections into findings and a score: start at 100, subtract a fixed
    number of points per finding, store the result clamped at 0. */
module Analyzers {
  import opened Common
  import opened Assessment

  datatype SecretHit = SecretHit(kind: string, location: string)
  datatype VulnHit = VulnHit(title: string, severity: Severity, location: string, remediation: string)
  datatype DependencyVuln = DependencyVuln(package: string, version: string, manifest: string, fixedIn: Option<string>)
  datatype CryptoHit = CryptoHit(algorithm: string, replacement: string, location: string)

  /** Everything the analysers detect in the cloned project. */
  datatype Observations = Observations(
    secrets: seq<SecretHit>,
    vulnerabilities: seq<VulnHit>,
    dependencyVulns: seq<DependencyVuln>,
    jwtWithoutExpiry: seq<string>,
    weakCrypto: seq<CryptoHit>,
    hasSrcDir: bool,
    hasErrorHandling: bool,
    hasHealthEndpoint: bool,
    hasCaching: bool,
    hasLogging: bool,
    hasMetrics: bool,
    hasTestDir: bool,
    hasCiTests: bool,
    hasCiCd: bool,
    hasDockerfile: bool,
    hasMigrations: bool,
    usesDatabase: bool,
    hasOpenApi: bool,
    hasReadmeMd: bool,
    hasReadmeRst: bool,
    readmeMdLength: nat,
    hasLicense: bool,
    hasLockFile: bool,
    hasEnvFile: bool,
    hasEnvExample: bool,
    hasContributing: bool)

  /** A finding together with the points it takes off the dimension score. */
  datatype Penalty = Penalty(finding: Finding, points: nat)

  function TotalPoints(ps: seq<Penalty>): nat {
    if |ps| == 0 then 0 else ps[0].points + TotalPoints(ps[1..])
  }

  function FindingsOf(ps: seq<Penalty>): (fs: seq<Finding>)
    ensures |fs| == |ps|
    ensures forall k :: 0 <= k < |ps| ==> fs[k] == ps[k].finding
  {
    seq(|ps|, k requires 0 <= k < |ps| => ps[k].finding)
  }

  lemma {:induction false} TotalPointsAppend(a: seq<Penalty>, b: seq<Penalty>)
    ensures TotalPoints(a + b) == TotalPoints(a) + TotalPoints(b)
  {
    if |a| == 0 {
      assert a + b == b;
    } else {
      assert (a + b)[1..] == a[1..] + b;
      TotalPointsAppend(a[1..], b);
    }
  }

  /** A list of findings that each cost `c` points costs `c` times its length. */
  lemma {:induction false} TotalPointsUniform(ps: seq<Penalty>, c: nat)
    requires forall k :: 0 <= k < |ps| ==> ps[k].points == c
    ensures TotalPoints(ps) == c * |ps|
  {
    if |ps| > 0 {
      TotalPointsUniform(ps[1..], c);
    }
  }

  /** The summary line `_generate_dimension_summary` writes when there is no finding. */
  function NoIssuesSummary(d: Dimension): string {
    DimensionValue(d) + " analysis complete with no issues found."
  }

  /** `_generate_dimension_summary`: the no-issues sentence for an empty list,
      otherwise the critical, high and medium counts (low and info are not
      counted). */
  function DimensionSummary(d: Dimension, fs: seq<Finding>): (r: string)
    ensures r == NoIssuesSummary(d) <==> |fs| == 0
  {
    if |fs| == 0 then NoIssuesSummary(d)
    else
      var r := DimensionValue(d) + ": " + NatToString(|OfSeverity(fs, Critical)|) + " critical, "
        + NatToString(|OfSeverity(fs, High)|) + " high, "
        + NatToString(|OfSeverity(fs, Medium)|) + " medium issues found.";
      assert r[|DimensionValue(d)|] == ':';
      assert NoIssuesSummary(d)[|DimensionValue(d)|] == ' ';
      r
  }

  /** `_generate_dimension_recommendations`: the remediations of the first
      five findings, in order. */
  function DimensionRecommendations(fs: seq<Finding>): (r: seq<string>)
    ensures |r| == Min(5, |fs|)
    ensures forall k :: 0 <= k < |r| ==> r[k] == fs[k].remediation
  {
    var top := Take(fs, 5);
    seq(|top|, k requires 0 <= k < |top| => top[k].remediation)
  }

  /** The common tail of every analyser except cost optimisation. */
  function Conclude(d: Dimension, ps: seq<Penalty>): (r: DimensionScore)
    requires forall k :: 0 <= k < |ps| ==> ps[k].points > 0
    ensures r.dimension == d && r.findings == FindingsOf(ps)
    ensures 0 <= r.score <= 100
    ensures r.score == 100 <==> |ps| == 0
    ensures r.score == (if TotalPoints(ps) <= 100 then 100 - TotalPoints(ps) else 0)
  {
    var fs := FindingsOf(ps);
    var score := 100 - TotalPoints(ps);
    assert |ps| > 0 ==> TotalPoints(ps) > 0;
    DimensionScore(d, if score < 0 then 0 else score, fs,
                   DimensionSummary(d, fs), DimensionRecommendations(fs))
  }

  /* ---------------------------------------------------------------- security */

  function SecretPenalties(hits: seq<SecretHit>): (ps: seq<Penalty>)
    ensures |ps| == |hits|
  {
    seq(|hits|, k requires 0 <= k < |hits| =>
      Penalty(Finding("Hardcoded " + hits[k].kind + " detected", Critical, Security,
                      hits[k].location, "Remove secret, rotate credentials, use secret management"), 15))
  }

  /** Points per vulnerable pattern: the lookup table with its default of 5. */
  function VulnPoints(s: Severity): nat {
    match s
    case Critical => 20
    case High => 10
    case Medium => 5
    case Low => 2
    case Info => 5
  }

  function VulnPenalties(hits: seq<VulnHit>): (ps: seq<Penalty>)
    ensures |ps| == |hits|
  {
    seq(|hits|, k requires 0 <= k < |hits| =>
      Penalty(Finding(hits[k].title, hits[k].severity, Security, hits[k].location, hits[k].remediation),
              VulnPoints(hits[k].severity)))
  }

  function DependencyPenalties(vs: seq<DependencyVuln>): (ps: seq<Penalty>)
    ensures |ps| == |vs|
  {
    seq(|vs|, k requires 0 <= k < |vs| =>
      Penalty(Finding("Vulnerable dependency: " + vs[k].package + "@" + vs[k].version, High, Security,
                      vs[k].manifest, "Upgrade to version " + vs[k].fixedIn.GetOr("latest")), 8))
  }

  function AuthPenalties(locations: seq<string>): (ps: seq<Penalty>)
    ensures |ps| == |locations|
  {
    seq(|locations|, k requires 0 <= k < |locations| =>
      Penalty(Finding("JWT without expiration", High, Security, locations[k],
                      "Add 'exp' claim to all JWTs"), 10))
  }

  function CryptoPenalties(hits: seq<CryptoHit>): (ps: seq<Penalty>)
    ensures |ps| == |hits|
  {
    seq(|hits|, k requires 0 <= k < |hits| =>
      Penalty(Finding("Weak cryptographic algorithm: " + hits[k].algorithm, High, Security, hits[k].location,
                      "Replace " + hits[k].algorithm + " with " + hits[k].replacement), 10))
  }

  function SecurityPenalties(obs: Observations): (ps: seq<Penalty>)
    ensures WellFormedPenalties(ps, Security)
  {
    SecretPenalties(obs.secrets) + VulnPenalties(obs.vulnerabilities)
    + DependencyPenalties(obs.dependencyVulns) + AuthPenalties(obs.jwtWithoutExpiry)
    + CryptoPenalties(obs.weakCrypto)
  }

  /** Reference sum of the per-pattern deductions. */
  function VulnTotal(hits: seq<VulnHit>): nat {
    if |hits| == 0 then 0 else VulnPoints(hits[0].severity) + VulnTotal(hits[1..])
  }

  lemma {:induction false} VulnPenaltiesTotal(hits: seq<VulnHit>)
    ensures TotalPoints(VulnPenalties(hits)) == VulnTotal(hits)
  {
    if |hits| > 0 {
      VulnPenaltiesTotal(hits[1..]);
      assert VulnPenalties(hits)[1..] == VulnPenalties(hits[1..]);
    }
  }

  /* ------------------------------------------------------ the other analysers */

  /** One finding costing `points` when `missing` holds, none otherwise. */
  function When(missing: bool, f: Finding, points: nat): (ps: seq<Penalty>)
    ensures |ps| == (if missing then 1 else 0)
    ensures forall k :: 0 <= k < |ps| ==> ps[k] == Penalty(f, points)
    ensures TotalPoints(ps) == (if missing then points else 0)
  {
    if missing then [Penalty(f, points)] else []
  }

  /** Every penalty costs something and belongs to dimension `d`. */
  ghost predicate WellFormedPenalties(ps: seq<Penalty>, d: Dimension) {
    forall k :: 0 <= k < |ps| ==> ps[k].points > 0 && ps[k].finding.dimension == d
  }

  function ArchitecturePenalties(obs: Observations): (ps: seq<Penalty>)
    ensures WellFormedPenalties(ps, Architecture)
    ensures TotalPoints(ps) == (if !obs.hasSrcDir then 5 else 0)
  {
    When(!obs.hasSrcDir, Finding("No src directory structure", Low, Architecture, "project root",
                                 "Consider organizing code in src/ directory"), 5)
  }

  function ReliabilityPenalties(obs: Observations): (ps: seq<Penalty>)
    ensures WellFormedPenalties(ps, Reliability)
    ensures TotalPoints(ps) == (if !obs.hasErrorHandling then 20 else 0) + (if !obs.hasHealthEndpoint then 10 else 0)
  {
    When(!obs.hasErrorHandling, Finding("Missing error handling", High, Reliability, "entire codebase",
                                        "Add error handling to critical code paths"), 20)
    + When(!obs.hasHealthEndpoint, Finding("No health check endpoint", Medium, Reliability, "API routes",
                                           "Add /health endpoint returning service status"), 10)
  }

  function PerformancePenalties(obs: Observations): (ps: seq<Penalty>)
    ensures WellFormedPenalties(ps, Performance)
    ensures TotalPoints(ps) == (if !obs.hasCaching then 15 else 0)
  {
    When(!obs.hasCaching, Finding("No caching layer detected", Medium, Performance, "entire codebase",
                                  "Implement caching for frequently accessed data"), 15)
  }

  function ObservabilityPenalties(obs: Observations): (ps: seq<Penalty>)
    ensures WellFormedPenalties(ps, Observability)
    ensures TotalPoints(ps) == (if !obs.hasLogging then 25 else 0) + (if !obs.hasMetrics then 15 else 0)
  {
    When(!obs.hasLogging, Finding("No structured logging detected", High, Observability, "entire codebase",
                                  "Implement structured logging with correlation IDs"), 25)
    + When(!obs.hasMetrics, Finding("No metrics instrumentation", Medium, Observability, "entire codebase",
                                    "Add Prometheus/DataDog/custom metrics"), 15)
  }

  function TestingPenalties(obs: Observations): (ps: seq<Penalty>)
    ensures WellFormedPenalties(ps, Testing)
    ensures TotalPoints(ps) == (if !obs.hasTestDir then 40 else 0) + (if !obs.hasCiTests then 20 else 0)
  {
    When(!obs.hasTestDir, Finding("No test directory found", Critical, Testing, "project root",
                                  "Set up testing framework and write tests"), 40)
    + When(!obs.hasCiTests, Finding("No automated tests in CI/CD", High, Testing, ".github/workflows",
                                    "Add test step to CI/CD pipeline"), 20)
  }

  function DevOpsPenalties(obs: Observations): (ps: seq<Penalty>)
    ensures WellFormedPenalties(ps, DevOps)
    ensures TotalPoints(ps) == (if !obs.hasCiCd then 25 else 0) + (if !obs.hasDockerfile then 10 else 0)
  {
    When(!obs.hasCiCd, Finding("No CI/CD pipeline configured", High, DevOps, "project root",
                               "Set up GitHub Actions/GitLab CI/Jenkins"), 25)
    + When(!obs.hasDockerfile, Finding("No Dockerfile", Medium, DevOps, "project root",
                                       "Create Dockerfile for consistent builds"), 10)
  }

  /** The database check only runs when no migrations directory exists. */
  function DataPenalties(obs: Observations): (ps: seq<Penalty>)
    ensures WellFormedPenalties(ps, DataManagement)
    ensures TotalPoints(ps) == (if !obs.hasMigrations && obs.usesDatabase then 20 else 0)
  {
    When(!obs.hasMigrations && obs.usesDatabase,
         Finding("No database migrations", High, DataManagement, "project root",
                 "Set up migration framework (Alembic, Flyway, etc.)"), 20)
  }

  function ApiPenalties(obs: Observations): (ps: seq<Penalty>)
    ensures WellFormedPenalties(ps, ApiContracts)
    ensures TotalPoints(ps) == (if !obs.hasOpenApi then 15 else 0)
  {
    When(!obs.hasOpenApi, Finding("No OpenAPI/Swagger specification", Medium, ApiContracts, "project root",
                                  "Generate or write OpenAPI specification"), 15)
  }

  /** A README.md or README.rst counts as a README; only README.md is
      measured for brevity (fewer than 500 characters). */
  function DocumentationPenalties(obs: Observations): (ps: seq<Penalty>)
    ensures WellFormedPenalties(ps, Documentation)
    ensures TotalPoints(ps) == (if !obs.hasReadmeMd && !obs.hasReadmeRst then 30
              else if obs.hasReadmeMd && obs.readmeMdLength < 500 then 10 else 0)
  {
    var hasReadme := obs.hasReadmeMd || obs.hasReadmeRst;
    When(!hasReadme, Finding("No README file", High, Documentation, "project root",
                             "Create comprehensive README with setup instructions"), 30)
    + When(hasReadme && obs.hasReadmeMd && obs.readmeMdLength < 500,
           Finding("README is too brief", Low, Documentation, "README.md",
                   "Expand README with installation, usage, architecture"), 10)
  }

  function CompliancePenalties(obs: Observations): (ps: seq<Penalty>)
    ensures WellFormedPenalties(ps, Compliance)
    ensures TotalPoints(ps) == (if !obs.hasLicense then 15 else 0)
  {
    When(!obs.hasLicense, Finding("No LICENSE file", Medium, Compliance, "project root",
                                  "Add appropriate LICENSE file"), 15)
  }

  function DependencyHealthPenalties(obs: Observations): (ps: seq<Penalty>)
    ensures WellFormedPenalties(ps, Dependencies)
    ensures TotalPoints(ps) == (if !obs.hasLockFile then 15 else 0)
  {
    When(!obs.hasLockFile, Finding("No dependency lock file", Medium, Dependencies, "project root",
                                   "Generate and commit lock file"), 15)
  }

  function ConfigurationPenalties(obs: Observations): (ps: seq<Penalty>)
    ensures WellFormedPenalties(ps, Configuration)
    ensures TotalPoints(ps) == (if obs.hasEnvFile && !obs.hasEnvExample then 10 else 0)
  {
    When(obs.hasEnvFile && !obs.hasEnvExample,
         Finding("Missing .env.example", Low, Configuration, "project root",
                 "Create .env.example with all required variables"), 10)
  }

  function TeamPenalties(obs: Observations): (ps: seq<Penalty>)
    ensures WellFormedPenalties(ps, TeamReadiness)
    ensures TotalPoints(ps) == (if !obs.hasContributing then 10 else 0)
  {
    When(!obs.hasContributing, Finding("No CONTRIBUTING guide", Low, TeamReadiness, "project root",
                                       "Add CONTRIBUTING.md with guidelines"), 10)
  }

  /** The findings and deductions of every analyser except cost optimisation. */
  function Penalties(d: Dimension, obs: Observations): (ps: seq<Penalty>)
    requires d != CostOptimization
    ensures WellFormedPenalties(ps, d)
  {
    match d
    case Security => SecurityPenalties(obs)
    case Architecture => ArchitecturePenalties(obs)
    case Reliability => ReliabilityPenalties(obs)
    case Performance => PerformancePenalties(obs)
    case Observability => ObservabilityPenalties(obs)
    case Testing => TestingPenalties(obs)
    case DevOps => DevOpsPenalties(obs)
    case DataManagement => DataPenalties(obs)
    case ApiContracts => ApiPenalties(obs)
    case Documentation => DocumentationPenalties(obs)
    case Compliance => CompliancePenalties(obs)
    case Dependencies => DependencyHealthPenalties(obs)
    case Configuration => ConfigurationPenalties(obs)
    case TeamReadiness => TeamPenalties(obs)
  }

  /** The cost-optimisation placeholder: a fixed record. */
  const CostScore: DimensionScore := DimensionScore(
    CostOptimization, 100, [],
    "Cost optimization analysis requires infrastructure review",
    ["Review cloud resource sizing", "Implement auto-scaling"])

  /** The analyser of dimension `d`. */
  function Analyze(d: Dimension, obs: Observations): (r: DimensionScore)
    ensures r.dimension == d
    ensures 0 <= r.score <= 100
    ensures forall k :: 0 <= k < |r.findings| ==> r.findings[k].dimension == d
    ensures d == CostOptimization ==> r.score == 100 && r.findings == []
    ensures d != CostOptimization ==>
              r.score == (if TotalPoints(Penalties(d, obs)) <= 100 then 100 - TotalPoints(Penalties(d, obs)) else 0)
  {
    if d == CostOptimization then CostScore else Conclude(d, Penalties(d, obs))
  }

  /** The stored security score in closed form: 15 per secret, 20/10/5/2
      per critical/high/medium/low vulnerable pattern (5 otherwise), 8 per
      vulnerable dependency and 10 per authentication or cryptography issue,
      clamped at 0. */
  lemma SecurityScore(obs: Observations)
    ensures var raw := 100 - 15 * |obs.secrets| - VulnTotal(obs.vulnerabilities)
                       - 8 * |obs.dependencyVulns| - 10 * |obs.jwtWithoutExpiry| - 10 * |obs.weakCrypto|;
            Analyze(Security, obs).score == (if raw < 0 then 0 else raw)
  {
    SecurityTotal(obs);
    assert Penalties(Security, obs) == SecurityPenalties(obs);
  }

  /** The points of the security penalties add up per kind of detection. */
  lemma SecurityTotal(obs: Observations)
    ensures TotalPoints(SecurityPenalties(obs))
            == 15 * |obs.secrets| + VulnTotal(obs.vulnerabilities)
               + 8 * |obs.dependencyVulns| + 10 * |obs.jwtWithoutExpiry| + 10 * |obs.weakCrypto|
  {
    var s, v, dv, a, c := SecretPenalties(obs.secrets), VulnPenalties(obs.vulnerabilities),
                          DependencyPenalties(obs.dependencyVulns), AuthPenalties(obs.jwtWithoutExpiry),
                          CryptoPenalties(obs.weakCrypto);
    TotalPointsAppend(s, v);
    TotalPointsAppend(s + v, dv);
    TotalPointsAppend(s + v + dv, a);
    TotalPointsAppend(s + v + dv + a, c);
    TotalPointsUniform(s, 15);
    TotalPointsUniform(dv, 8);
    TotalPointsUniform(a, 10);
    TotalPointsUniform(c, 10);
    VulnPenaltiesTotal(obs.vulnerabilities);
  }

  /** The dependency, authentication and cryptography penalties are all of
      high severity. */
  lemma HighPenalties(obs: Observations)
    ensures var high := DependencyPenalties(obs.dependencyVulns) + AuthPenalties(obs.jwtWithoutExpiry)
                        + CryptoPenalties(obs.weakCrypto);
            forall k :: 0 <= k < |high| ==> high[k].finding.severity == High
  {
    var d, a, c := DependencyPenalties(obs.dependencyVulns), AuthPenalties(obs.jwtWithoutExpiry),
                   CryptoPenalties(obs.weakCrypto);
    forall k | 0 <= k < |d + a + c|
      ensures (d + a + c)[k].finding.severity == High
    {
      if k < |d| {
        assert (d + a + c)[k] == d[k];
      } else if k < |d| + |a| {
        assert (d + a + c)[k] == a[k - |d|];
      } else {
        assert (d + a + c)[k] == c[k - |d| - |a|];
      }
    }
  }

  /** The security penalties: the secret, pattern and high blocks in order. */
  lemma SecurityPenaltyBlocks(obs: Observations)
    ensures SecurityPenalties(obs)
            == SecretPenalties(obs.secrets) + VulnPenalties(obs.vulnerabilities)
               + (DependencyPenalties(obs.dependencyVulns) + AuthPenalties(obs.jwtWithoutExpiry)
                  + CryptoPenalties(obs.weakCrypto))
  {
    var s, v := SecretPenalties(obs.secrets), VulnPenalties(obs.vulnerabilities);
    var d, a, c := DependencyPenalties(obs.dependencyVulns), AuthPenalties(obs.jwtWithoutExpiry),
                   CryptoPenalties(obs.weakCrypto);
    AppendAssoc(s + v + d, a, c);
    AppendAssoc(s + v, d, a + c);
    AppendAssoc(d, a, c);
  }

  /** One critical penalty per secret opens the security penalties. */
  lemma SecretBlock(obs: Observations)
    ensures forall k :: 0 <= k < |obs.secrets| ==> SecurityPenalties(obs)[k].finding.severity == Critical
  {
    var s := SecretPenalties(obs.secrets);
    var rest := VulnPenalties(obs.vulnerabilities)
                + (DependencyPenalties(obs.dependencyVulns) + AuthPenalties(obs.jwtWithoutExpiry)
                   + CryptoPenalties(obs.weakCrypto));
    SecurityPenaltyBlocks(obs);
    AppendAssoc(s, VulnPenalties(obs.vulnerabilities),
                DependencyPenalties(obs.dependencyVulns) + AuthPenalties(obs.jwtWithoutExpiry)
                + CryptoPenalties(obs.weakCrypto));
    var ps := s + rest;
    assert SecurityPenalties(obs) == ps;
    forall k | 0 <= k < |s|
      ensures ps[k].finding.severity == Critical
    {
      assert ps[k] == s[k];
    }
  }

  /** Then one penalty per vulnerable pattern, at the pattern's severity. */
  lemma VulnBlock(obs: Observations)
    ensures var ns := |obs.secrets|;
            forall k :: 0 <= k < |obs.vulnerabilities| ==>
              SecurityPenalties(obs)[ns + k].finding.severity == obs.vulnerabilities[k].severity
  {
    var s, v := SecretPenalties(obs.secrets), VulnPenalties(obs.vulnerabilities);
    var high := DependencyPenalties(obs.dependencyVulns) + AuthPenalties(obs.jwtWithoutExpiry)
                + CryptoPenalties(obs.weakCrypto);
    SecurityPenaltyBlocks(obs);
    var ps := s + v + high;
    forall k | 0 <= k < |v|
      ensures ps[|s| + k].finding.severity == obs.vulnerabilities[k].severity
    {
      assert ps[|s| + k] == v[k];
    }
  }

  /** And the rest are high. */
  lemma HighBlock(obs: Observations)
    ensures var ps := SecurityPenalties(obs);
            var ns, nv := |obs.secrets|, |obs.vulnerabilities|;
            && |ps| == ns + nv + |obs.dependencyVulns| + |obs.jwtWithoutExpiry| + |obs.weakCrypto|
            && forall k :: ns + nv <= k < |ps| ==> ps[k].finding.severity == High
  {
    var s, v := SecretPenalties(obs.secrets), VulnPenalties(obs.vulnerabilities);
    var high := DependencyPenalties(obs.dependencyVulns) + AuthPenalties(obs.jwtWithoutExpiry)
                + CryptoPenalties(obs.weakCrypto);
    SecurityPenaltyBlocks(obs);
    HighPenalties(obs);
    var ps := s + v + high;
    forall k | |s| + |v| <= k < |ps|
      ensures ps[k].finding.severity == High
    {
      assert ps[k] == high[k - |s| - |v|];
    }
  }

  /** Findings `fs` are, in order, one critical finding per secret, one per
      vulnerable pattern at that pattern's severity, then one high finding
      per dependency, authentication and cryptography issue. */
  ghost predicate SecurityShape(obs: Observations, fs: seq<Finding>) {
    var ns, nv, nd, na := |obs.secrets|, |obs.vulnerabilities|, |obs.dependencyVulns|, |obs.jwtWithoutExpiry|;
    && |fs| == ns + nv + nd + na + |obs.weakCrypto|
    && (forall k :: 0 <= k < ns ==> fs[k].severity == Critical)
    && (forall k :: 0 <= k < nv ==> fs[ns + k].severity == obs.vulnerabilities[k].severity)
    && (forall k :: ns + nv <= k < |fs| ==> fs[k].severity == High)
  }

  /** Every security finding carries the security dimension, secrets are
      critical, dependency, authentication and cryptography issues are high,
      and a vulnerable pattern keeps its own severity; the findings come in
      that order. */
  lemma SecurityFindings(obs: Observations)
    ensures SecurityShape(obs, Analyze(Security, obs).findings)
  {
    var ps := SecurityPenalties(obs);
    assert Analyze(Security, obs).findings == FindingsOf(ps);
    SecretBlock(obs);
    VulnBlock(obs);
    HighBlock(obs);
  }

  /* ------------------------------------------------------------ focus filter */

  /** The display name `run_assessment` gives the analyser of a dimension;
      the analysers run in declaration order (`AllDimensions`). */
  function DisplayName(d: Dimension): string {
    match d
    case Security => "Security"
    case Architecture => "Architecture"
    case Reliability => "Reliability"
    case Performance => "Performance"
    case Observability => "Observability"
    case Testing => "Testing"
    case DevOps => "DevOps"
    case DataManagement => "Data Management"
    case ApiContracts => "API Contracts"
    case Documentation => "Documentation"
    case Compliance => "Compliance"
    case CostOptimization => "Cost Optimization"
    case Dependencies => "Dependencies"
    case Configuration => "Configuration"
    case TeamReadiness => "Team Readiness"
  }

  /** `name.lower().replace(" ", "_")`. */
  function AnalyzerKey(name: string): string {
    ReplaceChar(Lower(name), ' ', '_')
  }

  /** The default focus: every dimension value. */
  function DefaultFocus(): (r: seq<string>)
    ensures |r| == |AllDimensions|
    ensures forall k :: 0 <= k < |r| ==> r[k] == DimensionValue(AllDimensions[k])
  {
    seq(|AllDimensions|, k requires 0 <= k < |AllDimensions| => DimensionValue(AllDimensions[k]))
  }

  /** `focus or [d.value for d in Dimension]`: a missing or empty focus means all. */
  function EffectiveFocus(focus: Option<seq<string>>): (r: seq<string>)
    ensures focus.Some? && |focus.value| > 0 ==> r == focus.value
    ensures focus.None? || |focus.value| == 0 ==> r == DefaultFocus()
  {
    if focus.None? || |focus.value| == 0 then DefaultFocus() else focus.value
  }

  /** `_should_analyze`. */
  predicate ShouldAnalyze(focus: seq<string>, key: string) {
    key in focus || "all" in focus
  }

  /* The display names are checked a few at a time to keep each proof small. */
  lemma AnalyzerKeysPart1()
    ensures AnalyzerKey("Security") == "security"
    ensures AnalyzerKey("Architecture") == "architecture"
  {
  }

  lemma AnalyzerKeysPart2()
    ensures AnalyzerKey("Reliability") == "reliability"
    ensures AnalyzerKey("Performance") == "performance"
  {
  }

  lemma AnalyzerKeysPart3()
    ensures AnalyzerKey("Observability") == "observability"
    ensures AnalyzerKey("Testing") == "testing"
  {
  }

  lemma AnalyzerKeysPart4()
    ensures AnalyzerKey("DevOps") == "devops"
    ensures AnalyzerKey("Data Management") == "data_management"
  {
  }

  lemma AnalyzerKeysPart5()
    ensures AnalyzerKey("API Contracts") == "api_contracts"
    ensures AnalyzerKey("Documentation") == "documentation"
  {
  }

  lemma AnalyzerKeysPart6()
    ensures AnalyzerKey("Compliance") == "compliance"
    ensures AnalyzerKey("Cost Optimization") == "cost_optimization"
  {
  }

  lemma AnalyzerKeysPart7()
    ensures AnalyzerKey("Dependencies") == "dependencies"
    ensures AnalyzerKey("Configuration") == "configuration"
  {
  }

  lemma AnalyzerKeysPart8()
    ensures AnalyzerKey("Team Readiness") == "team_readiness"
  {
  }

  /** Every analyser's display name, lower-cased with spaces turned into
      underscores, is the value of the dimension it analyses. */
  lemma AnalyzerKeyMatches(d: Dimension)
    ensures AnalyzerKey(DisplayName(d)) == DimensionValue(d)
  {
    AnalyzerKeysPart1();
    AnalyzerKeysPart2();
    AnalyzerKeysPart3();
    AnalyzerKeysPart4();
    AnalyzerKeysPart5();
    AnalyzerKeysPart6();
    AnalyzerKeysPart7();
    AnalyzerKeysPart8();
  }

  /** With the default focus, or with "all" in the focus, every analyser runs. */
  lemma DefaultFocusSelectsAll(focus: Option<seq<string>>)
    requires focus.None? || |focus.value| == 0 || "all" in focus.value
    ensures forall d: Dimension :: ShouldAnalyze(EffectiveFocus(focus), DimensionValue(d))
  {
    forall d: Dimension ensures ShouldAnalyze(EffectiveFocus(focus), DimensionValue(d)) {
      var i := DimensionIndex(d);
      if focus.None? || |focus.value| == 0 {
        assert DefaultFocus()[i] == DimensionValue(d);
      }
    }
  }

  /* -------------------------------------------------------------- the run */

  /** One entry of the analyser list: its display name and the dimension it
      scores. */
  datatype Analyzer = Analyzer(name: string, dimension: Dimension)

  /** The analyser list of `run_assessment`, in declaration order. */
  const AnalyzerTable: seq<Analyzer> :=
    seq(|AllDimensions|, i requires 0 <= i < |AllDimensions| => Analyzer(DisplayName(AllDimensions[i]), AllDimensions[i]))

  /** A table whose i-th entry scores the i-th dimension under a name whose
      key is that dimension's value. */
  ghost predicate WellKeyed(table: seq<Analyzer>) {
    |table| == |AllDimensions| &&
    forall i :: 0 <= i < |table| ==>
      table[i].dimension == AllDimensions[i] && AnalyzerKey(table[i].name) == DimensionValue(table[i].dimension)
  }

  lemma AnalyzerTableWellKeyed()
    ensures WellKeyed(AnalyzerTable)
  {
    forall i | 0 <= i < |AnalyzerTable|
      ensures AnalyzerKey(AnalyzerTable[i].name) == DimensionValue(AnalyzerTable[i].dimension)
    {
      AnalyzerKeyMatches(AllDimensions[i]);
    }
  }

  /** The state the analysers accumulate: all findings in order, and the
      scores of the analysed dimensions in analyser order. */
  datatype AssessmentState = AssessmentState(findings: seq<Finding>, scores: seq<DimensionScore>)

  /** The state after the first `n` entries of `table`, each analyser being
      `analyze`; a skipped analyser leaves the state as it was, and the
      cost-optimisation result is stored without extending the findings. */
  function RunWith(focus: seq<string>, table: seq<Analyzer>, analyze: Dimension -> DimensionScore, n: nat)
    : (st: AssessmentState)
    requires n <= |table|
    ensures |st.scores| <= n
  {
    if n == 0 then AssessmentState([], [])
    else
      var prev := RunWith(focus, table, analyze, n - 1);
      var a := table[n - 1];
      if !ShouldAnalyze(focus, AnalyzerKey(a.name)) then prev
      else
        var r := analyze(a.dimension);
        AssessmentState(if a.dimension == CostOptimization then prev.findings else prev.findings + r.findings,
                        prev.scores + [r])
  }

  /** The dimension at position `j` of the declaration order has index `j`. */
  lemma IndexOfPosition(j: nat)
    requires j < |AllDimensions|
    ensures DimensionIndex(AllDimensions[j]) == j
  {
    DimensionTable();
    var i := DimensionIndex(AllDimensions[j]);
    assert AllDimensions[i] == AllDimensions[j];
  }

  /** All findings of the listed scores, concatenated. */
  function AllFindings(scores: seq<DimensionScore>): seq<Finding> {
    if |scores| == 0 then [] else AllFindings(scores[..|scores| - 1]) + scores[|scores| - 1].findings
  }

  /** The dimensions the focus selects among the first `n` of a well-keyed
      table, in declaration order: the reference the run is compared against. */
  function Selected(focus: seq<string>, n: nat): (ds: seq<Dimension>)
    requires n <= |AllDimensions|
    ensures |ds| <= n
  {
    if n == 0 then []
    else
      var d := AllDimensions[n - 1];
      Selected(focus, n - 1) + (if ShouldAnalyze(focus, DimensionValue(d)) then [d] else [])
  }

  /** A dimension has index `j` exactly when it is the `j`-th in declaration order. */
  lemma IndexIsPosition(d: Dimension, j: nat)
    requires j < |AllDimensions|
    ensures DimensionIndex(d) == j <==> d == AllDimensions[j]
  {
    if d == AllDimensions[j] {
      IndexOfPosition(j);
    }
  }

  /** One step of a prefix filter: `x` is kept among the first `m + 1`
      candidates exactly when its index is below `m + 1` and it passes. */
  lemma FilterStep<T>(prev: seq<T>, last: T, keep: bool, x: T, index: int, m: int, passes: bool)
    requires x in prev <==> index < m && passes
    requires x == last ==> index == m && passes == keep
    requires index == m ==> x == last
    ensures x in prev + (if keep then [last] else []) <==> index < m + 1 && passes
  {
  }

  /** No dimension is listed twice. */
  lemma DimensionsDistinct(i: nat, j: nat)
    requires i < |AllDimensions| && j < |AllDimensions|
    ensures AllDimensions[i] == AllDimensions[j] ==> i == j
  {
    IndexOfPosition(i);
    IndexOfPosition(j);
  }

  /** The `j`-th dimension is selected exactly when `j` is below `n` and the
      focus names it (or "all"). */
  lemma {:induction false} SelectedAt(focus: seq<string>, n: nat, j: nat)
    requires n <= |AllDimensions| && j < |AllDimensions|
    ensures AllDimensions[j] in Selected(focus, n)
            <==> j < n && ShouldAnalyze(focus, DimensionValue(AllDimensions[j]))
  {
    if n > 0 {
      var last, x := AllDimensions[n - 1], AllDimensions[j];
      var prev := Selected(focus, n - 1);
      var keep := ShouldAnalyze(focus, DimensionValue(last));
      assert Selected(focus, n) == prev + (if keep then [last] else []);
      SelectedAt(focus, n - 1, j);
      DimensionsDistinct(j, n - 1);
      FilterStep(prev, last, keep, x, j, n - 1, ShouldAnalyze(focus, DimensionValue(x)));
    } else {
      assert Selected(focus, 0) == [];
    }
  }

  /** A dimension is selected exactly when it is among the first `n` and the
      focus names it (or "all"). */
  lemma SelectedMembership(focus: seq<string>, n: nat, d: Dimension)
    requires n <= |AllDimensions|
    ensures d in Selected(focus, n) <==> DimensionIndex(d) < n && ShouldAnalyze(focus, DimensionValue(d))
  {
    SelectedAt(focus, n, DimensionIndex(d));
  }

  /** Every dimension selected among the first `n` has an index below `n`. */
  lemma {:induction false} SelectedBelow(focus: seq<string>, n: nat)
    requires n <= |AllDimensions|
    ensures forall k :: 0 <= k < |Selected(focus, n)| ==> DimensionIndex(Selected(focus, n)[k]) < n
  {
    if n > 0 {
      SelectedBelow(focus, n - 1);
      IndexOfPosition(n - 1);
    }
  }

  /** The selected dimensions keep declaration order. */
  lemma {:induction false} SelectedOrdered(focus: seq<string>, n: nat)
    requires n <= |AllDimensions|
    ensures forall k, j :: 0 <= k < j < |Selected(focus, n)| ==>
              DimensionIndex(Selected(focus, n)[k]) < DimensionIndex(Selected(focus, n)[j])
  {
    if n > 0 {
      SelectedOrdered(focus, n - 1);
      SelectedBelow(focus, n - 1);
      IndexOfPosition(n - 1);
      var prev := Selected(focus, n - 1);
      var last := AllDimensions[n - 1];
      var tail := if ShouldAnalyze(focus, DimensionValue(last)) then [last] else [];
      assert Selected(focus, n) == prev + tail;
      forall k, j | 0 <= k < j < |prev + tail|
        ensures DimensionIndex((prev + tail)[k]) < DimensionIndex((prev + tail)[j])
      {
        if j >= |prev| {
          assert (prev + tail)[j] == last;
          assert (prev + tail)[k] == prev[k];
        } else {
          assert (prev + tail)[k] == prev[k] && (prev + tail)[j] == prev[j];
        }
      }
    }
  }

  /** A dimension is selected exactly when it is among the first `n` and the
      focus names it (or "all"); the selected dimensions keep declaration order. */
  lemma SelectedMembers(focus: seq<string>, n: nat)
    requires n <= |AllDimensions|
    ensures forall d :: d in Selected(focus, n) <==> DimensionIndex(d) < n && ShouldAnalyze(focus, DimensionValue(d))
    ensures forall k, j :: 0 <= k < j < |Selected(focus, n)| ==>
              DimensionIndex(Selected(focus, n)[k]) < DimensionIndex(Selected(focus, n)[j])
  {
    forall d ensures d in Selected(focus, n) <==> DimensionIndex(d) < n && ShouldAnalyze(focus, DimensionValue(d)) {
      SelectedMembership(focus, n, d);
    }
    SelectedOrdered(focus, n);
  }

  /** When the focus selects every dimension, all of the first `n` are selected. */
  lemma {:induction false} SelectedAll(focus: seq<string>, n: nat)
    requires n <= |AllDimensions|
    requires forall d: Dimension :: ShouldAnalyze(focus, DimensionValue(d))
    ensures Selected(focus, n) == AllDimensions[..n]
  {
    if n > 0 {
      SelectedAll(focus, n - 1);
      assert AllDimensions[..n] == AllDimensions[..n - 1] + [AllDimensions[n - 1]];
    }
  }

  /** `[analyze(d) for d in ds]`. */
  function MapScores(analyze: Dimension -> DimensionScore, ds: seq<Dimension>): (rs: seq<DimensionScore>)
    ensures |rs| == |ds|
    ensures forall k :: 0 <= k < |ds| ==> rs[k] == analyze(ds[k])
  {
    seq(|ds|, k requires 0 <= k < |ds| => analyze(ds[k]))
  }

  lemma MapScoresAppend(analyze: Dimension -> DimensionScore, a: seq<Dimension>, b: seq<Dimension>)
    ensures MapScores(analyze, a + b) == MapScores(analyze, a) + MapScores(analyze, b)
  {
    var l, r := MapScores(analyze, a + b), MapScores(analyze, a) + MapScores(analyze, b);
    assert |l| == |r|;
    forall k | 0 <= k < |l| ensures l[k] == r[k] {
      if k < |a| {
        assert (a + b)[k] == a[k];
      } else {
        assert (a + b)[k] == b[k - |a|];
      }
    }
  }

  /** Appending one stored score appends its findings. */
  lemma AllFindingsSnoc(scores: seq<DimensionScore>, r: DimensionScore)
    ensures AllFindings(scores + [r]) == AllFindings(scores) + r.findings
  {
    assert (scores + [r])[..|scores|] == scores;
  }

  /** Over a well-keyed table, the run stores exactly the results for the
      selected dimensions, in declaration order, and its findings are theirs
      concatenated (cost optimisation skips `self.findings.extend`, which
      changes nothing as long as its result has no findings). */
  lemma {:induction false} RunWithMatches(focus: seq<string>, table: seq<Analyzer>,
                                          analyze: Dimension -> DimensionScore, n: nat)
    requires WellKeyed(table) && n <= |table|
    requires analyze(CostOptimization).findings == []
    ensures RunWith(focus, table, analyze, n).scores == MapScores(analyze, Selected(focus, n))
    ensures RunWith(focus, table, analyze, n).findings == AllFindings(RunWith(focus, table, analyze, n).scores)
  {
    if n > 0 {
      RunWithMatches(focus, table, analyze, n - 1);
      var a := table[n - 1];
      var d := AllDimensions[n - 1];
      assert a.dimension == d && AnalyzerKey(a.name) == DimensionValue(d);
      var prev := RunWith(focus, table, analyze, n - 1);
      var st := RunWith(focus, table, analyze, n);
      var sel := Selected(focus, n - 1);
      if ShouldAnalyze(focus, DimensionValue(d)) {
        var r := analyze(d);
        assert Selected(focus, n) == sel + [d];
        MapScoresAppend(analyze, sel, [d]);
        assert MapScores(analyze, [d]) == [r];
        assert st.scores == prev.scores + [r];
        assert st.scores == MapScores(analyze, Selected(focus, n));
        AllFindingsSnoc(prev.scores, r);
        if d == CostOptimization {
          assert r.findings == [];
          assert st.findings == prev.findings;
          assert prev.findings + r.findings == prev.findings;
        } else {
          assert st.findings == prev.findings + r.findings;
        }
        assert st.findings == AllFindings(st.scores);
      } else {
        assert Selected(focus, n) == sel + [];
        assert sel + [] == sel;
        assert st == prev;
      }
    } else {
      assert Selected(focus, 0) == [];
      assert MapScores(analyze, []) == [];
    }
  }

  /** The analyser phase of `run_assessment`: the scores are the analyses of
      the selected dimensions in declaration order, and the findings are the
      stored scores' findings in the same order. */
  function RunAnalyzers(focus: Option<seq<string>>, obs: Observations): (st: AssessmentState)
    ensures st.scores == MapScores(d => Analyze(d, obs), Selected(EffectiveFocus(focus), |AllDimensions|))
    ensures st.findings == AllFindings(st.scores)
  {
    var analyze := d => Analyze(d, obs);
    AnalyzerTableWellKeyed();
    assert analyze(CostOptimization).findings == [];
    RunWithMatches(EffectiveFocus(focus), AnalyzerTable, analyze, |AllDimensions|);
    RunWith(EffectiveFocus(focus), AnalyzerTable, analyze, |AllDimensions|)
  }

  /** Over a well-keyed table and analysers that score their own dimension,
      a dimension is scored exactly when the focus names it (or "all"). */
  lemma ScoredIffSelected(focus: seq<string>, table: seq<Analyzer>, analyze: Dimension -> DimensionScore, d: Dimension)
    requires WellKeyed(table)
    requires analyze(CostOptimization).findings == []
    requires forall x :: analyze(x).dimension == x
    ensures var st := RunWith(focus, table, analyze, |table|);
            (exists k :: 0 <= k < |st.scores| && st.scores[k].dimension == d)
              <==> ShouldAnalyze(focus, DimensionValue(d))
  {
    var n := |table|;
    RunWithMatches(focus, table, analyze, n);
    SelectedMembership(focus, n, d);
    var ds := Selected(focus, n);
    var st := RunWith(focus, table, analyze, n);
    assert st.scores == MapScores(analyze, ds);
    assert DimensionIndex(d) < n;
    if ShouldAnalyze(focus, DimensionValue(d)) {
      assert d in ds;
      var k :| 0 <= k < |ds| && ds[k] == d;
      assert st.scores[k] == analyze(d);
    }
    forall k | 0 <= k < |st.scores| && st.scores[k].dimension == d
      ensures ShouldAnalyze(focus, DimensionValue(d))
    {
      assert st.scores[k] == analyze(ds[k]);
      assert ds[k] == d;
    }
  }

  /** A dimension is scored exactly when the focus names it (or "all"). */
  lemma RunScoresSelected(focus: Option<seq<string>>, obs: Observations, d: Dimension)
    ensures var st := RunAnalyzers(focus, obs);
            (exists k :: 0 <= k < |st.scores| && st.scores[k].dimension == d)
              <==> ShouldAnalyze(EffectiveFocus(focus), DimensionValue(d))
  {
    AnalyzerTableWellKeyed();
    var analyze := x => Analyze(x, obs);
    assert analyze(CostOptimization).findings == [];
    ScoredIffSelected(EffectiveFocus(focus), AnalyzerTable, analyze, d);
    assert RunAnalyzers(focus, obs) == RunWith(EffectiveFocus(focus), AnalyzerTable, analyze, |AnalyzerTable|);
  }

  /** With the default focus, or with "all" in the focus, all fifteen
      dimensions are scored, in declaration order. */
  lemma RunAllSelected(focus: Option<seq<string>>, obs: Observations)
    requires focus.None? || |focus.value| == 0 || "all" in focus.value
    ensures var st := RunAnalyzers(focus, obs);
            |st.scores| == 15 && forall k :: 0 <= k < 15 ==> st.scores[k] == Analyze(AllDimensions[k], obs)
  {
    var f := EffectiveFocus(focus);
    DefaultFocusSelectsAll(focus);
    SelectedAll(f, |AllDimensions|);
    assert AllDimensions[..|AllDimensions|] == AllDimensions;
  }
}
