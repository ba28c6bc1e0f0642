# Production-readiness assessment: a Dafny model

This project models the deterministic core of a production-readiness toolkit
made of four Python scripts, and proves properties of that core.

- **Assessment** (`production_readiness.py`). Severities, the fifteen
  dimensions and their weights, and the focus filter that chooses which
  analysers run. Each analyser starts at 100, takes fixed points off per
  finding and stores `max(0, score)`. The model also covers the weighted
  overall score, the readiness level and executive recommendation, the
  severity buckets, the per-dimension summary and top-5 recommendations, and
  the three-phase remediation roadmap. What an analyser detects on disk
  (secret matches, vulnerable patterns, whether a README exists, ...) is an
  input record, `Analyzers.Observations`.
- **Report rendering** (`generate_report.py`). The markdown report covers:
  - the overall badge and the per-row colour;
  - the dimension table in ascending, stable score order;
  - dimension display names;
  - numbered critical and high issues;
  - sections shown only when their list is non-empty;
  - the first three recommendations per dimension.

  It also covers the HTML wrapper around the markdown, and the output
  file's extension and default path.
- **Secret-scan hook** (`hooks/scripts/security-scan.py`). This covers:
  - the substring skip list;
  - each finding's line number and 50-character excerpt;
  - findings ordered by pattern, then by position;
  - the route through `main`, which fails open;
  - the block or allow decision and its message;
  - the exit status.

  Regular-expression matching is an oracle that returns ordered,
  non-overlapping spans per pattern. `AKIA[0-9A-Z]{16}` also has a concrete
  recogniser that is proved to satisfy the oracle's contract.
- **Clone command** (`clone_repo.py`). The `git clone` argument list for a
  depth choice, and the choice of target path. The target is either the
  given output path or `project` inside a `prod_readiness_` temporary
  directory.

Modules follow the scripts:

| Module | Models |
|---|---|
| `Common` | Option and string helpers. |
| `Paths` | `PurePosixPath`-style normalisation: name, parent, stem, suffix. |
| `Assessment` | Enums, weights and records. |
| `Analyzers` | The analysers and the focus filter. |
| `Scoring` | The overall score and the readiness level. |
| `Report` | The assessment report. |
| `Markdown` | `generate_report.py`. |
| `SecretScan` | The hook. |
| `Clone` | `clone_repo.py`. |

Python behaviour is written out where it matters:
- `str.title()` on ASCII text;
- the stability of `sorted`;
- `os.path.join` with an empty or `/`-terminated first part;
- `sys.exit` raising `SystemExit`, which `except Exception` does not catch;
- a log write that fails inside the exception handler escaping `main`.

`clone_repository` defaults to `depth="full"`, which passes no depth flag.
The command line defaults to `shallow`, which passes `--depth 100`. The
model takes the depth as an argument and proves both cases.

## Model

| member | source | states |
|---|---|---|
| Assessment.DimensionTable | skills/production-readiness/production-readiness/scripts/production_readiness.py:29-65 | The declaration order lists each of the 15 dimensions exactly once. Distinct dimensions have distinct value strings. Every weight lies between 1.5 and 3.0. |
| Assessment.OfSeverity | skills/production-readiness/production-readiness/scripts/production_readiness.py:1299-1302 | A severity bucket is no longer than the finding list. Every member has that severity and comes from the list. |
| Report.OfSeverityMembers | skills/production-readiness/production-readiness/scripts/production_readiness.py:1299-1302 | A finding is in the bucket of severity s if and only if it is in the finding list with severity s. |
| Report.OfSeverityAppend | skills/production-readiness/production-readiness/scripts/production_readiness.py:1299-1302 | Bucketing distributes over concatenation, so each bucket keeps the original relative order. |
| Report.SeverityPartition | skills/production-readiness/production-readiness/scripts/production_readiness.py:1299-1302 | The five severity buckets together have exactly as many members as the finding list. |
| Report.BucketCounts | skills/production-readiness/production-readiness/scripts/production_readiness.py:1317-1321 | The critical, high, medium and low counts sum to the total minus the informational findings, so they never exceed the total. |
| Analyzers.Conclude | skills/production-readiness/production-readiness/scripts/production_readiness.py:1175-1182 | An analyser's stored score is 100 minus its total deduction, clamped at 0. It lies in [0, 100] and is 100 exactly when there is no finding. The result keeps the dimension and the findings. |
| Analyzers.TotalPointsAppend | skills/production-readiness/production-readiness/scripts/production_readiness.py:321-399 | The deductions of two lists of findings add up. |
| Analyzers.TotalPointsUniform | skills/production-readiness/production-readiness/scripts/production_readiness.py:321-399 | n findings that each cost c points cost c times n. |
| Analyzers.VulnPenaltiesTotal | skills/production-readiness/production-readiness/scripts/production_readiness.py:344-360 | The deductions for vulnerable patterns are 20, 10, 5 and 2 per critical, high, medium and low match, and 5 otherwise. They equal an independently summed reference. |
| Analyzers.SecurityScore | skills/production-readiness/production-readiness/scripts/production_readiness.py:321-399 | The stored security score is max(0, 100 − 15·secrets − the per-pattern deductions − 8·vulnerable dependencies − 10·authentication issues − 10·weak-crypto uses). |
| Analyzers.SecurityFindings | skills/production-readiness/production-readiness/scripts/production_readiness.py:321-399 | The security findings come in this order: secrets (critical), vulnerable patterns (each keeps its own severity), then dependency, authentication and cryptography issues (all high). There is one finding per detection. |
| Analyzers.ArchitecturePenalties | skills/production-readiness/production-readiness/scripts/production_readiness.py:617-652 | A missing src directory costs 5 points. The findings belong to Architecture. |
| Analyzers.ReliabilityPenalties | skills/production-readiness/production-readiness/scripts/production_readiness.py:654-728 | Missing error handling costs 20 and a missing health endpoint costs 10. |
| Analyzers.PerformancePenalties | skills/production-readiness/production-readiness/scripts/production_readiness.py:730-774 | A missing caching layer costs 15. |
| Analyzers.ObservabilityPenalties | skills/production-readiness/production-readiness/scripts/production_readiness.py:776-838 | Missing logging costs 25 and missing metrics cost 15. |
| Analyzers.TestingPenalties | skills/production-readiness/production-readiness/scripts/production_readiness.py:840-900 | A missing test directory costs 40 and missing CI tests cost 20. |
| Analyzers.DevOpsPenalties | skills/production-readiness/production-readiness/scripts/production_readiness.py:902-953 | A missing CI/CD pipeline costs 25 and a missing Dockerfile costs 10. |
| Analyzers.DataPenalties | skills/production-readiness/production-readiness/scripts/production_readiness.py:955-1001 | 20 points come off only when there is no migrations directory and a database is used. |
| Analyzers.ApiPenalties | skills/production-readiness/production-readiness/scripts/production_readiness.py:1003-1036 | A missing OpenAPI specification costs 15. |
| Analyzers.DocumentationPenalties | skills/production-readiness/production-readiness/scripts/production_readiness.py:1038-1091 | Having neither README.md nor README.rst costs 30. A README.md shorter than 500 characters costs 10 instead. |
| Analyzers.CompliancePenalties | skills/production-readiness/production-readiness/scripts/production_readiness.py:1093-1130 | A missing LICENSE costs 15. |
| Analyzers.DependencyHealthPenalties | skills/production-readiness/production-readiness/scripts/production_readiness.py:1148-1184 | A missing lock file costs 15. |
| Analyzers.ConfigurationPenalties | skills/production-readiness/production-readiness/scripts/production_readiness.py:1186-1216 | A .env file without a .env.example costs 10. |
| Analyzers.TeamPenalties | skills/production-readiness/production-readiness/scripts/production_readiness.py:1218-1250 | A missing CONTRIBUTING guide costs 10. |
| Analyzers.Analyze | skills/production-readiness/production-readiness/scripts/production_readiness.py:1132-1146 | Every analyser scores its own dimension, in [0, 100], and its findings carry that dimension. Cost optimisation is exactly 100 with no findings. Every other score is 100 minus the deductions, clamped at 0. |
| Analyzers.DimensionSummary | skills/production-readiness/production-readiness/scripts/production_readiness.py:1267-1276 | The summary is the "analysis complete with no issues found" sentence exactly when the finding list is empty. |
| Analyzers.DimensionRecommendations | skills/production-readiness/production-readiness/scripts/production_readiness.py:1278-1280 | The recommendations are the remediations of the first min(5, n) findings, in order. |
| Analyzers.EffectiveFocus | skills/production-readiness/production-readiness/scripts/production_readiness.py:106 | A missing or empty focus becomes every dimension value. Any other focus is kept as given. |
| Analyzers.DefaultFocus | skills/production-readiness/production-readiness/scripts/production_readiness.py:106 | The default focus lists the value of each of the 15 dimensions in declaration order. |
| Analyzers.AnalyzerKeyMatches | skills/production-readiness/production-readiness/scripts/production_readiness.py:133-152 | Each analyser's display name, lower-cased with spaces turned into underscores, is the value of the dimension it scores. |
| Analyzers.AnalyzerTableWellKeyed | skills/production-readiness/production-readiness/scripts/production_readiness.py:133-149 | The analyser list follows declaration order, one entry per dimension, and each entry's key is its dimension's value. |
| Analyzers.DefaultFocusSelectsAll | skills/production-readiness/production-readiness/scripts/production_readiness.py:197-199 | With the default focus, or with "all" in the focus, the focus filter admits every dimension. |
| Analyzers.SelectedMembers | skills/production-readiness/production-readiness/scripts/production_readiness.py:151-154 | The reference selection contains exactly the dimensions the focus names (or all of them for "all"), in declaration order. |
| Analyzers.RunWithMatches | skills/production-readiness/production-readiness/scripts/production_readiness.py:151-154 | The analyser loop stores exactly the results for the selected dimensions, in declaration order. The accumulated findings are those results' findings concatenated. |
| Analyzers.RunAnalyzers | skills/production-readiness/production-readiness/scripts/production_readiness.py:133-154 | A run's scores are the analyses of the selected dimensions in declaration order. Its findings are their findings in the same order. |
| Analyzers.ScoredIffSelected | skills/production-readiness/production-readiness/scripts/production_readiness.py:151-154 | For any well-keyed analyser list, a dimension gets a score if and only if the focus names it or contains "all". |
| Analyzers.RunScoresSelected | skills/production-readiness/production-readiness/scripts/production_readiness.py:151-154 | In a run, a dimension is scored if and only if the effective focus selects it. |
| Analyzers.RunAllSelected | skills/production-readiness/production-readiness/scripts/production_readiness.py:106-154 | With the default focus or "all", all 15 dimensions are scored in declaration order. |
| Scoring.ScoreTable | skills/production-readiness/production-readiness/scripts/production_readiness.py:1257-1259 | The score map has a key exactly for each stored dimension, and holds that dimension's score. |
| Scoring.TotalWeight | skills/production-readiness/production-readiness/scripts/production_readiness.py:1252-1262 | The total weight is non-negative. It is zero exactly when no listed dimension is scored. |
| Scoring.OverallScore | skills/production-readiness/production-readiness/scripts/production_readiness.py:1252-1265 | With nothing scored the overall score is 0. |
| Scoring.OverallScoreIsMean | skills/production-readiness/production-readiness/scripts/production_readiness.py:1252-1265 | With something scored, the total weight is positive and the overall score is the weighted sum divided by it. |
| Scoring.WeightedSumAbove | skills/production-readiness/production-readiness/scripts/production_readiness.py:1257-1260 | If every score is at least lo, the weighted sum is at least lo times the total weight. |
| Scoring.WeightedSumBelow | skills/production-readiness/production-readiness/scripts/production_readiness.py:1257-1260 | If every score is at most hi, the weighted sum is at most hi times the total weight. |
| Scoring.OverallScoreBounds | skills/production-readiness/production-readiness/scripts/production_readiness.py:1252-1265 | The overall score lies between the smallest and the largest stored score. |
| Scoring.OverallScoreUniform | skills/production-readiness/production-readiness/scripts/production_readiness.py:1252-1265 | When every stored score is c, the overall score is c. |
| Scoring.ThresholdsMetMonotone | skills/production-readiness/production-readiness/scripts/production_readiness.py:1287-1296 | A higher score reaches at least as many thresholds. |
| Scoring.ReadinessOf | skills/production-readiness/production-readiness/scripts/production_readiness.py:1287-1296 | The readiness rank is the number of thresholds 25, 50, 75 and 90 the score reaches. This makes it total, from Substantial Rebuild Required up to Production Ready. |
| Scoring.ReadinessMonotone | skills/production-readiness/production-readiness/scripts/production_readiness.py:1287-1296 | The readiness level never drops as the score rises. |
| Scoring.ReadinessTextsDistinct | skills/production-readiness/production-readiness/scripts/production_readiness.py:1287-1296 | The five readiness labels are pairwise different. |
| Scoring.ExecutiveRecommendation | skills/production-readiness/production-readiness/scripts/production_readiness.py:1348-1357 | The recommendation is the major-remediation text exactly below 50. It is the production-ready text exactly from 90 up. |
| Scoring.RecommendationFollowsReadiness | skills/production-readiness/production-readiness/scripts/production_readiness.py:1348-1357 | The recommendation agrees with the readiness level: production-ready advice at that level, the critical-count advice when nearly ready, and so on. |
| Report.CriticalSecurityMembers | skills/production-readiness/production-readiness/scripts/production_readiness.py:1364-1365 | A finding is selected for the first phase if and only if it is critical and belongs to Security. |
| Report.Titles | skills/production-readiness/production-readiness/scripts/production_readiness.py:1371 | The items are the findings' titles, one per finding, in order. |
| Report.PhaseIf | skills/production-readiness/production-readiness/scripts/production_readiness.py:1366-1372 | A phase exists exactly when its list is non-empty. It carries its number and the titles of the first five findings. |
| Report.Roadmap | skills/production-readiness/production-readiness/scripts/production_readiness.py:1359-1394 | Phase numbers strictly increase and lie among 1, 2 and 3. Each phase holds between 1 and 5 items. |
| Report.RoadmapPhaseOne | skills/production-readiness/production-readiness/scripts/production_readiness.py:1363-1372 | Phase 1 exists exactly when there is a critical security finding. Its items are the titles of the first five such findings. |
| Report.RoadmapPhaseTwo | skills/production-readiness/production-readiness/scripts/production_readiness.py:1374-1382 | Phase 2 exists exactly when there is a high finding. Its items are the first five high findings' titles. |
| Report.RoadmapPhaseThree | skills/production-readiness/production-readiness/scripts/production_readiness.py:1384-1392 | Phase 3 exists exactly when there is a medium finding. Its items are the first five medium findings' titles. |
| Report.PhaseOneIsCriticalSecurity | skills/production-readiness/production-readiness/scripts/production_readiness.py:1363-1372 | Every item of phase 1 is the title of a finding that is both critical and in the Security dimension. |
| Report.GenerateReport | skills/production-readiness/production-readiness/scripts/production_readiness.py:1282-1346 | The report's buckets are the four severity buckets of the findings. The summary counts are their sizes, they sum to at most the total, and the total is the finding count. There is one dimension entry per stored score, with its key, score, weight, summary, recommendations and finding count. The summary carries the overall score, its readiness level (`Scoring.ReadinessOf`) and the advice for it and the critical count (`Scoring.ExecutiveRecommendation`). The roadmap is `Report.Roadmap` of the findings. |
| Report.RunAssessment | skills/production-readiness/production-readiness/scripts/production_readiness.py:115-166 | An assessment reports an error exactly when the clone failed. |
| Report.OverallInRange | skills/production-readiness/production-readiness/scripts/production_readiness.py:1252-1265 | Dimension scores in [0, 100] give an overall score in [0, 100]. |
| Report.RunScoresInRange | skills/production-readiness/production-readiness/scripts/production_readiness.py:115-166 | Every dimension score a run reports lies in [0, 100], and so does its overall score. |
| Markdown.Badge | skills/production-readiness/production-readiness/scripts/generate_report.py:25-36 | The overall badge's rank is the number of thresholds 50, 75 and 90 the score reaches: red, orange, yellow, then green. |
| Markdown.RowColor | skills/production-readiness/production-readiness/scripts/generate_report.py:69-77 | A row's colour rank is the number of thresholds 40, 60 and 80 its score reaches. |
| Markdown.ColorsMonotone | skills/production-readiness/production-readiness/scripts/generate_report.py:25-77 | A higher score never gets a worse badge or row colour. |
| Markdown.ColorMarksDistinct | skills/production-readiness/production-readiness/scripts/generate_report.py:29-36 | The four colour marks are pairwise different. |
| Markdown.TitleCaseProperties | skills/production-readiness/production-readiness/scripts/generate_report.py:79 | Title-casing changes only letter case, since it lower-cases to the same text, and applying it twice changes nothing. |
| Markdown.DisplayNameWords | skills/production-readiness/production-readiness/scripts/generate_report.py:79 | In a display name, a letter is upper-case exactly when it starts a word, i.e. follows a non-letter such as an underscore turned space. Every other letter is lower-case. |
| Markdown.DisplayNameRoundTrip | skills/production-readiness/production-readiness/scripts/generate_report.py:79 | Lower-casing a display name and turning spaces back into underscores gives back a lowercase dimension key. |
| Markdown.SortRows | skills/production-readiness/production-readiness/scripts/generate_report.py:68 | The dimension rows come out as a permutation of the input, in non-decreasing score order, with a missing score counting as 0. |
| Markdown.SortRowsStable | skills/production-readiness/production-readiness/scripts/generate_report.py:68 | The sort is stable: rows with equal scores keep their input order. |
| Markdown.ScoreTable | skills/production-readiness/production-readiness/scripts/generate_report.py:67-80 | The table has one row per dimension, and row k renders the k-th dimension in sorted order. |
| Markdown.Numbered | skills/production-readiness/production-readiness/scripts/generate_report.py:90-91 | Issue k gets the heading numbered start + k, so with start 1 the numbers run 1..n in input order. |
| Markdown.IssueSection | skills/production-readiness/production-readiness/scripts/generate_report.py:88-111 | A critical or high section has its title line, then 8 or 6 lines per issue. The k-th block starts with the heading numbered k + 1 for the k-th issue. |
| Markdown.TopRecommendations | skills/production-readiness/production-readiness/scripts/generate_report.py:154-158 | Exactly the first min(3, n) recommendations are printed, in order, as list items. |
| Markdown.ShownOf | skills/production-readiness/production-readiness/scripts/generate_report.py:16-166 | The emitted sections are exactly the report's sections whose condition holds. |
| Markdown.SectionsInOrder | skills/production-readiness/production-readiness/scripts/generate_report.py:16-166 | The sections appear in the report's fixed order. |
| Markdown.ShownIff | skills/production-readiness/production-readiness/scripts/generate_report.py:16-166 | A section appears if and only if its condition holds. |
| Markdown.FixedSectionsShown | skills/production-readiness/production-readiness/scripts/generate_report.py:16-166 | The header, executive summary, findings summary, dimension scores, dimension details and footer always appear. |
| Markdown.StackAndCriticalShown | skills/production-readiness/production-readiness/scripts/generate_report.py:53-98 | The technology-stack and critical-issues sections appear if and only if their lists are non-empty. |
| Markdown.PrioritySectionsShown | skills/production-readiness/production-readiness/scripts/generate_report.py:100-144 | The high, medium and low issue sections and the roadmap each appear if and only if their list is non-empty. |
| Markdown.HtmlKeepsMarkdown | skills/production-readiness/production-readiness/scripts/generate_report.py:169-198 | The HTML page is the head, the opening `<pre>` tag, the markdown verbatim (unescaped) and the closing tags. Cutting the same head, tag and closing tags off the page recovers the markdown exactly. |
| Markdown.Extension | skills/production-readiness/production-readiness/scripts/generate_report.py:215-223 | Each format's extension is a dot followed by a dot-free name: `.md`, `.html` or `.json`. |
| Markdown.OutputPath | skills/production-readiness/production-readiness/scripts/generate_report.py:226-229 | A non-empty `--output` is used as given. Otherwise the default path is used. |
| Markdown.DefaultOutputPathParts | skills/production-readiness/production-readiness/scripts/generate_report.py:229 | The default path has no directory part. Its stem is the input's stem plus `_report`, and its suffix is the format's extension. |
| SecretScan.AnyContained | hooks/scripts/security-scan.py:73-78 | The skip test holds if and only if some skip entry occurs in the path. |
| SecretScan.ShouldSkipFile | hooks/scripts/security-scan.py:73-78 | The early-returning loop answers true if and only if some skip entry occurs in the path. |
| SecretScan.SkipIffSubstring | hooks/scripts/security-scan.py:49-78 | A path is skipped if and only if some skip entry occurs at some position in it. |
| SecretScan.SkipOrderIrrelevant | hooks/scripts/security-scan.py:73-78 | Reordering the skip list never changes the answer. |
| SecretScan.Excerpt | hooks/scripts/security-scan.py:93 | A match of at most 50 characters is reported verbatim. A longer one becomes its first 50 characters followed by `...`, 53 in all. |
| SecretScan.LineAt | hooks/scripts/security-scan.py:88 | A match's line is 1 plus the newlines before it, so it lies between 1 and 1 plus the content's newline count. |
| SecretScan.LineAtMonotone | hooks/scripts/security-scan.py:88 | A later match never lies on an earlier line. |
| SecretScan.MakeFinding | hooks/scripts/security-scan.py:87-94 | A finding carries its pattern's label and the scanned path. Its line is within the content's lines, and its excerpt has at most 53 characters. |
| SecretScan.OriginsCount | hooks/scripts/security-scan.py:84-86 | There is one entry per match of every pattern. |
| SecretScan.OriginsOrdered | hooks/scripts/security-scan.py:84-86 | Matches come pattern by pattern in pattern order, and by non-decreasing start within one pattern. |
| SecretScan.ScanContent | hooks/scripts/security-scan.py:80-96 | The i-th finding is built from the i-th match in pattern-then-position order, using that pattern's label. |
| SecretScan.ScanFindingsOrdered | hooks/scripts/security-scan.py:84-95 | There is one finding per match. Each carries the path and a pattern label, and its line is within bounds. Within one pattern, lines never decrease. |
| SecretScan.AkiaMatches | hooks/scripts/security-scan.py:20 | The left-to-right scan for `AKIA[0-9A-Z]{16}` yields ordered, non-overlapping 20-character matches. Every position where the pattern matches lies inside one of them. |
| SecretScan.RouteOf | hooks/scripts/security-scan.py:100-119 | Empty input or invalid JSON exits quietly. A missing or empty path, or empty content after the `new_string` fallback, exits quietly too. A scan happens only for a string path and string content, both non-empty. A string path on the skip list exits quietly whatever the type of the content, and other non-string content raises. |
| SecretScan.RunHook | hooks/scripts/security-scan.py:98-160 | With a writable log every run exits 0. A decision is printed only after a scan with a writable log. |
| SecretScan.FailsOpen | hooks/scripts/security-scan.py:102-119 | A run that does not reach the scan, or whose path is skipped, prints no decision. A quiet exit prints nothing, logs nothing and exits 0, and so does every run with a non-empty string path on the skip list and truthy content. |
| SecretScan.BlockIffFindings | hooks/scripts/security-scan.py:122-152 | For a scanned, non-skipped path with a writable log, the decision is block, with the findings' message, exactly when there are findings, and allow exactly when there are none. |
| SecretScan.FindingsTextLists | hooks/scripts/security-scan.py:133-135 | Every finding's two lines occur in the findings part of the message. |
| SecretScan.BlockMessageNamesFile | hooks/scripts/security-scan.py:128-131 | The block message names the file. |
| SecretScan.BlockMessageListsFindings | hooks/scripts/security-scan.py:128-141 | The block message contains every finding's text. |
| SecretScan.UnwritableLogNeverBlocks | hooks/scripts/security-scan.py:154-160 | When the log cannot be written the hook never prints a decision and leaves no log line. |
| Clone.CloneCommand | skills/production-readiness/production-readiness/scripts/clone_repo.py:31-44 | The command starts with `git clone` and has 5 or 7 arguments. It ends with the URL and then the target. `--recurse-submodules` is third from last and appears nowhere earlier. |
| Clone.CommandRoundTrip | skills/production-readiness/production-readiness/scripts/clone_repo.py:35-38 | Parsing the command back yields the depth value (100 for shallow, 1 for minimal, none otherwise), the URL and the target. There are 7 arguments exactly for shallow or minimal. |
| Clone.JoinPathParts | skills/production-readiness/production-readiness/scripts/clone_repo.py:28 | Joining a single clean name onto a directory adds exactly that name to its parts. |
| Clone.TargetPath | skills/production-readiness/production-readiness/scripts/clone_repo.py:25-29 | A non-empty output path is the target, up to normalisation: it has the same root (absolute, `//` or relative) and the same parts. |
| Clone.TempTargetNames | skills/production-readiness/production-readiness/scripts/clone_repo.py:27-29 | Without an output path the target is named `project`. Its parent is named `prod_readiness_` plus the random part, directly inside the temporary root. |
| Clone.CloneRun | skills/production-readiness/production-readiness/scripts/clone_repo.py:14-44 | The clone command's last argument is the chosen target path. |
| Paths.NormalizeKeepsParts | skills/production-readiness/production-readiness/scripts/clone_repo.py:26 | Normalising a path (as `Path(...)` does) keeps its root and its parts. |
| Paths.ChildNames | skills/production-readiness/production-readiness/scripts/clone_repo.py:29 | `base / name` is named `name`, and its parent has the name of `base`. |
| Paths.StemSuffix | skills/production-readiness/production-readiness/scripts/generate_report.py:229 | A file name is its stem followed by its suffix. The suffix is empty or a dot and at least one more character, and a non-empty name has a non-empty stem. |

## Left out

- **File-system access.** Walks, file reads, `exists()` checks, JSON loading, log writes and clean-up are left out. Their outcomes are inputs: `Observations`, the parsed hook payload, and whether the log is writable.
- **Detection.** The detection helpers behind each analyser are left out: secret and vulnerable-pattern scans, dependency manifests, the JWT and crypto searches, and tech-stack and statistics gathering. They read files and run regular expressions. Their results enter through `Observations`.
- **Regular expressions.** Regex semantics are left out. Matches come from an oracle bound by `ValidMatches`, except for the concrete `AKIA[0-9A-Z]{16}` recogniser.
- **Floating point.** `round(…, 1)`, `:.1f` and `str(float)` are not modelled. The overall score is an exact `real`, and the two number renderings are parameters (`Markdown.Formats`).
- **Remediation effort.** Effort-hour sums and the effort fields are left out for the same floating-point reason.
- **Clock and timing.** `datetime.now()`, the assessment date and the duration are parameters or left out, because they depend on the clock.
- **Command-line parsing.** argparse, `main` wiring and all `print` output are left out, since they are I/O. Running `git`, its timeout and its error handling are left out too, because they are subprocess effects.
- **The HTML `<head>`.** The head with its CSS is a parameter of `Markdown.WrapHtml` and is not spelled out. It is fixed text, and the body is what matters.
- **`json.dumps`.** The JSON output format's text is an input to `Markdown.Output`, because it is a library serialiser.
- **The assessment script's own markdown.** `production_readiness.py` has its own `generate_markdown_report` (lines 1449-1493), which is not part of this model. The report rendering modelled here is the one in `generate_report.py`.
- **Title-casing.** Case mapping covers ASCII letters only. Python's Unicode case mapping of other characters is not modelled.
- **Non-string JSON fields.** A truthy path that is a list, dict or number is taken to raise in the hook, although `in` on a list or dict would not raise. Truthy non-string content raises in the scan unless the string path is skipped first. The exact exception is not modelled.
- Analyzers.SecurityFindings: states the order, count and severities of the security findings, not their titles and remediation texts.
- SecretScan.RunHook: "every path exits with code 0" is stated only when the log is writable. When it is not, the handler's own log write raises and the process exits with status 1, still without blocking.
- Markdown.SectionLines: the markdown lines of each section are defined exactly, but only their structure is proved (numbering, counts, sort order, truncation), not every literal string.
