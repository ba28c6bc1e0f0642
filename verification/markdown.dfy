/** The report generator: renders a loaded assessment report (a JSON object,
    modelled field by field with `None` for a missing key) as markdown, wraps
    the markdown in an HTML page, and chooses the output file name. The
    timestamp and the rendering of JSON numbers are parameters. */
module Markdown {
  import opened Common
  import opened Paths
  import Scoring

  /* ------------------------------------------------------------ the input */

  /** One issue of a severity list; each field is `None` when the key is
      missing. Numbers that are only printed arrive already rendered. */
  datatype Issue = Issue(
    title: Option<string>,
    location: Option<string>,
    impact: Option<string>,
    rootCause: Option<string>,
    remediation: Option<string>,
    validation: Option<string>,
    effortHours: Option<string>)

  /** One roadmap phase; a missing `items` key reads as the empty list. */
  datatype PhaseInput = PhaseInput(
    phase: Option<string>,
    name: Option<string>,
    duration: Option<string>,
    items: seq<string>)

  /** The value of one `dimension_scores` entry. */
  datatype DimensionData = DimensionData(
    score: Option<real>,
    weight: Option<string>,
    findingCount: Option<string>,
    summary: Option<string>,
    recommendations: seq<string>)

  /** A dimension row: the key and its data, in the object's key order. */
  type Row = (string, DimensionData)

  /** The fields of the loaded report that the renderer reads. */
  datatype ReportInput = ReportInput(
    repository: Option<string>,
    durationSeconds: Option<real>,
    overallScore: Option<real>,
    readinessLevel: Option<string>,
    recommendation: Option<string>,
    criticalCount: Option<string>,
    highCount: Option<string>,
    mediumCount: Option<string>,
    lowCount: Option<string>,
    totalFindings: Option<string>,
    remediationHours: Option<string>,
    techStack: seq<(string, seq<string>)>,
    dimensions: seq<Row>,
    critical: seq<Issue>,
    high: seq<Issue>,
    medium: seq<Issue>,
    low: seq<Issue>,
    roadmap: seq<PhaseInput>)

  /** How numbers are printed: `str()` of a JSON number and the `:.1f` format. */
  datatype Formats = Formats(number: real -> string, oneDecimal: real -> string)

  /** A present score printed with `str()`, a missing one as the default `0`. */
  function ScoreText(score: Option<real>, fmt: Formats): string {
    match score
    case Some(x) => fmt.number(x)
    case None => "0"
  }

  /* ------------------------------------------------------- classification */

  datatype Color = Green | Yellow | Orange | Red

  function ColorRank(c: Color): nat {
    match c
    case Red => 0
    case Orange => 1
    case Yellow => 2
    case Green => 3
  }

  /** The circle emoji that shows a colour. */
  function ColorMark(c: Color): string {
    match c
    case Green => "\U{1F7E2}"
    case Yellow => "\U{1F7E1}"
    case Orange => "\U{1F7E0}"
    case Red => "\U{1F534}"
  }

  lemma ThresholdsMetThree(score: real, a: real, b: real, c: real)
    ensures Scoring.ThresholdsMet(score, [a, b, c]) ==
            (if score >= a then 1 else 0) + (if score >= b then 1 else 0) + (if score >= c then 1 else 0)
  {
    var t := [a, b, c];
    assert t[1..] == [b, c];
    assert t[1..][1..] == [c];
    assert t[1..][1..][1..] == [];
    assert Scoring.ThresholdsMet(score, [c]) == (if score >= c then 1 else 0);
    assert Scoring.ThresholdsMet(score, [b, c]) == (if score >= b then 1 else 0) + Scoring.ThresholdsMet(score, [c]);
  }

  const BadgeThresholds: seq<real> := [50.0, 75.0, 90.0]
  const RowThresholds: seq<real> := [40.0, 60.0, 80.0]

  /** The overall-score badge: its rank is the number of the thresholds 50, 75
      and 90 the score reaches. */
  function Badge(score: real): (c: Color)
    ensures ColorRank(c) == Scoring.ThresholdsMet(score, BadgeThresholds)
  {
    ThresholdsMetThree(score, 50.0, 75.0, 90.0);
    if score >= 90.0 then Green
    else if score >= 75.0 then Yellow
    else if score >= 50.0 then Orange
    else Red
  }

  /** The colour of one dimension row: its rank is the number of the
      thresholds 40, 60 and 80 the score reaches. */
  function RowColor(score: real): (c: Color)
    ensures ColorRank(c) == Scoring.ThresholdsMet(score, RowThresholds)
  {
    ThresholdsMetThree(score, 40.0, 60.0, 80.0);
    if score >= 80.0 then Green
    else if score >= 60.0 then Yellow
    else if score >= 40.0 then Orange
    else Red
  }

  /** Neither colouring ever gets worse as the score rises. */
  lemma ColorsMonotone(a: real, b: real)
    requires a <= b
    ensures ColorRank(Badge(a)) <= ColorRank(Badge(b))
    ensures ColorRank(RowColor(a)) <= ColorRank(RowColor(b))
  {
    Scoring.ThresholdsMetMonotone(a, b, BadgeThresholds);
    Scoring.ThresholdsMetMonotone(a, b, RowThresholds);
  }

  /** The four colours show four different marks. */
  lemma ColorMarksDistinct(c1: Color, c2: Color)
    ensures ColorMark(c1) == ColorMark(c2) ==> c1 == c2
  {
    if ColorMark(c1) == ColorMark(c2) {
      assert ColorMark(c1)[0] == ColorMark(c2)[0];
    }
  }

  /* -------------------------------------------------------------- names */

  /** Python's `s.title()` on ASCII text: a letter is upper-cased when it
      starts a run of letters and lower-cased otherwise. */
  function TitleCase(s: string): (r: string)
    ensures |r| == |s|
  {
    seq(|s|, i requires 0 <= i < |s| =>
      if i == 0 || !IsAsciiLetter(s[i - 1]) then ToUpperChar(s[i]) else ToLowerChar(s[i]))
  }

  lemma CaseKeepsLetters(c: char)
    ensures IsAsciiLetter(ToUpperChar(c)) == IsAsciiLetter(c)
    ensures IsAsciiLetter(ToLowerChar(c)) == IsAsciiLetter(c)
    ensures ToLowerChar(ToUpperChar(c)) == ToLowerChar(c)
    ensures ToLowerChar(ToLowerChar(c)) == ToLowerChar(c)
    ensures ToUpperChar(ToUpperChar(c)) == ToUpperChar(c)
    ensures ToUpperChar(ToLowerChar(c)) == ToUpperChar(c)
  {
  }

  /** Title-casing changes case only, and doing it twice changes nothing more. */
  lemma TitleCaseProperties(s: string)
    ensures Lower(TitleCase(s)) == Lower(s)
    ensures TitleCase(TitleCase(s)) == TitleCase(s)
  {
    var t := TitleCase(s);
    forall i | 0 <= i < |s| ensures ToLowerChar(t[i]) == ToLowerChar(s[i]) {
      CaseKeepsLetters(s[i]);
    }
    forall i | 0 <= i < |s| ensures TitleCase(t)[i] == t[i] {
      CaseKeepsLetters(s[i]);
      if i > 0 {
        CaseKeepsLetters(s[i - 1]);
      }
    }
  }

  /** The heading of a dimension: its key with underscores shown as spaces,
      title-cased. */
  function DisplayName(key: string): (r: string)
    ensures |r| == |key|
  {
    TitleCase(ReplaceChar(key, '_', ' '))
  }

  /** A key made of lower-case letters and underscores (as every dimension
      value is) is recovered from its display name by lower-casing and turning
      spaces back into underscores, which is how analyser names become keys. */
  lemma DisplayNameRoundTrip(key: string)
    requires forall i :: 0 <= i < |key| ==> IsAsciiLower(key[i]) || key[i] == '_'
    ensures ReplaceChar(Lower(DisplayName(key)), ' ', '_') == key
  {
    var spaced := ReplaceChar(key, '_', ' ');
    TitleCaseProperties(spaced);
    assert Lower(DisplayName(key)) == Lower(spaced);
  }

  /** Title-casing upper-cases a letter that starts a word and lower-cases a
      letter inside one. */
  lemma TitleCaseWords(s: string, i: int)
    requires 0 <= i < |s| && IsAsciiLetter(s[i])
    ensures i == 0 || !IsAsciiLetter(s[i - 1]) ==> IsAsciiUpper(TitleCase(s)[i])
    ensures i > 0 && IsAsciiLetter(s[i - 1]) ==> IsAsciiLower(TitleCase(s)[i])
  {
    var c := s[i];
    assert IsAsciiUpper(ToUpperChar(c)) && IsAsciiLower(ToLowerChar(c));
  }

  /** In a display name every word starts upper-case and continues lower-case;
      an underscore ends a word like any other non-letter. */
  lemma DisplayNameWords(key: string, i: int)
    requires 0 <= i < |key| && IsAsciiLetter(key[i])
    ensures i == 0 || !IsAsciiLetter(key[i - 1]) ==> IsAsciiUpper(DisplayName(key)[i])
    ensures i > 0 && IsAsciiLetter(key[i - 1]) ==> IsAsciiLower(DisplayName(key)[i])
  {
    var spaced := ReplaceChar(key, '_', ' ');
    assert spaced[i] == key[i];
    assert i > 0 ==> IsAsciiLetter(spaced[i - 1]) == IsAsciiLetter(key[i - 1]);
    TitleCaseWords(spaced, i);
  }

  /* ------------------------------------------------------------- sorting */

  /** The sort key of a row: its score, 0 when missing. */
  function Key(row: Row): real {
    row.1.score.GetOr(0.0)
  }

  ghost predicate SortedByKey(rs: seq<Row>) {
    forall i, j :: 0 <= i < j < |rs| ==> Key(rs[i]) <= Key(rs[j])
  }

  /** A row no larger than any of a sorted list keeps it sorted in front. */
  lemma SortedCons(y: Row, rest: seq<Row>)
    requires SortedByKey(rest)
    requires forall k :: 0 <= k < |rest| ==> Key(y) <= Key(rest[k])
    ensures SortedByKey([y] + rest)
  {
    var r := [y] + rest;
    forall i, j | 0 <= i < j < |r| ensures Key(r[i]) <= Key(r[j]) {
      assert r[j] == rest[j - 1];
      if i > 0 {
        assert r[i] == rest[i - 1];
      }
    }
  }

  /** A lower bound on the keys of a list holds for any rearrangement of it. */
  lemma BoundByMultiset(lo: real, xs: seq<Row>, ys: seq<Row>)
    requires multiset(xs) == multiset(ys)
    requires forall k :: 0 <= k < |ys| ==> lo <= Key(ys[k])
    ensures forall k :: 0 <= k < |xs| ==> lo <= Key(xs[k])
  {
    forall k | 0 <= k < |xs| ensures lo <= Key(xs[k]) {
      assert xs[k] in multiset(ys);
      var j :| 0 <= j < |ys| && ys[j] == xs[k];
    }
  }

  /** Putting the head of a sorted list back in front of the (sorted)
      insertion into its tail keeps the result sorted and loses no row. */
  lemma InsertBehind(x: Row, rs: seq<Row>, rest: seq<Row>)
    requires SortedByKey(rs) && |rs| > 0 && Key(rs[0]) <= Key(x)
    requires SortedByKey(rest) && multiset(rest) == multiset(rs[1..]) + multiset{x}
    ensures SortedByKey([rs[0]] + rest)
    ensures multiset([rs[0]] + rest) == multiset(rs) + multiset{x}
  {
    var tail := rs[1..];
    assert multiset(rs) == multiset{rs[0]} + multiset(tail) by {
      assert rs == [rs[0]] + tail;
    }
    var ys := [x] + tail;
    forall k | 0 <= k < |ys| ensures Key(rs[0]) <= Key(ys[k]) {
      if k > 0 {
        assert ys[k] == rs[k];
      }
    }
    assert multiset(ys) == multiset{x} + multiset(tail);
    BoundByMultiset(Key(rs[0]), rest, ys);
    SortedCons(rs[0], rest);
  }

  /** Inserts `x` after every row whose key is at most its own. */
  function Insert(x: Row, rs: seq<Row>): (r: seq<Row>)
    requires SortedByKey(rs)
    ensures |r| == |rs| + 1
    ensures SortedByKey(r)
    ensures multiset(r) == multiset(rs) + multiset{x}
  {
    if |rs| == 0 then [x]
    else if Key(x) < Key(rs[0]) then
      SortedCons(x, rs);
      [x] + rs
    else
      var rest := Insert(x, rs[1..]);
      InsertBehind(x, rs, rest);
      [rs[0]] + rest
  }

  /** `sorted(rows, key=score)`: a stable insertion sort, ascending by key. */
  function SortRows(rs: seq<Row>): (r: seq<Row>)
    ensures |r| == |rs|
    ensures SortedByKey(r)
    ensures multiset(r) == multiset(rs)
  {
    if |rs| == 0 then []
    else
      assert rs == rs[..|rs| - 1] + [rs[|rs| - 1]];
      Insert(rs[|rs| - 1], SortRows(rs[..|rs| - 1]))
  }

  /** The rows whose key is `v`, in order. */
  function WithKey(rs: seq<Row>, v: real): (r: seq<Row>)
    ensures |r| <= |rs|
  {
    if |rs| == 0 then []
    else (if Key(rs[0]) == v then [rs[0]] else []) + WithKey(rs[1..], v)
  }

  lemma {:induction false} WithKeyAppend(a: seq<Row>, b: seq<Row>, v: real)
    ensures WithKey(a + b, v) == WithKey(a, v) + WithKey(b, v)
  {
    if |a| == 0 {
      assert a + b == b;
    } else {
      var h := if Key(a[0]) == v then [a[0]] else [];
      assert (a + b)[0] == a[0];
      assert (a + b)[1..] == a[1..] + b;
      WithKeyAppend(a[1..], b, v);
      assert WithKey(a + b, v) == h + (WithKey(a[1..], v) + WithKey(b, v));
      assert WithKey(a, v) == h + WithKey(a[1..], v);
      assert h + (WithKey(a[1..], v) + WithKey(b, v)) == (h + WithKey(a[1..], v)) + WithKey(b, v);
    }
  }

  lemma {:induction false} WithKeyAbove(rs: seq<Row>, v: real)
    requires forall k :: 0 <= k < |rs| ==> v < Key(rs[k])
    ensures WithKey(rs, v) == []
  {
    if |rs| > 0 {
      WithKeyAbove(rs[1..], v);
    }
  }

  /** A row inserted in front of larger keys adds itself to its key's rows. */
  lemma InsertWithKeyFront(x: Row, rs: seq<Row>, v: real)
    requires SortedByKey(rs) && |rs| > 0 && Key(x) < Key(rs[0])
    ensures WithKey(Insert(x, rs), v) == WithKey(rs, v) + (if Key(x) == v then [x] else [])
  {
    assert Insert(x, rs) == [x] + rs;
    WithKeyAppend([x], rs, v);
    assert WithKey([x], v) == (if Key(x) == v then [x] else []) + WithKey([x][1..], v);
    if Key(x) == v {
      assert forall k :: 0 <= k < |rs| ==> v < Key(rs[k]) by {
        forall k | 0 <= k < |rs| ensures v < Key(rs[k]) {
          assert k == 0 || Key(rs[0]) <= Key(rs[k]);
        }
      }
      WithKeyAbove(rs, v);
      assert WithKey(Insert(x, rs), v) == [x] + [];
    } else {
      assert WithKey(Insert(x, rs), v) == [] + WithKey(rs, v);
    }
  }

  lemma {:induction false} InsertWithKey(x: Row, rs: seq<Row>, v: real)
    requires SortedByKey(rs)
    ensures WithKey(Insert(x, rs), v) == WithKey(rs, v) + (if Key(x) == v then [x] else [])
  {
    var hx := if Key(x) == v then [x] else [];
    if |rs| == 0 {
      assert WithKey([x], v) == hx + WithKey([x][1..], v);
    } else if Key(x) < Key(rs[0]) {
      InsertWithKeyFront(x, rs, v);
    } else {
      var h := if Key(rs[0]) == v then [rs[0]] else [];
      var rest := Insert(x, rs[1..]);
      assert Insert(x, rs) == [rs[0]] + rest;
      InsertWithKey(x, rs[1..], v);
      WithKeyAppend([rs[0]], rest, v);
      assert WithKey([rs[0]], v) == h + WithKey([rs[0]][1..], v);
      assert WithKey(rs, v) == h + WithKey(rs[1..], v);
      AppendAssoc(h, WithKey(rs[1..], v), hx);
    }
  }

  lemma SortRowsLast(rs: seq<Row>)
    requires |rs| > 0
    ensures SortRows(rs) == Insert(rs[|rs| - 1], SortRows(rs[..|rs| - 1]))
  {
  }

  lemma WithKeyLast(rs: seq<Row>, v: real)
    requires |rs| > 0
    ensures WithKey(rs, v) == WithKey(rs[..|rs| - 1], v) + (if Key(rs[|rs| - 1]) == v then [rs[|rs| - 1]] else [])
  {
    assert rs == rs[..|rs| - 1] + [rs[|rs| - 1]];
    WithKeyAppend(rs[..|rs| - 1], [rs[|rs| - 1]], v);
  }

  /** The sort is stable: the rows of any one key keep their input order. With
      `SortedByKey` and the multiset equality this pins the result down. */
  lemma {:induction false} SortRowsStable(rs: seq<Row>, v: real)
    ensures WithKey(SortRows(rs), v) == WithKey(rs, v)
  {
    if |rs| > 0 {
      var init, last := rs[..|rs| - 1], rs[|rs| - 1];
      SortRowsLast(rs);
      SortRowsStable(init, v);
      InsertWithKey(last, SortRows(init), v);
      WithKeyLast(rs, v);
    }
  }

  /* --------------------------------------------------------------- lines */

  function Field(o: Option<string>, default: string): string {
    o.GetOr(default)
  }

  /** The heading every numbered issue block starts with. */
  function IssueHeading(n: nat, f: Issue): string {
    "### " + NatToString(n) + ". " + Field(f.title, "Unknown Issue") + "\n"
  }

  /** The lines of one critical issue, headed by its number. */
  function CriticalBlock(n: nat, f: Issue): seq<string> {
    [ IssueHeading(n, f),
      "**Location:** `" + Field(f.location, "Unknown") + "`\n",
      "**Impact:** " + Field(f.impact, "") + "\n",
      "**Root Cause:** " + Field(f.rootCause, "") + "\n",
      "\n**Remediation:**\n" + Field(f.remediation, "") + "\n",
      "\n**Validation:**\n" + Field(f.validation, "") + "\n",
      "\n**Effort:** " + Field(f.effortHours, "0") + " hours\n",
      "---\n" ]
  }

  /** The lines of one high-priority issue, headed by its number. */
  function HighBlock(n: nat, f: Issue): seq<string> {
    [ IssueHeading(n, f),
      "**Location:** `" + Field(f.location, "Unknown") + "`\n",
      "**Impact:** " + Field(f.impact, "") + "\n",
      "\n**Remediation:** " + Field(f.remediation, "") + "\n",
      "\n**Effort:** " + Field(f.effortHours, "0") + " hours\n",
      "---\n" ]
  }

  /** Flattens a list of line lists. */
  function Concat(bs: seq<seq<string>>): seq<string> {
    if |bs| == 0 then [] else bs[0] + Concat(bs[1..])
  }

  lemma {:induction false} ConcatLength(bs: seq<seq<string>>, w: nat)
    requires forall k :: 0 <= k < |bs| ==> |bs[k]| == w
    ensures |Concat(bs)| == w * |bs|
  {
    if |bs| > 0 {
      ConcatLength(bs[1..], w);
    }
  }

  /** In a concatenation of blocks of `w` lines each, line `j` of block `k`
      sits at `w * k + j`. */
  lemma {:induction false} ConcatAt(bs: seq<seq<string>>, w: nat, k: nat, j: nat)
    requires forall i :: 0 <= i < |bs| ==> |bs[i]| == w
    requires k < |bs| && j < w
    ensures w * k + j < |Concat(bs)| && Concat(bs)[w * k + j] == bs[k][j]
  {
    ConcatLength(bs, w);
    if k > 0 {
      ConcatAt(bs[1..], w, k - 1, j);
      assert w * k + j == w + (w * (k - 1) + j);
    }
  }

  /** `enumerate(issues, start)` rendered block by block: block `k` is issue
      `k` under number `start + k`; `detailed` picks the critical layout. */
  function Numbered(fs: seq<Issue>, start: nat, detailed: bool): (bs: seq<seq<string>>)
    ensures |bs| == |fs|
    ensures forall k :: 0 <= k < |fs| ==>
              |bs[k]| == (if detailed then 8 else 6) && bs[k][0] == IssueHeading(start + k, fs[k])
  {
    if |fs| == 0 then []
    else
      var b := if detailed then CriticalBlock(start, fs[0]) else HighBlock(start, fs[0]);
      assert |b| == (if detailed then 8 else 6) && b[0] == IssueHeading(start, fs[0]);
      var rest := Numbered(fs[1..], start + 1, detailed);
      assert forall k :: 1 <= k < |fs| ==> fs[1..][k - 1] == fs[k];
      [b] + rest
  }

  /** The lines of a numbered issue section: a heading, then `w` lines per
      issue, the issues numbered 1, 2, ... in input order. */
  function IssueSection(title: string, fs: seq<Issue>, detailed: bool): (lines: seq<string>)
    ensures |lines| == 1 + (if detailed then 8 else 6) * |fs|
    ensures forall k :: 0 <= k < |fs| ==>
              lines[1 + (if detailed then 8 else 6) * k] == IssueHeading(k + 1, fs[k])
  {
    var w := if detailed then 8 else 6;
    var bs := Numbered(fs, 1, detailed);
    ConcatLength(bs, w);
    forall k | 0 <= k < |fs| ensures Concat(bs)[w * k] == IssueHeading(k + 1, fs[k]) {
      ConcatAt(bs, w, k, 0);
    }
    [title] + Concat(bs)
  }

  /** One line (or block of lines) per element, in order. */
  function Rows<T, U>(xs: seq<T>, line: T -> U): (r: seq<U>)
    ensures |r| == |xs| && forall k :: 0 <= k < |xs| ==> r[k] == line(xs[k])
  {
    seq(|xs|, k requires 0 <= k < |xs| => line(xs[k]))
  }

  /** The line of one medium-priority issue in the summary table. */
  function MediumRow(f: Issue): string {
    "| " + Field(f.title, "") + " | `" + Field(f.location, "") + "` | " + Field(f.effortHours, "0") + "h |"
  }

  /** The line of one low-priority issue in the summary table. */
  function LowRow(f: Issue): string {
    "| " + Field(f.title, "") + " | `" + Field(f.location, "") + "` |"
  }

  /** The line of one row of the dimension-score table. */
  function ScoreRow(row: Row, fmt: Formats): string {
    var data := row.1;
    "| " + DisplayName(row.0) + " | " + ColorMark(RowColor(Key(row))) + " " + ScoreText(data.score, fmt)
    + "/100 | " + Field(data.weight, "1") + " | " + Field(data.findingCount, "0") + " |"
  }

  /** The bullet line of one technology-stack category, none when it is empty. */
  function TechLine(category: (string, seq<string>)): seq<string> {
    if |category.1| == 0 then []
    else ["- **" + TitleCase(category.0) + ":** " + Join(category.1, ", ")]
  }

  function PhaseBlock(p: PhaseInput): seq<string> {
    ["### Phase " + Field(p.phase, "?") + ": " + Field(p.name, "") + " (" + Field(p.duration, "") + ")\n"]
    + Rows(p.items, (item: string) => "- [ ] " + item)
    + [""]
  }

  /** The recommendation bullets printed under a dimension: the first three. */
  function TopRecommendations(recs: seq<string>): (r: seq<string>)
    ensures |r| == Min(3, |recs|)
    ensures forall k :: 0 <= k < |r| ==> r[k] == "- " + recs[k]
  {
    Rows(Take(recs, 3), (rec: string) => "- " + rec)
  }

  function DetailBlock(row: Row, fmt: Formats): seq<string> {
    var data := row.1;
    ["### " + DisplayName(row.0) + "\n",
     "**Score:** " + ScoreText(data.score, fmt) + "/100\n",
     "\n" + Field(data.summary, "") + "\n"]
    + (if |data.recommendations| == 0 then []
       else ["\n**Recommendations:**"] + TopRecommendations(data.recommendations))
    + [""]
  }

  /** The rows of the dimension-score table: the dimensions sorted by score. */
  function ScoreTable(dims: seq<Row>, fmt: Formats): (lines: seq<string>)
    ensures |lines| == |dims|
    ensures forall k :: 0 <= k < |dims| ==> lines[k] == ScoreRow(SortRows(dims)[k], fmt)
  {
    Rows(SortRows(dims), (row: Row) => ScoreRow(row, fmt))
  }

  /* ------------------------------------------------------------ sections */

  datatype SectionKind =
    | Header | ExecutiveSummary | FindingsSummary | TechnologyStack | DimensionScores
    | CriticalIssues | HighIssues | MediumIssues | LowIssues | Roadmap | DimensionDetails | Footer

  /** Every section kind in report order. */
  const ReportOrder: seq<SectionKind> := [
    Header, ExecutiveSummary, FindingsSummary, TechnologyStack, DimensionScores,
    CriticalIssues, HighIssues, MediumIssues, LowIssues, Roadmap, DimensionDetails, Footer
  ]

  /** The position of a section kind in the report. */
  function Position(k: SectionKind): (i: nat)
    ensures i < |ReportOrder| && ReportOrder[i] == k
  {
    match k
    case Header => 0
    case ExecutiveSummary => 1
    case FindingsSummary => 2
    case TechnologyStack => 3
    case DimensionScores => 4
    case CriticalIssues => 5
    case HighIssues => 6
    case MediumIssues => 7
    case LowIssues => 8
    case Roadmap => 9
    case DimensionDetails => 10
    case Footer => 11
  }

  /** Whether the report shows a section: the list-driven ones only when
      their list is non-empty. */
  function IsShown(k: SectionKind, r: ReportInput): bool {
    match k
    case TechnologyStack => |r.techStack| > 0
    case CriticalIssues => |r.critical| > 0
    case HighIssues => |r.high| > 0
    case MediumIssues => |r.medium| > 0
    case LowIssues => |r.low| > 0
    case Roadmap => |r.roadmap| > 0
    case _ => true
  }

  /** The kinds of `ks` the report shows, in order. */
  function ShownOf(ks: seq<SectionKind>, r: ReportInput): (shown: seq<SectionKind>)
    ensures forall k :: k in shown <==> k in ks && IsShown(k, r)
  {
    if |ks| == 0 then []
    else (if IsShown(ks[0], r) then [ks[0]] else []) + ShownOf(ks[1..], r)
  }

  ghost predicate InReportOrder(ks: seq<SectionKind>) {
    forall i, j :: 0 <= i < j < |ks| ==> Position(ks[i]) < Position(ks[j])
  }

  lemma {:induction false} ShownInOrder(ks: seq<SectionKind>, r: ReportInput)
    requires InReportOrder(ks)
    ensures InReportOrder(ShownOf(ks, r))
  {
    if |ks| > 0 {
      ShownInOrder(ks[1..], r);
      var rest := ShownOf(ks[1..], r);
      forall j | 0 <= j < |rest| ensures Position(ks[0]) < Position(rest[j]) {
        assert rest[j] in rest;
        var i :| 0 <= i < |ks[1..]| && ks[1..][i] == rest[j];
        assert ks[i + 1] == rest[j];
      }
    }
  }

  /** The sections the report shows, in order. */
  function Sections(r: ReportInput): seq<SectionKind> {
    ShownOf(ReportOrder, r)
  }

  lemma PositionOfOrder(i: nat)
    requires i < |ReportOrder|
    ensures Position(ReportOrder[i]) == i
  {
    var k := ReportOrder[i];
    assert ReportOrder[Position(k)] == k;
  }

  /** The shown sections keep the fixed report order. */
  lemma SectionsInOrder(r: ReportInput)
    ensures InReportOrder(Sections(r))
  {
    forall i, j | 0 <= i < j < |ReportOrder| ensures Position(ReportOrder[i]) < Position(ReportOrder[j]) {
      PositionOfOrder(i);
      PositionOfOrder(j);
    }
    ShownInOrder(ReportOrder, r);
  }

  lemma ShownIff(r: ReportInput, k: SectionKind)
    ensures k in Sections(r) <==> IsShown(k, r)
  {
    assert ReportOrder[Position(k)] == k;
  }

  /** The report always has its header, summary, counts, score table, details
      and footer. */
  lemma FixedSectionsShown(r: ReportInput)
    ensures Header in Sections(r) && ExecutiveSummary in Sections(r) && FindingsSummary in Sections(r)
    ensures DimensionScores in Sections(r) && DimensionDetails in Sections(r) && Footer in Sections(r)
  {
    ShownIff(r, Header);
    ShownIff(r, ExecutiveSummary);
    ShownIff(r, FindingsSummary);
    ShownIff(r, DimensionScores);
    ShownIff(r, DimensionDetails);
    ShownIff(r, Footer);
  }

  /** The technology-stack and critical sections appear exactly when their
      lists are non-empty. */
  lemma StackAndCriticalShown(r: ReportInput)
    ensures TechnologyStack in Sections(r) <==> |r.techStack| > 0
    ensures CriticalIssues in Sections(r) <==> |r.critical| > 0
  {
    ShownIff(r, TechnologyStack);
    ShownIff(r, CriticalIssues);
  }

  lemma HighMediumShown(r: ReportInput)
    ensures HighIssues in Sections(r) <==> |r.high| > 0
    ensures MediumIssues in Sections(r) <==> |r.medium| > 0
  {
    ShownIff(r, HighIssues);
    ShownIff(r, MediumIssues);
  }

  lemma LowRoadmapShown(r: ReportInput)
    ensures LowIssues in Sections(r) <==> |r.low| > 0
    ensures Roadmap in Sections(r) <==> |r.roadmap| > 0
  {
    ShownIff(r, LowIssues);
    ShownIff(r, Roadmap);
  }

  /** The high, medium, low and roadmap sections appear exactly when their
      lists are non-empty. */
  lemma PrioritySectionsShown(r: ReportInput)
    ensures HighIssues in Sections(r) <==> |r.high| > 0
    ensures MediumIssues in Sections(r) <==> |r.medium| > 0
    ensures LowIssues in Sections(r) <==> |r.low| > 0
    ensures Roadmap in Sections(r) <==> |r.roadmap| > 0
  {
    HighMediumShown(r);
    LowRoadmapShown(r);
  }

  /** The lines of one section. */
  function SectionLines(k: SectionKind, r: ReportInput, now: string, fmt: Formats): seq<string> {
    match k
    case Header =>
      ["# Production Readiness Assessment Report\n",
       "**Generated:** " + now + "\n",
       "**Repository:** " + Field(r.repository, "Unknown") + "\n"]
    case ExecutiveSummary =>
      ["\n## Executive Summary\n",
       "### Overall Score: " + ColorMark(Badge(r.overallScore.GetOr(0.0))) + " "
       + ScoreText(r.overallScore, fmt) + "/100\n",
       "**Readiness Level:** " + Field(r.readinessLevel, "Unknown") + "\n",
       "\n**Recommendation:** " + Field(r.recommendation, "") + "\n"]
    case FindingsSummary =>
      ["\n### Findings Summary\n",
       "| Severity | Count |",
       "|----------|-------|",
       "| " + ColorMark(Red) + " Critical | " + Field(r.criticalCount, "0") + " |",
       "| " + ColorMark(Orange) + " High | " + Field(r.highCount, "0") + " |",
       "| " + ColorMark(Yellow) + " Medium | " + Field(r.mediumCount, "0") + " |",
       "| \U{1F535} Low | " + Field(r.lowCount, "0") + " |",
       "| **Total** | **" + Field(r.totalFindings, "0") + "** |",
       "\n**Estimated Remediation Effort:** " + Field(r.remediationHours, "0") + " hours\n"]
    case TechnologyStack =>
      ["\n## Technology Stack\n"] + Concat(Rows(r.techStack, TechLine)) + [""]
    case DimensionScores =>
      ["\n## Dimension Scores\n",
       "| Dimension | Score | Weight | Findings |",
       "|-----------|-------|--------|----------|"]
      + ScoreTable(r.dimensions, fmt) + [""]
    case CriticalIssues =>
      IssueSection("\n## \U{1F534} Critical Issues (Immediate Action Required)\n", r.critical, true)
    case HighIssues =>
      IssueSection("\n## \U{1F7E0} High Priority Issues (Address Before Production)\n", r.high, false)
    case MediumIssues =>
      ["\n## \U{1F7E1} Medium Priority Issues\n", "| Issue | Location | Effort |", "|-------|----------|--------|"]
      + Rows(r.medium, MediumRow) + [""]
    case LowIssues =>
      ["\n## \U{1F535} Low Priority Issues (Technical Debt)\n", "| Issue | Location |", "|-------|----------|"]
      + Rows(r.low, LowRow) + [""]
    case Roadmap =>
      ["\n## Remediation Roadmap\n"] + Concat(Rows(r.roadmap, PhaseBlock))
    case DimensionDetails =>
      ["\n## Dimension Details\n"] + Concat(Rows(r.dimensions, (row: Row) => DetailBlock(row, fmt)))
    case Footer =>
      ["\n---\n",
       "*Report generated by Production Readiness Assessment System*\n",
       "*Assessment Duration: "
       + (match r.durationSeconds case Some(x) => fmt.oneDecimal(x) case None => "0.0")
       + " seconds*\n"]
  }

  /** `generate_markdown_report`: the lines of every shown section, joined
      with newlines; `now` is the generation timestamp. */
  function MarkdownReport(r: ReportInput, now: string, fmt: Formats): string {
    var ks := Sections(r);
    Join(Concat(Rows(ks, (k: SectionKind) => SectionLines(k, r, now, fmt))), "\n")
  }

  /* ----------------------------------------------------------------- html */

  const PreOpen: string := "<pre style=\"white-space: pre-wrap;\">"
  const HtmlTail: string := "</pre>\n</body>\n</html>"

  /** `generate_html_report` around already rendered markdown: the page head
      (doctype, title and stylesheet, up to the opening `body` tag), the
      opening `pre` tag, the markdown unescaped, and the closing tags. */
  function WrapHtml(head: string, md: string): (h: string)
    ensures |h| == |head| + |PreOpen| + |md| + |HtmlTail|
  {
    head + PreOpen + md + HtmlTail
  }

  /** Reads the `pre` element's text back out of a page with the given head. */
  function UnwrapHtml(head: string, h: string): (md: Option<string>)
    ensures md.Some? ==> |md.value| == |h| - |head| - |PreOpen| - |HtmlTail|
  {
    var open := head + PreOpen;
    if |h| >= |open| + |HtmlTail| && h[..|open|] == open && h[|h| - |HtmlTail|..] == HtmlTail
    then Some(h[|open|..|h| - |HtmlTail|])
    else None
  }

  /** The page carries the markdown verbatim: reading the `pre` element back
      gives exactly the markdown, whatever it contains. */
  lemma HtmlKeepsMarkdown(head: string, md: string)
    ensures UnwrapHtml(head, WrapHtml(head, md)) == Some(md)
  {
    var open := head + PreOpen;
    var h := WrapHtml(head, md);
    assert h == open + md + HtmlTail;
    assert h[..|open|] == open;
    assert h[|h| - |HtmlTail|..] == HtmlTail;
    assert h[|open|..|h| - |HtmlTail|] == md;
  }

  function HtmlReport(head: string, r: ReportInput, now: string, fmt: Formats): string {
    WrapHtml(head, MarkdownReport(r, now, fmt))
  }

  /* --------------------------------------------------------------- output */

  datatype OutputFormat = MarkdownOutput | HtmlOutput | JsonOutput

  function Extension(f: OutputFormat): (e: string)
    ensures |e| >= 3 && e[0] == '.' && '.' !in e[1..]
  {
    match f
    case MarkdownOutput => ".md"
    case HtmlOutput => ".html"
    case JsonOutput => ".json"
  }

  /** The text written for a format; the HTML page head and the JSON text
      (`json.dumps` with an indent of 2) are given. */
  function Output(f: OutputFormat, head: string, r: ReportInput, now: string, fmt: Formats, json: string): string {
    match f
    case MarkdownOutput => MarkdownReport(r, now, fmt)
    case HtmlOutput => HtmlReport(head, r, now, fmt)
    case JsonOutput => json
  }

  /** The default output file: the input's stem, `_report`, and the format's
      extension, in the working directory. */
  function DefaultOutputPath(input: string, f: OutputFormat): string {
    Stem(Name(input)) + "_report" + Extension(f)
  }

  /** The `--output` value when it is given and non-empty, the default otherwise. */
  function OutputPath(output: Option<string>, input: string, f: OutputFormat): (p: string)
    ensures output.Some? && output.value != "" ==> p == output.value
    ensures output.None? || output.value == "" ==> p == DefaultOutputPath(input, f)
  {
    if output.Some? && output.value != "" then output.value else DefaultOutputPath(input, f)
  }

  /** Read back as a path, the default output file has no directory part, the
      format's extension as its suffix and the input's stem plus `_report` as
      its stem. */
  lemma DefaultOutputPathParts(input: string, f: OutputFormat)
    ensures '/' !in DefaultOutputPath(input, f)
    ensures Suffix(DefaultOutputPath(input, f)) == Extension(f)
    ensures Stem(DefaultOutputPath(input, f)) == Stem(Name(input)) + "_report"
  {
    var name := Name(input);
    StemSuffix(name);
    var a := Stem(name) + "_report";
    var e := Extension(f);
    var p := a + e;
    assert forall k :: 0 <= k < |Stem(name)| ==> Stem(name)[k] == name[k];
    assert '/' !in a;
    assert '/' !in e by {
      match f
      case MarkdownOutput =>
      case HtmlOutput =>
      case JsonOutput =>
    }
    assert p == DefaultOutputPath(input, f);
    assert '/' !in p;
    assert p[|a|] == '.';
    forall j | |a| < j < |p| ensures p[j] != '.' {
      assert p[j] == e[1..][j - |a| - 1];
    }
    var i := LastIndexOf(p, '.');
    assert i == |a|;
    assert p[..i] == a;
    assert p[i..] == e;
  }
}
