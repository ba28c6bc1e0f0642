/** The pre-write secret-scan hook: it reads a JSON tool call, skips paths
    that look like build output or documentation, scans the text about to be
    written for secret-shaped strings, and answers `block` or `allow`. Every
    failure lets the write through. Regular-expression matching is an oracle
    that gives, per pattern, the spans `re.finditer` would report. */
module SecretScan {
  import opened Common

  /* ------------------------------------------------------------ skipping */

  /** The substrings that mark a path as not worth scanning. */
  const SkipFiles: seq<string> := [
    ".git/", "node_modules/", "__pycache__/", ".pytest_cache/", "dist/", "build/", ".lock", ".md"
  ]

  /** Whether some entry of `entries` occurs in `path`. */
  function AnyContained(path: string, entries: seq<string>): (b: bool)
    ensures b <==> exists k :: 0 <= k < |entries| && Contains(path, entries[k])
  {
    if |entries| == 0 then false
    else if Contains(path, entries[0]) then true
    else
      assert forall k :: 1 <= k < |entries| ==> entries[k] == entries[1..][k - 1];
      AnyContained(path, entries[1..])
  }

  /** `should_skip_file`: the loop returns on the first entry found in the path. */
  method ShouldSkipFile(path: string, entries: seq<string>) returns (skip: bool)
    ensures skip <==> exists k :: 0 <= k < |entries| && Contains(path, entries[k])
  {
    for k := 0 to |entries|
      invariant forall j :: 0 <= j < k ==> !Contains(path, entries[j])
    {
      if Contains(path, entries[k]) {
        return true;
      }
    }
    return false;
  }

  /** Whether a path is skipped: some entry is a substring of it. */
  lemma SkipIffSubstring(path: string, entries: seq<string>)
    ensures AnyContained(path, entries) <==>
            exists k, i :: 0 <= k < |entries| && OccursAt(entries[k], path, i)
  {
    if AnyContained(path, entries) {
      var k :| 0 <= k < |entries| && Contains(path, entries[k]);
      ContainsIff(path, entries[k]);
      var i :| OccursAt(entries[k], path, i);
    }
    if exists k, i :: 0 <= k < |entries| && OccursAt(entries[k], path, i) {
      var k, i :| 0 <= k < |entries| && OccursAt(entries[k], path, i);
      ContainsIff(path, entries[k]);
    }
  }

  /** The order of the entries does not matter. */
  lemma SkipOrderIrrelevant(path: string, a: seq<string>, b: seq<string>)
    requires multiset(a) == multiset(b)
    ensures AnyContained(path, a) == AnyContained(path, b)
  {
    if AnyContained(path, a) {
      var k :| 0 <= k < |a| && Contains(path, a[k]);
      assert a[k] in multiset(b);
      var j :| 0 <= j < |b| && b[j] == a[k];
    }
    if AnyContained(path, b) {
      var k :| 0 <= k < |b| && Contains(path, b[k]);
      assert b[k] in multiset(a);
      var j :| 0 <= j < |a| && a[j] == b[k];
    }
  }

  /* ------------------------------------------------------------ matching */

  /** A match reported by `re.finditer`: `content[start..end]`. */
  datatype Span = Span(start: nat, end: nat)

  /** What `re.finditer` guarantees of its matches in `content`: each lies in
      the text, and each starts at or after the end of the one before. */
  ghost predicate OrderedSpans(content: string, spans: seq<Span>) {
    (forall k :: 0 <= k < |spans| ==> spans[k].start <= spans[k].end <= |content|)
    && (forall k :: 0 < k < |spans| ==> spans[k - 1].end <= spans[k].start)
  }

  /** One ordered span list per pattern. */
  ghost predicate ValidMatches(content: string, ms: seq<seq<Span>>, patterns: nat) {
    |ms| == patterns && forall p :: 0 <= p < |ms| ==> OrderedSpans(content, ms[p])
  }

  /** Later spans of one list never start before earlier ones. */
  lemma {:induction false} OrderedStarts(content: string, spans: seq<Span>, i: nat, j: nat)
    requires OrderedSpans(content, spans)
    requires i <= j < |spans|
    ensures spans[i].start <= spans[j].start
    decreases j - i
  {
    if i < j {
      OrderedStarts(content, spans, i, j - 1);
      assert spans[j - 1].start <= spans[j - 1].end <= spans[j].start;
    }
  }

  /* ------------------------------------------------------------ findings */

  /** One entry of `scan_content`'s result. */
  datatype SecretFinding = SecretFinding(kind: string, file: string, line: nat, excerpt: string)

  const ExcerptLimit: nat := 50

  /** The reported match text: verbatim up to 50 characters, otherwise its
      first 50 characters and `...`. */
  function Excerpt(text: string): (e: string)
    ensures |text| <= ExcerptLimit ==> e == text
    ensures |text| > ExcerptLimit ==> |e| == ExcerptLimit + 3 && e[ExcerptLimit..] == "..."
    ensures e[..Min(|text|, ExcerptLimit)] == text[..Min(|text|, ExcerptLimit)]
  {
    if |text| > ExcerptLimit then text[..ExcerptLimit] + "..." else text
  }

  /** The 1-based line a position falls on: one more than the newlines
      before it. */
  function LineAt(content: string, pos: nat): (line: nat)
    requires pos <= |content|
    ensures 1 <= line <= CountChar(content, '\n') + 1
  {
    CountCharMonotone(content, '\n', pos);
    CountChar(content[..pos], '\n') + 1
  }

  /** A later position is never on an earlier line. */
  lemma {:induction false} LineAtMonotone(content: string, a: nat, b: nat)
    requires a <= b <= |content|
    ensures LineAt(content, a) <= LineAt(content, b)
  {
    assert content[..b][..a] == content[..a];
    CountCharMonotone(content[..b], '\n', a);
  }

  /** The finding for one match of the pattern labelled `kind`. */
  function MakeFinding(content: string, path: string, kind: string, s: Span): (f: SecretFinding)
    requires s.start <= s.end <= |content|
    ensures f.kind == kind && f.file == path
    ensures 1 <= f.line <= CountChar(content, '\n') + 1
    ensures |f.excerpt| <= ExcerptLimit + 3
  {
    SecretFinding(kind, path, LineAt(content, s.start), Excerpt(content[s.start..s.end]))
  }

  /** The matches of pattern `p`, each tagged with `p`. */
  function Tag(p: nat, spans: seq<Span>): (r: seq<(nat, Span)>)
    ensures |r| == |spans| && forall k :: 0 <= k < |r| ==> r[k] == (p, spans[k])
  {
    seq(|spans|, k requires 0 <= k < |spans| => (p, spans[k]))
  }

  /** Every match of every pattern, pattern by pattern, each tagged with the
      index of its pattern: the order in which the nested loops visit them. */
  function Origins(ms: seq<seq<Span>>): (o: seq<(nat, Span)>)
    ensures forall i :: 0 <= i < |o| ==> o[i].0 < |ms| && o[i].1 in ms[o[i].0]
  {
    if |ms| == 0 then []
    else
      var init := Origins(ms[..|ms| - 1]);
      assert forall i :: 0 <= i < |init| ==> init[i].0 < |ms| - 1 && ms[..|ms| - 1][init[i].0] == ms[init[i].0];
      init + Tag(|ms| - 1, ms[|ms| - 1])
  }

  /** The total number of matches. */
  function MatchCount(ms: seq<seq<Span>>): nat {
    if |ms| == 0 then 0 else MatchCount(ms[..|ms| - 1]) + |ms[|ms| - 1]|
  }

  lemma {:induction false} OriginsCount(ms: seq<seq<Span>>)
    ensures |Origins(ms)| == MatchCount(ms)
  {
    if |ms| > 0 {
      OriginsCount(ms[..|ms| - 1]);
    }
  }

  /** Two matches of the same pattern, the first listed before the second. */
  lemma OrderedWithinTag(content: string, n: nat, spans: seq<Span>, i: nat, j: nat)
    requires OrderedSpans(content, spans)
    requires i < j < |spans|
    ensures Tag(n, spans)[i].1.start <= Tag(n, spans)[j].1.start
  {
    OrderedStarts(content, spans, i, j);
  }

  /** Pattern indices never decrease along `o`, and tagged matches of one
      pattern come in order of position. */
  ghost predicate InOriginOrder(o: seq<(nat, Span)>) {
    forall i, j :: 0 <= i < j < |o| ==> o[i].0 < o[j].0 || (o[i].0 == o[j].0 && o[i].1.start <= o[j].1.start)
  }

  /** Appending the tagged, ordered matches of a pattern numbered above every
      pattern so far keeps the order. */
  lemma OrderedAppendTag(content: string, init: seq<(nat, Span)>, n: nat, spans: seq<Span>)
    requires InOriginOrder(init)
    requires forall i :: 0 <= i < |init| ==> init[i].0 < n
    requires OrderedSpans(content, spans)
    ensures InOriginOrder(init + Tag(n, spans))
  {
    var tail := Tag(n, spans);
    var o := init + tail;
    forall i, j | 0 <= i < j < |o|
      ensures o[i].0 < o[j].0 || (o[i].0 == o[j].0 && o[i].1.start <= o[j].1.start)
    {
      if j < |init| {
        assert o[i] == init[i] && o[j] == init[j];
      } else if i < |init| {
        assert o[i] == init[i] && o[j] == tail[j - |init|];
      } else {
        assert o[i] == tail[i - |init|] && o[j] == tail[j - |init|];
        OrderedWithinTag(content, n, spans, i - |init|, j - |init|);
      }
    }
  }

  /** Matches come pattern by pattern in pattern order, and within one pattern
      in order of position. */
  lemma {:induction false} OriginsOrdered(content: string, ms: seq<seq<Span>>)
    requires forall p :: 0 <= p < |ms| ==> OrderedSpans(content, ms[p])
    ensures InOriginOrder(Origins(ms))
  {
    if |ms| > 0 {
      var n := |ms| - 1;
      var front := ms[..n];
      assert forall p :: 0 <= p < n ==> front[p] == ms[p];
      OriginsOrdered(content, front);
      var init := Origins(front);
      assert forall i :: 0 <= i < |init| ==> init[i].0 < n;
      OrderedAppendTag(content, init, n, ms[n]);
      assert Origins(ms) == init + Tag(n, ms[n]);
    }
  }

  /** `scan_content`: one finding per match, in the order of `Origins`, each
      labelled with its pattern's name and carrying the scanned path. */
  function ScanContent(content: string, path: string, labels: seq<string>, ms: seq<seq<Span>>)
    : (fs: seq<SecretFinding>)
    requires ValidMatches(content, ms, |labels|)
    ensures |fs| == |Origins(ms)|
    ensures forall i :: 0 <= i < |fs| ==>
              var o := Origins(ms)[i];
              o.1.start <= o.1.end <= |content| && fs[i] == MakeFinding(content, path, labels[o.0], o.1)
  {
    var o := Origins(ms);
    assert forall i :: 0 <= i < |o| ==> o[i].1.start <= o[i].1.end <= |content| by {
      forall i | 0 <= i < |o| ensures o[i].1.start <= o[i].1.end <= |content| {
        var k :| 0 <= k < |ms[o[i].0]| && ms[o[i].0][k] == o[i].1;
      }
    }
    seq(|o|, i requires 0 <= i < |o| => MakeFinding(content, path, labels[o[i].0], o[i].1))
  }

  /** The findings list every match once, pattern by pattern, and within a
      pattern by ascending line; each names the scanned file and its
      pattern's label, and points inside the text. */
  lemma ScanFindingsOrdered(content: string, path: string, labels: seq<string>, ms: seq<seq<Span>>)
    requires ValidMatches(content, ms, |labels|)
    ensures |ScanContent(content, path, labels, ms)| == MatchCount(ms)
    ensures forall i :: 0 <= i < |ScanContent(content, path, labels, ms)| ==>
              ScanContent(content, path, labels, ms)[i].file == path
              && ScanContent(content, path, labels, ms)[i].kind in labels
              && 1 <= ScanContent(content, path, labels, ms)[i].line <= CountChar(content, '\n') + 1
    ensures forall i, j :: 0 <= i < j < |Origins(ms)| && Origins(ms)[i].0 == Origins(ms)[j].0 ==>
              ScanContent(content, path, labels, ms)[i].line <= ScanContent(content, path, labels, ms)[j].line
  {
    var fs := ScanContent(content, path, labels, ms);
    var o := Origins(ms);
    OriginsCount(ms);
    OriginsOrdered(content, ms);
    forall i | 0 <= i < |fs| ensures fs[i].kind in labels {
      assert fs[i].kind == labels[o[i].0];
    }
    forall i, j | 0 <= i < j < |o| && o[i].0 == o[j].0 ensures fs[i].line <= fs[j].line {
      LineAtMonotone(content, o[i].1.start, o[j].1.start);
    }
  }

  /* ------------------------------------------------------ AWS access keys */

  /** `AKIA[0-9A-Z]{16}` matches at `i`. */
  predicate AkiaAt(s: string, i: int) {
    0 <= i && i + 20 <= |s|
    && s[i] == 'A' && s[i + 1] == 'K' && s[i + 2] == 'I' && s[i + 3] == 'A'
    && forall k :: i + 4 <= k < i + 20 ==> IsDigit(s[k]) || IsAsciiUpper(s[k])
  }

  /** Position `p` lies inside one of the spans. */
  ghost predicate Covered(spans: seq<Span>, p: int) {
    exists k :: 0 <= k < |spans| && spans[k].start <= p < spans[k].end
  }

  /** The left-to-right scan from position `i`: a match is taken where one
      starts and the scan resumes after it. */
  function AkiaFrom(s: string, i: nat): seq<Span>
    decreases |s| - i
  {
    if i >= |s| then []
    else if AkiaAt(s, i) then [Span(i, i + 20)] + AkiaFrom(s, i + 20)
    else AkiaFrom(s, i + 1)
  }

  /** Every span of `spans` is a 20-character match starting at or after `i`. */
  ghost predicate AkiaSpansFrom(s: string, spans: seq<Span>, i: int) {
    forall k :: 0 <= k < |spans| ==>
      i <= spans[k].start && spans[k].end == spans[k].start + 20 && AkiaAt(s, spans[k].start)
  }

  /** Every span the scan from `i` finds is a 20-character match starting at
      or after `i`. */
  lemma {:induction false} AkiaFromMatches(s: string, i: nat)
    ensures AkiaSpansFrom(s, AkiaFrom(s, i), i)
    decreases |s| - i
  {
    if i < |s| {
      if AkiaAt(s, i) {
        AkiaFromMatches(s, i + 20);
        var rest := AkiaFrom(s, i + 20);
        var r := [Span(i, i + 20)] + rest;
        assert AkiaFrom(s, i) == r;
        forall k | 0 < k < |r|
          ensures i <= r[k].start && r[k].end == r[k].start + 20 && AkiaAt(s, r[k].start)
        {
          assert r[k] == rest[k - 1];
        }
      } else {
        AkiaFromMatches(s, i + 1);
      }
    }
  }

  /** A span that ends by the start of an ordered list extends it in front. */
  lemma OrderedCons(content: string, x: Span, rest: seq<Span>)
    requires x.start <= x.end <= |content|
    requires OrderedSpans(content, rest)
    requires |rest| > 0 ==> x.end <= rest[0].start
    ensures OrderedSpans(content, [x] + rest)
  {
    var r := [x] + rest;
    forall k | 0 < k < |r| ensures r[k - 1].end <= r[k].start {
      assert r[k] == rest[k - 1];
      if k > 1 {
        assert r[k - 1] == rest[k - 2];
      }
    }
    forall k | 0 < k < |r| ensures r[k].start <= r[k].end <= |content| {
      assert r[k] == rest[k - 1];
    }
  }

  /** The spans the scan from `i` finds lie in the text and do not overlap. */
  lemma {:induction false} AkiaFromOrdered(s: string, i: nat)
    ensures OrderedSpans(s, AkiaFrom(s, i))
    decreases |s| - i
  {
    if i < |s| {
      if AkiaAt(s, i) {
        AkiaFromOrdered(s, i + 20);
        AkiaFromMatches(s, i + 20);
        var rest := AkiaFrom(s, i + 20);
        assert AkiaFrom(s, i) == [Span(i, i + 20)] + rest;
        if |rest| > 0 {
          assert i + 20 <= rest[0].start;
        }
        OrderedCons(s, Span(i, i + 20), rest);
      } else {
        AkiaFromOrdered(s, i + 1);
      }
    }
  }

  /** Every match starting at or after `i` lies in a span the scan from `i`
      finds. */
  lemma {:induction false} AkiaFromCovers(s: string, i: nat, p: int)
    requires i <= p && AkiaAt(s, p)
    ensures Covered(AkiaFrom(s, i), p)
    decreases |s| - i
  {
    if AkiaAt(s, i) {
      var rest := AkiaFrom(s, i + 20);
      var r := [Span(i, i + 20)] + rest;
      assert AkiaFrom(s, i) == r;
      if p < i + 20 {
        assert r[0].start <= p < r[0].end;
      } else {
        AkiaFromCovers(s, i + 20, p);
        var k :| 0 <= k < |rest| && rest[k].start <= p < rest[k].end;
        assert r[k + 1] == rest[k];
      }
    } else {
      AkiaFromCovers(s, i + 1, p);
    }
  }

  lemma AkiaCoversAll(s: string)
    ensures forall p :: AkiaAt(s, p) ==> Covered(AkiaFrom(s, 0), p)
  {
    forall p | AkiaAt(s, p) ensures Covered(AkiaFrom(s, 0), p) {
      AkiaFromCovers(s, 0, p);
    }
  }

  /** `re.finditer(r'AKIA[0-9A-Z]{16}', s)` as a left-to-right scan: a match
      is taken where one starts and the scan resumes after it. Every span is
      a match, and every match lies in a span, which leaves the leftmost
      non-overlapping choice as the only one. */
  function AkiaMatches(s: string): (spans: seq<Span>)
    ensures OrderedSpans(s, spans)
    ensures forall k :: 0 <= k < |spans| ==> spans[k].end == spans[k].start + 20 && AkiaAt(s, spans[k].start)
    ensures forall p :: AkiaAt(s, p) ==> Covered(spans, p)
  {
    AkiaFromMatches(s, 0);
    AkiaFromOrdered(s, 0);
    AkiaCoversAll(s);
    AkiaFrom(s, 0)
  }

  /* ----------------------------------------------------------------- hook */

  /** The labels of the secret patterns, in pattern order. */
  const SecretLabels: seq<string> := [
    "API Key", "AWS Access Key", "AWS Secret Key", "Private Key",
    "GitHub Personal Token", "GitHub OAuth Token", "GitHub Server Token",
    "OpenAI API Key", "Anthropic API Key", "Slack Token",
    "Hardcoded Password", "JWT Token", "Database Connection String"
  ]

  /** A field of the JSON tool input: missing, `null`, a string, or another
      JSON value (number, boolean, list, object) with its truth value. */
  datatype JsonField = Absent | Null | Str(s: string) | OtherValue(truthy: bool)

  /** Python truthiness of a field's value (a missing key reads as `''`). */
  predicate Truthy(f: JsonField) {
    match f
    case Absent => false
    case Null => false
    case Str(s) => s != ""
    case OtherValue(t) => t
  }

  datatype ToolInput = ToolInput(filePath: JsonField, content: JsonField, newString: JsonField)

  /** The `tool_input` entry: missing (read as `{}`), present but not an
      object, or an object. */
  datatype ToolInputEntry = NoToolInput | ToolInputNotObject | ToolInputObject(tool: ToolInput)

  /** The parsed hook input: an object or some other JSON value. */
  datatype Payload = NotObject | Object(toolInput: ToolInputEntry)

  /** `content`, or `new_string` when `content` is falsy. */
  function ContentField(t: ToolInput): JsonField {
    if Truthy(t.content) then t.content else t.newString
  }

  /** How far the hook gets: it exits quietly, raises, or scans `content` of
      the file at `path`. */
  datatype Route = Quiet | Raises | Scan(path: string, content: string)

  /** The route for the raw standard input and its JSON parse (`None` when
      `json.loads` fails). Values of the wrong type raise when used. A
      truthy non-string path is taken to raise; truthy non-string content
      raises in the scan unless the string path is on the skip list, which
      is consulted first. */
  function RouteOf(stdin: string, parsed: Option<Payload>): (r: Route)
    ensures stdin == "" || parsed.None? ==> r.Quiet?
    ensures r.Scan? ==>
              parsed.Some? && parsed.value.Object? && parsed.value.toolInput.ToolInputObject?
              && parsed.value.toolInput.tool.filePath == Str(r.path)
              && ContentField(parsed.value.toolInput.tool) == Str(r.content)
              && r.path != "" && r.content != ""
    ensures parsed.Some? && parsed.value.Object? && parsed.value.toolInput.ToolInputObject? && stdin != "" ==>
              var t := parsed.value.toolInput.tool;
              (!Truthy(t.filePath) || !Truthy(ContentField(t)) ==> r.Quiet?)
              && (t.filePath.Str? && ContentField(t).Str? && Truthy(t.filePath) && Truthy(ContentField(t))
                  ==> r == Scan(t.filePath.s, ContentField(t).s))
              && (t.filePath.Str? && !ContentField(t).Str? && Truthy(t.filePath) && Truthy(ContentField(t))
                  ==> (r.Quiet? <==> AnyContained(t.filePath.s, SkipFiles))
                      && (r.Raises? <==> !AnyContained(t.filePath.s, SkipFiles)))
  {
    if stdin == "" then Quiet
    else match parsed
      case None => Quiet
      case Some(NotObject) => Raises
      case Some(Object(NoToolInput)) => Quiet
      case Some(Object(ToolInputNotObject)) => Raises
      case Some(Object(ToolInputObject(t))) =>
        var content := ContentField(t);
        if !Truthy(t.filePath) || !Truthy(content) then Quiet
        else if t.filePath.Str? && content.Str? then Scan(t.filePath.s, content.s)
        else if t.filePath.Str? && AnyContained(t.filePath.s, SkipFiles) then Quiet
        else Raises
  }

  /** The JSON answer printed on standard output. */
  datatype Decision = Allow | Block(message: string)

  /** A line of the scan log (the timestamp is left out). */
  datatype LogEvent = LogEvent(level: string, message: string)

  /** What a run of the hook leaves behind. */
  datatype HookResult = HookResult(output: Option<Decision>, exitCode: nat, log: seq<LogEvent>)

  function Rule(): string {
    seq(60, _ => '=')
  }

  /** The two lines a finding contributes to the block message. */
  function FindingText(f: SecretFinding): string {
    "  [" + f.kind + "] Line " + NatToString(f.line) + "\n" + "  Match: " + f.excerpt + "\n\n"
  }

  function FindingsText(fs: seq<SecretFinding>): string {
    if |fs| == 0 then "" else FindingText(fs[0]) + FindingsText(fs[1..])
  }

  /** The message of a block decision. */
  function BlockMessage(path: string, fs: seq<SecretFinding>): string {
    BlockPreamble() + "File: " + path + "\n\n" + FindingsText(fs) + BlockClosing()
  }

  /** Every finding's text appears in the findings part of the message, in order. */
  lemma {:induction false} FindingsTextLists(fs: seq<SecretFinding>, k: nat)
    requires k < |fs|
    ensures exists i :: OccursAt(FindingText(fs[k]), FindingsText(fs), i)
  {
    var rest := FindingsText(fs[1..]);
    var head := FindingText(fs[0]);
    if k == 0 {
      assert FindingsText(fs)[0..|head|] == head;
      assert OccursAt(head, FindingsText(fs), 0);
    } else {
      FindingsTextLists(fs[1..], k - 1);
      var i :| OccursAt(FindingText(fs[1..][k - 1]), rest, i);
      assert fs[1..][k - 1] == fs[k];
      OccursWithin(FindingText(fs[k]), head, rest, "", i);
      assert head + rest + "" == FindingsText(fs);
    }
  }

  /** A run that fails after the hook has started: the error handler logs
      the error, or, when the log cannot be written, raises again out of the
      handler (exit status 1, nothing printed). */
  function Failed(logWritable: bool, detail: string): HookResult {
    if logWritable then HookResult(None, 0, [LogEvent("ERROR", "ERROR: " + detail)])
    else HookResult(None, 1, [])
  }

  /** `main`, with the standard input, its parse, the match oracle, whether
      the log file can be written, and the text of any exception as inputs. */
  function RunHook(stdin: string, parsed: Option<Payload>, matcher: string -> seq<seq<Span>>,
                   logWritable: bool, detail: string): (h: HookResult)
    requires forall c :: ValidMatches(c, matcher(c), |SecretLabels|)
    ensures logWritable ==> h.exitCode == 0
    ensures h.output.Some? ==> logWritable && RouteOf(stdin, parsed).Scan?
  {
    match RouteOf(stdin, parsed)
    case Quiet => HookResult(None, 0, [])
    case Raises => Failed(logWritable, detail)
    case Scan(path, content) =>
      if AnyContained(path, SkipFiles) then HookResult(None, 0, [])
      else
        var findings := ScanContent(content, path, SecretLabels, matcher(content));
        if !logWritable then Failed(false, detail)
        else if |findings| > 0 then
          HookResult(Some(Block(BlockMessage(path, findings))), 0,
                     [LogEvent("CRITICAL", "BLOCKED: Found " + NatToString(|findings|) + " secret(s) in " + path)])
        else HookResult(Some(Allow), 0, [LogEvent("INFO", "PASSED: " + path)])
  }

  /** A tool input with a truthy string path on the skip list and truthy
      content of any type. */
  predicate SkippedTool(t: ToolInput) {
    t.filePath.Str? && Truthy(t.filePath) && Truthy(ContentField(t)) && AnyContained(t.filePath.s, SkipFiles)
  }

  /** The hook fails open: empty input, unparsable input, a missing or empty
      path, empty content after the `new_string` fallback, a skipped path or
      an exception never block; with a writable log every run exits 0. */
  lemma FailsOpen(stdin: string, parsed: Option<Payload>, matcher: string -> seq<seq<Span>>,
                  logWritable: bool, detail: string)
    requires forall c :: ValidMatches(c, matcher(c), |SecretLabels|)
    ensures !RouteOf(stdin, parsed).Scan? ==> RunHook(stdin, parsed, matcher, logWritable, detail).output.None?
    ensures RouteOf(stdin, parsed).Scan? && AnyContained(RouteOf(stdin, parsed).path, SkipFiles) ==>
              RunHook(stdin, parsed, matcher, logWritable, detail) == HookResult(None, 0, [])
    ensures RouteOf(stdin, parsed).Quiet? ==> RunHook(stdin, parsed, matcher, logWritable, detail) == HookResult(None, 0, [])
    ensures stdin != "" && parsed.Some? && parsed.value.Object? && parsed.value.toolInput.ToolInputObject?
            && SkippedTool(parsed.value.toolInput.tool)
            ==> RunHook(stdin, parsed, matcher, logWritable, detail) == HookResult(None, 0, [])
  {
  }

  /** Once the hook scans a path it does not skip and can log, it blocks
      exactly when the scan finds something, with the block message for the
      findings, and allows exactly when it finds nothing. */
  lemma BlockIffFindings(stdin: string, parsed: Option<Payload>, matcher: string -> seq<seq<Span>>, detail: string)
    requires forall c :: ValidMatches(c, matcher(c), |SecretLabels|)
    requires RouteOf(stdin, parsed).Scan? && !AnyContained(RouteOf(stdin, parsed).path, SkipFiles)
    ensures var r := RouteOf(stdin, parsed);
            var fs := ScanContent(r.content, r.path, SecretLabels, matcher(r.content));
            var h := RunHook(stdin, parsed, matcher, true, detail);
            (h.output == Some(Block(BlockMessage(r.path, fs))) <==> |fs| > 0)
            && (h.output == Some(Allow) <==> |fs| == 0)
  {
  }

  function BlockPreamble(): string {
    "\n" + Rule() + "\n" + "SECURITY SCAN: SECRETS DETECTED\n" + Rule() + "\n\n"
  }

  function BlockClosing(): string {
    "ACTION REQUIRED:\n" + "  1. Remove secrets from code\n"
    + "  2. Use environment variables instead\n" + "  3. Add secrets to .env (gitignored)\n"
    + "\n" + Rule() + "\n"
  }

  lemma BlockMessageParts(path: string, fs: seq<SecretFinding>)
    ensures BlockMessage(path, fs) == BlockPreamble() + ("File: " + path + "\n\n") + FindingsText(fs) + BlockClosing()
  {
  }

  /** The block message names the file. */
  lemma BlockMessageNamesFile(path: string, fs: seq<SecretFinding>)
    ensures exists i :: OccursAt("File: " + path + "\n\n", BlockMessage(path, fs), i)
  {
    var file := "File: " + path + "\n\n";
    BlockMessageParts(path, fs);
    assert OccursAt(file, file, 0);
    OccursWithin(file, BlockPreamble(), file, FindingsText(fs) + BlockClosing(), 0);
    AppendAssoc(BlockPreamble() + file, FindingsText(fs), BlockClosing());
  }

  /** The block message lists the text of every finding. */
  lemma BlockMessageListsFindings(path: string, fs: seq<SecretFinding>, k: nat)
    requires k < |fs|
    ensures exists i :: OccursAt(FindingText(fs[k]), BlockMessage(path, fs), i)
  {
    BlockMessageParts(path, fs);
    FindingsTextLists(fs, k);
    var i :| OccursAt(FindingText(fs[k]), FindingsText(fs), i);
    OccursWithin(FindingText(fs[k]), BlockPreamble() + ("File: " + path + "\n\n"), FindingsText(fs), BlockClosing(), i);
  }

  /** When the log cannot be written the hook never blocks either: the
      logging call before the decision is printed raises. */
  lemma UnwritableLogNeverBlocks(stdin: string, parsed: Option<Payload>, matcher: string -> seq<seq<Span>>, detail: string)
    requires forall c :: ValidMatches(c, matcher(c), |SecretLabels|)
    ensures RunHook(stdin, parsed, matcher, false, detail).output.None?
    ensures RunHook(stdin, parsed, matcher, false, detail).log == []
  {
  }
}
