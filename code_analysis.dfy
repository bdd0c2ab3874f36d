/**
 * The line-scanning heuristics of src/tools/code_analysis_tool.py: the
 * input guards and dispatch of `_run`, the quality, security and
 * performance analyses, and the Markdown report of `_format_results`.
 *
 * Every regular expression of the tool is an uninterpreted predicate,
 * supplied in a `Patterns` record; only the long-line test
 * (`len(line) > 100`) is exact.
 */
module CodeAnalysis {
  import opened Text
  import opened Errors

  /** The severities the tool writes into its findings. */
  datatype Severity = Critical | High | Medium | Low
  {
    function Value(): string
    {
      match this
      case Critical => "critical"
      case High => "high"
      case Medium => "medium"
      case Low => "low"
    }
  }

  datatype Issue = Issue(kind: string, description: string, line: nat, severity: Severity)

  datatype Vulnerability = Vulnerability(kind: string, description: string, line: nat, severity: Severity, code: string)

  datatype PerformanceIssue = PerformanceIssue(kind: string, description: string, severity: Severity, impact: string)

  /**
   * `re.search(pattern, ...)` for each pattern of the tool. The first eleven
   * are applied to one line; the last four to the whole code with DOTALL.
   */
  datatype Patterns = Patterns(
    todo: string -> bool,
    emptyCatch: string -> bool,
    println: string -> bool,
    noneEquality: string -> bool,
    bareExcept: string -> bool,
    password: string -> bool,
    apiKey: string -> bool,
    sqlInjection: string -> bool,
    commandInjection: string -> bool,
    evalCall: string -> bool,
    shellTrue: string -> bool,
    javaConcatInLoop: string -> bool,
    javaNewInLoop: string -> bool,
    pythonAppendInLoop: string -> bool,
    pythonConcatInLoop: string -> bool)

  /** `code.split("\n")`. */
  function Lines(code: string): seq<string>
  {
    Split(code, '\n')
  }

  // ---------------------------------------------------------------------
  // Which lines a per-line pattern selects
  // ---------------------------------------------------------------------

  /** The 1-based numbers of the lines `matches` accepts, in line order. */
  function MatchingLines(lines: seq<string>, matches: string -> bool): (ns: seq<nat>)
    ensures forall k :: 0 <= k < |ns| ==> 1 <= ns[k] <= |lines|
  {
    if lines == [] then []
    else MatchingLines(lines[..|lines| - 1], matches) + (if matches(lines[|lines| - 1]) then [|lines|] else [])
  }

  /** Every listed line matches. */
  lemma {:induction false} MatchingLinesSound(lines: seq<string>, matches: string -> bool)
    ensures forall k :: 0 <= k < |MatchingLines(lines, matches)| ==> matches(lines[MatchingLines(lines, matches)[k] - 1])
  {
    if lines != [] {
      var init := lines[..|lines| - 1];
      MatchingLinesSound(init, matches);
      var n0 := MatchingLines(init, matches);
      var ns := MatchingLines(lines, matches);
      assert ns == n0 + (if matches(lines[|lines| - 1]) then [|lines|] else []);
      forall k | 0 <= k < |ns| ensures matches(lines[ns[k] - 1]) {
        if k < |n0| {
          assert ns[k] == n0[k];
          assert lines[n0[k] - 1] == init[n0[k] - 1];
        } else {
          assert ns[k] == |lines|;
        }
      }
    }
  }

  /** Every matching line is listed. */
  lemma {:induction false} MatchingLinesComplete(lines: seq<string>, matches: string -> bool)
    ensures forall j :: 0 <= j < |lines| && matches(lines[j]) ==> j + 1 in MatchingLines(lines, matches)
  {
    if lines != [] {
      var init := lines[..|lines| - 1];
      MatchingLinesComplete(init, matches);
      var n0 := MatchingLines(init, matches);
      var ns := MatchingLines(lines, matches);
      assert ns == n0 + (if matches(lines[|lines| - 1]) then [|lines|] else []);
      forall j | 0 <= j < |lines| && matches(lines[j]) ensures j + 1 in ns {
        if j < |init| {
          assert init[j] == lines[j];
        }
      }
    }
  }

  /** The numbers ascend strictly, so no line is listed twice. */
  lemma {:induction false} MatchingLinesAscending(lines: seq<string>, matches: string -> bool)
    ensures forall a, b :: 0 <= a < b < |MatchingLines(lines, matches)| ==>
      MatchingLines(lines, matches)[a] < MatchingLines(lines, matches)[b]
  {
    if lines != [] {
      var init := lines[..|lines| - 1];
      MatchingLinesAscending(init, matches);
      var n0 := MatchingLines(init, matches);
      var ns := MatchingLines(lines, matches);
      assert ns == n0 + (if matches(lines[|lines| - 1]) then [|lines|] else []);
      forall a, b | 0 <= a < b < |ns| ensures ns[a] < ns[b] {
        assert ns[a] == n0[a];
        if b < |n0| { assert ns[b] == n0[b]; } else { assert ns[b] == |lines|; }
      }
    }
  }

  // ---------------------------------------------------------------------
  // Severity counts
  // ---------------------------------------------------------------------

  /** How many of `sevs` equal `s`. */
  function Tally(sevs: seq<Severity>, s: Severity): nat
  {
    if sevs == [] then 0 else Tally(sevs[..|sevs| - 1], s) + (if sevs[|sevs| - 1] == s then 1 else 0)
  }

  /** The four counts add up to the number of findings. */
  lemma {:induction false} TallyTotal(sevs: seq<Severity>)
    ensures Tally(sevs, Severity.Critical) + Tally(sevs, High) + Tally(sevs, Medium) + Tally(sevs, Low) == |sevs|
  {
    if sevs != [] { TallyTotal(sevs[..|sevs| - 1]); }
  }

  /** A severity no finding has is counted 0 times. */
  lemma {:induction false} TallyAbsent(sevs: seq<Severity>, s: Severity)
    requires forall k :: 0 <= k < |sevs| ==> sevs[k] != s
    ensures Tally(sevs, s) == 0
  {
    if sevs != [] { TallyAbsent(sevs[..|sevs| - 1], s); }
  }

  // ---------------------------------------------------------------------
  // Quality
  // ---------------------------------------------------------------------

  /**
   * One per-line quality check: the predicate, the issue type, the
   * description (followed by the stripped line when `quotesLine`), and the
   * severity.
   */
  datatype LineCheck = LineCheck(matches: string -> bool, kind: string, description: string, quotesLine: bool, severity: Severity)

  function IssueFor(check: LineCheck, line: string, number: nat): Issue
  {
    Issue(check.kind, if check.quotesLine then check.description + Strip(line) else check.description, number, check.severity)
  }

  function LongLineCheck(): LineCheck
  {
    LineCheck((line: string) => |line| > 100, "style", "Line too long (> 100 characters)", false, Low)
  }

  /** The two checks for every language, then the two of Java or of Python. */
  function QualityChecks(language: string, p: Patterns): seq<LineCheck>
  {
    [ LongLineCheck(),
      LineCheck(p.todo, "maintenance", "TODO or similar comment found: ", true, Low) ] +
    if Lower(language) == "java" then
      [ LineCheck(p.emptyCatch, "error_handling", "Empty catch block", false, Medium),
        LineCheck(p.println, "logging", "Using System.out.println instead of proper logging", false, Low) ]
    else if Lower(language) == "python" then
      [ LineCheck(p.noneEquality, "idiom", "Using == None instead of is None", false, Low),
        LineCheck(p.bareExcept, "error_handling", "Using bare except clause", false, Medium) ]
    else []
  }

  /** The issues one check reports: one per matching line, in line order. */
  function Scan(lines: seq<string>, check: LineCheck): seq<Issue>
  {
    if lines == [] then []
    else
      var last := lines[|lines| - 1];
      Scan(lines[..|lines| - 1], check) + (if check.matches(last) then [IssueFor(check, last, |lines|)] else [])
  }

  /** The `k`-th issue of a check is the issue for the `k`-th matching line. */
  lemma {:induction false} ScanFacts(lines: seq<string>, check: LineCheck)
    ensures |Scan(lines, check)| == |MatchingLines(lines, check.matches)|
    ensures forall k :: 0 <= k < |Scan(lines, check)| ==>
      Scan(lines, check)[k] == IssueFor(check, lines[MatchingLines(lines, check.matches)[k] - 1], MatchingLines(lines, check.matches)[k])
    ensures forall k :: 0 <= k < |Scan(lines, check)| ==>
      Scan(lines, check)[k].line == MatchingLines(lines, check.matches)[k] && Scan(lines, check)[k].severity == check.severity
  {
    if lines != [] {
      var init := lines[..|lines| - 1];
      ScanFacts(init, check);
      var s0 := Scan(init, check);
      var n0 := MatchingLines(init, check.matches);
      var s := Scan(lines, check);
      var ns := MatchingLines(lines, check.matches);
      assert ns == n0 + (if check.matches(lines[|lines| - 1]) then [|lines|] else []);
      forall k | 0 <= k < |s| ensures s[k] == IssueFor(check, lines[ns[k] - 1], ns[k]) {
        if k < |s0| {
          assert s[k] == s0[k] && ns[k] == n0[k];
          assert lines[n0[k] - 1] == init[n0[k] - 1];
        } else {
          assert ns[k] == |lines|;
        }
      }
    }
  }

  /** The checks run one after the other, each over all lines. */
  function ScanAll(lines: seq<string>, checks: seq<LineCheck>): seq<Issue>
  {
    if checks == [] then []
    else ScanAll(lines, checks[..|checks| - 1]) + Scan(lines, checks[|checks| - 1])
  }

  /** Reports every matching line of one check, in line order. */
  method ScanLines(lines: seq<string>, check: LineCheck) returns (found: seq<Issue>)
    ensures found == Scan(lines, check)
  {
    found := [];
    for i := 0 to |lines|
      invariant found == Scan(lines[..i], check)
    {
      assert lines[..i + 1][..i] == lines[..i];
      if check.matches(lines[i]) {
        found := found + [IssueFor(check, lines[i], i + 1)];
      }
    }
    assert lines[..|lines|] == lines;
  }

  /** The line numbers and severities of a check's issues, without their texts. */
  lemma ScanLineNumbers(lines: seq<string>, check: LineCheck)
    ensures |Scan(lines, check)| == |MatchingLines(lines, check.matches)|
    ensures forall k :: 0 <= k < |Scan(lines, check)| ==>
      Scan(lines, check)[k].line == MatchingLines(lines, check.matches)[k] && Scan(lines, check)[k].severity == check.severity
  {
    ScanFacts(lines, check);
  }

  // Soundness, completeness and order are three lemmas: stated together,
  // soundness and completeness instantiate each other without end.

  /** Each issue of a check names a matching line of the code and carries the check's severity. */
  lemma ScanSound(lines: seq<string>, check: LineCheck)
    ensures forall k :: 0 <= k < |Scan(lines, check)| ==>
      && 1 <= Scan(lines, check)[k].line <= |lines|
      && check.matches(lines[Scan(lines, check)[k].line - 1])
      && Scan(lines, check)[k].severity == check.severity
  {
    ScanLineNumbers(lines, check);
    MatchingLinesSound(lines, check.matches);
  }

  /** Every line a check matches is reported, once. */
  lemma ScanComplete(lines: seq<string>, check: LineCheck)
    ensures |Scan(lines, check)| == |MatchingLines(lines, check.matches)|
    ensures forall j :: 0 <= j < |lines| && check.matches(lines[j]) ==>
      exists k :: 0 <= k < |Scan(lines, check)| && Scan(lines, check)[k].line == j + 1
  {
    var ns := MatchingLines(lines, check.matches);
    var s := Scan(lines, check);
    ScanLineNumbers(lines, check);
    MatchingLinesComplete(lines, check.matches);
    forall j | 0 <= j < |lines| && check.matches(lines[j]) ensures exists k :: 0 <= k < |s| && s[k].line == j + 1 {
      var k :| 0 <= k < |ns| && ns[k] == j + 1;
      assert s[k].line == j + 1;
    }
  }

  /** A check's issues come in ascending line order. */
  lemma ScanAscending(lines: seq<string>, check: LineCheck)
    ensures forall a, b :: 0 <= a < b < |Scan(lines, check)| ==> Scan(lines, check)[a].line < Scan(lines, check)[b].line
  {
    ScanLineNumbers(lines, check);
    MatchingLinesAscending(lines, check.matches);
  }

  /**
   * Every issue of a group of checks points into the code, and a severity
   * no check of the group has is the severity of none of its issues.
   */
  lemma {:induction false} ScanAllFacts(lines: seq<string>, checks: seq<LineCheck>, absent: Severity)
    requires forall c :: 0 <= c < |checks| ==> checks[c].severity != absent
    ensures forall k :: 0 <= k < |ScanAll(lines, checks)| ==>
      1 <= ScanAll(lines, checks)[k].line <= |lines| && ScanAll(lines, checks)[k].severity != absent
  {
    if checks != [] {
      var init := checks[..|checks| - 1];
      var check := checks[|checks| - 1];
      ScanAllFacts(lines, init, absent);
      ScanLineNumbers(lines, check);
      var s0 := ScanAll(lines, init);
      var s1 := Scan(lines, check);
      var s := ScanAll(lines, checks);
      forall k | 0 <= k < |s| ensures 1 <= s[k].line <= |lines| && s[k].severity != absent {
        if k < |s0| {
          assert s[k] == s0[k];
        } else {
          assert s[k] == s1[k - |s0|];
        }
      }
    }
  }

  function IssueSeverities(issues: seq<Issue>): seq<Severity>
  {
    seq(|issues|, k requires 0 <= k < |issues| => issues[k].severity)
  }

  /** The dictionary `_analyze_code_quality` returns. */
  datatype QualityReport = QualityReport(issues: seq<Issue>, issueCount: nat, high: nat, medium: nat, low: nat)

  function QualityReportOf(issues: seq<Issue>): QualityReport
  {
    var sevs := IssueSeverities(issues);
    QualityReport(issues, |issues|, Tally(sevs, High), Tally(sevs, Medium), Tally(sevs, Low))
  }

  /** What the quality analysis reports for a piece of code. */
  function QualityIssues(code: string, language: string, p: Patterns): seq<Issue>
  {
    ScanAll(Lines(code), QualityChecks(language, p))
  }

  /**
   * Quality findings point into the code and are never critical or high,
   * so the high count is 0 and the high, medium and low counts add up to
   * the issue count.
   */
  lemma QualityFacts(code: string, language: string, p: Patterns)
    ensures var r := QualityReportOf(QualityIssues(code, language, p));
      && r.issueCount == |r.issues|
      && r.high == 0 && r.high + r.medium + r.low == r.issueCount
    ensures forall k :: 0 <= k < |QualityIssues(code, language, p)| ==>
      1 <= QualityIssues(code, language, p)[k].line <= |Lines(code)|
  {
    var checks := QualityChecks(language, p);
    var issues := QualityIssues(code, language, p);
    var sevs := IssueSeverities(issues);
    ScanAllFacts(Lines(code), checks, Severity.Critical);
    ScanAllFacts(Lines(code), checks, High);
    TallyAbsent(sevs, Severity.Critical);
    TallyAbsent(sevs, High);
    TallyTotal(sevs);
  }

  /** Each long-line issue names a line of the code longer than 100 characters and is of low severity. */
  lemma LongLinesSound(code: string)
    ensures forall k :: 0 <= k < |Scan(Lines(code), LongLineCheck())| ==>
      && 1 <= Scan(Lines(code), LongLineCheck())[k].line <= |Lines(code)|
      && |Lines(code)[Scan(Lines(code), LongLineCheck())[k].line - 1]| > 100
      && Scan(Lines(code), LongLineCheck())[k].severity == Low
  {
    ScanSound(Lines(code), LongLineCheck());
  }

  /** Every line longer than 100 characters is reported by the long-line check. */
  lemma LongLinesComplete(code: string)
    ensures |Scan(Lines(code), LongLineCheck())| == |MatchingLines(Lines(code), LongLineCheck().matches)|
    ensures forall j :: 0 <= j < |Lines(code)| && |Lines(code)[j]| > 100 ==>
      exists k :: 0 <= k < |Scan(Lines(code), LongLineCheck())| && Scan(Lines(code), LongLineCheck())[k].line == j + 1
  {
    ScanComplete(Lines(code), LongLineCheck());
    forall j | 0 <= j < |Lines(code)| && |Lines(code)[j]| > 100
      ensures exists k :: 0 <= k < |Scan(Lines(code), LongLineCheck())| && Scan(Lines(code), LongLineCheck())[k].line == j + 1
    {
      assert LongLineCheck().matches(Lines(code)[j]);
    }
  }

  /** `_analyze_code_quality`: one loop over the lines per check. */
  method AnalyzeCodeQuality(code: string, language: string, p: Patterns) returns (report: QualityReport)
    ensures report == QualityReportOf(QualityIssues(code, language, p))
  {
    var lines := Lines(code);
    var checks := QualityChecks(language, p);
    var issues: seq<Issue> := [];
    for c := 0 to |checks|
      invariant issues == ScanAll(lines, checks[..c])
    {
      assert checks[..c + 1][..c] == checks[..c];
      var found := ScanLines(lines, checks[c]);
      issues := issues + found;
    }
    assert checks[..|checks|] == checks;
    report := QualityReportOf(issues);
  }

  // ---------------------------------------------------------------------
  // Security
  // ---------------------------------------------------------------------

  datatype SecurityPattern = SecurityPattern(matches: string -> bool, description: string, severity: Severity, kind: string)

  /** The two common patterns, then the two of Java or of Python; all of high severity. */
  function SecurityPatterns(language: string, p: Patterns): seq<SecurityPattern>
  {
    [ SecurityPattern(p.password, "Hardcoded password", High, "credentials"),
      SecurityPattern(p.apiKey, "Hardcoded API key", High, "credentials") ] +
    if Lower(language) == "java" then
      [ SecurityPattern(p.sqlInjection, "Potential SQL injection", High, "injection"),
        SecurityPattern(p.commandInjection, "Potential command injection", High, "injection") ]
    else if Lower(language) == "python" then
      [ SecurityPattern(p.evalCall, "Using eval() function", High, "code_execution"),
        SecurityPattern(p.shellTrue, "Shell=True in subprocess calls", High, "injection") ]
    else []
  }

  function VulnerabilityFor(pattern: SecurityPattern, line: string, number: nat): Vulnerability
  {
    Vulnerability(pattern.kind, pattern.description, number, pattern.severity, Strip(line))
  }

  /** The findings of one pattern: one per matching line, in line order, quoting the stripped line. */
  function PatternFindings(lines: seq<string>, pattern: SecurityPattern): seq<Vulnerability>
  {
    if lines == [] then []
    else
      var last := lines[|lines| - 1];
      PatternFindings(lines[..|lines| - 1], pattern) + (if pattern.matches(last) then [VulnerabilityFor(pattern, last, |lines|)] else [])
  }

  /** The `k`-th finding of a pattern is the finding for the `k`-th matching line. */
  lemma {:induction false} PatternFindingsFacts(lines: seq<string>, pattern: SecurityPattern)
    ensures |PatternFindings(lines, pattern)| == |MatchingLines(lines, pattern.matches)|
    ensures forall k :: 0 <= k < |PatternFindings(lines, pattern)| ==>
      PatternFindings(lines, pattern)[k] ==
        VulnerabilityFor(pattern, lines[MatchingLines(lines, pattern.matches)[k] - 1], MatchingLines(lines, pattern.matches)[k])
    ensures forall k :: 0 <= k < |PatternFindings(lines, pattern)| ==>
      && PatternFindings(lines, pattern)[k].line == MatchingLines(lines, pattern.matches)[k]
      && PatternFindings(lines, pattern)[k].severity == pattern.severity
      && PatternFindings(lines, pattern)[k].code == Strip(lines[MatchingLines(lines, pattern.matches)[k] - 1])
  {
    if lines != [] {
      var init := lines[..|lines| - 1];
      PatternFindingsFacts(init, pattern);
      var s0 := PatternFindings(init, pattern);
      var n0 := MatchingLines(init, pattern.matches);
      var s := PatternFindings(lines, pattern);
      var ns := MatchingLines(lines, pattern.matches);
      assert ns == n0 + (if pattern.matches(lines[|lines| - 1]) then [|lines|] else []);
      forall k | 0 <= k < |s| ensures s[k] == VulnerabilityFor(pattern, lines[ns[k] - 1], ns[k]) {
        if k < |s0| {
          assert s[k] == s0[k] && ns[k] == n0[k];
          assert lines[n0[k] - 1] == init[n0[k] - 1];
        } else {
          assert ns[k] == |lines|;
        }
      }
    }
  }

  /** Findings grouped by pattern, patterns in list order. */
  function Findings(lines: seq<string>, patterns: seq<SecurityPattern>): seq<Vulnerability>
  {
    if patterns == [] then []
    else Findings(lines, patterns[..|patterns| - 1]) + PatternFindings(lines, patterns[|patterns| - 1])
  }

  /** Reports every line one pattern matches, in line order. */
  method FindPattern(lines: seq<string>, pattern: SecurityPattern) returns (found: seq<Vulnerability>)
    ensures found == PatternFindings(lines, pattern)
  {
    found := [];
    for i := 0 to |lines|
      invariant found == PatternFindings(lines[..i], pattern)
    {
      assert lines[..i + 1][..i] == lines[..i];
      if pattern.matches(lines[i]) {
        found := found + [VulnerabilityFor(pattern, lines[i], i + 1)];
      }
    }
    assert lines[..|lines|] == lines;
  }

  /** The line numbers and severities of a pattern's findings, without their texts. */
  lemma PatternLineNumbers(lines: seq<string>, pattern: SecurityPattern)
    ensures |PatternFindings(lines, pattern)| == |MatchingLines(lines, pattern.matches)|
    ensures forall k :: 0 <= k < |PatternFindings(lines, pattern)| ==>
      && PatternFindings(lines, pattern)[k].line == MatchingLines(lines, pattern.matches)[k]
      && PatternFindings(lines, pattern)[k].severity == pattern.severity
  {
    PatternFindingsFacts(lines, pattern);
  }

  /** Each finding of a pattern names a line the pattern matches and carries its severity. */
  lemma PatternFindingsSound(lines: seq<string>, pattern: SecurityPattern)
    ensures forall k :: 0 <= k < |PatternFindings(lines, pattern)| ==>
      && 1 <= PatternFindings(lines, pattern)[k].line <= |lines|
      && pattern.matches(lines[PatternFindings(lines, pattern)[k].line - 1])
      && PatternFindings(lines, pattern)[k].severity == pattern.severity
  {
    PatternLineNumbers(lines, pattern);
    MatchingLinesSound(lines, pattern.matches);
  }

  /** Every line a pattern matches is reported, once. */
  lemma PatternFindingsComplete(lines: seq<string>, pattern: SecurityPattern)
    ensures |PatternFindings(lines, pattern)| == |MatchingLines(lines, pattern.matches)|
    ensures forall j :: 0 <= j < |lines| && pattern.matches(lines[j]) ==>
      exists k :: 0 <= k < |PatternFindings(lines, pattern)| && PatternFindings(lines, pattern)[k].line == j + 1
  {
    var ns := MatchingLines(lines, pattern.matches);
    var s := PatternFindings(lines, pattern);
    PatternLineNumbers(lines, pattern);
    MatchingLinesComplete(lines, pattern.matches);
    forall j | 0 <= j < |lines| && pattern.matches(lines[j]) ensures exists k :: 0 <= k < |s| && s[k].line == j + 1 {
      var k :| 0 <= k < |ns| && ns[k] == j + 1;
      assert s[k].line == j + 1;
    }
  }

  /** A pattern's findings come in ascending line order. */
  lemma PatternFindingsAscending(lines: seq<string>, pattern: SecurityPattern)
    ensures forall a, b :: 0 <= a < b < |PatternFindings(lines, pattern)| ==>
      PatternFindings(lines, pattern)[a].line < PatternFindings(lines, pattern)[b].line
  {
    PatternLineNumbers(lines, pattern);
    MatchingLinesAscending(lines, pattern.matches);
  }

  /** Findings of patterns that all have one severity all have that severity. */
  lemma {:induction false} FindingsSeverity(lines: seq<string>, patterns: seq<SecurityPattern>, s: Severity)
    requires forall c :: 0 <= c < |patterns| ==> patterns[c].severity == s
    ensures forall k :: 0 <= k < |Findings(lines, patterns)| ==> Findings(lines, patterns)[k].severity == s
  {
    if patterns != [] {
      var init := patterns[..|patterns| - 1];
      var pattern := patterns[|patterns| - 1];
      FindingsSeverity(lines, init, s);
      PatternLineNumbers(lines, pattern);
      var f0 := Findings(lines, init);
      var f1 := PatternFindings(lines, pattern);
      var f := Findings(lines, patterns);
      forall k | 0 <= k < |f| ensures f[k].severity == s {
        if k < |f0| { assert f[k] == f0[k]; } else { assert f[k] == f1[k - |f0|]; }
      }
    }
  }

  function VulnerabilitySeverities(vs: seq<Vulnerability>): seq<Severity>
  {
    seq(|vs|, k requires 0 <= k < |vs| => vs[k].severity)
  }

  /** The dictionary `_analyze_security` returns. */
  datatype SecurityReport = SecurityReport(
    vulnerabilities: seq<Vulnerability>, vulnerabilityCount: nat,
    critical: nat, high: nat, medium: nat, low: nat)

  function SecurityReportOf(vs: seq<Vulnerability>): SecurityReport
  {
    var sevs := VulnerabilitySeverities(vs);
    SecurityReport(vs, |vs|, Tally(sevs, Severity.Critical), Tally(sevs, High), Tally(sevs, Medium), Tally(sevs, Low))
  }

  function SecurityFindings(code: string, language: string, p: Patterns): seq<Vulnerability>
  {
    Findings(Lines(code), SecurityPatterns(language, p))
  }

  /** Every pattern has high severity, so all findings are counted as high and none as critical. */
  lemma SecurityCounts(code: string, language: string, p: Patterns)
    ensures var r := SecurityReportOf(SecurityFindings(code, language, p));
      r.vulnerabilityCount == |r.vulnerabilities| &&
      r.critical == 0 && r.medium == 0 && r.low == 0 && r.high == r.vulnerabilityCount
  {
    var sevs := VulnerabilitySeverities(SecurityFindings(code, language, p));
    FindingsSeverity(Lines(code), SecurityPatterns(language, p), High);
    TallyAbsent(sevs, Severity.Critical);
    TallyAbsent(sevs, Medium);
    TallyAbsent(sevs, Low);
    TallyTotal(sevs);
  }

  /** `_analyze_security`: the patterns one after the other, each over all lines. */
  method AnalyzeSecurity(code: string, language: string, p: Patterns) returns (report: SecurityReport)
    ensures report == SecurityReportOf(SecurityFindings(code, language, p))
  {
    var patterns := SecurityPatterns(language, p);
    var lines := Lines(code);
    var vulnerabilities: seq<Vulnerability> := [];
    for c := 0 to |patterns|
      invariant vulnerabilities == Findings(lines, patterns[..c])
    {
      assert patterns[..c + 1][..c] == patterns[..c];
      var found := FindPattern(lines, patterns[c]);
      vulnerabilities := vulnerabilities + found;
    }
    assert patterns[..|patterns|] == patterns;
    report := SecurityReportOf(vulnerabilities);
  }

  // ---------------------------------------------------------------------
  // Performance
  // ---------------------------------------------------------------------

  const QuadraticImpact := "Can lead to O(n²) time complexity " + "and excessive memory usage."

  const JavaConcatIssue := PerformanceIssue("string_manipulation",
    "String concatenation in a loop. " + "Consider using StringBuilder.", Medium, QuadraticImpact)
  const JavaNewIssue := PerformanceIssue("object_creation",
    "Object creation in a loop. " + "Consider reusing objects.", Medium,
    "Can lead to excessive garbage collection " + "and memory pressure.")
  const PythonAppendIssue := PerformanceIssue("loop_optimization",
    "Using .append() in a loop. " + "Consider list comprehension.", Low,
    "List comprehensions are generally faster " + "and more readable.")
  const PythonConcatIssue := PerformanceIssue("string_manipulation",
    "String concatenation in a loop. " + "Consider using join().", Medium, QuadraticImpact)

  /** The whole-code checks: two for Java, two for Python, none for other languages. */
  function PerformanceFindings(code: string, language: string, p: Patterns): seq<PerformanceIssue>
  {
    if Lower(language) == "java" then
      (if p.javaConcatInLoop(code) then [JavaConcatIssue] else []) + (if p.javaNewInLoop(code) then [JavaNewIssue] else [])
    else if Lower(language) == "python" then
      (if p.pythonAppendInLoop(code) then [PythonAppendIssue] else []) + (if p.pythonConcatInLoop(code) then [PythonConcatIssue] else [])
    else []
  }

  function PerformanceSeverities(issues: seq<PerformanceIssue>): seq<Severity>
  {
    seq(|issues|, k requires 0 <= k < |issues| => issues[k].severity)
  }

  /** The dictionary `_analyze_performance` returns. */
  datatype PerformanceReport = PerformanceReport(issues: seq<PerformanceIssue>, issueCount: nat, high: nat, medium: nat, low: nat)

  function PerformanceReportOf(issues: seq<PerformanceIssue>): PerformanceReport
  {
    var sevs := PerformanceSeverities(issues);
    PerformanceReport(issues, |issues|, Tally(sevs, High), Tally(sevs, Medium), Tally(sevs, Low))
  }

  /**
   * At most two findings, none unless the language is Java or Python, each
   * present exactly when its pattern matches, and never high severity.
   */
  lemma PerformanceFacts(code: string, language: string, p: Patterns)
    ensures var r := PerformanceReportOf(PerformanceFindings(code, language, p));
      && r.issueCount == |r.issues| <= 2
      && r.high == 0 && r.high + r.medium + r.low == r.issueCount
    ensures Lower(language) != "java" && Lower(language) != "python" ==> PerformanceFindings(code, language, p) == []
    ensures Lower(language) == "java" ==>
      && (JavaConcatIssue in PerformanceFindings(code, language, p) <==> p.javaConcatInLoop(code))
      && (JavaNewIssue in PerformanceFindings(code, language, p) <==> p.javaNewInLoop(code))
    ensures Lower(language) == "python" ==>
      && (PythonAppendIssue in PerformanceFindings(code, language, p) <==> p.pythonAppendInLoop(code))
      && (PythonConcatIssue in PerformanceFindings(code, language, p) <==> p.pythonConcatInLoop(code))
  {
    var sevs := PerformanceSeverities(PerformanceFindings(code, language, p));
    TallyAbsent(sevs, Severity.Critical);
    TallyAbsent(sevs, High);
    TallyTotal(sevs);
  }

  /** `_analyze_performance`. */
  method AnalyzePerformance(code: string, language: string, p: Patterns) returns (report: PerformanceReport)
    ensures report == PerformanceReportOf(PerformanceFindings(code, language, p))
  {
    var issues: seq<PerformanceIssue> := [];
    if Lower(language) == "java" {
      if p.javaConcatInLoop(code) {
        issues := issues + [JavaConcatIssue];
      }
      if p.javaNewInLoop(code) {
        issues := issues + [JavaNewIssue];
      }
      assert issues == (if p.javaConcatInLoop(code) then [JavaConcatIssue] else []) +
        (if p.javaNewInLoop(code) then [JavaNewIssue] else []);
    } else if Lower(language) == "python" {
      if p.pythonAppendInLoop(code) {
        issues := issues + [PythonAppendIssue];
      }
      if p.pythonConcatInLoop(code) {
        issues := issues + [PythonConcatIssue];
      }
      assert issues == (if p.pythonAppendInLoop(code) then [PythonAppendIssue] else []) +
        (if p.pythonConcatInLoop(code) then [PythonConcatIssue] else []);
    }
    report := PerformanceReportOf(issues);
  }

  // ---------------------------------------------------------------------
  // The report
  // ---------------------------------------------------------------------

  /** The analysis results dictionary: a key is present when its section ran. */
  datatype Results = Results(quality: Option<QualityReport>, security: Option<SecurityReport>, performance: Option<PerformanceReport>)

  const QualityHeading := "## Code Quality\n\n"
  const IssuesHeading := "### Issues:\n\n"
  const NoQualityIssues := "No quality issues detected.\n"
  const SecurityHeading := "\n## Security Analysis\n\n"
  const VulnerabilitiesHeading := "### Vulnerabilities:\n\n"
  const NoVulnerabilities := "No security vulnerabilities detected.\n"
  const PerformanceHeading := "\n## Performance Analysis\n\n"
  const NoPerformanceIssues := "No performance issues detected.\n"

  function Header(language: string): string
  {
    "# Code Analysis Results for " + language + " code\n\n"
  }

  /** `Found N issues: H high, M medium, L low severity.` and a blank line. */
  function CountsLine(count: nat, high: nat, medium: nat, low: nat): string
  {
    "Found " + NatToString(count) + " issues: " +
    NatToString(high) + " high, " + NatToString(medium) + " medium, " + NatToString(low) + " low severity.\n\n"
  }

  function SecurityCountsLine(s: SecurityReport): string
  {
    "Found " + NatToString(s.vulnerabilityCount) + " vulnerabilities: " + NatToString(s.critical) + " critical, " +
    NatToString(s.high) + " high, " + NatToString(s.medium) + " medium, " + NatToString(s.low) + " low severity.\n\n"
  }

  function IssueLine(i: Issue): string
  {
    "- **" + i.kind + "** (Line " + NatToString(i.line) + ", " + i.severity.Value() + "): " + i.description + "\n"
  }

  function VulnerabilityLine(v: Vulnerability): string
  {
    "- **" + v.kind + "** (Line " + NatToString(v.line) + ", " + v.severity.Value() + "): " + v.description + "\n" +
    "  Code: `" + v.code + "`\n"
  }

  function PerformanceLine(i: PerformanceIssue): string
  {
    "- **" + i.kind + "** (" + i.severity.Value() + "): " + i.description + "\n" + "  Impact: " + i.impact + "\n"
  }

  /** `text` followed by one bullet per issue, in order. */
  function IssueList(text: string, issues: seq<Issue>): string
  {
    if issues == [] then text else IssueList(text, issues[..|issues| - 1]) + IssueLine(issues[|issues| - 1])
  }

  function VulnerabilityList(text: string, vs: seq<Vulnerability>): string
  {
    if vs == [] then text else VulnerabilityList(text, vs[..|vs| - 1]) + VulnerabilityLine(vs[|vs| - 1])
  }

  function PerformanceList(text: string, issues: seq<PerformanceIssue>): string
  {
    if issues == [] then text else PerformanceList(text, issues[..|issues| - 1]) + PerformanceLine(issues[|issues| - 1])
  }

  function QualitySection(q: QualityReport): string
  {
    var head := QualityHeading + CountsLine(q.issueCount, q.high, q.medium, q.low);
    if q.issues != [] then IssueList(head + IssuesHeading, q.issues) else head + NoQualityIssues
  }

  function SecuritySection(s: SecurityReport): string
  {
    var head := SecurityHeading + SecurityCountsLine(s);
    if s.vulnerabilities != [] then VulnerabilityList(head + VulnerabilitiesHeading, s.vulnerabilities)
    else head + NoVulnerabilities
  }

  function PerformanceSection(r: PerformanceReport): string
  {
    var head := PerformanceHeading + CountsLine(r.issueCount, r.high, r.medium, r.low);
    if r.issues != [] then PerformanceList(head + IssuesHeading, r.issues) else head + NoPerformanceIssues
  }

  /** `text`, followed by `section` when there is one. */
  function Extend(text: string, section: Option<string>): string
  {
    if section.Some? then text + section.value else text
  }

  function QualityPart(results: Results): Option<string>
  {
    if results.quality.Some? then Some(QualitySection(results.quality.value)) else None
  }

  function SecurityPart(results: Results): Option<string>
  {
    if results.security.Some? then Some(SecuritySection(results.security.value)) else None
  }

  function PerformancePart(results: Results): Option<string>
  {
    if results.performance.Some? then Some(PerformanceSection(results.performance.value)) else None
  }

  /** The text `_format_results` builds: the header, then each present section in order. */
  function Report(results: Results, language: string): string
  {
    Extend(Extend(Extend(Header(language), QualityPart(results)), SecurityPart(results)), PerformancePart(results))
  }

  method FormatQuality(quality: QualityReport) returns (text: string)
    ensures text == QualitySection(quality)
  {
    text := QualityHeading + CountsLine(quality.issueCount, quality.high, quality.medium, quality.low);
    if quality.issues != [] {
      text := text + IssuesHeading;
      ghost var before := text;
      for k := 0 to |quality.issues|
        invariant text == IssueList(before, quality.issues[..k])
      {
        assert quality.issues[..k + 1][..k] == quality.issues[..k];
        text := text + IssueLine(quality.issues[k]);
      }
      assert quality.issues[..|quality.issues|] == quality.issues;
    } else {
      text := text + NoQualityIssues;
    }
  }

  method FormatSecurity(security: SecurityReport) returns (text: string)
    ensures text == SecuritySection(security)
  {
    text := SecurityHeading + SecurityCountsLine(security);
    if security.vulnerabilities != [] {
      text := text + VulnerabilitiesHeading;
      ghost var before := text;
      for k := 0 to |security.vulnerabilities|
        invariant text == VulnerabilityList(before, security.vulnerabilities[..k])
      {
        assert security.vulnerabilities[..k + 1][..k] == security.vulnerabilities[..k];
        text := text + VulnerabilityLine(security.vulnerabilities[k]);
      }
      assert security.vulnerabilities[..|security.vulnerabilities|] == security.vulnerabilities;
    } else {
      text := text + NoVulnerabilities;
    }
  }

  method FormatPerformance(performance: PerformanceReport) returns (text: string)
    ensures text == PerformanceSection(performance)
  {
    text := PerformanceHeading + CountsLine(performance.issueCount, performance.high, performance.medium, performance.low);
    if performance.issues != [] {
      text := text + IssuesHeading;
      ghost var before := text;
      for k := 0 to |performance.issues|
        invariant text == PerformanceList(before, performance.issues[..k])
      {
        assert performance.issues[..k + 1][..k] == performance.issues[..k];
        text := text + PerformanceLine(performance.issues[k]);
      }
      assert performance.issues[..|performance.issues|] == performance.issues;
    } else {
      text := text + NoPerformanceIssues;
    }
  }

  /** `_format_results`: the header, then the sections that are present, in a fixed order. */
  method FormatResults(results: Results, language: string) returns (output: string)
    ensures output == Report(results, language)
  {
    output := Header(language);
    if results.quality.Some? {
      var section := FormatQuality(results.quality.value);
      output := output + section;
    }
    if results.security.Some? {
      var section := FormatSecurity(results.security.value);
      output := output + section;
    }
    if results.performance.Some? {
      var section := FormatPerformance(results.performance.value);
      output := output + section;
    }
  }

  /** Extending keeps what the text starts with, and adds something exactly when a section is given. */
  lemma ExtendKeepsPrefix(p: string, text: string, section: Option<string>)
    requires IsPrefix(p, text)
    ensures IsPrefix(p, Extend(text, section))
    ensures |Extend(text, section)| >= |text|
  {
    if section.Some? {
      assert (text + section.value)[..|p|] == text[..|p|];
    }
  }

  /** The report starts with its header, and is only the header when no section ran. */
  lemma ReportHeader(results: Results, language: string)
    ensures IsPrefix(Header(language), Report(results, language))
    ensures results == Results(None, None, None) <==> Report(results, language) == Header(language)
  {
    var h := Header(language);
    var t1 := Extend(h, QualityPart(results));
    var t2 := Extend(t1, SecurityPart(results));
    assert IsPrefix(h, h);
    ExtendKeepsPrefix(h, h, QualityPart(results));
    ExtendKeepsPrefix(h, t1, SecurityPart(results));
    ExtendKeepsPrefix(h, t2, PerformancePart(results));
    if results.quality.Some? {
      assert |t1| >= |h| + |QualityHeading|;
    } else if results.security.Some? {
      assert |t2| >= |h| + |SecurityHeading|;
    } else if results.performance.Some? {
      assert |Report(results, language)| >= |h| + |PerformanceHeading|;
    }
  }

  /** Each issue's bullet appears in the list. */
  lemma {:induction false} IssueListContains(text: string, issues: seq<Issue>, k: nat)
    requires k < |issues|
    ensures Contains(IssueList(text, issues), IssueLine(issues[k]))
  {
    var init := issues[..|issues| - 1];
    var last := IssueLine(issues[|issues| - 1]);
    if k == |issues| - 1 {
      ContainsSelf(last);
      ContainsRight(IssueList(text, init), last, last);
    } else {
      IssueListContains(text, init, k);
      assert init[k] == issues[k];
      ContainsLeft(IssueList(text, init), last, IssueLine(issues[k]));
    }
  }

  lemma {:induction false} VulnerabilityListContains(text: string, vs: seq<Vulnerability>, k: nat)
    requires k < |vs|
    ensures Contains(VulnerabilityList(text, vs), VulnerabilityLine(vs[k]))
  {
    var init := vs[..|vs| - 1];
    var last := VulnerabilityLine(vs[|vs| - 1]);
    if k == |vs| - 1 {
      ContainsSelf(last);
      ContainsRight(VulnerabilityList(text, init), last, last);
    } else {
      VulnerabilityListContains(text, init, k);
      assert init[k] == vs[k];
      ContainsLeft(VulnerabilityList(text, init), last, VulnerabilityLine(vs[k]));
    }
  }

  lemma {:induction false} PerformanceListContains(text: string, issues: seq<PerformanceIssue>, k: nat)
    requires k < |issues|
    ensures Contains(PerformanceList(text, issues), PerformanceLine(issues[k]))
  {
    var init := issues[..|issues| - 1];
    var last := PerformanceLine(issues[|issues| - 1]);
    if k == |issues| - 1 {
      ContainsSelf(last);
      ContainsRight(PerformanceList(text, init), last, last);
    } else {
      PerformanceListContains(text, init, k);
      assert init[k] == issues[k];
      ContainsLeft(PerformanceList(text, init), last, PerformanceLine(issues[k]));
    }
  }

  /** Extending keeps every occurrence, and the text of the added section occurs in the result. */
  lemma ExtendContains(text: string, section: Option<string>, w: string)
    requires Contains(text, w) || (section.Some? && Contains(section.value, w))
    ensures Contains(Extend(text, section), w)
  {
    if Contains(text, w) {
      if section.Some? { ContainsLeft(text, section.value, w); }
    } else {
      ContainsRight(text, section.value, w);
    }
  }

  /** Whatever a present section says appears in the report. */
  lemma SectionInReport(results: Results, language: string, w: string)
    requires || (results.quality.Some? && Contains(QualitySection(results.quality.value), w))
             || (results.security.Some? && Contains(SecuritySection(results.security.value), w))
             || (results.performance.Some? && Contains(PerformanceSection(results.performance.value), w))
    ensures Contains(Report(results, language), w)
  {
    var t1 := Extend(Header(language), QualityPart(results));
    var t2 := Extend(t1, SecurityPart(results));
    if results.quality.Some? && Contains(QualitySection(results.quality.value), w) {
      ExtendContains(Header(language), QualityPart(results), w);
    }
    if Contains(t1, w) || (results.security.Some? && Contains(SecuritySection(results.security.value), w)) {
      ExtendContains(t1, SecurityPart(results), w);
    }
    ExtendContains(t2, PerformancePart(results), w);
  }

  /** Every finding of every present section is listed in the report, one bullet each. */
  lemma EveryFindingReported(results: Results, language: string)
    ensures results.quality.Some? ==> forall k :: 0 <= k < |results.quality.value.issues| ==>
      Contains(Report(results, language), IssueLine(results.quality.value.issues[k]))
    ensures results.security.Some? ==> forall k :: 0 <= k < |results.security.value.vulnerabilities| ==>
      Contains(Report(results, language), VulnerabilityLine(results.security.value.vulnerabilities[k]))
    ensures results.performance.Some? ==> forall k :: 0 <= k < |results.performance.value.issues| ==>
      Contains(Report(results, language), PerformanceLine(results.performance.value.issues[k]))
  {
    if results.quality.Some? {
      var q := results.quality.value;
      forall k | 0 <= k < |q.issues| ensures Contains(Report(results, language), IssueLine(q.issues[k])) {
        IssueListContains(QualityHeading + CountsLine(q.issueCount, q.high, q.medium, q.low) + IssuesHeading, q.issues, k);
        SectionInReport(results, language, IssueLine(q.issues[k]));
      }
    }
    if results.security.Some? {
      var s := results.security.value;
      forall k | 0 <= k < |s.vulnerabilities| ensures Contains(Report(results, language), VulnerabilityLine(s.vulnerabilities[k])) {
        VulnerabilityListContains(SecurityHeading + SecurityCountsLine(s) + VulnerabilitiesHeading, s.vulnerabilities, k);
        SectionInReport(results, language, VulnerabilityLine(s.vulnerabilities[k]));
      }
    }
    if results.performance.Some? {
      var r := results.performance.value;
      forall k | 0 <= k < |r.issues| ensures Contains(Report(results, language), PerformanceLine(r.issues[k])) {
        PerformanceListContains(PerformanceHeading + CountsLine(r.issueCount, r.high, r.medium, r.low) + IssuesHeading, r.issues, k);
        SectionInReport(results, language, PerformanceLine(r.issues[k]));
      }
    }
  }

  /** A section that ran and found nothing says so. */
  lemma EmptySectionsSaySo(results: Results, language: string)
    ensures results.quality.Some? && results.quality.value.issues == [] ==>
      Contains(Report(results, language), NoQualityIssues)
    ensures results.security.Some? && results.security.value.vulnerabilities == [] ==>
      Contains(Report(results, language), NoVulnerabilities)
    ensures results.performance.Some? && results.performance.value.issues == [] ==>
      Contains(Report(results, language), NoPerformanceIssues)
  {
    if results.quality.Some? && results.quality.value.issues == [] {
      var q := results.quality.value;
      ContainsSelf(NoQualityIssues);
      ContainsRight(QualityHeading + CountsLine(q.issueCount, q.high, q.medium, q.low), NoQualityIssues, NoQualityIssues);
      SectionInReport(results, language, NoQualityIssues);
    }
    if results.security.Some? && results.security.value.vulnerabilities == [] {
      var s := results.security.value;
      ContainsSelf(NoVulnerabilities);
      ContainsRight(SecurityHeading + SecurityCountsLine(s), NoVulnerabilities, NoVulnerabilities);
      SectionInReport(results, language, NoVulnerabilities);
    }
    if results.performance.Some? && results.performance.value.issues == [] {
      var r := results.performance.value;
      ContainsSelf(NoPerformanceIssues);
      ContainsRight(PerformanceHeading + CountsLine(r.issueCount, r.high, r.medium, r.low), NoPerformanceIssues, NoPerformanceIssues);
      SectionInReport(results, language, NoPerformanceIssues);
    }
  }

  // ---------------------------------------------------------------------
  // _run
  // ---------------------------------------------------------------------

  datatype Step = QualityStep | SecurityStep | PerformanceStep

  const All := "all"

  /** The analysis type each step answers to, besides "all". */
  function StepName(step: Step): string
  {
    match step
    case QualityStep => "quality"
    case SecurityStep => "security"
    case PerformanceStep => "performance"
  }

  /** `analysis_type in [<step>, "all"]`. */
  predicate Selects(analysisType: string, step: Step)
  {
    analysisType == StepName(step) || analysisType == All
  }

  /** The results dictionary `_run` fills when no analysis step fails. */
  function ResultsFor(code: string, language: string, analysisType: string, p: Patterns): Results
  {
    Results(
      if Selects(analysisType, QualityStep) then Some(QualityReportOf(QualityIssues(code, language, p))) else None,
      if Selects(analysisType, SecurityStep) then Some(SecurityReportOf(SecurityFindings(code, language, p))) else None,
      if Selects(analysisType, PerformanceStep) then Some(PerformanceReportOf(PerformanceFindings(code, language, p))) else None)
  }

  /**
   * Each section is present exactly when the analysis type is its name or
   * "all": "all" fills every section, a step's name fills that section
   * alone, and a type naming no step fills none.
   */
  lemma SectionsSelected(code: string, language: string, analysisType: string, p: Patterns)
    ensures var r := ResultsFor(code, language, analysisType, p);
      && (r.quality.Some? <==> analysisType == "quality" || analysisType == "all")
      && (r.security.Some? <==> analysisType == "security" || analysisType == "all")
      && (r.performance.Some? <==> analysisType == "performance" || analysisType == "all")
    ensures analysisType == All ==>
      var r := ResultsFor(code, language, analysisType, p);
      r.quality.Some? && r.security.Some? && r.performance.Some?
    ensures analysisType !in {StepName(QualityStep), StepName(SecurityStep), StepName(PerformanceStep), All} ==>
      ResultsFor(code, language, analysisType, p) == Results(None, None, None)
  {
  }

  /** What `_run` returns: a message, or the results for `format="json"` (whose dump is opaque). */
  datatype Response = Message(text: string) | JsonDump(results: Results)

  const LanguageNotSpecified := "Language not specified. Please provide a language."
  const NoCodeProvided := "No code provided. Please provide code to analyze."
  const AnalysisFailed := "Error analyzing code"
  const Json := "json"

  /** An exception raised inside one analysis step. */
  datatype Fault = Fault(step: Step, exc: Exception)

  /** The record `_run` adds when an analysis step fails. */
  function AnalysisFailureRecord(language: string, analysisType: string, e: Exception, now: string): AppError
  {
    NewAppError(AnalysisFailed, General, Error,
      Some(map["language" := language, "analysis_type" := analysisType]), Some(e), None, now)
  }

  /** `language or self.language`, then the falsiness test. */
  function EffectiveLanguage(argument: Option<string>, own: Option<string>): Option<string>
  {
    if argument.Some? && argument.value != "" then argument
    else if own.Some? && own.value != "" then own
    else None
  }

  /** A step that the analysis type selects raises. */
  predicate FaultHits(analysisType: string, fault: Option<Fault>)
  {
    fault.Some? && Selects(analysisType, fault.value.step)
  }

  /** What `_run` answers with the results of its steps: their JSON dump for `format="json"`, else the report. */
  function Render(results: Results, language: string, format: Option<string>): Response
  {
    if format == Some(Json) then JsonDump(results) else Message(Report(results, language))
  }

  /** What `_run` answers when every selected step succeeds. */
  function Answer(code: string, language: string, analysisType: string, format: Option<string>, p: Patterns): Response
  {
    Render(ResultsFor(code, language, analysisType, p), language, format)
  }

  /** The two records a failing step leaves: its wrapper's, then `_run`'s. */
  function FailureRecords(e: Exception, language: string, analysisType: string, now: string): seq<AppError>
  {
    [GuardRecord(e, now), AnalysisFailureRecord(language, analysisType, Reraised(GuardRecord(e, now)), now)]
  }

  /** `f"Error analyzing code: {str(e)}"` for the exception the wrapper re-raised. */
  function FailureMessage(e: Exception, now: string): Response
  {
    Message(AnalysisFailed + ": " + Reraised(GuardRecord(e, now)).message)
  }

  class CodeAnalysisTool {
    const language: Option<string>

    constructor (language: Option<string>)
      ensures this.language == language
    {
      this.language := language;
    }

    /** A failing step: its own wrapper records and re-raises; `_run` records again and answers. */
    static method Fail(store: ErrorHandler, e: Exception, codeLanguage: string, analysisType: string, now: string)
      returns (response: Response)
      modifies store
      ensures store.errors == old(store.errors) + FailureRecords(e, codeLanguage, analysisType, now)
      ensures response == FailureMessage(e, now)
    {
      var raised := store.Guard<Results>(Raised(e), now);
      var error := store.CreateError(AnalysisFailed, General, Error,
        Some(map["language" := codeLanguage, "analysis_type" := analysisType]), Some(raised.exc), None, now);
      response := Message(AnalysisFailed + ": " + raised.exc.message);
    }

    /**
     * The analysis steps of `_run`'s `try` block, in order; the first
     * selected step that raises ends the block.
     */
    static method RunSteps(code: string, lang: string, analysisType: string, p: Patterns, fault: Option<Fault>)
      returns (outcome: Outcome<Results>)
      ensures !FaultHits(analysisType, fault) ==> outcome == Returned(ResultsFor(code, lang, analysisType, p))
      ensures FaultHits(analysisType, fault) ==> outcome == Raised(fault.value.exc)
    {
      var results := Results(None, None, None);
      if Selects(analysisType, QualityStep) {
        if fault.Some? && fault.value.step == QualityStep {
          return Raised(fault.value.exc);
        }
        var quality := AnalyzeCodeQuality(code, lang, p);
        results := results.(quality := Some(quality));
      }
      if Selects(analysisType, SecurityStep) {
        if fault.Some? && fault.value.step == SecurityStep {
          return Raised(fault.value.exc);
        }
        var security := AnalyzeSecurity(code, lang, p);
        results := results.(security := Some(security));
      }
      if Selects(analysisType, PerformanceStep) {
        if fault.Some? && fault.value.step == PerformanceStep {
          return Raised(fault.value.exc);
        }
        var performance := AnalyzePerformance(code, lang, p);
        results := results.(performance := Some(performance));
      }
      outcome := Returned(results);
    }

    /** The `try` block of `_run` and its `except` clause. */
    static method Analyze(store: ErrorHandler, code: string, lang: string, analysisType: string,
                          format: Option<string>, p: Patterns, fault: Option<Fault>, now: string)
      returns (response: Response)
      modifies store
      ensures !FaultHits(analysisType, fault) ==>
        response == Answer(code, lang, analysisType, format, p) && store.errors == old(store.errors)
      ensures FaultHits(analysisType, fault) ==>
        && store.errors == old(store.errors) + FailureRecords(fault.value.exc, lang, analysisType, now)
        && response == FailureMessage(fault.value.exc, now)
    {
      var outcome := RunSteps(code, lang, analysisType, p, fault);
      if outcome.Raised? {
        response := Fail(store, outcome.exc, lang, analysisType, now);
      } else {
        response := Respond(outcome.value, lang, format);
      }
    }

    static method Respond(results: Results, lang: string, format: Option<string>) returns (response: Response)
      ensures response == Render(results, lang, format)
    {
      if format == Some(Json) {
        response := JsonDump(results);
      } else {
        var text := FormatResults(results, lang);
        response := Message(text);
      }
    }

    /**
     * `_run`. The language guard comes before the empty-code guard; a step
     * failure is recorded and answered with a message, never raised.
     */
    method Run(store: ErrorHandler, code: string, language: Option<string>, analysisType: string,
               format: Option<string>, p: Patterns, fault: Option<Fault>, now: string)
      returns (response: Response)
      modifies store
      ensures EffectiveLanguage(language, this.language).None? ==>
        response == Message(LanguageNotSpecified) && store.errors == old(store.errors)
      ensures EffectiveLanguage(language, this.language).Some? && AllSpace(code) ==>
        response == Message(NoCodeProvided) && store.errors == old(store.errors)
      ensures EffectiveLanguage(language, this.language).Some? && !AllSpace(code) && !FaultHits(analysisType, fault) ==>
        && response == Answer(code, EffectiveLanguage(language, this.language).value, analysisType, format, p)
        && store.errors == old(store.errors)
      ensures EffectiveLanguage(language, this.language).Some? && !AllSpace(code) && FaultHits(analysisType, fault) ==>
        && store.errors == old(store.errors) +
             FailureRecords(fault.value.exc, EffectiveLanguage(language, this.language).value, analysisType, now)
        && response == FailureMessage(fault.value.exc, now)
    {
      var codeLanguage := if language.Some? && language.value != "" then language else this.language;
      if codeLanguage.None? || codeLanguage.value == "" {
        return Message(LanguageNotSpecified);
      }
      StripEmptyIffAllSpace(code);
      if Strip(code) == [] {
        return Message(NoCodeProvided);
      }
      response := Analyze(store, code, codeLanguage.value, analysisType, format, p, fault, now);
    }
  }
}
