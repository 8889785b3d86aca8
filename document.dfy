/**
 * The text `GoogleDocsQAReporter` writes into the report document
 * (create_google_doc.py). Every piece is inserted at the end of the body, so
 * the document is modelled as the string it accumulates; the Docs and Drive
 * calls around each insertion are not part of this model.
 */
module Document {
  import opened Wrappers
  import opened Text
  import opened Counting
  import opened Ranking
  import opened Report

  /** `c * n` for a one-character string `c`. */
  function Repeat(c: char, n: nat): (s: string)
    ensures |s| == n
  {
    if n == 0 then [] else Repeat(c, n - 1) + [c]
  }

  /** The heavy rule that frames the summary and each page header. */
  const Rule: string := Repeat('\U{2501}', 28)

  /** The thin rule after each issue (create_google_doc.py:242). */
  const Separator: string := Repeat('\U{2500}', 50) + "\n\n"

  /** The symbols of the four levels, in the order of `SeverityLevels`. */
  const LevelEmojis: seq<char> := ['\U{1F534}', '\U{1F7E0}', '\U{1F7E1}', '\U{1F7E2}']

  /** The symbol of an unknown level. */
  const UnknownEmoji: char := '\U{26AA}'

  /** `severity_emoji.get(issue.get('severity', 'low'), '⚪')`: a missing
      severity reads as "low", an unknown one gets the white circle, and each
      level gets the symbol the summary shows next to its count. */
  function SeverityEmoji(r: Record): (e: char)
    ensures forall i :: 0 <= i < |SeverityLevels| && Get(r, "severity", "low") == SeverityLevels[i] ==> e == LevelEmojis[i]
    ensures e == UnknownEmoji <==> Get(r, "severity", "low") !in SeverityLevels
    ensures "severity" !in r ==> e == LevelEmojis[3]
  {
    var severity := Get(r, "severity", "low");
    if severity == "critical" then '\U{1F534}'
    else if severity == "high" then '\U{1F7E0}'
    else if severity == "medium" then '\U{1F7E1}'
    else if severity == "low" then '\U{1F7E2}'
    else UnknownEmoji
  }

  // ---------------------------------------------------------------------------
  // One issue (create_google_doc.py:192-244).

  /** The text before the issue number: a blank line, the symbol, " Issue #". */
  function IssuePrefix(r: Record): string {
    "\n" + [SeverityEmoji(r)] + " Issue #"
  }

  /** The severity as the issue text prints it: here a missing severity reads
      "unknown", not "low". */
  function SeverityLabel(r: Record): string {
    Upper(Get(r, "severity", "unknown"))
  }

  /** The text after the issue number. */
  function IssueTail(r: Record): string {
    ": " + Get(r, "category", "Unknown") + "\n\n"
    + "Severity: " + SeverityLabel(r) + "\n"
    + "Device: " + Upper(Get(r, "device", "unknown")) + "\n"
    + "Description: " + Get(r, "issue", "No description") + "\n"
    + "Time: " + Get(r, "timestamp", "Unknown") + "\n\n"
  }

  /** The text of issue number `n` followed by the separator. */
  function IssueBlock(r: Record, n: nat): string {
    IssuePrefix(r) + NatToString(n) + IssueTail(r) + Separator
  }

  /** The number a reader finds after "Issue #" in an issue block. */
  function IssueNumber(block: string): nat {
    if |block| < 10 then 0 else DigitsValue(LeadingDigits(block[10..]))
  }

  // Assoc and Assoc3 state nothing about the report: they only steer the
  // solver to regroup a concatenation where a proof about the body needs it.
  lemma Assoc(a: string, b: string, c: string)
    ensures a + b + c == a + (b + c)
  {
  }

  lemma Assoc3(a: string, b: string, c: string, d: string)
    ensures a + b + c + d == a + (b + (c + d))
  {
  }

  /** The number printed in an issue block is the number it was given. */
  lemma IssueNumbered(r: Record, n: nat)
    ensures IssueNumber(IssueBlock(r, n)) == n
  {
    var prefix, digits, tail := IssuePrefix(r), NatToString(n), IssueTail(r);
    var rest := tail + Separator;
    assert |prefix| == 10;
    Assoc3(prefix, digits, tail, Separator);
    assert IssueBlock(r, n)[10..] == digits + rest;
    assert rest[0] == tail[0] == ':';
    LeadingDigitsOf(digits, rest);
    NatToStringRoundTrip(n);
  }

  /** A record without a severity is counted as "low" and shown with the low
      symbol, but its text says "Severity: UNKNOWN". */
  lemma MissingSeverity(r: Record)
    requires "severity" !in r
    ensures SeverityColumn([r]) == ["low"]
    ensures SeverityEmoji(r) == LevelEmojis[3]
    ensures SeverityLabel(r) == "UNKNOWN"
  {
    var single: seq<Record> := [r];
    assert single[..0] == [];
    assert Upper("unknown") == "UNKNOWN" by {
      assert "unknown"[1..] == "nknown";
      assert "nknown"[1..] == "known";
      assert "known"[1..] == "nown";
      assert "nown"[1..] == "own";
      assert "own"[1..] == "wn";
      assert "wn"[1..] == "n";
      assert "n"[1..] == "";
    }
  }

  // ---------------------------------------------------------------------------
  // One page section (create_google_doc.py:169-190).

  function PageHeader(url: string, n: nat): string {
    "\n\n" + Rule + "\nPAGE: " + url + "\n" + Rule + "\n\n" + "Issues found: " + NatToString(n) + "\n\n"
  }

  /** `enumerate(issues, 1)`: the issue blocks of a page, numbered from 1. */
  function IssueBlocks(issues: seq<Record>): (blocks: seq<string>)
    ensures |blocks| == |issues|
  {
    seq(|issues|, k requires 0 <= k < |issues| => IssueBlock(issues[k], k + 1))
  }

  function Concat(parts: seq<string>): string {
    if parts == [] then [] else Concat(parts[..|parts| - 1]) + parts[|parts| - 1]
  }

  lemma ConcatSnoc(parts: seq<string>, i: nat)
    requires i < |parts|
    ensures Concat(parts[..i + 1]) == Concat(parts[..i]) + parts[i]
  {
    assert parts[..i + 1][..i] == parts[..i];
  }

  function PageSection(url: string, issues: seq<Record>): string {
    PageHeader(url, |issues|) + Concat(IssueBlocks(issues))
  }

  lemma KeepsHead(prefix: string, a: string, b: string, c: string)
    requires |prefix| >= 2
    ensures (prefix + a + b + c)[1] == prefix[1]
  {
  }

  lemma PrefixSymbol(r: Record)
    ensures |IssuePrefix(r)| == 10 && IssuePrefix(r)[1] == SeverityEmoji(r)
  {
  }

  lemma BlockSymbol(r: Record, n: nat)
    ensures IssueBlock(r, n)[1] == SeverityEmoji(r)
  {
    PrefixSymbol(r);
    KeepsHead(IssuePrefix(r), NatToString(n), IssueTail(r), Separator);
  }

  /** The issues of a page are numbered 1 to n in their order, each block
      about the issue at that position. */
  lemma SectionNumbering(issues: seq<Record>)
    ensures forall k :: 0 <= k < |issues| ==>
      && IssueNumber(IssueBlocks(issues)[k]) == k + 1
      && IssueBlocks(issues)[k][1] == SeverityEmoji(issues[k])
  {
    var blocks := IssueBlocks(issues);
    forall k | 0 <= k < |issues|
      ensures IssueNumber(blocks[k]) == k + 1 && blocks[k][1] == SeverityEmoji(issues[k])
    {
      assert blocks[k] == IssueBlock(issues[k], k + 1);
      IssueNumbered(issues[k], k + 1);
      BlockSymbol(issues[k], k + 1);
    }
  }

  /** Appending the parts one by one to `prefix` builds `prefix + Concat(parts)`. */
  lemma ConcatStep(prefix: string, parts: seq<string>, i: nat)
    requires i <= |parts|
    ensures i == 0 ==> prefix + Concat(parts[..i]) == prefix
    ensures i == |parts| ==> parts[..i] == parts
    ensures i < |parts| ==> prefix + Concat(parts[..i]) + parts[i] == prefix + Concat(parts[..i + 1])
  {
    if i == 0 {
      assert parts[..i] == [];
    }
    if i < |parts| {
      ConcatSnoc(parts, i);
      Assoc(prefix, Concat(parts[..i]), parts[i]);
    }
  }

  // ---------------------------------------------------------------------------
  // All page sections (create_google_doc.py:155-167): one per page, in the
  // order the pages first appear.

  function Sections(issues: seq<Record>): (sections: seq<string>)
    ensures |sections| == |Distinct(PageColumn(issues))|
  {
    var pages := Distinct(PageColumn(issues));
    seq(|pages|, p requires 0 <= p < |pages| => PageSection(pages[p], OnPage(issues, pages[p])))
  }

  function IssuesText(issues: seq<Record>): string {
    Concat(Sections(issues))
  }

  // ---------------------------------------------------------------------------
  // The executive summary (create_google_doc.py:94-143).

  /** A count the summary prints; the dicts always hold the keys it asks for. */
  function Count(m: map<string, nat>, k: string): nat {
    if k in m then m[k] else 0
  }

  function SeverityLines(m: map<string, nat>): string {
    "Issue Severity:\n"
    + "  " + [LevelEmojis[0]] + " Critical: " + NatToString(Count(m, "critical")) + "\n"
    + "  " + [LevelEmojis[1]] + " High: " + NatToString(Count(m, "high")) + "\n"
    + "  " + [LevelEmojis[2]] + " Medium: " + NatToString(Count(m, "medium")) + "\n"
    + "  " + [LevelEmojis[3]] + " Low: " + NatToString(Count(m, "low")) + "\n\n"
  }

  function DeviceLines(m: map<string, nat>): string {
    "Issues by Device:\n"
    + "  \U{1F4BB} Desktop: " + NatToString(Count(m, "desktop")) + "\n"
    + "  \U{1F4F1} Mobile: " + NatToString(Count(m, "mobile")) + "\n\n"
  }

  function CategoryLine(e: Entry): string {
    "  \U{2022} " + e.0 + ": " + NatToString(e.1) + "\n"
  }

  function CategoryLines(entries: seq<Entry>): string {
    if entries == [] then []
    else CategoryLines(entries[..|entries| - 1]) + CategoryLine(entries[|entries| - 1])
  }

  lemma CategoryLinesPrefix(entries: seq<Entry>, i: nat)
    requires i <= |entries|
    ensures i == 0 ==> CategoryLines(entries[..i]) == []
    ensures i == |entries| ==> entries[..i] == entries
    ensures i < |entries| ==> CategoryLines(entries[..i + 1]) == CategoryLines(entries[..i]) + CategoryLine(entries[i])
  {
    if i < |entries| {
      assert entries[..i + 1][..i] == entries[..i];
    }
  }

  const AttentionHeading: string := "\U{26A0}\U{FE0F}  ATTENTION REQUIRED\n"
  const AttentionTail: string := " " + "critical/high severity issues need immediate attention!\n\n"

  /** The alert for `n` critical or high issues; nothing when there are none. */
  function AttentionBlock(n: nat): string {
    if n > 0 then AttentionHeading + NatToString(n) + AttentionTail
    else ""
  }

  /** The number a reader finds at the start of the alert's second line. */
  function AttentionCount(block: string): nat {
    if |block| < |AttentionHeading| then 0 else DigitsValue(LeadingDigits(block[|AttentionHeading|..]))
  }

  /** The alert appears exactly when some issue is critical or high, and the
      number it gives is the number of such issues, which is what the
      summary's critical and high counts add up to. */
  lemma AttentionFacts(issues: seq<Record>)
    ensures var block := AttentionBlock(|CriticalIssues(issues)|);
      && (block != "" <==> Occurs(SeverityColumn(issues), "critical") + Occurs(SeverityColumn(issues), "high") > 0)
      && AttentionCount(block) == Occurs(SeverityColumn(issues), "critical") + Occurs(SeverityColumn(issues), "high")
  {
    CriticalIssuesFacts(issues);
    var n := |CriticalIssues(issues)|;
    if n > 0 {
      var digits := NatToString(n);
      var rest := AttentionTail;
      Assoc(AttentionHeading, digits, rest);
      assert rest[0] == ' ';
      assert AttentionBlock(n)[|AttentionHeading|..] == digits + rest;
      LeadingDigitsOf(digits, rest);
      NatToStringRoundTrip(n);
    }
  }

  function SummaryText(s: Stats, urgent: nat): string {
    Rule + "\nEXECUTIVE SUMMARY\n" + Rule + "\n\n"
    + SeverityLines(s.severityCounts)
    + DeviceLines(s.deviceCounts)
    + "Top Issue Categories:\n" + CategoryLines(TopCategories(s)) + "\n"
    + AttentionBlock(urgent)
    + Rule + "\n\n"
  }

  /** The summary `_build_summary` inserts, or the key of its KeyError. */
  function Summary(issues: seq<Record>): Result<string, string> {
    match Statistics(issues)
    case Failure(key) => Failure(key)
    case Success(s) => Success(SummaryText(s, |CriticalIssues(issues)|))
  }

  // ---------------------------------------------------------------------------
  // The whole document (create_google_doc.py:29-56).

  function HeaderText(generated: string, store: string, n: nat): string {
    "Shopify QA Automation Report\n\nGenerated: " + generated + "\nStore: " + store
    + "\nTotal Issues Found: " + NatToString(n) + "\n\n"
  }

  /** The body of a finished report: the header, then the summary and the page
      sections, or only the header when the summary raised. */
  function ReportText(issues: seq<Record>, generated: string, store: string): string {
    HeaderText(generated, store, |issues|)
    + match Summary(issues)
      case Success(summary) => summary + IssuesText(issues)
      case Failure(_) => ""
  }

  /** The report document, as the text its body holds. */
  class ReportDocument {
    var body: string

    /** `documents().create(...)`: a new, empty document. */
    constructor()
      ensures body == ""
    {
      body := "";
    }

    method BuildHeader(generated: string, store: string, issues: seq<Record>)
      modifies this
      ensures body == old(body) + HeaderText(generated, store, |issues|)
    {
      body := body + HeaderText(generated, store, |issues|);
    }

    /** Inserts the summary; when counting raises, inserts nothing and
        returns the key of the KeyError. */
    method BuildSummary(issues: seq<Record>) returns (raised: Option<string>)
      modifies this
      ensures Summary(issues).Success? ==> raised == None && body == old(body) + Summary(issues).value
      ensures Summary(issues).Failure? ==> raised == Some(Summary(issues).error) && body == old(body)
    {
      var stats := Summarise(issues);
      if stats.Failure? {
        return Some(stats.error);
      }
      var s := stats.value;
      var summary := Rule + "\nEXECUTIVE SUMMARY\n" + Rule + "\n\n";
      summary := summary + SeverityLines(s.severityCounts);
      summary := summary + DeviceLines(s.deviceCounts);
      summary := summary + "Top Issue Categories:\n";
      ghost var head := summary;
      var top := TopCategories(s);
      CategoryLinesPrefix(top, 0);
      for i := 0 to |top|
        invariant summary == head + CategoryLines(top[..i])
        invariant body == old(body)
      {
        CategoryLinesPrefix(top, i);
        Assoc(head, CategoryLines(top[..i]), CategoryLine(top[i]));
        summary := summary + CategoryLine(top[i]);
      }
      CategoryLinesPrefix(top, |top|);
      summary := summary + "\n";
      var critical := CriticalIssues(issues);
      summary := summary + AttentionBlock(|critical|);
      summary := summary + Rule + "\n\n";
      assert summary == SummaryText(s, |critical|);
      assert Summary(issues) == Success(summary);
      body := body + summary;
      raised := None;
    }

    method AddSingleIssue(issue: Record, n: nat)
      modifies this
      ensures body == old(body) + IssueBlock(issue, n)
    {
      var text := IssuePrefix(issue) + NatToString(n) + IssueTail(issue);
      body := body + text;
      body := body + Separator;
    }

    method AddPageSection(url: string, issues: seq<Record>)
      modifies this
      ensures body == old(body) + PageSection(url, issues)
    {
      ghost var start := body;
      var header := PageHeader(url, |issues|);
      body := body + header;
      ghost var blocks := IssueBlocks(issues);
      ConcatStep(start + header, blocks, 0);
      for i := 0 to |issues|
        invariant body == start + header + Concat(blocks[..i])
      {
        AddSingleIssue(issues[i], i + 1);
        assert blocks[i] == IssueBlock(issues[i], i + 1);
        ConcatStep(start + header, blocks, i);
      }
      ConcatStep(start + header, blocks, |issues|);
      Assoc(start, header, Concat(blocks));
    }

    /** Groups the issues by page and adds one section per page. */
    method AddIssuesWithScreenshots(issues: seq<Record>)
      modifies this
      ensures body == old(body) + IssuesText(issues)
    {
      var pages, groups := GroupByPage(issues);
      ghost var start := body;
      ghost var sections := Sections(issues);
      ConcatStep(start, sections, 0);
      for p := 0 to |pages|
        invariant body == start + Concat(sections[..p])
      {
        AddPageSection(pages[p], groups[pages[p]]);
        assert sections[p] == PageSection(pages[p], groups[pages[p]]);
        ConcatStep(start, sections, p);
      }
      ConcatStep(start, sections, |pages|);
    }
  }

  /** `create_report`: a new document with the header, the summary and the
      page sections; a KeyError in the summary ends it after the header. */
  method CreateReport(issues: seq<Record>, generated: string, store: string)
    returns (doc: ReportDocument, raised: Option<string>)
    ensures fresh(doc)
    ensures doc.body == ReportText(issues, generated, store)
    ensures raised == (if Summary(issues).Failure? then Some(Summary(issues).error) else None)
  {
    doc := new ReportDocument();
    var header := HeaderText(generated, store, |issues|);
    doc.BuildHeader(generated, store, issues);
    assert doc.body == header;
    raised := doc.BuildSummary(issues);
    if raised.None? {
      ghost var summary := Summary(issues).value;
      doc.AddIssuesWithScreenshots(issues);
      Assoc(header, summary, IssuesText(issues));
    } else {
      assert doc.body == header + "";
    }
  }
}
