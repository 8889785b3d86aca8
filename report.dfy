/**
 * The bookkeeping of `create_google_doc.py` over the issue records it reads
 * back from `qa-report.json`: the three count dicts of `_build_summary`, the
 * critical/high filter, the top-five categories and the grouping of issues
 * by page of `_add_issues_with_screenshots`.
 */
module Report {
  import opened Wrappers
  import opened Counting
  import opened Ranking

  /** One issue as read back from the JSON report: an object with string values. */
  type Record = map<string, string>

  /** `issue.get(key, default)`. */
  function Get(r: Record, key: string, default: string): string {
    if key in r then r[key] else default
  }

  /** The value each record holds under `key`, with `default` where it is missing. */
  function Column(issues: seq<Record>, key: string, default: string): (col: seq<string>)
    ensures |col| == |issues|
  {
    if issues == [] then []
    else Column(issues[..|issues| - 1], key, default) + [Get(issues[|issues| - 1], key, default)]
  }

  lemma {:induction false} ColumnAt(issues: seq<Record>, key: string, default: string)
    ensures forall i :: 0 <= i < |issues| ==> Column(issues, key, default)[i] == Get(issues[i], key, default)
    decreases |issues|
  {
    if issues != [] {
      var n := |issues| - 1;
      ColumnAt(issues[..n], key, default);
      forall i | 0 <= i < n
        ensures Column(issues, key, default)[i] == Get(issues[i], key, default)
      {
        assert issues[..n][i] == issues[i];
      }
    }
  }

  lemma ColumnSnoc(issues: seq<Record>, i: nat, key: string, default: string)
    requires i < |issues|
    ensures Column(issues[..i + 1], key, default) == Column(issues[..i], key, default) + [Get(issues[i], key, default)]
  {
    assert issues[..i + 1][..i] == issues[..i];
  }

  // The defaults of create_google_doc.py:106-109 and 160.
  function SeverityColumn(issues: seq<Record>): seq<string> { Column(issues, "severity", "low") }
  function CategoryColumn(issues: seq<Record>): seq<string> { Column(issues, "category", "Unknown") }
  function DeviceColumn(issues: seq<Record>): seq<string> { Column(issues, "device", "desktop") }
  function PageColumn(issues: seq<Record>): seq<string> { Column(issues, "url", "Unknown Page") }

  /** The keys the two fixed count dicts start with (create_google_doc.py:101, 103). */
  const SeverityLevels: seq<string> := ["critical", "high", "medium", "low"]
  const Devices: seq<string> := ["desktop", "mobile"]

  /** A fixed-key count dict after counting the column. */
  function CountsOver(col: seq<string>, keys: seq<string>): map<string, nat> {
    map k | k in keys :: Occurs(col, k)
  }

  /** The three dicts of `_build_summary`; the category dict keeps insertion order. */
  datatype Stats = Stats(
    severityCounts: map<string, nat>,
    categoryCounts: seq<Entry>,
    deviceCounts: map<string, nat>)

  /** The key whose `+= 1` raises KeyError for this record, if any: the
      severity is looked up before the device. */
  function Rejected(r: Record): Option<string> {
    var severity := Get(r, "severity", "low");
    var device := Get(r, "device", "desktop");
    if severity !in SeverityLevels then Some(severity)
    else if device !in Devices then Some(device)
    else None
  }

  /** The KeyError of the counting loop: that of the first rejected record. */
  function FirstRejection(issues: seq<Record>): Option<string> {
    if issues == [] then None
    else if Rejected(issues[0]).Some? then Rejected(issues[0])
    else FirstRejection(issues[1..])
  }

  /** What the counting loop of create_google_doc.py:100-109 produces, or the
      key of the KeyError that ends it. */
  function Statistics(issues: seq<Record>): Result<Stats, string> {
    match FirstRejection(issues)
    case Some(key) => Failure(key)
    case None =>
      Success(Stats(
        CountsOver(SeverityColumn(issues), SeverityLevels),
        Tallied(CategoryColumn(issues)),
        CountsOver(DeviceColumn(issues), Devices)))
  }

  /** `m` is a fixed-key count dict over `keys` holding the counts of `col`. */
  ghost predicate CountsOf(m: map<string, nat>, col: seq<string>, keys: seq<string>) {
    && (forall k :: k in m <==> k in keys)
    && (forall k :: k in m ==> m[k] == Occurs(col, k))
  }

  lemma CountsOfIs(m: map<string, nat>, col: seq<string>, keys: seq<string>)
    requires CountsOf(m, col, keys)
    ensures m == CountsOver(col, keys)
  {
  }

  lemma RejectionStep(issues: seq<Record>, i: nat)
    requires i < |issues|
    ensures FirstRejection(issues[i..]) ==
      if Rejected(issues[i]).Some? then Rejected(issues[i]) else FirstRejection(issues[i + 1..])
  {
    assert issues[i..][1..] == issues[i + 1..];
  }

  /** One record adds one to the count of its value in a fixed-key dict. */
  lemma CountsOfStep(m: map<string, nat>, issues: seq<Record>, i: nat, key: string, default: string, keys: seq<string>)
    requires i < |issues| && CountsOf(m, Column(issues[..i], key, default), keys)
    requires Get(issues[i], key, default) in m
    ensures var x := Get(issues[i], key, default);
      CountsOf(m[x := m[x] + 1], Column(issues[..i + 1], key, default), keys)
  {
    ColumnSnoc(issues, i, key, default);
    var col := Column(issues[..i], key, default);
    var x := Get(issues[i], key, default);
    assert (col + [x])[..|col|] == col;
  }

  /** One record bumps its category in the insertion-ordered dict. */
  lemma TalliedStep(issues: seq<Record>, i: nat)
    requires i < |issues|
    ensures Tallied(CategoryColumn(issues[..i + 1])) ==
      Bump(Tallied(CategoryColumn(issues[..i])), Get(issues[i], "category", "Unknown"))
  {
    ColumnSnoc(issues, i, "category", "Unknown");
    assert CategoryColumn(issues[..i + 1])[..i] == CategoryColumn(issues[..i]);
  }

  /** The state of the counting loop after the first `i` records. */
  ghost predicate Counted(issues: seq<Record>, i: nat,
                          severityCounts: map<string, nat>, categoryCounts: seq<Entry>, deviceCounts: map<string, nat>) {
    && i <= |issues|
    && FirstRejection(issues[i..]) == FirstRejection(issues)
    && CountsOf(severityCounts, SeverityColumn(issues[..i]), SeverityLevels)
    && categoryCounts == Tallied(CategoryColumn(issues[..i]))
    && CountsOf(deviceCounts, DeviceColumn(issues[..i]), Devices)
  }

  /** One accepted record moves all three dicts on. */
  lemma SummaryStep(issues: seq<Record>, i: nat,
                    severityCounts: map<string, nat>, categoryCounts: seq<Entry>, deviceCounts: map<string, nat>)
    requires Counted(issues, i, severityCounts, categoryCounts, deviceCounts) && i < |issues|
    requires Get(issues[i], "severity", "low") in severityCounts
    requires Get(issues[i], "device", "desktop") in deviceCounts
    ensures var severity := Get(issues[i], "severity", "low");
      var device := Get(issues[i], "device", "desktop");
      Counted(issues, i + 1,
              severityCounts[severity := severityCounts[severity] + 1],
              Bump(categoryCounts, Get(issues[i], "category", "Unknown")),
              deviceCounts[device := deviceCounts[device] + 1])
  {
    CountsOfStep(severityCounts, issues, i, "severity", "low", SeverityLevels);
    TalliedStep(issues, i);
    CountsOfStep(deviceCounts, issues, i, "device", "desktop", Devices);
    RejectionStep(issues, i);
  }

  lemma RejectedAt(issues: seq<Record>, i: nat)
    requires i < |issues| && FirstRejection(issues[i..]) == FirstRejection(issues)
    requires Rejected(issues[i]).Some?
    ensures Statistics(issues) == Failure(Rejected(issues[i]).value)
  {
    RejectionStep(issues, i);
  }

  /** A severity missing from the severity dict is the KeyError of the loop. */
  lemma SeverityRejected(issues: seq<Record>, i: nat,
                         severityCounts: map<string, nat>, categoryCounts: seq<Entry>, deviceCounts: map<string, nat>)
    requires Counted(issues, i, severityCounts, categoryCounts, deviceCounts) && i < |issues|
    requires Get(issues[i], "severity", "low") !in severityCounts
    ensures Statistics(issues) == Failure(Get(issues[i], "severity", "low"))
  {
    RejectedAt(issues, i);
  }

  /** A device missing from the device dict, after an accepted severity, is
      the KeyError of the loop. */
  lemma DeviceRejected(issues: seq<Record>, i: nat,
                       severityCounts: map<string, nat>, categoryCounts: seq<Entry>, deviceCounts: map<string, nat>)
    requires Counted(issues, i, severityCounts, categoryCounts, deviceCounts) && i < |issues|
    requires Get(issues[i], "severity", "low") in severityCounts
    requires Get(issues[i], "device", "desktop") !in deviceCounts
    ensures Statistics(issues) == Failure(Get(issues[i], "device", "desktop"))
  {
    RejectedAt(issues, i);
  }

  /** The dicts the loop starts with count the empty prefix. */
  lemma SummaryStart(issues: seq<Record>)
    ensures Counted(issues, 0, map["critical" := 0, "high" := 0, "medium" := 0, "low" := 0], [],
                    map["desktop" := 0, "mobile" := 0])
  {
    assert issues[..0] == [];
    assert issues[0..] == issues;
  }

  lemma WholePrefix(issues: seq<Record>)
    ensures issues[..|issues|] == issues && issues[|issues|..] == []
  {
  }

  /** Dicts that count every record are those of `Statistics`. */
  lemma StatisticsOf(issues: seq<Record>, severityCounts: map<string, nat>, categoryCounts: seq<Entry>, deviceCounts: map<string, nat>)
    requires FirstRejection(issues) == None
    requires CountsOf(severityCounts, SeverityColumn(issues), SeverityLevels)
    requires categoryCounts == Tallied(CategoryColumn(issues))
    requires CountsOf(deviceCounts, DeviceColumn(issues), Devices)
    ensures Statistics(issues) == Success(Stats(severityCounts, categoryCounts, deviceCounts))
  {
    CountsOfIs(severityCounts, SeverityColumn(issues), SeverityLevels);
    CountsOfIs(deviceCounts, DeviceColumn(issues), Devices);
  }

  /** The dicts the loop ends with are those of `Statistics`. */
  lemma SummaryEnd(issues: seq<Record>, severityCounts: map<string, nat>, categoryCounts: seq<Entry>, deviceCounts: map<string, nat>)
    requires Counted(issues, |issues|, severityCounts, categoryCounts, deviceCounts)
    ensures Statistics(issues) == Success(Stats(severityCounts, categoryCounts, deviceCounts))
  {
    WholePrefix(issues);
    StatisticsOf(issues, severityCounts, categoryCounts, deviceCounts);
  }

  /** The counting loop: one pass over the records, each adding one to its
      severity, category and device. */
  method Summarise(issues: seq<Record>) returns (result: Result<Stats, string>)
    ensures result == Statistics(issues)
  {
    var severityCounts: map<string, nat> := map["critical" := 0, "high" := 0, "medium" := 0, "low" := 0];
    var categoryCounts: seq<Entry> := [];
    var deviceCounts: map<string, nat> := map["desktop" := 0, "mobile" := 0];
    SummaryStart(issues);
    for i := 0 to |issues|
      invariant Counted(issues, i, severityCounts, categoryCounts, deviceCounts)
    {
      var issue := issues[i];
      var severity := Get(issue, "severity", "low");
      if severity !in severityCounts {
        SeverityRejected(issues, i, severityCounts, categoryCounts, deviceCounts);
        return Failure(severity);
      }
      ghost var severityBefore, categoryBefore := severityCounts, categoryCounts;
      severityCounts := severityCounts[severity := severityCounts[severity] + 1];
      var category := Get(issue, "category", "Unknown");
      categoryCounts := Bump(categoryCounts, category);
      var device := Get(issue, "device", "desktop");
      if device !in deviceCounts {
        DeviceRejected(issues, i, severityBefore, categoryBefore, deviceCounts);
        return Failure(device);
      }
      SummaryStep(issues, i, severityBefore, categoryBefore, deviceCounts);
      deviceCounts := deviceCounts[device := deviceCounts[device] + 1];
    }
    SummaryEnd(issues, severityCounts, categoryCounts, deviceCounts);
    return Success(Stats(severityCounts, categoryCounts, deviceCounts));
  }

  predicate Accepted(r: Record) {
    Rejected(r).None?
  }

  lemma {:induction false} FirstRejectionFacts(issues: seq<Record>)
    ensures FirstRejection(issues).None? <==> forall i :: 0 <= i < |issues| ==> Accepted(issues[i])
    ensures FirstRejection(issues).Some? ==>
      exists i ::
        && 0 <= i < |issues|
        && Rejected(issues[i]) == FirstRejection(issues)
        && forall j :: 0 <= j < i ==> Accepted(issues[j])
    decreases |issues|
  {
    if issues != [] {
      FirstRejectionFacts(issues[1..]);
      if Accepted(issues[0]) {
        if FirstRejection(issues[1..]).Some? {
          var i :| 0 <= i < |issues[1..]|
            && Rejected(issues[1..][i]) == FirstRejection(issues[1..])
            && forall j :: 0 <= j < i ==> Accepted(issues[1..][j]);
          assert forall j :: 0 <= j < i + 1 ==> Accepted(issues[j]) by {
            forall j | 0 <= j < i + 1
              ensures Accepted(issues[j])
            {
              if j > 0 {
                assert issues[j] == issues[1..][j - 1];
              }
            }
          }
          assert Rejected(issues[i + 1]) == FirstRejection(issues);
        } else {
          forall i | 0 <= i < |issues|
            ensures Accepted(issues[i])
          {
            if i > 0 {
              assert issues[i] == issues[1..][i - 1];
            }
          }
        }
      }
    }
  }

  /** The summary fails exactly when some record has a severity outside the
      four levels or a device outside the two devices, and the key it reports
      is that of the first such record, severity before device. */
  lemma StatisticsFailure(issues: seq<Record>)
    ensures Statistics(issues).Success? <==> forall i :: 0 <= i < |issues| ==> Accepted(issues[i])
    ensures Statistics(issues).Failure? ==>
      exists i ::
        && 0 <= i < |issues|
        && Rejected(issues[i]) == Some(Statistics(issues).error)
        && forall j :: 0 <= j < i ==> Accepted(issues[j])
  {
    FirstRejectionFacts(issues);
  }

  lemma KeysDistinct()
    ensures NoRepeats(SeverityLevels) && NoRepeats(Devices)
  {
  }

  lemma SumOverFour(col: seq<string>, a: string, b: string, c: string, d: string)
    ensures SumOver(col, [a, b, c, d]) == Occurs(col, a) + Occurs(col, b) + Occurs(col, c) + Occurs(col, d)
  {
    assert [a, b, c, d][..3] == [a, b, c];
    assert [a, b, c][..2] == [a, b];
    assert [a, b][..1] == [a];
    assert [a][..0] == [];
    assert SumOver(col, [a]) == Occurs(col, a);
    assert SumOver(col, [a, b]) == Occurs(col, a) + Occurs(col, b);
    assert SumOver(col, [a, b, c]) == Occurs(col, a) + Occurs(col, b) + Occurs(col, c);
  }

  lemma SumOverTwo(col: seq<string>, a: string, b: string)
    ensures SumOver(col, [a, b]) == Occurs(col, a) + Occurs(col, b)
  {
    assert [a, b][..1] == [a];
    assert [a][..0] == [];
    assert SumOver(col, [a]) == Occurs(col, a);
  }

  lemma SeveritySum(col: seq<string>)
    requires forall i :: 0 <= i < |col| ==> col[i] in SeverityLevels
    ensures Occurs(col, "critical") + Occurs(col, "high") + Occurs(col, "medium") + Occurs(col, "low") == |col|
  {
    KeysDistinct();
    SumOverAll(col, SeverityLevels);
    SumOverFour(col, "critical", "high", "medium", "low");
  }

  lemma DeviceSum(col: seq<string>)
    requires forall i :: 0 <= i < |col| ==> col[i] in Devices
    ensures Occurs(col, "desktop") + Occurs(col, "mobile") == |col|
  {
    KeysDistinct();
    SumOverAll(col, Devices);
    SumOverTwo(col, "desktop", "mobile");
  }

  /** When the summary succeeds, the severity dict counts each level, a
      missing severity as "low", and its four counts add up to the number of
      issues. */
  lemma SeverityCounts(issues: seq<Record>)
    requires Statistics(issues).Success?
    ensures var m := Statistics(issues).value.severityCounts;
      && (forall k :: k in m <==> k in SeverityLevels)
      && (forall k :: k in m ==> m[k] == Occurs(SeverityColumn(issues), k))
      && m["critical"] + m["high"] + m["medium"] + m["low"] == |issues|
  {
    StatisticsFailure(issues);
    AcceptedColumns(issues);
    var col := SeverityColumn(issues);
    assert Statistics(issues).value.severityCounts == CountsOver(col, SeverityLevels);
    SeveritySum(col);
  }

  /** When the summary succeeds, the device dict counts both devices, a
      missing device as "desktop", and its two counts add up to the number of
      issues. */
  lemma DeviceCounts(issues: seq<Record>)
    requires Statistics(issues).Success?
    ensures var m := Statistics(issues).value.deviceCounts;
      && (forall k :: k in m <==> k in Devices)
      && (forall k :: k in m ==> m[k] == Occurs(DeviceColumn(issues), k))
      && m["desktop"] + m["mobile"] == |issues|
  {
    StatisticsFailure(issues);
    AcceptedColumns(issues);
    var col := DeviceColumn(issues);
    assert Statistics(issues).value.deviceCounts == CountsOver(col, Devices);
    DeviceSum(col);
  }

  /** When the summary succeeds, the category dict has the categories as its
      keys in first-occurrence order, a missing category as "Unknown", each
      with its count, and the counts add up to the number of issues. */
  lemma CategoryCounts(issues: seq<Record>)
    requires Statistics(issues).Success?
    ensures var counts := Statistics(issues).value.categoryCounts;
      && Keys(counts) == Distinct(CategoryColumn(issues))
      && (forall j :: 0 <= j < |counts| ==> counts[j].1 == Occurs(CategoryColumn(issues), counts[j].0))
      && Total(counts) == |issues|
  {
    assert Statistics(issues).value.categoryCounts == Tallied(CategoryColumn(issues));
    TalliedFacts(CategoryColumn(issues));
  }

  lemma AcceptedColumns(issues: seq<Record>)
    requires forall i :: 0 <= i < |issues| ==> Accepted(issues[i])
    ensures forall i :: 0 <= i < |issues| ==> SeverityColumn(issues)[i] in SeverityLevels
    ensures forall i :: 0 <= i < |issues| ==> DeviceColumn(issues)[i] in Devices
  {
    ColumnAt(issues, "severity", "low");
    ColumnAt(issues, "device", "desktop");
  }

  // ---------------------------------------------------------------------------
  // The attention count (create_google_doc.py:138): `issue.get('severity')`
  // has no default here, so a record without a severity is not urgent.

  predicate Urgent(r: Record) {
    "severity" in r && (r["severity"] == "critical" || r["severity"] == "high")
  }

  /** `[i for i in issues if i.get('severity') in ['critical', 'high']]`. */
  function CriticalIssues(issues: seq<Record>): seq<Record> {
    if issues == [] then []
    else
      var last := issues[|issues| - 1];
      CriticalIssues(issues[..|issues| - 1]) + (if Urgent(last) then [last] else [])
  }

  /** Everything the filter keeps is a critical or high issue of the list. */
  lemma {:induction false} CriticalSound(issues: seq<Record>)
    ensures forall r :: r in CriticalIssues(issues) ==> Urgent(r) && r in issues
    decreases |issues|
  {
    if issues != [] {
      var n := |issues| - 1;
      var init := issues[..n];
      CriticalSound(init);
      forall r | r in CriticalIssues(issues)
        ensures Urgent(r) && r in issues
      {
        if r in CriticalIssues(init) {
          var k :| 0 <= k < |init| && init[k] == r;
          assert issues[k] == r;
        } else {
          assert r == issues[n];
        }
      }
    }
  }

  /** Every critical or high issue of the list is kept. */
  lemma {:induction false} CriticalComplete(issues: seq<Record>)
    ensures forall i :: 0 <= i < |issues| && Urgent(issues[i]) ==> issues[i] in CriticalIssues(issues)
    decreases |issues|
  {
    if issues != [] {
      var n := |issues| - 1;
      var init := issues[..n];
      CriticalComplete(init);
      forall i | 0 <= i < |issues| && Urgent(issues[i])
        ensures issues[i] in CriticalIssues(issues)
      {
        if i < n {
          assert issues[i] == init[i];
        }
      }
    }
  }

  /** One more record adds one to the number kept exactly when it is a
      critical or high issue. */
  lemma UrgentStep(col: seq<string>, r: Record)
    ensures Occurs(col + [Get(r, "severity", "low")], "critical") + Occurs(col + [Get(r, "severity", "low")], "high")
      == Occurs(col, "critical") + Occurs(col, "high") + (if Urgent(r) then 1 else 0)
  {
    var x := Get(r, "severity", "low");
    OccursSnoc(col, x, "critical");
    OccursSnoc(col, x, "high");
  }

  /** The filter keeps as many issues as the severity column holds critical
      and high entries. */
  lemma {:induction false} CriticalCount(issues: seq<Record>)
    ensures |CriticalIssues(issues)| == Occurs(SeverityColumn(issues), "critical") + Occurs(SeverityColumn(issues), "high")
    decreases |issues|
  {
    if issues != [] {
      var n := |issues| - 1;
      CriticalCount(issues[..n]);
      ColumnSnoc(issues, n, "severity", "low");
      assert issues[..n + 1] == issues;
      UrgentStep(SeverityColumn(issues[..n]), issues[n]);
    }
  }

  /** The filter keeps exactly the critical and high issues, and there are as
      many as the summary's critical and high counts show. */
  lemma CriticalIssuesFacts(issues: seq<Record>)
    ensures forall r :: r in CriticalIssues(issues) ==> Urgent(r) && r in issues
    ensures forall i :: 0 <= i < |issues| && Urgent(issues[i]) ==> issues[i] in CriticalIssues(issues)
    ensures |CriticalIssues(issues)| == Occurs(SeverityColumn(issues), "critical") + Occurs(SeverityColumn(issues), "high")
  {
    CriticalSound(issues);
    CriticalComplete(issues);
    CriticalCount(issues);
  }

  // ---------------------------------------------------------------------------
  // Top categories (create_google_doc.py:132-133).

  /** The category entries the summary lists. */
  function TopCategories(s: Stats): seq<Entry> {
    Top(s.categoryCounts)
  }

  /** At most five categories are listed, with their true counts, largest
      first; none left out has a larger count than one listed; and entries
      with equal counts stay in the order of the category dict. */
  lemma TopCategoriesFacts(issues: seq<Record>)
    requires Statistics(issues).Success?
    ensures var counts := Statistics(issues).value.categoryCounts;
      var top := TopCategories(Statistics(issues).value);
      && |top| == (if |Distinct(CategoryColumn(issues))| <= 5 then |Distinct(CategoryColumn(issues))| else 5)
      && SortedDesc(top)
      && (forall e :: e in top ==> e.0 in CategoryColumn(issues) && e.1 == Occurs(CategoryColumn(issues), e.0))
      && (forall i, j :: 0 <= i < |top| <= j < |SortByCount(counts)| ==> SortByCount(counts)[j].1 <= top[i].1)
      && (forall c :: WithCount(SortByCount(counts), c) == WithCount(counts, c))
  {
    CategoryEntries(issues);
    TopOfCounts(Statistics(issues).value.categoryCounts, CategoryColumn(issues));
  }

  /** The listing of any list of true counts of a column. */
  lemma TopOfCounts(counts: seq<Entry>, col: seq<string>)
    requires forall e :: e in counts ==> e.0 in col && e.1 == Occurs(col, e.0)
    ensures var top := Top(counts);
      && |top| == (if |counts| <= 5 then |counts| else 5)
      && SortedDesc(top)
      && (forall e :: e in top ==> e.0 in col && e.1 == Occurs(col, e.0))
      && (forall i, j :: 0 <= i < |top| <= j < |SortByCount(counts)| ==> SortByCount(counts)[j].1 <= top[i].1)
      && (forall c :: WithCount(SortByCount(counts), c) == WithCount(counts, c))
  {
    var top := Top(counts);
    TopFacts(counts);
    SortFacts(counts);
    forall e | e in top
      ensures e.0 in col && e.1 == Occurs(col, e.0)
    {
      assert e in multiset(top);
      assert e in multiset(counts);
    }
  }

  /** The category dict holds each category once, with its count, in the
      order the categories first appear. */
  lemma CategoryEntries(issues: seq<Record>)
    requires Statistics(issues).Success?
    ensures var counts := Statistics(issues).value.categoryCounts;
      && |counts| == |Distinct(CategoryColumn(issues))|
      && (forall e :: e in counts ==> e.0 in CategoryColumn(issues) && e.1 == Occurs(CategoryColumn(issues), e.0))
      && (forall i, j :: 0 <= i < j < |counts| ==> counts[i].0 != counts[j].0)
      && (forall i, j :: 0 <= i < j < |counts| && counts[i].0 in CategoryColumn(issues) && counts[j].0 in CategoryColumn(issues) ==>
            FirstIndex(CategoryColumn(issues), counts[i].0) < FirstIndex(CategoryColumn(issues), counts[j].0))
  {
    var col := CategoryColumn(issues);
    var counts := Statistics(issues).value.categoryCounts;
    CategoryCounts(issues);
    DistinctFacts(col);
    var keys := Keys(counts);
    assert keys == Distinct(col);
    forall e | e in counts
      ensures e.0 in col && e.1 == Occurs(col, e.0)
    {
      var j :| 0 <= j < |counts| && counts[j] == e;
      assert keys[j] == e.0;
    }
    forall i, j | 0 <= i < j < |counts|
      ensures counts[i].0 != counts[j].0
      ensures FirstIndex(col, counts[i].0) < FirstIndex(col, counts[j].0)
    {
      assert keys[i] == counts[i].0 && keys[j] == counts[j].0;
    }
  }

  // ---------------------------------------------------------------------------
  // Grouping by page (create_google_doc.py:158-163).

  /** The records whose page is `u`, in their original order. */
  function OnPage(issues: seq<Record>, u: string): seq<Record> {
    if issues == [] then []
    else
      var last := issues[|issues| - 1];
      OnPage(issues[..|issues| - 1], u) + (if Get(last, "url", "Unknown Page") == u then [last] else [])
  }

  lemma OnPageSnoc(issues: seq<Record>, i: nat, u: string)
    requires i < |issues|
    ensures OnPage(issues[..i + 1], u) ==
      OnPage(issues[..i], u) + (if Get(issues[i], "url", "Unknown Page") == u then [issues[i]] else [])
  {
    assert issues[..i + 1][..i] == issues[..i];
  }

  /** The `issues_by_page` loop: a dict of lists, keyed by page in the order
      the pages first appear. */
  method GroupByPage(issues: seq<Record>) returns (pages: seq<string>, groups: map<string, seq<Record>>)
    ensures pages == Distinct(PageColumn(issues))
    ensures forall u :: u in groups <==> u in pages
    ensures forall u :: u in groups ==> groups[u] == OnPage(issues, u)
  {
    pages, groups := [], map[];
    assert issues[..0] == [];
    for i := 0 to |issues|
      invariant pages == Distinct(PageColumn(issues[..i]))
      invariant forall u :: u in groups <==> u in pages
      invariant forall u :: u in groups ==> groups[u] == OnPage(issues[..i], u)
    {
      var url := Get(issues[i], "url", "Unknown Page");
      ColumnSnoc(issues, i, "url", "Unknown Page");
      assert PageColumn(issues[..i + 1])[..i] == PageColumn(issues[..i]);
      if url !in groups {
        OnPageAbsent(issues[..i], url);
        groups := groups[url := []];
        pages := pages + [url];
      }
      groups := groups[url := groups[url] + [issues[i]]];
      forall u | u in groups
        ensures groups[u] == OnPage(issues[..i + 1], u)
      {
        OnPageSnoc(issues, i, u);
      }
    }
    assert issues[..|issues|] == issues;
  }

  lemma {:induction false} OnPageAbsent(issues: seq<Record>, u: string)
    requires u !in Distinct(PageColumn(issues))
    ensures OnPage(issues, u) == []
    decreases |issues|
  {
    if issues != [] {
      var n := |issues| - 1;
      ColumnSnoc(issues, n, "url", "Unknown Page");
      assert issues[..n + 1] == issues;
      assert PageColumn(issues)[..n] == PageColumn(issues[..n]);
      OnPageAbsent(issues[..n], u);
    }
  }

  lemma {:induction false} OnPageCount(issues: seq<Record>, u: string)
    ensures |OnPage(issues, u)| == Occurs(PageColumn(issues), u)
    ensures forall r :: r in OnPage(issues, u) ==> r in issues && Get(r, "url", "Unknown Page") == u
    decreases |issues|
  {
    if issues != [] {
      var n := |issues| - 1;
      OnPageCount(issues[..n], u);
      ColumnSnoc(issues, n, "url", "Unknown Page");
      assert issues[..n + 1] == issues;
      assert PageColumn(issues)[..n] == PageColumn(issues[..n]);
    }
  }

  /** The sizes of the groups of `pages`, added up. */
  function GroupSizes(issues: seq<Record>, pages: seq<string>): nat {
    if pages == [] then 0 else GroupSizes(issues, pages[..|pages| - 1]) + |OnPage(issues, pages[|pages| - 1])|
  }

  lemma {:induction false} GroupSizesOccurs(issues: seq<Record>, pages: seq<string>)
    ensures GroupSizes(issues, pages) == SumOver(PageColumn(issues), pages)
    decreases |pages|
  {
    if pages != [] {
      GroupSizesOccurs(issues, pages[..|pages| - 1]);
      OnPageCount(issues, pages[|pages| - 1]);
    }
  }

  /** The groups partition the issues: the pages are distinct, every issue's
      page is among them, each group holds only issues of its page, and the
      group sizes add up to the number of issues. */
  lemma GroupingFacts(issues: seq<Record>)
    ensures var pages := Distinct(PageColumn(issues));
      && NoRepeats(pages)
      && (forall i :: 0 <= i < |issues| ==> Get(issues[i], "url", "Unknown Page") in pages)
      && (forall u, r :: r in OnPage(issues, u) ==> r in issues && Get(r, "url", "Unknown Page") == u)
      && (forall u :: |OnPage(issues, u)| == Occurs(PageColumn(issues), u))
      && GroupSizes(issues, pages) == |issues|
  {
    var col := PageColumn(issues);
    var pages := Distinct(col);
    PagesCover(issues);
    forall u
      ensures |OnPage(issues, u)| == Occurs(col, u)
      ensures forall r :: r in OnPage(issues, u) ==> r in issues && Get(r, "url", "Unknown Page") == u
    {
      OnPageCount(issues, u);
    }
    GroupSizesOccurs(issues, pages);
    SumOverAll(col, pages);
  }

  lemma PagesCover(issues: seq<Record>)
    ensures var pages := Distinct(PageColumn(issues));
      && NoRepeats(pages)
      && (forall i :: 0 <= i < |PageColumn(issues)| ==> PageColumn(issues)[i] in pages)
      && (forall i :: 0 <= i < |issues| ==> Get(issues[i], "url", "Unknown Page") in pages)
  {
    var col := PageColumn(issues);
    DistinctFacts(col);
    ColumnAt(issues, "url", "Unknown Page");
    forall i | 0 <= i < |col|
      ensures col[i] in Distinct(col)
    {
      assert col[i] in col;
    }
  }
}
