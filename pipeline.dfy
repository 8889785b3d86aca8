/**
 * The hand-over between the two scripts: `run_tests` dumps `self.issues` to
 * `qa-report.json` and `create_google_doc.py` loads that list back. The
 * lemmas here say that a list produced by the QA run never trips the
 * report's KeyError and that the report counts what the run tallied.
 */
module Pipeline {
  import opened Wrappers
  import opened Journal
  import opened Funnel
  import opened ShopifyQA
  import opened Counting
  import opened Report

  /** The JSON object `json.dump` writes for one issue, as `json.load` reads
      it back; a screenshot of None is left out (it is only read by the
      screenshot upload). */
  function ToRecord(i: Issue): Record {
    map["url" := i.url, "device" := i.device, "severity" := SeverityName(i.severity),
        "category" := i.category, "issue" := i.description, "timestamp" := i.timestamp]
    + (if i.screenshot.Some? then map["screenshot" := i.screenshot.value] else map[])
  }

  function Records(issues: seq<Issue>): (rs: seq<Record>)
    ensures |rs| == |issues|
  {
    if issues == [] then [] else Records(issues[..|issues| - 1]) + [ToRecord(issues[|issues| - 1])]
  }

  predicate OnKnownDevices(issues: seq<Issue>) {
    forall k :: 0 <= k < |issues| ==> issues[k].device == "desktop" || issues[k].device == "mobile"
  }

  lemma {:induction false} RecordsAccepted(issues: seq<Issue>)
    requires OnKnownDevices(issues)
    ensures forall k :: 0 <= k < |issues| ==> Accepted(Records(issues)[k])
    decreases |issues|
  {
    if issues != [] {
      var n := |issues| - 1;
      RecordsAccepted(issues[..n]);
      forall k | 0 <= k < |issues|
        ensures Accepted(Records(issues)[k])
      {
        if k < n {
          assert Records(issues)[k] == Records(issues[..n])[k];
        }
      }
    }
  }

  /** Each severity shows up in the report's severity column as often as the
      run logged it. */
  lemma {:induction false} SeverityColumnOccurs(issues: seq<Issue>, s: Severity)
    ensures Occurs(SeverityColumn(Records(issues)), SeverityName(s)) == Occurrences(issues, s)
    decreases |issues|
  {
    if issues != [] {
      var n := |issues| - 1;
      var rs := Records(issues);
      SeverityColumnOccurs(issues[..n], s);
      assert rs[..n] == Records(issues[..n]);
      ColumnSnoc(rs, n, "severity", "low");
      assert rs[..n + 1] == rs;
      var col := SeverityColumn(rs);
      assert col[..n] == SeverityColumn(rs[..n]);
      assert (SeverityName(issues[n].severity) == SeverityName(s)) == (issues[n].severity == s);
    }
  }

  /** The summary of a list the QA run wrote does not raise. */
  lemma ReportAccepts(issues: seq<Issue>)
    requires OnKnownDevices(issues)
    ensures Statistics(Records(issues)).Success?
  {
    RecordsAccepted(issues);
    StatisticsFailure(Records(issues));
  }

  /** Every severity the run logs is one of the report's four levels. */
  lemma SeverityNameLevel(s: Severity)
    ensures SeverityName(s) in SeverityLevels
  {
    match s
    case Critical => assert SeverityLevels[0] == "critical";
    case High => assert SeverityLevels[1] == "high";
    case Medium => assert SeverityLevels[2] == "medium";
    case Low => assert SeverityLevels[3] == "low";
  }

  /** The report's severity counts of a list the QA run wrote are the run's
      own tally (create_google_doc.py:106 against shopify_qa.py:549-552). */
  lemma ReportSeverities(issues: seq<Issue>)
    requires OnKnownDevices(issues)
    ensures Statistics(Records(issues)).Success?
    ensures forall s :: Statistics(Records(issues)).value.severityCounts[SeverityName(s)] == Occurrences(issues, s)
  {
    var rs := Records(issues);
    ReportAccepts(issues);
    SeverityCounts(rs);
    var m := Statistics(rs).value.severityCounts;
    forall s
      ensures SeverityName(s) in m && m[SeverityName(s)] == Occurrences(issues, s)
    {
      SeverityNameLevel(s);
      SeverityColumnOccurs(issues, s);
    }
  }

  /** The attention count of the report is the number of critical and high
      issues the run logged. */
  lemma ReportUrgent(issues: seq<Issue>)
    ensures |CriticalIssues(Records(issues))| == Occurrences(issues, Critical) + Occurrences(issues, High)
  {
    CriticalIssuesFacts(Records(issues));
    SeverityColumnOccurs(issues, Critical);
    SeverityColumnOccurs(issues, High);
  }

  /** Every issue of a whole run of `run_tests`, from a fresh object, is on
      one of the two devices, so `ReportAccepts` and `ReportSeverities` apply
      to the list the run writes. */
  lemma CampaignDevices(t: Trail, urls: seq<string>, world: (nat, string) -> Observation, env: Env)
    requires t.issues == []
    ensures OnKnownDevices(Campaign(t, urls, world, env).issues)
  {
    CampaignEffect(t, urls, world, env);
  }
}
