/**
 * What one `test_url` session leaves behind: the screenshots it asks for and
 * the issues it logs, in order.
 *
 * A session is described by a trace of events. `Shot(step)` is one call of
 * `take_screenshot` (shopify_qa.py:474-494); `Report(...)` is one call of
 * `log_issue` (shopify_qa.py:496-498) with the severity, category and text that
 * the call site puts in the record. `Run` replays a trace on the state that
 * the session touches: the object's counter and issue list, and the local
 * `screenshot_path`, which every issue record copies.
 */
module Journal {
  import opened Wrappers
  import Text

  datatype Severity = Critical | High | Medium | Low

  /** The string stored under the record's 'severity' key. */
  function SeverityName(s: Severity): string {
    match s
    case Critical => "critical"
    case High => "high"
    case Medium => "medium"
    case Low => "low"
  }

  /** One record of the object's `issues` list (the dict literals of `test_url`). */
  datatype Issue = Issue(
    url: string,
    device: string,
    severity: Severity,
    category: string,
    description: string,
    screenshot: Option<string>,
    timestamp: string)

  datatype Event =
    | Shot(step: string)
    | Report(severity: Severity, category: string, description: string)

  /**
   * The clock and the camera. Each `take_screenshot` call is identified by the
   * counter value it produces and each logged issue by the position it takes
   * in the list, so any behaviour of `datetime.now()` and of
   * `page.screenshot()` is one choice of these three functions.
   */
  datatype Env = Env(
    shotStamp: nat -> string,
    shotSaved: nat -> bool,
    issueStamp: nat -> string)

  /** The `url` and `device` arguments of one `test_url` call. */
  datatype Context = Context(url: string, device: string, env: Env)

  const ScreenshotDir: string := "qa-screenshots"

  /** `f"{counter:03d}_{device}_{step_name}_{timestamp}.png"` (shopify_qa.py:483). */
  function ScreenshotName(counter: nat, device: string, step: string, stamp: string): string {
    Text.Pad3(counter) + "_" + device + "_" + step + "_" + stamp + ".png"
  }

  function ScreenshotPath(counter: nat, device: string, step: string, stamp: string): string {
    ScreenshotDir + "/" + ScreenshotName(counter, device, step, stamp)
  }

  /** What `take_screenshot` returns once the counter has reached `counter`:
      the file path, or `None` when the capture raised. */
  function ScreenshotRef(ctx: Context, counter: nat, step: string): Option<string> {
    if ctx.env.shotSaved(counter)
    then Some(ScreenshotPath(counter, ctx.device, step, ctx.env.shotStamp(counter)))
    else None
  }

  /** The counter, the issue list and the local `screenshot_path`. */
  datatype Trail = Trail(counter: nat, issues: seq<Issue>, last: Option<string>)

  /** The record a call site builds for `log_issue` in state `t`. */
  function Record(ctx: Context, t: Trail, severity: Severity, category: string, description: string): Issue {
    Issue(ctx.url, ctx.device, severity, category, description, t.last, ctx.env.issueStamp(|t.issues|))
  }

  function Step(ctx: Context, t: Trail, e: Event): Trail {
    match e
    case Shot(step) =>
      Trail(t.counter + 1, t.issues, ScreenshotRef(ctx, t.counter + 1, step))
    case Report(severity, category, description) =>
      Trail(t.counter, t.issues + [Record(ctx, t, severity, category, description)], t.last)
  }

  /** Replays the events in order. */
  function Run(ctx: Context, t: Trail, events: seq<Event>): Trail
    decreases |events|
  {
    if events == [] then t
    else Step(ctx, Run(ctx, t, events[..|events| - 1]), events[|events| - 1])
  }

  function ShotCount(events: seq<Event>): nat {
    if events == [] then 0
    else ShotCount(events[..|events| - 1]) + (if events[|events| - 1].Shot? then 1 else 0)
  }

  /** The `Report` events, in order. */
  function Reports(events: seq<Event>): (r: seq<Event>)
    ensures forall e :: e in r ==> e in events && e.Report?
  {
    if events == [] then []
    else
      var init := Reports(events[..|events| - 1]);
      var e := events[|events| - 1];
      if e.Report? then init + [e] else init
  }

  /** What a logged issue says, without its url, device, screenshot and time. */
  function Finding(i: Issue): Event {
    Report(i.severity, i.category, i.description)
  }

  /** Replaying one more event is one more step. */
  lemma RunSnoc(ctx: Context, t: Trail, events: seq<Event>, e: Event)
    ensures Run(ctx, t, events + [e]) == Step(ctx, Run(ctx, t, events), e)
  {
    assert (events + [e])[..|events|] == events;
  }

  lemma {:induction false} RunAppend(ctx: Context, t: Trail, a: seq<Event>, b: seq<Event>)
    ensures Run(ctx, t, a + b) == Run(ctx, Run(ctx, t, a), b)
    decreases |b|
  {
    if b == [] {
      assert a + b == a;
    } else {
      var b' := b[..|b| - 1];
      assert (a + b)[..|a + b| - 1] == a + b';
      RunAppend(ctx, t, a, b');
    }
  }

  lemma {:induction false} ShotCountAppend(a: seq<Event>, b: seq<Event>)
    ensures ShotCount(a + b) == ShotCount(a) + ShotCount(b)
    decreases |b|
  {
    if b == [] {
      assert a + b == a;
    } else {
      assert (a + b)[..|a + b| - 1] == a + b[..|b| - 1];
      ShotCountAppend(a, b[..|b| - 1]);
    }
  }

  lemma {:induction false} ReportsAppend(a: seq<Event>, b: seq<Event>)
    ensures Reports(a + b) == Reports(a) + Reports(b)
    decreases |b|
  {
    if b == [] {
      assert a + b == a;
    } else {
      assert (a + b)[..|a + b| - 1] == a + b[..|b| - 1];
      ReportsAppend(a, b[..|b| - 1]);
    }
  }

  /** A trace of `log_issue` calls only is its own list of reports. */
  lemma {:induction false} ReportsOfReports(events: seq<Event>)
    requires forall i :: 0 <= i < |events| ==> events[i].Report?
    ensures Reports(events) == events
    decreases |events|
  {
    if events != [] {
      var init := events[..|events| - 1];
      assert forall i :: 0 <= i < |init| ==> init[i] == events[i];
      ReportsOfReports(init);
      assert events == init + [events[|events| - 1]];
    }
  }

  /** A trace of screenshots only logs nothing. */
  lemma {:induction false} ReportsOfShots(events: seq<Event>)
    requires forall i :: 0 <= i < |events| ==> events[i].Shot?
    ensures Reports(events) == []
    decreases |events|
  {
    if events != [] {
      var init := events[..|events| - 1];
      assert forall i :: 0 <= i < |init| ==> init[i] == events[i];
      ReportsOfShots(init);
    }
  }

  /**
   * What replaying a trace does to the state: the counter grows by exactly
   * the number of `take_screenshot` calls, the issue list only grows at the
   * end, by one record per `log_issue` call, each record saying what its
   * call said and carrying the session's url and device.
   */
  lemma {:induction false} RunEffect(ctx: Context, t: Trail, events: seq<Event>)
    ensures Run(ctx, t, events).counter == t.counter + ShotCount(events)
    ensures |Run(ctx, t, events).issues| == |t.issues| + |Reports(events)|
    ensures Run(ctx, t, events).issues[..|t.issues|] == t.issues
    ensures forall k :: |t.issues| <= k < |Run(ctx, t, events).issues| ==>
      Run(ctx, t, events).issues[k].url == ctx.url && Run(ctx, t, events).issues[k].device == ctx.device
    ensures forall k :: 0 <= k < |Reports(events)| ==>
      Finding(Run(ctx, t, events).issues[|t.issues| + k]) == Reports(events)[k]
    decreases |events|
  {
    if events != [] {
      var init := events[..|events| - 1];
      RunEffect(ctx, t, init);
      var r := Run(ctx, t, init);
      assert r.issues[..|t.issues|] == t.issues;
      match events[|events| - 1]
      case Shot(_) =>
      case Report(_, _, _) =>
        assert (r.issues + [Record(ctx, r, events[|events| - 1].severity, events[|events| - 1].category,
          events[|events| - 1].description)])[..|t.issues|] == r.issues[..|t.issues|];
    }
  }

  /** The counter value a screenshot path starts with, read back from the path. */
  function CounterOf(path: string): nat {
    var prefix := ScreenshotDir + "/";
    if |path| < |prefix| then 0 else Text.DigitsValue(Text.LeadingDigits(path[|prefix|..]))
  }

  /** The `{counter:03d}` part of a path gives back its counter. */
  lemma CounterOfPath(c: nat, device: string, step: string, stamp: string)
    ensures CounterOf(ScreenshotPath(c, device, step, stamp)) == c
  {
    var prefix := ScreenshotDir + "/";
    var rest := "_" + device + "_" + step + "_" + stamp + ".png";
    var p := ScreenshotPath(c, device, step, stamp);
    assert p == prefix + (Text.Pad3(c) + rest);
    assert p[|prefix|..] == Text.Pad3(c) + rest;
    Text.LeadingDigitsOf(Text.Pad3(c), rest);
  }

  /** Two screenshots taken at different counter values never share a path,
      whatever the device, step names and timestamps. */
  lemma ScreenshotPathsDistinct(c1: nat, d1: string, s1: string, t1: string,
                                c2: nat, d2: string, s2: string, t2: string)
    requires c1 != c2
    ensures ScreenshotPath(c1, d1, s1, t1) != ScreenshotPath(c2, d2, s2, t2)
  {
    CounterOfPath(c1, d1, s1, t1);
    CounterOfPath(c2, d2, s2, t2);
  }
}
