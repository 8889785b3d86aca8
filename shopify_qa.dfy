/**
 * The `EnhancedShopifyQA` object (shopify_qa.py:15-565): a screenshot counter
 * and an issue list that every `test_url` session updates in place. Each step
 * of the session is a method proved to leave the object exactly as replaying
 * that step's trace (module Funnel) would.
 */
module ShopifyQA {
  import opened Wrappers
  import opened Page
  import opened Journal
  import opened Resolver
  import opened Funnel
  import Text

  class EnhancedShopifyQA {
    var issues: seq<Issue>
    var screenshotCounter: nat

    constructor()
      ensures issues == [] && screenshotCounter == 0
    {
      issues := [];
      screenshotCounter := 0;
    }

    /** The object's state together with a session's `screenshot_path`. */
    function Snapshot(last: Option<string>): Trail
      reads this
    {
      Trail(screenshotCounter, issues, last)
    }

    /** `take_screenshot`: the counter moves on even when the capture fails. */
    method TakeScreenshot(ctx: Context, step: string) returns (path: Option<string>)
      modifies this
      ensures screenshotCounter == old(screenshotCounter) + 1 && issues == old(issues)
      ensures path == ScreenshotRef(ctx, screenshotCounter, step)
      ensures path.Some? ==>
        path.value == ScreenshotPath(screenshotCounter, ctx.device, step, ctx.env.shotStamp(screenshotCounter))
    {
      screenshotCounter := screenshotCounter + 1;
      var stamp := ctx.env.shotStamp(screenshotCounter);
      if ctx.env.shotSaved(screenshotCounter) {
        path := Some(ScreenshotPath(screenshotCounter, ctx.device, step, stamp));
      } else {
        path := None;
      }
    }

    /** `log_issue`: appends the record, changing nothing else. */
    method LogIssue(issue: Issue)
      modifies this
      ensures issues == old(issues) + [issue] && screenshotCounter == old(screenshotCounter)
    {
      issues := issues + [issue];
    }

    /** `take_screenshot` as one `Shot` event of the trace. */
    method Shoot(ctx: Context, step: string, ghost start: Trail, ghost done: seq<Event>, last0: Option<string>)
      returns (last: Option<string>)
      requires Snapshot(last0) == Run(ctx, start, done)
      modifies this
      ensures Snapshot(last) == Run(ctx, start, done + [Shot(step)])
    {
      last := TakeScreenshot(ctx, step);
      RunSnoc(ctx, start, done, Shot(step));
      if done == [] {
        assert done + [Shot(step)] == [Shot(step)];
      }
    }

    /** `log_issue` of the record a call site builds, as one `Report` event. */
    method Log(ctx: Context, severity: Severity, category: string, description: string,
               ghost start: Trail, ghost done: seq<Event>, last: Option<string>)
      requires Snapshot(last) == Run(ctx, start, done)
      modifies this
      ensures Snapshot(last) == Run(ctx, start, done + [Report(severity, category, description)])
    {
      LogIssue(Record(ctx, Snapshot(last), severity, category, description));
      RunSnoc(ctx, start, done, Report(severity, category, description));
    }

    /** Step 1: load, screenshot, status and broken-image checks. */
    method LoadPage(ctx: Context, obs: Observation, last0: Option<string>) returns (last: Option<string>, ok: bool)
      modifies this
      ensures Snapshot(last) == Run(ctx, old(Snapshot(last0)), LoadEvents(obs).0)
      ensures ok == LoadEvents(obs).1
    {
      ghost var start := Snapshot(last0);
      last, ok := last0, false;
      match obs.navigation {
        case NavigationFails =>
        case NoResponse =>
          last := Shoot(ctx, "01_page_loaded", start, [], last);
        case Response(status) =>
          last := Shoot(ctx, "01_page_loaded", start, [], last);
          ghost var done: seq<Event> := [Shot("01_page_loaded")];
          if status != 200 {
            Log(ctx, High, HttpErrorCategory, "Page returned status " + Text.NatToString(status), start, done, last);
            done := done + [HttpIssue(status)];
          }
          match obs.brokenImages {
            case None =>
            case Some(n) =>
              if n > 0 {
                Log(ctx, High, BrokenImagesCategory, Text.NatToString(n) + " images failed to load", start, done, last);
                done := done + [BrokenImagesIssue(n)];
              }
              ok := true;
          }
      }
    }

    /** Hover, screenshot, click, screenshot, with nothing to catch a fault. */
    method RunUnguarded(ctx: Context, e: Element, before: string, after: string, last0: Option<string>)
      returns (last: Option<string>, ok: bool)
      modifies this
      ensures Snapshot(last) == Run(ctx, old(Snapshot(last0)), UnguardedBlock(e.faultAt, before, after).0)
      ensures ok == UnguardedBlock(e.faultAt, before, after).1
    {
      ghost var start := Snapshot(last0);
      last, ok := last0, false;
      if e.faultAt == AtProbe || e.faultAt == AtHover {
        return;
      }
      last := Shoot(ctx, before, start, [], last);
      if e.faultAt == AtClick {
        return;
      }
      last := Shoot(ctx, after, start, [Shot(before)], last);
      ok := true;
    }

    /** Step 2: the seat option. */
    method SelectSeats(ctx: Context, obs: Observation, last0: Option<string>) returns (last: Option<string>, ok: bool)
      modifies this
      ensures Snapshot(last) == Run(ctx, old(Snapshot(last0)), SeatEvents(obs).0)
      ensures ok == SeatEvents(obs).1
    {
      var chosen, _ := FindSeatOption(SeatSelectors, obs.seatPage);
      match chosen {
        case None =>
          Log(ctx, High, SeatMissingCategory, "Could not find \"Front & Rear Seats\" option",
              Snapshot(last0), [], last0);
          last, ok := last0, true;
        case Some(i) =>
          last, ok := RunUnguarded(ctx, Lookup(obs.seatPage, SeatSelectors[i]).element,
                                   "02_before_select_seats", "03_seats_selected", last0);
      }
    }

    /** Step 3: the colour-picker button. */
    method OpenColourPicker(ctx: Context, obs: Observation, last0: Option<string>)
      returns (last: Option<string>, ok: bool)
      modifies this
      ensures Snapshot(last) == Run(ctx, old(Snapshot(last0)), ButtonEvents(obs).0)
      ensures ok == ButtonEvents(obs).1
    {
      var held := FindColourButton(ColourButtonSelectors, obs.colourButtonPage);
      match held {
        case None =>
          last, ok := last0, true;
        case Some(j) =>
          last, ok := RunUnguarded(ctx, Lookup(obs.colourButtonPage, ColourButtonSelectors[j]).element,
                                   "04_before_color_select", "05_color_options_visible", last0);
      }
    }

    /** The loop of an acting stage: each candidate's block runs inside its
        own `try`, and the loop stops after the first block that completes. */
    method RunStage(ctx: Context, stage: Stage, page: PageState, last0: Option<string>)
      returns (chosen: Option<nat>, last: Option<string>)
      modifies this
      ensures chosen == FirstCompleted(stage, page, 0)
      ensures Snapshot(last) == Run(ctx, old(Snapshot(last0)), StageEvents(stage, page, 0))
    {
      chosen, last := None, last0;
      var i := 0;
      while i < |stage.candidates|
        invariant 0 <= i <= |stage.candidates|
        invariant FirstCompleted(stage, page, i) == FirstCompleted(stage, page, 0)
        invariant Run(ctx, Snapshot(last), StageEvents(stage, page, i))
               == Run(ctx, old(Snapshot(last0)), StageEvents(stage, page, 0))
        decreases |stage.candidates| - i
      {
        var answer := Lookup(page, stage.candidates[i]);
        ghost var attempt := Try(answer, stage.gate);
        if answer.Found? && Admits(stage.gate, answer.element)
           && answer.element.faultAt != AtProbe && answer.element.faultAt != AtHover {
          var e := answer.element;
          ghost var here := Snapshot(last);
          last := Shoot(ctx, stage.before, here, [], last);
          if e.faultAt == Never {
            last := Shoot(ctx, stage.after, here, [Shot(stage.before)], last);
            ghost var done := [Shot(stage.before), Shot(stage.after)];
            if stage.verifiesCheckout && !Text.Contains(Text.Lower(e.target), "checkout") {
              Log(ctx, High, CheckoutNavigationCategory, "Clicked checkout but URL is: " + e.target, here, done, last);
              done := done + [Report(High, CheckoutNavigationCategory, "Clicked checkout but URL is: " + e.target)];
            }
            assert done == Completion(stage, e);
            StageStep(stage, page, i);
            chosen := Some(i);
            return;
          }
          // the click raised: on to the next candidate
          assert attempt == Skipped(true);
          StageStep(stage, page, i);
          assert [] + [Shot(stage.before)] == [Shot(stage.before)];
          RunAppend(ctx, here, [Shot(stage.before)], StageEvents(stage, page, i + 1));
        } else {
          assert attempt == Skipped(false);
          StageStep(stage, page, i);
          assert [] + StageEvents(stage, page, i + 1) == StageEvents(stage, page, i + 1);
        }
        i := i + 1;
      }
    }

    /** Step 5: add to cart, and the issue when no candidate works. */
    method AddToCart(ctx: Context, obs: Observation, last0: Option<string>) returns (last: Option<string>, added: bool)
      modifies this
      ensures added == CartAdded(obs)
      ensures Snapshot(last) == Run(ctx, old(Snapshot(last0)), CartEvents(obs))
    {
      ghost var start := Snapshot(last0);
      var chosen;
      chosen, last := RunStage(ctx, CartStage, obs.cartPage, last0);
      added := chosen.Some?;
      if added {
        assert StageEvents(CartStage, obs.cartPage, 0) + [] == StageEvents(CartStage, obs.cartPage, 0);
      } else {
        Log(ctx, Critical, CartFailedCategory, "Could not add product to cart",
            start, StageEvents(CartStage, obs.cartPage, 0), last);
      }
    }

    /** Step 6: checkout, with the URL check, and the issue when no candidate works. */
    method ClickCheckout(ctx: Context, obs: Observation, last0: Option<string>)
      returns (last: Option<string>, clicked: bool)
      modifies this
      ensures clicked == CheckoutClicked(obs)
      ensures Snapshot(last) == Run(ctx, old(Snapshot(last0)), CheckoutEvents(obs))
    {
      ghost var start := Snapshot(last0);
      var chosen;
      chosen, last := RunStage(ctx, CheckoutStage, obs.checkoutPage, last0);
      clicked := chosen.Some?;
      if clicked {
        assert StageEvents(CheckoutStage, obs.checkoutPage, 0) + [] == StageEvents(CheckoutStage, obs.checkoutPage, 0);
      } else {
        Log(ctx, Critical, CheckoutMissingCategory, "Could not find or click checkout button",
            start, StageEvents(CheckoutStage, obs.checkoutPage, 0), last);
      }
    }

    /** The final screenshot and the console and network checks. */
    method WrapUp(ctx: Context, obs: Observation, last0: Option<string>) returns (last: Option<string>)
      modifies this
      ensures Snapshot(last) == Run(ctx, old(Snapshot(last0)), WrapUpEvents(obs))
    {
      ghost var start := Snapshot(last0);
      last := Shoot(ctx, "12_final_state", start, [], last0);
      ghost var done: seq<Event> := [Shot("12_final_state")];
      if obs.consoleErrors > 0 {
        Log(ctx, Medium, ConsoleCategory, "Console errors: " + Text.NatToString(obs.consoleErrors) + " errors detected",
            start, done, last);
        done := done + [ConsoleIssue(obs.consoleErrors)];
      }
      if obs.networkErrors > 0 {
        Log(ctx, Medium, NetworkCategory, "Failed to load " + Text.NatToString(obs.networkErrors) + " resources",
            start, done, last);
        done := done + [NetworkIssue(obs.networkErrors)];
      }
    }

    /** The outer exception handler. */
    method HandleCrash(ctx: Context, obs: Observation, last0: Option<string>) returns (last: Option<string>)
      modifies this
      ensures Snapshot(last) == Run(ctx, old(Snapshot(last0)), CrashEvents(obs))
    {
      ghost var start := Snapshot(last0);
      last := Shoot(ctx, "error", start, [], last0);
      Log(ctx, Critical, CrashCategory, "Test failed: " + obs.errorText, start, [Shot("error")], last);
    }

    /** Steps 1 to 3; `ok` says whether the session got through them. */
    method OpenSession(ctx: Context, obs: Observation, last0: Option<string>) returns (last: Option<string>, ok: bool)
      modifies this
      ensures Snapshot(last) == Run(ctx, old(Snapshot(last0)), Opening(obs))
      ensures ok == Survives(obs)
    {
      ghost var start := Snapshot(last0);
      last, ok := LoadPage(ctx, obs, last0);
      if ok {
        ghost var load := LoadEvents(obs).0;
        last, ok := SelectSeats(ctx, obs, last);
        RunAppend(ctx, start, load, SeatEvents(obs).0);
        if ok {
          last, ok := OpenColourPicker(ctx, obs, last);
          RunAppend(ctx, start, load + SeatEvents(obs).0, ButtonEvents(obs).0);
        }
      }
    }

    /** Steps 4 to 6 and the final checks, after the opening steps ran as `done`. */
    method FinishSession(ctx: Context, obs: Observation, ghost start: Trail, ghost done: seq<Event>, last0: Option<string>)
      returns (last: Option<string>)
      requires Snapshot(last0) == Run(ctx, start, done)
      modifies this
      ensures Snapshot(last) == Run(ctx, start, done + ColourEvents(obs) + CartEvents(obs) + CheckoutEvents(obs) + WrapUpEvents(obs))
    {
      var chosen, added, clicked;
      chosen, last := RunStage(ctx, ColourStage, obs.colourOptionPage, last0);
      RunAppend(ctx, start, done, ColourEvents(obs));
      ghost var sofar := done + ColourEvents(obs);
      last, added := AddToCart(ctx, obs, last);
      RunAppend(ctx, start, sofar, CartEvents(obs));
      sofar := sofar + CartEvents(obs);
      last, clicked := ClickCheckout(ctx, obs, last);
      RunAppend(ctx, start, sofar, CheckoutEvents(obs));
      sofar := sofar + CheckoutEvents(obs);
      last := WrapUp(ctx, obs, last);
      RunAppend(ctx, start, sofar, WrapUpEvents(obs));
    }

    /** `test_url` for one observed session: the object ends as the session's
        trace leaves it (what that means is `SessionEffect`). */
    method TestUrl(url: string, device: string, obs: Observation, env: Env)
      modifies this
      ensures Trail(screenshotCounter, issues, None)
           == Session(Trail(old(screenshotCounter), old(issues), None), url, device, obs, env)
    {
      var ctx := Context(url, device, env);
      ghost var start := Snapshot(None);
      var last, ok := OpenSession(ctx, obs, None);
      if ok {
        last := FinishSession(ctx, obs, start, Opening(obs), last);
        assert Journey(obs) == Opening(obs) + ColourEvents(obs) + CartEvents(obs) + CheckoutEvents(obs) + WrapUpEvents(obs);
      } else {
        last := HandleCrash(ctx, obs, last);
        RunAppend(ctx, start, Opening(obs), CrashEvents(obs));
        assert Journey(obs) == Opening(obs) + CrashEvents(obs);
      }
    }

    /** `run_tests`: each URL on desktop and then on mobile, in order; the
        returned list is the object's list, and `tally` is the severity
        breakdown printed at the end. `world(i, device)` is what the browser
        shows in the session for the `i`-th URL on that device. */
    method RunTests(urls: seq<string>, world: (nat, string) -> Observation, env: Env)
      returns (result: seq<Issue>, tally: map<Severity, nat>)
      modifies this
      ensures Trail(screenshotCounter, issues, None)
           == Campaign(Trail(old(screenshotCounter), old(issues), None), urls, world, env)
      ensures result == issues
      ensures forall s :: s in tally <==> Occurrences(issues, s) > 0
      ensures forall s :: s in tally ==> tally[s] == Occurrences(issues, s)
      ensures TallyTotal(tally) == |issues|
    {
      ghost var start := Trail(screenshotCounter, issues, None);
      var i := 0;
      while i < |urls|
        invariant 0 <= i <= |urls|
        invariant Trail(screenshotCounter, issues, None) == Campaign(start, urls[..i], world, env)
      {
        TestUrl(urls[i], "desktop", world(i, "desktop"), env);
        TestUrl(urls[i], "mobile", world(i, "mobile"), env);
        assert urls[..i + 1][..i] == urls[..i];
        i := i + 1;
      }
      assert urls[..|urls|] == urls;
      result := issues;
      tally := SeverityTally(issues);
    }
  }

  /** The object after `test_url(url, device)`, from state `t`. */
  function Session(t: Trail, url: string, device: string, obs: Observation, env: Env): Trail {
    var r := Run(Context(url, device, env), Trail(t.counter, t.issues, None), Journey(obs));
    Trail(r.counter, r.issues, None)
  }

  /** A run of any events from a state without a pending screenshot, seen
      through the report list `found` those events log. */
  lemma TrailEffect(t: Trail, ctx: Context, events: seq<Event>, found: seq<Event>)
    requires Reports(events) == found
    ensures var r := Run(ctx, Trail(t.counter, t.issues, None), events);
      && r.counter == t.counter + ShotCount(events)
      && |r.issues| == |t.issues| + |found|
      && r.issues[..|t.issues|] == t.issues
      && (forall k :: |t.issues| <= k < |r.issues| ==> r.issues[k].url == ctx.url && r.issues[k].device == ctx.device)
      && (forall k :: 0 <= k < |found| ==> Finding(r.issues[|t.issues| + k]) == found[k])
  {
    RunEffect(ctx, Trail(t.counter, t.issues, None), events);
  }

  /**
   * One session moves the counter on by one per screenshot call and never back,
   * keeps every earlier issue in place, and appends exactly the issues the
   * session calls for, in order, each tagged with the session's url and device.
   */
  lemma SessionEffect(t: Trail, url: string, device: string, obs: Observation, env: Env)
    ensures var r := Session(t, url, device, obs, env);
      && r.counter == t.counter + ShotCount(Journey(obs))
      && |r.issues| == |t.issues| + |FunnelIssues(obs)|
      && r.issues[..|t.issues|] == t.issues
      && (forall k :: |t.issues| <= k < |r.issues| ==> r.issues[k].url == url && r.issues[k].device == device)
      && (forall k :: 0 <= k < |FunnelIssues(obs)| ==> Finding(r.issues[|t.issues| + k]) == FunnelIssues(obs)[k])
  {
    JourneyReports(obs);
    TrailEffect(t, Context(url, device, env), Journey(obs), FunnelIssues(obs));
  }

  /** The object after `run_tests(urls)`, from state `t`. */
  function Campaign(t: Trail, urls: seq<string>, world: (nat, string) -> Observation, env: Env): Trail
    decreases |urls|
  {
    if urls == [] then t
    else
      var n := |urls| - 1;
      var before := Campaign(t, urls[..n], world, env);
      var desktop := Session(before, urls[n], "desktop", world(n, "desktop"), env);
      Session(desktop, urls[n], "mobile", world(n, "mobile"), env)
  }

  /** The screenshot calls of a whole run. */
  function CampaignShots(urls: seq<string>, world: (nat, string) -> Observation): nat
    decreases |urls|
  {
    if urls == [] then 0
    else
      var n := |urls| - 1;
      CampaignShots(urls[..n], world)
      + ShotCount(Journey(world(n, "desktop"))) + ShotCount(Journey(world(n, "mobile")))
  }

  /** What a whole run needs of one session: the counter and the kept prefix,
      and the url and device of the issues it adds. */
  lemma SessionKeeps(t: Trail, url: string, device: string, obs: Observation, env: Env)
    ensures var r := Session(t, url, device, obs, env);
      && r.counter == t.counter + ShotCount(Journey(obs))
      && |r.issues| >= |t.issues|
      && r.issues[..|t.issues|] == t.issues
      && (forall k :: |t.issues| <= k < |r.issues| ==> r.issues[k].url == url && r.issues[k].device == device)
  {
    SessionEffect(t, url, device, obs, env);
  }

  lemma {:induction false} CampaignCounter(t: Trail, urls: seq<string>, world: (nat, string) -> Observation, env: Env)
    ensures Campaign(t, urls, world, env).counter == t.counter + CampaignShots(urls, world)
    decreases |urls|
  {
    if urls != [] {
      var n := |urls| - 1;
      var before := Campaign(t, urls[..n], world, env);
      CampaignCounter(t, urls[..n], world, env);
      SessionKeeps(before, urls[n], "desktop", world(n, "desktop"), env);
      var desktop := Session(before, urls[n], "desktop", world(n, "desktop"), env);
      SessionKeeps(desktop, urls[n], "mobile", world(n, "mobile"), env);
    }
  }

  lemma {:induction false} CampaignKeeps(t: Trail, urls: seq<string>, world: (nat, string) -> Observation, env: Env)
    ensures |Campaign(t, urls, world, env).issues| >= |t.issues|
    ensures Campaign(t, urls, world, env).issues[..|t.issues|] == t.issues
    decreases |urls|
  {
    if urls != [] {
      var n := |urls| - 1;
      var before := Campaign(t, urls[..n], world, env);
      CampaignKeeps(t, urls[..n], world, env);
      SessionKeeps(before, urls[n], "desktop", world(n, "desktop"), env);
      var desktop := Session(before, urls[n], "desktop", world(n, "desktop"), env);
      SessionKeeps(desktop, urls[n], "mobile", world(n, "mobile"), env);
      var mobile := Session(desktop, urls[n], "mobile", world(n, "mobile"), env);
      assert mobile.issues[..|t.issues|] == desktop.issues[..|before.issues|][..|t.issues|];
    }
  }

  lemma {:induction false} CampaignTags(t: Trail, urls: seq<string>, world: (nat, string) -> Observation, env: Env)
    ensures forall k :: |t.issues| <= k < |Campaign(t, urls, world, env).issues| ==>
      && Campaign(t, urls, world, env).issues[k].url in urls
      && (Campaign(t, urls, world, env).issues[k].device == "desktop"
          || Campaign(t, urls, world, env).issues[k].device == "mobile")
    decreases |urls|
  {
    if urls != [] {
      var n := |urls| - 1;
      var before := Campaign(t, urls[..n], world, env);
      CampaignTags(t, urls[..n], world, env);
      SessionKeeps(before, urls[n], "desktop", world(n, "desktop"), env);
      var desktop := Session(before, urls[n], "desktop", world(n, "desktop"), env);
      SessionKeeps(desktop, urls[n], "mobile", world(n, "mobile"), env);
      var mobile := Session(desktop, urls[n], "mobile", world(n, "mobile"), env);
      assert Campaign(t, urls, world, env) == mobile;
      forall k | |t.issues| <= k < |mobile.issues|
        ensures mobile.issues[k].url in urls
        ensures mobile.issues[k].device == "desktop" || mobile.issues[k].device == "mobile"
      {
        if k < |before.issues| {
          assert mobile.issues[k] == before.issues[k] by {
            assert mobile.issues[k] == mobile.issues[..|desktop.issues|][k];
            assert desktop.issues[k] == desktop.issues[..|before.issues|][k];
          }
          assert before.issues[k].url in urls[..n];
        } else if k < |desktop.issues| {
          assert mobile.issues[k] == mobile.issues[..|desktop.issues|][k];
        }
      }
    }
  }

  /** Over a whole run the counter only grows, by one per screenshot call, and
      the issue list only grows at the end, with issues of the tested URLs on
      the two devices. */
  lemma CampaignEffect(t: Trail, urls: seq<string>, world: (nat, string) -> Observation, env: Env)
    ensures Campaign(t, urls, world, env).counter == t.counter + CampaignShots(urls, world)
    ensures |Campaign(t, urls, world, env).issues| >= |t.issues|
    ensures Campaign(t, urls, world, env).issues[..|t.issues|] == t.issues
    ensures forall k :: |t.issues| <= k < |Campaign(t, urls, world, env).issues| ==>
      && Campaign(t, urls, world, env).issues[k].url in urls
      && (Campaign(t, urls, world, env).issues[k].device == "desktop"
          || Campaign(t, urls, world, env).issues[k].device == "mobile")
  {
    CampaignCounter(t, urls, world, env);
    CampaignKeeps(t, urls, world, env);
    CampaignTags(t, urls, world, env);
  }

  // ---------------------------------------------------------------------------
  // The severity breakdown of `run_tests` (shopify_qa.py:549-552).

  function Occurrences(issues: seq<Issue>, s: Severity): nat {
    if issues == [] then 0
    else Occurrences(issues[..|issues| - 1], s) + (if issues[|issues| - 1].severity == s then 1 else 0)
  }

  /** The four counts a tally prints, with absent keys as zero. */
  function TallyTotal(counts: map<Severity, nat>): nat {
    (if Critical in counts then counts[Critical] else 0)
    + (if High in counts then counts[High] else 0)
    + (if Medium in counts then counts[Medium] else 0)
    + (if Low in counts then counts[Low] else 0)
  }

  /** Every issue has exactly one of the four severities. */
  lemma {:induction false} OccurrencesTotal(issues: seq<Issue>)
    ensures Occurrences(issues, Critical) + Occurrences(issues, High)
          + Occurrences(issues, Medium) + Occurrences(issues, Low) == |issues|
    decreases |issues|
  {
    if issues != [] {
      OccurrencesTotal(issues[..|issues| - 1]);
    }
  }

  /** `severity_count[sev] = severity_count.get(sev, 0) + 1` over the list. */
  method SeverityTally(issues: seq<Issue>) returns (counts: map<Severity, nat>)
    ensures forall s :: s in counts <==> Occurrences(issues, s) > 0
    ensures forall s :: s in counts ==> counts[s] == Occurrences(issues, s)
    ensures TallyTotal(counts) == |issues|
  {
    counts := map[];
    for i := 0 to |issues|
      invariant forall s :: s in counts <==> Occurrences(issues[..i], s) > 0
      invariant forall s :: s in counts ==> counts[s] == Occurrences(issues[..i], s)
    {
      var sev := issues[i].severity;
      counts := counts[sev := (if sev in counts then counts[sev] else 0) + 1];
      assert issues[..i + 1][..i] == issues[..i];
    }
    assert issues[..|issues|] == issues;
    OccurrencesTotal(issues);
  }
}
