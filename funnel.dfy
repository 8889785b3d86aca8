/**
 * The purchase funnel that `test_url` drives (shopify_qa.py:22-472), stated as
 * the trace of screenshots and issues it produces for one observed page
 * session, and, independently, as the list of issues each outcome calls for.
 */
module Funnel {
  import opened Wrappers
  import opened Page
  import opened Journal
  import opened Resolver
  import Text

  // ---------------------------------------------------------------------------
  // The selector lists of `test_url`, in the source's order.

  const SeatSelectors: seq<string> := [
    "input[type=\"radio\"][value*=\"Front\"][value*=\"Rear\"]",
    "input[value*=\"Front & Rear\"]",
    "input[value*=\"front-rear\"]",
    "label:has-text(\"Front & Rear Seats\") input",
    "input[id*=\"front-rear\"]",
    "input[name*=\"seat\"][value*=\"both\"]"
  ]

  const ColourButtonSelectors: seq<string> := [
    "button:has-text(\"Select Color\")",
    "button:has-text(\"Choose Color\")",
    "a:has-text(\"Select Color\")",
    "button[class*=\"color\"]",
    "button:has-text(\"Color\")",
    ".color-selector button",
    "button:has-text(\"Select\")"
  ]

  const ColourOptionSelectors: seq<string> := [
    "button:has-text(\"Black\")",
    "label:has-text(\"Black\")",
    "input[value*=\"black\"]",
    "div[data-color=\"black\"]",
    "button[title*=\"Black\"]",
    "button[class*=\"color-option\"]:first-child",
    ".color-swatch:first-child"
  ]

  const AddToCartSelectors: seq<string> := [
    "button:has-text(\"Add to Cart\")",
    "button[name=\"add\"]",
    "button[type=\"submit\"]:has-text(\"Add\")",
    "input[type=\"submit\"][value*=\"Add\"]",
    "button.add-to-cart",
    "button[class*=\"add-cart\"]",
    ".product-form__submit"
  ]

  const CheckoutSelectors: seq<string> := [
    "button:has-text(\"Continue to Checkout\")",
    "a:has-text(\"Continue to Checkout\")",
    "button:has-text(\"Checkout\")",
    "a:has-text(\"Checkout\")",
    "a[href*=\"checkout\"]",
    "button[class*=\"checkout\"]",
    ".cart-popup button:has-text(\"Checkout\")",
    "button.btn-checkout"
  ]

  const ColourStage: Stage :=
    Stage(ColourOptionSelectors, Visible, "06_before_color_click", "07_color_selected", false)
  const CartStage: Stage :=
    Stage(AddToCartSelectors, VisibleEnabled, "08_before_add_to_cart", "09_added_to_cart_popup", false)
  const CheckoutStage: Stage :=
    Stage(CheckoutSelectors, Visible, "10_before_checkout_click", "11_checkout_page_loaded", true)

  // ---------------------------------------------------------------------------
  // Issue categories and the records the call sites build.

  const HttpErrorCategory: string := "HTTP Error"
  const BrokenImagesCategory: string := "Broken Images"
  const SeatMissingCategory: string := "Element Not Found"
  const CrashCategory: string := "Test Failure"
  const CartFailedCategory: string := "Add to Cart Failed"
  const CheckoutMissingCategory: string := "Checkout Button Not Found"
  const ConsoleCategory: string := "JavaScript Errors"
  const NetworkCategory: string := "Network Errors"

  function HttpIssue(status: nat): Event {
    Report(High, HttpErrorCategory, "Page returned status " + Text.NatToString(status))
  }

  function BrokenImagesIssue(n: nat): Event {
    Report(High, BrokenImagesCategory, Text.NatToString(n) + " images failed to load")
  }

  const SeatMissingIssue: Event :=
    Report(High, SeatMissingCategory, "Could not find \"Front & Rear Seats\" option")

  function CrashIssue(errorText: string): Event {
    Report(Critical, CrashCategory, "Test failed: " + errorText)
  }

  const CartFailedIssue: Event :=
    Report(Critical, CartFailedCategory, "Could not add product to cart")

  const CheckoutMissingIssue: Event :=
    Report(Critical, CheckoutMissingCategory, "Could not find or click checkout button")

  function ConsoleIssue(n: nat): Event {
    Report(Medium, ConsoleCategory, "Console errors: " + Text.NatToString(n) + " errors detected")
  }

  function NetworkIssue(n: nat): Event {
    Report(Medium, NetworkCategory, "Failed to load " + Text.NatToString(n) + " resources")
  }

  // ---------------------------------------------------------------------------
  // One observed session.

  /** What `page.goto(url, ...)` does: raise, resolve to None, or give a response. */
  datatype Navigation = NavigationFails | NoResponse | Response(status: nat)

  /**
   * Everything `test_url` reads from the browser in one session: the
   * navigation, the broken-image count (`None` when the probe script raised),
   * the page as each selector loop sees it, the sizes of the console and
   * network error lists when they are inspected, and the text of the
   * exception that reaches the outer handler, if one does.
   */
  datatype Observation = Observation(
    navigation: Navigation,
    brokenImages: Option<nat>,
    seatPage: PageState,
    colourButtonPage: PageState,
    colourOptionPage: PageState,
    cartPage: PageState,
    checkoutPage: PageState,
    consoleErrors: nat,
    networkErrors: nat,
    errorText: string)

  // ---------------------------------------------------------------------------
  // The trace, stage by stage. Each of the first three stages says whether the
  // session goes on (`true`) or an exception reaches the outer handler.

  /** Steps 1 and the two checks after it (shopify_qa.py:61-101). */
  function LoadEvents(obs: Observation): (r: (seq<Event>, bool)) {
    match obs.navigation
    case NavigationFails => ([], false)
    case NoResponse => ([Shot("01_page_loaded")], false)       // `response.status` on None raises
    case Response(status) =>
      var shown := [Shot("01_page_loaded")] + (if status != 200 then [HttpIssue(status)] else []);
      match obs.brokenImages
      case None => (shown, false)
      case Some(n) => (shown + (if n > 0 then [BrokenImagesIssue(n)] else []), true)
  }

  /** The hover/screenshot/click/screenshot block that the seat and colour-button
      steps run outside any inner `try`, so that a fault ends the session. */
  function UnguardedBlock(fault: Fault, before: string, after: string): (seq<Event>, bool) {
    match fault
    case Never => ([Shot(before), Shot(after)], true)
    case AtClick => ([Shot(before)], false)
    case AtHover => ([], false)
    case AtProbe => ([], false)
  }

  /** Step 2 (shopify_qa.py:116-175). */
  function SeatEvents(obs: Observation): (seq<Event>, bool) {
    match FirstFound(SeatSelectors, obs.seatPage, 0)
    case None => ([SeatMissingIssue], true)
    case Some(i) =>
      UnguardedBlock(Lookup(obs.seatPage, SeatSelectors[i]).element.faultAt,
                     "02_before_select_seats", "03_seats_selected")
  }

  /** Step 3 (shopify_qa.py:191-225): it proceeds with whatever `color_button` holds. */
  function ButtonEvents(obs: Observation): (seq<Event>, bool) {
    match HeldButton(ColourButtonSelectors, obs.colourButtonPage, 0, None)
    case None => ([], true)
    case Some(j) =>
      UnguardedBlock(Lookup(obs.colourButtonPage, ColourButtonSelectors[j]).element.faultAt,
                     "04_before_color_select", "05_color_options_visible")
  }

  /** Step 4 (shopify_qa.py:241-274): no issue whatever happens. */
  function ColourEvents(obs: Observation): seq<Event> {
    StageEvents(ColourStage, obs.colourOptionPage, 0)
  }

  predicate CartAdded(obs: Observation) {
    FirstCompleted(CartStage, obs.cartPage, 0).Some?
  }

  predicate CheckoutClicked(obs: Observation) {
    FirstCompleted(CheckoutStage, obs.checkoutPage, 0).Some?
  }

  /** Step 5 (shopify_qa.py:289-332). */
  function CartEvents(obs: Observation): seq<Event> {
    StageEvents(CartStage, obs.cartPage, 0) + (if CartAdded(obs) then [] else [CartFailedIssue])
  }

  /** Step 6 (shopify_qa.py:349-419). */
  function CheckoutEvents(obs: Observation): seq<Event> {
    StageEvents(CheckoutStage, obs.checkoutPage, 0) + (if CheckoutClicked(obs) then [] else [CheckoutMissingIssue])
  }

  /** The final screenshot and the error-list checks (shopify_qa.py:422-449). */
  function WrapUpEvents(obs: Observation): seq<Event> {
    [Shot("12_final_state")]
    + (if obs.consoleErrors > 0 then [ConsoleIssue(obs.consoleErrors)] else [])
    + (if obs.networkErrors > 0 then [NetworkIssue(obs.networkErrors)] else [])
  }

  /** The outer exception handler (shopify_qa.py:455-470). */
  function CrashEvents(obs: Observation): seq<Event> {
    [Shot("error"), CrashIssue(obs.errorText)]
  }

  /** No exception reaches the outer handler. */
  predicate Survives(obs: Observation) {
    LoadEvents(obs).1 && SeatEvents(obs).1 && ButtonEvents(obs).1
  }

  /** Steps 1 to 3, as far as they get. */
  function Opening(obs: Observation): seq<Event> {
    var load := LoadEvents(obs);
    if !load.1 then load.0
    else
      var seat := SeatEvents(obs);
      if !seat.1 then load.0 + seat.0
      else load.0 + seat.0 + ButtonEvents(obs).0
  }

  /** The whole session, in the order the calls happen. */
  function Journey(obs: Observation): seq<Event> {
    if Survives(obs)
    then Opening(obs) + ColourEvents(obs) + CartEvents(obs) + CheckoutEvents(obs) + WrapUpEvents(obs)
    else Opening(obs) + CrashEvents(obs)
  }

  // ---------------------------------------------------------------------------
  // The issues alone: one slot per kind of failure, in the order the source
  // can log them, each with the condition under which it is logged.

  datatype Slot = Slot(fires: bool, issue: Event)

  function Responded(obs: Observation): bool {
    obs.navigation.Response?
  }

  function ImagesProbed(obs: Observation): bool {
    Responded(obs) && obs.brokenImages.Some?
  }

  /** The URL the chosen checkout button lands on, when one is chosen. */
  function LandedUrl(obs: Observation): Option<string> {
    match FirstCompleted(CheckoutStage, obs.checkoutPage, 0)
    case None => None
    case Some(i) => Some(Lookup(obs.checkoutPage, CheckoutSelectors[i]).element.target)
  }

  function HttpSlot(obs: Observation): Slot {
    var status := if Responded(obs) then obs.navigation.status else 200;
    Slot(Responded(obs) && status != 200, HttpIssue(status))
  }

  function ImagesSlot(obs: Observation): Slot {
    var broken := if ImagesProbed(obs) then obs.brokenImages.value else 0;
    Slot(ImagesProbed(obs) && broken > 0, BrokenImagesIssue(broken))
  }

  function SeatSlot(obs: Observation): Slot {
    Slot(ImagesProbed(obs) && FirstFound(SeatSelectors, obs.seatPage, 0).None?, SeatMissingIssue)
  }

  function CrashSlot(obs: Observation): Slot {
    Slot(!Survives(obs), CrashIssue(obs.errorText))
  }

  function CartSlot(obs: Observation): Slot {
    Slot(Survives(obs) && !CartAdded(obs), CartFailedIssue)
  }

  function LandingSlot(obs: Observation): Slot {
    var landed := if LandedUrl(obs).Some? then LandedUrl(obs).value else "";
    Slot(Survives(obs) && LandedUrl(obs).Some? && !Text.Contains(Text.Lower(landed), "checkout"),
         Report(High, CheckoutNavigationCategory, "Clicked checkout but URL is: " + landed))
  }

  function CheckoutSlot(obs: Observation): Slot {
    Slot(Survives(obs) && !CheckoutClicked(obs), CheckoutMissingIssue)
  }

  function ConsoleSlot(obs: Observation): Slot {
    Slot(Survives(obs) && obs.consoleErrors > 0, ConsoleIssue(obs.consoleErrors))
  }

  function NetworkSlot(obs: Observation): Slot {
    Slot(Survives(obs) && obs.networkErrors > 0, NetworkIssue(obs.networkErrors))
  }

  function IssueSlots(obs: Observation): seq<Slot> {
    [HttpSlot(obs), ImagesSlot(obs), SeatSlot(obs), CrashSlot(obs), CartSlot(obs),
     LandingSlot(obs), CheckoutSlot(obs), ConsoleSlot(obs), NetworkSlot(obs)]
  }

  /** The issue a slot contributes: its own when it fires, none otherwise. */
  function Emitted(slot: Slot): seq<Event> {
    if slot.fires then [slot.issue] else []
  }

  function Fired(slots: seq<Slot>): seq<Event> {
    if slots == [] then [] else Fired(slots[..|slots| - 1]) + Emitted(slots[|slots| - 1])
  }

  /** The issues one session logs, in order. */
  function FunnelIssues(obs: Observation): seq<Event> {
    Fired(IssueSlots(obs))
  }

  // ---------------------------------------------------------------------------
  // Properties of the slots.

  /** The number of issues of one category in a list of events. */
  function Tally(events: seq<Event>, category: string): nat {
    if events == [] then 0
    else
      var e := events[|events| - 1];
      Tally(events[..|events| - 1], category) + (if e.Report? && e.category == category then 1 else 0)
  }

  /** Every slot holds an issue, and no two slots share a category. */
  predicate WellFormed(slots: seq<Slot>) {
    && (forall k :: 0 <= k < |slots| ==> slots[k].issue.Report?)
    && (forall i, j :: 0 <= i < j < |slots| ==> slots[i].issue.category != slots[j].issue.category)
  }

  /** An issue is logged exactly when some slot holding it fires. */
  lemma {:induction false} FiredMembers(slots: seq<Slot>)
    ensures forall e :: e in Fired(slots) <==> exists k :: 0 <= k < |slots| && slots[k].fires && slots[k].issue == e
    decreases |slots|
  {
    if slots != [] {
      var init := slots[..|slots| - 1];
      var last := slots[|slots| - 1];
      FiredMembers(init);
      forall e | e in Fired(slots)
        ensures exists k :: 0 <= k < |slots| && slots[k].fires && slots[k].issue == e
      {
        if !(last.fires && last.issue == e) {
          assert e in Fired(init);
          var k :| 0 <= k < |init| && init[k].fires && init[k].issue == e;
          assert slots[k] == init[k];
        }
      }
      forall e | exists k :: 0 <= k < |slots| && slots[k].fires && slots[k].issue == e
        ensures e in Fired(slots)
      {
        var k :| 0 <= k < |slots| && slots[k].fires && slots[k].issue == e;
        if k < |init| {
          assert init[k] == slots[k];
        }
      }
    }
  }

  /** With distinct categories, each category is logged at most once, and not
      at all when no slot of that category fires. */
  lemma {:induction false} FiredTally(slots: seq<Slot>, category: string)
    requires WellFormed(slots)
    ensures Tally(Fired(slots), category) <= 1
    ensures (forall k :: 0 <= k < |slots| && slots[k].fires ==> slots[k].issue.category != category) ==>
      Tally(Fired(slots), category) == 0
    decreases |slots|
  {
    if slots != [] {
      var init := slots[..|slots| - 1];
      var last := slots[|slots| - 1];
      assert WellFormed(init) by {
        forall i, j | 0 <= i < j < |init|
          ensures init[i].issue.category != init[j].issue.category
        {
          assert init[i] == slots[i] && init[j] == slots[j];
        }
      }
      FiredTally(init, category);
      var tail := Emitted(last);
      assert Tally(Fired(init) + tail, category) == Tally(Fired(init), category) + Tally(tail, category) by {
        if tail != [] {
          assert (Fired(init) + tail)[..|Fired(init) + tail| - 1] == Fired(init);
        } else {
          assert Fired(init) + tail == Fired(init);
        }
      }
      assert Tally(tail, category) == if last.fires && last.issue.category == category then 1 else 0 by {
        if tail != [] {
          assert tail[..0] == [];
        }
      }
      if last.fires && last.issue.category == category {
        forall k | 0 <= k < |init| && init[k].fires
          ensures init[k].issue.category != category
        {
          assert init[k] == slots[k];
        }
      } else if forall k :: 0 <= k < |slots| && slots[k].fires ==> slots[k].issue.category != category {
        forall k | 0 <= k < |init| && init[k].fires
          ensures init[k].issue.category != category
        {
          assert init[k] == slots[k];
        }
      }
    }
  }

  /** In a well-formed list, the only issue of a slot's category that can be
      logged is that slot's, and it is logged exactly when the slot fires. */
  lemma FiredSlot(slots: seq<Slot>, k: nat)
    requires WellFormed(slots) && k < |slots|
    ensures slots[k].fires <==> slots[k].issue in Fired(slots)
    ensures forall e :: e in Fired(slots) && e.Report? && e.category == slots[k].issue.category ==> e == slots[k].issue
  {
    FiredMembers(slots);
    forall e | e in Fired(slots) && e.Report? && e.category == slots[k].issue.category
      ensures e == slots[k].issue
    {
      var j :| 0 <= j < |slots| && slots[j].fires && slots[j].issue == e;
      assert j == k;
    }
    if slots[k].issue in Fired(slots) {
      var j :| 0 <= j < |slots| && slots[j].fires && slots[j].issue == slots[k].issue;
      assert j == k;
    }
  }

  /** The category of each slot, in slot order. */
  const SlotCategories: seq<string> :=
    [HttpErrorCategory, BrokenImagesCategory, SeatMissingCategory, CrashCategory, CartFailedCategory,
     CheckoutNavigationCategory, CheckoutMissingCategory, ConsoleCategory, NetworkCategory]

  lemma SlotCategoriesDistinct()
    ensures forall i, j :: 0 <= i < j < |SlotCategories| ==> SlotCategories[i] != SlotCategories[j]
  {
  }

  lemma SlotCategoryOf(obs: Observation)
    ensures |IssueSlots(obs)| == |SlotCategories|
    ensures forall k :: 0 <= k < |SlotCategories| ==>
      IssueSlots(obs)[k].issue.Report? && IssueSlots(obs)[k].issue.category == SlotCategories[k]
  {
  }

  lemma IssueSlotsWellFormed(obs: Observation)
    ensures |IssueSlots(obs)| == 9 && WellFormed(IssueSlots(obs))
  {
    SlotCategoriesDistinct();
    SlotCategoryOf(obs);
  }

  // ---------------------------------------------------------------------------
  // What one session logs.

  /** Some issue of the category is logged. */
  predicate Logs(obs: Observation, category: string) {
    exists e :: e in FunnelIssues(obs) && e.Report? && e.category == category
  }

  /** The severity each call site of `test_url` gives its category. */
  function CategorySeverity(category: string): Option<Severity> {
    if category == HttpErrorCategory || category == BrokenImagesCategory
       || category == SeatMissingCategory || category == CheckoutNavigationCategory then Some(High)
    else if category == CrashCategory || category == CartFailedCategory || category == CheckoutMissingCategory
    then Some(Critical)
    else if category == ConsoleCategory || category == NetworkCategory then Some(Medium)
    else None
  }

  /** Severity is a function of the category: the checkout URL check is high,
      never critical, and the stage failures after the colour step are critical. */
  lemma SeverityByCategory(obs: Observation)
    ensures forall e :: e in FunnelIssues(obs) ==> e.Report? && CategorySeverity(e.category) == Some(e.severity)
    ensures CategorySeverity(CheckoutNavigationCategory) == Some(High)
  {
    var slots := IssueSlots(obs);
    FiredMembers(slots);
    forall e | e in FunnelIssues(obs)
      ensures e.Report? && CategorySeverity(e.category) == Some(e.severity)
    {
      var k :| 0 <= k < |slots| && slots[k].fires && slots[k].issue == e;
      SlotGraded(obs, k);
    }
  }

  lemma CategoryGrades()
    ensures CategorySeverity(HttpErrorCategory) == Some(High)
    ensures CategorySeverity(BrokenImagesCategory) == Some(High)
    ensures CategorySeverity(SeatMissingCategory) == Some(High)
    ensures CategorySeverity(CheckoutNavigationCategory) == Some(High)
    ensures CategorySeverity(CrashCategory) == Some(Critical)
    ensures CategorySeverity(CartFailedCategory) == Some(Critical)
    ensures CategorySeverity(CheckoutMissingCategory) == Some(Critical)
    ensures CategorySeverity(ConsoleCategory) == Some(Medium)
    ensures CategorySeverity(NetworkCategory) == Some(Medium)
  {
  }

  lemma SlotGraded(obs: Observation, k: nat)
    requires k < |IssueSlots(obs)|
    ensures IssueSlots(obs)[k].issue.Report?
    ensures CategorySeverity(IssueSlots(obs)[k].issue.category) == Some(IssueSlots(obs)[k].issue.severity)
  {
    CategoryGrades();
    var slot := IssueSlots(obs)[k];
    if k == 0 { assert slot == HttpSlot(obs); }
    else if k == 1 { assert slot == ImagesSlot(obs); }
    else if k == 2 { assert slot == SeatSlot(obs); }
    else if k == 3 { assert slot == CrashSlot(obs); }
    else if k == 4 { assert slot == CartSlot(obs); }
    else if k == 5 { assert slot == LandingSlot(obs); }
    else if k == 6 { assert slot == CheckoutSlot(obs); }
    else if k == 7 { assert slot == ConsoleSlot(obs); }
    else { assert slot == NetworkSlot(obs); }
  }

  /** No category is logged twice in one session. */
  lemma OneIssuePerCategory(obs: Observation, category: string)
    ensures Tally(FunnelIssues(obs), category) <= 1
  {
    IssueSlotsWellFormed(obs);
    FiredTally(IssueSlots(obs), category);
  }

  /** A slot's category is logged exactly when the slot fires, and then with
      the slot's own issue. */
  lemma SlotLogs(obs: Observation, k: nat)
    requires k < 9
    ensures |IssueSlots(obs)| == 9
    ensures IssueSlots(obs)[k].fires <==> IssueSlots(obs)[k].issue in FunnelIssues(obs)
    ensures Logs(obs, IssueSlots(obs)[k].issue.category) <==> IssueSlots(obs)[k].fires
  {
    IssueSlotsWellFormed(obs);
    FiredSlot(IssueSlots(obs), k);
  }

  /** A non-200 status and broken images each give one high issue, exactly
      when they are seen. */
  lemma LoadAnomalyIssues(obs: Observation)
    ensures Logs(obs, HttpErrorCategory) <==> Responded(obs) && obs.navigation.status != 200
    ensures Responded(obs) && obs.navigation.status != 200 ==> HttpIssue(obs.navigation.status) in FunnelIssues(obs)
    ensures Logs(obs, BrokenImagesCategory) <==> ImagesProbed(obs) && obs.brokenImages.value > 0
    ensures ImagesProbed(obs) && obs.brokenImages.value > 0 ==>
      BrokenImagesIssue(obs.brokenImages.value) in FunnelIssues(obs)
  {
    SlotLogs(obs, 0);
    SlotLogs(obs, 1);
  }

  /** Console errors and failed requests each give one medium issue with
      their count, never one per error. */
  lemma ErrorListIssues(obs: Observation)
    ensures Logs(obs, ConsoleCategory) <==> Survives(obs) && obs.consoleErrors > 0
    ensures Survives(obs) && obs.consoleErrors > 0 ==> ConsoleIssue(obs.consoleErrors) in FunnelIssues(obs)
    ensures Logs(obs, NetworkCategory) <==> Survives(obs) && obs.networkErrors > 0
    ensures Survives(obs) && obs.networkErrors > 0 ==> NetworkIssue(obs.networkErrors) in FunnelIssues(obs)
  {
    SlotLogs(obs, 7);
    SlotLogs(obs, 8);
  }

  /** A seat option that no selector finds is a high issue. */
  lemma SeatMissingIssueLogged(obs: Observation)
    ensures Logs(obs, SeatMissingCategory) <==> ImagesProbed(obs) && FirstFound(SeatSelectors, obs.seatPage, 0).None?
    ensures Logs(obs, SeatMissingCategory) <==> SeatMissingIssue in FunnelIssues(obs)
  {
    SlotLogs(obs, 2);
  }

  /** A cart step that no candidate completes is a critical issue. */
  lemma CartFailedIssueLogged(obs: Observation)
    ensures Logs(obs, CartFailedCategory) <==> Survives(obs) && !CartAdded(obs)
    ensures Logs(obs, CartFailedCategory) <==> CartFailedIssue in FunnelIssues(obs)
  {
    SlotLogs(obs, 4);
  }

  /** A checkout step that no candidate completes is a critical issue. */
  lemma CheckoutMissingIssueLogged(obs: Observation)
    ensures Logs(obs, CheckoutMissingCategory) <==> Survives(obs) && !CheckoutClicked(obs)
    ensures Logs(obs, CheckoutMissingCategory) <==> CheckoutMissingIssue in FunnelIssues(obs)
  {
    SlotLogs(obs, 6);
  }

  /** After a click the URL is checked: a URL without "checkout" in it
      (ignoring case) is a high issue, but the click still counts, so the
      missing-button issue is not logged as well. */
  lemma CheckoutNavigationIssue(obs: Observation)
    ensures CheckoutClicked(obs) <==> LandedUrl(obs).Some?
    ensures Logs(obs, CheckoutNavigationCategory) <==>
      Survives(obs) && LandedUrl(obs).Some? && !Text.Contains(Text.Lower(LandedUrl(obs).value), "checkout")
    ensures Logs(obs, CheckoutNavigationCategory) ==>
      && Report(High, CheckoutNavigationCategory, "Clicked checkout but URL is: " + LandedUrl(obs).value) in FunnelIssues(obs)
      && !Logs(obs, CheckoutMissingCategory)
  {
    var slots := IssueSlots(obs);
    IssueSlotsWellFormed(obs);
    FiredSlot(slots, 5);
    FiredSlot(slots, 6);
  }

  /** An exception that reaches the outer handler is one critical issue, and
      then none of the later checks runs. */
  lemma CrashIssueLogged(obs: Observation)
    ensures Logs(obs, CrashCategory) <==> !Survives(obs)
    ensures !Survives(obs) ==> CrashIssue(obs.errorText) in FunnelIssues(obs)
    ensures !Survives(obs) ==> forall e :: e in FunnelIssues(obs) ==>
      e.Report? && e.category in [HttpErrorCategory, BrokenImagesCategory, SeatMissingCategory, CrashCategory]
  {
    SlotLogs(obs, 3);
    assert IssueSlots(obs)[3] == CrashSlot(obs);
    if !Survives(obs) {
      CrashedOpeningOnly(obs);
    }
  }

  /** After a crash only the opening slots and the crash itself are logged. */
  lemma CrashedOpeningOnly(obs: Observation)
    requires !Survives(obs)
    ensures forall e :: e in FunnelIssues(obs) ==>
      e.Report? && e.category in [HttpErrorCategory, BrokenImagesCategory, SeatMissingCategory, CrashCategory]
  {
    var s := IssueSlots(obs);
    CrashedSlots(obs);
    SlotCategoryOf(obs);
    forall e | e in FunnelIssues(obs)
      ensures e.Report? && e.category in [HttpErrorCategory, BrokenImagesCategory, SeatMissingCategory, CrashCategory]
    {
      if e in Emitted(s[0]) {
        assert e == s[0].issue;
      } else if e in Emitted(s[1]) {
        assert e == s[1].issue;
      } else if e in Emitted(s[2]) {
        assert e == s[2].issue;
      } else {
        assert e == CrashIssue(obs.errorText);
      }
    }
  }

  // ---------------------------------------------------------------------------
  // The trace logs exactly the issues of the slots.

  lemma FiredUpTo(slots: seq<Slot>, k: nat)
    requires k < |slots|
    ensures Fired(slots[..k + 1]) == Fired(slots[..k]) + Emitted(slots[k])
  {
    assert slots[..k + 1][..k] == slots[..k];
  }

  lemma FiredNine(s: seq<Slot>)
    requires |s| == 9
    ensures Fired(s) == Emitted(s[0]) + Emitted(s[1]) + Emitted(s[2]) + Emitted(s[3]) + Emitted(s[4])
                        + Emitted(s[5]) + Emitted(s[6]) + Emitted(s[7]) + Emitted(s[8])
  {
    assert s[..0] == [];
    FiredUpTo(s, 0);
    assert Fired(s[..1]) == Emitted(s[0]);
    FiredUpTo(s, 1);
    FiredUpTo(s, 2);
    assert Fired(s[..3]) == Emitted(s[0]) + Emitted(s[1]) + Emitted(s[2]);
    FiredUpTo(s, 3);
    FiredUpTo(s, 4);
    assert Fired(s[..5]) == Emitted(s[0]) + Emitted(s[1]) + Emitted(s[2]) + Emitted(s[3]) + Emitted(s[4]);
    FiredUpTo(s, 5);
    FiredUpTo(s, 6);
    assert Fired(s[..7]) == Emitted(s[0]) + Emitted(s[1]) + Emitted(s[2]) + Emitted(s[3]) + Emitted(s[4])
                            + Emitted(s[5]) + Emitted(s[6]);
    FiredUpTo(s, 7);
    FiredUpTo(s, 8);
    assert s[..9] == s;
  }

  lemma BlockReports(fault: Fault, before: string, after: string)
    ensures Reports(UnguardedBlock(fault, before, after).0) == []
  {
    var events := UnguardedBlock(fault, before, after).0;
    ReportsOfShots(events);
  }

  /** A screenshot followed by issues logs those issues. */
  lemma ShotThenReports(step: string, issues: seq<Event>)
    requires forall i :: 0 <= i < |issues| ==> issues[i].Report?
    ensures Reports([Shot(step)] + issues) == issues
  {
    ReportsAppend([Shot(step)], issues);
    ReportsOfShots([Shot(step)]);
    ReportsOfReports(issues);
  }

  /** What step 1 logs once the page has responded with `status`. */
  lemma LoadedReports(status: nat, images: Option<nat>)
    ensures var http: seq<Event> := if status != 200 then [HttpIssue(status)] else [];
      var shown := [Shot("01_page_loaded")] + http;
      && Reports(shown) == http
      && (images.Some? ==>
            var broken: seq<Event> := if images.value > 0 then [BrokenImagesIssue(images.value)] else [];
            Reports(shown + broken) == http + broken)
  {
    var http: seq<Event> := if status != 200 then [HttpIssue(status)] else [];
    var shown := [Shot("01_page_loaded")] + http;
    ShotThenReports("01_page_loaded", http);
    if images.Some? {
      var broken: seq<Event> := if images.value > 0 then [BrokenImagesIssue(images.value)] else [];
      ReportsAppend(shown, broken);
      ReportsOfReports(broken);
    }
  }

  lemma LoadReports(obs: Observation)
    ensures Reports(LoadEvents(obs).0) == Emitted(HttpSlot(obs)) + Emitted(ImagesSlot(obs))
    ensures LoadEvents(obs).1 == ImagesProbed(obs)
  {
    match obs.navigation {
      case NavigationFails =>
      case NoResponse =>
        ReportsOfShots([Shot("01_page_loaded")]);
      case Response(status) =>
        LoadedReports(status, obs.brokenImages);
    }
  }

  lemma SeatReports(obs: Observation)
    ensures ImagesProbed(obs) ==> Reports(SeatEvents(obs).0) == Emitted(SeatSlot(obs))
  {
    match FirstFound(SeatSelectors, obs.seatPage, 0) {
      case None =>
        ReportsOfReports([SeatMissingIssue]);
      case Some(i) =>
        BlockReports(Lookup(obs.seatPage, SeatSelectors[i]).element.faultAt,
                     "02_before_select_seats", "03_seats_selected");
    }
  }

  lemma ButtonReports(obs: Observation)
    ensures Reports(ButtonEvents(obs).0) == []
  {
    match HeldButton(ColourButtonSelectors, obs.colourButtonPage, 0, None) {
      case None =>
      case Some(j) =>
        BlockReports(Lookup(obs.colourButtonPage, ColourButtonSelectors[j]).element.faultAt,
                     "04_before_color_select", "05_color_options_visible");
    }
  }

  /** The two colour steps log nothing, whatever happens in them. */
  lemma ColourStepsSilent(obs: Observation)
    ensures Reports(ButtonEvents(obs).0) == []
    ensures Reports(ColourEvents(obs)) == []
  {
    ButtonReports(obs);
    StageReports(ColourStage, obs.colourOptionPage, 0);
  }

  lemma CartReports(obs: Observation)
    ensures Survives(obs) ==> Reports(CartEvents(obs)) == Emitted(CartSlot(obs))
  {
    var fail: seq<Event> := if CartAdded(obs) then [] else [CartFailedIssue];
    StageReports(CartStage, obs.cartPage, 0);
    ReportsAppend(StageEvents(CartStage, obs.cartPage, 0), fail);
    ReportsOfReports(fail);
  }

  lemma CheckoutReports(obs: Observation)
    ensures Survives(obs) ==>
      Reports(CheckoutEvents(obs)) == Emitted(LandingSlot(obs)) + Emitted(CheckoutSlot(obs))
  {
    var fail: seq<Event> := if CheckoutClicked(obs) then [] else [CheckoutMissingIssue];
    StageReports(CheckoutStage, obs.checkoutPage, 0);
    ReportsAppend(StageEvents(CheckoutStage, obs.checkoutPage, 0), fail);
    ReportsOfReports(fail);
  }

  lemma WrapUpReports(obs: Observation)
    ensures Survives(obs) ==>
      Reports(WrapUpEvents(obs)) == Emitted(ConsoleSlot(obs)) + Emitted(NetworkSlot(obs))
  {
    var console: seq<Event> := if obs.consoleErrors > 0 then [ConsoleIssue(obs.consoleErrors)] else [];
    var network: seq<Event> := if obs.networkErrors > 0 then [NetworkIssue(obs.networkErrors)] else [];
    ReportsAppend([Shot("12_final_state")] + console, network);
    ReportsAppend([Shot("12_final_state")], console);
    ReportsOfShots([Shot("12_final_state")]);
    ReportsOfReports(console);
    ReportsOfReports(network);
  }

  lemma CrashReports(obs: Observation)
    ensures Reports(CrashEvents(obs)) == [CrashIssue(obs.errorText)]
  {
    ReportsAppend([Shot("error")], [CrashIssue(obs.errorText)]);
    assert CrashEvents(obs) == [Shot("error")] + [CrashIssue(obs.errorText)];
    ReportsOfShots([Shot("error")]);
    ReportsOfReports([CrashIssue(obs.errorText)]);
  }

  lemma ReportsOfFive(a: seq<Event>, b: seq<Event>, c: seq<Event>, d: seq<Event>, e: seq<Event>)
    ensures Reports(a + b + c + d + e) == Reports(a) + Reports(b) + Reports(c) + Reports(d) + Reports(e)
  {
    ReportsAppend(a, b);
    ReportsAppend(a + b, c);
    ReportsAppend(a + b + c, d);
    ReportsAppend(a + b + c + d, e);
  }

  lemma Regroup(e0: seq<Event>, e1: seq<Event>, e2: seq<Event>, e4: seq<Event>, e5: seq<Event>,
                e6: seq<Event>, e7: seq<Event>, e8: seq<Event>)
    ensures e0 + e1 + e2 + [] + e4 + e5 + e6 + e7 + e8
      == e0 + e1 + e2 + [] + e4 + (e5 + e6) + (e7 + e8)
  {
  }

  /** The issues of a session that does not crash, grouped by step. */
  lemma SurvivingSlots(obs: Observation)
    requires Survives(obs)
    ensures FunnelIssues(obs)
      == Emitted(HttpSlot(obs)) + Emitted(ImagesSlot(obs)) + Emitted(SeatSlot(obs)) + [] + Emitted(CartSlot(obs))
         + (Emitted(LandingSlot(obs)) + Emitted(CheckoutSlot(obs)))
         + (Emitted(ConsoleSlot(obs)) + Emitted(NetworkSlot(obs)))
  {
    var s := IssueSlots(obs);
    FiredNine(s);
    assert Emitted(s[3]) == [];
    Regroup(Emitted(s[0]), Emitted(s[1]), Emitted(s[2]), Emitted(s[4]), Emitted(s[5]),
            Emitted(s[6]), Emitted(s[7]), Emitted(s[8]));
  }

  /** The slots after the crash slot stay silent when the session crashes. */
  lemma CrashedSlots(obs: Observation)
    requires !Survives(obs)
    ensures var s := IssueSlots(obs);
      && Emitted(s[3]) == [CrashIssue(obs.errorText)]
      && FunnelIssues(obs) == Emitted(s[0]) + Emitted(s[1]) + Emitted(s[2]) + [CrashIssue(obs.errorText)]
  {
    var s := IssueSlots(obs);
    FiredNine(s);
    assert Emitted(s[4]) == [] && Emitted(s[5]) == [] && Emitted(s[6]) == [];
    assert Emitted(s[7]) == [] && Emitted(s[8]) == [];
  }

  lemma OpeningReports(obs: Observation)
    ensures Reports(Opening(obs))
      == Emitted(HttpSlot(obs)) + Emitted(ImagesSlot(obs)) + Emitted(SeatSlot(obs))
  {
    LoadReports(obs);
    var load := LoadEvents(obs);
    if !load.1 {
      assert Emitted(SeatSlot(obs)) == [];
    } else {
      SeatReports(obs);
      var seat := SeatEvents(obs);
      ReportsAppend(load.0, seat.0);
      if seat.1 {
        ButtonReports(obs);
        ReportsAppend(load.0 + seat.0, ButtonEvents(obs).0);
      }
    }
  }

  lemma CrashedJourneyReports(obs: Observation)
    requires !Survives(obs)
    ensures Reports(Journey(obs)) == FunnelIssues(obs)
  {
    CrashedSlots(obs);
    OpeningReports(obs);
    CrashReports(obs);
    ReportsAppend(Opening(obs), CrashEvents(obs));
  }

  lemma SurvivingJourneyReports(obs: Observation)
    requires Survives(obs)
    ensures Reports(Journey(obs)) == FunnelIssues(obs)
  {
    SurvivingSlots(obs);
    OpeningReports(obs);
    ColourStepsSilent(obs);
    CartReports(obs);
    CheckoutReports(obs);
    WrapUpReports(obs);
    ReportsOfFive(Opening(obs), ColourEvents(obs), CartEvents(obs), CheckoutEvents(obs), WrapUpEvents(obs));
  }

  /** The session's trace logs exactly the issues whose slots fire, in the
      order of the slots. */
  lemma JourneyReports(obs: Observation)
    ensures Reports(Journey(obs)) == FunnelIssues(obs)
  {
    if Survives(obs) {
      SurvivingJourneyReports(obs);
    } else {
      CrashedJourneyReports(obs);
    }
  }

  /**
   * The colour-button loop keeps the last answer when no candidate is visible:
   * whatever element that answer holds, visible or not, goes through the
   * unguarded hover/click block and its fault decides what is shot; a later
   * selector answering None drops an earlier invisible element and the step
   * is skipped.
   */
  lemma ColourButtonQuirk(obs: Observation)
    ensures (forall j :: 0 <= j < |ColourButtonSelectors| ==>
               !Qualifies(Lookup(obs.colourButtonPage, ColourButtonSelectors[j]))) ==>
      ButtonEvents(obs) ==
        match LastAnswer(ColourButtonSelectors, obs.colourButtonPage, |ColourButtonSelectors|)
        case None => ([], true)
        case Some(j) =>
          UnguardedBlock(Lookup(obs.colourButtonPage, ColourButtonSelectors[j]).element.faultAt,
                         "04_before_color_select", "05_color_options_visible")
  {
    if forall j :: 0 <= j < |ColourButtonSelectors| ==>
         !Qualifies(Lookup(obs.colourButtonPage, ColourButtonSelectors[j])) {
      HeldIsLastAnswer(ColourButtonSelectors, obs.colourButtonPage, 0);
    }
  }

}
