/**
 * The selector-fallback loops of `test_url` (shopify_qa.py): each walks an
 * ordered list of selectors, queries each one, and stops at the first
 * candidate that passes its test; a raising query or probe skips to the next
 * candidate. The loops differ in their test and in what they do with a
 * candidate, and this module keeps those differences.
 */
module Resolver {
  import opened Wrappers
  import opened Page
  import opened Journal
  import Text

  // ---------------------------------------------------------------------------
  // Seat option (shopify_qa.py:116-124): the first selector whose query returns
  // an element; nothing is probed.

  /** The index of the first candidate, from `from` on, whose query returns an element. */
  function FirstFound(candidates: seq<string>, page: PageState, from: nat): (r: Option<nat>)
    ensures r.Some? ==> from <= r.value < |candidates| && Lookup(page, candidates[r.value]).Found?
    decreases |candidates| - from
  {
    if from >= |candidates| then None
    else if Lookup(page, candidates[from]).Found? then Some(from)
    else FirstFound(candidates, page, from + 1)
  }

  /** The seat loop. `queried` is the number of `query_selector` calls it makes. */
  method FindSeatOption(candidates: seq<string>, page: PageState) returns (chosen: Option<nat>, queried: nat)
    ensures chosen == FirstFound(candidates, page, 0)
    ensures chosen.Some? ==>
      && chosen.value < |candidates|
      && Lookup(page, candidates[chosen.value]).Found?
      && (forall j :: 0 <= j < chosen.value ==> !Lookup(page, candidates[j]).Found?)
      && queried == chosen.value + 1
    ensures chosen.None? ==>
      && (forall j :: 0 <= j < |candidates| ==> !Lookup(page, candidates[j]).Found?)
      && queried == |candidates|
  {
    chosen, queried := None, 0;
    var i := 0;
    while i < |candidates|
      invariant 0 <= i <= |candidates| && queried == i && chosen.None?
      invariant forall j :: 0 <= j < i ==> !Lookup(page, candidates[j]).Found?
      invariant FirstFound(candidates, page, i) == FirstFound(candidates, page, 0)
    {
      var answer := Lookup(page, candidates[i]);
      queried := queried + 1;
      if answer.Found? {
        chosen := Some(i);
        break;
      }
      // None, or the query raised: `continue` with the next selector
      i := i + 1;
    }
  }

  // ---------------------------------------------------------------------------
  // Colour button (shopify_qa.py:191-199): `color_button` is overwritten by
  // every query that does not raise, and the loop stops at the first visible
  // one. When none is visible the variable keeps the last answer.

  /** The query answered and gave a visible element without `is_visible()` raising. */
  predicate Qualifies(answer: Query) {
    answer.Found? && answer.element.faultAt != AtProbe && answer.element.visible
  }

  /** The candidate `color_button` holds after the loop, when it starts at
      `from` holding `held`. */
  function HeldButton(candidates: seq<string>, page: PageState, from: nat, held: Option<nat>): (r: Option<nat>)
    requires held.Some? ==> held.value < |candidates| && Lookup(page, candidates[held.value]).Found?
    ensures r.Some? ==> r.value < |candidates| && Lookup(page, candidates[r.value]).Found?
    decreases |candidates| - from
  {
    if from >= |candidates| then held
    else match Lookup(page, candidates[from])
      case Raises => HeldButton(candidates, page, from + 1, held)
      case Null => HeldButton(candidates, page, from + 1, None)
      case Found(e) =>
        if e.faultAt != AtProbe && e.visible then Some(from)
        else HeldButton(candidates, page, from + 1, Some(from))
  }

  /** The answer of the last query, among the first `n`, that did not raise;
      `None` if it returned None or every query raised. */
  function LastAnswer(candidates: seq<string>, page: PageState, n: nat): (r: Option<nat>)
    requires n <= |candidates|
    ensures r.Some? ==> r.value < n && Lookup(page, candidates[r.value]).Found?
  {
    if n == 0 then None
    else match Lookup(page, candidates[n - 1])
      case Raises => LastAnswer(candidates, page, n - 1)
      case Null => None
      case Found(_) => Some(n - 1)
  }

  /** The colour-button loop: the first qualifying candidate if there is one,
      otherwise whatever the last non-raising query returned, visible or not. */
  method FindColourButton(candidates: seq<string>, page: PageState) returns (held: Option<nat>)
    ensures held == HeldButton(candidates, page, 0, None)
    ensures held.Some? ==> held.value < |candidates| && Lookup(page, candidates[held.value]).Found?
    ensures (exists j :: 0 <= j < |candidates| && Qualifies(Lookup(page, candidates[j]))) ==>
      && held.Some?
      && Qualifies(Lookup(page, candidates[held.value]))
      && forall j :: 0 <= j < held.value ==> !Qualifies(Lookup(page, candidates[j]))
    ensures (forall j :: 0 <= j < |candidates| ==> !Qualifies(Lookup(page, candidates[j]))) ==>
      held == LastAnswer(candidates, page, |candidates|)
  {
    held := None;
    var i := 0;
    while i < |candidates|
      invariant 0 <= i <= |candidates|
      invariant held.Some? ==> held.value < i && Lookup(page, candidates[held.value]).Found?
      invariant HeldButton(candidates, page, i, held) == HeldButton(candidates, page, 0, None)
      invariant forall j :: 0 <= j < i ==> !Qualifies(Lookup(page, candidates[j]))
      invariant held == LastAnswer(candidates, page, i)
    {
      match Lookup(page, candidates[i]) {
        case Raises =>
        case Null =>
          held := None;
        case Found(e) =>
          held := Some(i);
          if e.faultAt != AtProbe && e.visible {
            break;
          }
      }
      i := i + 1;
    }
  }

  /** When no candidate qualifies, the loop ends holding the last answer of a
      query that did not raise, visible or not. */
  lemma {:induction false} HeldIsLastAnswer(candidates: seq<string>, page: PageState, from: nat)
    requires from <= |candidates|
    requires forall j :: from <= j < |candidates| ==> !Qualifies(Lookup(page, candidates[j]))
    ensures HeldButton(candidates, page, from, LastAnswer(candidates, page, from))
            == LastAnswer(candidates, page, |candidates|)
    decreases |candidates| - from
  {
    if from < |candidates| {
      assert LastAnswer(candidates, page, from + 1) ==
        match Lookup(page, candidates[from])
        case Raises => LastAnswer(candidates, page, from)
        case Null => None
        case Found(_) => Some(from);
      HeldIsLastAnswer(candidates, page, from + 1);
    }
  }

  // ---------------------------------------------------------------------------
  // The stages that act inside the loop: colour option (shopify_qa.py:241-271),
  // add to cart (289-320) and checkout (349-407). A candidate that passes the
  // gate is hovered, photographed, clicked and photographed again; an
  // exception anywhere in that block moves on to the next candidate.

  /** How one candidate of an acting stage ends. `shot` says whether the first
      screenshot was taken before the block raised. */
  datatype Attempt = Skipped(shot: bool) | Completed(element: Element)

  function Try(answer: Query, gate: Gate): (r: Attempt)
    ensures r.Completed? <==> answer.Found? && Admits(gate, answer.element) && answer.element.faultAt == Never
    ensures r.Completed? ==> r.element == answer.element
    ensures r == Skipped(true) <==> answer.Found? && Admits(gate, answer.element) && answer.element.faultAt == AtClick
  {
    match answer
    case Raises => Skipped(false)
    case Null => Skipped(false)
    case Found(e) =>
      if !Admits(gate, e) then Skipped(false)
      else match e.faultAt
        case AtProbe => Skipped(false)
        case AtHover => Skipped(false)
        case AtClick => Skipped(true)
        case Never => Completed(e)
  }

  /** One acting stage: its selectors, its gate, the step names of its two
      screenshots, and whether it checks the URL it lands on. */
  datatype Stage = Stage(
    candidates: seq<string>,
    gate: Gate,
    before: string,
    after: string,
    verifiesCheckout: bool)

  const CheckoutNavigationCategory: string := "Checkout Navigation"

  /** The URL check after a checkout click (shopify_qa.py:386-401). */
  function Arrival(url: string): seq<Event> {
    if Text.Contains(Text.Lower(url), "checkout") then []
    else [Report(High, CheckoutNavigationCategory, "Clicked checkout but URL is: " + url)]
  }

  /** The events of a candidate whose whole block runs. */
  function Completion(stage: Stage, e: Element): seq<Event> {
    [Shot(stage.before), Shot(stage.after)] + (if stage.verifiesCheckout then Arrival(e.target) else [])
  }

  /** The first candidate, from `from` on, whose whole block runs. */
  function FirstCompleted(stage: Stage, page: PageState, from: nat): (r: Option<nat>)
    ensures r.Some? ==> from <= r.value < |stage.candidates| && Lookup(page, stage.candidates[r.value]).Found?
    decreases |stage.candidates| - from
  {
    if from >= |stage.candidates| then None
    else if Try(Lookup(page, stage.candidates[from]), stage.gate).Completed? then Some(from)
    else FirstCompleted(stage, page, from + 1)
  }

  /** The screenshots and issues of the stage's loop, from candidate `from` on. */
  function StageEvents(stage: Stage, page: PageState, from: nat): seq<Event>
    decreases |stage.candidates| - from
  {
    if from >= |stage.candidates| then []
    else match Try(Lookup(page, stage.candidates[from]), stage.gate)
      case Completed(e) => Completion(stage, e)
      case Skipped(shot) => (if shot then [Shot(stage.before)] else []) + StageEvents(stage, page, from + 1)
  }

  /** What candidate `i` contributes to the stage's events and choice: one
      unfolding of both definitions, a proof step for `RunStage`. */
  lemma StageStep(stage: Stage, page: PageState, i: nat)
    requires i < |stage.candidates|
    ensures match Try(Lookup(page, stage.candidates[i]), stage.gate)
      case Completed(e) =>
        && StageEvents(stage, page, i) == Completion(stage, e)
        && FirstCompleted(stage, page, i) == Some(i)
      case Skipped(shot) =>
        && StageEvents(stage, page, i) == (if shot then [Shot(stage.before)] else []) + StageEvents(stage, page, i + 1)
        && FirstCompleted(stage, page, i) == FirstCompleted(stage, page, i + 1)
  {
  }

  function CompletedAt(stage: Stage, page: PageState, i: nat): bool
    requires i < |stage.candidates|
  {
    Try(Lookup(page, stage.candidates[i]), stage.gate).Completed?
  }

  /** The stage's flag (`color_selected`, `cart_added`, `checkout_clicked`) is
      set exactly when some candidate's block runs to the end, and the chosen
      candidate is the first such one. */
  lemma {:induction false} FirstCompletedIsFirst(stage: Stage, page: PageState, from: nat)
    requires from <= |stage.candidates|
    ensures var r := FirstCompleted(stage, page, from);
      && (r.Some? ==>
            && from <= r.value < |stage.candidates|
            && CompletedAt(stage, page, r.value)
            && forall j :: from <= j < r.value ==> !CompletedAt(stage, page, j))
      && (r.None? <==> forall j :: from <= j < |stage.candidates| ==> !CompletedAt(stage, page, j))
    decreases |stage.candidates| - from
  {
    if from < |stage.candidates| && !CompletedAt(stage, page, from) {
      FirstCompletedIsFirst(stage, page, from + 1);
    }
  }

  /** The only issue an acting stage logs itself is the checkout URL check of
      its chosen candidate. */
  lemma {:induction false} StageReports(stage: Stage, page: PageState, from: nat)
    ensures Reports(StageEvents(stage, page, from)) ==
      match FirstCompleted(stage, page, from)
      case Some(i) =>
        if stage.verifiesCheckout then Arrival(Lookup(page, stage.candidates[i]).element.target) else []
      case None => []
    decreases |stage.candidates| - from
  {
    if from < |stage.candidates| {
      var answer := Lookup(page, stage.candidates[from]);
      match Try(answer, stage.gate)
      case Completed(e) =>
        var tail := if stage.verifiesCheckout then Arrival(e.target) else [];
        ReportsAppend([Shot(stage.before), Shot(stage.after)], tail);
        assert Reports([Shot(stage.before), Shot(stage.after)]) == [] by {
          assert [Shot(stage.before), Shot(stage.after)][..1] == [Shot(stage.before)];
        }
        assert Reports(tail) == tail by {
          if tail != [] {
            assert tail[..0] == [];
          }
        }
      case Skipped(shot) =>
        var head: seq<Event> := if shot then [Shot(stage.before)] else [];
        ReportsAppend(head, StageEvents(stage, page, from + 1));
        assert Reports(head) == [] by {
          if shot {
            assert head[..0] == [];
          }
        }
        StageReports(stage, page, from + 1);
    }
  }
}
