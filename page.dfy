/**
 * The page, as the selector loops of `test_url` see it: an oracle that answers
 * `page.query_selector(selector)` and decides how the element it returns
 * behaves when it is probed and acted on.
 */
module Page {

  /**
   * The first interaction with an element that raises. From that point on the
   * element is treated as detached: every later interaction raises too.
   *  - AtProbe: `is_visible()` (and everything after it) raises;
   *  - AtHover: `scroll_into_view_if_needed()`, the seat label lookup or
   *    `hover()` raises;
   *  - AtClick: `click()` raises, or for a checkout button the
   *    `wait_for_load_state('networkidle')` that follows the click times out.
   */
  datatype Fault = Never | AtProbe | AtHover | AtClick

  /**
   * An element handle. `target` is the page URL (`page.url`) once the element
   * has been clicked and the page has settled; only the checkout step reads it.
   */
  datatype Element = Element(visible: bool, enabled: bool, faultAt: Fault, target: string)

  /** What `await page.query_selector(selector)` does: raise, return None, or
      return an element. */
  datatype Query = Raises | Null | Found(element: Element)

  /** The page during one step of the funnel; selectors not in the map match nothing. */
  type PageState = map<string, Query>

  function Lookup(page: PageState, selector: string): Query {
    if selector in page then page[selector] else Null
  }

  /** The condition a candidate must meet before a step acts on it. */
  datatype Gate =
    | Visible          // `el and await el.is_visible()`
    | VisibleEnabled   // `el and await el.is_visible() and await el.is_enabled()`

  /** The gate holds of an element (only asked when `is_visible()` does not raise). */
  predicate Admits(gate: Gate, e: Element) {
    e.visible && (gate == VisibleEnabled ==> e.enabled)
  }
}
