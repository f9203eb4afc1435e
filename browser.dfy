/** The automation library as the session sees it: an abstract page, the
    outcome of an explicit wait for an element, the select-control operations
    the dropdown helpers use, and a driver object that records what was done
    to it. Polling, timing and real browsers are not modelled: a wait either
    locates the first element matching the selector or fails with a kind. */
module Browser {
  import opened Outcomes

  /** A locator expression such as an XPath. */
  type Selector = string

  /** What the session can read from an element. `options` and
      `selectedOption` are meaningful for select controls only. */
  datatype Element = Element(
    text: string,
    attributes: map<string, string>,
    cssValues: map<string, string>,
    displayed: bool,
    selected: bool,
    enabled: bool,
    options: seq<string>,
    selectedOption: Option<nat>)

  /** The rendered page: the elements each selector matches, in document
      order, and the selectors whose lookup fails with a given kind (a stale
      reference, an element that cannot be interacted with, ...). */
  datatype Page = Page(matches: map<Selector, seq<Element>>, faults: map<Selector, FailureKind>)

  const BlankPage := Page(map[], map[])

  /** The result of waiting for an element. */
  datatype WaitOutcome = Located(element: Element) | Failed(kind: FailureKind)

  function Matches(page: Page, sel: Selector): seq<Element>
  {
    if sel in page.matches then page.matches[sel] else []
  }

  /** `Until(FindElement(sel))`: the first match, a selector's fault, or a
      Timeout when nothing matches before the deadline. */
  function WaitFor(page: Page, sel: Selector): WaitOutcome
  {
    if sel in page.faults then Failed(page.faults[sel])
    else if |Matches(page, sel)| > 0 then Located(Matches(page, sel)[0])
    else Failed(Timeout)
  }

  /** `FindElements(sel).Count`: the number of matches, zero when nothing
      matches, or the selector's fault. */
  function CountMatches(page: Page, sel: Selector): Outcome<nat>
  {
    if sel in page.faults then Raised(page.faults[sel]) else Returned(|Matches(page, sel)|)
  }

  /** The page after the first element matching `sel` became `e`. */
  function ReplaceFirst(page: Page, sel: Selector, e: Element): Page
    requires |Matches(page, sel)| > 0
  {
    page.(matches := page.matches[sel := [e] + Matches(page, sel)[1..]])
  }

  /** `SelectedOption.Text` of a select control. */
  function SelectedText(e: Element): Outcome<string>
  {
    match e.selectedOption
    case Some(i) => if i < |e.options| then Returned(e.options[i]) else Raised(NoSuchElement)
    case None => Raised(NoSuchElement)
  }

  /** `SelectByIndex(index)`: the control with that option selected, or
      NoSuchElement when no option has that index. */
  function SelectByIndex(e: Element, index: int): Outcome<Element>
  {
    if 0 <= index < |e.options| then Returned(e.(selectedOption := Some(index)))
    else Raised(NoSuchElement)
  }

  /** `part` occurs in `s` at some position. */
  predicate Contains(s: string, part: string)
    decreases |s|
  {
    part <= s || (s != [] && Contains(s[1..], part))
  }

  predicate OptionMatches(option: string, text: string, partialMatch: bool)
  {
    if partialMatch then Contains(option, text) else option == text
  }

  /** The first index at or after `from` whose option satisfies `p`. */
  function FirstFrom(options: seq<string>, from: nat, p: string -> bool): (r: Option<nat>)
    ensures r.Some? ==> from <= r.value < |options| && p(options[r.value])
    ensures r.Some? ==> forall j :: from <= j < r.value ==> !p(options[j])
    ensures r.None? ==> forall j :: from <= j < |options| ==> !p(options[j])
    decreases |options| - from
  {
    if from >= |options| then None
    else if p(options[from]) then Some(from)
    else FirstFrom(options, from + 1, p)
  }

  /** `SelectByText(text, partialMatch)` on a single-choice control: the first
      matching option becomes the selection; NoSuchElement when none matches. */
  function SelectByText(e: Element, text: string, partialMatch: bool): Outcome<Element>
  {
    match FirstFrom(e.options, 0, o => OptionMatches(o, text, partialMatch))
    case Some(i) => Returned(e.(selectedOption := Some(i)))
    case None => Raised(NoSuchElement)
  }

  /** The option `SelectDropdownOptionOtherThanSpecified` picks: the first one
      from index 1 on whose text differs from `excluded`. */
  function FirstOtherThan(options: seq<string>, excluded: string): Option<nat>
  {
    FirstFrom(options, 1, o => o != excluded)
  }

  /** SelectByText succeeds exactly when some option matches; it then
      selects the first matching option and leaves the options as they were,
      and otherwise fails with NoSuchElement. */
  lemma SelectByTextSelectsFirstMatch(e: Element, text: string, partialMatch: bool)
    ensures SelectByText(e, text, partialMatch).Returned? <==>
              exists i :: 0 <= i < |e.options| && OptionMatches(e.options[i], text, partialMatch)
    ensures SelectByText(e, text, partialMatch).Raised? ==> SelectByText(e, text, partialMatch).kind == NoSuchElement
    ensures SelectByText(e, text, partialMatch).Returned? ==>
              var c := SelectByText(e, text, partialMatch).value;
              c == e.(selectedOption := c.selectedOption) &&
              c.selectedOption.Some? && c.selectedOption.value < |e.options| &&
              OptionMatches(e.options[c.selectedOption.value], text, partialMatch) &&
              forall j :: 0 <= j < c.selectedOption.value ==> !OptionMatches(e.options[j], text, partialMatch)
  {
    var p := (o: string) => OptionMatches(o, text, partialMatch);
    var f := FirstFrom(e.options, 0, p);
    if f.Some? {
      assert OptionMatches(e.options[f.value], text, partialMatch);
    }
  }

  /** Selecting an option by its exact text and then reading the selection
      gives that text back. */
  lemma SelectByTextThenSelectedText(e: Element, text: string)
    requires SelectByText(e, text, false).Returned?
    ensures SelectedText(SelectByText(e, text, false).value) == Returned(text)
  {
    SelectByTextSelectsFirstMatch(e, text, false);
  }

  /** Selecting an option by index and then reading the selection gives that
      option's text; an index outside the options fails and selects nothing. */
  lemma SelectByIndexThenSelectedText(e: Element, index: int)
    ensures 0 <= index < |e.options| ==>
              SelectByIndex(e, index).Returned? &&
              SelectByIndex(e, index).value.options == e.options &&
              SelectedText(SelectByIndex(e, index).value) == Returned(e.options[index])
    ensures !(0 <= index < |e.options|) ==> SelectByIndex(e, index) == Raised(NoSuchElement)
  {
  }

  /** The option picked is never the first one, never the excluded text, and
      every option it skips from index 1 is the excluded text; there is none
      exactly when all options from index 1 are the excluded text. */
  lemma FirstOtherThanPicks(options: seq<string>, excluded: string)
    ensures FirstOtherThan(options, excluded).Some? ==>
              var j := FirstOtherThan(options, excluded).value;
              1 <= j < |options| && options[j] != excluded &&
              forall k :: 1 <= k < j ==> options[k] == excluded
    ensures FirstOtherThan(options, excluded).None? <==>
              forall k :: 1 <= k < |options| ==> options[k] == excluded
  {
    var p := (o: string) => o != excluded;
    var f := FirstFrom(options, 1, p);
    if f.Some? {
      assert p(options[f.value]);
    }
  }

  /** The list of animals {Dog, Wolf, Bear, Fox} with Bear excluded: Wolf is
      picked; with Wolf excluded, Bear is; a list of Bears gives nothing. */
  lemma FirstOtherThanAnimals()
    ensures FirstOtherThan(["Dog", "Wolf", "Bear", "Fox"], "Bear") == Some(1)
    ensures FirstOtherThan(["Dog", "Wolf", "Bear", "Fox"], "Wolf") == Some(2)
    ensures FirstOtherThan(["Bear", "Bear"], "Bear") == None
  {
  }

  /** Replacing the first match changes what a wait for that selector
      locates and nothing that a wait for another selector locates. */
  lemma ReplaceFirstLocates(page: Page, sel: Selector, e: Element)
    requires sel !in page.faults && |Matches(page, sel)| > 0
    ensures WaitFor(ReplaceFirst(page, sel, e), sel) == Located(e)
    ensures forall other :: other != sel ==> WaitFor(ReplaceFirst(page, sel, e), other) == WaitFor(page, other)
  {
  }

  datatype BrowserKind = Chrome | Edge

  /** Actions the session performs on elements, in the order performed. */
  datatype Action = Clicked(target: Selector) | KeysSent(target: Selector, keys: string) | Cleared(target: Selector)

  /** A live driver bound to one browser process. */
  class WebDriver {
    const kind: BrowserKind
    const arguments: seq<string>
    const binaryLocation: Option<string>
    var page: Page
    var url: Option<string>
    var actions: seq<Action>
    var quitCalls: nat

    /** A driver that has shown nothing, done nothing and not been quit. */
    predicate Unused()
      reads this
    {
      page == BlankPage && url == None && actions == [] && quitCalls == 0
    }

    constructor (kind: BrowserKind, arguments: seq<string>, binaryLocation: Option<string>)
      ensures this.kind == kind && this.arguments == arguments && this.binaryLocation == binaryLocation
      ensures Unused()
    {
      this.kind := kind;
      this.arguments := arguments;
      this.binaryLocation := binaryLocation;
      page := BlankPage;
      url := None;
      actions := [];
      quitCalls := 0;
    }

    /** `Navigate().GoToUrl(target)`; the page the browser then shows is an oracle. */
    method GoToUrl(target: Option<string>, loaded: Page)
      modifies this
      ensures url == target && page == loaded
      ensures actions == old(actions) && quitCalls == old(quitCalls)
    {
      url := target;
      page := loaded;
    }

    /** `Quit()`: ends the browser process. */
    method Quit()
      modifies this
      ensures quitCalls == old(quitCalls) + 1
      ensures page == old(page) && url == old(url) && actions == old(actions)
    {
      quitCalls := quitCalls + 1;
    }
  }
}
