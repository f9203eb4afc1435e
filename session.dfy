/** EAF.Core/Base/Session.cs: the per-test session. It reads its configuration
    from the test runner, builds the logger name and (for UI tests) a browser
    driver, wraps every element interaction in an explicit wait with a fixed
    catch filter, and on teardown attaches diagnostics and quits the driver. */
module Base {
  import opened Outcomes
  import opened Sequences
  import opened Browser
  import Utilities
  import Configuration

  /** The default of `SetupDriverWait`, the only timeout the session uses. */
  const DefaultWaitMilliseconds: int := 5000

  /** An explicit wait bound to the session's driver. */
  datatype WaitPolicy = WaitPolicy(timeoutMilliseconds: int)

  /** The test outcomes the runner reports at teardown. */
  datatype ResultState = Success | Inconclusive | Failure | Error | Cancelled | Skipped | Ignored

  datatype AssertionResult = AssertionResult(status: string, message: string, stackTrace: string)

  /** What teardown leaves behind: files attached to the test report and
      screenshots written to disk. */
  datatype ReportEvent = Attached(path: string) | ScreenshotSaved(path: string)

  /** The test runner's view of the running test: its parameters, name,
      outcome and recorded assertions, and the report it collects. */
  class TestContext {
    const parameters: map<string, string>
    const testName: string
    const outcome: ResultState
    const assertions: seq<AssertionResult>
    var events: seq<ReportEvent>

    constructor (parameters: map<string, string>, testName: string, outcome: ResultState, assertions: seq<AssertionResult>)
      ensures this.parameters == parameters && this.testName == testName
      ensures this.outcome == outcome && this.assertions == assertions
      ensures events == []
    {
      this.parameters := parameters;
      this.testName := testName;
      this.outcome := outcome;
      this.assertions := assertions;
      events := [];
    }

    /** `TestContext.Parameters[name]`: null when the parameter is not set. */
    function Parameter(name: string): Option<string>
    {
      if name in parameters then Some(parameters[name]) else None
    }
  }

  /** The outcomes on which teardown captures diagnostics. */
  predicate IsFailedOutcome(outcome: ResultState)
  {
    outcome != Success && outcome != Inconclusive
  }

  class Session {
    var driver: WebDriver?
    var driverWait: Option<WaitPolicy>
    var urlUnderTest: Option<string>
    var targetBrowser: Option<string>
    var uiTestCase: bool
    var enableIncognito: bool
    /** The logger, represented by the file it writes to. */
    var logger: Option<string>
    var loggerUid: string
    var pipelineRun: bool
    var testName: string
    var runHeadless: bool

    /** `new Session()`: every reference null and every flag false. A null
        `LoggerUid` or `TestName` is only ever interpolated, where it reads as
        the empty string. */
    constructor ()
      ensures driver == null && driverWait == None && logger == None
      ensures urlUnderTest == None && targetBrowser == None
      ensures !uiTestCase && !enableIncognito && !pipelineRun && !runHeadless
      ensures loggerUid == "" && testName == ""
    {
      driver := null;
      driverWait := None;
      urlUnderTest := None;
      targetBrowser := None;
      uiTestCase := false;
      enableIncognito := false;
      logger := None;
      loggerUid := "";
      pipelineRun := false;
      testName := "";
      runHeadless := false;
    }

    /** The fields SetupSession sets from its arguments and the test context:
        the URL, the test name, the two flags it is given, the logger named
        `{TestName}-{ShortUid}` and writing to that name plus `.txt`, and the
        two flags parsed from the parameters. */
    ghost predicate ConfiguredFrom(context: TestContext, uiTestCase: bool, runHeadless: bool, guidBase64: string)
      reads this`urlUnderTest, this`testName, this`runHeadless, this`uiTestCase, this`loggerUid,
            this`logger, this`pipelineRun, this`enableIncognito
    {
      urlUnderTest == context.Parameter("ApplicationURL") &&
      testName == context.testName &&
      this.runHeadless == runHeadless && this.uiTestCase == uiTestCase &&
      loggerUid == context.testName + "-" + Utilities.ShortUid(guidBase64) &&
      logger == Some(loggerUid + ".txt") &&
      pipelineRun == Configuration.ParseFlag(context.Parameter("PipelineRun")) &&
      enableIncognito == Configuration.ParseFlag(context.Parameter("EnableIncognito"))
    }

    /** SetupSession. `guidBase64` is the base64 text of the GUID behind the
        logger's unique id. */
    method SetupSession(uiTestCase: bool, runHeadless: bool, context: TestContext, guidBase64: string)
      returns (self: Session)
      modifies this
      ensures self == this
      ensures ConfiguredFrom(context, uiTestCase, runHeadless, guidBase64)
      ensures targetBrowser == if uiTestCase then context.Parameter("TargetBrowser") else old(targetBrowser)
      ensures StartedTargetBrowser()
      ensures driver != null ==> fresh(driver)
      ensures driver != null && targetBrowser == Some("Edge") ==>
                driver.binaryLocation == context.Parameter("EdgeBrowserBinaryLocation")
      ensures driverWait == Some(WaitPolicy(DefaultWaitMilliseconds))
    {
      driver := null;
      Configure(uiTestCase, runHeadless, context, guidBase64);
      StartTargetBrowser(context);
      driverWait := Some(WaitPolicy(DefaultWaitMilliseconds));
      self := this;
    }

    /** The configuration block of SetupSession, up to the browser choice. */
    method Configure(uiTestCase: bool, runHeadless: bool, context: TestContext, guidBase64: string)
      modifies this`urlUnderTest, this`testName, this`runHeadless, this`uiTestCase, this`loggerUid,
               this`logger, this`pipelineRun, this`enableIncognito
      ensures ConfiguredFrom(context, uiTestCase, runHeadless, guidBase64)
    {
      urlUnderTest := context.Parameter("ApplicationURL");
      testName := context.testName;
      this.runHeadless := runHeadless;
      var logFile := SetupLogger(guidBase64);
      logger := Some(logFile);
      this.uiTestCase := uiTestCase;
      pipelineRun := Configuration.ParseFlag(context.Parameter("PipelineRun"));
      enableIncognito := Configuration.ParseFlag(context.Parameter("EnableIncognito"));
    }

    /** The driver SetupSession leaves behind: one exactly for a UI test whose
        target browser is "Chrome" or "Edge" (compared case-sensitively),
        unused, of that kind and started with the arguments the flags ask
        for; none otherwise. */
    ghost predicate StartedTargetBrowser()
      reads this`driver, this`uiTestCase, this`targetBrowser, this`enableIncognito,
            this`runHeadless, this`pipelineRun, driver
    {
      (driver != null <==> uiTestCase && (targetBrowser == Some("Chrome") || targetBrowser == Some("Edge"))) &&
      (driver != null ==> driver.Unused()) &&
      (driver != null && targetBrowser == Some("Chrome") ==>
         driver.kind == Chrome && driver.binaryLocation == None &&
         Configuration.IsChromeArgumentList(driver.arguments, enableIncognito, runHeadless, pipelineRun)) &&
      (driver != null && targetBrowser == Some("Edge") ==>
         driver.kind == Edge &&
         Configuration.IsEdgeArgumentList(driver.arguments, runHeadless, pipelineRun))
    }

    /** The browser block of SetupSession: for a UI test, reads the target
        browser and starts the matching driver. */
    method StartTargetBrowser(context: TestContext)
      requires driver == null
      modifies this`targetBrowser, this`driver
      ensures targetBrowser == if uiTestCase then context.Parameter("TargetBrowser") else old(targetBrowser)
      ensures driver != null ==> fresh(driver)
      ensures driver != null && targetBrowser == Some("Edge") ==>
                driver.binaryLocation == context.Parameter("EdgeBrowserBinaryLocation")
      ensures StartedTargetBrowser()
    {
      if uiTestCase {
        targetBrowser := context.Parameter("TargetBrowser");
        if targetBrowser == Some("Chrome") {
          var _ := SetupChromeWebDriver();
        } else if targetBrowser == Some("Edge") {
          var _ := SetupEdgeWebDriver(context);
        }
      }
    }

    /** SetupLogger: names the log after the test and a short unique id and
        returns the file the logger writes to. */
    method SetupLogger(guidBase64: string) returns (logFile: string)
      modifies this`loggerUid
      ensures loggerUid == testName + "-" + Utilities.ShortUid(guidBase64)
      ensures logFile == loggerUid + ".txt"
    {
      var a := Utilities.ShortUid(guidBase64);
      loggerUid := testName + "-" + a;
      logFile := loggerUid + ".txt";
    }

    /** SetupChromeWebDriver: a Chrome driver started with the arguments the
        session's flags ask for, stored in `driver` and returned. */
    method SetupChromeWebDriver() returns (d: WebDriver)
      modifies this`driver
      ensures fresh(d) && driver == d
      ensures d.kind == Chrome && d.binaryLocation == None
      ensures Configuration.IsChromeArgumentList(d.arguments, enableIncognito, runHeadless, pipelineRun)
      ensures d.Unused()
    {
      var args := Configuration.ChromeArguments(enableIncognito, runHeadless, pipelineRun);
      Configuration.ChromeChoiceIsArgumentList(enableIncognito, runHeadless, pipelineRun);
      d := new WebDriver(Chrome, args, None);
      driver := d;
    }

    /** SetupEdgeWebDriver: a Chromium Edge driver at the configured binary
        location, started with the arguments the session's flags ask for. */
    method SetupEdgeWebDriver(context: TestContext) returns (d: WebDriver)
      modifies this`driver
      ensures fresh(d) && driver == d
      ensures d.kind == Edge && d.binaryLocation == context.Parameter("EdgeBrowserBinaryLocation")
      ensures Configuration.IsEdgeArgumentList(d.arguments, runHeadless, pipelineRun)
      ensures d.Unused()
    {
      var args := Configuration.EdgeArguments(runHeadless, pipelineRun);
      Configuration.EdgeChoiceIsArgumentList(runHeadless, pipelineRun);
      d := new WebDriver(Edge, args, context.Parameter("EdgeBrowserBinaryLocation"));
      driver := d;
    }

    /** `DriverWait.Until(e => e.FindElement(sel))`. Without a driver or a
        wait the call fails on a null reference. */
    function Lookup(sel: Selector): WaitOutcome
      reads this, driver
    {
      if driver == null || driverWait.None? then Failed(NullReference) else WaitFor(driver.page, sel)
    }

    /** The body of a wrapper's try block: wait, then act on the element. */
    function Attempt<T>(sel: Selector, act: Element -> Outcome<T>): Outcome<T>
      reads this, driver
    {
      match Lookup(sel)
      case Located(e) => act(e)
      case Failed(k) => Raised(k)
    }

    /** SelectElement: the located select control, or the wait's failure. */
    function SelectElement(sel: Selector): (r: Outcome<Element>)
      reads this, driver
      ensures Lookup(sel).Located? ==> r == Returned(Lookup(sel).element)
      ensures Lookup(sel).Failed? ==> r == Raised(Lookup(sel).kind)
    {
      StrictCatch(Attempt(sel, (e: Element) => Returned(e)))
    }

    /** SelectElementText: the text of the selected option. */
    function SelectElementText(sel: Selector): (r: Outcome<string>)
      reads this, driver
      ensures Lookup(sel).Failed? ==> r == Raised(Lookup(sel).kind)
      ensures r.Returned? ==>
                Lookup(sel).Located? &&
                var e := Lookup(sel).element;
                e.selectedOption.Some? && e.selectedOption.value < |e.options| &&
                r.value == e.options[e.selectedOption.value]
      ensures Lookup(sel).Located? && r.Raised? ==> r.kind == NoSuchElement
      ensures Lookup(sel).Located? ==> r == SelectedText(Lookup(sel).element)
    {
      StrictCatch(Attempt(sel, SelectedText))
    }

    /** ElementText. */
    function ElementText(sel: Selector): (r: Outcome<string>)
      reads this, driver
      ensures Lookup(sel).Located? ==> r == Returned(Lookup(sel).element.text)
      ensures Lookup(sel).Failed? ==> r == Raised(Lookup(sel).kind)
    {
      StrictCatch(Attempt(sel, (e: Element) => Returned(e.text)))
    }

    /** ElementAttributeValue: the attribute's value, or null when the element
        has no such attribute. */
    function ElementAttributeValue(sel: Selector, htmlAttribute: string := "value"): (r: Outcome<Option<string>>)
      reads this, driver
      ensures Lookup(sel).Located? ==>
                r.Returned? && (r.value.Some? <==> htmlAttribute in Lookup(sel).element.attributes) &&
                (r.value.Some? ==> r.value.value == Lookup(sel).element.attributes[htmlAttribute])
      ensures Lookup(sel).Failed? ==> r == Raised(Lookup(sel).kind)
    {
      StrictCatch(Attempt(sel, (e: Element) => Returned(if htmlAttribute in e.attributes then Some(e.attributes[htmlAttribute]) else None)))
    }

    /** ElementCssValue: the property's value, or null when the element does
        not report one. */
    function ElementCssValue(sel: Selector, cssAttribute: string): (r: Outcome<Option<string>>)
      reads this, driver
      ensures Lookup(sel).Located? ==>
                r.Returned? && (r.value.Some? <==> cssAttribute in Lookup(sel).element.cssValues) &&
                (r.value.Some? ==> r.value.value == Lookup(sel).element.cssValues[cssAttribute])
      ensures Lookup(sel).Failed? ==> r == Raised(Lookup(sel).kind)
    {
      StrictCatch(Attempt(sel, (e: Element) => Returned(if cssAttribute in e.cssValues then Some(e.cssValues[cssAttribute]) else None)))
    }

    /** ElementDisplayed: the element's flag; `false` when the wait fails with
        Timeout, ElementNotInteractable or NoSuchElement; any other failure
        escapes unchanged. */
    function ElementDisplayed(sel: Selector): (r: Outcome<bool>)
      reads this, driver
      ensures Lookup(sel).Located? ==> r == Returned(Lookup(sel).element.displayed)
      ensures Lookup(sel).Failed? ==> (r == Returned(false) <==> InStateCheckFilter(Lookup(sel).kind))
      ensures Lookup(sel).Failed? && !InStateCheckFilter(Lookup(sel).kind) ==> r == Raised(Lookup(sel).kind)
    {
      StateCheckCatch(Attempt(sel, (e: Element) => Returned(e.displayed)))
    }

    /** ElementSelected: as ElementDisplayed, for the selected flag. */
    function ElementSelected(sel: Selector): (r: Outcome<bool>)
      reads this, driver
      ensures Lookup(sel).Located? ==> r == Returned(Lookup(sel).element.selected)
      ensures Lookup(sel).Failed? ==> (r == Returned(false) <==> InStateCheckFilter(Lookup(sel).kind))
      ensures Lookup(sel).Failed? && !InStateCheckFilter(Lookup(sel).kind) ==> r == Raised(Lookup(sel).kind)
    {
      StateCheckCatch(Attempt(sel, (e: Element) => Returned(e.selected)))
    }

    /** ElementEnabledCheck: as ElementDisplayed, for the enabled flag. */
    function ElementEnabledCheck(sel: Selector): (r: Outcome<bool>)
      reads this, driver
      ensures Lookup(sel).Located? ==> r == Returned(Lookup(sel).element.enabled)
      ensures Lookup(sel).Failed? ==> (r == Returned(false) <==> InStateCheckFilter(Lookup(sel).kind))
      ensures Lookup(sel).Failed? && !InStateCheckFilter(Lookup(sel).kind) ==> r == Raised(Lookup(sel).kind)
    {
      StateCheckCatch(Attempt(sel, (e: Element) => Returned(e.enabled)))
    }

    /** ElementCount: the number of matching elements, through the wait. */
    function ElementCount(sel: Selector): (r: Outcome<nat>)
      reads this, driver
      ensures driver == null || driverWait.None? ==> r == Raised(NullReference)
      ensures driver != null && driverWait.Some? && sel !in driver.page.faults ==>
                r == Returned(|Matches(driver.page, sel)|)
      ensures driver != null && driverWait.Some? && sel in driver.page.faults ==>
                r == Raised(driver.page.faults[sel])
    {
      StrictCatch(if driver == null || driverWait.None? then Raised(NullReference) else CountMatches(driver.page, sel))
    }

    /** ElementCountNotWaitingForVisibility: the number of matching elements,
        asked of the driver directly; a selector that matches nothing gives 0
        rather than a failure. */
    function ElementCountNotWaitingForVisibility(sel: Selector): (r: Outcome<nat>)
      reads this, driver
      ensures driver == null ==> r == Raised(NullReference)
      ensures driver != null && sel !in driver.page.faults ==> r == Returned(|Matches(driver.page, sel)|)
      ensures driver != null && sel in driver.page.faults ==> r == Raised(driver.page.faults[sel])
    {
      StrictCatch(if driver == null then Raised(NullReference) else CountMatches(driver.page, sel))
    }

    /** WaitForElementToBeVisible: the located element, or the wait's failure. */
    function WaitForElementToBeVisible(sel: Selector): (r: Outcome<Element>)
      reads this, driver
      ensures Lookup(sel).Located? ==> r == Returned(Lookup(sel).element)
      ensures Lookup(sel).Failed? ==> r == Raised(Lookup(sel).kind)
    {
      StrictCatch(Attempt(sel, (e: Element) => Returned(e)))
    }

    /** SelectElementByText: selects the first option matching `elementText`
        (in full, or as a part when `partialMatch`). */
    method SelectElementByText(sel: Selector, elementText: string, partialMatch: bool := false)
      returns (r: Outcome<()>)
      modifies driver
      ensures old(Lookup(sel)).Failed? ==> r == Raised(old(Lookup(sel)).kind)
      ensures old(Lookup(sel)).Located? ==>
                match SelectByText(old(Lookup(sel)).element, elementText, partialMatch)
                case Returned(e) => r == Returned(()) && driver.page == ReplaceFirst(old(driver.page), sel, e)
                case Raised(k) => r == Raised(k) && driver.page == old(driver.page)
      ensures driver != null ==> driver.actions == old(driver.actions) && driver.url == old(driver.url)
      ensures driver != null ==> driver.quitCalls == old(driver.quitCalls)
      ensures driver != null && r.Raised? ==> driver.page == old(driver.page)
    {
      var w := Lookup(sel);
      if w.Failed? {
        return Raised(w.kind);
      }
      var s := SelectByText(w.element, elementText, partialMatch);
      if s.Raised? {
        return Raised(s.kind);
      }
      driver.page := ReplaceFirst(driver.page, sel, s.value);
      r := Returned(());
    }

    /** SelectElementByIndex: selects the option at `elementIndex`. */
    method SelectElementByIndex(sel: Selector, elementIndex: int) returns (r: Outcome<()>)
      modifies driver
      ensures old(Lookup(sel)).Failed? ==> r == Raised(old(Lookup(sel)).kind)
      ensures old(Lookup(sel)).Located? ==>
                var e := old(Lookup(sel)).element;
                if 0 <= elementIndex < |e.options| then
                  r == Returned(()) && Lookup(sel) == Located(e.(selectedOption := Some(elementIndex))) &&
                  driver.page == ReplaceFirst(old(driver.page), sel, e.(selectedOption := Some(elementIndex)))
                else
                  r == Raised(NoSuchElement)
      ensures driver != null ==> driver.actions == old(driver.actions) && driver.url == old(driver.url)
      ensures driver != null ==> driver.quitCalls == old(driver.quitCalls)
      ensures driver != null && r.Raised? ==> driver.page == old(driver.page)
    {
      var w := Lookup(sel);
      if w.Failed? {
        return Raised(w.kind);
      }
      var s := SelectByIndex(w.element, elementIndex);
      if s.Raised? {
        return Raised(s.kind);
      }
      ReplaceFirstLocates(driver.page, sel, s.value);
      driver.page := ReplaceFirst(driver.page, sel, s.value);
      r := Returned(());
    }

    /** ElementClick: one locate-then-click cycle, or `numberOfClicks` of them
        when that is more than one. */
    method ElementClick(sel: Selector, numberOfClicks: int := 1) returns (r: Outcome<()>)
      modifies driver
      ensures old(Lookup(sel)).Failed? ==> r == Raised(old(Lookup(sel)).kind)
      ensures old(Lookup(sel)).Located? ==>
                r == Returned(()) &&
                driver.actions == old(driver.actions) + Repeat(Clicked(sel), if numberOfClicks > 1 then numberOfClicks else 1)
      ensures driver != null && r.Raised? ==> driver.actions == old(driver.actions)
      ensures driver != null ==> driver.page == old(driver.page) && driver.url == old(driver.url)
      ensures driver != null ==> driver.quitCalls == old(driver.quitCalls)
    {
      if numberOfClicks > 1 {
        var i := 0;
        while i < numberOfClicks
          invariant 0 <= i <= numberOfClicks
          invariant driver != null ==> driver.page == old(driver.page) && driver.url == old(driver.url)
          invariant driver != null ==> driver.quitCalls == old(driver.quitCalls)
          invariant i > 0 ==> old(Lookup(sel)).Located?
          invariant driver != null ==> driver.actions == old(driver.actions) + Repeat(Clicked(sel), i)
        {
          var w := Lookup(sel);
          if w.Failed? {
            return Raised(w.kind);
          }
          driver.actions := driver.actions + [Clicked(sel)];
          i := i + 1;
        }
      } else {
        var w := Lookup(sel);
        if w.Failed? {
          return Raised(w.kind);
        }
        driver.actions := driver.actions + [Clicked(sel)];
      }
      r := Returned(());
    }

    /** ElementSendKeys: types `theKey` into the located element. */
    method ElementSendKeys(sel: Selector, theKey: string) returns (r: Outcome<()>)
      modifies driver
      ensures old(Lookup(sel)).Failed? ==> r == Raised(old(Lookup(sel)).kind)
      ensures old(Lookup(sel)).Located? ==>
                r == Returned(()) && driver.actions == old(driver.actions) + [KeysSent(sel, theKey)]
      ensures driver != null && r.Raised? ==> driver.actions == old(driver.actions)
      ensures driver != null ==> driver.page == old(driver.page) && driver.url == old(driver.url)
      ensures driver != null ==> driver.quitCalls == old(driver.quitCalls)
    {
      var w := Lookup(sel);
      if w.Failed? {
        return Raised(w.kind);
      }
      driver.actions := driver.actions + [KeysSent(sel, theKey)];
      r := Returned(());
    }

    /** ElementClearInput: clears the located input. */
    method ElementClearInput(sel: Selector) returns (r: Outcome<()>)
      modifies driver
      ensures old(Lookup(sel)).Failed? ==> r == Raised(old(Lookup(sel)).kind)
      ensures old(Lookup(sel)).Located? ==>
                r == Returned(()) && driver.actions == old(driver.actions) + [Cleared(sel)]
      ensures driver != null && r.Raised? ==> driver.actions == old(driver.actions)
      ensures driver != null ==> driver.page == old(driver.page) && driver.url == old(driver.url)
      ensures driver != null ==> driver.quitCalls == old(driver.quitCalls)
    {
      var w := Lookup(sel);
      if w.Failed? {
        return Raised(w.kind);
      }
      driver.actions := driver.actions + [Cleared(sel)];
      r := Returned(());
    }

    /** RandomDropDownSelection: counts the options, draws an index from
        `[1, count)` and selects it. `draw` is the random generator's choice.
        Index 0 is never selected: with fewer than two options the call fails
        instead (no valid range, or no option at index 1). */
    method RandomDropDownSelection(sel: Selector, draw: nat) returns (r: Outcome<()>)
      modifies driver
      ensures old(Lookup(sel)).Failed? ==> r == Raised(old(Lookup(sel)).kind)
      ensures old(Lookup(sel)).Located? && |old(Lookup(sel)).element.options| == 0 ==>
                r == Raised(ArgumentOutOfRange)
      ensures old(Lookup(sel)).Located? && |old(Lookup(sel)).element.options| == 1 ==>
                r == Raised(NoSuchElement)
      ensures old(Lookup(sel)).Located? && |old(Lookup(sel)).element.options| >= 2 ==>
                var e := old(Lookup(sel)).element;
                r == Returned(()) &&
                Lookup(sel) == Located(e.(selectedOption := Some(Utilities.GetRandomNumber(1, |e.options|, draw).value))) &&
                Lookup(sel).element.options == e.options &&
                Lookup(sel).element.selectedOption.Some? &&
                1 <= Lookup(sel).element.selectedOption.value < |e.options| &&
                driver.page == ReplaceFirst(old(driver.page), sel, Lookup(sel).element)
      ensures driver != null && r.Raised? ==> driver.page == old(driver.page)
      ensures driver != null ==> driver.actions == old(driver.actions) && driver.url == old(driver.url)
      ensures driver != null ==> driver.quitCalls == old(driver.quitCalls)
    {
      var w := Lookup(sel);
      if w.Failed? {
        return Raised(w.kind);
      }
      var optionsListCount := |w.element.options|;
      var index := Utilities.GetRandomNumber(1, optionsListCount, draw);
      if index.Raised? {
        return Raised(index.kind);
      }
      var s := SelectByIndex(w.element, index.value);
      if s.Raised? {
        return Raised(s.kind);
      }
      ReplaceFirstLocates(driver.page, sel, s.value);
      driver.page := ReplaceFirst(driver.page, sel, s.value);
      r := Returned(());
    }

    /** SelectDropdownOptionOtherThanSpecified: scans the options from index 1
        and selects, by its text, the first one whose text differs from
        `optionNotToSelect`; when there is none the selection is left as it
        was. The selected text afterwards is never `optionNotToSelect`. */
    method SelectDropdownOptionOtherThanSpecified(sel: Selector, optionNotToSelect: string) returns (r: Outcome<()>)
      modifies driver
      ensures old(Lookup(sel)).Failed? ==> r == Raised(old(Lookup(sel)).kind)
      ensures old(Lookup(sel)).Located? ==> r == Returned(())
      ensures old(Lookup(sel)).Located? ==>
                var e := old(Lookup(sel)).element;
                match FirstOtherThan(e.options, optionNotToSelect)
                case None => driver.page == old(driver.page)
                case Some(j) =>
                  SelectByText(e, e.options[j], false).Returned? &&
                  Lookup(sel) == Located(SelectByText(e, e.options[j], false).value) &&
                  Lookup(sel).element.options == e.options &&
                  SelectedText(Lookup(sel).element) == Returned(e.options[j]) &&
                  SelectedText(Lookup(sel).element) != Returned(optionNotToSelect) &&
                  driver.page == ReplaceFirst(old(driver.page), sel, Lookup(sel).element)
      ensures driver != null && r.Raised? ==> driver.page == old(driver.page)
      ensures driver != null ==> driver.actions == old(driver.actions) && driver.url == old(driver.url)
      ensures driver != null ==> driver.quitCalls == old(driver.quitCalls)
    {
      var w := Lookup(sel);
      if w.Failed? {
        return Raised(w.kind);
      }
      var dropDownElement := w.element;
      var dropdownOptionsList := dropDownElement.options;
      var dropDownOptionsListCount := |dropdownOptionsList|;
      var i := 1;
      while i < dropDownOptionsListCount
        invariant 1 <= i
        invariant dropDownOptionsListCount == 0 || i <= dropDownOptionsListCount
        invariant forall j :: 1 <= j < i && j < dropDownOptionsListCount ==> dropdownOptionsList[j] == optionNotToSelect
        invariant driver.page == old(driver.page)
      {
        if dropdownOptionsList[i] != optionNotToSelect {
          var s := SelectByText(dropDownElement, dropdownOptionsList[i], false);
          assert s.Returned?;
          ReplaceFirstLocates(driver.page, sel, s.value);
          driver.page := ReplaceFirst(driver.page, sel, s.value);
          break;
        }
        i := i + 1;
      }
      r := Returned(());
    }

    /** NavigateToUrlUnderTest: loads the configured URL; the page the browser
        then shows is given as `loaded`. */
    method NavigateToUrlUnderTest(loaded: Page) returns (r: Outcome<()>)
      modifies driver
      ensures driver == null ==> r == Raised(NullReference)
      ensures driver != null ==> r == Returned(()) && driver.url == urlUnderTest && driver.page == loaded
      ensures driver != null ==> driver.actions == old(driver.actions) && driver.quitCalls == old(driver.quitCalls)
    {
      if driver == null {
        return Raised(NullReference);
      }
      driver.GoToUrl(urlUnderTest, loaded);
      r := Returned(());
    }

    /** AttachCurrentTestLogFile: attaches `{LoggerUid}.txt` to the report. */
    method AttachCurrentTestLogFile(context: TestContext)
      modifies context
      ensures context.events == old(context.events) + [Attached(loggerUid + ".txt")]
    {
      context.events := context.events + [Attached(loggerUid + ".txt")];
    }

    /** LogTestCaseException: logs every recorded assertion, attaches
        `{LoggerUid}.txt`, and for a UI test saves and attaches a screenshot
        `{LoggerUid}.png`. Logging without a logger, or a screenshot without a
        driver, fails on a null reference. */
    method LogTestCaseException(context: TestContext) returns (r: Outcome<()>)
      modifies context
      ensures logger.None? && |context.assertions| > 0 ==>
                r == Raised(NullReference) && context.events == old(context.events)
      ensures (logger.Some? || |context.assertions| == 0) && !uiTestCase ==>
                r == Returned(()) && context.events == old(context.events) + [Attached(loggerUid + ".txt")]
      ensures (logger.Some? || |context.assertions| == 0) && uiTestCase && driver == null ==>
                r == Raised(NullReference) && context.events == old(context.events) + [Attached(loggerUid + ".txt")]
      ensures (logger.Some? || |context.assertions| == 0) && uiTestCase && driver != null ==>
                r == Returned(()) &&
                context.events == old(context.events) +
                  [Attached(loggerUid + ".txt"), ScreenshotSaved(loggerUid + ".png"), Attached(loggerUid + ".png")]
    {
      if logger.None? && |context.assertions| > 0 {
        return Raised(NullReference);
      }
      context.events := context.events + [Attached(loggerUid + ".txt")];
      if uiTestCase {
        if driver == null {
          return Raised(NullReference);
        }
        var screenshotFilePathAndName := loggerUid + ".png";
        context.events := context.events + [ScreenshotSaved(screenshotFilePathAndName)];
        context.events := context.events + [Attached(screenshotFilePathAndName)];
      }
      r := Returned(());
    }

    /** TeardownLogic: on a failed outcome captures diagnostics through
        `sessionVariable`, otherwise attaches its log file if there is a
        session; then quits the driver of a UI session, at most once. */
    method TeardownLogic(sessionVariable: Session?, context: TestContext) returns (r: Outcome<()>)
      modifies context, if sessionVariable != null && sessionVariable.driver != null then {sessionVariable.driver} else {}
      ensures IsFailedOutcome(context.outcome) && sessionVariable == null ==>
                r == Raised(NullReference) && context.events == old(context.events)
      ensures !IsFailedOutcome(context.outcome) && sessionVariable == null ==>
                r == Returned(()) && context.events == old(context.events)
      ensures !IsFailedOutcome(context.outcome) && sessionVariable != null ==>
                r == Returned(()) &&
                context.events == old(context.events) + [Attached(sessionVariable.loggerUid + ".txt")]
      ensures IsFailedOutcome(context.outcome) && sessionVariable != null &&
              sessionVariable.logger.None? && |context.assertions| > 0 ==>
                r == Raised(NullReference) && context.events == old(context.events)
      ensures IsFailedOutcome(context.outcome) && sessionVariable != null &&
              (sessionVariable.logger.Some? || |context.assertions| == 0) && !sessionVariable.uiTestCase ==>
                r == Returned(()) &&
                context.events == old(context.events) + [Attached(sessionVariable.loggerUid + ".txt")]
      ensures IsFailedOutcome(context.outcome) && sessionVariable != null &&
              (sessionVariable.logger.Some? || |context.assertions| == 0) && sessionVariable.uiTestCase &&
              sessionVariable.driver == null ==>
                r == Raised(NullReference) &&
                context.events == old(context.events) + [Attached(sessionVariable.loggerUid + ".txt")]
      ensures IsFailedOutcome(context.outcome) && sessionVariable != null &&
              (sessionVariable.logger.Some? || |context.assertions| == 0) && sessionVariable.uiTestCase &&
              sessionVariable.driver != null ==>
                r == Returned(()) &&
                context.events == old(context.events) +
                  [Attached(sessionVariable.loggerUid + ".txt"), ScreenshotSaved(sessionVariable.loggerUid + ".png"),
                   Attached(sessionVariable.loggerUid + ".png")]
      ensures sessionVariable != null && sessionVariable.driver != null ==>
                sessionVariable.driver.quitCalls ==
                  old(sessionVariable.driver.quitCalls) + (if sessionVariable.uiTestCase && r.Returned? then 1 else 0)
      ensures sessionVariable != null && sessionVariable.driver != null ==>
                sessionVariable.driver.page == old(sessionVariable.driver.page) &&
                sessionVariable.driver.actions == old(sessionVariable.driver.actions) &&
                sessionVariable.driver.url == old(sessionVariable.driver.url)
    {
      if IsFailedOutcome(context.outcome) {
        if sessionVariable == null {
          return Raised(NullReference);
        }
        r := sessionVariable.LogTestCaseException(context);
        if r.Raised? {
          return;
        }
      } else {
        if sessionVariable != null {
          sessionVariable.AttachCurrentTestLogFile(context);
        }
      }
      if sessionVariable != null && sessionVariable.uiTestCase {
        if sessionVariable.driver != null {
          sessionVariable.driver.Quit();
        }
      }
      r := Returned(());
    }
  }
}
