# EAF session model

A Dafny model of the session object of the EAF Selenium test framework
(`EAF.Core/Base/Session.cs`) and of the two helpers it uses from
`EAF.Core/Utilities/SharedMethods.cs`.

A `Session` is created per test. `SetupSession` performs these steps:

- it reads the URL under test and two flags (`PipelineRun`, `EnableIncognito`) from the test runner's parameters;
- it names the logger `{TestName}-{ShortUid}`;
- for a UI test whose target browser is exactly "Chrome" or "Edge", it starts a driver with an argument list built from the flags;
- it creates an explicit wait with the default timeout of 5000 ms.

Every element wrapper waits for the element, acts on it and filters failures:

- the strict wrappers rethrow six named exception kinds, and any other kind escapes anyway;
- the three state checks (`ElementDisplayed`, `ElementSelected`, `ElementEnabledCheck`) turn Timeout, ElementNotInteractable and NoSuchElement into `false`.

On teardown the session does the following:

- it attaches `{LoggerUid}.txt` to the test report;
- after a failed outcome of a UI test, it also saves and attaches a `{LoggerUid}.png` screenshot;
- it quits the driver of a UI session.

Modules:

- `Outcomes`: the failure kinds, the `Outcome` of a call, and the two catch filters.
- `Sequences`: the subsequence order and repetition.
- `Utilities`: `ShortUid` and `GetRandomNumber`. The GUID's base64 text and the random draw are parameters.
- `Browser`: the abstract page, the outcome of a wait, and the select-control operations. It also holds the `WebDriver` class, which records the page, the URL, the actions performed and the number of `Quit` calls.
- `Configuration`: the case-insensitive flag parsing and the Chrome and Edge argument builders.
- `Base`: the `TestContext` of the test runner, with its report as an event sequence, and the `Session` class. The fields of `Session` are those of `SessionProperties`.

A wait is deterministic in this model. A selector listed in the page's `faults` fails with that kind. Otherwise the wait locates the first element the selector matches. A selector that matches nothing times out.

## Model

| member | source | states |
|---|---|---|
| Outcomes.StrictCatch | EAF.Core/Base/Session.cs:166-174 | a strict catch clause returns exactly what the try block produced: a value stays a value, and a failure of any kind comes out as the same failure |
| Outcomes.StateCheckCatch | EAF.Core/Base/Session.cs:417-423 | a value passes unchanged; a failure becomes `false` exactly when it is Timeout, ElementNotInteractable or NoSuchElement; any other failure escapes unchanged |
| Outcomes.StateCheckFilterNarrower | EAF.Core/Base/Session.cs:417-423 | the state-check filter is contained in the strict filter; the kinds only the strict filter names are NotVisible, NotSelectable and StaleElementReference |
| Utilities.ShortUid | EAF.Core/Utilities/SharedMethods.cs:14 | the id contains no `/`, `+` or `=` and is no longer than the base64 text |
| Utilities.ShortUidKeepsOthers | EAF.Core/Utilities/SharedMethods.cs:14 | the id is a subsequence of the base64 text and keeps every other character as often as it occurs there |
| Utilities.ShortUidFixesClean | EAF.Core/Utilities/SharedMethods.cs:14 | text without the three characters passes through unchanged |
| Utilities.ShortUidIdempotent | EAF.Core/Utilities/SharedMethods.cs:14 | removing the characters a second time changes nothing |
| Utilities.ShortUidAlphanumeric | EAF.Core/Utilities/SharedMethods.cs:8-14 | over base64 text the id is alphanumeric only, as its documentation promises |
| Utilities.GetRandomNumber | EAF.Core/Utilities/SharedMethods.cs:17-23 | `min > max` raises ArgumentOutOfRange, `min == max` gives `min`, otherwise the value lies in `[min, max)` |
| Utilities.GetRandomNumberCoversRange | EAF.Core/Utilities/SharedMethods.cs:17-23 | every value of `[min, max)` is produced by some draw |
| Configuration.ParseFlag | EAF.Core/Base/Session.cs:36-39 | a flag that holds comes from a present parameter of four characters |
| Configuration.ParseFlagMeansTrue | EAF.Core/Base/Session.cs:36-39 | a flag holds exactly when the parameter is present and its lower-cased text is "true" |
| Configuration.ChromeArguments | EAF.Core/Base/Session.cs:84-104 | the list is the builder order `--incognito`, `--headless`, `--disable-gpu`, `--window-size=1920,960`, `--start-maximized`, keeping each argument exactly when its flag asks for it (EnableIncognito, RunHeadless, PipelineRun, PipelineRun, not PipelineRun) |
| Configuration.ChromeChoiceIsArgumentList | EAF.Core/Base/Session.cs:84-104 | that list follows builder order. It contains `--incognito` iff EnableIncognito and `--headless` iff RunHeadless. It contains `--disable-gpu` and `--window-size=1920,960` iff PipelineRun, and `--start-maximized` iff not PipelineRun. It contains nothing else |
| Configuration.EdgeArguments | EAF.Core/Base/Session.cs:126-139 | the list is the builder order `headless`, `disable-gpu`, `window-size=1920,960`, `start-maximized`, keeping each argument exactly when its flag asks for it |
| Configuration.EdgeChoiceIsArgumentList | EAF.Core/Base/Session.cs:126-139 | that list has the Chrome mapping for headless and pipeline runs without the `--` prefix, in builder order, and nothing else |
| Configuration.EdgeArgumentsNeverIncognito | EAF.Core/Base/Session.cs:116-139 | every Edge argument is one of the four listed, so none asks for incognito, whatever EnableIncognito says |
| Base.Session.constructor | EAF.Core/Base/SessionProperties.cs:10-21 | a new session has no driver, wait, logger, URL or target browser, and every flag is false |
| Base.Session.SetupSession | EAF.Core/Base/Session.cs:18-63 | fields read from the parameters, logger id `TestName-ShortUid` and log file `{LoggerUid}.txt`, flags parsed ignoring case; a fresh unused driver exists iff `uiTestCase` and TargetBrowser is exactly "Chrome" or "Edge", of that kind and with that browser's argument list; the wait has 5000 ms; returns the session itself |
| Base.Session.Configure | EAF.Core/Base/Session.cs:20-40 | the configuration block sets URL, test name, both flags given, logger id and log file, and both parsed flags |
| Base.Session.StartTargetBrowser | EAF.Core/Base/Session.cs:42-57 | TargetBrowser is read only for a UI test; a driver is started iff it is exactly "Chrome" or "Edge"; the Edge driver's binary is the EdgeBrowserBinaryLocation parameter |
| Base.Session.SetupLogger | EAF.Core/Base/Session.cs:71-80 | LoggerUid is `TestName-ShortUid` and the log file is `{LoggerUid}.txt` |
| Base.Session.SetupChromeWebDriver | EAF.Core/Base/Session.cs:82-114 | a fresh unused Chrome driver, stored in the session, started with the Chrome argument list of the session's flags |
| Base.Session.SetupEdgeWebDriver | EAF.Core/Base/Session.cs:116-149 | a fresh unused Edge driver at the configured binary location, stored in the session, with the Edge argument list |
| Base.Session.SelectElement | EAF.Core/Base/Session.cs:160-175 | the located control, or exactly the wait's failure |
| Base.Session.SelectElementByText | EAF.Core/Base/Session.cs:185-209 | a failed wait raises its kind and changes nothing. Otherwise the first option matching in full, or as a part when `partialMatch`, becomes selected, or NoSuchElement is raised and the page is kept. Actions, URL and quits are unchanged |
| Base.Session.SelectElementByIndex | EAF.Core/Base/Session.cs:215-232 | a failed wait raises its kind. An index inside the options becomes the selection, which a later wait observes. Any other index raises NoSuchElement |
| Base.Session.SelectElementText | EAF.Core/Base/Session.cs:238-255 | a located control gives exactly its selection's text as `SelectedText` reads it: the selected option's text, or NoSuchElement without a valid selection; a failed wait raises its kind |
| Base.Session.ElementClick | EAF.Core/Base/Session.cs:261-288 | after a successful wait, exactly `numberOfClicks` clicks when it exceeds 1 and exactly one otherwise, including 0 and negative counts; a failed wait raises its kind and clicks nothing; page, URL and quits unchanged |
| Base.Session.ElementSendKeys | EAF.Core/Base/Session.cs:294-311 | the keys are sent once to the located element, or the wait's failure is raised and nothing is sent |
| Base.Session.ElementClearInput | EAF.Core/Base/Session.cs:317-334 | the located input is cleared once, or the wait's failure is raised and nothing is done |
| Base.Session.ElementText | EAF.Core/Base/Session.cs:340-357 | the located element's text, or exactly the wait's failure |
| Base.Session.ElementAttributeValue | EAF.Core/Base/Session.cs:363-380 | the attribute's value, null iff the element lacks it, or exactly the wait's failure; the attribute defaults to "value" |
| Base.Session.ElementCssValue | EAF.Core/Base/Session.cs:386-403 | the property's value, null iff the element reports none, or exactly the wait's failure |
| Base.Session.ElementDisplayed | EAF.Core/Base/Session.cs:409-424 | the displayed flag on success; `false` exactly when the wait fails with Timeout, ElementNotInteractable or NoSuchElement; any other failure escapes unchanged |
| Base.Session.ElementSelected | EAF.Core/Base/Session.cs:430-445 | the same classification, for the selected flag |
| Base.Session.ElementEnabledCheck | EAF.Core/Base/Session.cs:451-466 | the same classification, for the enabled flag |
| Base.Session.ElementCount | EAF.Core/Base/Session.cs:472-489 | the number of matches, zero when nothing matches, or the selector's failure; no driver or wait raises NullReference |
| Base.Session.ElementCountNotWaitingForVisibility | EAF.Core/Base/Session.cs:495-510 | the number of matches asked of the driver directly, or the selector's failure |
| Base.Session.WaitForElementToBeVisible | EAF.Core/Base/Session.cs:516-531 | the located element, or exactly the wait's failure |
| Base.Session.RandomDropDownSelection | EAF.Core/Base/Session.cs:539-555 | with two or more options the control becomes the same control with index `GetRandomNumber(1, count, draw)` selected, which lies in `[1, count)` and is never 0; every such index is reached by some draw (`GetRandomNumberCoversRange`). With one option NoSuchElement is raised, and with none ArgumentOutOfRange. A failed wait raises its kind |
| Base.Session.SelectDropdownOptionOtherThanSpecified | EAF.Core/Base/Session.cs:564-590 | the control becomes `SelectByText` of the option `FirstOtherThan` picks, with only its selection changed, and the selected text is never `optionNotToSelect`. When no option qualifies the page is unchanged. A failed wait raises its kind |
| Base.Session.TeardownLogic | EAF.Core/Base/Session.cs:592-611 | a passed or inconclusive test attaches exactly `{LoggerUid}.txt`, or nothing without a session. A failed test without a session raises NullReference. With a session, a failed test gives exactly the events and result of `LogTestCaseException`: NullReference and no event for assertions without a logger; otherwise `.txt`, then for a UI test with a driver `ScreenshotSaved(.png)` and `Attached(.png)`, for a UI test without a driver NullReference after the `.txt`. The driver of a UI session is quit exactly once when teardown completes, and never otherwise; its page, actions and URL are unchanged |
| Base.Session.LogTestCaseException | EAF.Core/Base/Session.cs:613-632 | `{LoggerUid}.txt` is attached, then for a UI test a screenshot is saved and attached. Assertions without a logger, or a UI test without a driver, fail on a null reference |
| Base.Session.AttachCurrentTestLogFile | EAF.Core/Base/Session.cs:638-641 | exactly `{LoggerUid}.txt` is appended to the report |
| Base.Session.NavigateToUrlUnderTest | EAF.Core/Base/Session.cs:643-646 | the driver shows the URL under test; without a driver the call fails on a null reference |
| Browser.SelectByTextSelectsFirstMatch | EAF.Core/Base/Session.cs:198 | selecting by text succeeds iff some option matches; it selects the first match and changes nothing but the selection; otherwise it raises NoSuchElement |
| Browser.SelectByTextThenSelectedText | EAF.Core/Base/Session.cs:198 | selecting an option by its full text and reading the selection gives that text back |
| Browser.SelectByIndexThenSelectedText | EAF.Core/Base/Session.cs:221 | selecting an index inside the options and reading the selection gives that option's text; any other index raises NoSuchElement |
| Browser.FirstOtherThanPicks | EAF.Core/Base/Session.cs:572-579 | the option picked has index 1 or more and differs from the excluded text; every option skipped from index 1 is the excluded text; there is none iff all options from index 1 are the excluded text |
| Browser.FirstOtherThanAnimals | EAF.Core/Base/Session.cs:557-560 | on {Dog, Wolf, Bear, Fox} excluding Bear, Wolf (index 1) is picked; excluding Wolf, Bear is picked |

## Left out

- Selenium's `WebDriverWait` polling and its 5000 ms deadline are not modelled. A wait is a function of the page, and `SetupDriverWait`'s parameter is only modelled at its default of 5000.
- `new WebDriverWait` with a null driver is not modelled, because the library's behaviour there is not part of this model. Every use of the wait without a driver fails with NullReference, and setup with a null driver succeeds.
- The wait's deadline failure is identified with the `Timeout` kind that the catch filters name. The filters name `TimeoutException` (EAF.Core/Base/Session.cs:166, 417), and the library's own deadline exception type is not part of this model. So the model assumes a selector that never matches makes the three state checks return `false`, and that strict wrappers rethrow the failure as Timeout. If the library raises a type outside the filters, both kinds of wrapper let it escape, and a state check then throws instead of returning `false`.
- Selectors are independent in this model: the page maps each selector to its own elements, so a selection made through one selector is not seen through another selector that reaches the same control in the browser.
- The second lookups in `RandomDropDownSelection` and `SelectDropdownOptionOtherThanSpecified` are folded into one. A wait is deterministic and reading the options changes nothing, so both lookups locate the same element.
- The `WebDriver` constructor and `GoToUrl` are not modelled as process creation or navigation. Starting a browser process and loading a page are foreign. The page after navigation is an input of `NavigateToUrlUnderTest`.
- Clicks, typed keys and cleared inputs are recorded as actions and do not change the page. Their effect on the browser is not modelled, so all repeated clicks find the same element and typed keys do not show up in `value` attributes.
- The rules of `SelectElement`, Selenium's select-control wrapper, are not modelled in full. Selection by text takes the first option equal to the text, or containing it when `partialMatch`. Selection by index takes that option. Multi-select controls and whitespace normalisation are not modelled.
- The `SelectElement` constructor rejects an element that is not a `select` tag with UnexpectedTagName. That failure is not modelled: every located element is treated as a select control.
- Serilog logging is not modelled because it is I/O. `Logger` is the name of the file it writes to. Only the null logger of the assertion loop in `LogTestCaseException` is modelled.
- The screenshot's pixels and the `SaveAsFile` format are not modelled because they are I/O. A saved screenshot is a `ScreenshotSaved` event.
- GUID creation and its base64 encoding are oracles. `ShortUid`'s input is the base64 text.
- The random generator seeded from the GUID's hash code is an oracle. `GetRandomNumber` takes the generator's draw.
- Configuration.ParseFlag: `OrdinalIgnoreCase` is modelled with ASCII case folding only. Non-ASCII case mappings that would fold to "true" are not covered.
- `SharedMethods = new SharedMethods()` (EAF.Core/Base/Session.cs:28) instantiates a static class, which does not compile. The helpers are modelled as static functions and the property is not modelled.
- Browser logging preferences and `UseChromium` are not modelled because the session never reads them back.
- The page objects (`EAF.Core/PageObjects`), the test fixtures (`EAF.PoolA`, `EAF.PoolB`) and `TestSessionProperties.cs` are not part of this model. They contain no session logic, and the fixtures call a `SetupSession` signature that does not exist.
- Failures thrown inside a wrapper after a successful wait, such as a stale element during `Click`, are not modelled separately. They come from the page's `faults` entry for the selector, which the wait raises.
