# Selenium report generator, modelled in Dafny

`SeleniumReportGenerator` is a small end-to-end check of a login page. It
reads a username from `username.json` and finds the page's username field.
Then it runs two steps:

1. It types the username into the field and reads the value back.
2. It clears the field and reads the value back.

It takes a screenshot after each step (`step1.png`, `step2.png`). Last, it
writes an HTML report that shows the username used and, per step, a
PASS/FAIL cell and the screenshot.

This project models that core:

- `username_file.dfy` (module `UsernameFile`): `readUsername`, a lookup of
  the `username` member in an already parsed JSON tree. The member's text
  comes through Jackson's `asText` rules. A missing file, a parse failure or
  a missing member gives `None`, which stands for Java's `null`.
- `browser.dfy` (module `Browser`): the browser as the run sees it. A
  `Session` class holds:
  - whether the field is on the page;
  - whether the driver can take screenshots;
  - the field's current value;
  - the log of what was done to the page, in order.
- `report_generator.dfy` (module `ReportGenerator`): the `main` scenario as
  methods on the session. It holds:
  - the two verdict rules;
  - `takeScreenshot`'s capability check;
  - the order of actions, as a specification function of the log;
  - four example runs.
- `java_format.dfy` (module `JavaFormat`): `String.format`, restricted to
  the two conversions the template uses, `%s` and `%%`. It comes with the
  theory that formatting a template made of literal texts and `%s` slots
  fills the slots in order.
- `html_report.dfy` (module `HtmlReport`): `generateHtmlReport` without the
  file write. It holds:
  - the seven format arguments;
  - the template text, cut at its seven slots;
  - the rendered page, written out slot by slot.

The browser's reactions are inputs. The scenario methods take what the
field shows after typing and after clearing as parameters. So the verdicts
are proved for every possible page behaviour, including pages that mangle
the typed text or refuse to clear.

A missing username file does not fail both steps. Step 1 fails, because
the username is then empty. Step 2 ignores the input: it passes whenever
the field is found and reads back empty after `clear()`. So a missing file
on a page that clears gives FAIL then PASS (`ReportGenerator.MissingFileRun`).

## Model

| member | source | states |
|---|---|---|
| UsernameFile.AsText | src/main/java/com/example/SeleniumReportGenerator.java:108 | a string node reads as its text, a JSON null as `null`, an array or object as the empty text |
| UsernameFile.ReadUsername | src/main/java/com/example/SeleniumReportGenerator.java:104-113 | a result exists exactly when the file parsed to an object with a `username` member, and it is that member's text; otherwise `None` (Java `null`) |
| UsernameFile.ReadsStringMember | src/main/java/com/example/SeleniumReportGenerator.java:108 | a string-valued `username` member is returned unchanged |
| UsernameFile.NullMemberIsText | src/main/java/com/example/SeleniumReportGenerator.java:108 | an explicit JSON null member is present and reads as the text `null`, not as absence |
| Browser.CapturedFiles | src/main/java/com/example/SeleniumReportGenerator.java:115-120 | the screenshot files of a log are exactly the captured entries, never more than the log's length |
| Browser.CapturedFilesAppend | src/main/java/com/example/SeleniumReportGenerator.java:75-87 | the screenshots of consecutive log parts come in the order of the parts |
| Browser.Session.constructor | src/main/java/com/example/SeleniumReportGenerator.java:52 | a new session has the given page and driver capabilities, the given field value and an empty log |
| Browser.Session.FindField | src/main/java/com/example/SeleniumReportGenerator.java:59-64 | the lookup reports whether the field is on the page instead of raising |
| Browser.Session.SendKeys | src/main/java/com/example/SeleniumReportGenerator.java:68 | typing is logged and the field then shows what the page made of it |
| Browser.Session.Clear | src/main/java/com/example/SeleniumReportGenerator.java:80 | clearing is logged and the field then shows what the page left in it |
| Browser.Session.Value | src/main/java/com/example/SeleniumReportGenerator.java:69 | reading the `value` attribute returns the field's current value and changes nothing |
| Browser.Session.SaveScreenshot | src/main/java/com/example/SeleniumReportGenerator.java:117-118 | a capture is logged with its file and the field is untouched; only a capable driver may capture |
| ReportGenerator.TestInput | src/main/java/com/example/SeleniumReportGenerator.java:30-34 | a missing username becomes the empty text; a present one is the member's text |
| ReportGenerator.FillVerdict | src/main/java/com/example/SeleniumReportGenerator.java:67-73 | step 1 fails when the field is missing or the username is empty; otherwise it passes exactly when the read-back equals the username; a pass implies a non-empty read-back |
| ReportGenerator.ClearVerdict | src/main/java/com/example/SeleniumReportGenerator.java:79-85 | step 2 passes exactly when the field was found and reads back empty, whatever step 1 did |
| ReportGenerator.ScenarioLog | src/main/java/com/example/SeleniumReportGenerator.java:66-87 | the screenshots are step1 then step2 when the driver can capture and none otherwise; with no field the log holds only those captures; with the field the username is typed and the field cleared |
| ReportGenerator.TakeScreenshot | src/main/java/com/example/SeleniumReportGenerator.java:115-120 | a capable driver writes exactly one capture of the file; any other driver leaves the log alone and raises nothing |
| ReportGenerator.FillStep | src/main/java/com/example/SeleniumReportGenerator.java:66-73 | step 1's verdict is `FillVerdict` of the read-back; the username is typed only when the field was found |
| ReportGenerator.ClearStep | src/main/java/com/example/SeleniumReportGenerator.java:78-85 | step 2's verdict is `ClearVerdict` of the read-back; the field is cleared only when it was found |
| ReportGenerator.RunSteps | src/main/java/com/example/SeleniumReportGenerator.java:59-88 | both verdicts, and the page's log grows by exactly `ScenarioLog`: both screenshots are attempted, step 1's first, with or without the field |
| ReportGenerator.Run | src/main/java/com/example/SeleniumReportGenerator.java:30-92 | the scenario with a missing username replaced by the empty text: both verdicts as the step rules say, the log as `ScenarioLog`, and a report that always renders from the step names, the verdicts and the username |
| ReportGenerator.FieldMissingRun | src/main/java/com/example/SeleniumReportGenerator.java:59-88 | with no field on the page both steps fail, and step1.png then step2.png are still written |
| ReportGenerator.NoCaptureRun | src/main/java/com/example/SeleniumReportGenerator.java:115-120 | a driver without screenshots writes no image, and the run still reaches its report |
| ReportGenerator.AliceRun | src/main/java/com/example/SeleniumReportGenerator.java:30-92 | a file with a string username and a well-behaved page give PASS, PASS and a page showing that username |
| ReportGenerator.MissingFileRun | src/main/java/com/example/SeleniumReportGenerator.java:30-34 | with no username file step 1 fails, step 2 still passes on a page that clears, and the page shows the not-found text |
| JavaFormat.Escape | src/main/java/com/example/SeleniumReportGenerator.java:132 | escaping never shortens a text and leaves a text without `%` unchanged |
| JavaFormat.Format | src/main/java/com/example/SeleniumReportGenerator.java:176-181 | a format string without `%` formats to itself whatever the arguments |
| JavaFormat.FormatEscaped | src/main/java/com/example/SeleniumReportGenerator.java:132 | formatting the escaped spelling of a literal text (the `100%%` of the CSS) reproduces the text and consumes no argument |
| JavaFormat.FormatPattern | src/main/java/com/example/SeleniumReportGenerator.java:176-181 | a template of literal texts and `%s` slots formats to the texts with the leading arguments filled in, in order; too few arguments fail |
| JavaFormat.FormatFilled | src/main/java/com/example/SeleniumReportGenerator.java:176-181 | with one argument per slot, formatting succeeds and is the splice of texts and arguments |
| JavaFormat.SpliceSeparates | src/main/java/com/example/SeleniumReportGenerator.java:176-181 | two argument lists that agree before some slot, and whose values at that slot have the same non-zero length but different first characters, give different output |
| HtmlReport.DisplayValue | src/main/java/com/example/SeleniumReportGenerator.java:178 | the username line is never empty: the username when there is one, `(Not Found in username.json)` otherwise |
| HtmlReport.ResultBadge | src/main/java/com/example/SeleniumReportGenerator.java:179-180 | a verdict's class is `pass` or `fail` as the verdict is, and its text is the class in upper case |
| HtmlReport.Placeholders | src/main/java/com/example/SeleniumReportGenerator.java:176-181 | seven arguments in slot order: the username, or `(Not Found in username.json)` when it is empty; row 1's class (`pass` or `fail` as step 1's verdict), its upper-case text and the step1 name; then the same for row 2 |
| HtmlReport.FormatsTemplate | src/main/java/com/example/SeleniumReportGenerator.java:123-174 | the text block is the template's eight literal texts with a `%s` slot between each two: formatting it with seven values never fails and splices them in, in order |
| HtmlReport.RenderReport | src/main/java/com/example/SeleniumReportGenerator.java:122-181 | `generateHtmlReport`'s page never fails to format and is the template text with the seven arguments spliced in; `RenderedPage` writes it out slot by slot |
| HtmlReport.RenderedPage | src/main/java/com/example/SeleniumReportGenerator.java:122-181 | the page is the template text with the display value, then row 1's badge and step1 name, then row 2's badge and step2 name, in that order |
| HtmlReport.VerdictsReadable | src/main/java/com/example/SeleniumReportGenerator.java:176-181 | two reports for the same names and username are equal only if their verdicts are: the page shows both verdicts |

`RenderReport` is a function of the two step names, the two verdicts and
the username. So the page depends on nothing else: not on the clock, the
browser or the file system.

## Left out

- WebDriverManager setup, the Chrome options, the navigation to the login page and the implicit wait are not modelled. The page the run sees is the `Session` it is given.
- How the page reacts to `sendKeys` and `clear` is not modelled. The values the field shows afterwards are parameters of the scenario methods.
- An exception thrown by the browser in the middle of the run is not modelled. In the program it skips the rest of the run and the report, and is printed.
- Screenshot bytes and their write to disk are reduced to a log entry naming the file. An `IOException` from `Files.write` is not modelled.
- Jackson's JSON parsing is not modelled. The file arrives parsed, or as unreadable. A number's text is its literal as written, which approximates Jackson's canonical number text.
- Creating the `docs` directory and the early return when that fails are not modelled. Nor is writing `report.html` with `Files.writeString`.
- Console output, `printStackTrace` and `driver.quit()` are not modelled.
- The report's script computes the footer date in the browser. It is kept only as literal text.
- JavaFormat.Format: only the `%s` and `%%` conversions are modelled. The model rejects every other conversion and a trailing `%`, although Java formats many of them (`%n`, `%b`, widths and flags). The report template uses none of them.
- Browser.Session.Value: the read-back is always a text. `getAttribute("value")` may return `null`. Then `equals` at line 70 (with a non-empty username) or `isEmpty` at line 82 throws a `NullPointerException`. The catch at line 95 then skips everything after the throw. A throw at line 70 loses both screenshots, step 2 and the report. A throw at line 82 loses the step-2 screenshot and the report. The model's runs always reach their report.
- HtmlReport.ReportTexts: the template text is written out from the text block as literal text. That it matches the source character for character is a transcription and is not proved.
