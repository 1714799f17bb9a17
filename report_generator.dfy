/**
 * The two-step verification run of `SeleniumReportGenerator.main`: read the
 * username, find the field, fill it and check it, screenshot, clear it and
 * check it, screenshot, and render the report.
 */
module ReportGenerator {
  import opened Wrappers
  import opened UsernameFile
  import opened HtmlReport
  import opened Browser

  const Step1File := "step1.png"
  const Step2File := "step2.png"

  /** The username the run uses: a missing one becomes the empty text, and the run goes on. */
  function TestInput(config: ConfigFile): (username: string)
    ensures !HasUsername(config) ==> username == []
    ensures HasUsername(config) ==> username == AsText(config.root.fields[UsernameKey])
  {
    ReadUsername(config).GetOr("")
  }

  /**
   * Step 1 ("fill"): passes only when the field was found, the username is
   * not empty, and the field then shows exactly the username.
   */
  function FillVerdict(fieldFound: bool, username: string, shown: string): (pass: bool)
    ensures !fieldFound ==> !pass
    ensures username == [] ==> !pass
    ensures fieldFound && username != [] ==> (pass <==> shown == username)
    ensures pass ==> shown != []
  {
    if fieldFound then username != [] && shown == username else false
  }

  /**
   * Step 2 ("clear"): passes exactly when the field was found and is empty
   * after clearing; what step 1 did plays no part.
   */
  function ClearVerdict(fieldFound: bool, shown: string): (pass: bool)
    ensures pass <==> fieldFound && shown == []
  {
    if fieldFound then shown == [] else false
  }

  /** A screenshot attempt leaves an entry only when the driver can capture. */
  function Shot(canCapture: bool, file: string): seq<Event>
  {
    if canCapture then [Captured(file)] else []
  }

  /**
   * What a run does to the page: type the username, step 1's screenshot,
   * clear, step 2's screenshot; the field actions only when the field was
   * found. Screenshots do not depend on the field or the verdicts.
   */
  function ScenarioLog(fieldFound: bool, username: string, canCapture: bool): (log: seq<Event>)
    ensures CapturedFiles(log) == if canCapture then [Step1File, Step2File] else []
    ensures !fieldFound ==> log == Shot(canCapture, Step1File) + Shot(canCapture, Step2File)
    ensures fieldFound ==> Typed(username) in log && Cleared in log
  {
    var typing := if fieldFound then [Typed(username)] else [];
    var clearing := if fieldFound then [Cleared] else [];
    var log := typing + Shot(canCapture, Step1File) + clearing + Shot(canCapture, Step2File);
    CapturedFilesAppend(typing, Shot(canCapture, Step1File));
    CapturedFilesAppend(typing + Shot(canCapture, Step1File), clearing);
    CapturedFilesAppend(typing + Shot(canCapture, Step1File) + clearing, Shot(canCapture, Step2File));
    assert CapturedFiles(typing) == [] && CapturedFiles(clearing) == [];
    assert CapturedFiles(Shot(canCapture, Step1File)) == if canCapture then [Step1File] else [];
    assert CapturedFiles(Shot(canCapture, Step2File)) == if canCapture then [Step2File] else [];
    log
  }

  /** `takeScreenshot`: writes `file` when the driver can capture, and otherwise does nothing. */
  method TakeScreenshot(session: Session, file: string)
    modifies session
    ensures session.fieldValue == old(session.fieldValue)
    ensures session.log == old(session.log) + Shot(session.canCapture, file)
  {
    if session.canCapture {
      session.SaveScreenshot(file);
    }
  }

  /**
   * Step 1 of `main`: when the field was found, type the username into it
   * and read the value back; the verdict is `FillVerdict`.
   */
  method FillStep(session: Session, found: bool, username: string, shownAfterTyping: string)
    returns (filled: bool)
    requires found == session.fieldPresent
    modifies session
    ensures filled == FillVerdict(found, username, shownAfterTyping)
    ensures session.log == old(session.log) + (if found then [Typed(username)] else [])
    ensures session.fieldValue == if found then shownAfterTyping else old(session.fieldValue)
  {
    if found {
      session.SendKeys(username, shownAfterTyping);
      var filledValue := session.Value();
      filled := username != [] && filledValue == username;
    } else {
      filled := false;
    }
  }

  /**
   * Step 2 of `main`: when the field was found, clear it and read the value
   * back; the verdict is `ClearVerdict`.
   */
  method ClearStep(session: Session, found: bool, shownAfterClear: string) returns (cleared: bool)
    requires found == session.fieldPresent
    modifies session
    ensures cleared == ClearVerdict(found, shownAfterClear)
    ensures session.log == old(session.log) + (if found then [Cleared] else [])
    ensures session.fieldValue == if found then shownAfterClear else old(session.fieldValue)
  {
    if found {
      session.Clear(shownAfterClear);
      var clearedValue := session.Value();
      cleared := clearedValue == [];
    } else {
      cleared := false;
    }
  }

  /**
   * The browser part of `main`: find the field, step 1, its screenshot,
   * step 2, its screenshot. A missing field fails both steps and skips
   * nothing else.
   */
  method RunSteps(session: Session, username: string, shownAfterTyping: string, shownAfterClear: string)
    returns (filled: bool, cleared: bool)
    modifies session
    ensures filled == FillVerdict(session.fieldPresent, username, shownAfterTyping)
    ensures cleared == ClearVerdict(session.fieldPresent, shownAfterClear)
    ensures session.log == old(session.log) + ScenarioLog(session.fieldPresent, username, session.canCapture)
    ensures session.fieldValue == if session.fieldPresent then shownAfterClear else old(session.fieldValue)
  {
    hide CapturedFiles, FillVerdict, ClearVerdict;
    var found := session.FindField();
    filled := FillStep(session, found, username, shownAfterTyping);
    TakeScreenshot(session, Step1File);
    cleared := ClearStep(session, found, shownAfterClear);
    TakeScreenshot(session, Step2File);
  }

  /**
   * `main` from reading the username to rendering the report. The field
   * shows `shownAfterTyping` after `sendKeys` and `shownAfterClear` after
   * `clear`. Both verdicts are always produced, both screenshots always
   * attempted, and the report always rendered.
   */
  method Run(session: Session, config: ConfigFile, shownAfterTyping: string, shownAfterClear: string)
    returns (filled: bool, cleared: bool, report: string)
    modifies session
    ensures filled == FillVerdict(session.fieldPresent, TestInput(config), shownAfterTyping)
    ensures cleared == ClearVerdict(session.fieldPresent, shownAfterClear)
    ensures session.log == old(session.log) + ScenarioLog(session.fieldPresent, TestInput(config), session.canCapture)
    ensures session.fieldValue == if session.fieldPresent then shownAfterClear else old(session.fieldValue)
    ensures RenderReport(Step1File, Step2File, filled, cleared, TestInput(config)) == Some(report)
  {
    hide Preamble, RowOneClass, ClassToLabel, LabelToImage, RowTwoClass, Epilogue, RenderReport, CapturedFiles,
      FillVerdict, ClearVerdict, Placeholders, ReportTexts, AsText, ScenarioLog;
    var stored := ReadUsername(config);
    var username := if stored.None? then "" else stored.value;

    filled, cleared := RunSteps(session, username, shownAfterTyping, shownAfterClear);

    RenderedPage(Step1File, Step2File, filled, cleared, username);
    var html := RenderReport(Step1File, Step2File, filled, cleared, username);
    report := html.value;
  }

  /**
   * The degraded run: with no field on the page both steps fail, whatever
   * the input, and both screenshots are still taken, step 1's first.
   */
  method FieldMissingRun(config: ConfigFile, shownAfterTyping: string, shownAfterClear: string)
    returns (filled: bool, cleared: bool, files: seq<string>)
    ensures !filled && !cleared
    ensures files == [Step1File, Step2File]
  {
    hide Preamble, RowOneClass, ClassToLabel, LabelToImage, RowTwoClass, Epilogue, RenderReport;
    var session := new Session(false, "", true);
    var report;
    filled, cleared, report := Run(session, config, shownAfterTyping, shownAfterClear);
    files := CapturedFiles(session.log);
  }

  /** A driver without screenshots: the run still ends with its verdicts and report, and writes no image. */
  method NoCaptureRun(fieldPresent: bool, config: ConfigFile, shownAfterTyping: string, shownAfterClear: string)
    returns (files: seq<string>, report: string)
    ensures files == []
    ensures RenderReport(Step1File, Step2File,
                         FillVerdict(fieldPresent, TestInput(config), shownAfterTyping),
                         ClearVerdict(fieldPresent, shownAfterClear), TestInput(config)) == Some(report)
  {
    hide Preamble, RowOneClass, ClassToLabel, LabelToImage, RowTwoClass, Epilogue, RenderReport;
    var session := new Session(fieldPresent, "", false);
    var filled, cleared;
    filled, cleared, report := Run(session, config, shownAfterTyping, shownAfterClear);
    assert session.log == ScenarioLog(fieldPresent, TestInput(config), false);
    files := CapturedFiles(session.log);
  }

  /** A username file that holds `alice@example.com`, a page that behaves: PASS and PASS. */
  method AliceRun() returns (filled: bool, cleared: bool, report: string)
    ensures filled && cleared
    ensures report == Page("alice@example.com", Badge("pass", "PASS"), Step1File,
                           Badge("pass", "PASS"), Step2File)
  {
    hide Preamble, RowOneClass, ClassToLabel, LabelToImage, RowTwoClass, Epilogue, RenderReport;
    var config := Parsed(JObject(map[UsernameKey := JString("alice@example.com")]));
    var session := new Session(true, "", true);
    filled, cleared, report := Run(session, config, "alice@example.com", "");
    RenderedPage(Step1File, Step2File, filled, cleared, TestInput(config));
  }

  /**
   * No username file: step 1 fails and the page shows the not-found text;
   * step 2 still passes when the field empties, since it does not look at
   * the input.
   */
  method MissingFileRun() returns (filled: bool, cleared: bool, report: string)
    ensures !filled && cleared
    ensures report == Page(NotFoundSentinel, Badge("fail", "FAIL"), Step1File,
                           Badge("pass", "PASS"), Step2File)
  {
    hide Preamble, RowOneClass, ClassToLabel, LabelToImage, RowTwoClass, Epilogue, RenderReport;
    var session := new Session(true, "", true);
    filled, cleared, report := Run(session, Unreadable, "", "");
    RenderedPage(Step1File, Step2File, filled, cleared, TestInput(Unreadable));
  }
}
