/**
 * `generateHtmlReport` without the file write: the seven values that fill
 * the template's `%s` slots, the template itself, and the formatted page.
 */
module HtmlReport {
  import opened Wrappers
  import opened JavaFormat

  /** Shown instead of the username when the username is empty. */
  const NotFoundSentinel := "(Not Found in username.json)"

  /** The username line's value: never empty. */
  function DisplayValue(username: string): (shown: string)
    ensures shown != []
    ensures username != [] ==> shown == username
    ensures username == [] ==> shown == NotFoundSentinel
  {
    if username == [] then NotFoundSentinel else username
  }

  /** ASCII upper case, letter by letter. */
  function UpperCase(s: string): (u: string)
    ensures |u| == |s|
  {
    seq(|s|, i requires 0 <= i < |s| =>
      if 'a' <= s[i] <= 'z' then (s[i] as int - 'a' as int + 'A' as int) as char else s[i])
  }

  /** A result cell: its CSS class and its visible text. */
  datatype Badge = Badge(cssClass: string, caption: string)

  /** The result cell of a verdict; the text is the class in upper case. */
  function ResultBadge(pass: bool): (b: Badge)
    ensures b.caption == UpperCase(b.cssClass)
    ensures b.cssClass == "pass" || b.cssClass == "fail"
    ensures pass <==> b.cssClass == "pass"
  {
    var b := if pass then Badge("pass", "PASS") else Badge("fail", "FAIL");
    assert b.caption == UpperCase(b.cssClass);
    b
  }

  /** The seven `String.format` arguments, in slot order. */
  function Placeholders(step1Name: string, step2Name: string, filledOk: bool, clearedOk: bool,
                        username: string): (vals: seq<string>)
    ensures |vals| == 7
    ensures vals[0] != [] && (username != [] ==> vals[0] == username)
    ensures username == [] ==> vals[0] == NotFoundSentinel
    ensures vals[2] == UpperCase(vals[1]) && vals[5] == UpperCase(vals[4])
    ensures vals[1] == (if filledOk then "pass" else "fail")
    ensures vals[4] == (if clearedOk then "pass" else "fail")
    ensures vals[3] == step1Name && vals[6] == step2Name
  {
    var row1, row2 := ResultBadge(filledOk), ResultBadge(clearedOk);
    [DisplayValue(username), row1.cssClass, row1.caption, step1Name, row2.cssClass, row2.caption, step2Name]
  }

  // The template's literal text, cut at its seven `%s` slots. The pieces are
  // functions rather than constants so that a proof which does not need their
  // characters can `hide` them and not reason about 1.6K characters of text.

  function Preamble(): string
  {
    "<!doctype html>\n" +
    "<html lang=\"en\">\n" +
    "<head>\n" +
    "  <meta charset=\"utf-8\">\n" +
    "  <meta name=\"viewport\" content=\"width=device-width, initial-scale=1\">\n" +
    "  <title>Test Report</title>\n" +
    "  <style>\n" +
    "    body { font-family: Arial, sans-serif; padding: 18px; }\n" +
    "    table { border-collapse: collapse; width: 100%; max-width: 900px; }\n" +
    "    th, td { border: 1px solid #ccc; padding: 8px; text-align: left; vertical-align: top; }\n" +
    "    th { background: #f2f2f2; }\n" +
    "    .pass { color: green; font-weight: bold; }\n" +
    "    .fail { color: red; font-weight: bold; }\n" +
    "    img.sshot { max-width: 320px; height: auto; border: 1px solid #999; }\n" +
    "    footer { margin-top: 20px; font-size: 0.9em; color: #555; }\n" +
    "  </style>\n" +
    "</head>\n" +
    "<body>\n" +
    "<h1>Automated Selenium Test Report</h1>\n" +
    "<p><strong>Username value used:</strong> "
  }

  function RowOneClass(): string
  {
    "</p>\n" +
    "<table>\n" +
    "  <thead>\n" +
    "    <tr><th>No.</th><th>Step</th><th>Result</th><th>Screenshot</th></tr>\n" +
    "  </thead>\n" +
    "  <tbody>\n" +
    "    <tr>\n" +
    "      <td>1.</td>\n" +
    "      <td>Fill value in username field.</td>\n" +
    "      <td class=\""
  }

  function ClassToLabel(): string
  { "\">"
  }

  function LabelToImage(): string
  {
    "</td>\n" +
    "      <td><img class=\"sshot\" src=\""
  }

  function RowTwoClass(): string
  {
    "\" alt=\"step1\" /></td>\n" +
    "    </tr>\n" +
    "    <tr>\n" +
    "      <td>2.</td>\n" +
    "      <td>Empty value in username field.</td>\n" +
    "      <td class=\""
  }

  function Epilogue(): string
  {
    "\" alt=\"step2\" /></td>\n" +
    "    </tr>\n" +
    "  </tbody>\n" +
    "</table>\n" +
    "<p>Generated automatically by <b>Selenium (Java)</b>.</p>\n" +
    "<footer id=\"last-updated\"></footer>\n" +
    "<script>\n" +
    "  const footerDate = document.getElementById(\"last-updated\");\n" +
    "  const now = new Date();\n" +
    "  const options = { year: \"numeric\", month: \"short\", day: \"numeric\" };\n" +
    "  const formattedDate = now.toLocaleDateString(\"en-US\", options);\n" +
    "  footerDate.textContent = `Last updated: ${formattedDate}`;\n" +
    "</script>\n" +
    "</body>\n" +
    "</html>\n"
  }

  /** The template's literal text, cut at its seven slots. */
  function ReportTexts(): seq<string>
  {
    [Preamble(), RowOneClass(), ClassToLabel(), LabelToImage(), RowTwoClass(), ClassToLabel(), LabelToImage(), Epilogue()]
  }

  /** The format string as the Java text block spells it (the CSS `100%` as `100%%`). */
  function HtmlTemplate(): string
  {
    Pattern(ReportTexts())
  }

  /** The page the report shows, written out slot by slot. */
  function Page(display: string, row1: Badge, step1Name: string, row2: Badge, step2Name: string): string
  {
    Preamble() + (display +
    (RowOneClass() + (row1.cssClass + (ClassToLabel() + (row1.caption + (LabelToImage() + (step1Name +
    (RowTwoClass() + (row2.cssClass + (ClassToLabel() + (row2.caption + (LabelToImage() + (step2Name +
    Epilogue())))))))))))))
  }

  /** Splicing seven values into eight texts, written out. */
  lemma SpliceSeven(t: seq<string>, vals: seq<string>)
    requires |t| == 8 && |vals| == 7
    ensures Splice(t, vals) ==
      t[0] + (vals[0] + (t[1] + (vals[1] + (t[2] + (vals[2] + (t[3] + (vals[3] +
      (t[4] + (vals[4] + (t[5] + (vals[5] + (t[6] + (vals[6] + t[7])))))))))))))
  {
    assert Splice(t[7..], vals[7..]) == t[7];
    assert Splice(t[6..], vals[6..]) == t[6] + (vals[6] + Splice(t[7..], vals[7..]));
    assert Splice(t[5..], vals[5..]) == t[5] + (vals[5] + Splice(t[6..], vals[6..]));
    assert Splice(t[4..], vals[4..]) == t[4] + (vals[4] + Splice(t[5..], vals[5..]));
    assert Splice(t[3..], vals[3..]) == t[3] + (vals[3] + Splice(t[4..], vals[4..]));
    assert Splice(t[2..], vals[2..]) == t[2] + (vals[2] + Splice(t[3..], vals[3..]));
    assert Splice(t[1..], vals[1..]) == t[1] + (vals[1] + Splice(t[2..], vals[2..]));
  }

  /** Formatting the template with one value per slot fills the slots in order. */
  lemma FormatsTemplate(vals: seq<string>)
    requires |vals| == 7
    ensures Format(HtmlTemplate(), vals) == Some(Splice(ReportTexts(), vals))
  {
    hide Preamble, RowOneClass, ClassToLabel, LabelToImage, RowTwoClass, Epilogue;
    FormatFilled(ReportTexts(), vals);
  }

  /**
   * `generateHtmlReport`'s page: the template formatted with the seven
   * values never fails, and is the template text with them spliced in.
   */
  function RenderReport(step1Name: string, step2Name: string, filledOk: bool, clearedOk: bool,
                        username: string): (html: Option<string>)
    ensures html == Some(Splice(ReportTexts(), Placeholders(step1Name, step2Name, filledOk, clearedOk, username)))
  {
    var vals := Placeholders(step1Name, step2Name, filledOk, clearedOk, username);
    FormatsTemplate(vals);
    Format(HtmlTemplate(), vals)
  }

  /**
   * The page written out: the template text with the display value, then
   * row 1's class, text and image, then row 2's, in that order.
   */
  lemma RenderedPage(step1Name: string, step2Name: string, filledOk: bool, clearedOk: bool,
                     username: string)
    ensures RenderReport(step1Name, step2Name, filledOk, clearedOk, username) ==
      Some(Page(DisplayValue(username), ResultBadge(filledOk), step1Name, ResultBadge(clearedOk), step2Name))
  {
    hide Preamble, RowOneClass, ClassToLabel, LabelToImage, RowTwoClass, Epilogue;
    SpliceSeven(ReportTexts(), Placeholders(step1Name, step2Name, filledOk, clearedOk, username));
  }

  /** The page shows both verdicts: pages that differ only in verdicts differ. */
  lemma VerdictsReadable(step1Name: string, step2Name: string, username: string,
                         filled1: bool, cleared1: bool, filled2: bool, cleared2: bool)
    requires RenderReport(step1Name, step2Name, filled1, cleared1, username) ==
             RenderReport(step1Name, step2Name, filled2, cleared2, username)
    ensures filled1 == filled2 && cleared1 == cleared2
  {
    hide Preamble, RowOneClass, ClassToLabel, LabelToImage, RowTwoClass, Epilogue, RenderReport;
    RenderedPage(step1Name, step2Name, filled1, cleared1, username);
    RenderedPage(step1Name, step2Name, filled2, cleared2, username);
    var v := Placeholders(step1Name, step2Name, filled1, cleared1, username);
    var w := Placeholders(step1Name, step2Name, filled2, cleared2, username);
    if filled1 != filled2 {
      assert v[..1] == w[..1];
      SpliceSeparates(ReportTexts(), v, w, 1);
    } else if cleared1 != cleared2 {
      assert v[..4] == w[..4];
      SpliceSeparates(ReportTexts(), v, w, 4);
    }
  }
}
