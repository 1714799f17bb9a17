/**
 * The browser as the scenario sees it: one form field that is either on the
 * page or not, its current value, whether the driver can take screenshots,
 * and the log of what was done to the page. How the page reacts to typing
 * and clearing is not modelled: the caller says what the field shows after
 * each action.
 */
module Browser {

  /** Something done to the page, in order. */
  datatype Event = Typed(keys: string) | Cleared | Captured(file: string)

  /** The screenshot files in a log, in the order they were written. */
  function CapturedFiles(log: seq<Event>): (files: seq<string>)
    ensures |files| <= |log|
    ensures forall f :: f in files <==> Captured(f) in log
  {
    if log == [] then []
    else
      var rest := CapturedFiles(log[1..]);
      assert log == [log[0]] + log[1..];
      if log[0].Captured? then [log[0].file] + rest else rest
  }

  /** The screenshots of a concatenated log are those of its parts, in order. */
  lemma {:induction false} CapturedFilesAppend(a: seq<Event>, b: seq<Event>)
    ensures CapturedFiles(a + b) == CapturedFiles(a) + CapturedFiles(b)
  {
    if a == [] {
      assert a + b == b;
    } else {
      assert (a + b)[0] == a[0];
      assert (a + b)[1..] == a[1..] + b;
      CapturedFilesAppend(a[1..], b);
    }
  }

  class Session {
    /** Whether `findElement(By.id("username"))` finds the field. */
    const fieldPresent: bool
    /** Whether the driver is a `TakesScreenshot`. */
    const canCapture: bool
    /** The field's `value` attribute. */
    var fieldValue: string
    var log: seq<Event>

    constructor (fieldPresent: bool, initialValue: string, canCapture: bool)
      ensures this.fieldPresent == fieldPresent && this.canCapture == canCapture
      ensures fieldValue == initialValue && log == []
    {
      this.fieldPresent := fieldPresent;
      this.canCapture := canCapture;
      fieldValue := initialValue;
      log := [];
    }

    /** Looks the field up; a missing field is reported, not raised. */
    method FindField() returns (found: bool)
      ensures found == fieldPresent
    {
      found := fieldPresent;
    }

    /** `sendKeys(keys)`; the field then shows `shown`. */
    method SendKeys(keys: string, shown: string)
      requires fieldPresent
      modifies this
      ensures fieldValue == shown && log == old(log) + [Typed(keys)]
    {
      fieldValue := shown;
      log := log + [Typed(keys)];
    }

    /** `clear()`; the field then shows `shown`. */
    method Clear(shown: string)
      requires fieldPresent
      modifies this
      ensures fieldValue == shown && log == old(log) + [Cleared]
    {
      fieldValue := shown;
      log := log + [Cleared];
    }

    /** `getAttribute("value")`. */
    method Value() returns (v: string)
      requires fieldPresent
      ensures v == fieldValue
    {
      v := fieldValue;
    }

    /** Captures the page into `file`; only a capable driver can. */
    method SaveScreenshot(file: string)
      requires canCapture
      modifies this
      ensures fieldValue == old(fieldValue) && log == old(log) + [Captured(file)]
    {
      log := log + [Captured(file)];
    }
  }
}
