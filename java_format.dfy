/**
 * `String.format` as far as the report template uses it: the `%s`
 * conversion, which inserts the next argument, and the `%%` escape, which
 * produces one percent sign. A failed format (an exception in Java) is `None`.
 */
module JavaFormat {
  import opened Wrappers

  /** Puts `prefix` in front of a formatted text; a failure stays a failure. */
  function Prepend(prefix: string, r: Option<string>): Option<string>
  {
    if r.Some? then Some(prefix + r.value) else None
  }

  /**
   * Formats `fmt` with `args`. A `%s` with no argument left fails, as
   * Java's MissingFormatArgumentException does; arguments left over are
   * ignored, as Java ignores them. A trailing `%` and every conversion
   * other than `%s` and `%%` are rejected here, although Java formats many
   * of them; the report template uses none.
   */
  function Format(fmt: string, args: seq<string>): (r: Option<string>)
    ensures '%' !in fmt ==> r == Some(fmt)
    decreases |fmt|
  {
    if fmt == [] then Some([])
    else if fmt[0] != '%' then
      assert fmt == fmt[..1] + fmt[1..];
      Prepend(fmt[..1], Format(fmt[1..], args))
    else if |fmt| == 1 then None
    else if fmt[1] == '%' then Prepend("%", Format(fmt[2..], args))
    else if fmt[1] == 's' then
      if args == [] then None else Prepend(args[0], Format(fmt[2..], args[1..]))
    else None
  }

  /** The format-string spelling of a literal text: every `%` doubled. */
  function Escape(text: string): (pattern: string)
    ensures |pattern| >= |text|
    ensures '%' !in text ==> pattern == text
  {
    if text == [] then []
    else (if text[0] == '%' then "%%" else text[..1]) + Escape(text[1..])
  }

  /** The format string with the literal `texts` separated by `%s` slots. */
  function Pattern(texts: seq<string>): string
  {
    if texts == [] then []
    else if |texts| == 1 then Escape(texts[0])
    else Escape(texts[0]) + ("%s" + Pattern(texts[1..]))
  }

  /**
   * The literal `texts` with `vals` filled in between them, in order. It is
   * meant for one text more than there are values; unmatched ones are dropped.
   */
  function Splice(texts: seq<string>, vals: seq<string>): string
  {
    if texts == [] then []
    else if vals == [] || |texts| == 1 then texts[0]
    else texts[0] + (vals[0] + Splice(texts[1..], vals[1..]))
  }

  /** Prepending twice is prepending the concatenation. */
  lemma PrependTwice(a: string, b: string, r: Option<string>)
    ensures Prepend(a, Prepend(b, r)) == Prepend(a + b, r)
  {
    if r.Some? {
      assert a + (b + r.value) == (a + b) + r.value;
    }
  }

  /** One step of Format over the escaped spelling of a single character. */
  lemma FormatEscapedChar(c: char, tail: string, args: seq<string>)
    ensures Format((if c == '%' then "%%" else [c]) + tail, args) == Prepend([c], Format(tail, args))
  {
    var fmt := (if c == '%' then "%%" else [c]) + tail;
    if c == '%' {
      assert fmt[0] == '%' && fmt[1] == '%' && |fmt| >= 2;
      assert fmt[2..] == tail;
    } else {
      assert fmt[0] == c && fmt[..1] == [c];
      assert fmt[1..] == tail;
    }
  }

  /** Formatting an escaped text reproduces the text itself. */
  lemma {:induction false} FormatEscaped(text: string, rest: string, args: seq<string>)
    ensures Format(Escape(text) + rest, args) == Prepend(text, Format(rest, args))
  {
    if text == [] {
      assert Escape(text) + rest == rest;
      var r := Format(rest, args);
      if r.Some? {
        assert text + r.value == r.value;
      }
    } else {
      var c := text[0];
      var head := if c == '%' then "%%" else [c];
      assert text[..1] == [c];
      var tail := Escape(text[1..]) + rest;
      assert Escape(text) + rest == head + tail;
      FormatEscapedChar(c, tail, args);
      FormatEscaped(text[1..], rest, args);
      PrependTwice([c], text[1..], Format(rest, args));
      assert [c] + text[1..] == text;
    }
  }

  /**
   * Formatting a pattern fills its slots with the leading arguments, in
   * order; with fewer arguments than slots the format fails.
   */
  lemma {:induction false} FormatPattern(texts: seq<string>, vals: seq<string>)
    requires |texts| >= 1
    ensures Format(Pattern(texts), vals) ==
      if |vals| >= |texts| - 1 then Some(Splice(texts, vals[..|texts| - 1])) else None
  {
    if |texts| == 1 {
      FormatEscaped(texts[0], [], vals);
      assert Escape(texts[0]) + [] == Escape(texts[0]);
      assert texts[0] + [] == texts[0];
    } else {
      var rest := Pattern(texts[1..]);
      FormatEscaped(texts[0], "%s" + rest, vals);
      assert ("%s" + rest)[2..] == rest;
      FormatPattern(texts[1..], if vals == [] then [] else vals[1..]);
      if |vals| >= |texts| - 1 {
        var used := vals[..|texts| - 1];
        assert used[0] == vals[0];
        assert used[1..] == vals[1..][..|texts| - 2];
      }
    }
  }

  /** With one argument per slot, formatting a pattern is splicing. */
  lemma FormatFilled(texts: seq<string>, vals: seq<string>)
    requires |texts| == |vals| + 1
    ensures Format(Pattern(texts), vals) == Some(Splice(texts, vals))
  {
    FormatPattern(texts, vals);
    assert vals[..|texts| - 1] == vals;
  }

  /**
   * Values that agree before slot `k` and start differently at slot `k`
   * give different spliced texts: the text shows every value.
   */
  lemma {:induction false} SpliceSeparates(texts: seq<string>, v: seq<string>, w: seq<string>, k: nat)
    requires |texts| == |v| + 1 && |v| == |w|
    requires k < |v| && v[..k] == w[..k]
    requires |v[k]| == |w[k]| > 0 && v[k][0] != w[k][0]
    ensures Splice(texts, v) != Splice(texts, w)
  {
    var sv, sw := Splice(texts[1..], v[1..]), Splice(texts[1..], w[1..]);
    if k == 0 {
      var i := |texts[0]|;
      assert Splice(texts, v)[i] == v[0][0];
      assert Splice(texts, w)[i] == w[0][0];
    } else {
      assert v[0] == v[..k][0] == w[..k][0] == w[0];
      assert v[1..][..k - 1] == v[..k][1..] == w[..k][1..] == w[1..][..k - 1];
      SpliceSeparates(texts[1..], v[1..], w[1..], k - 1);
      var head := texts[0] + v[0];
      assert Splice(texts, v) == head + sv;
      assert Splice(texts, w) == head + sw;
      assert (head + sv)[|head|..] == sv;
      assert (head + sw)[|head|..] == sw;
    }
  }
}
