/** The strings the logger builds: severity tags, the padded single-sink
    prefix, the multi-sink line prefix, message bodies and the daily file path.
    Everything here is a pure function of its arguments. */
module Format {
  import opened Wrappers

  /** The six severities of the public API. */
  datatype Severity = Debug | Info | Warn | Error | Critical | Fatal

  /** The tag written for a severity: upper-case letters, short enough for the padded prefix. */
  function Name(sev: Severity): (r: string)
    ensures 4 <= |r| <= 8
    ensures forall i :: 0 <= i < |r| ==> 'A' <= r[i] <= 'Z'
  {
    match sev
    case Debug => "DEBUG"
    case Info => "INFO"
    case Warn => "WARN"
    case Error => "ERROR"
    case Critical => "CRITICAL"
    case Fatal => "FATAL"
  }

  /** Reads a tag back; exactly the six tags are recognised. */
  function SeverityFromName(t: string): (r: Option<Severity>)
    ensures forall sev :: r == Some(sev) <==> Name(sev) == t
  {
    if t == "DEBUG" then Some(Debug)
    else if t == "INFO" then Some(Info)
    else if t == "WARN" then Some(Warn)
    else if t == "ERROR" then Some(Error)
    else if t == "CRITICAL" then Some(Critical)
    else if t == "FATAL" then Some(Fatal)
    else None
  }

  // ---------------------------------------------------------------------------
  // Single-sink prefix: Go's "%-10s"

  function Spaces(n: nat): (r: string)
    ensures |r| == n
    ensures forall i :: 0 <= i < n ==> r[i] == ' '
  {
    if n == 0 then "" else Spaces(n - 1) + " "
  }

  /** Go's `%-*s`: `s` left-justified in a field of `width` characters,
      padded with spaces on the right and never truncated. */
  function PadRight(s: string, width: nat): (r: string)
    ensures |r| == if |s| < width then width else |s|
    ensures r[..|s|] == s
    ensures forall i :: |s| <= i < |r| ==> r[i] == ' '
  {
    if |s| < width then s + Spaces(width - |s|) else s
  }

  const PrefixWidth: nat := 10

  /** The prefix the single-sink logger is given before each write. */
  function SeverityPrefix(sev: Severity): (r: string)
    ensures |r| == PrefixWidth
    ensures r[..|Name(sev)|] == Name(sev)
    ensures forall i :: |Name(sev)| <= i < PrefixWidth ==> r[i] == ' '
  {
    PadRight(Name(sev), PrefixWidth)
  }

  /** Drops trailing spaces. */
  function TrimRight(s: string): string
  {
    if s != [] && s[|s| - 1] == ' ' then TrimRight(s[..|s| - 1]) else s
  }

  lemma {:induction false} TrimPadding(s: string, n: nat)
    requires s == [] || s[|s| - 1] != ' '
    ensures TrimRight(s + Spaces(n)) == s
  {
    if n == 0 {
      assert s + Spaces(0) == s;
    } else {
      var t := s + Spaces(n);
      assert t[..|t| - 1] == s + Spaces(n - 1);
      TrimPadding(s, n - 1);
    }
  }

  /** The padded prefix still identifies its severity: trimming the padding
      and reading the tag back gives the severity that was written. */
  lemma SeverityPrefixRecovers(sev: Severity)
    ensures SeverityFromName(TrimRight(SeverityPrefix(sev))) == Some(sev)
  {
    var name := Name(sev);
    assert SeverityPrefix(sev) == name + Spaces(PrefixWidth - |name|);
    TrimPadding(name, PrefixWidth - |name|);
  }

  /** The six prefixes spelled out. */
  lemma SeverityPrefixes()
    ensures SeverityPrefix(Debug) == "DEBUG     " && SeverityPrefix(Info) == "INFO      "
    ensures SeverityPrefix(Warn) == "WARN      " && SeverityPrefix(Error) == "ERROR     "
    ensures SeverityPrefix(Critical) == "CRITICAL  " && SeverityPrefix(Fatal) == "FATAL     "
  {
  }

  // ---------------------------------------------------------------------------
  // Decimal line numbers: Go's "%d" on a non-negative int

  function Digit(d: nat): (c: char)
    requires d < 10
  {
    (48 + d) as char
  }

  function DigitValue(c: char): nat
  {
    if '0' <= c <= '9' then c as int - 48 else 0
  }

  /** The decimal spelling of `n`: at least one digit, digits only, and no
      leading zero (only zero itself is spelled "0"). */
  function Decimal(n: nat): (r: string)
    ensures |r| >= 1
    ensures forall i :: 0 <= i < |r| ==> '0' <= r[i] <= '9'
    ensures r[0] == '0' <==> n == 0
  {
    if n < 10 then [Digit(n)] else Decimal(n / 10) + [Digit(n % 10)]
  }

  function ParseDecimal(s: string): nat
  {
    if s == [] then 0 else ParseDecimal(s[..|s| - 1]) * 10 + DigitValue(s[|s| - 1])
  }

  /** The line number can be read back from its spelling. */
  lemma {:induction false} DecimalRoundTrip(n: nat)
    ensures ParseDecimal(Decimal(n)) == n
  {
    if n >= 10 {
      DecimalRoundTrip(n / 10);
      var d := Decimal(n / 10) + [Digit(n % 10)];
      assert d[..|d| - 1] == Decimal(n / 10);
    }
  }

  // ---------------------------------------------------------------------------
  // Multi-sink line: "<file>:<line>\t<SEV>\t…"

  /** The position and severity fields that open a multi-sink line. */
  function LinePrefix(file: string, line: nat, sev: Severity): string
  {
    file + ":" + Decimal(line) + "\t" + Name(sev) + "\t"
  }

  /** The fields of that prefix: the file, a colon, the line number, a tab,
      the tag and a tab, each at a fixed position. */
  lemma LinePrefixFields(file: string, line: nat, sev: Severity)
    ensures var r, d, t := LinePrefix(file, line, sev), Decimal(line), Name(sev);
      |r| == |file| + |d| + |t| + 3 &&
      r[..|file|] == file && r[|file|] == ':' &&
      r[|file| + 1..|file| + 1 + |d|] == d &&
      r[|file| + 1 + |d|] == '\t' && r[|r| - |t| - 1..|r| - 1] == t && r[|r| - 1] == '\t'
  {
  }

  /** The text after the first tab, if there is one. */
  function AfterTab(s: string): Option<string>
  {
    if s == [] then None else if s[0] == '\t' then Some(s[1..]) else AfterTab(s[1..])
  }

  /** The text before the first tab (all of `s` if it has none). */
  function UpToTab(s: string): string
  {
    if s == [] || s[0] == '\t' then [] else [s[0]] + UpToTab(s[1..])
  }

  /** The severity named in the second tab-separated field of a line. */
  function SeverityOfLine(s: string): Option<Severity>
  {
    match AfterTab(s)
    case None => None
    case Some(rest) => SeverityFromName(UpToTab(rest))
  }

  lemma {:induction false} AfterTabSkips(a: string, b: string)
    requires '\t' !in a
    ensures AfterTab(a + "\t" + b) == Some(b)
  {
    if a != [] {
      assert (a + "\t" + b)[1..] == a[1..] + "\t" + b;
      AfterTabSkips(a[1..], b);
    }
  }

  lemma {:induction false} UpToTabStops(a: string, b: string)
    requires '\t' !in a
    ensures UpToTab(a + "\t" + b) == a
  {
    if a != [] {
      assert (a + "\t" + b)[1..] == a[1..] + "\t" + b;
      UpToTabStops(a[1..], b);
      assert a == [a[0]] + a[1..];
    }
  }

  /** Whenever the caller's file name has no tab, the severity of a
      multi-sink line is its second tab-separated field. */
  lemma SeverityOfLineRecovers(file: string, line: nat, sev: Severity, body: string)
    requires '\t' !in file
    ensures SeverityOfLine(LinePrefix(file, line, sev) + body) == Some(sev)
  {
    var head := file + ":" + Decimal(line);
    assert '\t' !in head by {
      forall i | |file| + 1 <= i < |head| ensures head[i] != '\t' {
        assert head[i] == Decimal(line)[i - |file| - 1];
      }
    }
    var tail := Name(sev) + "\t" + body;
    assert LinePrefix(file, line, sev) + body == head + "\t" + tail;
    AfterTabSkips(head, tail);
    assert '\t' !in Name(sev);
    UpToTabStops(Name(sev), body);
  }

  // ---------------------------------------------------------------------------
  // Message bodies

  /** The arguments of a plain call (already rendered by `%v`, so a string
      argument stands for itself), or a formatted call: `text` is the caller's
      format with its verbs filled, and `extra` is the `%!(EXTRA …)` marker
      Go's formatter appends after the whole format for arguments the format
      does not use (empty when there are none). */
  datatype Call = Plain(args: seq<string>) | Formatted(text: string, extra: string)

  function Join(parts: seq<string>, sep: string): string
  {
    if parts == [] then ""
    else if |parts| == 1 then parts[0]
    else parts[0] + sep + Join(parts[1..], sep)
  }

  /** The body a single-sink call hands to its logger. The plain forms use
      `fmt.Sprintln(v...)`: arguments joined by spaces and a newline; `Debug`
      passes the slice itself, which prints as one bracketed operand. */
  function SingleBody(sev: Severity, call: Call): (r: string)
    ensures call.Plain? ==> |r| >= 1 && r[|r| - 1] == '\n'
    ensures call.Plain? && sev == Debug ==> r[0] == '['
    ensures call.Plain? && sev != Debug && |call.args| == 1 ==> r == call.args[0] + "\n"
    ensures call.Formatted? ==> r == call.text + call.extra
  {
    match call
    case Plain(args) => if sev == Debug then "[" + Join(args, " ") + "]\n" else Join(args, " ") + "\n"
    case Formatted(text, extra) => text + extra
  }

  /** How `Sprintln` lays out plain operands. Spread (every severity but
      `Debug`): no argument gives a lone newline, one gives itself and a
      newline, and more give the first, one space, and the body of the rest.
      As one slice operand (`Debug`): the spread text, bracketed, before the
      newline. */
  lemma SingleBodyForms(sev: Severity, args: seq<string>)
    ensures var r := SingleBody(sev, Plain(args));
      (sev != Debug ==>
        (args == [] ==> r == "\n") &&
        (|args| == 1 ==> r == args[0] + "\n") &&
        (|args| >= 2 ==> r == args[0] + " " + SingleBody(sev, Plain(args[1..])))) &&
      (sev == Debug ==>
        var spread := SingleBody(Info, Plain(args));
        r == "[" + spread[..|spread| - 1] + "]\n")
  {
    var spread := Join(args, " ") + "\n";
    assert spread[..|spread| - 1] == Join(args, " ");
  }

  /** Two plain arguments: `Info` joins them, `Debug` brackets them. */
  lemma SingleBodyExamples()
    ensures SingleBody(Info, Plain(["a", "b"])) == "a b\n"
    ensures SingleBody(Debug, Plain(["a", "b"])) == "[a b]\n"
  {
  }

  /** Go's rendering of superfluous string arguments. */
  function ExtraArgs(rest: seq<string>): string
  {
    if rest == [] then "" else "%!(EXTRA " + Join(Typed(rest), ", ") + ")"
  }

  function Typed(rest: seq<string>): seq<string>
  {
    if rest == [] then [] else ["string=" + rest[0]] + Typed(rest[1..])
  }

  /** `Printf(prefix + "%s\n", v...)`: only the first argument fills the verb;
      none leaves a MISSING marker and further ones are appended as EXTRA. */
  function PercentSLine(args: seq<string>): (r: string)
    ensures args == [] ==> r == "%!s(MISSING)\n"
    ensures |args| == 1 ==> r == args[0] + "\n"
    ensures |args| >= 1 ==> args[0] + "\n" <= r
    ensures |args| > 1 ==> |r| > |args[0]| + 1 && r[|r| - 1] == ')'
  {
    (if args == [] then "%!s(MISSING)" else args[0]) + "\n" + ExtraArgs(if |args| <= 1 then [] else args[1..])
  }

  /** The format a multi-sink call hands to `Printf`, once its own verbs are
      filled: the plain forms render their arguments through `%s\n`; the
      formatted forms append the caller's format, and `Debugf` alone adds a
      newline after it. Surplus arguments are marked after all of that, so
      after `Debugf`'s newline. */
  function MultiBody(sev: Severity, call: Call): string
  {
    match call
    case Plain(args) => PercentSLine(args)
    case Formatted(text, extra) => if sev == Debug then text + "\n" + extra else text + extra
  }

  /** How `log.Logger.Output` finishes a message: it appends a newline
      unless the message already ends in one. */
  function Completed(s: string): string
  {
    if s != [] && s[|s| - 1] == '\n' then s else s + "\n"
  }

  /** A completed message ends in a newline and extends the message by at
      most that newline; a message that already ends in one is kept as it
      is, so completing twice changes nothing. */
  lemma CompletedEnds(s: string)
    ensures var r := Completed(s);
      |r| >= 1 && r[|r| - 1] == '\n' && s <= r && |r| <= |s| + 1 &&
      (s != [] && s[|s| - 1] == '\n' ==> r == s) &&
      Completed(r) == r
  {
  }

  /** Completing after a prefix that does not end in a newline completes the
      part after it. */
  lemma CompletedAfter(p: string, b: string)
    requires p != [] && p[|p| - 1] != '\n'
    ensures Completed(p + b) == p + Completed(b)
  {
    if b == [] {
      assert p + b == p;
    } else {
      assert (p + b)[|p + b| - 1] == b[|b| - 1];
    }
  }

  /** The line a single-sink call writes after the date and time header:
      `Lmsgprefix` puts the padded tag just before the message, and `Output`
      completes the message. */
  function SingleLine(sev: Severity, call: Call): string
  {
    SeverityPrefix(sev) + Completed(SingleBody(sev, call))
  }

  /** A single-sink line is the padded tag, then the body, and ends in a
      newline: a plain body already ends in one and is kept, a formatted
      text gets one only when it lacks it. */
  lemma SingleLineShape(sev: Severity, call: Call)
    ensures var r := SingleLine(sev, call);
      |r| > PrefixWidth && r[..PrefixWidth] == SeverityPrefix(sev) && r[|r| - 1] == '\n' &&
      (call.Plain? ==> r == SeverityPrefix(sev) + SingleBody(sev, call)) &&
      (call.Formatted? ==> r == SeverityPrefix(sev) + Completed(call.text + call.extra))
  {
    CompletedEnds(SingleBody(sev, call));
  }

  /** The line every registered logger writes in multi-sink mode: the message
      `Printf` formats, completed by `Output`. */
  function MultiLine(sev: Severity, call: Call, file: string, line: nat): (r: string)
    ensures |r| >= |LinePrefix(file, line, sev)|
  {
    Completed(LinePrefix(file, line, sev) + MultiBody(sev, call))
  }

  /** The prefix ends in a tab, so `Output` completes only the body after it. */
  lemma MultiLineSplits(sev: Severity, call: Call, file: string, line: nat)
    ensures MultiLine(sev, call, file, line) == LinePrefix(file, line, sev) + Completed(MultiBody(sev, call))
  {
    LinePrefixFields(file, line, sev);
    CompletedAfter(LinePrefix(file, line, sev), MultiBody(sev, call));
  }

  /** A multi-sink line starts with the caller's position and the severity
      tag and always ends in a newline. A plain call with no argument shows
      the MISSING marker, with one argument that argument, and with more
      ends in the EXTRA marker. A formatted call adds its text and any EXTRA
      marker, completed by `Output`; `Debugf` puts its own newline between
      the two, so a text that already ends in a newline leaves an empty line
      and a marker lands on a line of its own. The tag can be read back from
      the line. */
  lemma MultiLineShape(sev: Severity, call: Call, file: string, line: nat)
    ensures var r, p := MultiLine(sev, call, file, line), LinePrefix(file, line, sev);
      p <= r && r[|r| - 1] == '\n' &&
      (call.Plain? && call.args == [] ==> r == p + "%!s(MISSING)\n") &&
      (call.Plain? && |call.args| == 1 ==> r == p + call.args[0] + "\n") &&
      (call.Plain? && |call.args| > 1 ==> |r| >= |p| + 2 && r[|r| - 2] == ')') &&
      (call.Formatted? && sev != Debug ==> r == p + Completed(call.text + call.extra)) &&
      (call.Formatted? && sev == Debug ==> r == p + Completed(call.text + "\n" + call.extra)) &&
      (call.Formatted? && sev == Debug && call.extra == "" ==> r == p + call.text + "\n") &&
      ('\t' !in file ==> SeverityOfLine(r) == Some(sev))
  {
    var p, body := LinePrefix(file, line, sev), MultiBody(sev, call);
    LinePrefixFields(file, line, sev);
    CompletedAfter(p, body);
    if '\t' !in file {
      SeverityOfLineRecovers(file, line, sev, Completed(body));
    }
  }

  /** Formatted multi-sink lines, spelled out: `Infof` and `Debugf` of a text
      without a newline give the same ending; of a text with one, `Debugf`
      leaves an empty line and `Infof` does not. */
  lemma FormattedEndings(file: string, line: nat)
    ensures var i, d := LinePrefix(file, line, Info), LinePrefix(file, line, Debug);
      MultiLine(Info, Formatted("x", ""), file, line) == i + "x\n" &&
      MultiLine(Debug, Formatted("x", ""), file, line) == d + "x\n" &&
      MultiLine(Info, Formatted("x\n", ""), file, line) == i + "x\n" &&
      MultiLine(Debug, Formatted("x\n", ""), file, line) == d + "x\n\n"
  {
    MultiLineSplits(Info, Formatted("x", ""), file, line);
    MultiLineSplits(Debug, Formatted("x", ""), file, line);
    MultiLineSplits(Info, Formatted("x\n", ""), file, line);
    MultiLineSplits(Debug, Formatted("x\n", ""), file, line);
    assert Completed("x" + "") == "x\n";
    assert Completed("x\n" + "") == "x\n";
  }

  /** Surplus arguments (an EXTRA marker, which ends in `)`): the formatted
      forms other than `Debugf` put the marker right after the text on the
      same line, while `Debugf` puts it after its own newline, so the call
      writes two lines. */
  lemma SurplusEndings(sev: Severity, text: string, extra: string, file: string, line: nat)
    requires extra != [] && extra[|extra| - 1] != '\n'
    ensures var r, p := MultiLine(sev, Formatted(text, extra), file, line), LinePrefix(file, line, sev);
      (sev != Debug ==> r == p + text + extra + "\n") &&
      (sev == Debug ==> r == p + text + "\n" + extra + "\n")
  {
    MultiLineSplits(sev, Formatted(text, extra), file, line);
    var body := if sev == Debug then text + "\n" + extra else text + extra;
    assert body == MultiBody(sev, Formatted(text, extra));
    assert body[|body| - 1] == extra[|extra| - 1];
    assert Completed(body) == body + "\n";
  }

  // ---------------------------------------------------------------------------
  // Daily log file

  const DefaultBaseName := "JLogger"

  /** The base name of the log file: the caller's, or the default when empty. */
  function BaseName(name: string): (r: string)
    ensures r != ""
    ensures name != "" ==> r == name
    ensures name == "" ==> r == DefaultBaseName
  {
    if name == "" then DefaultBaseName else name
  }

  /** `./log/<name>-<date>.log`. */
  function LogFilePath(name: string, date: string): (r: string)
    ensures |r| == |name| + |date| + 11
    ensures r[..6] == "./log/" && r[6..6 + |name|] == name && r[6 + |name|] == '-'
    ensures r[7 + |name|..7 + |name| + |date|] == date && r[|r| - 4..] == ".log"
  {
    "./log/" + name + "-" + date + ".log"
  }

  /** Among base names of one length the path determines name and date, so
      a new date always names a different file. */
  lemma LogFilePathInjective(n1: string, d1: string, n2: string, d2: string)
    requires |n1| == |n2|
    ensures LogFilePath(n1, d1) == LogFilePath(n2, d2) <==> n1 == n2 && d1 == d2
  {
    if LogFilePath(n1, d1) == LogFilePath(n2, d2) {
      var p := LogFilePath(n1, d1);
      assert n1 == p[6..6 + |n1|] == n2;
      assert d1 == p[7 + |n1|..7 + |n1| + |d1|] == d2;
    }
  }
}
