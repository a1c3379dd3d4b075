/** Whole runs of the logger against a fresh process and a fresh world:
    first-wins construction, a call on the construction day, a day change,
    a failed rotation, a nil single-sink writer and the single-sink lines. */
module Scenarios {
  import opened Wrappers
  import opened Format
  import opened Os
  import opened Rotation
  import opened Logger

  /** A single-sink construction wins over every later call of either
      constructor, whatever their arguments. */
  method FirstCallWins(out: Handle, flag: int, name: string, today: string)
    returns (first: JLogger, second: JLogger, third: JLogger)
    ensures first == second && second == third
    ensures first.writer == Some(out)
    ensures first.logger == Some(LogConf(Some(out), "", if flag == 0 then DefaultSingleFlags else flag))
    ensures !first.made && first.logFile == None
  {
    var p := new Process();
    var w := new World(out + 1, {}, {});
    first := p.GetJLogger(Some(out), flag);
    var r := p.GetMultiWriteLogger(name, [out], today, w);
    second := r.instance;
    third := p.GetJLogger(Some(out + 1), 0);
  }

  /** A multi-sink construction wins too: a later single-sink request gets
      the multi-sink instance, with the default base name in place. */
  method MultiFirst(extra: Handle, today: string, out: Handle) returns (first: JLogger, second: JLogger)
    ensures first == second
    ensures first.writer == None && first.logFileName == DefaultBaseName
    ensures first.logFile == Some(extra + 1) && first.currentDate == today
    ensures first.multiLoggers.Keys == first.multiWriters.Keys == {extra, extra + 1}
  {
    var p := new Process();
    var w := new World(extra + 1, {}, {});
    var r := p.GetMultiWriteLogger("", [extra], today, w);
    first := r.instance;
    second := p.GetJLogger(Some(out), 0);
  }

  /** A multi-sink logger built on day `d` under the default base name, with
      extra writers `a` and `a + 1` and its day file opened as handle `a + 2`;
      the writers in `broken` fail and the paths in `unopenable` cannot be
      opened. */
  method StartMulti(a: Handle, d: string, unopenable: set<string>, broken: set<Handle>)
    returns (j: JLogger, w: World)
    requires LogFilePath(DefaultBaseName, d) !in unopenable
    ensures fresh(j) && fresh(w)
    ensures j.Valid() && w.Valid() && j.Within(w)
    ensures j.writer == None && j.currentDate == d && j.logFileName == DefaultBaseName && j.logFile == Some(a + 2)
    ensures j.multiLoggers.Keys == {a, a + 1, a + 2}
    ensures w.fs == Files(a + 3, map[a + 2 := FileRec(LogFilePath(DefaultBaseName, d), BuildFlags)], {a + 2}, unopenable)
    ensures w.broken == broken && w.traces == map[]
  {
    var p := new Process();
    w := new World(a + 2, unopenable, broken);
    var r := p.GetMultiWriteLogger("", [a, a + 1], d, w);
    j := r.instance;
  }

  /** A call within the construction day: no rotation and no further open;
      the day's file gets the line. */
  method SameDay(a: Handle, d: string, file: string, line: nat, msg: string)
    returns (out: Outcome, dayFile: seq<string>, opens: nat)
    ensures out == Returned
    ensures dayFile == [MultiLine(Info, Plain([msg]), file, line)]
    ensures opens == 0
  {
    var j, w := StartMulti(a, d, {}, {a + 1});
    out := j.Log(Info, Plain([msg]), file, line, d, d, w);
    dayFile, opens := TraceOf(w.traces, a + 2), w.fs.nextId - (a + 3);
  }

  /** `Debugf` in multi-sink mode: the day file gets the position, the tag,
      the formatted text and the newline `Debugf` adds itself; `Output` adds
      none, so a text that already ends in a newline leaves an empty line. */
  method DebugfLine(a: Handle, d: string, file: string, line: nat, msg: string)
    returns (dayFile: seq<string>)
    ensures dayFile == [LinePrefix(file, line, Debug) + msg + "\n"]
  {
    assert MultiLine(Debug, Formatted(msg, ""), file, line) == LinePrefix(file, line, Debug) + msg + "\n" by {
      MultiLineShape(Debug, Formatted(msg, ""), file, line);
    }
    var j, w := StartMulti(a, d, {}, {a + 1});
    var _ := j.Log(Debug, Formatted(msg, ""), file, line, d, d, w);
    dayFile := TraceOf(w.traces, a + 2);
  }

  /** A failing extra writer does not stop the others: the healthy one still
      gets the line, the failing one nothing. */
  method FailingWriter(a: Handle, d: string, file: string, line: nat, msg: string)
    returns (healthy: seq<string>, failing: seq<string>)
    ensures healthy == [MultiLine(Warn, Formatted(msg, ""), file, line)] && failing == []
  {
    var j, w := StartMulti(a, d, {}, {a + 1});
    var _ := j.Log(Warn, Formatted(msg, ""), file, line, d, d, w);
    healthy, failing := TraceOf(w.traces, a), TraceOf(w.traces, a + 1);
  }

  /** The first call after a day change rotates: the date advances, the
      day-one file is closed, and the new file is registered as a logger only
      and opened without write access. */
  method DayChange(a: Handle, d1: string, d2: string, file: string, line: nat, msg: string)
    returns (out: Outcome, date: string, oldClosed: bool, active: Option<Handle>, registered: bool, writable: bool)
    requires d1 != d2
    ensures out == Returned && date == d2 && oldClosed
    ensures active == Some(a + 3) && registered && !writable
  {
    var j, w := StartMulti(a, d1, {}, {a + 1});
    LogFilePathInjective(DefaultBaseName, d1, DefaultBaseName, d2);
    out := j.Log(Info, Plain([msg]), file, line, d2, d2, w);
    date, oldClosed, active := j.currentDate, a + 2 !in w.fs.open, j.logFile;
    registered := a + 3 in j.multiLoggers && a + 3 !in j.multiWriters;
    writable := a + 3 in w.fs.recs && Writable(w.fs.recs[a + 3].flags);
  }

  /** The lines of that first call after a day change: the new file, opened
      without write access, receives nothing, while the healthy extra writer
      gets the line. */
  method DayChangeLines(a: Handle, d1: string, d2: string, file: string, line: nat, msg: string)
    returns (dayTwo: seq<string>, healthy: seq<string>)
    requires d1 != d2
    ensures dayTwo == [] && healthy == [MultiLine(Info, Plain([msg]), file, line)]
  {
    var j, w := StartMulti(a, d1, {}, {a + 1});
    LogFilePathInjective(DefaultBaseName, d1, DefaultBaseName, d2);
    var _ := j.Log(Info, Plain([msg]), file, line, d2, d2, w);
    dayTwo, healthy := TraceOf(w.traces, a + 3), TraceOf(w.traces, a);
  }

  /** When the new day's file cannot be opened the call panics before any
      write, with the date already advanced and no active file. */
  method RotationOpenFails(a: Handle, d1: string, d2: string, file: string, line: nat, msg: string)
    returns (out: Outcome, lines: seq<string>, date: string, active: Option<Handle>)
    requires d1 != d2
    ensures out == Panicked && lines == []
    ensures date == d2 && active == None
  {
    LogFilePathInjective(DefaultBaseName, d1, DefaultBaseName, d2);
    var j, w := StartMulti(a, d1, {LogFilePath(DefaultBaseName, d2)}, {});
    out := j.Log(Error, Plain([msg]), file, line, d2, d2, w);
    lines, date, active := TraceOf(w.traces, a), j.currentDate, j.logFile;
  }

  /** After that panic (recovered by the caller), a later call the same day
      does not rotate again, returns normally and reaches the extra writer. */
  method AfterFailedRotation(a: Handle, d1: string, d2: string, file: string, line: nat, msg: string)
    returns (second: Outcome, date: string, active: Option<Handle>, lines: seq<string>)
    requires d1 != d2
    ensures second == Returned && date == d2 && active == None
    ensures lines == [MultiLine(Warn, Plain([msg]), file, line)]
  {
    LogFilePathInjective(DefaultBaseName, d1, DefaultBaseName, d2);
    var j, w := StartMulti(a, d1, {LogFilePath(DefaultBaseName, d2)}, {});
    var _ := j.Log(Error, Plain([msg]), file, line, d2, d2, w);
    second := j.Log(Warn, Plain([msg]), file, line, d2, d2, w);
    date, active, lines := j.currentDate, j.logFile, TraceOf(w.traces, a);
  }

  /** A single-sink logger built over a nil writer falls into multi-sink mode
      and panics on its first call: its maps were never made. */
  method NilWriterPanics(today: string, file: string, line: nat, msg: string)
    returns (out: Outcome, active: Option<Handle>)
    requires today != ""
    ensures out == Panicked
    ensures active == Some(0)
  {
    var p := new Process();
    var w := new World(0, {}, {});
    var j := p.GetJLogger(None, 0);
    out := j.Log(Info, Plain([msg]), file, line, today, today, w);
    active := j.logFile;
  }

  /** The two single-sink lines below, spelled out. */
  lemma ExampleLines()
    ensures SingleLine(Info, Formatted("id=7 ready", "")) == "INFO      id=7 ready\n"
    ensures SingleLine(Debug, Plain(["a", "b"])) == "DEBUG     [a b]\n"
  {
    SeverityPrefixes();
    assert SingleLine(Info, Formatted("id=7 ready", "")) == "INFO      id=7 ready\n" by {
      SingleLineShape(Info, Formatted("id=7 ready", ""));
      assert "id=7 ready" + "" == "id=7 ready";
      assert Completed("id=7 ready") == "id=7 ready\n";
    }
    assert SingleLine(Debug, Plain(["a", "b"])) == "DEBUG     [a b]\n" by {
      SingleLineShape(Debug, Plain(["a", "b"]));
      SingleBodyExamples();
    }
  }

  /** `Infof("id=%d ready", 7)` on a single-sink logger: one line, the
      padded INFO tag, the formatted text and the newline `Output` adds;
      `Debug("a", "b")` prints its arguments bracketed. */
  method SingleSinkLines(out: Handle, today: string, file: string, line: nat)
    returns (lines: seq<string>)
    ensures lines == ["INFO      id=7 ready\n", "DEBUG     [a b]\n"]
  {
    var p := new Process();
    var w := new World(out + 1, {}, {});
    var j := p.GetJLogger(Some(out), 0);
    var _ := j.Log(Info, Formatted("id=7 ready", ""), file, line, today, today, w);
    var _ := j.Log(Debug, Plain(["a", "b"]), file, line, today, today, w);
    lines := TraceOf(w.traces, out);
    assert lines == [SingleLine(Info, Formatted("id=7 ready", "")), SingleLine(Debug, Plain(["a", "b"]))];
    ExampleLines();
  }
}
