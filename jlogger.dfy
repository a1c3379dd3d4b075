/** The logger object, its two constructors behind a run-once guard, the
    daily rotation and the write path of the twelve severity methods. */
module Logger {
  import opened Wrappers
  import opened Format
  import opened Os
  import opened Rotation

  /** Lmsgprefix|Ldate|Lmicroseconds|Llongfile (64|1|4|8): the flags that
      replace a zero flag argument of the single-sink constructor. */
  const DefaultSingleFlags := 77

  /** Exit status of `Fatal` and `Fatalf`. */
  const FatalStatus := 2

  /** Exit status of `log.Fatalf`, used when the first log file cannot be opened. */
  const BuildFailureStatus := 1

  /** How a severity call ends: it returns, it panics (rotation failed), or it
      ends the process with a status. */
  datatype Outcome = Returned | Panicked | Exited(status: int)

  function ExitFor(sev: Severity): (r: Outcome)
    ensures r != Panicked
    ensures r.Exited? <==> sev == Fatal
    ensures r.Exited? ==> r.status == FatalStatus
  {
    if sev == Fatal then Exited(FatalStatus) else Returned
  }

  /** The result of the multi-sink constructor: the instance, or the process
      ended because the first log file could not be opened. */
  datatype Built = Ready(instance: JLogger) | Aborted(status: int)

  /** Registers the log file and each extra writer: a logger per writer in
      the first map, the writer itself in the second. */
  method BuildSinks(logFile: Handle, writers: seq<Handle>)
    returns (loggers: map<Handle, LogConf>, sinks: map<Handle, Handle>)
    ensures loggers.Keys == sinks.Keys == {logFile} + (set x | x in writers)
    ensures forall k :: k in loggers ==> loggers[k] == SinkLogger(k)
    ensures forall k :: k in sinks ==> sinks[k] == k
  {
    loggers := map[logFile := SinkLogger(logFile)];
    sinks := map[logFile := logFile];
    var i := 0;
    while i < |writers|
      invariant 0 <= i <= |writers|
      invariant loggers.Keys == sinks.Keys == {logFile} + (set x | x in writers[..i])
      invariant forall k :: k in loggers ==> loggers[k] == SinkLogger(k)
      invariant forall k :: k in sinks ==> sinks[k] == k
    {
      var w := writers[i];
      assert writers[..i + 1] == writers[..i] + [w];
      loggers := loggers[w := SinkLogger(w)];
      sinks := sinks[w := w];
      i := i + 1;
    }
    assert writers[..|writers|] == writers;
  }

  class JLogger {
    /** The single-sink destination; nil selects multi-sink mode. */
    var writer: Option<Handle>
    /** The single-sink logger; each call resets its prefix. */
    var logger: Option<LogConf>
    /** False while `MultiLoggers` and `MultiWriters` are nil maps. */
    var made: bool
    var multiLoggers: map<Handle, LogConf>
    var logFile: Option<Handle>
    var multiWriters: map<Handle, Handle>
    var logFileName: string
    var currentDate: string

    /** The rotation state as a value. */
    function Snapshot(): Sinks
      reads this
    {
      Sinks(made, multiLoggers, multiWriters, logFile, logFileName, currentDate)
    }

    ghost predicate Valid()
      reads this
    {
      (writer.Some? ==> logger.Some? && logger.value.out == writer) &&
      WellFormed(Snapshot())
    }

    /** The registry's handles all come from `w`, and `w` itself is sound. */
    ghost predicate Within(w: World)
      reads this, w
    {
      Fits(Snapshot(), w.fs)
    }

    constructor Single(writer: Option<Handle>, flags: int)
      ensures this.writer == writer && logger == Some(LogConf(writer, "", flags))
      ensures Snapshot() == Sinks(false, map[], map[], None, "", "")
      ensures Valid()
    {
      this.writer := writer;
      logger := Some(LogConf(writer, "", flags));
      made := false;
      multiLoggers := map[];
      logFile := None;
      multiWriters := map[];
      logFileName := "";
      currentDate := "";
    }

    constructor Multi(loggers: map<Handle, LogConf>, file: Handle, sinks: map<Handle, Handle>, name: string, date: string)
      requires WellFormed(Sinks(true, loggers, sinks, Some(file), name, date))
      ensures writer == None && logger == None
      ensures Snapshot() == Sinks(true, loggers, sinks, Some(file), name, date)
      ensures Valid()
    {
      writer := None;
      logger := None;
      made := true;
      multiLoggers := loggers;
      logFile := Some(file);
      multiWriters := sinks;
      logFileName := name;
      currentDate := date;
    }

    /** `checkDate`: compares `checkNow` with the recorded date and, when they
        differ, rotates to the file of `rotateNow` (the clock is read twice). */
    method CheckDate(checkNow: string, rotateNow: string, w: World) returns (panicked: bool)
      requires Valid() && w.Valid() && Within(w)
      modifies this, w
      ensures Valid() && w.Valid() && Within(w)
      ensures Step(Snapshot(), w.fs, panicked) == CheckDateStep(old(Snapshot()), old(w.fs), checkNow, rotateNow)
      ensures writer == old(writer) && logger == old(logger)
      ensures w.broken == old(w.broken) && w.traces == old(w.traces)
    {
      ghost var before, files := Snapshot(), w.fs;
      StepPreserves(before, files, checkNow, rotateNow);
      panicked := false;
      if checkNow != currentDate {
        currentDate := rotateNow;
        multiWriters := Without(multiWriters, logFile);
        multiLoggers := Without(multiLoggers, logFile);
        var _ := w.Close(logFile);
        logFile := None;
        var path := LogFilePath(logFileName, currentDate);
        var file := w.Open(path, RotateFlags);
        assert (w.fs, file) == OpenFile(CloseFile(files, before.logFile).0, LogFilePath(before.name, rotateNow), RotateFlags);
        logFile := file;
        if file.None? || !made {
          // a failed open panics; so does registering into a nil map
          panicked := true;
          return;
        }
        multiLoggers := multiLoggers[file.value := SinkLogger(file.value)];
      }
    }

    /** One write of the completed line `msg` to every registered logger, in
        some order; a failing writer does not stop the others. */
    method FanOut(msg: string, w: World)
      requires Valid()
      modifies w
      ensures w.fs == old(w.fs) && w.broken == old(w.broken)
      ensures forall h :: (TraceOf(w.traces, h) ==
        if h in multiLoggers && Delivers(w.fs, w.broken, h) then TraceOf(old(w.traces), h) + [msg] else TraceOf(old(w.traces), h))
    {
      ghost var before := w.traces;
      var pending := multiLoggers.Keys;
      while pending != {}
        invariant pending <= multiLoggers.Keys
        invariant w.fs == old(w.fs) && w.broken == old(w.broken)
        invariant forall h :: (TraceOf(w.traces, h) ==
          if h in multiLoggers && h !in pending && Delivers(w.fs, w.broken, h) then TraceOf(before, h) + [msg] else TraceOf(before, h))
        decreases pending
      {
        var h :| h in pending;
        var conf := multiLoggers[h];
        assert conf.out == Some(h) && conf.prefix + msg == msg;
        w.Write(conf.out.value, conf.prefix + msg);
        pending := pending - {h};
      }
    }

    /** A severity call, `Debug` … `Fatalf`: `call` tells the plain form from
        the formatted one, `file` and `line` are the caller's position. */
    method Log(sev: Severity, call: Call, file: string, line: nat, checkNow: string, rotateNow: string, w: World)
      returns (out: Outcome)
      requires Valid() && w.Valid() && Within(w)
      modifies this, w
      ensures Valid() && w.Valid() && Within(w)
      ensures writer == old(writer) && w.broken == old(w.broken)
      // single-sink mode: the prefix is reset, one write, no rotation
      ensures old(writer).Some? ==>
        logger == Some(old(logger).value.(prefix := SeverityPrefix(sev))) &&
        Snapshot() == old(Snapshot()) && w.fs == old(w.fs) &&
        (forall h :: TraceOf(w.traces, h) ==
          if h == old(writer).value && Delivers(w.fs, w.broken, h)
          then TraceOf(old(w.traces), h) + [SingleLine(sev, call)] else TraceOf(old(w.traces), h)) &&
        out == ExitFor(sev)
      // multi-sink mode: the date check first, then one line per registered logger
      ensures old(writer).None? ==>
        var step := CheckDateStep(old(Snapshot()), old(w.fs), checkNow, rotateNow);
        logger == old(logger) && Snapshot() == step.sinks && w.fs == step.files &&
        (out == Panicked <==> step.panicked)
      ensures old(writer).None? && out == Panicked ==> w.traces == old(w.traces)
      ensures old(writer).None? && out != Panicked ==>
        out == ExitFor(sev) &&
        forall h :: (TraceOf(w.traces, h) ==
          if h in multiLoggers && Delivers(w.fs, w.broken, h)
          then TraceOf(old(w.traces), h) + [MultiLine(sev, call, file, line)] else TraceOf(old(w.traces), h))
    {
      if writer.Some? {
        var prefix := SeverityPrefix(sev);
        logger := Some(logger.value.(prefix := prefix));
        w.Write(logger.value.out.value, logger.value.prefix + Completed(SingleBody(sev, call)));
      } else {
        var panicked := CheckDate(checkNow, rotateNow, w);
        if panicked {
          return Panicked;
        }
        FanOut(MultiLine(sev, call, file, line), w);
      }
      out := ExitFor(sev);
    }
  }

  /** The process-wide state behind `once` and `myLogger`. */
  class Process {
    var instance: JLogger?

    constructor ()
      ensures instance == null
    {
      instance := null;
    }

    /** `GetJLogger`: the first construction builds a single-sink logger;
        every later call, of either constructor, returns the existing one. */
    method GetJLogger(writer: Option<Handle>, flag: int) returns (j: JLogger)
      modifies this
      ensures old(instance) != null ==> j == old(instance) && instance == j && unchanged(j)
      ensures old(instance) == null ==>
        fresh(j) && instance == j && j.Valid() &&
        j.writer == writer &&
        j.logger == Some(LogConf(writer, "", if flag == 0 then DefaultSingleFlags else flag)) &&
        j.Snapshot() == Sinks(false, map[], map[], None, "", "")
    {
      if instance != null {
        return instance;
      }
      var flags := if flag == 0 then DefaultSingleFlags else flag;
      j := new JLogger.Single(writer, flags);
      instance := j;
    }

    /** `GetMultiWriteLogger`: the first construction opens the day's file
        under the (defaulted) base name and registers it with the extra
        writers; every later call returns the existing instance. */
    method GetMultiWriteLogger(logFileName: string, writers: seq<Handle>, today: string, w: World) returns (r: Built)
      requires w.Valid()
      requires instance == null ==> forall x :: x in writers ==> x < w.fs.nextId && x !in w.fs.recs
      modifies this, w
      ensures w.Valid()
      ensures old(instance) != null ==>
        r == Ready(old(instance)) && instance == old(instance) && unchanged(instance) && unchanged(w)
      ensures old(instance) == null ==>
        var name := BaseName(logFileName);
        var built := OpenFile(old(w.fs), LogFilePath(name, today), BuildFlags);
        w.fs == built.0 && w.broken == old(w.broken) && w.traces == old(w.traces) &&
        (built.1.None? ==> r == Aborted(BuildFailureStatus) && instance == null) &&
        (built.1.Some? ==>
          r.Ready? && fresh(r.instance) && instance == r.instance &&
          var j := r.instance;
          j.Valid() && j.Within(w) &&
          j.writer == None && j.logger == None && j.made &&
          j.logFile == built.1 && j.logFileName == name && j.currentDate == today &&
          j.multiLoggers.Keys == j.multiWriters.Keys == {built.1.value} + (set x | x in writers) &&
          (forall k :: k in j.multiWriters ==> j.multiWriters[k] == k))
    {
      if instance != null {
        return Ready(instance);
      }
      var name := BaseName(logFileName);
      var file := w.Open(LogFilePath(name, today), BuildFlags);
      if file.None? {
        return Aborted(BuildFailureStatus);
      }
      var loggers, sinks := BuildSinks(file.value, writers);
      var j := new JLogger.Multi(loggers, file.value, sinks, name, today);
      instance := j;
      r := Ready(j);
    }
  }
}
