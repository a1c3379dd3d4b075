/** The multi-sink logger's registry and its daily rotation, as values.
    `Sinks` is a snapshot of the fields `checkDate` reads and writes, and
    `CheckDateStep` is what one call of `checkDate` does to that snapshot and to
    the files. The class in `Logger` is proved to follow these functions. */
module Rotation {
  import opened Wrappers
  import opened Format
  import opened Os

  /** Lmsgprefix|Ldate|Lmicroseconds (64|1|4): flags of every logger the
      multi-sink logger creates. */
  const SinkLoggerFlags := 69

  /** A `log.Logger`: its output writer (nil-able), prefix and flags. */
  datatype LogConf = LogConf(out: Option<Handle>, prefix: string, flags: int)

  /** The logger registered for writer `h`. */
  function SinkLogger(h: Handle): LogConf
  {
    LogConf(Some(h), "", SinkLoggerFlags)
  }

  /** `MultiLoggers`, `MultiWriters`, `LogFile`, `LogFileName` and
      `CurrentDate`; `made` is false while the two maps are still Go's nil maps. */
  datatype Sinks = Sinks(
    made: bool,
    loggers: map<Handle, LogConf>,
    writers: map<Handle, Handle>,
    logFile: Option<Handle>,
    name: string,
    date: string)

  function KeyOf(h: Option<Handle>): set<Handle>
  {
    if h.Some? then {h.value} else {}
  }

  /** Go's `delete(m, k)`; deleting a nil file's key removes nothing. */
  function Without<V>(m: map<Handle, V>, h: Option<Handle>): (r: map<Handle, V>)
    ensures r.Keys == m.Keys - KeyOf(h)
    ensures forall k :: k in r ==> r[k] == m[k]
  {
    if h.Some? then m - {h.value} else m
  }

  /** The shape the registry keeps: each logger writes to its own key, each
      writer entry maps a writer to itself, and the one key that may be a
      logger without a writer entry is the active log file. */
  predicate WellFormed(s: Sinks)
  {
    (!s.made ==> s.loggers == map[] && s.writers == map[]) &&
    (forall k :: k in s.loggers ==> s.loggers[k] == SinkLogger(k)) &&
    (forall k :: k in s.writers ==> s.writers[k] == k) &&
    s.writers.Keys <= s.loggers.Keys &&
    s.loggers.Keys - s.writers.Keys <= KeyOf(s.logFile) &&
    (s.made && s.logFile.Some? ==> s.logFile.value in s.loggers)
  }

  /** The registry against the files: every key was handed out already, and
      the only file of the logger's own among the sinks is the active one. */
  predicate Fits(s: Sinks, fs: Files)
  {
    FilesOk(fs) &&
    (forall k :: k in s.loggers ==> k < fs.nextId) &&
    (s.logFile.Some? ==> s.logFile.value < fs.nextId) &&
    (forall k :: k in s.loggers && k in fs.recs ==> s.logFile == Some(k))
  }

  /** The result of `checkDate`: new registry, new files, and whether it panicked. */
  datatype Step = Step(sinks: Sinks, files: Files, panicked: bool)

  /** The body of `checkDate` once the date differs: record the new date,
      delete the old file from both maps, close it (ignoring failure), open
      the new day's file, panic if that fails, and register the new file as a
      logger only. Registering into a nil map panics too. */
  function Rotate(s: Sinks, fs: Files, today: string): (r: Step)
    ensures r.sinks.date == today && r.sinks.name == s.name && r.sinks.made == s.made
    ensures r.panicked <==> LogFilePath(s.name, today) in fs.unopenable || !s.made
    ensures r.files.nextId <= fs.nextId + 1
    ensures r.sinks.writers.Keys == s.writers.Keys - KeyOf(s.logFile)
    ensures r.sinks.loggers.Keys ==
      if r.panicked then s.loggers.Keys - KeyOf(s.logFile) else s.loggers.Keys - KeyOf(s.logFile) + {fs.nextId}
    ensures !r.panicked ==> r.sinks.logFile == Some(fs.nextId)
  {
    var kept := s.(date := today, loggers := Without(s.loggers, s.logFile), writers := Without(s.writers, s.logFile));
    var closed := CloseFile(fs, s.logFile).0;
    var res := OpenFile(closed, LogFilePath(s.name, today), RotateFlags);
    var files := res.0;
    match res.1
    case None => Step(kept.(logFile := None), files, true)
    case Some(f) =>
      if !s.made then Step(kept.(logFile := Some(f)), files, true)
      else Step(kept.(logFile := Some(f), loggers := kept.loggers[f := SinkLogger(f)]), files, false)
  }

  /** One call of `checkDate` that sees `checkNow` when it compares and
      `rotateNow` when it records the new date. */
  function CheckDateStep(s: Sinks, fs: Files, checkNow: string, rotateNow: string): (r: Step)
    ensures checkNow == s.date ==> r == Step(s, fs, false)
    ensures checkNow != s.date ==> r.sinks.date == rotateNow
  {
    if checkNow == s.date then Step(s, fs, false) else Rotate(s, fs, rotateNow)
  }

  /** What a rotation does to the registry and the files, entry by entry. */
  lemma RotationEffects(s: Sinks, fs: Files, today: string)
    requires WellFormed(s) && Fits(s, fs)
    ensures var r := Rotate(s, fs, today);
      // the old file leaves both maps and is closed
      (forall k :: k in KeyOf(s.logFile) ==>
        k !in r.sinks.loggers && k !in r.sinks.writers && k !in r.files.open) &&
      // the new file is a fresh handle opened at the new day's path, registered
      // as a logger but not as a writer
      (!r.panicked ==>
        r.sinks.logFile == Some(fs.nextId) && fs.nextId !in fs.recs &&
        fs.nextId in r.files.open &&
        r.files.recs[fs.nextId] == FileRec(LogFilePath(s.name, today), RotateFlags) &&
        fs.nextId in r.sinks.loggers && fs.nextId !in r.sinks.writers) &&
      // a failed open leaves no active file
      (LogFilePath(s.name, today) in fs.unopenable ==> r.panicked && r.sinks.logFile == None) &&
      // every other entry is untouched
      (forall k :: k !in KeyOf(s.logFile) && k != fs.nextId ==>
        (k in r.sinks.loggers <==> k in s.loggers) && (k in r.sinks.writers <==> k in s.writers)) &&
      (forall k :: k in r.sinks.loggers && k in s.loggers ==> r.sinks.loggers[k] == s.loggers[k])
  {
  }

  /** One `checkDate` keeps the registry well formed and fitted to the files. */
  lemma StepPreserves(s: Sinks, fs: Files, checkNow: string, rotateNow: string)
    requires WellFormed(s) && Fits(s, fs)
    ensures var r := CheckDateStep(s, fs, checkNow, rotateNow);
      WellFormed(r.sinks) && Fits(r.sinks, r.files) && r.files.nextId >= fs.nextId
  {
    if checkNow != s.date {
      RotationEffects(s, fs, rotateNow);
    }
  }

  /** The date checks of successive log calls, each seeing `days[i]` on both
      clock readings. A caller that recovers from a panic keeps logging, so
      the run goes on past one; the result records whether any call panicked. */
  function Replay(s: Sinks, fs: Files, days: seq<string>): Step
    decreases |days|
  {
    if days == [] then Step(s, fs, false)
    else
      var r := CheckDateStep(s, fs, days[0], days[0]);
      var rest := Replay(r.sinks, r.files, days[1..]);
      rest.(panicked := r.panicked || rest.panicked)
  }

  lemma {:induction false} ReplaySameDay(s: Sinks, fs: Files, days: seq<string>)
    requires forall i :: 0 <= i < |days| ==> days[i] == s.date
    ensures Replay(s, fs, days) == Step(s, fs, false)
  {
    if days != [] {
      ReplaySameDay(s, fs, days[1..]);
    }
  }

  /** Rotation is idempotent within a day, even past a recovered panic:
      however many calls see the same date, at most one file is opened, none
      when the date is current, and the date ends up recorded. */
  lemma OneOpenPerDay(s: Sinks, fs: Files, days: seq<string>, d: string)
    requires forall i :: 0 <= i < |days| ==> days[i] == d
    ensures Replay(s, fs, days).files.nextId <= fs.nextId + 1
    ensures days != [] ==> Replay(s, fs, days).sinks.date == d
    ensures s.date == d ==> Replay(s, fs, days) == Step(s, fs, false)
  {
    if days != [] {
      var r := CheckDateStep(s, fs, d, d);
      assert r.sinks.date == d;
      ReplaySameDay(r.sinks, r.files, days[1..]);
      if s.date == d {
        ReplaySameDay(s, fs, days);
      }
    }
  }
}
