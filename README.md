# JLogger, modelled in Dafny

JLogger is a process-wide logger built on Go's standard `log` package. It
runs in one of two modes, fixed by whichever constructor runs first. The
construction runs once per process, so every later call of either constructor
returns the same instance.

- **Single-sink mode** (`GetJLogger`) owns one `log.Logger` over one writer.
  Each severity call resets that logger's prefix to the severity tag padded to
  ten characters (`%-10s`) and writes one body.
- **Multi-sink mode** (`GetMultiWriteLogger`) opens `./log/<name>-<date>.log`
  and keeps two maps keyed by writer: `MultiLoggers` (a logger per sink) and
  `MultiWriters`. Every severity call first runs `checkDate`. When the date
  has changed, `checkDate` rotates to a new day file. The call then writes one
  line, `<file>:<line>\t<SEV>\t<message>`, to every registered logger.

Every line goes through `log.Logger.Output`, which appends a newline unless
the message already ends in one. The model applies that completion to every
line it writes. The header the flags ask for (date, time and, under the
default single-sink flags, the caller's position) is not modelled.

The six severities come in a plain form and a formatted form, twelve methods
in all. `Fatal` and `Fatalf` end the process with status 2.

The model has six files:

- `wrappers.dfy` holds `Option`.
- `format.dfy` holds the strings the logger builds, as pure functions with
  lemmas:
  - the tags and the padded prefix;
  - the decimal line number;
  - the multi-sink line;
  - the single-sink body;
  - the day-file path.
- `os.dfy` is the environment. Writers and files are opaque handles. `Files`
  records which files the logger has opened, with what path and flags, and
  which are still open. The class `World` holds that record, the set of
  failing writers, and the lines each writer has received.
- `rotation.dfy` describes the multi-sink registry as a value (`Sinks`).
  `CheckDateStep` is what one `checkDate` does to it. The lemmas prove that
  rotation keeps the registry well formed and opens at most one file per day.
- `jlogger.dfy` has the class `JLogger` and the class `Process`, which holds
  the run-once singleton. `JLogger` has the fields of the Go struct plus one
  more, `made`, which is false while the two maps are Go's nil maps.
  - `JLogger.CheckDate` changes the fields step by step, as the Go code does.
    It is proved to do exactly what `CheckDateStep` says.
  - `JLogger.Log` is the common body of the twelve severity methods. The
    severity and the plain or formatted form select the string it writes,
    including the newline only `Debugf` adds in multi-sink mode. It is proved
    to write that string to the right writers and to end the right way.
- `scenarios.dfy` runs whole sequences against a fresh process and a fresh
  world.

The model follows the code in several places where its behaviour is
surprising:

- **Rotation opens the new day file read-only (POSIX semantics).** It passes
  `O_CREATE|O_APPEND` with no access mode. Under POSIX `open(2)` that is
  `O_RDONLY`. The new file is then registered as a logger, but nothing written
  to it lands. The model records the open flags and drops writes to a
  read-only file. `Scenarios.DayChange` and `Scenarios.DayChangeLines` show
  the effect.
- **Rotation only partly updates the maps.** It registers the new file in
  `MultiLoggers` but not in `MultiWriters`.
- **The clock is read twice.** `checkDate` reads it once to compare and once
  to record the new date. The model takes the two readings as two
  parameters.
- **The plain multi-sink forms render only the first argument.** They use
  `Printf("…%s\n", v...)`. With no argument the line shows `%!s(MISSING)`.
  Further arguments are appended as `%!(EXTRA …)`.
- **Multi-sink `Debugf` adds a newline of its own.** Its line format ends in
  `\n` after the caller's format; the other five formatted forms add none.
  Since `Output` only adds a newline where one is missing, `Debugf("x")` and
  `Infof("x")` both end in a single newline. The difference shows when the
  text already ends in one: `Debugf("x\n")` leaves an empty line after it,
  and `Infof("x\n")` does not. `Format.FormattedEndings` spells out all four
  cases. The newline also comes before the `%!(EXTRA …)` marker Go appends
  for surplus arguments, so `Debugf("x", 1)` writes the marker on a line of
  its own, where `Infof("x", 1)` keeps it on the same line
  (`Format.SurplusEndings`).
- **Single-sink `Debug` brackets its arguments.** It passes the slice itself
  to `Sprintln`, so `Debug("a", "b")` prints `[a b]`. The other plain forms
  spread the slice and print `a b`.
- **A nil writer falls into multi-sink mode.** `GetJLogger(nil, …)` builds an
  instance whose maps are nil. Its first severity call runs `checkDate`,
  which panics either way: at `log.Panic` when the new file cannot be
  opened, and otherwise when it inserts into the nil map.
- **A failed rotation still changes state.** When the new file cannot be
  opened, `checkDate` panics. By then it has already recorded the new date
  and dropped the old file. A later call on the same day therefore does not
  rotate again.

## Model

| member | source | states |
|---|---|---|
| `Format.Name` | JLogger.go:97 | each severity tag is 4 to 8 upper-case letters, so it fits the ten-character prefix |
| `Format.PadRight` | JLogger.go:97 | `%-*s` keeps the text as a prefix, pads with spaces up to the width, and never truncates |
| `Format.SeverityPrefix` | JLogger.go:97 | the single-sink prefix is exactly ten characters: the tag, then spaces |
| `Format.SeverityPrefixRecovers` | JLogger.go:97 | trimming the padding and reading the tag back gives the severity that was written |
| `Format.SeverityPrefixes` | JLogger.go:137 | the six prefixes spelled out, e.g. `"INFO      "` and `"CRITICAL  "` |
| `Format.Decimal` | JLogger.go:106 | the `%d` spelling of the line number has at least one character, only digits, and a leading `0` exactly when the number is zero |
| `Format.DecimalRoundTrip` | JLogger.go:106 | parsing the spelled line number gives the number back |
| `Format.SeverityOfLineRecovers` | JLogger.go:106 | if the file name has no tab, the second tab-separated field of a multi-sink line is the tag of its severity |
| `Format.SingleBody` | JLogger.go:95-138 | plain bodies end in a newline; a `Debug` body opens with `[`; one plain argument of another severity gives itself and a newline; a formatted body is the formatted text followed by any EXTRA marker |
| `Format.SingleBodyForms` | JLogger.go:98-138 | how `Sprintln` lays out spread operands: no argument gives a newline alone, one gives itself and a newline, and more give the first, a space, and the body of the rest. `Debug`'s single slice operand gives the same text bracketed, before the newline |
| `Format.CompletedEnds` | JLogger.go:158-168 | `Output` leaves a message ending in a newline, adding at most that newline and keeping a message that already ends in one; completing twice changes nothing |
| `Format.SingleLineShape` | JLogger.go:155-158 | a single-sink line is the ten-character padded tag followed by the body and ends in a newline: a plain body unchanged, a formatted text and any EXTRA marker completed by `Output` |
| `Format.SingleBodyExamples` | JLogger.go:98 | `Info("a", "b")` gives `a b` and a newline; `Debug("a", "b")` gives `[a b]` and a newline |
| `Format.LinePrefixFields` | JLogger.go:106 | the line prefix is the file, `:`, the decimal line number, a tab, the tag and a tab, each at a fixed position |
| `Format.PercentSLine` | JLogger.go:106 | `%s\n` filled by the plain arguments: no argument gives `%!s(MISSING)` and a newline; one gives itself and a newline; more start the same way and end in the `%!(EXTRA …)` marker's `)` |
| `Format.MultiLine` | JLogger.go:106-329 | the line every multi-sink call writes is at least as long as its position-and-tag prefix; its exact shape is stated by `Format.MultiLineShape` |
| `Format.MultiLineShape` | JLogger.go:106-329 | a multi-sink line starts with `file:line\tSEV\t` and always ends in a newline. A plain call shows the MISSING marker for no argument, the argument for one, and ends in the EXTRA marker's `)` for more. A formatted call adds its text and any EXTRA marker, completed by `Output`; `Debugf` puts its own newline between the text and the marker. The severity can be read back from the line |
| `Format.FormattedEndings` | JLogger.go:126-168 | `Infof` and `Debugf` of `x` both end in one newline; of `x` and a newline, `Infof` still ends in one and `Debugf` leaves an empty line |
| `Format.SurplusEndings` | JLogger.go:126-168 | with surplus arguments, the five formatted forms other than `Debugf` write the text, the EXTRA marker and one newline; `Debugf` writes the text, a newline, the marker and a newline, so two lines |
| `Format.BaseName` | JLogger.go:59-64 | the base name is never empty: the caller's name when one is given, otherwise `JLogger` |
| `Format.LogFilePath` | JLogger.go:61 | the path is `./log/`, the name, `-`, the date and `.log`, each at a fixed position |
| `Format.LogFilePathInjective` | JLogger.go:353 | for base names of equal length, two paths are equal exactly when name and date are equal, so a new date names a different file |
| `Os.OpenFile` | JLogger.go:65 | an open fails exactly on an unopenable path and then changes nothing; otherwise it returns a handle never used before, now open and recorded with its path and flags |
| `Os.CloseFile` | JLogger.go:348 | a close succeeds exactly on an open file; it removes the file from the open set and changes nothing else |
| `Os.World.Open` | JLogger.go:354 | the world's files and the returned handle are those of `OpenFile` on the old files |
| `Os.World.Close` | JLogger.go:348 | the world's files and the result are those of `CloseFile` on the old files |
| `Os.World.Write` | JLogger.go:106 | exactly one line is appended, to the target writer, and only if the write can land; every other writer's lines are unchanged |
| `Rotation.Without` | JLogger.go:345-346 | `delete` removes exactly the key of the old file, if there is one, and keeps every other entry |
| `Rotation.Rotate` | JLogger.go:342-361 | a rotation records the new date. It panics exactly when the new file cannot be opened or the maps are nil. It opens at most one file. It drops the old file from both maps, and on success registers the fresh file in `MultiLoggers` only, as the active file |
| `Rotation.CheckDateStep` | JLogger.go:338-364 | on the recorded date nothing changes; otherwise the date becomes the second clock reading |
| `Rotation.RotationEffects` | JLogger.go:342-361 | entry by entry: the old file leaves both maps and is closed. The new handle is fresh and open at the new day's path with the read-only rotation flags, in `MultiLoggers` but not `MultiWriters`. A failed open leaves no active file. All other entries are unchanged |
| `Rotation.StepPreserves` | JLogger.go:338-364 | one date check keeps the registry well formed and consistent with the files, and never reuses a handle |
| `Rotation.ReplaySameDay` | JLogger.go:339 | any number of calls on the recorded date change nothing |
| `Rotation.OneOpenPerDay` | JLogger.go:339-354 | calls that all see the same date open at most one file and leave that date recorded, even when a call panics and the caller recovers and goes on logging; none opens a file if that date is already recorded |
| `Logger.ExitFor` | JLogger.go:315-336 | only `Fatal` and `Fatalf` end the process, with status 2; the other calls return |
| `Logger.BuildSinks` | JLogger.go:69-80 | both maps get exactly the log file and the extra writers as keys; each logger writes to its own key; each writer maps to itself |
| `Logger.JLogger.Single` | JLogger.go:35-44 | a single-sink instance holds the writer and a logger over it with an empty prefix, and nil maps |
| `Logger.JLogger.Multi` | JLogger.go:81-89 | a multi-sink instance holds no single writer or logger, and the given well-formed maps, log file, name and date; it satisfies the class invariant |
| `Logger.JLogger.CheckDate` | JLogger.go:338-364 | the step-by-step field updates end in exactly the registry and files `CheckDateStep` gives; the invariants hold again; the writer and the lines written are unchanged |
| `Logger.JLogger.FanOut` | JLogger.go:103-111 | each registered logger's writer receives the line once, if the write can land; a failing writer does not stop the others; no other writer receives anything |
| `Logger.JLogger.Log` | JLogger.go:95-337 | single-sink mode: the prefix becomes the padded tag, the writer receives the prefix and the body completed by `Output`, and nothing rotates. Multi-sink mode: the date check runs first; if it panics, nothing is written; otherwise every registered logger's writer receives the completed multi-sink line. Only `Fatal`/`Fatalf` exit, with status 2 |
| `Logger.Process.constructor` | JLogger.go:25-26 | a process starts with no instance |
| `Logger.Process.GetJLogger` | JLogger.go:29-48 | the first construction builds a single-sink instance with flags defaulting to Lmsgprefix, Ldate, Lmicroseconds and Llongfile when zero. Any later call returns the existing instance untouched |
| `Logger.Process.GetMultiWriteLogger` | JLogger.go:54-93 | the first construction opens the day file under the defaulted base name read-write; a failed open ends the process with status 1. Otherwise the new instance registers that file and every extra writer in both maps. Any later call returns the existing instance and touches nothing |
| `Scenarios.FirstCallWins` | JLogger.go:30-55 | a single-sink construction wins over any later call of either constructor, whatever its arguments |
| `Scenarios.MultiFirst` | JLogger.go:54-93 | a multi-sink construction wins too. An empty name becomes `JLogger`. The maps hold the extra writer and the day file |
| `Scenarios.SameDay` | JLogger.go:135-153 | a call on the construction day returns, opens no file, and the day file receives the line |
| `Scenarios.FailingWriter` | JLogger.go:197-215 | a failing extra writer receives nothing, while a healthy one still receives the line |
| `Scenarios.DayChange` | JLogger.go:338-364 | the first call on a new day returns, records the date and closes the old file. The new file becomes the active file, registered as a logger only and not writable |
| `Scenarios.DayChangeLines` | JLogger.go:135-153 | on that first call after a day change, the new read-only file receives nothing while the healthy writer receives the line |
| `Scenarios.DebugfLine` | JLogger.go:115-133 | multi-sink `Debugf` gives the day file the position, the `DEBUG` tag, the formatted text and its own newline, with none added by `Output`, whatever the text ends in |
| `Scenarios.RotationOpenFails` | JLogger.go:353-357 | if the new day's file cannot be opened, the call panics before writing anything, with the new date recorded and no active file |
| `Scenarios.AfterFailedRotation` | JLogger.go:339-342 | after that panic, a later call the same day does not rotate again, returns normally and reaches the extra writer |
| `Scenarios.NilWriterPanics` | JLogger.go:355-361 | a single-sink instance over a nil writer panics on its first call, because the rotation inserts into a nil map |
| `Scenarios.ExampleLines` | JLogger.go:97-158 | the single-sink `Infof` line, the padded `INFO` prefix, the text and the newline `Output` adds, and the `Debug` line with bracketed arguments, spelled out |
| `Scenarios.SingleSinkLines` | JLogger.go:155-158 | `Infof("id=%d ready", 7)` then `Debug("a", "b")` give the writer exactly `INFO      id=7 ready` and a newline, then `DEBUG     [a b]` and a newline |

## Left out

- The goroutines and the `WaitGroup` are not modelled. `FanOut` writes to the registered loggers one after another, in an unspecified order, and the model tracks lines per writer, so the interleaving of lines from different writers is not modelled.
- The local mutex in `checkDate` is not modelled. It is created afresh on every call and protects nothing. The model is sequential.
- The internals of `sync.Once` are not modelled beyond first-wins. If the first multi-sink construction aborts, the process has exited, so the model leaves the instance unset.
- The clock is not modelled. Dates are passed in as strings. `checkDate` takes its two clock readings as two parameters. `GetMultiWriteLogger` takes the construction date as a parameter.
- The internals of `log.Logger` are not modelled beyond the newline `Output` completes: the date, time and caller-position header (`Llongfile` is among the default single-sink flags) and the meaning of its flags beyond their values are left out. A line is modelled as the prefix followed by the completed message. That is where `Lmsgprefix` puts the prefix; a single-sink flag argument without `Lmsgprefix` puts it before the header instead, which gives the same line once the header is left out.
- Message arguments are treated as already rendered strings. `Format.MultiLineShape` is stated for that case. A formatted call (`Formatted`) carries the caller's format with its verbs filled, and separately the `%!(EXTRA …)` marker for surplus arguments as Go renders it; the model does not render that marker itself. In the plain multi-sink forms the model builds the marker, and it always names the type `string`.
- A `%` inside the caller's file name is not modelled. The Go code would read it as a verb when it builds the multi-sink line. The model assumes the file name is literal.
- `Logger.Process.GetMultiWriteLogger`: requires that no extra writer is nil and that none is a file the logger itself opens. Go accepts a nil writer, but the first multi-sink call then panics, inside a goroutine with no recover, when a logger writes to it, so the process crashes. The model gives every writer a handle and does not model that crash.
- The open flags follow POSIX `open(2)` semantics: `O_CREATE|O_APPEND` without an access mode opens read-only. On Windows, Go grants append access whenever `O_APPEND` is set, so the rotated file would receive lines there. The model does not cover that platform.
- `Format.MultiLine`: its own contract only bounds the length of the line. The full shape is stated by the lemma `Format.MultiLineShape`, which keeps that detail out of the proofs that only pass the line along.
- `runtime.Caller` is not modelled. The caller's file and line are parameters of `Log`.
- `os.Exit`, `log.Fatalf` and `log.Panic` become the `Outcome` of a call or the `Built` result. Their messages to standard error are not modelled.
- The file mode `0666` and the creation of files on disk are not modelled. An open either yields a fresh handle or fails on a path listed as unopenable.
