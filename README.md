# unilog in Dafny

unilog is a small Go package that sets up a process-wide structured logger. It
wraps the zap logging engine and the lumberjack rotating file writer. The
package owns four pieces of logic, and this project models all four:

- **`LogOption` and its builder.** `DefaultLogOption` returns a fresh record
  holding the defaults. Six chained setters each assign one field in place and
  return the same record. Here `LogOption` is a class with six fields.
  `Value()` gives the record's contents as an `Options` value.
- **The decisions inside `SetLogger`.** These are the encoder kind chosen from the
  format string, the destination list, the rotation parameters handed to
  the file writer, and the level threshold. zap's objects become the abstract
  datatypes `Encoder`, `Sink` and `Config`. The function `BuildConfig` states
  what `SetLogger` builds. The method `Globals.SetLogger` builds it step by step
  with the same `append` the source uses.
- **The global logger slot.** `zap.ReplaceGlobals` and `L()` act on a holder
  object, `Globals`, whose field `installed: Option<Config>` is overwritten
  by `SetLogger` and read by `L`. `None` stands for zap's no-op logger
  before any configuration. `Replay` folds a sequence of `SetLogger` calls
  over the slot. The lemmas about it prove that the last call wins and that
  the slot never goes back to unconfigured.
- **`SetSimpleLogger`.** It builds the defaults, applies three setters and
  calls `SetLogger`.

Two behaviours of the code are kept as written and proved as lemmas:

- Any format other than exactly `"json"` silently selects the console
  encoder. This includes `"console"`, `""` and typos.
- The rotating file always gets the package constants (1 MB, 5 backups,
  7 days, compressed). The record's `MaxSizeMB`, `MaxBackups` and `MaxAge` are
  never read.

A file name of `"/dev/stderr"` adds no standard-error destination. It only
suppresses the file sink, so the logger writes to standard output alone
(`StderrMarkerGivesStdoutOnly`). The format is any string, not an
enumeration.

`example.dfy` replays the demo program in `example/example.go` as a
client of the model.

## Model

| member | source | states |
|---|---|---|
| `Unilog.DefaultOptions` | unilog.go:55-65 | the defaults are format "json", max size 1, 5 backups, max age 7, debug level and file "/dev/stdout" |
| `Unilog.LogOption.Default` | unilog.go:56-65 | a fresh record whose contents are exactly the defaults |
| `Unilog.LogOption.SetMaxSizeMB` | unilog.go:67-71 | returns the same record; only the max size changes, to the argument |
| `Unilog.LogOption.SetMaxBackups` | unilog.go:73-77 | returns the same record; only the backup count changes, to the argument |
| `Unilog.LogOption.SetMaxAge` | unilog.go:79-83 | returns the same record; only the max age changes, to the argument |
| `Unilog.LogOption.SetFormat` | unilog.go:85-89 | returns the same record; only the format changes, to the argument |
| `Unilog.LogOption.SetFileName` | unilog.go:91-95 | returns the same record; only the file name changes, to the argument |
| `Unilog.LogOption.SetLevel` | unilog.go:97-101 | returns the same record; only the level changes, to the argument |
| `Unilog.SelectEncoder` | unilog.go:127-133 | the encoder is JSON if and only if the format is exactly "json"; every other string gives console |
| `Unilog.NonJsonFormatsFallBackToConsole` | unilog.go:128-133 | "console", "", "JSON" and "jsno" all select the console encoder |
| `Unilog.RotatingSink` | unilog.go:139-145 | the file writer gets the option's file name, max size 1, 5 backups, max age 7 and compression on |
| `Unilog.Sinks` | unilog.go:135-148 | standard output comes first and the list has one or two entries; the second entry exists if and only if the name is not "", "/dev/stdout" or "/dev/stderr", and it is the rotating file for that name with the constants |
| `Unilog.BuildConfig` | unilog.go:111-158 | the encoder is JSON iff the format is "json"; the field keys are time, level, logger, caller, msg and stacktrace; the line ending is "\n" and the level, time, duration, caller and name encodings are capital, ISO8601, seconds, short and full; the destinations follow the file-name rule; the threshold is the option's level; caller capture and development mode are on |
| `Unilog.RotationIgnoresOptions` | unilog.go:138-145 | two records with the same file name get the same destinations, whatever their rotation fields hold |
| `Unilog.RotationFieldsDiscarded` | unilog.go:139-145 | a record with max size 100, 0 backups and max age 30 still gets a file writer with 1, 5 and 7 |
| `Unilog.SimplePathRotationMatchesOptions` | unilog.go:104-107 | on the simple path the file writer's parameters equal the record's own rotation fields |
| `Unilog.DefaultWritesStdoutOnce` | unilog.go:135-140 | the defaults give exactly one destination, standard output, with the JSON encoder |
| `Unilog.StderrMarkerGivesStdoutOnly` | unilog.go:138-140 | a file name of "/dev/stderr" gives standard output as the only destination |
| `Unilog.Globals.constructor` | unilog.go:41-43 | before any configuration the slot holds nothing |
| `Unilog.Globals.L` | unilog.go:41-43 | returns the installed configuration |
| `Unilog.Globals.SetLogger` | unilog.go:111-160 | afterwards the slot holds the configuration built from the record's current contents, replacing any earlier one |
| `Unilog.Globals.SetSimpleLogger` | unilog.go:104-108 | installs what SetLogger installs for the defaults with only format, file name and level overridden |
| `Unilog.ReplayLastWins` | unilog.go:160 | after a non-empty sequence of SetLogger calls the slot holds the configuration of the last call, whatever it held before |
| `Unilog.ReplaySnoc` | unilog.go:160 | one more SetLogger call after any history leaves the slot holding that call's configuration |
| `Unilog.ReplayStaysConfigured` | unilog.go:160 | once configured, the slot stays configured through any later calls |
| `Unilog.ReplayUnconfiguredIffNoCalls` | unilog.go:160 | starting unconfigured, the slot is still empty if and only if no call was made |
| `Example.Scenario` | example/example.go:8-19 | the first call gives JSON to standard output and "./a.log" with the constants; the second gives console to standard output only; both at debug level; each value read back equals the fold of the SetLogger calls made so far |

## Left out

- How zap's encoders render bytes is not modelled: ISO8601 time, capital level names, short caller and the line ending. They appear only as opaque tags in `EncoderConfig`.
- The fan-out writer, `AddSync` and writes to `os.Stdout` are not modelled. They are I/O inside the engine; a destination appears only as a `Sink` value.
- lumberjack's rollover, backup retention, age-based deletion and compression are not modelled. Only the parameters handed to it are.
- The atomic level and the atomic global swap are not modelled for concurrency. The install is a plain sequential field update, and the threshold is the level value stored in `Config`.
- Whether a record below the threshold is dropped is decided inside zap and is not modelled.
- The runtime effects of `zap.AddCaller()` and `zap.Development()` are not modelled. They are kept as two boolean flags.
- A nil `*LogOption` passed to a setter or to `SetLogger` would make the Go code panic. Dafny references here are non-null, so that case is not modelled.
- The Go `int` rotation fields are unbounded `int`s here. The code only stores them and never does arithmetic on them, so their width does not matter.
- The process-wide global is a `Globals` object passed by reference. Dafny has no mutable module-level state.
