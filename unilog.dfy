/**
  A model of the unilog package: an options record with chained setters, the
  decisions that turn an options record into a logger configuration (encoder
  kind, destination list, rotation parameters, level threshold), and the
  process-wide slot the configured logger is installed into and read from.

  The logging engine and the rotating file writer are external collaborators;
  their objects appear here only as the abstract values handed to them.
 */
module Unilog {

  datatype Option<T> = None | Some(value: T)

  /** zapcore.Level is a signed 8-bit integer; its debug level is -1. */
  newtype Level = x: int | -128 <= x < 128

  const DebugLevel: Level := -1

  // Package constants.
  const LogFormatJSON: string := "json"
  const LogFormatConsole: string := "console"

  const KeyTime: string := "time"
  const KeyLevel: string := "level"
  const KeyName: string := "logger"
  const KeyCaller: string := "caller"
  const KeyMessage: string := "msg"
  const KeyStackTrace: string := "stacktrace"

  const MaxSizeMB: int := 1
  const MaxBackups: int := 5
  const MaxAge: int := 7

  /** The two path markers that never get a rotating file. */
  const StdoutPath: string := "/dev/stdout"
  const StderrPath: string := "/dev/stderr"

  /** The value held by a LogOption record. */
  datatype Options = Options(
    format: string,
    maxSizeMB: int,
    maxBackups: int,
    maxAge: int,
    level: Level,
    fileName: string)

  // Opaque tags for the engine's rendering choices; how each renders is the engine's business.
  datatype LevelEncoding = CapitalLevel
  datatype TimeEncoding = ISO8601Time
  datatype DurationEncoding = SecondsDuration
  datatype CallerEncoding = ShortCaller
  datatype NameEncoding = FullName

  /** The field keys and rendering choices given to either encoder. */
  datatype EncoderConfig = EncoderConfig(
    timeKey: string,
    levelKey: string,
    nameKey: string,
    callerKey: string,
    messageKey: string,
    stacktraceKey: string,
    lineEnding: string,
    encodeLevel: LevelEncoding,
    encodeTime: TimeEncoding,
    encodeDuration: DurationEncoding,
    encodeCaller: CallerEncoding,
    encodeName: NameEncoding)

  datatype EncoderKind = JsonEncoder | ConsoleEncoder

  datatype Encoder = Encoder(kind: EncoderKind, config: EncoderConfig)

  /** A write destination: the process's standard output, or a rotating file
      with the parameters handed to the rotation component. */
  datatype Sink =
    | Stdout
    | RotatingFile(name: string, maxSize: int, maxBackups: int, maxAge: int, compress: bool)

  /** What the logger installed by SetLogger is built from. */
  datatype Config = Config(
    encoder: Encoder,
    sinks: seq<Sink>,
    level: Level,
    addCaller: bool,
    development: bool)

  /** The record DefaultLogOption fills in. */
  function DefaultOptions(): (o: Options)
    ensures o.format == "json" && o.level == DebugLevel && o.fileName == "/dev/stdout"
    ensures o.maxSizeMB == 1 && o.maxBackups == 5 && o.maxAge == 7
  {
    Options(LogFormatJSON, MaxSizeMB, MaxBackups, MaxAge, DebugLevel, StdoutPath)
  }

  /** The encoder configuration SetLogger builds, identical for every option. */
  function StandardEncoderConfig(): EncoderConfig
  {
    EncoderConfig(KeyTime, KeyLevel, KeyName, KeyCaller, KeyMessage, KeyStackTrace,
                  "\n", CapitalLevel, ISO8601Time, SecondsDuration, ShortCaller, FullName)
  }

  /** The format switch: "json" selects JSON, every other string silently selects console. */
  function SelectEncoder(format: string): (k: EncoderKind)
    ensures k == JsonEncoder <==> format == "json"
    ensures k == ConsoleEncoder <==> format != "json"
  {
    if format == LogFormatJSON then JsonEncoder else ConsoleEncoder
  }

  /** Whether the file name asks for a rotating file beside standard output. */
  predicate WantsFile(fileName: string)
  {
    fileName != "" && fileName != StdoutPath && fileName != StderrPath
  }

  /** The parameters handed to the rotation component: the package constants,
      whatever the options record holds. */
  function RotatingSink(fileName: string): (s: Sink)
    ensures s.RotatingFile? && s.name == fileName && s.compress
    ensures s.maxSize == 1 && s.maxBackups == 5 && s.maxAge == 7
  {
    RotatingFile(fileName, MaxSizeMB, MaxBackups, MaxAge, true)
  }

  /** The destination list: standard output first, then a rotating file when
      the name is neither empty nor one of the two stream markers. */
  function Sinks(fileName: string): (r: seq<Sink>)
    ensures 1 <= |r| <= 2 && r[0] == Stdout
    ensures |r| == 2 <==> fileName !in {"", "/dev/stdout", "/dev/stderr"}
    ensures forall i :: 1 <= i < |r| ==> r[i] == RotatingFile(fileName, 1, 5, 7, true)
  {
    if WantsFile(fileName) then [Stdout, RotatingSink(fileName)] else [Stdout]
  }

  /** The configuration SetLogger installs for an options record. */
  function BuildConfig(o: Options): (c: Config)
    ensures c.encoder.kind == JsonEncoder <==> o.format == "json"
    ensures c.encoder.config.timeKey == "time" && c.encoder.config.levelKey == "level"
    ensures c.encoder.config.nameKey == "logger" && c.encoder.config.callerKey == "caller"
    ensures c.encoder.config.messageKey == "msg" && c.encoder.config.stacktraceKey == "stacktrace"
    ensures c.encoder.config.lineEnding == "\n"
    ensures c.encoder.config.encodeLevel == CapitalLevel && c.encoder.config.encodeTime == ISO8601Time
    ensures c.encoder.config.encodeDuration == SecondsDuration && c.encoder.config.encodeCaller == ShortCaller
    ensures c.encoder.config.encodeName == FullName
    ensures c.sinks == Sinks(o.fileName)
    ensures c.level == o.level
    ensures c.addCaller && c.development
  {
    Config(Encoder(SelectEncoder(o.format), StandardEncoderConfig()),
           Sinks(o.fileName), o.level, true, true)
  }

  /** The options record SetSimpleLogger hands to SetLogger. */
  function SimpleOptions(format: string, fileName: string, level: Level): Options
  {
    DefaultOptions().(format := format, fileName := fileName, level := level)
  }

  /** A LogOption record, updated in place by its chained setters. */
  class LogOption {
    var format: string
    var maxSizeMB: int
    var maxBackups: int
    var maxAge: int
    var level: Level
    var fileName: string

    function Value(): Options
      reads this
    {
      Options(format, maxSizeMB, maxBackups, maxAge, level, fileName)
    }

    /** DefaultLogOption: a fresh record holding the defaults. */
    constructor Default()
      ensures Value() == DefaultOptions()
    {
      format := LogFormatJSON;
      maxSizeMB := MaxSizeMB;
      maxBackups := MaxBackups;
      maxAge := MaxAge;
      level := DebugLevel;
      fileName := StdoutPath;
    }

    method SetMaxSizeMB(size: int) returns (r: LogOption)
      modifies this
      ensures r == this
      ensures Value() == old(Value()).(maxSizeMB := size)
    {
      maxSizeMB := size;
      r := this;
    }

    method SetMaxBackups(count: int) returns (r: LogOption)
      modifies this
      ensures r == this
      ensures Value() == old(Value()).(maxBackups := count)
    {
      maxBackups := count;
      r := this;
    }

    method SetMaxAge(days: int) returns (r: LogOption)
      modifies this
      ensures r == this
      ensures Value() == old(Value()).(maxAge := days)
    {
      maxAge := days;
      r := this;
    }

    method SetFormat(f: string) returns (r: LogOption)
      modifies this
      ensures r == this
      ensures Value() == old(Value()).(format := f)
    {
      format := f;
      r := this;
    }

    method SetFileName(f: string) returns (r: LogOption)
      modifies this
      ensures r == this
      ensures Value() == old(Value()).(fileName := f)
    {
      fileName := f;
      r := this;
    }

    method SetLevel(lv: Level) returns (r: LogOption)
      modifies this
      ensures r == this
      ensures Value() == old(Value()).(level := lv)
    {
      level := lv;
      r := this;
    }
  }

  /** The process-wide logger slot; None stands for the engine's no-op default. */
  class Globals {
    var installed: Option<Config>

    /** Process start: nothing configured yet. */
    constructor ()
      ensures installed == None
    {
      installed := None;
    }

    /** L: the logger currently installed. */
    method L() returns (r: Option<Config>)
      ensures r == installed
    {
      r := installed;
    }

    /** SetLogger: build the configuration for the record and replace the installed one. */
    method SetLogger(option: LogOption)
      modifies this
      ensures installed == Some(BuildConfig(option.Value()))
    {
      var kind := if option.format == LogFormatJSON then JsonEncoder else ConsoleEncoder;
      var encoder := Encoder(kind, StandardEncoderConfig());
      var syncers := [Stdout];
      if option.fileName != "" && option.fileName != StdoutPath && option.fileName != StderrPath {
        var hook := RotatingFile(option.fileName, MaxSizeMB, MaxBackups, MaxAge, true);
        syncers := syncers + [hook];
      }
      assert syncers == Sinks(option.fileName);
      installed := Some(Config(encoder, syncers, option.level, true, true));
    }

    /** SetSimpleLogger: the defaults with format, file name and level overridden, then SetLogger. */
    method SetSimpleLogger(format: string, fileName: string, lv: Level)
      modifies this
      ensures installed == Some(BuildConfig(SimpleOptions(format, fileName, lv)))
    {
      var option := new LogOption.Default();
      var chained := option.SetFormat(format);
      chained := chained.SetFileName(fileName);
      chained := chained.SetLevel(lv);
      SetLogger(option);
    }
  }

  /** The slot after a sequence of SetLogger calls, starting from `start`. */
  function Replay(start: Option<Config>, calls: seq<Options>): Option<Config>
    decreases |calls|
  {
    if calls == [] then start else Replay(Some(BuildConfig(calls[0])), calls[1..])
  }

  /** The last call wins: earlier installs leave no trace. */
  lemma {:induction false} ReplayLastWins(start: Option<Config>, calls: seq<Options>)
    requires |calls| > 0
    ensures Replay(start, calls) == Some(BuildConfig(calls[|calls| - 1]))
    decreases |calls|
  {
    if |calls| > 1 {
      ReplayLastWins(Some(BuildConfig(calls[0])), calls[1..]);
    }
  }

  /** One more SetLogger call after any history installs that call's configuration. */
  lemma ReplaySnoc(start: Option<Config>, calls: seq<Options>, o: Options)
    ensures Replay(start, calls + [o]) == Some(BuildConfig(o))
  {
    ReplayLastWins(start, calls + [o]);
  }

  /** Once configured, the slot never returns to the unconfigured state. */
  lemma {:induction false} ReplayStaysConfigured(start: Option<Config>, calls: seq<Options>)
    requires start.Some? || |calls| > 0
    ensures Replay(start, calls).Some?
    decreases |calls|
  {
    if calls != [] {
      ReplayStaysConfigured(Some(BuildConfig(calls[0])), calls[1..]);
    }
  }

  /** With nothing configured, no call leaves the slot as it was. */
  lemma {:induction false} ReplayUnconfiguredIffNoCalls(calls: seq<Options>)
    ensures Replay(None, calls) == None <==> calls == []
  {
    if calls != [] {
      ReplayStaysConfigured(None, calls);
    }
  }

  /** The rotation parameters never depend on the record's rotation fields:
      two records with the same file name get the same destinations. */
  lemma RotationIgnoresOptions(o1: Options, o2: Options)
    requires o1.fileName == o2.fileName
    ensures BuildConfig(o1).sinks == BuildConfig(o2).sinks
  {
  }

  /** A record whose rotation fields were set away from the defaults still gets
      the package constants. */
  lemma RotationFieldsDiscarded()
    ensures var o := DefaultOptions().(fileName := "./a.log", maxSizeMB := 100, maxBackups := 0, maxAge := 30);
            BuildConfig(o).sinks == [Stdout, RotatingFile("./a.log", 1, 5, 7, true)]
  {
  }

  /** On the simple path the record's rotation fields are the defaults, so the
      file sink carries exactly what the record holds. */
  lemma SimplePathRotationMatchesOptions(format: string, fileName: string, lv: Level)
    requires WantsFile(fileName)
    ensures var o := SimpleOptions(format, fileName, lv);
            BuildConfig(o).sinks[1] == RotatingFile(o.fileName, o.maxSizeMB, o.maxBackups, o.maxAge, true)
  {
  }

  /** The defaults write to standard output once, never to a duplicate file on it. */
  lemma DefaultWritesStdoutOnce()
    ensures BuildConfig(DefaultOptions()).sinks == [Stdout]
    ensures BuildConfig(DefaultOptions()).encoder.kind == JsonEncoder
  {
  }

  /** "/dev/stderr" selects no stderr destination at all: only standard output remains. */
  lemma StderrMarkerGivesStdoutOnly(o: Options)
    requires o.fileName == "/dev/stderr"
    ensures BuildConfig(o).sinks == [Stdout]
  {
  }

  /** Console, the empty string and typos all fall back to the console encoder. */
  lemma NonJsonFormatsFallBackToConsole()
    ensures SelectEncoder("console") == ConsoleEncoder
    ensures SelectEncoder("") == ConsoleEncoder
    ensures SelectEncoder("JSON") == ConsoleEncoder
    ensures SelectEncoder("jsno") == ConsoleEncoder
  {
  }
}
