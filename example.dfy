/**
  The demo program's two configuration calls, as a client of the Unilog model:
  first JSON to "./a.log" at debug level, then console to "/dev/stderr".
 */
module Example {
  import opened Unilog

  /** What L() returns after each of the two SetSimpleLogger calls. */
  method Scenario() returns (first: Option<Config>, second: Option<Config>)
    ensures first.Some? && first.value.encoder.kind == JsonEncoder
    ensures first.Some? && first.value.sinks == [Stdout, RotatingFile("./a.log", 1, 5, 7, true)]
    ensures second.Some? && second.value.encoder.kind == ConsoleEncoder
    ensures second.Some? && second.value.sinks == [Stdout]
    ensures first.Some? && second.Some? && first.value.level == second.value.level == DebugLevel
    ensures first == Replay(None, [SimpleOptions("json", "./a.log", DebugLevel)])
    ensures second == Replay(None, [SimpleOptions("json", "./a.log", DebugLevel),
                                    SimpleOptions("console", "/dev/stderr", DebugLevel)])
  {
    var globals := new Globals();
    globals.SetSimpleLogger("json", "./a.log", DebugLevel);
    first := globals.L();
    globals.SetSimpleLogger("console", "/dev/stderr", DebugLevel);
    second := globals.L();
    ReplaySnoc(None, [], SimpleOptions("json", "./a.log", DebugLevel));
    ReplaySnoc(None, [SimpleOptions("json", "./a.log", DebugLevel)],
               SimpleOptions("console", "/dev/stderr", DebugLevel));
  }
}
