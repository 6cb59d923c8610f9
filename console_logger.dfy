/**
 * Routing of the user's `console` calls into the structured logger
 * (detox/src/utils/customConsoleLogger.js): six console methods are
 * replaced, once, by proxies that forward to a fixed logger level and tag
 * every record as a user log line.
 *
 * Loggers are identified by number. `util.format`, the stack dump and the
 * path relativisation are foreign code: their results are parameters.
 */
module ConsoleLogger {
  import opened Common

  datatype Level = Info | Warn | Error | Debug

  datatype MethodName = LogMethod | WarnMethod | TraceMethod | ErrorMethod | DebugMethod | AssertMethod

  /** What a console slot holds: the platform's method, or one of the three proxies bound to a logger level. */
  datatype Handler =
    | Native
    | PlainProxy(logger: nat, level: Level)
    | TracingProxy(logger: nat, level: Level)
    | AssertProxy(logger: nat, level: Level)

  const AllMethods: set<MethodName> := {LogMethod, WarnMethod, TraceMethod, ErrorMethod, DebugMethod, AssertMethod}

  /** The logger level each console method is bound to. */
  function LevelFor(m: MethodName): Level {
    match m
    case LogMethod => Info
    case WarnMethod => Warn
    case TraceMethod => Info
    case ErrorMethod => Error
    case DebugMethod => Debug
    case AssertMethod => Error
  }

  /** `override`: the proxy kind depends only on the method's name. */
  function ProxyFor(m: MethodName, logger: nat, level: Level): (h: Handler)
    ensures h.TracingProxy? <==> m == TraceMethod
    ensures h.AssertProxy? <==> m == AssertMethod
    ensures h.PlainProxy? <==> m != TraceMethod && m != AssertMethod
    ensures !h.Native? && h.logger == logger && h.level == level
  {
    if m == TraceMethod then TracingProxy(logger, level)
    else if m == AssertMethod then AssertProxy(logger, level)
    else PlainProxy(logger, level)
  }

  /** The console's methods once the override is installed for `logger`. */
  function Installed(logger: nat): map<MethodName, Handler> {
    map m | m in AllMethods :: ProxyFor(m, logger, LevelFor(m))
  }

  /** The installed mapping is the fixed level table, with trace and assert getting their own proxies. */
  lemma InstalledMapping(logger: nat)
    ensures Installed(logger).Keys == AllMethods
    ensures Installed(logger)[LogMethod] == PlainProxy(logger, Info)
    ensures Installed(logger)[WarnMethod] == PlainProxy(logger, Warn)
    ensures Installed(logger)[TraceMethod] == TracingProxy(logger, Info)
    ensures Installed(logger)[ErrorMethod] == PlainProxy(logger, Error)
    ensures Installed(logger)[DebugMethod] == PlainProxy(logger, Debug)
    ensures Installed(logger)[AssertMethod] == AssertProxy(logger, Error)
  {
  }

  /** The six overrides, one method at a time, give the installed mapping whatever the slots held before. */
  lemma SixOverrides(before: map<MethodName, Handler>, logger: nat)
    requires before.Keys == AllMethods
    ensures before[LogMethod := ProxyFor(LogMethod, logger, Info)][WarnMethod := ProxyFor(WarnMethod, logger, Warn)]
                  [TraceMethod := ProxyFor(TraceMethod, logger, Info)][ErrorMethod := ProxyFor(ErrorMethod, logger, Error)]
                  [DebugMethod := ProxyFor(DebugMethod, logger, Debug)][AssertMethod := ProxyFor(AssertMethod, logger, Error)]
            == Installed(logger)
  {
    InstalledMapping(logger);
  }

  class Console {
    var methods: map<MethodName, Handler>
    /** `__detox_log__`: the logger the override was installed for, if any. */
    var marker: Option<nat>

    constructor ()
      ensures methods == map m | m in AllMethods :: Native
      ensures marker == None
    {
      methods := map m | m in AllMethods :: Native;
      marker := None;
    }

    method Override(m: MethodName, logger: nat, level: Level)
      modifies this`methods
      ensures methods == old(methods)[m := ProxyFor(m, logger, level)]
    {
      methods := methods[m := ProxyFor(m, logger, level)];
    }

    /**
     * `overrideConsoleMethods`: on an unmarked console, install the six
     * proxies and set the marker; on a marked one, change nothing. Either
     * way the same console is returned.
     */
    method OverrideConsoleMethods(logger: nat) returns (c: Console)
      requires methods.Keys == AllMethods
      modifies this`methods, this`marker
      ensures c == this
      ensures methods.Keys == AllMethods
      ensures old(marker).Some? ==> methods == old(methods) && marker == old(marker)
      ensures old(marker).None? ==> methods == Installed(logger) && marker == Some(logger)
    {
      if marker.None? {
        Override(LogMethod, logger, Info);
        Override(WarnMethod, logger, Warn);
        Override(TraceMethod, logger, Info);
        Override(ErrorMethod, logger, Error);
        Override(DebugMethod, logger, Debug);
        Override(AssertMethod, logger, Error);
        marker := Some(logger);
        SixOverrides(old(methods), logger);
      }
      return this;
    }
  }

  /** Installing twice, even for another logger, leaves the first installation in place. */
  method InstallTwice(c: Console, first: nat, second: nat)
    requires c.methods.Keys == AllMethods && c.marker == None
    modifies c
    ensures c.methods == Installed(first) && c.marker == Some(first)
  {
    var c1 := c.OverrideConsoleMethods(first);
    var c2 := c.OverrideConsoleMethods(second);
  }

  // ---------------------------------------------------------------------
  // What a proxy forwards

  const UserLog := "USER_LOG"

  /** One call of a bunyan logger method: the level, the `event` field and the message parts. */
  datatype LogCall = LogCall(logger: nat, level: Level, event: string, parts: seq<string>)

  /**
   * A call of a replaced console method. `condition` is the first argument
   * of `assert` (its truthiness); `formatted` is `util.format` of the
   * remaining arguments; `stack` is the stack dump a trace carries.
   */
  function Forward(h: Handler, origin: string, condition: bool, formatted: string, stack: string): (r: Option<LogCall>)
    requires !h.Native?
    ensures r.None? <==> h.AssertProxy? && condition
    ensures r.Some? ==> r.value.logger == h.logger && r.value.level == h.level && r.value.event == UserLog
    ensures r.Some? ==> |r.value.parts| >= 3 && r.value.parts[0] == origin && r.value.parts[2] == formatted
  {
    match h
    case PlainProxy(logger, level) => Some(LogCall(logger, level, UserLog, [origin, "\n", formatted]))
    case TracingProxy(logger, level) =>
      Some(LogCall(logger, level, UserLog, [origin, "\n  Trace:", formatted, "\n\r" + stack]))
    case AssertProxy(logger, level) =>
      if condition then None else Some(LogCall(logger, level, UserLog, [origin, "\n  AssertionError:", formatted]))
  }

  /** Through an installed console, each method reaches its level in the table; assert only on a falsy condition. */
  lemma InstalledForwarding(logger: nat, m: MethodName, origin: string, condition: bool, formatted: string, stack: string)
    ensures m in Installed(logger)
    ensures Forward(Installed(logger)[m], origin, condition, formatted, stack).None? <==> m == AssertMethod && condition
    ensures m != AssertMethod || !condition ==>
      Forward(Installed(logger)[m], origin, condition, formatted, stack).value.level == LevelFor(m)
  {
  }

  // ---------------------------------------------------------------------
  // Origin of a call

  /** The user's call site as the stack reports it; a missing or zero line or column is falsy. */
  datatype Callsite = Callsite(fileName: Option<string>, line: Option<nat>, column: Option<nat>)

  /** `x || '?'` for a line or column number. */
  function PositionText(n: Option<nat>): (s: string)
    ensures s == "?" <==> n.None? || n.value == 0
    ensures forall i :: 0 <= i < |s| ==> s[i] != ':'
  {
    if n.Some? && n.value != 0 then NatToString(n.value) else "?"
  }

  /** The file part of an origin: the path relative to the working directory, or `<unknown>` when there is no file name. */
  function FileText(fileName: Option<string>, relative: string -> string): string {
    if Truthy(fileName) then relative(fileName.value) else "<unknown>"
  }

  /** `getOrigin`: `at <file>:<line>:<col>`, the file relative to the working directory or `<unknown>`. */
  function GetOrigin(callsite: Option<Callsite>, relative: string -> string): (r: string)
    ensures StartsWith(r, "at ")
    ensures callsite.None? ==> r == "at <unknown>:?:?"
    ensures callsite.Some? && !Truthy(callsite.value.fileName) ==> StartsWith(r, "at <unknown>:")
    ensures callsite.Some? ==>
      r == "at " + FileText(callsite.value.fileName, relative) + ":"
           + PositionText(callsite.value.line) + ":" + PositionText(callsite.value.column)
  {
    var fileName := if callsite.Some? then callsite.value.fileName else None;
    var line := if callsite.Some? then callsite.value.line else None;
    var column := if callsite.Some? then callsite.value.column else None;
    "at " + FileText(fileName, relative) + ":" + PositionText(line) + ":" + PositionText(column)
  }

  /**
   * The origin parses back into its three fields: when the file part has
   * no colon, the origin holds exactly two colons, and the text between
   * them is the file, the line and the column.
   */
  lemma {:induction false} OriginFields(callsite: Callsite, relative: string -> string)
    requires forall i :: 0 <= i < |FileText(callsite.fileName, relative)| ==> FileText(callsite.fileName, relative)[i] != ':'
    ensures var r := GetOrigin(Some(callsite), relative);
            var file, line, col := FileText(callsite.fileName, relative), PositionText(callsite.line), PositionText(callsite.column);
            var p1 := 3 + |file|;
            var p2 := p1 + 1 + |line|;
            && p2 < |r| && r[p1] == ':' && r[p2] == ':'
            && (forall i :: 0 <= i < |r| && i != p1 && i != p2 ==> r[i] != ':')
            && r[3..p1] == file && r[p1 + 1..p2] == line && r[p2 + 1..] == col
  {
    var r := GetOrigin(Some(callsite), relative);
    var file, line, col := FileText(callsite.fileName, relative), PositionText(callsite.line), PositionText(callsite.column);
    var p1 := 3 + |file|;
    var p2 := p1 + 1 + |line|;
    assert r == "at " + file + ":" + line + ":" + col;
    forall i | 0 <= i < |r| && i != p1 && i != p2
      ensures r[i] != ':'
    {
      if i < 3 {
        assert r[i] == "at "[i];
      } else if i < p1 {
        assert r[i] == file[i - 3];
      } else if i < p2 {
        assert r[i] == line[i - p1 - 1];
      } else {
        assert r[i] == col[i - p2 - 1];
      }
    }
  }

  /** The column can be read back from the origin: it is everything after the last colon. */
  lemma OriginEndsWithColumn(callsite: Option<Callsite>, relative: string -> string)
    ensures var r := GetOrigin(callsite, relative);
            var col := PositionText(if callsite.Some? then callsite.value.column else None);
            |col| < |r| && r[|r| - |col| - 1] == ':' && r[|r| - |col|..] == col
  {
  }
}
