/**
 * The unified logger: a minimum level, an optional set of enabled modules, and a
 * fixed line format. What reaches `android.util.Log` is returned as a `LogLine`;
 * the timestamp (`SimpleDateFormat`), the thread name and the stack-trace text are
 * opaque strings supplied by the caller.
 */
module Logging {
  import opened Wrappers

  datatype LogModule = App | Vpn | Service | Core | Network | Plugin | Receiver | Global | UI | FFI

  /** The Android log tag of each module. */
  function ModuleTag(m: LogModule): (tag: string)
    ensures |tag| > 8 && tag[..8] == "Bettbox."
  {
    match m
    case App => "Bettbox.App"
    case Vpn => "Bettbox.VPN"
    case Service => "Bettbox.Service"
    case Core => "Bettbox.Core"
    case Network => "Bettbox.Network"
    case Plugin => "Bettbox.Plugin"
    case Receiver => "Bettbox.Receiver"
    case Global => "Bettbox.Global"
    case UI => "Bettbox.UI"
    case FFI => "Bettbox.FFI"
  }

  datatype LogLevel = Verbose | Debug | Info | Warn | Error | Assert | Silent

  /** The level's priority, as `android.util.Log` numbers them (NONE is 8). */
  function Priority(level: LogLevel): (p: int)
    ensures 2 <= p <= 8
    ensures p == 8 <==> level == Silent
  {
    match level
    case Verbose => 2
    case Debug => 3
    case Info => 4
    case Warn => 5
    case Error => 6
    case Assert => 7
    case Silent => 8
  }

  /** The declaration order of the levels, VERBOSE first. */
  function Rank(level: LogLevel): nat {
    match level
    case Verbose => 0
    case Debug => 1
    case Info => 2
    case Warn => 3
    case Error => 4
    case Assert => 5
    case Silent => 6
  }

  /** Priorities strictly increase along the declaration order, so they order the levels. */
  lemma PrioritiesIncrease(a: LogLevel, b: LogLevel)
    ensures Rank(a) < Rank(b) <==> Priority(a) < Priority(b)
    ensures a == b <==> Priority(a) == Priority(b)
  {
  }

  /** The one-letter tag that heads the bracket of every line. */
  function LevelTag(level: LogLevel): (tag: string)
    ensures |tag| == 1
    ensures tag == "?" <==> level == Silent
  {
    match level
    case Verbose => "V"
    case Debug => "D"
    case Info => "I"
    case Warn => "W"
    case Error => "E"
    case Assert => "A"
    case Silent => "?"
  }

  /** The `android.util.Log` entry point a level is written through. */
  datatype LogCall = LogV | LogD | LogI | LogW | LogE | LogWtf

  /** One line handed to `android.util.Log`: the entry point, the tag and the text. */
  datatype LogLine = LogLine(call: LogCall, tag: string, text: string)

  /** The `android.util.Log` entry point a level is written with; NONE writes nothing. */
  function CallFor(level: LogLevel): (call: LogCall)
    requires level != Silent
    ensures call == LogE <==> level == Error
    ensures call == LogWtf <==> level == Assert
  {
    match level
    case Verbose => LogV
    case Debug => LogD
    case Info => LogI
    case Warn => LogW
    case Error => LogE
    case Assert => LogWtf
  }

  /** The bracketed header `"[<level>/<module tag>] "` that follows the timestamp and thread. */
  function Header(logModule: LogModule, level: LogLevel): string {
    "[" + LevelTag(level) + "/" + ModuleTag(logModule) + "] "
  }

  /**
   * `"<timestamp> [<thread>] [<level>/<module tag>] <message>"`, followed by a
   * newline and the stack trace when a throwable is given.
   */
  function FormatMessage(logModule: LogModule, level: LogLevel, message: string,
                         stackTrace: Option<string>, timestamp: string, thread: string): (line: string)
    ensures var prefix := timestamp + " [" + thread + "] " + Header(logModule, level);
            && |line| == |prefix| + |message| + (if stackTrace.Some? then 1 + |stackTrace.value| else 0)
            && line[..|prefix|] == prefix
            && line[|prefix|..|prefix| + |message|] == message
            && (stackTrace.Some? ==> line[|prefix| + |message|..] == "\n" + stackTrace.value)
            && (stackTrace.None? ==> line == prefix + message)
  {
    var prefix := timestamp + " [" + thread + "] " + Header(logModule, level);
    var base := prefix + message;
    assert base[|prefix|..|prefix| + |message|] == message;
    if stackTrace.Some? then
      var line := base + "\n" + stackTrace.value;
      assert line[..|base|] == base;
      line
    else base
  }

  /** `n` copies of `c`. */
  function Repeat(c: char, n: nat): (s: string)
    ensures |s| == n
    ensures forall i :: 0 <= i < n ==> s[i] == c
  {
    if n == 0 then [] else [c] + Repeat(c, n - 1)
  }

  /** The module filter alone: an empty set of enabled modules lets every module through. */
  predicate ModulePasses(enabled: set<LogModule>, logModule: LogModule) {
    enabled == {} || logModule in enabled
  }

  /**
   * Enabling one module starting from the empty set RESTRICTS logging to that module:
   * every other module, which passed before, is filtered out afterwards.
   */
  lemma EnablingFirstModuleRestricts(m: LogModule, other: LogModule)
    requires other != m
    ensures ModulePasses({}, other)
    ensures !ModulePasses({} + {m}, other) && ModulePasses({} + {m}, m)
  {
  }

  const SeparatorWidth := 50

  class LogUtils {
    var minLogLevel: LogLevel
    var isDebugMode: bool
    var enabledModules: set<LogModule>

    constructor ()
      ensures minLogLevel == Debug && isDebugMode && enabledModules == {}
    {
      minLogLevel := Debug;
      isDebugMode := true;
      enabledModules := {};
    }

    /** Replaces the enabled modules by exactly those listed (an empty list enables all). */
    method SetEnabledModules(modules: seq<LogModule>)
      modifies this`enabledModules
      ensures forall m :: m in enabledModules <==> m in modules
    {
      enabledModules := set m | m in modules;
    }

    method EnableModule(logModule: LogModule)
      modifies this`enabledModules
      ensures enabledModules == old(enabledModules) + {logModule}
    {
      enabledModules := enabledModules + {logModule};
    }

    method DisableModule(logModule: LogModule)
      modifies this`enabledModules
      ensures enabledModules == old(enabledModules) - {logModule}
    {
      enabledModules := enabledModules - {logModule};
    }

    /** Whether a line of `level` from `module` passes both filters. */
    predicate ShouldLog(logModule: LogModule, level: LogLevel)
      reads this
      ensures !ShouldLog(logModule, level) <==>
                Priority(level) < Priority(minLogLevel)
                || (enabledModules != {} && logModule !in enabledModules)
    {
      Priority(level) >= Priority(minLogLevel) && ModulePasses(enabledModules, logModule)
    }

    /**
     * What `log(logModule, level, message, throwable)` hands to `android.util.Log`:
     * nothing when the filters reject the line or the level is NONE.
     */
    function Log(logModule: LogModule, level: LogLevel, message: string, stackTrace: Option<string>,
                 timestamp: string, thread: string): (out: Option<LogLine>)
      reads this
      ensures out.Some? <==> ShouldLog(logModule, level) && level != Silent
      ensures out.Some? ==> out.value.call == CallFor(level)
      ensures out.Some? ==> out.value.tag == ModuleTag(logModule)
                            && out.value.text == FormatMessage(logModule, level, message, stackTrace, timestamp, thread)
    {
      if !ShouldLog(logModule, level) then None
      else
        var text := FormatMessage(logModule, level, message, stackTrace, timestamp, thread);
        if level == Silent then None
        else Some(LogLine(CallFor(level), ModuleTag(logModule), text))
    }

    /** `e(logModule, throwable, message)`: an ERROR line that always carries the stack trace. */
    function LogThrowable(logModule: LogModule, stackTrace: string, throwableMessage: Option<string>,
                          message: Option<string>, timestamp: string, thread: string): (out: Option<LogLine>)
      reads this
      ensures out.Some? <==> ShouldLog(logModule, Error)
      ensures out.Some? ==> out.value.call == LogE
      ensures out.Some? ==> var text := message.GetOr(throwableMessage.GetOr("Unknown error"));
                            out.value.text == FormatMessage(logModule, Error, text, Some(stackTrace), timestamp, thread)
    {
      Log(logModule, Error, message.GetOr(throwableMessage.GetOr("Unknown error")), Some(stackTrace), timestamp, thread)
    }

    /** `methodEnter`: a DEBUG line "▶ name", only while the minimum level is at most DEBUG. */
    function MethodEnter(logModule: LogModule, methodName: string, timestamp: string, thread: string): (out: Option<LogLine>)
      reads this
      ensures out.Some? <==> (minLogLevel == Verbose || minLogLevel == Debug) && ModulePasses(enabledModules, logModule)
      ensures out.Some? ==> out.value.call == LogD
                            && out.value.text == FormatMessage(logModule, Debug, "▶ " + methodName, None, timestamp, thread)
    {
      if Priority(minLogLevel) <= Priority(Debug) then Log(logModule, Debug, "▶ " + methodName, None, timestamp, thread)
      else None
    }

    /** `methodExit`: "◀ name", with " = result" appended exactly when a result is given. */
    function MethodExit(logModule: LogModule, methodName: string, result: Option<string>,
                        timestamp: string, thread: string): (out: Option<LogLine>)
      reads this
      ensures out.Some? <==> (minLogLevel == Verbose || minLogLevel == Debug) && ModulePasses(enabledModules, logModule)
      ensures out.Some? && result.None? ==>
                out.value.text == FormatMessage(logModule, Debug, "◀ " + methodName, None, timestamp, thread)
      ensures out.Some? && result.Some? ==>
                out.value.text == FormatMessage(logModule, Debug, "◀ " + methodName + " = " + result.value, None, timestamp, thread)
    {
      if Priority(minLogLevel) <= Priority(Debug) then
        if result.Some? then Log(logModule, Debug, "◀ " + methodName + " = " + result.value, None, timestamp, thread)
        else Log(logModule, Debug, "◀ " + methodName, None, timestamp, thread)
      else None
    }

    /** `methodException`: an ERROR line "✗ name" with the stack trace. */
    function MethodException(logModule: LogModule, methodName: string, stackTrace: string,
                             timestamp: string, thread: string): (out: Option<LogLine>)
      reads this
      ensures out.Some? <==> ShouldLog(logModule, Error)
      ensures out.Some? ==> out.value.text == FormatMessage(logModule, Error, "✗ " + methodName, Some(stackTrace), timestamp, thread)
    {
      Log(logModule, Error, "✗ " + methodName, Some(stackTrace), timestamp, thread)
    }

    /**
     * `printSeparator`: an INFO line of 50 '═', or "separator title separator" for a
     * non-empty title, only while the minimum level is at most INFO.
     */
    function PrintSeparator(logModule: LogModule, title: string, timestamp: string, thread: string): (out: Option<LogLine>)
      reads this
      ensures out.Some? <==> Priority(minLogLevel) <= Priority(Info) && ModulePasses(enabledModules, logModule)
      ensures out.Some? && title == "" ==>
                out.value.text == FormatMessage(logModule, Info, Repeat('═', SeparatorWidth), None, timestamp, thread)
      ensures out.Some? && title != "" ==>
                var bar := Repeat('═', SeparatorWidth);
                out.value.text == FormatMessage(logModule, Info, bar + " " + title + " " + bar, None, timestamp, thread)
    {
      if Priority(minLogLevel) <= Priority(Info) then
        var separator := Repeat('═', SeparatorWidth);
        Log(logModule, Info, if title == "" then separator else separator + " " + title + " " + separator,
            None, timestamp, thread)
      else None
    }

    /** With the minimum level at NONE nothing is ever written, whatever the level or module. */
    lemma SilentMinimumSilencesAll(logModule: LogModule, level: LogLevel, message: string,
                                   stackTrace: Option<string>, timestamp: string, thread: string)
      requires minLogLevel == Silent
      ensures Log(logModule, level, message, stackTrace, timestamp, thread) == None
    {
      PrioritiesIncrease(level, Silent);
    }
  }
}
