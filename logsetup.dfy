/** Logging configuration for the framework: the level table with the added SUCCESS tier, the
    resolution of levels and file sinks from the environment, and the process-wide registry that
    attaches handlers to a named logger only once. The environment is a map passed in; handlers
    are records of their kind, level and target. */
module Logsetup {
  import opened Values

  const NOTSET := 0
  const DEBUG := 10
  const INFO := 20
  const SUCCESS := 25
  const WARNING := 30
  const ERROR := 40
  const CRITICAL := 50

  /** The names of logging's name-to-level table, in its order, after SUCCESS was registered. */
  const LevelOrder: seq<string> :=
    ["CRITICAL", "FATAL", "ERROR", "WARN", "WARNING", "INFO", "DEBUG", "NOTSET", "SUCCESS"]

  /** logging's name-to-level table after `logging.addLevelName(SUCCESS, 'SUCCESS')`. */
  const NameToLevel: map<string, int> := map[
    "CRITICAL" := CRITICAL, "FATAL" := CRITICAL, "ERROR" := ERROR, "WARN" := WARNING,
    "WARNING" := WARNING, "INFO" := INFO, "DEBUG" := DEBUG, "NOTSET" := NOTSET,
    "SUCCESS" := SUCCESS]

  /** The `ValueError` raised for a level name the table does not hold. */
  datatype LevelError = UnknownLevel(name: string)

  /** `logging._checkLevel` applied to a string. */
  function CheckLevel(name: string): (r: Result<int, LevelError>)
    ensures r.Ok? <==> name in NameToLevel
    ensures r.Ok? ==> r.value == NameToLevel[name]
    ensures r.Err? ==> r.error == UnknownLevel(name)
  {
    if name in NameToLevel then Ok(NameToLevel[name]) else Err(UnknownLevel(name))
  }

  /** SUCCESS is a registered name whose level lies strictly between INFO and WARNING. */
  lemma SuccessLevelRegistered()
    ensures CheckLevel("SUCCESS") == Ok(25)
    ensures CheckLevel("INFO") == Ok(INFO) && CheckLevel("WARNING") == Ok(WARNING)
    ensures INFO < SUCCESS < WARNING
    ensures forall n :: n in LevelOrder <==> n in NameToLevel
  {
  }

  /** `str.upper` on ASCII letters. */
  function UpperChar(c: char): char
  {
    if 'a' <= c <= 'z' then (c as int - 32) as char else c
  }

  function Upper(s: string): (r: string)
    ensures |r| == |s|
    ensures forall i :: 0 <= i < |s| ==> r[i] == UpperChar(s[i])
  {
    if s == [] then [] else [UpperChar(s[0])] + Upper(s[1..])
  }

  predicate IsDigit(c: char)
  {
    '0' <= c <= '9'
  }

  /** `str.isdigit` on ASCII: non-empty and every character a decimal digit. */
  predicate IsDigits(s: string)
  {
    |s| > 0 && forall i :: 0 <= i < |s| ==> IsDigit(s[i])
  }

  /** `int(s)` for a string of decimal digits. */
  function ParseDecimal(s: string): nat
    requires forall i :: 0 <= i < |s| ==> IsDigit(s[i])
  {
    if s == [] then 0
    else
      assert IsDigit(s[|s| - 1]);
      10 * ParseDecimal(s[..|s| - 1]) + (s[|s| - 1] as int - '0' as int)
  }

  /** Decimal notation of a natural number, a reference for what `int` reads back. */
  function DecimalString(n: nat): string
  {
    if n < 10 then [('0' as int + n) as char]
    else DecimalString(n / 10) + [('0' as int + n % 10) as char]
  }

  /** Reading back the decimal notation of a number gives the number. */
  lemma {:induction false} ParseDecimalRoundTrip(n: nat)
    ensures IsDigits(DecimalString(n))
    ensures ParseDecimal(DecimalString(n)) == n
  {
    if n >= 10 {
      ParseDecimalRoundTrip(n / 10);
      var s := DecimalString(n);
      assert s[..|s| - 1] == DecimalString(n / 10);
    }
  }

  /** The overall level: INFO when LOGLEVEL is unset, the number when it is all digits,
      otherwise the upper-cased name looked up in the table. */
  function ParseLevel(env: map<string, string>): Result<int, LevelError>
  {
    if "LOGLEVEL" !in env then Ok(INFO)
    else if IsDigits(env["LOGLEVEL"]) then Ok(ParseDecimal(env["LOGLEVEL"]))
    else CheckLevel(Upper(env["LOGLEVEL"]))
  }

  /** The three ways LOGLEVEL resolves, and exactly when it is rejected. */
  lemma ParseLevelCases(env: map<string, string>)
    ensures "LOGLEVEL" !in env ==> ParseLevel(env) == Ok(20)
    ensures "LOGLEVEL" in env && IsDigits(env["LOGLEVEL"]) ==>
      ParseLevel(env) == Ok(ParseDecimal(env["LOGLEVEL"]))
    ensures "LOGLEVEL" in env && !IsDigits(env["LOGLEVEL"]) && Upper(env["LOGLEVEL"]) in NameToLevel ==>
      ParseLevel(env) == Ok(NameToLevel[Upper(env["LOGLEVEL"])])
    ensures ParseLevel(env).Err? <==>
      "LOGLEVEL" in env && !IsDigits(env["LOGLEVEL"]) && Upper(env["LOGLEVEL"]) !in NameToLevel
    ensures ParseLevel(env).Err? ==> ParseLevel(env).error == UnknownLevel(Upper(env["LOGLEVEL"]))
  {
  }

  /** Numeric LOGLEVEL values are taken as they are, leading zeros included. */
  lemma ParseLevelNumeric()
    ensures ParseLevel(map["LOGLEVEL" := "5"]) == Ok(5)
    ensures ParseLevel(map["LOGLEVEL" := "007"]) == Ok(7)
  {
    assert ParseDecimal("007") == 7 by {
      assert "007"[..2] == "00" && "00"[..1] == "0" && "0"[..0] == "";
    }
    assert ParseDecimal("5") == 5 by { assert "5"[..0] == ""; }
  }

  /** Level names are looked up whatever their case. */
  lemma ParseLevelNamed()
    ensures ParseLevel(map["LOGLEVEL" := "debug"]) == Ok(DEBUG)
    ensures ParseLevel(map["LOGLEVEL" := "Success"]) == Ok(SUCCESS)
  {
    assert Upper("debug") == "DEBUG";
    assert Upper("Success") == "SUCCESS";
    assert !IsDigit("debug"[0]);
    assert !IsDigit("Success"[0]);
  }

  /** The empty string, a negative number and an unknown name are all rejected. */
  lemma ParseLevelRejected()
    ensures ParseLevel(map["LOGLEVEL" := ""]) == Err(UnknownLevel(""))
    ensures ParseLevel(map["LOGLEVEL" := "-5"]) == Err(UnknownLevel("-5"))
    ensures ParseLevel(map["LOGLEVEL" := "verbose"]) == Err(UnknownLevel("VERBOSE"))
  {
    assert Upper("verbose") == "VERBOSE";
    assert Upper("-5") == "-5";
    assert !IsDigit("-5"[0]);
    assert !IsDigit("verbose"[0]);
  }

  /** Every level name starts with a capital letter. */
  lemma LevelNamesStartWithLetter(n: string)
    requires n in NameToLevel
    ensures |n| > 0 && 'A' <= n[0] <= 'Z'
  {
    assert n == "CRITICAL" || n == "FATAL" || n == "ERROR" || n == "WARN" || n == "WARNING"
      || n == "INFO" || n == "DEBUG" || n == "NOTSET" || n == "SUCCESS";
  }

  /** The console level: the overall level when STDOUT_LOGLEVEL is unset, otherwise a name lookup
      of the upper-cased value (no numeric form). */
  function StdoutLevel(env: map<string, string>, level: int): Result<int, LevelError>
  {
    if "STDOUT_LOGLEVEL" in env then CheckLevel(Upper(env["STDOUT_LOGLEVEL"])) else Ok(level)
  }

  /** No level name is made of digits, so a numeric STDOUT_LOGLEVEL is always rejected, while an
      unset one follows the overall level. */
  lemma StdoutLevelRejectsDigits(env: map<string, string>, level: int)
    ensures "STDOUT_LOGLEVEL" !in env ==> StdoutLevel(env, level) == Ok(level)
    ensures "STDOUT_LOGLEVEL" in env && IsDigits(env["STDOUT_LOGLEVEL"]) ==>
      StdoutLevel(env, level) == Err(UnknownLevel(env["STDOUT_LOGLEVEL"]))
  {
    if "STDOUT_LOGLEVEL" in env && IsDigits(env["STDOUT_LOGLEVEL"]) {
      var v := env["STDOUT_LOGLEVEL"];
      assert Upper(v) == v;
      assert IsDigit(v[0]);
      if v in NameToLevel {
        LevelNamesStartWithLetter(v);
        assert false;
      }
    }
  }

  /** The environment variable naming a file sink for a level name. */
  function LogFileVar(levelName: string): string
  {
    Upper(levelName) + "_LOGFILE"
  }

  /** The `files` dictionary, as its items in insertion order: every name of `names` whose
      `<NAME>_LOGFILE` variable is set, with that variable's value. */
  function LogFileEntries(names: seq<string>, env: map<string, string>): seq<(string, string)>
  {
    if names == [] then []
    else
      var rest := LogFileEntries(names[1..], env);
      if LogFileVar(names[0]) in env then [(names[0], env[LogFileVar(names[0])])] + rest else rest
  }

  lemma {:induction false} LogFileEntriesAppend(a: seq<string>, b: seq<string>, env: map<string, string>)
    ensures LogFileEntries(a + b, env) == LogFileEntries(a, env) + LogFileEntries(b, env)
  {
    if a == [] {
      assert a + b == b;
    } else {
      assert (a + b)[1..] == a[1..] + b;
      LogFileEntriesAppend(a[1..], b, env);
    }
  }

  /** An entry is in `files` exactly when its name is listed and its variable is set, and it
      carries that variable's value. */
  lemma {:induction false} LogFileEntriesExact(names: seq<string>, env: map<string, string>, name: string, path: string)
    ensures (name, path) in LogFileEntries(names, env) <==>
      name in names && LogFileVar(name) in env && env[LogFileVar(name)] == path
  {
    if names != [] {
      LogFileEntriesExact(names[1..], env, name, path);
    }
  }

  /** The position of a name in a list of names: its first occurrence. */
  function IndexOf(names: seq<string>, n: string): (k: nat)
    requires n in names
    ensures k < |names| && names[k] == n
  {
    if names[0] == n then 0 else 1 + IndexOf(names[1..], n)
  }

  /** The items of `files` follow the order of the level names they come from: every entry's
      name is listed, and an earlier entry's name comes strictly earlier in the list, so no name
      appears twice. */
  lemma {:induction false} LogFileEntriesOrdered(names: seq<string>, env: map<string, string>)
    requires forall i, j :: 0 <= i < j < |names| ==> names[i] != names[j]
    ensures forall k :: 0 <= k < |LogFileEntries(names, env)| ==> LogFileEntries(names, env)[k].0 in names
    ensures forall i, j :: 0 <= i < j < |LogFileEntries(names, env)| ==>
      IndexOf(names, LogFileEntries(names, env)[i].0) < IndexOf(names, LogFileEntries(names, env)[j].0)
  {
    var es := LogFileEntries(names, env);
    forall k | 0 <= k < |es| ensures es[k].0 in names {
      assert es[k] in es;
      LogFileEntriesExact(names, env, es[k].0, es[k].1);
    }
    if names != [] {
      var tail := names[1..];
      var rest := LogFileEntries(tail, env);
      LogFileEntriesOrdered(tail, env);
      forall k | 0 <= k < |rest|
        ensures rest[k].0 != names[0] && IndexOf(names, rest[k].0) == 1 + IndexOf(tail, rest[k].0)
      {
        var k' := IndexOf(tail, rest[k].0);
        assert names[1 + k'] == rest[k].0;
      }
      if LogFileVar(names[0]) in env {
        assert es == [(names[0], env[LogFileVar(names[0])])] + rest;
        forall i, j | 0 <= i < j < |es|
          ensures IndexOf(names, es[i].0) < IndexOf(names, es[j].0)
        {
          assert es[j] == rest[j - 1];
          if i > 0 {
            assert es[i] == rest[i - 1];
          }
        }
      }
    }
  }

  /** The loop of `get_logconfig` that collects the file sinks. */
  method CollectLogFiles(env: map<string, string>) returns (files: seq<(string, string)>)
    ensures files == LogFileEntries(LevelOrder, env)
  {
    files := [];
    for i := 0 to |LevelOrder|
      invariant files == LogFileEntries(LevelOrder[..i], env)
    {
      var levelName := LevelOrder[i];
      assert LevelOrder[..i + 1] == LevelOrder[..i] + [levelName];
      LogFileEntriesAppend(LevelOrder[..i], [levelName], env);
      if LogFileVar(levelName) in env {
        files := files + [(levelName, env[LogFileVar(levelName)])];
      }
    }
    assert LevelOrder[..|LevelOrder|] == LevelOrder;
  }

  /** What `get_logconfig` returns. */
  datatype LogConfig = LogConfig(level: int, stdoutLevel: int, files: seq<(string, string)>)

  /** `get_logconfig` as a function of the environment: the overall level is resolved first, so
      its error wins over a bad STDOUT_LOGLEVEL. */
  function LogConfigOf(env: map<string, string>): Result<LogConfig, LevelError>
  {
    match ParseLevel(env)
    case Err(e) => Err(e)
    case Ok(level) =>
      match StdoutLevel(env, level)
      case Err(e) => Err(e)
      case Ok(stdoutLevel) => Ok(LogConfig(level, stdoutLevel, LogFileEntries(LevelOrder, env)))
  }

  /** The error cases of the configuration, and what it holds otherwise: the overall level, the
      console level (the overall one unless STDOUT_LOGLEVEL names another), and exactly the set
      file variables, in table order. */
  lemma LogConfigCases(env: map<string, string>)
    ensures LogConfigOf(env).Ok? <==> ParseLevel(env).Ok? && StdoutLevel(env, ParseLevel(env).value).Ok?
    ensures ParseLevel(env).Err? ==> LogConfigOf(env) == Err(ParseLevel(env).error)
    ensures ParseLevel(env).Ok? && "STDOUT_LOGLEVEL" in env && Upper(env["STDOUT_LOGLEVEL"]) !in NameToLevel ==>
      LogConfigOf(env) == Err(UnknownLevel(Upper(env["STDOUT_LOGLEVEL"])))
    ensures LogConfigOf(env).Ok? ==>
      var cfg := LogConfigOf(env).value;
      && cfg.level == ParseLevel(env).value
      && ("STDOUT_LOGLEVEL" !in env ==> cfg.stdoutLevel == cfg.level)
      && ("STDOUT_LOGLEVEL" in env ==>
            Upper(env["STDOUT_LOGLEVEL"]) in NameToLevel && cfg.stdoutLevel == NameToLevel[Upper(env["STDOUT_LOGLEVEL"])])
      && (forall name, path :: (name, path) in cfg.files <==>
            name in NameToLevel && LogFileVar(name) in env && env[LogFileVar(name)] == path)
      && (forall k :: 0 <= k < |cfg.files| ==> cfg.files[k].0 in LevelOrder)
      && (forall i, j :: 0 <= i < j < |cfg.files| ==>
            IndexOf(LevelOrder, cfg.files[i].0) < IndexOf(LevelOrder, cfg.files[j].0))
  {
    forall name, path ensures (name, path) in LogFileEntries(LevelOrder, env) <==>
        name in NameToLevel && LogFileVar(name) in env && env[LogFileVar(name)] == path {
      LogFileEntriesExact(LevelOrder, env, name, path);
    }
    LevelOrderDistinct();
    LogFileEntriesOrdered(LevelOrder, env);
  }

  lemma LevelOrderDistinct()
    ensures forall i, j :: 0 <= i < j < |LevelOrder| ==> LevelOrder[i] != LevelOrder[j]
  {
  }

  /** With no variables set the configuration is INFO overall and on the console, no files. */
  lemma LogConfigDefault()
    ensures LogConfigOf(map[]) == Ok(LogConfig(INFO, INFO, []))
  {
    EmptyEnvNoFiles(LevelOrder);
  }

  lemma {:induction false} EmptyEnvNoFiles(names: seq<string>)
    ensures LogFileEntries(names, map[]) == []
  {
    if names != [] {
      EmptyEnvNoFiles(names[1..]);
    }
  }

  /** `get_logconfig`. */
  method GetLogConfig(env: map<string, string>) returns (r: Result<LogConfig, LevelError>)
    ensures r == LogConfigOf(env)
  {
    var level: int;
    if "LOGLEVEL" !in env {
      level := INFO;
    } else if IsDigits(env["LOGLEVEL"]) {
      level := ParseDecimal(env["LOGLEVEL"]);
    } else {
      var checked := CheckLevel(Upper(env["LOGLEVEL"]));
      if checked.Err? {
        return Err(checked.error);
      }
      level := checked.value;
    }
    var files := CollectLogFiles(env);
    var stdoutLevel := level;
    if "STDOUT_LOGLEVEL" in env {
      var checked := CheckLevel(Upper(env["STDOUT_LOGLEVEL"]));
      if checked.Err? {
        return Err(checked.error);
      }
      stdoutLevel := checked.value;
    }
    r := Ok(LogConfig(level, stdoutLevel, files));
  }

  /** A handler as a record: where it writes and from which level on. */
  datatype Handler = StreamHandler(level: int) | FileHandler(path: string, level: int)

  /** The state of a `logging.Logger` that `setup_logger` touches; `hasSuccess` says whether the
      `success` convenience method was attached. */
  datatype Logger = Logger(level: int, handlers: seq<Handler>, hasSuccess: bool)

  /** What `logging.getLogger` hands out for a name it has not seen. */
  const Unconfigured := Logger(NOTSET, [], false)

  /** `logging.getLogger(name)`: loggers are kept by logging itself, apart from the cache. */
  function GetLogger(managed: map<string, Logger>, name: string): Logger
  {
    if name in managed then managed[name] else Unconfigured
  }

  ghost predicate KnownNames(files: seq<(string, string)>)
  {
    forall k :: 0 <= k < |files| ==> files[k].0 in NameToLevel
  }

  /** One file handler per `files` item, each at the level its name stands for. */
  function FileHandlers(files: seq<(string, string)>): (hs: seq<Handler>)
    requires KnownNames(files)
    ensures |hs| == |files|
    ensures forall k :: 0 <= k < |files| ==> hs[k] == FileHandler(files[k].1, NameToLevel[files[k].0])
  {
    if files == [] then []
    else [FileHandler(files[0].1, NameToLevel[files[0].0])] + FileHandlers(files[1..])
  }

  lemma {:induction false} FileHandlersAppend(a: seq<(string, string)>, b: seq<(string, string)>)
    requires KnownNames(a + b)
    ensures KnownNames(a) && KnownNames(b)
    ensures FileHandlers(a + b) == FileHandlers(a) + FileHandlers(b)
  {
    assert forall k :: 0 <= k < |a| ==> a[k] == (a + b)[k];
    assert forall k :: 0 <= k < |b| ==> b[k] == (a + b)[|a| + k];
    if a == [] {
      assert a + b == b;
    } else {
      var rest := a[1..] + b;
      assert (a + b)[1..] == rest;
      assert forall k :: 0 <= k < |rest| ==> rest[k] == (a + b)[k + 1];
      FileHandlersAppend(a[1..], b);
    }
  }

  lemma {:induction false} LogFileEntriesKnown(names: seq<string>, env: map<string, string>)
    requires forall k :: 0 <= k < |names| ==> names[k] in NameToLevel
    ensures KnownNames(LogFileEntries(names, env))
  {
    if names != [] {
      LogFileEntriesKnown(names[1..], env);
    }
  }

  /** Every configuration names only known levels for its files. */
  lemma ConfigFilesKnown(env: map<string, string>)
    requires LogConfigOf(env).Ok?
    ensures KnownNames(LogConfigOf(env).value.files)
  {
    LogFileEntriesKnown(LevelOrder, env);
  }

  /** The logger after `setLevel`, the handlers and the `success` method were added to it. */
  function Configure(base: Logger, cfg: LogConfig): Logger
    requires KnownNames(cfg.files)
  {
    Logger(cfg.level, base.handlers + [StreamHandler(cfg.stdoutLevel)] + FileHandlers(cfg.files), true)
  }

  /** The cache, logging's own loggers, and what the call returned. */
  datatype Resolution = Resolution(
    loggers: map<string, Logger>,
    managed: map<string, Logger>,
    result: Result<Logger, LevelError>)

  /** `setup_logger(name)` as a transition of the two logger tables. */
  function Resolve(loggers: map<string, Logger>, managed: map<string, Logger>, name: string,
                   env: map<string, string>): Resolution
  {
    if name in loggers then Resolution(loggers, managed, Ok(loggers[name]))
    else
      match LogConfigOf(env)
      case Err(e) => Resolution(loggers, managed, Err(e))
      case Ok(cfg) =>
        ConfigFilesKnown(env);
        var logger := Configure(GetLogger(managed, name), cfg);
        Resolution(loggers[name := logger], managed[name := logger], Ok(logger))
  }

  /** A name already in the cache is answered from it, whatever the environment says now, and
      neither table changes; so a second call repeats the first call's answer. */
  lemma ResolveIdempotent(loggers: map<string, Logger>, managed: map<string, Logger>, name: string,
                          env1: map<string, string>, env2: map<string, string>)
    ensures var first := Resolve(loggers, managed, name, env1);
      first.result.Ok? ==>
        && name in first.loggers
        && Resolve(first.loggers, first.managed, name, env2) == first
  {
  }

  /** The first successful resolution of a name the cache does not hold: logging's logger of
      that name (a blank one if logging has none) gets the overall level, keeps the handlers it
      had, and gains one console handler at the console level followed by one file handler per
      `files` item at its level; both tables then hold that logger. */
  lemma ResolveFirstTime(loggers: map<string, Logger>, managed: map<string, Logger>, name: string,
                         env: map<string, string>)
    requires name !in loggers
    requires LogConfigOf(env).Ok?
    ensures KnownNames(LogConfigOf(env).value.files)
    ensures var cfg := LogConfigOf(env).value;
      var r := Resolve(loggers, managed, name, env);
      && r.result.Ok?
      && r.loggers == loggers[name := r.result.value]
      && r.managed == managed[name := r.result.value]
      && r.result.value.level == cfg.level
      && r.result.value.hasSuccess
      && r.result.value.handlers
           == GetLogger(managed, name).handlers + [StreamHandler(cfg.stdoutLevel)] + FileHandlers(cfg.files)
      && (name !in managed ==> r.result.value.handlers == [StreamHandler(cfg.stdoutLevel)] + FileHandlers(cfg.files))
  {
    ConfigFilesKnown(env);
    var cfg := LogConfigOf(env).value;
    var base := GetLogger(managed, name);
    var logger := Configure(base, cfg);
    assert Resolve(loggers, managed, name, env) == Resolution(loggers[name := logger], managed[name := logger], Ok(logger));
    if name !in managed {
      assert base.handlers == [];
      assert [] + [StreamHandler(cfg.stdoutLevel)] == [StreamHandler(cfg.stdoutLevel)];
    }
  }

  /** A bad level setting fails the call and leaves both tables as they were. */
  lemma ResolveConfigError(loggers: map<string, Logger>, managed: map<string, Logger>, name: string,
                           env: map<string, string>)
    requires name !in loggers && LogConfigOf(env).Err?
    ensures Resolve(loggers, managed, name, env) == Resolution(loggers, managed, Err(LogConfigOf(env).error))
  {
  }

  /** The `for levelname, filename in files.items()` loop of `setup_logger`: one file handler per
      item, appended in order. */
  method AttachFileHandlers(logger: Logger, files: seq<(string, string)>) returns (result: Logger)
    requires KnownNames(files)
    ensures result == logger.(handlers := logger.handlers + FileHandlers(files))
  {
    result := logger;
    var k := 0;
    while k < |files|
      invariant 0 <= k <= |files|
      invariant result == logger.(handlers := logger.handlers + FileHandlers(files[..k]))
    {
      assert files[..k + 1] == files[..k] + [files[k]];
      assert KnownNames(files[..k + 1]);
      FileHandlersAppend(files[..k], [files[k]]);
      result := result.(handlers := result.handlers + [FileHandler(files[k].1, NameToLevel[files[k].0])]);
      k := k + 1;
    }
    assert files[..k] == files;
  }

  /** The module-level `loggers` cache together with the loggers logging keeps by name. */
  class LoggerRegistry {
    var loggers: map<string, Logger>
    var managed: map<string, Logger>

    /** Every cached logger is the one logging holds under that name, fully set up. */
    ghost predicate Valid()
      reads this
    {
      forall n :: n in loggers ==> n in managed && managed[n] == loggers[n] && loggers[n].hasSuccess
    }

    constructor ()
      ensures Valid() && loggers == map[] && managed == map[]
    {
      loggers := map[];
      managed := map[];
    }

    /** `setup_logger(name)`. */
    method SetupLogger(name: string, env: map<string, string>) returns (r: Result<Logger, LevelError>)
      requires Valid()
      modifies this
      ensures Valid()
      ensures Resolution(loggers, managed, r) == Resolve(old(loggers), old(managed), name, env)
      ensures r.Ok? ==> name in loggers && name in managed && managed[name] == r.value && r.value.hasSuccess
    {
      if name in loggers {
        return Ok(loggers[name]);
      }
      var cfg := GetLogConfig(env);
      if cfg.Err? {
        return Err(cfg.error);
      }
      ConfigFilesKnown(env);
      var logger := GetLogger(managed, name);
      logger := logger.(level := cfg.value.level);
      logger := logger.(handlers := logger.handlers + [StreamHandler(cfg.value.stdoutLevel)]);
      logger := AttachFileHandlers(logger, cfg.value.files);
      logger := logger.(hasSuccess := true);
      loggers := loggers[name := logger];
      managed := managed[name := logger];
      r := Ok(logger);
    }
  }
}
