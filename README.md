# data-pypes in Dafny

A model of the data-pypes micro-framework: a pipeline that runs a linear chain of processing
segments, plus the environment-driven logging configuration that goes with it.

- **The envelope** (`values.dfy`, module `Values`). `NextInput(args, kwd)` carries the positional
  and named arguments of the next call. Python's dynamic values become a closed union: `Plain` for
  an ordinary value, `Next` for an envelope. An exception becomes a `Raised` value. Its
  `catchable` flag says whether `except Exception:` intercepts it.
- **The current engine** (`pypes.dfy`, module `Pypes`, from `pypes/pypes.py`):
  - `PypeSegment` and user subclasses are `Segment` values; user hooks are function-typed fields.
  - `PypeLine` is a segment, so pipelines nest.
  - A run is a `Run` record: the outcome (`Completed(data)` or `Aborted(error)`), one
    `StepRecord` per segment reached, and the log calls made.
  - The pure functions `RunLine`/`RunFrom`/`AttemptStep` define a run.
  - The class `PypeLine` holds the fields the initializer sets. Its `Process` method is the
    `for` loop of `PypeLine.process` with its `try`/`except`, proved equal to `RunLine`.
- **The two older revisions**:
  - `prepypes.dfy` (module `PrePypes`) models `pre-pypes.py`. Its default `process` returns an
    empty envelope.
  - `earlypypes.dfy` (module `EarlyPypes`) models `pypes.py`. Its default `process` returns
    None, and its segments have no name.
  - Both have no error boundary: the first exception leaves the pipe.
  - Each has its own `DataPipe` class whose `Process` loop is proved equal to `RunPipe`.
- **The demos** (`binding.dfy`, module `Binding`). The demo segment bodies shared by all three
  revisions: how Python binds an envelope to `process(self, stuff)` and
  `process(self, some, more=None)`, and what those bodies return.
- **Logging configuration** (`logsetup.dfy`, module `Logsetup`, from `pypes/logsetup.py`):
  - the level table with SUCCESS = 25;
  - `get_logconfig` as a function of an environment map, and as a method with the `for` loop of
    `get_logconfig` over level names;
  - `setup_logger` as a class. It holds the module-level `loggers` cache and the loggers
    `logging` keeps by name. Its method is proved to follow the transition function `Resolve`.

Three details of the code that the model keeps:
- An unknown `LOGLEVEL` name raises `ValueError`; it does not fall back to INFO.
- `continue_on_errors` tolerates only exceptions derived from `Exception`. A `KeyboardInterrupt`
  or `SystemExit` still aborts the run.
- In the usage example, segment "two" receives the string of "one" as its only argument, with no
  keyword. The pipeline is named `demopipe`.

## Model

| member | source | states |
|---|---|---|
| `Values.Wrap` | pypes/pypes.py:54-57 | the envelope holds exactly the positional and named arguments it was given |
| `Values.Normalize` | pypes/pypes.py:172-174 | an envelope is delivered as it is; any other value becomes the sole positional argument with no keywords |
| `Values.NormalizeIdempotent` | pypes/pypes.py:173-174 | normalising an already-normalised value changes nothing |
| `Values.Failure` | pypes/pypes.py:178-187 | a step failed exactly when its check raised, or its `process` was called and raised; a raising check is the failure reported, and otherwise the exception `process` raised is |
| `Values.DataAfter` | pypes/pypes.py:183-202 | defines the data held after a step: what `process` returned, or, when the check or `process` raised, the normalised data the step was given |
| `Values.InitName` | pypes/pypes.py:76-87 | the name is the one passed unless it is None, in which case it is the class default `'default'` |
| `Binding.BindStuff` | pypes-example.py:12 | defines the binding of `process(self, stuff)`: exactly one positional argument, or only the keyword `stuff` |
| `Binding.BindSome` | pypes-example.py:19 | defines the binding of `process(self, some, more=None)`: at most two positionals, keywords among `some` and `more`, no parameter given twice, and `some` given |
| `Binding.WorkStuff` | pypes-example.py:12-14 | `FirstDemoProcess.process` succeeds exactly when the arguments bind to `stuff` and `stuff` is not an envelope (`%` with a 2-tuple raises `TypeError`), and then returns its constant string; every failure is a `TypeError` |
| `Binding.Preprocess` | pypes-example.py:19-21 | `SecondDemoProcess.process` succeeds exactly when the arguments bind to `some` (a string, when the body concatenates it), and then returns an envelope with only `stuff='Preprocessed by <self>.'` |
| `Pypes.StrRoundTrip` | pypes/pypes.py:91-95 | `str(segment)` is the class name, a dot and the name; splitting it at the first dot gives both back |
| `Pypes.Signature` | pypes/pypes.py:91-95 | defines `str(segment)` as the class name, a dot and the name |
| `Pypes.PolicyEvent` | pypes/pypes.py:189-198 | defines the record the `except` clause logs for a failed step: with `continue_on_errors`, a WARNING `'<segment> failed, but processing will continue.'` with no data; otherwise an ERROR `'<segment> could not process '` carrying the step's input envelope; both are logged by the pipeline's own logger |
| `Pypes.NewSegment` | pypes/pypes.py:78-89 | `PypeSegment(name)` is a default segment of class `PypeSegment` with the initializer's name |
| `Pypes.NewLine` | pypes/pypes.py:145-155 | `PypeLine(segments, name, continue_on_errors)` holds the given segments (none when None), and `continue_on_errors` holds exactly when True was passed |
| `Pypes.StrExamples` | pypes/pypes.py:67-69 | `'PypeSegment.log-signature'`, `'PypeSegment.default'` and `'PypeLine.test'` as the docstrings show |
| `Pypes.AttemptGenuine` | pypes/pypes.py:176-185 | the step record of one iteration has the previous segment and the normalised data; `process` was called on that data exactly when the check did not raise |
| `Pypes.SegmentCheck` | pypes/pypes.py:97-160 | defines `check_inputs`: the default never raises, a user segment runs its hook, and a pipeline hands the call to its first segment |
| `Pypes.SegmentProcess` | pypes/pypes.py:115-121 | defines `process`: the default wraps its arguments, a user segment runs its hook, and a pipeline runs itself and passes on its outcome and log |
| `Pypes.AttemptStep` | pypes/pypes.py:172-185 | defines one `try` body: normalise, log the input, check, and only when the check passed log, process and, on success, log again |
| `Pypes.RunFrom` | pypes/pypes.py:170-207 | defines the loop from one index on, with the `except` policy and the completion logs |
| `Pypes.RunLine` | pypes/pypes.py:162-207 | defines `PypeLine.process`: the start log, then the loop from the first segment on the call's arguments |
| `Pypes.RunFromStep` | pypes/pypes.py:170-202 | a tolerated step is followed by the rest of the run; any other step ends the run with its own failure |
| `Pypes.StepsFrom` | pypes/pypes.py:170-202 | from any index on, at most the remaining segments are reached; each step record is genuine; all but the last were tolerated; each is given the normalised data its predecessor left |
| `Pypes.OutcomeFrom` | pypes/pypes.py:170-207 | from any index on, the run completes exactly when every remaining segment was reached and the last was tolerated, returning the data it left; otherwise it raises the last step's failure |
| `Pypes.RunLineCharacterized` | pypes/pypes.py:162-207 | the whole run: segments in order, each given the previous segment and the data left before it, the first given the call's own arguments; completion and abort as above |
| `Pypes.StrictModeAborts` | pypes/pypes.py:187-199 | without `continue_on_errors`, the first failure is raised, no later segment is reached, and the run completes exactly when no step failed; an `Exception` is raised after an ERROR record that names the failed segment and carries the data it was given, the last record of the run; a flat pipeline logs no WARNING, and one ERROR exactly when it raises an `Exception` |
| `Pypes.TolerantModeContinues` | pypes/pypes.py:188-202 | with `continue_on_errors`, only a non-`Exception` can abort; a failed step's successor gets the same input, and `previous` still advances to the failed segment |
| `Pypes.TolerantModeLogs` | pypes/pypes.py:187-192 | with `continue_on_errors`, a flat pipeline logs one WARNING per step that failed with an `Exception`, and never an ERROR |
| `Pypes.TolerantModeWarns` | pypes/pypes.py:187-192 | with `continue_on_errors`, in any pipeline (nested ones included), every step that failed with an `Exception` has the pipeline's WARNING naming that segment in the log |
| `Pypes.TolerantWarnsFrom` | pypes/pypes.py:170-192 | from any index `i` on, with `continue_on_errors`, step `k` that failed with an `Exception` is on segment `i + k` of the line and its WARNING naming that segment is in the run's log |
| `Pypes.TolerantLogsFrom` | pypes/pypes.py:170-202 | from any index on, a flat tolerant pipeline logs as many WARNINGs as steps that failed with an `Exception`, and no ERROR |
| `Pypes.StrictLogsFrom` | pypes/pypes.py:170-202 | from any index on, a flat strict pipeline logs no WARNING, and one ERROR exactly when it raises an `Exception` |
| `Pypes.StrictAbortLogsData` | pypes/pypes.py:193-199 | from any index on, a strict run that raises an `Exception` ends its log with the ERROR record naming the failed segment and carrying the data it was given |
| `Pypes.AttemptLogLevels` | pypes/pypes.py:176-185 | one iteration over a segment that is not a pipeline logs only at DEBUG and INFO, so the `except` clause makes the only WARNING or ERROR and the loop the only SUCCESS |
| `Pypes.SuccessFrom` | pypes/pypes.py:204 | from any index on, a flat pipeline logs at SUCCESS once if it completes and never if it raises |
| `Pypes.SuccessOnlyWhenCompleted` | pypes/pypes.py:165-205 | a flat pipeline's run logs the SUCCESS completion message exactly once when it completes and never when it aborts |
| `Pypes.EmptyLineIsIdentity` | pypes/pypes.py:157-160 | an empty pipeline completes with its own call's arguments and its check does nothing; a non-empty one hands the check to its first segment |
| `Pypes.DefaultProcessPassesThrough` | pypes/pypes.py:115-121 | the default `process` returns exactly the arguments it was given, and the default check never raises |
| `Pypes.DefaultProcessExamples` | pypes/pypes.py:71-74 | `process()` gives `NextInput((), {})` and `process('Hello', world='World!')` gives `NextInput(('Hello',), {'world': 'World!'})` |
| `Pypes.DefaultsFrom` | pypes/pypes.py:170-185 | a chain of default segments carries an envelope through unchanged from any index on |
| `Pypes.DefaultsPassThrough` | pypes/pypes.py:115-121 | a pipeline of default segments returns the arguments of its call |
| `Pypes.PypeLineDoctest` | pypes/pypes.py:129-142 | under the default configuration, two no-op segments in pipeline "test" print the docstring's six console lines and return `NextInput((), {})` |
| `Pypes.ConsoleLines` | pypes/logsetup.py:163-171 | defines the console output: the records at or above both the logger's level and the console handler's level, in order |
| `Pypes.ExampleRun` | pypes-example.py:24-35 | "one" gets the initial string; "two" gets "one"'s string as its only argument; "three" gets only `stuff=` with `previous` "SecondDemoProcess.two"; the result is `'Stuff was worked...'` |
| `Pypes.FirstDemoProcess` | pypes-example.py:6-14 | defines the segment `FirstDemoProcess(name)`: class name `FirstDemoProcess`, the given name, the default `check_inputs`, and `process` as `WorkStuff` |
| `Pypes.SecondDemoProcess` | pypes-example.py:17-21 | defines the segment `SecondDemoProcess(name)`: class name `SecondDemoProcess`, the default `check_inputs` inherited through `FirstDemoProcess`, and `process` as `Preprocess`, with `str(self)` = `'SecondDemoProcess.<name>'` and `some` concatenated with a string |
| `Pypes.ExampleLine` | pypes-example.py:24-31 | defines `combined_process`: the segments "one", "two", "three" in that order, the name `demopipe`, and `continue_on_errors` left at its default (false) |
| `Pypes.PypeLine.constructor` | pypes/pypes.py:147-155 | the initializer's name, segments (none when None), and `continue_on_errors` only when True was passed |
| `Pypes.PypeLine.AsSegment` | pypes/pypes.py:91-95 | the pipeline as a segment has the same segments and flag, and its string is `'PypeLine.<name>'` |
| `Pypes.PypeLine.CheckInputs` | pypes/pypes.py:157-160 | no segments: does nothing; otherwise it is the first segment's check with the same arguments |
| `Pypes.PypeLine.TryStep` | pypes/pypes.py:173-185 | the `try` body records and logs what `AttemptStep` specifies, and leaves the data `process` returned, or the normalised data when the step failed |
| `Pypes.PypeLine.Process` | pypes/pypes.py:162-207 | the loop returns exactly the run `RunLine` defines: outcome, step records and log calls |
| `Logsetup.CheckLevel` | pypes/logsetup.py:77-78 | a name is accepted exactly when the level table holds it, with its number; otherwise `ValueError` for that name |
| `Logsetup.SuccessLevelRegistered` | pypes/logsetup.py:51-52 | SUCCESS resolves to 25, strictly between INFO and WARNING, and the table's names are exactly the ordered list |
| `Logsetup.IsDigit` | pypes/logsetup.py:75 | defines a decimal digit as a character from `'0'` to `'9'` |
| `Logsetup.IsDigits` | pypes/logsetup.py:75 | defines `level.isdigit()`: the string is non-empty and every character is a decimal digit, so `""` and `"-5"` are not numeric |
| `Logsetup.Upper` | pypes/logsetup.py:78 | upper-casing keeps the length and maps each character |
| `Logsetup.ParseDecimalRoundTrip` | pypes/logsetup.py:75-76 | `int()` of the decimal digits of a number gives that number back |
| `Logsetup.ParseDecimal` | pypes/logsetup.py:75-76 | defines `int()` of a digit string, most significant digit first |
| `Logsetup.ParseLevelCases` | pypes/logsetup.py:69-78 | LOGLEVEL unset gives 20; all digits gives that number; otherwise the upper-cased name's level; rejected exactly when that name is unknown, with `ValueError` for it |
| `Logsetup.ParseLevelNumeric` | pypes/logsetup.py:75-76 | `"5"` gives 5 and `"007"` gives 7 |
| `Logsetup.ParseLevelNamed` | pypes/logsetup.py:77-78 | `"debug"` gives DEBUG and `"Success"` gives SUCCESS |
| `Logsetup.ParseLevelRejected` | pypes/logsetup.py:77-78 | `""`, `"-5"` and `"verbose"` raise `ValueError` |
| `Logsetup.ParseLevel` | pypes/logsetup.py:69-78 | defines the overall level: INFO when unset, the number when all digits, otherwise the upper-cased name's level |
| `Logsetup.StdoutLevelRejectsDigits` | pypes/logsetup.py:88-93 | STDOUT_LOGLEVEL unset gives the overall level; a digit string is rejected, because it only goes through the name lookup |
| `Logsetup.StdoutLevel` | pypes/logsetup.py:88-93 | defines the console level: the overall level when unset, otherwise the upper-cased name's level |
| `Logsetup.LogFileVar` | pypes/logsetup.py:84 | defines the variable looked up for a level name: the name upper-cased, followed by `_LOGFILE` |
| `Logsetup.LogFileEntries` | pypes/logsetup.py:80-86 | defines the items of `files`: each listed level name whose `<NAME>_LOGFILE` variable is set, with its value, in list order |
| `Logsetup.LogFileEntriesExact` | pypes/logsetup.py:80-86 | a (level name, path) pair is in `files` exactly when the name is known and `<NAME>_LOGFILE` is set to that path |
| `Logsetup.LogFileEntriesOrdered` | pypes/logsetup.py:80-86 | for distinct level names, the names of `files` are listed names, and an earlier item's name comes strictly earlier in the list: table order, each name once |
| `Logsetup.CollectLogFiles` | pypes/logsetup.py:80-86 | the loop over level names builds exactly the `files` the specification function selects |
| `Logsetup.LogConfigOf` | pypes/logsetup.py:62-97 | defines `get_logconfig`: the overall level first, then the console level, and the file items |
| `Logsetup.LogConfigCases` | pypes/logsetup.py:62-97 | the configuration fails exactly when one of the two levels is rejected, with the overall level's error first and otherwise `ValueError` for the upper-cased STDOUT_LOGLEVEL; when it succeeds it holds the overall level, the console level (the overall one when STDOUT_LOGLEVEL is unset, the named level when set), and exactly the set file variables in table order |
| `Logsetup.LogConfigDefault` | pypes/logsetup.py:69-72 | an empty environment gives INFO overall and on the console, and no files |
| `Logsetup.GetLogConfig` | pypes/logsetup.py:62-97 | the method returns exactly the configuration `LogConfigOf` defines, or its error |
| `Logsetup.FileHandlers` | pypes/logsetup.py:173-179 | one file handler per `files` item, in order, each at the level its name stands for |
| `Logsetup.AttachFileHandlers` | pypes/logsetup.py:173-179 | the loop leaves the logger as it was except that its handlers gain one file handler per `files` item, in order |
| `Logsetup.GetLogger` | pypes/logsetup.py:163 | defines `logging.getLogger(name)` over the loggers logging keeps by name: a name it holds gives that logger unchanged; a name logging has not seen yields `Unconfigured`, that is `Logger(NOTSET, [], false)`: level 0, no handlers, no `success` method. `ResolveFirstTime` depends on this for its exact handler list |
| `Logsetup.Configure` | pypes/logsetup.py:163-181 | defines the configured logger: the overall level, its previous handlers followed by the console handler and the file handlers, and the `success` method |
| `Logsetup.Resolve` | pypes/logsetup.py:151-183 | defines `setup_logger` as a transition of the cache and logging's table: a cached name is answered from the cache; otherwise the configuration is read and logging's logger for the name configured and stored in both |
| `Logsetup.ResolveIdempotent` | pypes/logsetup.py:158-159 | once a name is cached, a second call returns the same logger, whatever the environment now says, and changes neither table |
| `Logsetup.ResolveFirstTime` | pypes/logsetup.py:161-183 | a name the cache does not hold gets logging's logger of that name, at the overall level, keeping the handlers it had, followed by one console handler at the console level and one file handler per `files` item, and the `success` method; both tables then hold it; a name logging does not know gets exactly those new handlers |
| `Logsetup.ResolveConfigError` | pypes/logsetup.py:161 | a bad level setting fails the call and leaves both tables as they were |
| `Logsetup.LoggerRegistry.constructor` | pypes/logsetup.py:149 | the cache starts empty |
| `Logsetup.LoggerRegistry.SetupLogger` | pypes/logsetup.py:151-183 | the new cache, logging's table and the result are exactly what `Resolve` gives for the old tables; every cached logger stays the one logging holds, fully set up; so a successful call's logger is the one logging now holds under that name, with SUCCESS installed, also when it came from the cache |
| `PrePypes.Signature` | pre-pypes.py:56-60 | defines `str(segment)` as the class name, a dot and the name |
| `PrePypes.NewSegment` | pre-pypes.py:26-36 | `PipeSegment(name)` is a default segment whose string is `'PipeSegment.<name or default>'` |
| `PrePypes.NewPipe` | pre-pypes.py:91-97 | `DataPipe(segments, name)` holds the given segments (none when None), and its string is `'DataPipe.<name>'` |
| `PrePypes.SegmentCheck` | pre-pypes.py:62-101 | defines `check_inputs`: the default never raises, a user segment runs its hook, and a pipe hands the call to its first segment |
| `PrePypes.SegmentProcess` | pre-pypes.py:74-82 | defines `process`: the default returns an empty envelope whatever it is given, a user segment runs its hook, and a pipe runs itself |
| `PrePypes.AttemptStep` | pre-pypes.py:113-127 | defines one iteration: normalise, check, and process only when the check did not raise |
| `PrePypes.RunFrom` | pre-pypes.py:111-134 | defines the loop from one index on, where the first exception ends the run |
| `PrePypes.RunPipe` | pre-pypes.py:103-134 | defines `DataPipe.process`: the loop from the first segment on the call's arguments |
| `PrePypes.StepsFrom` | pre-pypes.py:111-130 | from any index on, each step record is genuine; every step but the last succeeded, and each is given the normalised data its predecessor left |
| `PrePypes.OutcomeFrom` | pre-pypes.py:111-134 | from any index on, the pipe returns exactly when every remaining segment was reached and none failed, with the data the last left; otherwise it raises the last step's failure |
| `PrePypes.RunPipeCharacterized` | pre-pypes.py:103-134 | no error boundary: the first failure, in a check or in `process`, is raised and no later segment runs; otherwise the pipe returns what the last segment returned, or its call's arguments when empty |
| `PrePypes.EmptyPipeIsIdentity` | pre-pypes.py:99-101 | an empty pipe returns its own call's arguments and does not check; a non-empty one hands the check to its first segment |
| `PrePypes.DefaultsFrom` | pre-pypes.py:74-82 | in a chain of default segments, every segment after the first receives no arguments, and the run returns the empty envelope |
| `PrePypes.DefaultsReturnEmpty` | pre-pypes.py:74-82 | a non-empty pipe of default segments returns `NextInput((), {})` whatever it is given |
| `PrePypes.SegmentDocstring` | pre-pypes.py:20-23 | the default check does nothing, `process()` gives `NextInput((), {})`, and the string forms carry the name or `'default'` |
| `PrePypes.FirstDemoProcess` | pre-pypes.py:140-148 | defines the segment `FirstDemoProcess(name)`: class name `FirstDemoProcess`, the given name, the default `check_inputs`, and `process` as `WorkStuff` |
| `PrePypes.SecondDemoProcess` | pre-pypes.py:151-155 | defines the segment `SecondDemoProcess(name)`: class name `SecondDemoProcess`, the default `check_inputs`, and `process` as `Preprocess`, with `str(self)` = `'SecondDemoProcess.<name>'` and `some` concatenated with a string |
| `PrePypes.DemoPipe` | pre-pypes.py:158-165 | defines the pipe `p`: the segments "one", "two", "three" in that order and the name `demopipe` |
| `PrePypes.DemoRun` | pre-pypes.py:137-167 | "two" receives "one"'s string as its sole argument; "three" receives only `stuff=`; the result is `'Stuff was worked...'` |
| `PrePypes.DataPipe.constructor` | pre-pypes.py:91-97 | the initializer's name and segments (none when None) |
| `PrePypes.DataPipe.AsSegment` | pre-pypes.py:56-60 | the pipe as a segment has the same segments, and its string is `'DataPipe.<name>'` |
| `PrePypes.DataPipe.CheckInputs` | pre-pypes.py:99-101 | no segments: does nothing; otherwise it is the first segment's check |
| `PrePypes.DataPipe.Process` | pre-pypes.py:103-134 | the loop returns exactly the run `RunPipe` defines: result and step records |
| `EarlyPypes.NewPipe` | pypes.py:39-40 | `DataPipe(segments)` holds the given segments (none when None) |
| `EarlyPypes.SegmentCheck` | pypes.py:16-44 | defines `check_inputs`: the default never raises, a user segment runs its hook, and a pipe hands the call to its first segment |
| `EarlyPypes.SegmentProcess` | pypes.py:27-28 | defines `process`: the default returns None whatever it is given, a user segment runs its hook, and a pipe runs itself |
| `EarlyPypes.AttemptStep` | pypes.py:56-70 | defines one iteration: normalise, check, and process only when the check did not raise |
| `EarlyPypes.RunFrom` | pypes.py:54-75 | defines the loop from one index on, where the first exception ends the run |
| `EarlyPypes.RunPipe` | pypes.py:46-75 | defines `DataPipe.process`: the loop from the first segment on the call's arguments |
| `EarlyPypes.StepsFrom` | pypes.py:54-73 | from any index on, each step record is genuine; every step but the last succeeded, and each is given the normalised data its predecessor left |
| `EarlyPypes.OutcomeFrom` | pypes.py:54-75 | from any index on, the pipe returns exactly when no remaining step failed, with the data the last left; otherwise it raises the last step's failure |
| `EarlyPypes.RunPipeCharacterized` | pypes.py:46-75 | no error handling: a raising check prevents that segment's `process` and stops the chain; otherwise the pipe returns what the last segment returned, or its call's arguments when empty |
| `EarlyPypes.EmptyPipeIsIdentity` | pypes.py:42-44 | an empty pipe returns its own call's arguments and does not check; a non-empty one hands the check to its first segment |
| `EarlyPypes.DefaultPassesNone` | pypes.py:27-28 | the segment after a default one is called with exactly one positional None, and a pipe that ends in a default segment returns None |
| `EarlyPypes.DefaultHooks` | pypes.py:16-28 | the default check never raises and the default `process` returns None whatever it is given |
| `EarlyPypes.FirstDemoProcess` | pypes.py:85-95 | defines the segment `FirstDemoProcess(name)`: its name is its `__repr__`, the default `check_inputs`, and `process` as `WorkStuff` |
| `EarlyPypes.SecondDemoProcess` | pypes.py:98-102 | defines the segment `SecondDemoProcess(name)`: the default `check_inputs`, and `process` as `Preprocess` without concatenation (`self.log(self, some, more)` accepts any value), returning `NextInput([], {'stuff': 'Preprocessed by <name>.'})` |
| `EarlyPypes.DemoPipe` | pypes.py:105 | defines the pipe `p`: the segments "one", "two", "three" in that order |
| `EarlyPypes.DemoRun` | pypes.py:82-107 | "two" returns `NextInput([], {'stuff': 'Preprocessed by two.'})`, so "three" gets no positional argument and that one keyword; the result is `'Stuff was worked...'` |
| `EarlyPypes.DataPipe.constructor` | pypes.py:39-40 | the given segments, none when None |
| `EarlyPypes.DataPipe.AsSegment` | pypes.py:35-40 | the pipe as a segment has the same segments and Python's default object string |
| `EarlyPypes.DataPipe.CheckInputs` | pypes.py:42-44 | no segments: does nothing; otherwise it is the first segment's check |
| `EarlyPypes.DataPipe.Process` | pypes.py:46-75 | the loop returns exactly the run `RunPipe` defines: result and step records |

## Left out

- Logging I/O is not modelled: stream and file handlers, formatters, colours and `isatty` (pypes/logsetup.py:99-147). Handlers are records of kind, level and target. A log call is an event in the run. The only console output computed is `ConsoleLines`: a record passes when its level is at least both the logger's and the handler's.
- `os.environ` becomes a map parameter. The Python 2 branch for the level table is not modelled; the table is fixed to Python 3's `_nameToLevel` with SUCCESS added.
- The dead `isinstance(level, (int, float))` branch is not modelled: environment values are always strings.
- `Logsetup.Upper`: models only ASCII upper-casing, and `isdigit` accepts only ASCII digits. Python's Unicode case mapping and Unicode digits (`'²'.isdigit()` holds, but `int('²')` raises) are not modelled.
- Python's argument binding is not modelled. This includes the `TypeError` when an envelope's keywords contain `previous` (it would collide with `check_inputs`' own parameter). User hooks are functions over the whole envelope. The demo bodies' binding is written out in `Binding`.
- Tuples and lists are not told apart: `NextInput(args, ...)` holds a sequence either way.
- A check hook is given the previous segment by its string form, not as the object. Dafny does not allow a segment datatype in the domain of its own function-typed fields.
- `continue_on_errors` is read when a failure happens, but hooks are pure functions: the model cannot show a segment changing the flag in the middle of a run.
- User segments' own log calls are not modelled (`self.log.warn` in the demos, `self.log` in `pre-pypes.py`). Only a nested pipeline's log calls are kept. `Pypes.SuccessOnlyWhenCompleted` is therefore stated for flat pipelines.
- `Pypes.TolerantModeLogs`: the exact WARNING and ERROR counts are stated for flat pipelines only, because a nested pipeline's own WARNING and ERROR records land in the outer log too and would be counted. For any pipeline, `Pypes.TolerantModeWarns` states that each caught failure has its WARNING in the log, and `Pypes.StrictModeAborts` that a strict abort ends the log with its ERROR.
- The log calls of the two older revisions are not modelled: `self.log(...)` in `pre-pypes.py`, and `print` in `pypes.py`. Their runs record results and steps only.
- Building a `PypeSegment` or a `PypeLine` can raise in the source and cannot in the model: `PypeSegment.__init__` calls `setup_logger(str(self))` (pypes/pypes.py:89), which raises `ValueError` through `get_logconfig` on a bad LOGLEVEL or STDOUT_LOGLEVEL (pypes/logsetup.py:78, 89). `Pypes.NewSegment`, `Pypes.NewLine` and `Pypes.PypeLine.constructor` always succeed; `Logsetup.ResolveConfigError` states the failing call on its own.
- `PypeSegment.__init__` calls `setup_logger(str(self))`, but the model does not store the logger handle in the segment; `setup_logger` is modelled on its own in `Logsetup.LoggerRegistry`. The same goes for the per-segment logger set-up of `pre-pypes.py` (pre-pypes.py:38-54).
- Logger propagation to parent loggers and the effective-level lookup are not modelled.
- Python's default `str()` of an object includes its address. `EarlyPypes.DATAPIPE_REPR` stands for it without the address, and `EarlyPypes` segments carry their `str()` as a plain string.
- The doctest and `__main__` runners and `setup.py` are not modelled.
