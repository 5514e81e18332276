/** The current engine: segments with a validation hook and a processing hook, and the pipeline
    that drives them in order under the `continue_on_errors` policy, logging as it goes.
    User segments are hook functions; a pipeline is itself a segment, so pipelines nest. A run
    yields its outcome together with what it did to each segment and the log records it made. */
module Pypes {
  import opened Values
  import opened Binding
  import Logsetup

  /** A segment: `PypeSegment` with its own hooks (`Base`), a subclass with user hooks
      (`Custom`), or a `PypeLine` (`Line`). `cls` is the class name. */
  datatype Segment =
    | Base(cls: string, name: string)
    | Custom(cls: string, name: string, check: CheckHook, proc: ProcessHook)
    | Line(cls: string, name: string, segments: seq<Segment>, continueOnErrors: bool)

  /** `str(segment)`. */
  function Signature(seg: Segment): string
  {
    seg.cls + "." + seg.name
  }

  /** Splits a string at its first dot. */
  function SplitAtDot(s: string): (string, string)
  {
    if s == [] then ([], [])
    else if s[0] == '.' then ([], s[1..])
    else
      var (before, after) := SplitAtDot(s[1..]);
      ([s[0]] + before, after)
  }

  /** A class name has no dot, so the string form of a segment gives back its class and name. */
  lemma {:induction false} StrRoundTrip(seg: Segment)
    requires '.' !in seg.cls
    ensures SplitAtDot(Signature(seg)) == (seg.cls, seg.name)
  {
    SplitAfterClass(seg.cls, seg.name);
  }

  lemma {:induction false} SplitAfterClass(cls: string, name: string)
    requires '.' !in cls
    ensures SplitAtDot(cls + "." + name) == (cls, name)
  {
    if cls == [] {
      assert cls + "." + name == ['.'] + name;
      assert (['.'] + name)[1..] == name;
    } else {
      var s := cls + "." + name;
      assert s[0] == cls[0] && s[0] != '.';
      assert s[1..] == cls[1..] + "." + name;
      SplitAfterClass(cls[1..], name);
      assert [cls[0]] + cls[1..] == cls;
    }
  }

  /** `PypeSegment(name)`. */
  function NewSegment(name: Option<string>): (s: Segment)
    ensures s.Base? && s.cls == "PypeSegment" && s.name == InitName(name)
  {
    Base("PypeSegment", InitName(name))
  }

  /** `PypeLine(segments, name, continue_on_errors)`: the flag is only ever set by a non-None
      argument, so it holds exactly when True was passed. */
  function NewLine(segments: Option<seq<Segment>>, name: Option<string>, continueOnErrors: Option<bool>): (s: Segment)
    ensures s.Line? && s.cls == "PypeLine" && s.name == InitName(name)
    ensures s.segments == if segments.Some? then segments.value else []
    ensures s.continueOnErrors <==> continueOnErrors == Some(true)
  {
    Line("PypeLine", InitName(name), if segments.Some? then segments.value else [],
         if continueOnErrors.Some? then continueOnErrors.value else false)
  }

  /** The string forms from the class docstrings. */
  lemma StrExamples()
    ensures Signature(NewSegment(Some("log-signature"))) == "PypeSegment.log-signature"
    ensures Signature(NewSegment(None)) == "PypeSegment.default"
    ensures Signature(NewLine(None, Some("test"), None)) == "PypeLine.test"
  {
  }

  /** A log call, with the logger (the pipeline's string form) it went to and the value it
      formats, if any. */
  datatype LogEvent = LogEvent(logger: string, level: int, text: string, data: Option<Value>)

  /** How a run ends: with the final data, or by raising. */
  datatype Outcome = Completed(data: Value) | Aborted(error: Raised)

  /** A pipeline run: its outcome, one record per segment reached, and the log calls made. */
  datatype Run = Run(outcome: Outcome, steps: seq<StepRecord>, log: seq<LogEvent>)

  /** What calling a segment's `process` gives: its result and the log calls made inside it. */
  datatype Step = Step(result: Result<Value, Raised>, log: seq<LogEvent>)

  /** One loop iteration before the policy is applied: its record and log calls. */
  datatype Attempt = Attempt(record: StepRecord, log: seq<LogEvent>)

  function Emit(steps: seq<StepRecord>, log: seq<LogEvent>, rest: Run): Run
  {
    Run(rest.outcome, steps + rest.steps, log + rest.log)
  }

  lemma EmitEmit(s0: seq<StepRecord>, l0: seq<LogEvent>, s1: seq<StepRecord>, l1: seq<LogEvent>, r: Run)
    ensures Emit(s0, l0, Emit(s1, l1, r)) == Emit(s0 + s1, l0 + l1, r)
  {
    assert s0 + (s1 + r.steps) == (s0 + s1) + r.steps;
    assert l0 + (l1 + r.log) == (l0 + l1) + r.log;
  }

  /** The result a caller of a pipeline's `process` sees. */
  function OutcomeResult(o: Outcome): Result<Value, Raised>
  {
    match o
    case Completed(data) => Ok(data)
    case Aborted(e) => Err(e)
  }

  /** `segment.check_inputs(previous, *args, **kwd)`; a pipeline passes the call to its first
      segment. */
  function SegmentCheck(seg: Segment, previous: Option<string>, input: NextInput): Option<Raised>
    decreases seg
  {
    match seg
    case Base(_, _) => None
    case Custom(_, _, check, _) => check(previous, input)
    case Line(_, _, segments, _) =>
      if |segments| > 0 then SegmentCheck(segments[0], previous, input) else None
  }

  /** The string form of the segment processed before segment `i`. */
  function PreviousOf(line: Segment, i: nat): Option<string>
    requires line.Line? && i <= |line.segments|
  {
    if i == 0 then None else Some(Signature(line.segments[i - 1]))
  }

  /** `segment.process(*args, **kwd)`. */
  function SegmentProcess(seg: Segment, input: NextInput): Step
    decreases seg, 1, 0, 0
  {
    match seg
    case Base(_, _) => Step(Ok(Next(Wrap(input.args, input.kwd))), [])
    case Custom(_, _, _, proc) => Step(proc(input), [])
    case Line(_, _, _, _) =>
      var run := RunLine(seg, input);
      Step(OutcomeResult(run.outcome), run.log)
  }

  /** `PypeLine.process(*args, **kwd)`. */
  function RunLine(line: Segment, input: NextInput): Run
    requires line.Line?
    decreases line, 0, |line.segments| + 1, 0
  {
    Emit([], [LogEvent(Signature(line), Logsetup.INFO, "starting up", None)], RunFrom(line, 0, Next(input)))
  }

  /** The body of the `try` for segment `i`: normalise the data, check, and process only if the
      check passed. */
  function AttemptStep(line: Segment, i: nat, data: Value): Attempt
    requires line.Line? && i < |line.segments|
    decreases line, 0, |line.segments| - i, 0
  {
    var who := Signature(line);
    var seg := line.segments[i];
    var input := Normalize(data);
    var asked := LogEvent(who, Logsetup.DEBUG, "next input: ", Some(Next(input)));
    match SegmentCheck(seg, PreviousOf(line, i), input)
    case Some(e) => Attempt(StepRecord(PreviousOf(line, i), input, Some(e), None), [asked])
    case None =>
      var accepted := LogEvent(who, Logsetup.INFO, Signature(seg) + " says input is ok", None);
      var step := SegmentProcess(seg, input);
      var record := StepRecord(PreviousOf(line, i), input, None, Some(step.result));
      if step.result.Ok? then
        Attempt(record, [asked, accepted] + step.log + [LogEvent(who, Logsetup.INFO, Signature(seg) + " is done", None)])
      else
        Attempt(record, [asked, accepted] + step.log)
  }

  /** The loop from segment `i` on, holding `data`, followed by the completion logs. */
  function RunFrom(line: Segment, i: nat, data: Value): Run
    requires line.Line? && i <= |line.segments|
    decreases line, 0, |line.segments| - i, 1
  {
    var who := Signature(line);
    if i == |line.segments| then
      Run(Completed(data), [], [LogEvent(who, Logsetup.SUCCESS, "output was produced.", None),
                                LogEvent(who, Logsetup.DEBUG, "output was ", Some(data))])
    else
      var a := AttemptStep(line, i, data);
      var seg := line.segments[i];
      match Failure(a.record)
      case None => Emit([a.record], a.log, RunFrom(line, i + 1, DataAfter(a.record)))
      case Some(e) =>
        if !e.catchable then Run(Aborted(e), [a.record], a.log)
        else if line.continueOnErrors then
          Emit([a.record], a.log + [LogEvent(who, Logsetup.WARNING, Signature(seg) + " failed, but processing will continue.", None)],
               RunFrom(line, i + 1, DataAfter(a.record)))
        else
          Run(Aborted(e), [a.record],
              a.log + [LogEvent(who, Logsetup.ERROR, Signature(seg) + " could not process ", Some(Next(a.record.input)))])
  }

  /** The record segment `i` must have, given its input: the previous segment is the one before
      it in the list, and `process` was called, on the same input, exactly when the check passed. */
  ghost predicate Genuine(line: Segment, i: nat, r: StepRecord)
    requires line.Line? && i < |line.segments|
  {
    && r.previous == PreviousOf(line, i)
    && r.checked == SegmentCheck(line.segments[i], r.previous, r.input)
    && r.processed == (if r.checked.None? then Some(SegmentProcess(line.segments[i], r.input).result) else None)
  }

  /** A step the run may go on after: it did not fail, or it failed with an `Exception` while
      `continue_on_errors` is set. */
  ghost predicate Tolerated(line: Segment, r: StepRecord)
    requires line.Line?
  {
    Failure(r).None? || (line.continueOnErrors && Failure(r).value.catchable)
  }

  function Last<T>(s: seq<T>): T
    requires |s| > 0
  {
    s[|s| - 1]
  }

  lemma AttemptGenuine(line: Segment, i: nat, data: Value)
    requires line.Line? && i < |line.segments|
    ensures Genuine(line, i, AttemptStep(line, i, data).record)
    ensures AttemptStep(line, i, data).record.input == Normalize(data)
  {
  }

  /** The event the `except` clause logs for a failed step, if it is an `Exception`. */
  function PolicyEvent(line: Segment, i: nat, input: NextInput): LogEvent
    requires line.Line? && i < |line.segments|
  {
    if line.continueOnErrors
    then LogEvent(Signature(line), Logsetup.WARNING, Signature(line.segments[i]) + " failed, but processing will continue.", None)
    else LogEvent(Signature(line), Logsetup.ERROR, Signature(line.segments[i]) + " could not process ", Some(Next(input)))
  }

  /** One iteration of the loop, with the policy applied. */
  lemma RunFromUnfold(line: Segment, i: nat, data: Value)
    requires line.Line? && i < |line.segments|
    ensures var a := AttemptStep(line, i, data);
      var r := RunFrom(line, i, data);
      var rest := RunFrom(line, i + 1, DataAfter(a.record));
      match Failure(a.record)
      case None => r == Emit([a.record], a.log, rest)
      case Some(e) =>
        if !e.catchable then r == Run(Aborted(e), [a.record], a.log)
        else if line.continueOnErrors then r == Emit([a.record], a.log + [PolicyEvent(line, i, a.record.input)], rest)
        else r == Run(Aborted(e), [a.record], a.log + [PolicyEvent(line, i, a.record.input)])
  {
  }

  /** One iteration of the loop as the `process` loop goes through it: with the steps and log
      calls so far in front, the run from segment `i` is what the loop has after the attempt,
      with the policy's event, and either goes on from segment `i + 1` or stops there. */
  lemma LoopStep(line: Segment, i: nat, data: Value, steps: seq<StepRecord>, log: seq<LogEvent>)
    requires line.Line? && i < |line.segments|
    ensures var a := AttemptStep(line, i, data);
      var f := Failure(a.record);
      var rest := RunFrom(line, i + 1, DataAfter(a.record));
      var ranSteps, ranLog := steps + [a.record], log + a.log;
      Emit(steps, log, RunFrom(line, i, data)) ==
        if f.None? then Emit(ranSteps, ranLog, rest)
        else if !f.value.catchable then Run(Aborted(f.value), ranSteps, ranLog)
        else if line.continueOnErrors then Emit(ranSteps, ranLog + [PolicyEvent(line, i, a.record.input)], rest)
        else Run(Aborted(f.value), ranSteps, ranLog + [PolicyEvent(line, i, a.record.input)])
  {
    var a := AttemptStep(line, i, data);
    var rest := RunFrom(line, i + 1, DataAfter(a.record));
    var extra := [PolicyEvent(line, i, a.record.input)];
    RunFromUnfold(line, i, data);
    EmitEmit(steps, log, [a.record], a.log, rest);
    EmitEmit(steps, log, [a.record], a.log + extra, rest);
    assert log + (a.log + extra) == (log + a.log) + extra;
  }

  /** One iteration of the loop: a tolerated step is followed by the run from the next segment
      on the data it left; any other step ends the run with its failure. */
  lemma RunFromStep(line: Segment, i: nat, data: Value)
    requires line.Line? && i < |line.segments|
    ensures var a := AttemptStep(line, i, data);
      var r := RunFrom(line, i, data);
      var rest := RunFrom(line, i + 1, DataAfter(a.record));
      if Tolerated(line, a.record) then
        r.steps == [a.record] + rest.steps && r.outcome == rest.outcome
      else
        r.steps == [a.record] && Failure(a.record).Some? && r.outcome == Aborted(Failure(a.record).value)
  {
    RunFromUnfold(line, i, data);
  }

  /** The steps from segment `i` on: each one genuine, the first given the normalised `data`,
      every step but the last tolerated, and each next one given the data the previous one left. */
  lemma {:induction false} StepsFrom(line: Segment, i: nat, data: Value)
    requires line.Line? && i <= |line.segments|
    ensures var r := RunFrom(line, i, data);
      && |r.steps| <= |line.segments| - i
      && (i < |line.segments| ==> |r.steps| > 0 && r.steps[0].input == Normalize(data))
      && (forall k :: 0 <= k < |r.steps| ==> Genuine(line, i + k, r.steps[k]))
      && (forall k :: 0 <= k < |r.steps| - 1 ==>
            Tolerated(line, r.steps[k]) && r.steps[k + 1].input == Normalize(DataAfter(r.steps[k])))
    decreases |line.segments| - i
  {
    if i < |line.segments| {
      var a := AttemptStep(line, i, data);
      AttemptGenuine(line, i, data);
      RunFromStep(line, i, data);
      var r := RunFrom(line, i, data);
      if Tolerated(line, a.record) {
        var rest := RunFrom(line, i + 1, DataAfter(a.record));
        StepsFrom(line, i + 1, DataAfter(a.record));
        StepsCons(line, i, a.record, rest.steps);
      }
    }
  }

  /** Prepending a genuine, tolerated step to a chain of genuine steps that starts with the
      data it left gives a chain again. */
  lemma StepsCons(line: Segment, i: nat, first: StepRecord, steps: seq<StepRecord>)
    requires line.Line? && i < |line.segments|
    requires Genuine(line, i, first) && Tolerated(line, first) && |steps| <= |line.segments| - i - 1
    requires |steps| > 0 ==> steps[0].input == Normalize(DataAfter(first))
    requires forall k :: 0 <= k < |steps| ==> Genuine(line, i + 1 + k, steps[k])
    requires forall k :: 0 <= k < |steps| - 1 ==>
      Tolerated(line, steps[k]) && steps[k + 1].input == Normalize(DataAfter(steps[k]))
    ensures var all := [first] + steps;
      && (forall k :: 0 <= k < |all| ==> Genuine(line, i + k, all[k]))
      && (forall k :: 0 <= k < |all| - 1 ==>
            Tolerated(line, all[k]) && all[k + 1].input == Normalize(DataAfter(all[k])))
  {
    var all := [first] + steps;
    forall k | 0 <= k < |all| ensures Genuine(line, i + k, all[k]) {
      if k > 0 {
        assert all[k] == steps[k - 1] && i + k == i + 1 + (k - 1);
      }
    }
    forall k | 0 <= k < |all| - 1
      ensures Tolerated(line, all[k]) && all[k + 1].input == Normalize(DataAfter(all[k]))
    {
      if k > 0 {
        assert all[k] == steps[k - 1] && all[k + 1] == steps[k];
      }
    }
  }

  /** How a run from segment `i` ends: it completes exactly when every remaining segment was
      reached and the last one was tolerated, with the data that step left; otherwise it raises
      the last step's failure, which was not tolerated. */
  lemma {:induction false} OutcomeFrom(line: Segment, i: nat, data: Value)
    requires line.Line? && i <= |line.segments|
    ensures var r := RunFrom(line, i, data);
      && (r.outcome.Completed? <==>
            |r.steps| == |line.segments| - i && (|r.steps| == 0 || Tolerated(line, Last(r.steps))))
      && (r.outcome.Completed? ==>
            r.outcome.data == if |r.steps| == 0 then data else DataAfter(Last(r.steps)))
      && (r.outcome.Aborted? ==>
            |r.steps| > 0 && Failure(Last(r.steps)) == Some(r.outcome.error) && !Tolerated(line, Last(r.steps)))
    decreases |line.segments| - i
  {
    if i < |line.segments| {
      var a := AttemptStep(line, i, data);
      var r := RunFrom(line, i, data);
      RunFromStep(line, i, data);
      if Tolerated(line, a.record) {
        var rest := RunFrom(line, i + 1, DataAfter(a.record));
        OutcomeFrom(line, i + 1, DataAfter(a.record));
        StepsFrom(line, i + 1, DataAfter(a.record));
        if |rest.steps| > 0 {
          assert Last(r.steps) == Last(rest.steps);
        }
      }
    }
  }

  /** The whole pipeline: segments are visited in order, each given the previous segment and
      the data the previous step left (the call's own arguments for the first); the steps before
      the last were all tolerated; the run completes exactly when every segment was reached and
      the last tolerated, returning the data the last step left (its own arguments when there are
      no segments), and otherwise raises the last step's failure. */
  lemma RunLineCharacterized(line: Segment, input: NextInput)
    requires line.Line?
    ensures var r := RunLine(line, input);
      && |r.steps| <= |line.segments|
      && (|line.segments| > 0 ==> |r.steps| > 0 && r.steps[0].input == input)
      && (forall k :: 0 <= k < |r.steps| ==> Genuine(line, k, r.steps[k]))
      && (forall k :: 0 <= k < |r.steps| - 1 ==>
            Tolerated(line, r.steps[k]) && r.steps[k + 1].input == Normalize(DataAfter(r.steps[k])))
      && (r.outcome.Completed? <==>
            |r.steps| == |line.segments| && (|r.steps| == 0 || Tolerated(line, Last(r.steps))))
      && (r.outcome.Completed? ==>
            r.outcome.data == if |r.steps| == 0 then Next(input) else DataAfter(Last(r.steps)))
      && (r.outcome.Aborted? ==>
            |r.steps| > 0 && Failure(Last(r.steps)) == Some(r.outcome.error) && !Tolerated(line, Last(r.steps)))
  {
    RunLineSteps(line, input);
    RunLineOutcome(line, input);
  }

  /** The step half of `RunLineCharacterized`. */
  lemma RunLineSteps(line: Segment, input: NextInput)
    requires line.Line?
    ensures var r := RunLine(line, input);
      && |r.steps| <= |line.segments|
      && (|line.segments| > 0 ==> |r.steps| > 0 && r.steps[0].input == input)
      && (forall k :: 0 <= k < |r.steps| ==> Genuine(line, k, r.steps[k]))
      && (forall k :: 0 <= k < |r.steps| - 1 ==>
            Tolerated(line, r.steps[k]) && r.steps[k + 1].input == Normalize(DataAfter(r.steps[k])))
  {
    var r, rest := RunLine(line, input), RunFrom(line, 0, Next(input));
    assert r.steps == rest.steps by { assert [] + rest.steps == rest.steps; }
    StepsFrom(line, 0, Next(input));
    forall k | 0 <= k < |r.steps| ensures Genuine(line, k, r.steps[k]) {
      assert Genuine(line, 0 + k, rest.steps[k]);
    }
  }

  /** The outcome half of `RunLineCharacterized`. */
  lemma RunLineOutcome(line: Segment, input: NextInput)
    requires line.Line?
    ensures var r := RunLine(line, input);
      && (r.outcome.Completed? <==>
            |r.steps| == |line.segments| && (|r.steps| == 0 || Tolerated(line, Last(r.steps))))
      && (r.outcome.Completed? ==>
            r.outcome.data == if |r.steps| == 0 then Next(input) else DataAfter(Last(r.steps)))
      && (r.outcome.Aborted? ==>
            |r.steps| > 0 && Failure(Last(r.steps)) == Some(r.outcome.error) && !Tolerated(line, Last(r.steps)))
  {
    var r, rest := RunLine(line, input), RunFrom(line, 0, Next(input));
    assert r.steps == rest.steps && r.outcome == rest.outcome by { assert [] + rest.steps == rest.steps; }
    OutcomeFrom(line, 0, Next(input));
  }

  /** With `continue_on_errors` unset, the first failure ends the run: it is raised, no segment
      after it is reached, and every step before it passed its check and its processing. */
  lemma StrictModeAborts(line: Segment, input: NextInput)
    requires line.Line? && !line.continueOnErrors
    ensures var r := RunLine(line, input);
      && (forall k :: 0 <= k < |r.steps| - 1 ==> Failure(r.steps[k]).None?)
      && (r.outcome.Completed? <==>
            |r.steps| == |line.segments| && forall k :: 0 <= k < |r.steps| ==> Failure(r.steps[k]).None?)
      && (r.outcome.Aborted? ==> |r.steps| > 0 && Failure(Last(r.steps)) == Some(r.outcome.error))
      && (r.outcome.Aborted? && r.outcome.error.catchable ==>
            && |r.steps| <= |line.segments|
            && Last(r.log) == LogEvent(Signature(line), Logsetup.ERROR,
                                       Signature(line.segments[|r.steps| - 1]) + " could not process ",
                                       Some(Next(Last(r.steps).input))))
      && (Flat(line) ==>
            && LevelCount(r.log, Logsetup.WARNING) == 0
            && LevelCount(r.log, Logsetup.ERROR) == if r.outcome.Aborted? && r.outcome.error.catchable then 1 else 0)
  {
    RunLineCharacterized(line, input);
    var start := [LogEvent(Signature(line), Logsetup.INFO, "starting up", None)];
    var rest := RunFrom(line, 0, Next(input));
    StrictAbortLogsData(line, 0, Next(input));
    if rest.outcome.Aborted? && rest.outcome.error.catchable {
      assert Last(start + rest.log) == Last(rest.log);
      assert PolicyEvent(line, 0 + |rest.steps| - 1, Last(rest.steps).input)
        == PolicyEvent(line, |rest.steps| - 1, Last(rest.steps).input);
    }
    if Flat(line) {
      StrictLogsFrom(line, 0, Next(input));
      LevelCountAppend(start, rest.log, Logsetup.WARNING);
      LevelCountAppend(start, rest.log, Logsetup.ERROR);
    }
  }

  /** With `continue_on_errors` set, only an exception outside `Exception` can end the run; a
      failed step hands its own input and the previous segment on unchanged. */
  lemma TolerantModeContinues(line: Segment, input: NextInput)
    requires line.Line? && line.continueOnErrors
    ensures |RunLine(line, input).steps| <= |line.segments|
    ensures var r := RunLine(line, input);
      && (r.outcome.Aborted? ==> !r.outcome.error.catchable)
      && (r.outcome.Completed? <==>
            |r.steps| == |line.segments| &&
            forall k :: 0 <= k < |r.steps| ==> Failure(r.steps[k]).None? || Failure(r.steps[k]).value.catchable)
      && (forall k :: 0 <= k < |r.steps| - 1 && Failure(r.steps[k]).Some? ==>
            r.steps[k + 1].input == r.steps[k].input &&
            r.steps[k + 1].previous == Some(Signature(line.segments[k])))
  {
    RunLineCharacterized(line, input);
    var r := RunLine(line, input);
    if r.outcome.Completed? {
      forall k | 0 <= k < |r.steps| ensures Tolerated(line, r.steps[k]) {
        if k == |r.steps| - 1 {
          assert r.steps[k] == Last(r.steps);
        }
      }
    } else {
      assert !Tolerated(line, Last(r.steps));
      assert r.steps[|r.steps| - 1] == Last(r.steps);
    }
    forall k | 0 <= k < |r.steps| - 1 && Failure(r.steps[k]).Some?
      ensures r.steps[k + 1].input == r.steps[k].input
      ensures r.steps[k + 1].previous == Some(Signature(line.segments[k]))
    {
      assert Genuine(line, k + 1, r.steps[k + 1]);
      assert DataAfter(r.steps[k]) == Next(r.steps[k].input);
    }
  }

  /** A pipeline with no nested pipelines, whose segments do not log themselves. */
  ghost predicate Flat(line: Segment)
    requires line.Line?
  {
    forall k :: 0 <= k < |line.segments| ==> !line.segments[k].Line?
  }

  /** How many records of `log` are at `level`. */
  function LevelCount(log: seq<LogEvent>, level: int): nat
  {
    if log == [] then 0
    else (if log[0].level == level then 1 else 0) + LevelCount(log[1..], level)
  }

  lemma {:induction false} LevelCountAppend(a: seq<LogEvent>, b: seq<LogEvent>, level: int)
    ensures LevelCount(a + b, level) == LevelCount(a, level) + LevelCount(b, level)
  {
    if a != [] {
      assert (a + b)[1..] == a[1..] + b;
      LevelCountAppend(a[1..], b, level);
    } else {
      assert a + b == b;
    }
  }

  lemma {:induction false} LevelCountAbsent(log: seq<LogEvent>, level: int)
    requires forall k :: 0 <= k < |log| ==> log[k].level != level
    ensures LevelCount(log, level) == 0
  {
    if log != [] {
      LevelCountAbsent(log[1..], level);
    }
  }

  /** A step record that ends with an `Exception`, the kind the `except` clause catches. */
  predicate Caught(r: StepRecord)
  {
    Failure(r).Some? && Failure(r).value.catchable
  }

  /** How many step records end with an `Exception`. */
  function CaughtCount(steps: seq<StepRecord>): nat
  {
    if steps == [] then 0
    else (if Caught(steps[0]) then 1 else 0) + CaughtCount(steps[1..])
  }

  /** A segment that is not a pipeline logs nothing itself, so one iteration over it logs only
      at DEBUG and INFO level: what the policy adds is the only WARNING, ERROR or SUCCESS. */
  lemma AttemptLogLevels(line: Segment, i: nat, data: Value)
    requires line.Line? && i < |line.segments| && !line.segments[i].Line?
    ensures forall k :: 0 <= k < |AttemptStep(line, i, data).log| ==>
      AttemptStep(line, i, data).log[k].level in {Logsetup.DEBUG, Logsetup.INFO}
  {
    assert SegmentProcess(line.segments[i], Normalize(data)).log == [];
  }

  /** In a flat pipeline, the run from segment `i` logs SUCCESS once if it completes and
      never otherwise. */
  lemma {:induction false} SuccessFrom(line: Segment, i: nat, data: Value)
    requires line.Line? && i <= |line.segments| && Flat(line)
    ensures LevelCount(RunFrom(line, i, data).log, Logsetup.SUCCESS) == if RunFrom(line, i, data).outcome.Completed? then 1 else 0
    decreases |line.segments| - i
  {
    if i == |line.segments| {
      var r := RunFrom(line, i, data);
      assert r.log == [r.log[0]] + [r.log[1]];
      LevelCountAppend([r.log[0]], [r.log[1]], Logsetup.SUCCESS);
    } else {
      var a := AttemptStep(line, i, data);
      if Tolerated(line, a.record) {
        SuccessFrom(line, i + 1, DataAfter(a.record));
      }
      SuccessStep(line, i, data);
    }
  }

  /** One iteration of a flat pipeline: a step the run goes on after adds no SUCCESS record to
      what the run from the next segment logs, and any other step ends the run without one. */
  lemma SuccessStep(line: Segment, i: nat, data: Value)
    requires line.Line? && i < |line.segments| && Flat(line)
    requires var a := AttemptStep(line, i, data);
      var rest := RunFrom(line, i + 1, DataAfter(a.record));
      Tolerated(line, a.record) ==>
        LevelCount(rest.log, Logsetup.SUCCESS) == if rest.outcome.Completed? then 1 else 0
    ensures LevelCount(RunFrom(line, i, data).log, Logsetup.SUCCESS) == if RunFrom(line, i, data).outcome.Completed? then 1 else 0
  {
    var r := RunFrom(line, i, data);
    var L := Logsetup.SUCCESS;
    var a := AttemptStep(line, i, data);
    var rest := RunFrom(line, i + 1, DataAfter(a.record));
    var extra := [PolicyEvent(line, i, a.record.input)];
    AttemptLogLevels(line, i, data);
    LevelCountAbsent(a.log, L);
    RunFromUnfold(line, i, data);
    var f := Failure(a.record);
    if f.None? {
      assert r.log == a.log + rest.log && r.outcome == rest.outcome;
      LevelCountAppend(a.log, rest.log, L);
    } else if !f.value.catchable {
      assert r.log == a.log && r.outcome.Aborted?;
    } else if line.continueOnErrors {
      assert r.log == (a.log + extra) + rest.log && r.outcome == rest.outcome;
      LevelCountAppend(a.log + extra, rest.log, L);
      LevelCountAppend(a.log, extra, L);
    } else {
      assert r.log == a.log + extra && r.outcome.Aborted?;
      LevelCountAppend(a.log, extra, L);
    }
  }

  /** The completion message at SUCCESS level is logged once by a flat pipeline that
      completes, and never by one that raises. */
  lemma SuccessOnlyWhenCompleted(line: Segment, input: NextInput)
    requires line.Line? && Flat(line)
    ensures LevelCount(RunLine(line, input).log, Logsetup.SUCCESS) == if RunLine(line, input).outcome.Completed? then 1 else 0
  {
    SuccessFrom(line, 0, Next(input));
    var rest := RunFrom(line, 0, Next(input));
    LevelCountAppend([LogEvent(Signature(line), Logsetup.INFO, "starting up", None)], rest.log, Logsetup.SUCCESS);
  }

  /** The `except` clause's log calls in a flat pipeline with `continue_on_errors` set, from
      segment `i` on: one WARNING per step that failed with an `Exception`, and no ERROR. */
  lemma {:induction false} TolerantLogsFrom(line: Segment, i: nat, data: Value)
    requires line.Line? && i <= |line.segments| && Flat(line) && line.continueOnErrors
    ensures LevelCount(RunFrom(line, i, data).log, Logsetup.WARNING) == CaughtCount(RunFrom(line, i, data).steps)
    ensures LevelCount(RunFrom(line, i, data).log, Logsetup.ERROR) == 0
    decreases |line.segments| - i
  {
    if i == |line.segments| {
      RunEndLogs(line, data);
    } else {
      var next := DataAfter(AttemptStep(line, i, data).record);
      TolerantLogsFrom(line, i + 1, next);
      TolerantStepLogs(line, i, data);
    }
  }

  /** After the last segment the loop has no steps left and logs neither WARNING nor ERROR. */
  lemma RunEndLogs(line: Segment, data: Value)
    requires line.Line?
    ensures RunFrom(line, |line.segments|, data).steps == []
    ensures LevelCount(RunFrom(line, |line.segments|, data).log, Logsetup.WARNING) == 0
    ensures LevelCount(RunFrom(line, |line.segments|, data).log, Logsetup.ERROR) == 0
  {
    var r := RunFrom(line, |line.segments|, data);
    LevelCountAbsent(r.log, Logsetup.WARNING);
    LevelCountAbsent(r.log, Logsetup.ERROR);
  }

  /** One iteration of a flat, tolerant pipeline: if the run from the next segment logs one
      WARNING per caught failure and no ERROR, so does the run from this one. */
  lemma TolerantStepLogs(line: Segment, i: nat, data: Value)
    requires line.Line? && i < |line.segments| && Flat(line) && line.continueOnErrors
    requires var rest := RunFrom(line, i + 1, DataAfter(AttemptStep(line, i, data).record));
      LevelCount(rest.log, Logsetup.WARNING) == CaughtCount(rest.steps) && LevelCount(rest.log, Logsetup.ERROR) == 0
    ensures LevelCount(RunFrom(line, i, data).log, Logsetup.WARNING) == CaughtCount(RunFrom(line, i, data).steps)
    ensures LevelCount(RunFrom(line, i, data).log, Logsetup.ERROR) == 0
  {
    var r := RunFrom(line, i, data);
    var W, E := Logsetup.WARNING, Logsetup.ERROR;
    var a := AttemptStep(line, i, data);
    var rest := RunFrom(line, i + 1, DataAfter(a.record));
    AttemptLogLevels(line, i, data);
    LevelCountAbsent(a.log, W);
    LevelCountAbsent(a.log, E);
    RunFromUnfold(line, i, data);
    var f := Failure(a.record);
    if f.None? {
      assert r.steps == [a.record] + rest.steps && r.log == a.log + rest.log;
      CaughtCountCons(a.record, rest.steps);
      LevelCountAppend(a.log, rest.log, W);
      LevelCountAppend(a.log, rest.log, E);
    } else if f.value.catchable {
      var extra := [PolicyEvent(line, i, a.record.input)];
      assert r.steps == [a.record] + rest.steps && r.log == (a.log + extra) + rest.log;
      CaughtCountCons(a.record, rest.steps);
      LevelCountAppend(a.log + extra, rest.log, W);
      LevelCountAppend(a.log, extra, W);
      LevelCountAppend(a.log + extra, rest.log, E);
      LevelCountAppend(a.log, extra, E);
      assert LevelCount(extra, W) == 1 && LevelCount(extra, E) == 0;
    } else {
      assert r.steps == [a.record] && r.log == a.log;
      CaughtCountCons(a.record, []);
      assert [a.record] + [] == [a.record];
    }
  }

  lemma CaughtCountCons(r: StepRecord, steps: seq<StepRecord>)
    ensures CaughtCount([r] + steps)
      == (if Failure(r).Some? && Failure(r).value.catchable then 1 else 0) + CaughtCount(steps)
  {
    assert ([r] + steps)[1..] == steps;
  }

  /** The `except` clause's log calls in a flat pipeline without `continue_on_errors`, from
      segment `i` on: no WARNING, and one ERROR exactly when the run raises an `Exception`. */
  lemma {:induction false} StrictLogsFrom(line: Segment, i: nat, data: Value)
    requires line.Line? && i <= |line.segments| && Flat(line) && !line.continueOnErrors
    ensures LevelCount(RunFrom(line, i, data).log, Logsetup.WARNING) == 0
    ensures LevelCount(RunFrom(line, i, data).log, Logsetup.ERROR)
      == if RunFrom(line, i, data).outcome.Aborted? && RunFrom(line, i, data).outcome.error.catchable then 1 else 0
    decreases |line.segments| - i
  {
    var r := RunFrom(line, i, data);
    var W, E := Logsetup.WARNING, Logsetup.ERROR;
    if i == |line.segments| {
      RunEndLogs(line, data);
    } else {
      var a := AttemptStep(line, i, data);
      var rest := RunFrom(line, i + 1, DataAfter(a.record));
      AttemptLogLevels(line, i, data);
      LevelCountAbsent(a.log, W);
      LevelCountAbsent(a.log, E);
      RunFromUnfold(line, i, data);
      var f := Failure(a.record);
      if f.None? {
        StrictLogsFrom(line, i + 1, DataAfter(a.record));
        LevelCountAppend(a.log, rest.log, W);
        LevelCountAppend(a.log, rest.log, E);
      } else if f.value.catchable {
        var extra := [PolicyEvent(line, i, a.record.input)];
        LevelCountAppend(a.log, extra, W);
        LevelCountAppend(a.log, extra, E);
      }
    }
  }

  /** With `continue_on_errors` set, a flat pipeline logs one WARNING for each step that failed
      with an `Exception`, and never an ERROR. */
  lemma TolerantModeLogs(line: Segment, input: NextInput)
    requires line.Line? && line.continueOnErrors && Flat(line)
    ensures LevelCount(RunLine(line, input).log, Logsetup.WARNING) == CaughtCount(RunLine(line, input).steps)
    ensures LevelCount(RunLine(line, input).log, Logsetup.ERROR) == 0
  {
    var start := [LogEvent(Signature(line), Logsetup.INFO, "starting up", None)];
    var rest := RunFrom(line, 0, Next(input));
    TolerantLogsFrom(line, 0, Next(input));
    assert RunLine(line, input).steps == rest.steps;
    LevelCountAppend(start, rest.log, Logsetup.WARNING);
    LevelCountAppend(start, rest.log, Logsetup.ERROR);
  }

  /** Every step of `steps`, the run from segment `i` on, that ended with an `Exception` has the
      policy's event for its segment in `log`. */
  ghost predicate PolicyLogged(line: Segment, i: nat, steps: seq<StepRecord>, log: seq<LogEvent>)
    requires line.Line?
  {
    forall k :: 0 <= k < |steps| && Caught(steps[k]) ==>
      i + k < |line.segments| && PolicyEvent(line, i + k, steps[k].input) in log
  }

  /** With `continue_on_errors` set, every step of a run from segment `i` that failed with an
      `Exception` is answered in the run's log by the policy's event for its segment, the
      WARNING naming it. Nested pipelines are allowed: the WARNING is the outer pipeline's
      own call. */
  lemma {:induction false} TolerantWarnsFrom(line: Segment, i: nat, data: Value)
    requires line.Line? && i <= |line.segments| && line.continueOnErrors
    ensures PolicyLogged(line, i, RunFrom(line, i, data).steps, RunFrom(line, i, data).log)
    decreases |line.segments| - i
  {
    var r := RunFrom(line, i, data);
    if i == |line.segments| {
      assert r.steps == [];
    } else {
      var a := AttemptStep(line, i, data);
      var rest := RunFrom(line, i + 1, DataAfter(a.record));
      TolerantStepShape(line, i, data);
      if Tolerated(line, a.record) {
        TolerantWarnsFrom(line, i + 1, DataAfter(a.record));
        PolicyLoggedCons(line, i, a.record, TolerantPrefix(line, i, data), rest.steps, rest.log);
      } else {
        PolicyLoggedCons(line, i, a.record, r.log, [], []);
        assert r.log + [] == r.log;
      }
    }
  }

  /** What one tolerant iteration logs before the rest of the run: the attempt's log calls,
      then the WARNING if the step failed with an `Exception`. */
  ghost function TolerantPrefix(line: Segment, i: nat, data: Value): seq<LogEvent>
    requires line.Line? && i < |line.segments|
  {
    var a := AttemptStep(line, i, data);
    a.log + (if Caught(a.record) then [PolicyEvent(line, i, a.record.input)] else [])
  }

  /** One iteration with `continue_on_errors` set: the run's first record is the attempt's; a
      tolerated step is followed by the rest of the run after `TolerantPrefix`, and any other
      step ends the run. */
  lemma TolerantStepShape(line: Segment, i: nat, data: Value)
    requires line.Line? && i < |line.segments| && line.continueOnErrors
    ensures var a := AttemptStep(line, i, data);
      var r := RunFrom(line, i, data);
      var rest := RunFrom(line, i + 1, DataAfter(a.record));
      if Tolerated(line, a.record) then
        r.steps == [a.record] + rest.steps && r.log == TolerantPrefix(line, i, data) + rest.log
      else
        r.steps == [a.record] && !Caught(a.record)
  {
    RunFromUnfold(line, i, data);
  }

  /** Prepending one step and its log calls keeps every caught failure logged, provided the
      new step's own event, if it needs one, is among the new calls. */
  lemma PolicyLoggedCons(line: Segment, i: nat, first: StepRecord, pre: seq<LogEvent>,
                         steps: seq<StepRecord>, log: seq<LogEvent>)
    requires line.Line? && i < |line.segments|
    requires PolicyLogged(line, i + 1, steps, log)
    requires Caught(first) ==> PolicyEvent(line, i, first.input) in pre
    ensures PolicyLogged(line, i, [first] + steps, pre + log)
  {
    var all := [first] + steps;
    forall k | 0 <= k < |all| && Caught(all[k])
      ensures i + k < |line.segments| && PolicyEvent(line, i + k, all[k].input) in pre + log
    {
      if k > 0 {
        assert all[k] == steps[k - 1];
        assert (i + 1) + (k - 1) == i + k;
      }
    }
  }

  /** With `continue_on_errors` set, every step of a `process` call that failed with an
      `Exception` is followed in the log by the pipeline's WARNING naming that segment, whatever
      the segments are. */
  lemma TolerantModeWarns(line: Segment, input: NextInput)
    requires line.Line? && line.continueOnErrors
    ensures forall k :: 0 <= k < |RunLine(line, input).steps| && Failure(RunLine(line, input).steps[k]).Some?
                        && Failure(RunLine(line, input).steps[k]).value.catchable ==>
              && k < |line.segments|
              && LogEvent(Signature(line), Logsetup.WARNING,
                          Signature(line.segments[k]) + " failed, but processing will continue.", None)
                 in RunLine(line, input).log
  {
    var rest := RunFrom(line, 0, Next(input));
    assert RunLine(line, input).steps == rest.steps;
    assert RunLine(line, input).log == [LogEvent(Signature(line), Logsetup.INFO, "starting up", None)] + rest.log;
    TolerantWarnsFrom(line, 0, Next(input));
    forall k | 0 <= k < |rest.steps| && Failure(rest.steps[k]).Some? && Failure(rest.steps[k]).value.catchable
      ensures k < |line.segments|
      ensures LogEvent(Signature(line), Logsetup.WARNING,
                       Signature(line.segments[k]) + " failed, but processing will continue.", None) in rest.log
    {
      assert Caught(rest.steps[k]);
      assert PolicyEvent(line, k, rest.steps[k].input) in rest.log;
    }
  }

  /** Without `continue_on_errors`, a run from segment `i` that raises an `Exception` ends its
      log with the policy's event for the failed segment: the ERROR record that names it and
      carries the data it was given. */
  lemma {:induction false} StrictAbortLogsData(line: Segment, i: nat, data: Value)
    requires line.Line? && i <= |line.segments| && !line.continueOnErrors
    ensures StrictEnds(line, i, RunFrom(line, i, data))
    decreases |line.segments| - i
  {
    if i < |line.segments| {
      var a := AttemptStep(line, i, data);
      var rest := RunFrom(line, i + 1, DataAfter(a.record));
      StrictStepShape(line, i, data);
      if Failure(a.record).None? {
        StrictAbortLogsData(line, i + 1, DataAfter(a.record));
        StrictEndsCons(line, i, a.record, a.log, rest);
      }
    }
  }

  /** A run from segment `i` that raised an `Exception` has a last step, on a segment of the
      line, and its log ends with the policy's event for that step. */
  ghost predicate StrictEnds(line: Segment, i: nat, r: Run)
    requires line.Line?
  {
    r.outcome.Aborted? && r.outcome.error.catchable ==>
      && |r.steps| > 0 && i + |r.steps| <= |line.segments| && |r.log| > 0
      && Last(r.log) == PolicyEvent(line, i + |r.steps| - 1, Last(r.steps).input)
  }

  /** One iteration without `continue_on_errors`: a step without failure is followed by the
      rest of the run, and a failed one ends it, with the policy's event if it is an `Exception`. */
  lemma StrictStepShape(line: Segment, i: nat, data: Value)
    requires line.Line? && i < |line.segments| && !line.continueOnErrors
    ensures var a := AttemptStep(line, i, data);
      var r := RunFrom(line, i, data);
      var rest := RunFrom(line, i + 1, DataAfter(a.record));
      var f := Failure(a.record);
      if f.None? then r == Run(rest.outcome, [a.record] + rest.steps, a.log + rest.log)
      else if f.value.catchable then r == Run(Aborted(f.value), [a.record], a.log + [PolicyEvent(line, i, a.record.input)])
      else r == Run(Aborted(f.value), [a.record], a.log)
  {
    RunFromUnfold(line, i, data);
  }

  /** Putting a step without failure and its log calls in front of a run keeps its ending. */
  lemma StrictEndsCons(line: Segment, i: nat, first: StepRecord, pre: seq<LogEvent>, rest: Run)
    requires line.Line? && i < |line.segments|
    requires StrictEnds(line, i + 1, rest)
    ensures StrictEnds(line, i, Run(rest.outcome, [first] + rest.steps, pre + rest.log))
  {
    var r := Run(rest.outcome, [first] + rest.steps, pre + rest.log);
    if rest.outcome.Aborted? && rest.outcome.error.catchable {
      assert i + |r.steps| - 1 == (i + 1) + |rest.steps| - 1;
      assert Last(r.log) == Last(rest.log);
      assert Last(r.steps) == Last(rest.steps);
    }
  }

  /** An empty pipeline returns its own call's arguments as an envelope, and its check does
      nothing; a non-empty one hands the check to its first segment with the same arguments. */
  lemma EmptyLineIsIdentity(line: Segment, previous: Option<string>, input: NextInput)
    requires line.Line?
    ensures |line.segments| == 0 ==>
      RunLine(line, input).outcome == Completed(Next(input)) && SegmentCheck(line, previous, input).None?
    ensures |line.segments| > 0 ==>
      SegmentCheck(line, previous, input) == SegmentCheck(line.segments[0], previous, input)
  {
  }

  /** The default `process` hands back exactly the arguments it was given. */
  lemma DefaultProcessPassesThrough(cls: string, name: string, input: NextInput)
    ensures SegmentProcess(Base(cls, name), input) == Step(Ok(Next(input)), [])
    ensures SegmentCheck(Base(cls, name), None, input).None?
  {
  }

  /** The docstring's calls `process()` and `process('Hello', world='World!')`. */
  lemma DefaultProcessExamples()
    ensures SegmentProcess(NewSegment(Some("log-signature")), Empty).result == Ok(Next(NextInput([], map[])))
    ensures SegmentProcess(NewSegment(Some("log-signature")),
                           NextInput([Plain(Str("Hello"))], map["world" := Plain(Str("World!"))])).result
            == Ok(Next(NextInput([Plain(Str("Hello"))], map["world" := Plain(Str("World!"))])))
  {
  }

  /** A pipeline of default segments hands the arguments of its call through unchanged. */
  lemma {:induction false} DefaultsFrom(line: Segment, i: nat, input: NextInput)
    requires line.Line? && i <= |line.segments|
    requires forall k :: 0 <= k < |line.segments| ==> line.segments[k].Base?
    ensures RunFrom(line, i, Next(input)).outcome == Completed(Next(input))
    decreases |line.segments| - i
  {
    if i < |line.segments| {
      var a := AttemptStep(line, i, Next(input));
      var seg := line.segments[i];
      assert SegmentCheck(seg, PreviousOf(line, i), input).None?;
      assert SegmentProcess(seg, input).result == Ok(Next(input));
      assert a.record.processed == Some(Ok(Next(input)));
      RunFromStep(line, i, Next(input));
      DefaultsFrom(line, i + 1, input);
    }
  }

  lemma DefaultsPassThrough(line: Segment, input: NextInput)
    requires line.Line?
    requires forall k :: 0 <= k < |line.segments| ==> line.segments[k].Base?
    ensures RunLine(line, input).outcome == Completed(Next(input))
  {
    DefaultsFrom(line, 0, input);
  }

  /** The records a console handler prints: those at or above both the logger's level and the
      handler's level, as (level, logger, message). */
  function ConsoleLines(log: seq<LogEvent>, cfg: Logsetup.LogConfig): seq<(int, string, string)>
  {
    if log == [] then []
    else
      var rest := ConsoleLines(log[1..], cfg);
      if log[0].level >= cfg.level && log[0].level >= cfg.stdoutLevel
      then [(log[0].level, log[0].logger, log[0].text)] + rest
      else rest
  }

  /** The docstring of `PypeLine`: two no-op segments in a pipeline named "test", run without
      arguments under the default configuration, print these six lines and return an empty
      envelope. */
  lemma PypeLineDoctest()
    ensures var line := NewLine(Some([NewSegment(Some("noop")), NewSegment(Some("noop"))]), Some("test"), None);
      var r := RunLine(line, Empty);
      && r.outcome == Completed(Next(NextInput([], map[])))
      && Logsetup.LogConfigOf(map[]) == Ok(Logsetup.LogConfig(20, 20, []))
      && ConsoleLines(r.log, Logsetup.LogConfig(20, 20, [])) == [
           (20, "PypeLine.test", "starting up"),
           (20, "PypeLine.test", "PypeSegment.noop says input is ok"),
           (20, "PypeLine.test", "PypeSegment.noop is done"),
           (20, "PypeLine.test", "PypeSegment.noop says input is ok"),
           (20, "PypeLine.test", "PypeSegment.noop is done"),
           (25, "PypeLine.test", "output was produced.")]
  {
    Logsetup.LogConfigDefault();
    assert NewLine(Some([NewSegment(Some("noop")), NewSegment(Some("noop"))]), Some("test"), None) == DoctestLine;
    DoctestRun();
    DoctestConsole();
  }

  const DoctestLine := Line("PypeLine", "test", [Base("PypeSegment", "noop"), Base("PypeSegment", "noop")], false)

  /** The log calls of one no-op step of the doctest. */
  function DoctestStepLog(): seq<LogEvent>
  {
    [LogEvent("PypeLine.test", 10, "next input: ", Some(Next(Empty))),
     LogEvent("PypeLine.test", 20, "PypeSegment.noop says input is ok", None),
     LogEvent("PypeLine.test", 20, "PypeSegment.noop is done", None)]
  }

  function DoctestTailLog(): seq<LogEvent>
  {
    [LogEvent("PypeLine.test", 25, "output was produced.", None),
     LogEvent("PypeLine.test", 10, "output was ", Some(Next(Empty)))]
  }

  /** One iteration over a default segment: it accepts, returns its input as an envelope, and
      the pipeline logs the input, the acceptance and the completion. */
  lemma AttemptBase(line: Segment, i: nat, data: Value)
    requires line.Line? && i < |line.segments| && line.segments[i].Base?
    ensures var a := AttemptStep(line, i, data);
      && a.record == StepRecord(PreviousOf(line, i), Normalize(data), None, Some(Ok(Next(Normalize(data)))))
      && a.log == [LogEvent(Signature(line), Logsetup.DEBUG, "next input: ", Some(Next(Normalize(data)))),
                   LogEvent(Signature(line), Logsetup.INFO, Signature(line.segments[i]) + " says input is ok", None),
                   LogEvent(Signature(line), Logsetup.INFO, Signature(line.segments[i]) + " is done", None)]
  {
    var seg := line.segments[i];
    assert SegmentCheck(seg, PreviousOf(line, i), Normalize(data)).None?;
    assert SegmentProcess(seg, Normalize(data)) == Step(Ok(Next(Normalize(data))), []);
  }

  lemma DoctestAttempt(i: nat)
    requires i < 2
    ensures AttemptStep(DoctestLine, i, Next(Empty)).log == DoctestStepLog()
    ensures Failure(AttemptStep(DoctestLine, i, Next(Empty)).record).None?
    ensures DataAfter(AttemptStep(DoctestLine, i, Next(Empty)).record) == Next(Empty)
  {
    AttemptBase(DoctestLine, i, Next(Empty));
    DoctestStepNames(i);
  }

  /** The log calls `AttemptBase` gives for either doctest segment, spelt out. */
  lemma DoctestStepNames(i: nat)
    requires i < 2
    ensures [LogEvent(Signature(DoctestLine), Logsetup.DEBUG, "next input: ", Some(Next(Normalize(Next(Empty))))),
             LogEvent(Signature(DoctestLine), Logsetup.INFO, Signature(DoctestLine.segments[i]) + " says input is ok", None),
             LogEvent(Signature(DoctestLine), Logsetup.INFO, Signature(DoctestLine.segments[i]) + " is done", None)]
            == DoctestStepLog()
  {
    assert DoctestLine.segments[i] == Base("PypeSegment", "noop");
    DoctestSignatures();
  }

  lemma DoctestSignatures()
    ensures Signature(DoctestLine) == "PypeLine.test"
    ensures Signature(Base("PypeSegment", "noop")) + " says input is ok" == "PypeSegment.noop says input is ok"
    ensures Signature(Base("PypeSegment", "noop")) + " is done" == "PypeSegment.noop is done"
  {
    var what := Signature(Base("PypeSegment", "noop"));
    assert what == "PypeSegment.noop";
  }

  lemma DoctestRun()
    ensures RunLine(DoctestLine, Empty).outcome == Completed(Next(Empty))
    ensures RunLine(DoctestLine, Empty).log
      == [LogEvent("PypeLine.test", 20, "starting up", None)] + (DoctestStepLog() + (DoctestStepLog() + DoctestTailLog()))
  {
    assert Signature(DoctestLine) == "PypeLine.test";
    DoctestAttempt(0);
    DoctestAttempt(1);
    RunFromUnfold(DoctestLine, 0, Next(Empty));
    RunFromUnfold(DoctestLine, 1, Next(Empty));
    assert RunFrom(DoctestLine, 2, Next(Empty)).log == DoctestTailLog();
  }

  lemma DoctestConsole()
    ensures var cfg := Logsetup.LogConfig(20, 20, []);
      ConsoleLines([LogEvent("PypeLine.test", 20, "starting up", None)] + (DoctestStepLog() + (DoctestStepLog() + DoctestTailLog())), cfg)
      == [(20, "PypeLine.test", "starting up"),
          (20, "PypeLine.test", "PypeSegment.noop says input is ok"),
          (20, "PypeLine.test", "PypeSegment.noop is done"),
          (20, "PypeLine.test", "PypeSegment.noop says input is ok"),
          (20, "PypeLine.test", "PypeSegment.noop is done"),
          (25, "PypeLine.test", "output was produced.")]
  {
    var cfg := Logsetup.LogConfig(20, 20, []);
    var first := [LogEvent("PypeLine.test", 20, "starting up", None)];
    ConsoleLinesAppend(first, DoctestStepLog() + (DoctestStepLog() + DoctestTailLog()), cfg);
    ConsoleLinesAppend(DoctestStepLog(), DoctestStepLog() + DoctestTailLog(), cfg);
    ConsoleLinesAppend(DoctestStepLog(), DoctestTailLog(), cfg);
    assert ConsoleLines(first, cfg) == [(20, "PypeLine.test", "starting up")];
    assert ConsoleLines(DoctestStepLog(), cfg)
      == [(20, "PypeLine.test", "PypeSegment.noop says input is ok"), (20, "PypeLine.test", "PypeSegment.noop is done")];
    assert ConsoleLines(DoctestTailLog(), cfg) == [(25, "PypeLine.test", "output was produced.")];
  }

  lemma {:induction false} ConsoleLinesAppend(a: seq<LogEvent>, b: seq<LogEvent>, cfg: Logsetup.LogConfig)
    ensures ConsoleLines(a + b, cfg) == ConsoleLines(a, cfg) + ConsoleLines(b, cfg)
  {
    if a == [] {
      assert a + b == b;
    } else {
      assert (a + b)[1..] == a[1..] + b;
      ConsoleLinesAppend(a[1..], b, cfg);
    }
  }

  /** `FirstDemoProcess(name)` of the usage example: returns a constant string. */
  function FirstDemoProcess(name: string): Segment
  {
    Custom("FirstDemoProcess", name, NoCheck, WorkStuff)
  }

  /** `SecondDemoProcess(name)`: concatenates `some` with a string and returns an envelope
      holding only `stuff=`. */
  function SecondDemoProcess(name: string): Segment
  {
    Custom("SecondDemoProcess", name, NoCheck, (input: NextInput) => Preprocess("SecondDemoProcess." + name, true, input))
  }

  /** `combined_process` of the usage example. */
  function ExampleLine(): Segment
  {
    NewLine(Some([FirstDemoProcess("one"), SecondDemoProcess("two"), FirstDemoProcess("three")]), Some("demopipe"), None)
  }

  const Worked := Plain(Str("Stuff was worked..."))

  const Preprocessed := NextInput([], map["stuff" := Plain(Str("Preprocessed by SecondDemoProcess.two."))])

  lemma ExampleFirst()
    ensures AttemptStep(ExampleLine(), 0, Next(NextInput([Plain(Str("Initial Stuff."))], map[]))).record
      == StepRecord(None, NextInput([Plain(Str("Initial Stuff."))], map[]), None, Some(Ok(Worked)))
  {
    assert ExampleLine().segments[0] == FirstDemoProcess("one");
    assert BindStuff(NextInput([Plain(Str("Initial Stuff."))], map[])).Some?;
  }

  lemma ExampleSecondProcess()
    ensures SegmentProcess(SecondDemoProcess("two"), NextInput([Worked], map[])).result == Ok(Next(Preprocessed))
  {
    assert "SecondDemoProcess." + "two" == "SecondDemoProcess.two";
    PreprocessWorked();
  }

  lemma ExampleSecond()
    ensures AttemptStep(ExampleLine(), 1, Worked).record
      == StepRecord(Some("FirstDemoProcess.one"), NextInput([Worked], map[]), None, Some(Ok(Next(Preprocessed))))
  {
    var line := ExampleLine();
    assert line.segments[0] == FirstDemoProcess("one") && line.segments[1] == SecondDemoProcess("two");
    assert Signature(line.segments[0]) == "FirstDemoProcess.one";
    ExampleSecondProcess();
  }

  lemma ExampleThird()
    ensures AttemptStep(ExampleLine(), 2, Next(Preprocessed)).record
      == StepRecord(Some("SecondDemoProcess.two"), Preprocessed, None, Some(Ok(Worked)))
  {
    var line := ExampleLine();
    assert line.segments[1] == SecondDemoProcess("two") && line.segments[2] == FirstDemoProcess("three");
    assert Signature(line.segments[1]) == "SecondDemoProcess.two";
    assert Preprocessed.kwd.Keys == {"stuff"};
    assert BindStuff(Preprocessed).Some?;
  }

  /** The usage example: "two" receives the plain string of "one" as its sole positional
      argument, "three" receives only the keyword `stuff`, and the result is "three"'s string. */
  lemma ExampleRun()
    ensures var r := RunLine(ExampleLine(), NextInput([Plain(Str("Initial Stuff."))], map[]));
      && r.outcome == Completed(Plain(Str("Stuff was worked...")))
      && |r.steps| == 3
      && r.steps[0].input == NextInput([Plain(Str("Initial Stuff."))], map[])
      && r.steps[1].input == NextInput([Plain(Str("Stuff was worked..."))], map[])
      && r.steps[2].input == NextInput([], map["stuff" := Plain(Str("Preprocessed by SecondDemoProcess.two."))])
      && r.steps[2].previous == Some("SecondDemoProcess.two")
  {
    var line := ExampleLine();
    var start := NextInput([Plain(Str("Initial Stuff."))], map[]);
    ExampleFirst();
    ExampleSecond();
    ExampleThird();
    var a0 := AttemptStep(line, 0, Next(start)).record;
    var a1 := AttemptStep(line, 1, Worked).record;
    var a2 := AttemptStep(line, 2, Next(Preprocessed)).record;
    RunFromUnfold(line, 0, Next(start));
    RunFromUnfold(line, 1, Worked);
    RunFromUnfold(line, 2, Next(Preprocessed));
    var r3 := RunFrom(line, 3, Worked);
    assert r3.steps == [] && r3.outcome == Completed(Worked);
    assert RunFrom(line, 2, Next(Preprocessed)).steps == [a2];
    assert RunFrom(line, 1, Worked).steps == [a1, a2];
    assert RunFrom(line, 0, Next(start)).steps == [a0, a1, a2];
  }

  /** `PypeLine`: its fields, and `process` as the `for` loop of `PypeLine.process` with its
      `try`/`except`. */
  class PypeLine {
    var name: string
    var segments: seq<Segment>
    var continueOnErrors: bool

    constructor (segments: Option<seq<Segment>>, name: Option<string>, continueOnErrors: Option<bool>)
      ensures this.name == InitName(name)
      ensures this.segments == if segments.Some? then segments.value else []
      ensures this.continueOnErrors <==> continueOnErrors == Some(true)
    {
      this.name := InitName(name);
      this.segments := if segments.Some? then segments.value else [];
      this.continueOnErrors := continueOnErrors.Some? && continueOnErrors.value;
    }

    /** This pipeline as a segment of another. */
    function AsSegment(): (s: Segment)
      reads this
      ensures s.Line? && s.segments == segments && s.continueOnErrors == continueOnErrors
      ensures Signature(s) == "PypeLine." + name
    {
      Line("PypeLine", name, segments, continueOnErrors)
    }

    /** `PypeLine.check_inputs`: the first segment's check, or nothing for an empty pipeline. */
    function CheckInputs(previous: Option<string>, input: NextInput): (r: Option<Raised>)
      reads this
      ensures |segments| == 0 ==> r.None?
      ensures |segments| > 0 ==> r == SegmentCheck(segments[0], previous, input)
    {
      if |segments| > 0 then SegmentCheck(segments[0], previous, input) else None
    }

    /** The `try` block for segment `idx`: normalise the data, let the segment check it, and
        process it only if the check passed. Returns what was recorded and logged and the data
        held afterwards. */
    method TryStep(idx: nat, data: Value, previous: Option<string>)
      returns (record: StepRecord, after: Value, logged: seq<LogEvent>)
      requires idx < |segments| && previous == PreviousOf(AsSegment(), idx)
      ensures record == AttemptStep(AsSegment(), idx, data).record
      ensures logged == AttemptStep(AsSegment(), idx, data).log
      ensures after == DataAfter(record)
    {
      var who := "PypeLine." + name;
      var segment := segments[idx];
      var current := data;
      if !current.Next? {
        current := Next(NextInput([current], map[]));
      }
      logged := [LogEvent(who, Logsetup.DEBUG, "next input: ", Some(current))];
      record := StepRecord(previous, current.input, None, None);
      var checked := SegmentCheck(segment, previous, current.input);
      if checked.Some? {
        record := record.(checked := checked);
      } else {
        logged := logged + [LogEvent(who, Logsetup.INFO, Signature(segment) + " says input is ok", None)];
        var step := SegmentProcess(segment, current.input);
        record := record.(processed := Some(step.result));
        logged := logged + step.log;
        if step.result.Ok? {
          current := step.result.value;
          logged := logged + [LogEvent(who, Logsetup.INFO, Signature(segment) + " is done", None)];
        }
      }
      after := current;
    }

    /** `PypeLine.process`. */
    method Process(input: NextInput) returns (run: Run)
      ensures run == RunLine(AsSegment(), input)
    {
      var who := "PypeLine." + name;
      var log := [LogEvent(who, Logsetup.INFO, "starting up", None)];
      var steps: seq<StepRecord> := [];
      var data := Next(input);
      var previous: Option<string> := None;
      for idx := 0 to |segments|
        invariant previous == PreviousOf(AsSegment(), idx)
        invariant RunLine(AsSegment(), input) == Emit(steps, log, RunFrom(AsSegment(), idx, data))
      {
        ghost var line := AsSegment();
        LoopStep(line, idx, data, steps, log);
        var segment := segments[idx];
        var record, after, logged := TryStep(idx, data, previous);
        steps := steps + [record];
        log := log + logged;
        data := after;
        var failure := Failure(record);
        if failure.Some? {
          var e := failure.value;
          if !e.catchable {
            return Run(Aborted(e), steps, log);
          }
          assert data == Next(record.input);
          if continueOnErrors {
            log := log + [LogEvent(who, Logsetup.WARNING, Signature(segment) + " failed, but processing will continue.", None)];
          } else {
            log := log + [LogEvent(who, Logsetup.ERROR, Signature(segment) + " could not process ", Some(data))];
            return Run(Aborted(e), steps, log);
          }
        }
        previous := Some(Signature(segment));
      }
      log := log + [LogEvent(who, Logsetup.SUCCESS, "output was produced.", None),
                    LogEvent(who, Logsetup.DEBUG, "output was ", Some(data))];
      run := Run(Completed(data), steps, log);
    }
  }
}
