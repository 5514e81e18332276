/** The earliest revision of the engine (`pypes.py`): `PipeSegment`, whose default `process`
    returns None, and `DataPipe`, a plain object with no name that runs its segments in order
    with no error boundary. Neither class defines `__str__`, so a segment is known by whatever its
    `str()` gives: `repr`. The `print` calls of this revision are not modelled. */
module EarlyPypes {
  import opened Values
  import opened Binding

  /** A segment: a `PipeSegment` with the inherited hooks (`Base`), a subclass with user hooks
      (`Custom`), or a `DataPipe` (`Pipe`), each with the string `str()` gives for it. */
  datatype Segment =
    | Base(repr: string)
    | Custom(repr: string, check: CheckHook, proc: ProcessHook)
    | Pipe(repr: string, segments: seq<Segment>)

  /** What `str()` gives for a `DataPipe` object: Python's default representation, whose
      address part is not modelled. */
  const DATAPIPE_REPR := "<DataPipe object>"

  /** `DataPipe(segments)`. */
  function NewPipe(segments: Option<seq<Segment>>): (s: Segment)
    ensures s.Pipe? && s.repr == DATAPIPE_REPR
    ensures s.segments == if segments.Some? then segments.value else []
  {
    Pipe(DATAPIPE_REPR, if segments.Some? then segments.value else [])
  }

  /** A run: what the call returned or raised, and one record per segment reached. */
  datatype Run = Run(result: Result<Value, Raised>, steps: seq<StepRecord>)

  function Prepend(r: StepRecord, rest: Run): Run
  {
    Run(rest.result, [r] + rest.steps)
  }

  /** `segment.check_inputs(previous, *args, **kwd)`; a pipe passes the call to its first
      segment. */
  function SegmentCheck(seg: Segment, previous: Option<string>, input: NextInput): Option<Raised>
    decreases seg
  {
    match seg
    case Base(_) => None
    case Custom(_, check, _) => check(previous, input)
    case Pipe(_, segments) =>
      if |segments| > 0 then SegmentCheck(segments[0], previous, input) else None
  }

  /** The string form of the segment processed before segment `i`. */
  function PreviousOf(pipe: Segment, i: nat): Option<string>
    requires pipe.Pipe? && i <= |pipe.segments|
  {
    if i == 0 then None else Some(pipe.segments[i - 1].repr)
  }

  /** `segment.process(*args, **kwd)`. */
  function SegmentProcess(seg: Segment, input: NextInput): Result<Value, Raised>
    decreases seg, 1, 0, 0
  {
    match seg
    case Base(_) => Ok(Plain(NoneVal))
    case Custom(_, _, proc) => proc(input)
    case Pipe(_, _) => RunPipe(seg, input).result
  }

  /** `DataPipe.process(*args, **kwd)`. */
  function RunPipe(pipe: Segment, input: NextInput): Run
    requires pipe.Pipe?
    decreases pipe, 0, |pipe.segments| + 1, 0
  {
    RunFrom(pipe, 0, Next(input))
  }

  /** One loop iteration for segment `i`: normalise the data, check, and process only if the
      check did not raise. */
  function AttemptStep(pipe: Segment, i: nat, data: Value): StepRecord
    requires pipe.Pipe? && i < |pipe.segments|
    decreases pipe, 0, |pipe.segments| - i, 0
  {
    var input := Normalize(data);
    var previous := PreviousOf(pipe, i);
    match SegmentCheck(pipe.segments[i], previous, input)
    case Some(e) => StepRecord(previous, input, Some(e), None)
    case None => StepRecord(previous, input, None, Some(SegmentProcess(pipe.segments[i], input)))
  }

  /** The loop from segment `i` on, holding `data`. */
  function RunFrom(pipe: Segment, i: nat, data: Value): Run
    requires pipe.Pipe? && i <= |pipe.segments|
    decreases pipe, 0, |pipe.segments| - i, 1
  {
    if i == |pipe.segments| then Run(Ok(data), [])
    else
      var r := AttemptStep(pipe, i, data);
      match Failure(r)
      case Some(e) => Run(Err(e), [r])
      case None => Prepend(r, RunFrom(pipe, i + 1, DataAfter(r)))
  }

  /** The record segment `i` must have, given its input: the previous segment is the one before
      it, and `process` was called, on the same input, exactly when the check did not raise. */
  ghost predicate Genuine(pipe: Segment, i: nat, r: StepRecord)
    requires pipe.Pipe? && i < |pipe.segments|
  {
    && r.previous == PreviousOf(pipe, i)
    && r.checked == SegmentCheck(pipe.segments[i], r.previous, r.input)
    && r.processed == (if r.checked.None? then Some(SegmentProcess(pipe.segments[i], r.input)) else None)
  }

  /** One iteration: the step record is genuine and given the normalised data; a step that did
      not fail is followed by the run from the next segment, a failed one ends the run. */
  lemma RunFromUnfold(pipe: Segment, i: nat, data: Value)
    requires pipe.Pipe? && i < |pipe.segments|
    ensures var r := AttemptStep(pipe, i, data);
      && Genuine(pipe, i, r) && r.input == Normalize(data)
      && RunFrom(pipe, i, data) ==
           if Failure(r).None? then Prepend(r, RunFrom(pipe, i + 1, DataAfter(r)))
           else Run(Err(Failure(r).value), [r])
  {
  }

  /** The steps from segment `i` on: each genuine, the first given the normalised `data`, every
      step but the last without failure, and each next one given the data the previous left. */
  lemma {:induction false} StepsFrom(pipe: Segment, i: nat, data: Value)
    requires pipe.Pipe? && i <= |pipe.segments|
    ensures var r := RunFrom(pipe, i, data);
      && |r.steps| <= |pipe.segments| - i
      && (i < |pipe.segments| ==> |r.steps| > 0 && r.steps[0].input == Normalize(data))
      && (forall k :: 0 <= k < |r.steps| ==> Genuine(pipe, i + k, r.steps[k]))
      && (forall k :: 0 <= k < |r.steps| - 1 ==>
            Failure(r.steps[k]).None? && r.steps[k + 1].input == Normalize(DataAfter(r.steps[k])))
    decreases |pipe.segments| - i
  {
    if i < |pipe.segments| {
      var a := AttemptStep(pipe, i, data);
      RunFromUnfold(pipe, i, data);
      var r := RunFrom(pipe, i, data);
      if Failure(a).None? {
        var rest := RunFrom(pipe, i + 1, DataAfter(a));
        StepsFrom(pipe, i + 1, DataAfter(a));
        assert Genuine(pipe, i, a);
        StepsCons(pipe, i, a, rest.steps);
      }
    }
  }

  /** Prepending a genuine step without failure to a chain of genuine steps that starts with
      the data it left gives a chain again. */
  lemma StepsCons(pipe: Segment, i: nat, first: StepRecord, steps: seq<StepRecord>)
    requires pipe.Pipe? && i < |pipe.segments| && |steps| <= |pipe.segments| - i - 1
    requires Genuine(pipe, i, first) && Failure(first).None?
    requires |steps| > 0 ==> steps[0].input == Normalize(DataAfter(first))
    requires forall k :: 0 <= k < |steps| ==> Genuine(pipe, i + 1 + k, steps[k])
    requires forall k :: 0 <= k < |steps| - 1 ==>
      Failure(steps[k]).None? && steps[k + 1].input == Normalize(DataAfter(steps[k]))
    ensures var all := [first] + steps;
      && (forall k :: 0 <= k < |all| ==> Genuine(pipe, i + k, all[k]))
      && (forall k :: 0 <= k < |all| - 1 ==>
            Failure(all[k]).None? && all[k + 1].input == Normalize(DataAfter(all[k])))
  {
    var all := [first] + steps;
    forall k | 0 <= k < |all| ensures Genuine(pipe, i + k, all[k]) {
      if k > 0 {
        assert all[k] == steps[k - 1] && i + k == i + 1 + (k - 1);
      }
    }
    forall k | 0 <= k < |all| - 1
      ensures Failure(all[k]).None? && all[k + 1].input == Normalize(DataAfter(all[k]))
    {
      if k > 0 {
        assert all[k] == steps[k - 1] && all[k + 1] == steps[k];
      }
    }
  }

  /** How a run from segment `i` ends: it returns exactly when every remaining segment was
      reached and none failed, with the data the last step left; otherwise it raises the last
      step's failure. */
  lemma {:induction false} OutcomeFrom(pipe: Segment, i: nat, data: Value)
    requires pipe.Pipe? && i <= |pipe.segments|
    ensures var r := RunFrom(pipe, i, data);
      && (r.result.Ok? <==>
            |r.steps| == |pipe.segments| - i && (|r.steps| == 0 || Failure(r.steps[|r.steps| - 1]).None?))
      && (r.result.Ok? ==>
            r.result.value == if |r.steps| == 0 then data else DataAfter(r.steps[|r.steps| - 1]))
      && (r.result.Err? ==>
            |r.steps| > 0 && Failure(r.steps[|r.steps| - 1]) == Some(r.result.error))
    decreases |pipe.segments| - i
  {
    if i < |pipe.segments| {
      var a := AttemptStep(pipe, i, data);
      var r := RunFrom(pipe, i, data);
      RunFromUnfold(pipe, i, data);
      if Failure(a).None? {
        var rest := RunFrom(pipe, i + 1, DataAfter(a));
        OutcomeFrom(pipe, i + 1, DataAfter(a));
        StepsFrom(pipe, i + 1, DataAfter(a));
        if |rest.steps| > 0 {
          assert r.steps[|r.steps| - 1] == rest.steps[|rest.steps| - 1];
        }
      }
    }
  }

  /** The whole pipe, with no error boundary: segments are visited in order, each given the
      previous segment and the data the previous step left; the first failure, in a check or in
      `process`, is raised and no later segment is reached; otherwise the pipe returns the data
      the last step left, or its own call's arguments when it has no segments. */
  lemma RunPipeCharacterized(pipe: Segment, input: NextInput)
    requires pipe.Pipe?
    ensures var r := RunPipe(pipe, input);
      && |r.steps| <= |pipe.segments|
      && (|pipe.segments| > 0 ==> |r.steps| > 0 && r.steps[0].input == input)
      && (forall k :: 0 <= k < |r.steps| ==> Genuine(pipe, k, r.steps[k]))
      && (forall k :: 0 <= k < |r.steps| - 1 ==>
            Failure(r.steps[k]).None? && r.steps[k + 1].input == Normalize(DataAfter(r.steps[k])))
      && (r.result.Ok? <==>
            |r.steps| == |pipe.segments| && forall k :: 0 <= k < |r.steps| ==> Failure(r.steps[k]).None?)
      && (r.result.Ok? ==>
            r.result.value == if |r.steps| == 0 then Next(input) else DataAfter(r.steps[|r.steps| - 1]))
      && (r.result.Err? ==>
            |r.steps| > 0 && Failure(r.steps[|r.steps| - 1]) == Some(r.result.error))
  {
    StepsFrom(pipe, 0, Next(input));
    OutcomeFrom(pipe, 0, Next(input));
  }

  /** An empty pipe returns its own call's arguments as an envelope and its check does nothing;
      a non-empty one hands the check to its first segment with the same arguments. */
  lemma EmptyPipeIsIdentity(pipe: Segment, previous: Option<string>, input: NextInput)
    requires pipe.Pipe?
    ensures |pipe.segments| == 0 ==>
      RunPipe(pipe, input) == Run(Ok(Next(input)), []) && SegmentCheck(pipe, previous, input).None?
    ensures |pipe.segments| > 0 ==>
      SegmentCheck(pipe, previous, input) == SegmentCheck(pipe.segments[0], previous, input)
  {
  }

  /** The default `process` returns None, so the segment after a default one is called with
      exactly one positional None, and a pipe ending in a default segment returns None. */
  lemma DefaultPassesNone(pipe: Segment, input: NextInput, k: nat)
    requires pipe.Pipe? && k < |pipe.segments| && pipe.segments[k].Base?
    ensures var r := RunPipe(pipe, input);
      && (k + 1 < |r.steps| ==> r.steps[k + 1].input == NextInput([Plain(NoneVal)], map[]))
      && (r.result.Ok? && k == |pipe.segments| - 1 ==> r.result.value == Plain(NoneVal))
  {
    RunPipeCharacterized(pipe, input);
    var r := RunPipe(pipe, input);
    if k < |r.steps| {
      assert SegmentCheck(pipe.segments[k], r.steps[k].previous, r.steps[k].input).None?;
      assert DataAfter(r.steps[k]) == Plain(NoneVal);
    }
  }

  /** The default segment's hooks: the check never raises and `process` returns None,
      whatever the arguments. */
  lemma DefaultHooks(repr: string, previous: Option<string>, input: NextInput)
    ensures SegmentCheck(Base(repr), previous, input).None?
    ensures SegmentProcess(Base(repr), input) == Ok(Plain(NoneVal))
  {
  }

  /** `FirstDemoProcess(name)` of the demo, whose `__repr__` is its name. */
  function FirstDemoProcess(name: string): Segment
  {
    Custom(name, NoCheck, WorkStuff)
  }

  /** `SecondDemoProcess(name)` of the demo: it only logs `some`, so any value will do. */
  function SecondDemoProcess(name: string): Segment
  {
    Custom(name, NoCheck, (input: NextInput) => Preprocess(name, false, input))
  }

  /** The pipe `p` of the demo. */
  function DemoPipe(): Segment
  {
    NewPipe(Some([FirstDemoProcess("one"), SecondDemoProcess("two"), FirstDemoProcess("three")]))
  }

  const Worked := Plain(Str("Stuff was worked..."))

  const Preprocessed := NextInput([], map["stuff" := Plain(Str("Preprocessed by two."))])

  lemma DemoFirst()
    ensures AttemptStep(DemoPipe(), 0, Next(NextInput([Plain(Str("Initial Stuff."))], map[])))
      == StepRecord(None, NextInput([Plain(Str("Initial Stuff."))], map[]), None, Some(Ok(Worked)))
  {
    assert DemoPipe().segments[0] == FirstDemoProcess("one");
    assert BindStuff(NextInput([Plain(Str("Initial Stuff."))], map[])).Some?;
  }

  lemma DemoSecondProcess()
    ensures SegmentProcess(SecondDemoProcess("two"), NextInput([Worked], map[])) == Ok(Next(Preprocessed))
  {
    assert BindSome(NextInput([Worked], map[])) == Some(Worked);
    assert "Preprocessed by " + "two" + "." == "Preprocessed by two.";
    assert Preprocess("two", false, NextInput([Worked], map[])) == Ok(Next(Preprocessed));
  }

  lemma DemoSecond()
    ensures AttemptStep(DemoPipe(), 1, Worked)
      == StepRecord(Some("one"), NextInput([Worked], map[]), None, Some(Ok(Next(Preprocessed))))
  {
    var pipe := DemoPipe();
    assert pipe.segments[0] == FirstDemoProcess("one") && pipe.segments[1] == SecondDemoProcess("two");
    DemoSecondProcess();
  }

  lemma DemoThird()
    ensures AttemptStep(DemoPipe(), 2, Next(Preprocessed))
      == StepRecord(Some("two"), Preprocessed, None, Some(Ok(Worked)))
  {
    var pipe := DemoPipe();
    assert pipe.segments[1] == SecondDemoProcess("two") && pipe.segments[2] == FirstDemoProcess("three");
    assert Preprocessed.kwd.Keys == {"stuff"};
    assert BindStuff(Preprocessed).Some?;
  }

  /** `demo()`: "two" returns `NextInput([], {'stuff': ...})`, so "three" is called with no
      positional argument and that one keyword; the final result is "three"'s string. */
  lemma DemoRun()
    ensures var r := RunPipe(DemoPipe(), NextInput([Plain(Str("Initial Stuff."))], map[]));
      && r.result == Ok(Plain(Str("Stuff was worked...")))
      && |r.steps| == 3
      && r.steps[1].input == NextInput([Plain(Str("Stuff was worked..."))], map[])
      && r.steps[2].input == NextInput([], map["stuff" := Plain(Str("Preprocessed by two."))])
      && r.steps[2].previous == Some("two")
  {
    var pipe := DemoPipe();
    var start := NextInput([Plain(Str("Initial Stuff."))], map[]);
    DemoFirst();
    DemoSecond();
    DemoThird();
    var a0 := AttemptStep(pipe, 0, Next(start));
    var a1 := AttemptStep(pipe, 1, Worked);
    var a2 := AttemptStep(pipe, 2, Next(Preprocessed));
    RunFromUnfold(pipe, 0, Next(start));
    RunFromUnfold(pipe, 1, Worked);
    RunFromUnfold(pipe, 2, Next(Preprocessed));
    assert RunFrom(pipe, 3, Worked) == Run(Ok(Worked), []);
    assert RunFrom(pipe, 2, Next(Preprocessed)).steps == [a2];
    assert RunFrom(pipe, 1, Worked).steps == [a1, a2];
    assert RunFrom(pipe, 0, Next(start)).steps == [a0, a1, a2];
  }
  /** `DataPipe`: its field, and `process` as the `for` loop of `DataPipe.process`. */
  class DataPipe {
    var segments: seq<Segment>

    constructor (segments: Option<seq<Segment>>)
      ensures this.segments == if segments.Some? then segments.value else []
    {
      this.segments := if segments.Some? then segments.value else [];
    }

    /** This pipe as a segment of another. */
    function AsSegment(): (s: Segment)
      reads this
      ensures s.Pipe? && s.segments == segments && s.repr == DATAPIPE_REPR
    {
      Pipe(DATAPIPE_REPR, segments)
    }

    /** `DataPipe.check_inputs`: the first segment's check, or nothing when there is none. */
    function CheckInputs(previous: Option<string>, input: NextInput): (r: Option<Raised>)
      reads this
      ensures |segments| == 0 ==> r.None?
      ensures |segments| > 0 ==> r == SegmentCheck(segments[0], previous, input)
    {
      SegmentCheck(AsSegment(), previous, input)
    }

    /** `DataPipe.process`. */
    method Process(input: NextInput) returns (run: Run)
      ensures run == RunPipe(AsSegment(), input)
    {
      var steps: seq<StepRecord> := [];
      var data := Next(input);
      var previous: Option<string> := None;
      for idx := 0 to |segments|
        invariant previous == PreviousOf(AsSegment(), idx)
        invariant RunPipe(AsSegment(), input) == Run(RunFrom(AsSegment(), idx, data).result, steps + RunFrom(AsSegment(), idx, data).steps)
      {
        ghost var pipe := AsSegment();
        RunFromUnfold(pipe, idx, data);
        var segment := segments[idx];
        if !data.Next? {
          data := Next(NextInput([data], map[]));
        }
        var record := StepRecord(previous, data.input, None, None);
        var checked := SegmentCheck(segment, previous, data.input);
        if checked.Some? {
          record := record.(checked := checked);
          return Run(Err(checked.value), steps + [record]);
        }
        var result := SegmentProcess(segment, data.input);
        record := record.(processed := Some(result));
        steps := steps + [record];
        if result.Err? {
          return Run(Err(result.error), steps);
        }
        assert steps + RunFrom(pipe, idx + 1, result.value).steps
          == (steps[..|steps| - 1]) + ([record] + RunFrom(pipe, idx + 1, result.value).steps);
        data := result.value;
        previous := Some(segment.repr);
      }
      return Run(Ok(data), steps);
    }
  }
}
