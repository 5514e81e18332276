/** The first logging revision of the engine (`pre-pypes.py`): `PipeSegment`, whose default
    `process` returns an empty envelope, and `DataPipe`, which runs its segments in order with no
    error boundary: whatever a check or a `process` raises leaves the pipe at once. The log calls
    of this revision are not modelled. */
module PrePypes {
  import opened Values
  import opened Binding

  /** A segment: `PipeSegment` with its own hooks (`Base`), a subclass with user hooks
      (`Custom`), or a `DataPipe` (`Pipe`). `cls` is the class name. */
  datatype Segment =
    | Base(cls: string, name: string)
    | Custom(cls: string, name: string, check: CheckHook, proc: ProcessHook)
    | Pipe(cls: string, name: string, segments: seq<Segment>)

  /** `str(segment)`: the class name and the name, joined by a dot. */
  function Signature(seg: Segment): string
  {
    seg.cls + "." + seg.name
  }

  /** `PipeSegment(name)`. */
  function NewSegment(name: Option<string>): (s: Segment)
    ensures s.Base? && Signature(s) == "PipeSegment." + InitName(name)
  {
    Base("PipeSegment", InitName(name))
  }

  /** `DataPipe(segments, name)`. */
  function NewPipe(segments: Option<seq<Segment>>, name: Option<string>): (s: Segment)
    ensures s.Pipe? && Signature(s) == "DataPipe." + InitName(name)
    ensures s.segments == if segments.Some? then segments.value else []
  {
    Pipe("DataPipe", InitName(name), if segments.Some? then segments.value else [])
  }

  /** A run: what the call returned or raised, and one record per segment reached. */
  datatype Run = Run(result: Result<Value, Raised>, steps: seq<StepRecord>)

  function Prepend(r: StepRecord, rest: Run): Run
  {
    Run(rest.result, [r] + rest.steps)
  }

  /** `segment.check_inputs(previous, *args, **kwd)`; a pipe passes the call to its first
      segment. */
  function SegmentCheck(seg: Segment, previous: Option<string>, input: NextInput): Option<Raised>
    decreases seg
  {
    match seg
    case Base(_, _) => None
    case Custom(_, _, check, _) => check(previous, input)
    case Pipe(_, _, segments) =>
      if |segments| > 0 then SegmentCheck(segments[0], previous, input) else None
  }

  /** The string form of the segment processed before segment `i`. */
  function PreviousOf(pipe: Segment, i: nat): Option<string>
    requires pipe.Pipe? && i <= |pipe.segments|
  {
    if i == 0 then None else Some(Signature(pipe.segments[i - 1]))
  }

  /** `segment.process(*args, **kwd)`. */
  function SegmentProcess(seg: Segment, input: NextInput): Result<Value, Raised>
    decreases seg, 1, 0, 0
  {
    match seg
    case Base(_, _) => Ok(Next(Wrap([], map[])))
    case Custom(_, _, _, proc) => proc(input)
    case Pipe(_, _, _) => RunPipe(seg, input).result
  }

  /** `DataPipe.process(*args, **kwd)`. */
  function RunPipe(pipe: Segment, input: NextInput): Run
    requires pipe.Pipe?
    decreases pipe, 0, |pipe.segments| + 1, 0
  {
    RunFrom(pipe, 0, Next(input))
  }

  /** One loop iteration for segment `i`: normalise the data, check, and process only if the
      check did not raise. */
  function AttemptStep(pipe: Segment, i: nat, data: Value): StepRecord
    requires pipe.Pipe? && i < |pipe.segments|
    decreases pipe, 0, |pipe.segments| - i, 0
  {
    var input := Normalize(data);
    var previous := PreviousOf(pipe, i);
    match SegmentCheck(pipe.segments[i], previous, input)
    case Some(e) => StepRecord(previous, input, Some(e), None)
    case None => StepRecord(previous, input, None, Some(SegmentProcess(pipe.segments[i], input)))
  }

  /** The loop from segment `i` on, holding `data`. */
  function RunFrom(pipe: Segment, i: nat, data: Value): Run
    requires pipe.Pipe? && i <= |pipe.segments|
    decreases pipe, 0, |pipe.segments| - i, 1
  {
    if i == |pipe.segments| then Run(Ok(data), [])
    else
      var r := AttemptStep(pipe, i, data);
      match Failure(r)
      case Some(e) => Run(Err(e), [r])
      case None => Prepend(r, RunFrom(pipe, i + 1, DataAfter(r)))
  }

  /** The record segment `i` must have, given its input: the previous segment is the one before
      it, and `process` was called, on the same input, exactly when the check did not raise. */
  ghost predicate Genuine(pipe: Segment, i: nat, r: StepRecord)
    requires pipe.Pipe? && i < |pipe.segments|
  {
    && r.previous == PreviousOf(pipe, i)
    && r.checked == SegmentCheck(pipe.segments[i], r.previous, r.input)
    && r.processed == (if r.checked.None? then Some(SegmentProcess(pipe.segments[i], r.input)) else None)
  }

  /** One iteration: the step record is genuine and given the normalised data; a step that did
      not fail is followed by the run from the next segment, a failed one ends the run. */
  lemma RunFromUnfold(pipe: Segment, i: nat, data: Value)
    requires pipe.Pipe? && i < |pipe.segments|
    ensures var r := AttemptStep(pipe, i, data);
      && Genuine(pipe, i, r) && r.input == Normalize(data)
      && RunFrom(pipe, i, data) ==
           if Failure(r).None? then Prepend(r, RunFrom(pipe, i + 1, DataAfter(r)))
           else Run(Err(Failure(r).value), [r])
  {
  }

  // The loop of `DataPipe.process` is the same in `pypes.py`, so the proofs from here to
  // `DataPipe.CheckInputs` match those of `EarlyPypes`.

  /** The steps from segment `i` on: each genuine, the first given the normalised `data`, every
      step but the last without failure, and each next one given the data the previous left. */
  lemma {:induction false} StepsFrom(pipe: Segment, i: nat, data: Value)
    requires pipe.Pipe? && i <= |pipe.segments|
    ensures var r := RunFrom(pipe, i, data);
      && |r.steps| <= |pipe.segments| - i
      && (i < |pipe.segments| ==> |r.steps| > 0 && r.steps[0].input == Normalize(data))
      && (forall k :: 0 <= k < |r.steps| ==> Genuine(pipe, i + k, r.steps[k]))
      && (forall k :: 0 <= k < |r.steps| - 1 ==>
            Failure(r.steps[k]).None? && r.steps[k + 1].input == Normalize(DataAfter(r.steps[k])))
    decreases |pipe.segments| - i
  {
    if i < |pipe.segments| {
      var a := AttemptStep(pipe, i, data);
      RunFromUnfold(pipe, i, data);
      var r := RunFrom(pipe, i, data);
      if Failure(a).None? {
        var rest := RunFrom(pipe, i + 1, DataAfter(a));
        StepsFrom(pipe, i + 1, DataAfter(a));
        assert Genuine(pipe, i, a);
        StepsCons(pipe, i, a, rest.steps);
      }
    }
  }

  /** Prepending a genuine step without failure to a chain of genuine steps that starts with
      the data it left gives a chain again. */
  lemma StepsCons(pipe: Segment, i: nat, first: StepRecord, steps: seq<StepRecord>)
    requires pipe.Pipe? && i < |pipe.segments| && |steps| <= |pipe.segments| - i - 1
    requires Genuine(pipe, i, first) && Failure(first).None?
    requires |steps| > 0 ==> steps[0].input == Normalize(DataAfter(first))
    requires forall k :: 0 <= k < |steps| ==> Genuine(pipe, i + 1 + k, steps[k])
    requires forall k :: 0 <= k < |steps| - 1 ==>
      Failure(steps[k]).None? && steps[k + 1].input == Normalize(DataAfter(steps[k]))
    ensures var all := [first] + steps;
      && (forall k :: 0 <= k < |all| ==> Genuine(pipe, i + k, all[k]))
      && (forall k :: 0 <= k < |all| - 1 ==>
            Failure(all[k]).None? && all[k + 1].input == Normalize(DataAfter(all[k])))
  {
    var all := [first] + steps;
    forall k | 0 <= k < |all| ensures Genuine(pipe, i + k, all[k]) {
      if k > 0 {
        assert all[k] == steps[k - 1] && i + k == i + 1 + (k - 1);
      }
    }
    forall k | 0 <= k < |all| - 1
      ensures Failure(all[k]).None? && all[k + 1].input == Normalize(DataAfter(all[k]))
    {
      if k > 0 {
        assert all[k] == steps[k - 1] && all[k + 1] == steps[k];
      }
    }
  }

  /** How a run from segment `i` ends: it returns exactly when every remaining segment was
      reached and none failed, with the data the last step left; otherwise it raises the last
      step's failure. */
  lemma {:induction false} OutcomeFrom(pipe: Segment, i: nat, data: Value)
    requires pipe.Pipe? && i <= |pipe.segments|
    ensures var r := RunFrom(pipe, i, data);
      && (r.result.Ok? <==>
            |r.steps| == |pipe.segments| - i && (|r.steps| == 0 || Failure(r.steps[|r.steps| - 1]).None?))
      && (r.result.Ok? ==>
            r.result.value == if |r.steps| == 0 then data else DataAfter(r.steps[|r.steps| - 1]))
      && (r.result.Err? ==>
            |r.steps| > 0 && Failure(r.steps[|r.steps| - 1]) == Some(r.result.error))
    decreases |pipe.segments| - i
  {
    if i < |pipe.segments| {
      var a := AttemptStep(pipe, i, data);
      var r := RunFrom(pipe, i, data);
      RunFromUnfold(pipe, i, data);
      if Failure(a).None? {
        var rest := RunFrom(pipe, i + 1, DataAfter(a));
        OutcomeFrom(pipe, i + 1, DataAfter(a));
        StepsFrom(pipe, i + 1, DataAfter(a));
        if |rest.steps| > 0 {
          assert r.steps[|r.steps| - 1] == rest.steps[|rest.steps| - 1];
        }
      }
    }
  }

  /** The whole pipe, with no error boundary: segments are visited in order, each given the
      previous segment and the data the previous step left; the first failure, in a check or in
      `process`, is raised and no later segment is reached; otherwise the pipe returns the data
      the last step left, or its own call's arguments when it has no segments. */
  lemma RunPipeCharacterized(pipe: Segment, input: NextInput)
    requires pipe.Pipe?
    ensures var r := RunPipe(pipe, input);
      && |r.steps| <= |pipe.segments|
      && (|pipe.segments| > 0 ==> |r.steps| > 0 && r.steps[0].input == input)
      && (forall k :: 0 <= k < |r.steps| ==> Genuine(pipe, k, r.steps[k]))
      && (forall k :: 0 <= k < |r.steps| - 1 ==>
            Failure(r.steps[k]).None? && r.steps[k + 1].input == Normalize(DataAfter(r.steps[k])))
      && (r.result.Ok? <==>
            |r.steps| == |pipe.segments| && forall k :: 0 <= k < |r.steps| ==> Failure(r.steps[k]).None?)
      && (r.result.Ok? ==>
            r.result.value == if |r.steps| == 0 then Next(input) else DataAfter(r.steps[|r.steps| - 1]))
      && (r.result.Err? ==>
            |r.steps| > 0 && Failure(r.steps[|r.steps| - 1]) == Some(r.result.error))
  {
    StepsFrom(pipe, 0, Next(input));
    OutcomeFrom(pipe, 0, Next(input));
  }

  /** An empty pipe returns its own call's arguments as an envelope and its check does nothing;
      a non-empty one hands the check to its first segment with the same arguments. */
  lemma EmptyPipeIsIdentity(pipe: Segment, previous: Option<string>, input: NextInput)
    requires pipe.Pipe?
    ensures |pipe.segments| == 0 ==>
      RunPipe(pipe, input) == Run(Ok(Next(input)), []) && SegmentCheck(pipe, previous, input).None?
    ensures |pipe.segments| > 0 ==>
      SegmentCheck(pipe, previous, input) == SegmentCheck(pipe.segments[0], previous, input)
  {
  }

  /** The default `process` ignores its arguments and returns an empty envelope, so a default
      segment anywhere but first in a pipe receives no arguments at all. */
  lemma {:induction false} DefaultsFrom(pipe: Segment, i: nat, data: Value)
    requires pipe.Pipe? && i <= |pipe.segments|
    requires forall k :: 0 <= k < |pipe.segments| ==> pipe.segments[k].Base?
    ensures var r := RunFrom(pipe, i, data);
      && r.result == Ok(if i == |pipe.segments| then data else Next(Empty))
      && |r.steps| == |pipe.segments| - i
      && forall k :: 1 <= k < |r.steps| ==> r.steps[k].input == Empty
    decreases |pipe.segments| - i
  {
    if i < |pipe.segments| {
      var a := AttemptStep(pipe, i, data);
      assert SegmentProcess(pipe.segments[i], Normalize(data)) == Ok(Next(Empty));
      RunFromUnfold(pipe, i, data);
      DefaultsFrom(pipe, i + 1, Next(Empty));
      var r := RunFrom(pipe, i, data);
      var rest := RunFrom(pipe, i + 1, Next(Empty));
      if i + 1 < |pipe.segments| {
        StepsFrom(pipe, i + 1, Next(Empty));
      }
      forall k | 1 <= k < |r.steps| ensures r.steps[k].input == Empty {
        assert r.steps[k] == rest.steps[k - 1];
        if k == 1 {
          StepsFrom(pipe, i + 1, Next(Empty));
        }
      }
    }
  }

  /** A non-empty pipe of default segments returns the empty envelope whatever it is given. */
  lemma DefaultsReturnEmpty(pipe: Segment, input: NextInput)
    requires pipe.Pipe? && |pipe.segments| > 0
    requires forall k :: 0 <= k < |pipe.segments| ==> pipe.segments[k].Base?
    ensures RunPipe(pipe, input).result == Ok(Next(NextInput([], map[])))
  {
    DefaultsFrom(pipe, 0, Next(input));
  }

  /** The docstring of `PipeSegment`: the default check does nothing and `process()` returns
      `NextInput(args=(), kwd={})`; the default name is `'default'`. */
  lemma SegmentDocstring()
    ensures SegmentCheck(NewSegment(Some("log-signature")), None, Empty).None?
    ensures SegmentProcess(NewSegment(Some("log-signature")), Empty) == Ok(Next(NextInput([], map[])))
    ensures Signature(NewSegment(Some("log-signature"))) == "PipeSegment.log-signature"
    ensures Signature(NewSegment(None)) == "PipeSegment.default"
  {
  }

  /** `FirstDemoProcess(name)` of the demo. */
  function FirstDemoProcess(name: string): Segment
  {
    Custom("FirstDemoProcess", name, NoCheck, WorkStuff)
  }

  /** `SecondDemoProcess(name)` of the demo: concatenates `some` with a string. */
  function SecondDemoProcess(name: string): Segment
  {
    Custom("SecondDemoProcess", name, NoCheck, (input: NextInput) => Preprocess("SecondDemoProcess." + name, true, input))
  }

  /** The pipe `p` of the demo. */
  function DemoPipe(): Segment
  {
    NewPipe(Some([FirstDemoProcess("one"), SecondDemoProcess("two"), FirstDemoProcess("three")]), Some("demopipe"))
  }

  const Worked := Plain(Str("Stuff was worked..."))

  const Preprocessed := NextInput([], map["stuff" := Plain(Str("Preprocessed by SecondDemoProcess.two."))])

  lemma DemoFirst()
    ensures AttemptStep(DemoPipe(), 0, Next(NextInput([Plain(Str("Initial Stuff."))], map[])))
      == StepRecord(None, NextInput([Plain(Str("Initial Stuff."))], map[]), None, Some(Ok(Worked)))
  {
    assert DemoPipe().segments[0] == FirstDemoProcess("one");
    assert BindStuff(NextInput([Plain(Str("Initial Stuff."))], map[])).Some?;
  }

  lemma DemoSecondProcess()
    ensures SegmentProcess(SecondDemoProcess("two"), NextInput([Worked], map[])) == Ok(Next(Preprocessed))
  {
    assert "SecondDemoProcess." + "two" == "SecondDemoProcess.two";
    PreprocessWorked();
  }

  lemma DemoSecond()
    ensures AttemptStep(DemoPipe(), 1, Worked)
      == StepRecord(Some("FirstDemoProcess.one"), NextInput([Worked], map[]), None, Some(Ok(Next(Preprocessed))))
  {
    var pipe := DemoPipe();
    assert pipe.segments[0] == FirstDemoProcess("one") && pipe.segments[1] == SecondDemoProcess("two");
    assert Signature(pipe.segments[0]) == "FirstDemoProcess.one";
    DemoSecondProcess();
  }

  lemma DemoThird()
    ensures AttemptStep(DemoPipe(), 2, Next(Preprocessed))
      == StepRecord(Some("SecondDemoProcess.two"), Preprocessed, None, Some(Ok(Worked)))
  {
    var pipe := DemoPipe();
    assert pipe.segments[1] == SecondDemoProcess("two") && pipe.segments[2] == FirstDemoProcess("three");
    assert Signature(pipe.segments[1]) == "SecondDemoProcess.two";
    assert Preprocessed.kwd.Keys == {"stuff"};
    assert BindStuff(Preprocessed).Some?;
  }

  /** `demo()`: "one" returns a plain string, which "two" receives as its sole positional
      argument; "two" returns an envelope with only `stuff=`, with which "three" is called; the
      final result is "three"'s string. */
  lemma DemoRun()
    ensures var r := RunPipe(DemoPipe(), NextInput([Plain(Str("Initial Stuff."))], map[]));
      && r.result == Ok(Plain(Str("Stuff was worked...")))
      && |r.steps| == 3
      && r.steps[1].input == NextInput([Plain(Str("Stuff was worked..."))], map[])
      && r.steps[2].input == NextInput([], map["stuff" := Plain(Str("Preprocessed by SecondDemoProcess.two."))])
  {
    var pipe := DemoPipe();
    var start := NextInput([Plain(Str("Initial Stuff."))], map[]);
    DemoFirst();
    DemoSecond();
    DemoThird();
    var a0 := AttemptStep(pipe, 0, Next(start));
    var a1 := AttemptStep(pipe, 1, Worked);
    var a2 := AttemptStep(pipe, 2, Next(Preprocessed));
    RunFromUnfold(pipe, 0, Next(start));
    RunFromUnfold(pipe, 1, Worked);
    RunFromUnfold(pipe, 2, Next(Preprocessed));
    assert RunFrom(pipe, 3, Worked) == Run(Ok(Worked), []);
    assert RunFrom(pipe, 2, Next(Preprocessed)).steps == [a2];
    assert RunFrom(pipe, 1, Worked).steps == [a1, a2];
    assert RunFrom(pipe, 0, Next(start)).steps == [a0, a1, a2];
  }

  /** `DataPipe`: its fields, and `process` as the `for` loop of `DataPipe.process`. */
  class DataPipe {
    var name: string
    var segments: seq<Segment>

    constructor (segments: Option<seq<Segment>>, name: Option<string>)
      ensures this.name == InitName(name)
      ensures this.segments == if segments.Some? then segments.value else []
    {
      this.name := InitName(name);
      this.segments := if segments.Some? then segments.value else [];
    }

    /** This pipe as a segment of another. */
    function AsSegment(): (s: Segment)
      reads this
      ensures s.Pipe? && s.segments == segments && Signature(s) == "DataPipe." + name
    {
      Pipe("DataPipe", name, segments)
    }

    /** `DataPipe.check_inputs`: the first segment's check, or nothing when there is none. */
    function CheckInputs(previous: Option<string>, input: NextInput): (r: Option<Raised>)
      reads this
      ensures |segments| == 0 ==> r.None?
      ensures |segments| > 0 ==> r == SegmentCheck(segments[0], previous, input)
    {
      SegmentCheck(AsSegment(), previous, input)
    }

    /** `DataPipe.process`. */
    method Process(input: NextInput) returns (run: Run)
      ensures run == RunPipe(AsSegment(), input)
    {
      var steps: seq<StepRecord> := [];
      var data := Next(input);
      var previous: Option<string> := None;
      for idx := 0 to |segments|
        invariant previous == PreviousOf(AsSegment(), idx)
        invariant RunPipe(AsSegment(), input) == Run(RunFrom(AsSegment(), idx, data).result, steps + RunFrom(AsSegment(), idx, data).steps)
      {
        ghost var pipe := AsSegment();
        RunFromUnfold(pipe, idx, data);
        var segment := segments[idx];
        if !data.Next? {
          data := Next(NextInput([data], map[]));
        }
        var record := StepRecord(previous, data.input, None, None);
        var checked := SegmentCheck(segment, previous, data.input);
        if checked.Some? {
          record := record.(checked := checked);
          return Run(Err(checked.value), steps + [record]);
        }
        var result := SegmentProcess(segment, data.input);
        record := record.(processed := Some(result));
        steps := steps + [record];
        if result.Err? {
          return Run(Err(result.error), steps);
        }
        assert steps + RunFrom(pipe, idx + 1, result.value).steps
          == (steps[..|steps| - 1]) + ([record] + RunFrom(pipe, idx + 1, result.value).steps);
        data := result.value;
        previous := Some(Signature(segment));
      }
      return Run(Ok(data), steps);
    }
  }
}
