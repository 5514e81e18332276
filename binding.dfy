/** The bodies of the demo segments that all three revisions ship: how Python binds an envelope
    to their parameter lists, and what they return. Their own log calls are not modelled. */
module Binding {
  import opened Values

  /** The binding of `def process(self, stuff)`: one argument, by position or as `stuff=`. */
  function BindStuff(input: NextInput): Option<Value>
  {
    if |input.args| == 1 && input.kwd == map[] then Some(input.args[0])
    else if |input.args| == 0 && input.kwd.Keys == {"stuff"} then Some(input.kwd["stuff"])
    else None
  }

  /** The binding of `def process(self, some, more=None)`: the value bound to `some`. */
  function BindSome(input: NextInput): Option<Value>
  {
    if |input.args| > 2 || !(input.kwd.Keys <= {"some", "more"}) then None
    else if |input.args| >= 1 && "some" in input.kwd then None
    else if |input.args| == 2 && "more" in input.kwd then None
    else if |input.args| >= 1 then Some(input.args[0])
    else if "some" in input.kwd then Some(input.kwd["some"])
    else None
  }

  /** What a call with arguments the parameters do not accept, `str + x` with a non-string `x`,
      or `%` formatting with the wrong number of values, raises. */
  const TypeError := Raised("TypeError", "arguments not accepted", true)

  /** The inherited `check_inputs`, which never raises. */
  function NoCheck(previous: Option<string>, input: NextInput): Option<Raised>
  {
    None
  }

  /** `FirstDemoProcess.process(self, stuff)`: a constant string. The body first formats
      `'... %s' % stuff`; an envelope is a 2-tuple, so that formatting raises a `TypeError`. */
  function WorkStuff(input: NextInput): (r: Result<Value, Raised>)
    ensures r.Ok? <==> BindStuff(input).Some? && !BindStuff(input).value.Next?
    ensures r.Ok? ==> r.value == Plain(Str("Stuff was worked..."))
    ensures r.Err? ==> r.error == TypeError
  {
    var stuff := BindStuff(input);
    if stuff.Some? && stuff.value.Plain? then Ok(Plain(Str("Stuff was worked..."))) else Err(TypeError)
  }

  /** `SecondDemoProcess.process(self, some, more=None)`: an envelope holding only
      `stuff='Preprocessed by <self>.'`. When `concat` holds the body first evaluates
      `some + ' %s'`, so `some` must be a string. */
  function Preprocess(self: string, concat: bool, input: NextInput): (r: Result<Value, Raised>)
    ensures r.Ok? <==> BindSome(input).Some? && (concat ==> BindSome(input).value.Plain? && BindSome(input).value.atom.Str?)
    ensures r.Ok? ==> r.value == Next(NextInput([], map["stuff" := Plain(Str("Preprocessed by " + self + "."))]))
  {
    var some := BindSome(input);
    if some.Some? && (concat ==> some.value.Plain? && some.value.atom.Str?)
    then Ok(Next(Wrap([], map["stuff" := Plain(Str("Preprocessed by " + self + "."))])))
    else Err(TypeError)
  }

  /** The demo pipeline's second step: "two" given the string the first segment returned. */
  lemma PreprocessWorked()
    ensures Preprocess("SecondDemoProcess.two", true, NextInput([Plain(Str("Stuff was worked..."))], map[]))
            == Ok(Next(NextInput([], map["stuff" := Plain(Str("Preprocessed by SecondDemoProcess.two."))])))
  {
    assert BindSome(NextInput([Plain(Str("Stuff was worked..."))], map[])) == Some(Plain(Str("Stuff was worked...")));
    PreprocessedText();
  }

  lemma PreprocessedText()
    ensures "Preprocessed by " + "SecondDemoProcess.two" + "." == "Preprocessed by SecondDemoProcess.two."
  {
    assert "Preprocessed by " + "SecondDemoProcess.two" == "Preprocessed by SecondDemoProcess.two";
  }
}
