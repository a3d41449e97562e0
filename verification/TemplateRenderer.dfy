/** The template renderer of `src/macroSettings.ts`, from its tags on: a loop over a stack of open
    branches, and the recursive meaning it has. */
module TemplateRenderer {
  import opened Common

  /** A macro field's value; a number comes with the text JavaScript prints for it. */
  datatype Value = Text(text: string) | Flag(flag: bool) | Number(number: real, printed: string)

  datatype Condition = Condition(name: string, literal: Option<Value>, negated: bool)

  /** The text between tags, and the tags. A name or a condition is missing when it is not of the
      allowed form. */
  datatype Token =
    | Literal(text: string)
    | Interpolate(name: Option<string>)
    | If(condition: Option<Condition>)
    | Else
    | Close
    | Blank
    | Other

  datatype Error =
    | UnmatchedElse | UnmatchedClose | Unterminated
    | ExpressionNotAllowed | InterpolationNotAllowed | ConditionNotAllowed

  type Values = map<string, Value>

  function Shown(v: Value): string {
    match v
    case Text(text) => text
    case Flag(flag) => if flag then "true" else "false"
    case Number(_, printed) => printed
  }

  /** `===` between a field that may be absent and a literal that may be null. */
  predicate Equal(actual: Option<Value>, expected: Option<Value>) {
    match (actual, expected)
    case (Some(Number(a, _)), Some(Number(b, _))) => a == b
    case (Some(a), Some(b)) => a == b
    case _ => false
  }

  function Lookup(values: Values, name: string): Option<Value> {
    if name in values then Some(values[name]) else None
  }

  predicate Holds(c: Condition, values: Values) {
    Equal(Lookup(values, c.name), c.literal) != c.negated
  }

  function Interpolation(values: Values, name: string): string {
    if name in values then Shown(values[name]) else ""
  }

  // ---- The loop ----

  datatype Branch = Branch(parentActive: bool, condition: bool)

  datatype State = State(stack: seq<Branch>, active: bool, output: string)

  type Outcome = Result<State, Error>

  function Emit(s: State, text: string): State {
    if s.active then s.(output := s.output + text) else s
  }

  function Step(s: State, token: Token, values: Values): Outcome {
    match token
    case Literal(text) => Ok(Emit(s, text))
    case Interpolate(name) =>
      if !s.active then Ok(s)
      else if name == None then Err(InterpolationNotAllowed)
      else Ok(Emit(s, Interpolation(values, name.value)))
    case If(condition) =>
      if condition == None then Err(ConditionNotAllowed)
      else
        var holds := Holds(condition.value, values);
        Ok(State(s.stack + [Branch(s.active, holds)], s.active && holds, s.output))
    case Else =>
      if s.stack == [] then Err(UnmatchedElse)
      else
        var top := s.stack[|s.stack| - 1];
        Ok(s.(active := top.parentActive && !top.condition))
    case Close =>
      if s.stack == [] then Err(UnmatchedClose)
      else Ok(s.(stack := s.stack[..|s.stack| - 1], active := s.stack[|s.stack| - 1].parentActive))
    case Blank => Ok(s)
    case Other => Err(ExpressionNotAllowed)
  }

  /** All tokens in turn, up to the first error. */
  function Exec(s: Outcome, tokens: seq<Token>, values: Values): Outcome
    decreases |tokens|
  {
    if tokens == [] then s
    else
      var n := |tokens| - 1;
      var before := Exec(s, tokens[..n], values);
      if before.Err? then before else Step(before.value, tokens[n], values)
  }

  const START := State([], true, "")

  function Finish(s: Outcome): Result<string, Error> {
    if s.Err? then Err(s.error)
    else if s.value.stack != [] then Err(Unterminated)
    else Ok(s.value.output)
  }

  /** What the loop computes, as a function. */
  function Rendered(tokens: seq<Token>, values: Values): Result<string, Error> {
    Finish(Exec(Ok(START), tokens, values))
  }

  lemma {:induction false} ErrorsStay(s: Outcome, tokens: seq<Token>, values: Values)
    requires s.Err?
    ensures Exec(s, tokens, values) == s
    decreases |tokens|
  {
    if tokens != [] {
      ErrorsStay(s, tokens[..|tokens| - 1], values);
    }
  }

  lemma {:induction false} ExecConcat(s: Outcome, a: seq<Token>, b: seq<Token>, values: Values)
    ensures Exec(s, a + b, values) == Exec(Exec(s, a, values), b, values)
    decreases |b|
  {
    if b == [] {
      assert a + b == a;
    } else {
      var n := |b| - 1;
      assert (a + b)[..|a| + n] == a + b[..n];
      ExecConcat(s, a, b[..n], values);
    }
  }

  method RenderSafeEtaTemplate(tokens: seq<Token>, values: Values) returns (r: Result<string, Error>)
    ensures r == Rendered(tokens, values)
  {
    var stack: seq<Branch> := [];
    var active := true;
    var output := "";
    for i := 0 to |tokens|
      invariant Exec(Ok(START), tokens[..i], values) == Ok(State(stack, active, output))
    {
      ghost var done := tokens[..i + 1];
      assert done[..i] == tokens[..i] && tokens == done + tokens[i + 1..];
      ExecConcat(Ok(START), done, tokens[i + 1..], values);
      match tokens[i] {
        case Literal(text) =>
          if active { output := output + text; }
        case Interpolate(name) =>
          if active {
            if name == None {
              ErrorsStay(Err(InterpolationNotAllowed), tokens[i + 1..], values);
              return Err(InterpolationNotAllowed);
            }
            output := output + Interpolation(values, name.value);
          }
        case If(condition) =>
          if condition == None {
            ErrorsStay(Err(ConditionNotAllowed), tokens[i + 1..], values);
            return Err(ConditionNotAllowed);
          }
          var holds := Holds(condition.value, values);
          stack := stack + [Branch(active, holds)];
          active := active && holds;
        case Else =>
          if stack == [] {
            ErrorsStay(Err(UnmatchedElse), tokens[i + 1..], values);
            return Err(UnmatchedElse);
          }
          var top := stack[|stack| - 1];
          active := top.parentActive && !top.condition;
        case Close =>
          if stack == [] {
            ErrorsStay(Err(UnmatchedClose), tokens[i + 1..], values);
            return Err(UnmatchedClose);
          }
          active := stack[|stack| - 1].parentActive;
          stack := stack[..|stack| - 1];
        case Blank =>
        case Other =>
          ErrorsStay(Err(ExpressionNotAllowed), tokens[i + 1..], values);
          return Err(ExpressionNotAllowed);
      }
    }
    assert tokens[..|tokens|] == tokens;
    if stack != [] {
      return Err(Unterminated);
    }
    return Ok(output);
  }
}
