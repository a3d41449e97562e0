/** The recursive meaning of a template, and the proof that the renderer's stack of branches computes it. */
module TemplateTrees {
  import opened Common
  import opened TemplateRenderer

  /** A template as nested branches. A branch has a body and any number of else bodies. */
  datatype Nodes = Empty | More(before: Nodes, node: Node)

  datatype Node =
    | Leaf(token: Token)
    | Choice(condition: Option<Condition>, body: Nodes, elses: Elses)

  datatype Elses = NoElse | OneMore(earlier: Elses, last: Nodes)

  predicate IsLeaf(t: Token) {
    !t.If? && !t.Else? && !t.Close?
  }

  predicate Proper(nodes: Nodes) {
    nodes.More? ==> Proper(nodes.before) && ProperNode(nodes.node)
  }

  predicate ProperNode(node: Node) {
    match node
    case Leaf(token) => IsLeaf(token)
    case Choice(_, body, elses) => Proper(body) && ProperElses(elses)
  }

  predicate ProperElses(elses: Elses) {
    elses.OneMore? ==> ProperElses(elses.earlier) && Proper(elses.last)
  }

  // ---- As tokens ----

  function Flatten(nodes: Nodes): seq<Token> {
    match nodes
    case Empty => []
    case More(before, node) => Flatten(before) + FlattenNode(node)
  }

  function FlattenNode(node: Node): seq<Token> {
    match node
    case Leaf(token) => [token]
    case Choice(condition, body, elses) => [If(condition)] + Flatten(body) + FlattenElses(elses) + [Close]
  }

  function FlattenElses(elses: Elses): seq<Token> {
    match elses
    case NoElse => []
    case OneMore(earlier, last) => FlattenElses(earlier) + [Else] + Flatten(last)
  }

  // ---- As text ----

  type Rendering = Result<string, Error>

  function Append(a: Rendering, b: Rendering): Rendering {
    if a.Err? then a else if b.Err? then b else Ok(a.value + b.value)
  }

  function RenderLeaf(token: Token, active: bool, values: Values): Rendering {
    match token
    case Literal(text) => Ok(if active then text else "")
    case Interpolate(name) =>
      if !active then Ok("")
      else if name == None then Err(InterpolationNotAllowed)
      else Ok(Interpolation(values, name.value))
    case Other => Err(ExpressionNotAllowed)
    case _ => Ok("")
  }

  /** The meaning of a template where it is shown (`active`) and where it is not: text and
      interpolations vanish, but conditions and tags are still checked. */
  function Render(nodes: Nodes, active: bool, values: Values): Rendering {
    match nodes
    case Empty => Ok("")
    case More(before, node) => Append(Render(before, active, values), RenderNode(node, active, values))
  }

  function RenderNode(node: Node, active: bool, values: Values): Rendering {
    match node
    case Leaf(token) => RenderLeaf(token, active, values)
    case Choice(condition, body, elses) =>
      if condition == None then Err(ConditionNotAllowed)
      else
        var holds := Holds(condition.value, values);
        Append(Render(body, active && holds, values), RenderElses(elses, active && !holds, values))
  }

  /** Every else body is shown when the condition fails. */
  function RenderElses(elses: Elses, active: bool, values: Values): Rendering {
    match elses
    case NoElse => Ok("")
    case OneMore(earlier, last) => Append(RenderElses(earlier, active, values), Render(last, active, values))
  }

  // ---- The loop on a flattened tree ----

  function Joined(a: string, b: string): (r: string)
    ensures b == "" ==> r == a
  {
    a + b
  }

  /** Some tokens add exactly a rendering's text, or fail with its error, and leave the open branches
      as they were. */
  ghost predicate Adds(s: State, tokens: seq<Token>, r: Rendering, values: Values) {
    var after := Exec(Ok(s), tokens, values);
    if r.Err? then after == Err(r.error)
    else after.Ok? && after.value.stack == s.stack && after.value.output == Joined(s.output, r.value)
  }

  /** Besides, they leave the template shown or hidden as it was. */
  ghost predicate AddsHere(s: State, tokens: seq<Token>, r: Rendering, values: Values) {
    && Adds(s, tokens, r, values)
    && (r.Ok? ==> Exec(Ok(s), tokens, values).value.active == s.active)
  }

  lemma AddsBoth(s: State, a: seq<Token>, b: seq<Token>, x: Rendering, y: Rendering, values: Values)
    requires Adds(s, a, x, values)
    requires x.Ok? ==> Adds(Exec(Ok(s), a, values).value, b, y, values)
    ensures Adds(s, a + b, Append(x, y), values)
    ensures Exec(Ok(s), a + b, values) == Exec(Exec(Ok(s), a, values), b, values)
  {
    ExecConcat(Ok(s), a, b, values);
    if x.Err? {
      ErrorsStay(Err(x.error), b, values);
    } else if y.Ok? {
      assert s.output + x.value + y.value == s.output + (x.value + y.value);
    }
  }

  lemma ExecOne(s: State, token: Token, values: Values)
    ensures Exec(Ok(s), [token], values) == Step(s, token, values)
  {
    assert [token][..0] == [];
  }

  lemma {:induction false} NodesAdd(s: State, nodes: Nodes, values: Values)
    requires Proper(nodes)
    ensures AddsHere(s, Flatten(nodes), Render(nodes, s.active, values), values)
    decreases nodes, 0
  {
    match nodes
    case Empty =>
    case More(before, node) =>
      NodesAdd(s, before, values);
      var x := Render(before, s.active, values);
      if x.Ok? {
        NodeAdds(Exec(Ok(s), Flatten(before), values).value, node, values);
      }
      AddsBoth(s, Flatten(before), FlattenNode(node), x, RenderNode(node, s.active, values), values);
  }

  lemma {:induction false} NodeAdds(s: State, node: Node, values: Values)
    requires ProperNode(node)
    ensures AddsHere(s, FlattenNode(node), RenderNode(node, s.active, values), values)
    decreases node, 1
  {
    match node
    case Leaf(token) => ExecOne(s, token, values);
    case Choice(condition, body, elses) =>
      var tokens := Flatten(body) + FlattenElses(elses);
      assert FlattenNode(node) == [If(condition)] + (tokens + [Close]);
      ExecConcat(Ok(s), [If(condition)], tokens + [Close], values);
      ExecOne(s, If(condition), values);
      if condition == None {
        ErrorsStay(Err(ConditionNotAllowed), tokens + [Close], values);
      } else {
        var top := Branch(s.active, Holds(condition.value, values));
        BodiesAdd(State(s.stack + [top], top.parentActive && top.condition, s.output), top, node, values);
        CloseRestores(s, top, tokens, RenderNode(node, s.active, values), values);
      }
  }

  lemma {:induction false} BodiesAdd(s: State, top: Branch, node: Node, values: Values)
    requires ProperNode(node) && node.Choice?
    requires s.stack != [] && s.stack[|s.stack| - 1] == top && s.active == (top.parentActive && top.condition)
    ensures Adds(s, Flatten(node.body) + FlattenElses(node.elses),
                 Append(Render(node.body, s.active, values), RenderElses(node.elses, ElseShown(top), values)), values)
    decreases node, 0
  {
    NodesAdd(s, node.body, values);
    var x := Render(node.body, s.active, values);
    if x.Ok? {
      ElsesAdd(Exec(Ok(s), Flatten(node.body), values).value, top, node.elses, values);
    }
    AddsBoth(s, Flatten(node.body), FlattenElses(node.elses), x, RenderElses(node.elses, ElseShown(top), values),
             values);
  }

  /** Whether the else bodies of a branch are shown. */
  predicate ElseShown(top: Branch) {
    top.parentActive && !top.condition
  }

  lemma CloseRestores(s: State, top: Branch, tokens: seq<Token>, r: Rendering, values: Values)
    requires top.parentActive == s.active
    requires Adds(State(s.stack + [top], s.active && top.condition, s.output), tokens, r, values)
    ensures var inside := State(s.stack + [top], s.active && top.condition, s.output);
      var after := Exec(Ok(inside), tokens + [Close], values);
      if r.Err? then after == Err(r.error) else after == Ok(State(s.stack, s.active, Joined(s.output, r.value)))
  {
    var inside := State(s.stack + [top], s.active && top.condition, s.output);
    ExecConcat(Ok(inside), tokens, [Close], values);
    if r.Err? {
      ErrorsStay(Err(r.error), [Close], values);
    } else {
      ExecOne(Exec(Ok(inside), tokens, values).value, Close, values);
    }
  }

  lemma {:induction false} ElsesAdd(s: State, top: Branch, elses: Elses, values: Values)
    requires ProperElses(elses) && s.stack != [] && s.stack[|s.stack| - 1] == top
    ensures Adds(s, FlattenElses(elses), RenderElses(elses, ElseShown(top), values), values)
    decreases elses, 0
  {
    match elses
    case NoElse =>
    case OneMore(earlier, last) =>
      ElsesAdd(s, top, earlier, values);
      var x := RenderElses(earlier, ElseShown(top), values);
      if x.Ok? {
        SectionAdds(Exec(Ok(s), FlattenElses(earlier), values).value, top, last, values);
      }
      AddsBoth(s, FlattenElses(earlier), [Else] + Flatten(last), x, Render(last, ElseShown(top), values), values);
      assert FlattenElses(elses) == FlattenElses(earlier) + ([Else] + Flatten(last));
  }

  lemma {:induction false} SectionAdds(s: State, top: Branch, section: Nodes, values: Values)
    requires Proper(section) && s.stack != [] && s.stack[|s.stack| - 1] == top
    ensures Adds(s, [Else] + Flatten(section), Render(section, ElseShown(top), values), values)
    decreases section, 1
  {
    ExecConcat(Ok(s), [Else], Flatten(section), values);
    ExecOne(s, Else, values);
    NodesAdd(s.(active := ElseShown(top)), section, values);
  }

  /** On the tags of any tree the loop gives exactly the tree's meaning. */
  lemma LoopIsMeaning(nodes: Nodes, values: Values)
    requires Proper(nodes)
    ensures Rendered(Flatten(nodes), values) == Render(nodes, true, values)
  {
    NodesAdd(START, nodes, values);
    var r := Render(nodes, true, values);
    assert r.Ok? ==> "" + r.value == r.value;
  }
}
