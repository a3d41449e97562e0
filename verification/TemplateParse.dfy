/** Which token sequences are templates: every sequence of tags is either the tags of exactly one tree
    or rejected by the renderer. */
module TemplateParse {
  import opened Common
  import opened TemplateRenderer
  import opened TemplateTrees

  /** How many branches are open after some tokens, unless an else or a closing tag had none to
      belong to. */
  function Height(tokens: seq<Token>): Option<nat>
    decreases |tokens|
  {
    if tokens == [] then Some(0)
    else
      var n := |tokens| - 1;
      var h := Height(tokens[..n]);
      if h == None then None
      else if tokens[n].If? then Some(h.value + 1)
      else if tokens[n].Else? then if h.value == 0 then None else h
      else if tokens[n].Close? then if h.value == 0 then None else Some(h.value - 1)
      else h
  }

  /** Every else and every closing tag has an open branch, and every branch is closed. */
  predicate Balanced(tokens: seq<Token>) {
    Height(tokens) == Some(0)
  }

  // ---- A tree for every balanced sequence ----

  /** The open branches around a point, innermost last: what came before each, and its finished bodies. */
  datatype Frames =
    | Bottom
    | Push(below: Frames, before: Nodes, condition: Option<Condition>, body: Option<Nodes>, elses: Elses)

  datatype Builder = Builder(frames: Frames, current: Nodes)

  /** Ends the body under construction. */
  function Shelve(f: Frames, current: Nodes): Frames
    requires f.Push?
  {
    if f.body == None then f.(body := Some(current)) else f.(elses := OneMore(f.elses, current))
  }

  function Add(b: Builder, token: Token): Option<Builder> {
    match token
    case If(condition) => Some(Builder(Push(b.frames, b.current, condition, None, NoElse), Empty))
    case Else => if b.frames.Bottom? then None else Some(Builder(Shelve(b.frames, b.current), Empty))
    case Close =>
      if b.frames.Bottom? then None
      else
        var f := Shelve(b.frames, b.current);
        Some(Builder(f.below, More(f.before, Choice(f.condition, f.body.value, f.elses))))
    case _ => Some(b.(current := More(b.current, Leaf(token))))
  }

  function Build(b: Builder, tokens: seq<Token>): Option<Builder>
    decreases |tokens|
  {
    if tokens == [] then Some(b)
    else
      var n := |tokens| - 1;
      var before := Build(b, tokens[..n]);
      if before == None then None else Add(before.value, tokens[n])
  }

  function TreeOf(tokens: seq<Token>): Option<Nodes> {
    var b := Build(Builder(Bottom, Empty), tokens);
    if b.Some? && b.value.frames.Bottom? then Some(b.value.current) else None
  }

  function Size(f: Frames): nat {
    if f.Bottom? then 0 else Size(f.below) + 1
  }

  function Spell(f: Frames): seq<Token> {
    match f
    case Bottom => []
    case Push(below, before, condition, body, elses) =>
      Spell(below) + Flatten(before) + [If(condition)]
      + if body == None then [] else Flatten(body.value) + FlattenElses(elses) + [Else]
  }

  predicate ProperFrames(f: Frames) {
    f.Push? ==>
      && ProperFrames(f.below) && Proper(f.before) && ProperElses(f.elses)
      && (f.body.Some? ==> Proper(f.body.value))
      && (f.body == None ==> f.elses == NoElse)
  }

  predicate ProperBuilder(b: Builder) {
    ProperFrames(b.frames) && Proper(b.current)
  }

  function Spelled(b: Builder): seq<Token> {
    Spell(b.frames) + Flatten(b.current)
  }

  lemma ShelveSpells(f: Frames, current: Nodes)
    requires f.Push? && ProperFrames(f) && Proper(current)
    ensures ProperFrames(Shelve(f, current)) && Spell(Shelve(f, current)) == Spell(f) + Flatten(current) + [Else]
  {
    var prefix := Spell(f.below) + Flatten(f.before) + [If(f.condition)];
    if f.body == None {
      assert Spell(f) == prefix;
      assert prefix + (Flatten(current) + [] + [Else]) == prefix + Flatten(current) + [Else];
    } else {
      ShelvedTwice(prefix, Flatten(f.body.value), FlattenElses(f.elses), Flatten(current));
    }
  }

  lemma ShelvedTwice(prefix: seq<Token>, body: seq<Token>, elses: seq<Token>, current: seq<Token>)
    ensures prefix + (body + elses + [Else]) + current + [Else] == prefix + (body + (elses + [Else] + current) + [Else])
  {
  }

  lemma AddSpells(b: Builder, token: Token)
    requires ProperBuilder(b)
    ensures Add(b, token).Some? ==>
      var r := Add(b, token).value;
      ProperBuilder(r) && Spelled(r) == Spelled(b) + [token]
  {
    if b.frames.Push? { ShelveSpells(b.frames, b.current); }
    match token
    case If(condition) => assert Spelled(b) + [token] == Spell(b.frames) + Flatten(b.current) + [token] + [] + [];
    case Else =>
    case Close =>
      if b.frames.Push? {
        CloseSpells(b, Shelve(b.frames, b.current));
      }
    case _ =>
      assert Flatten(More(b.current, Leaf(token))) == Flatten(b.current) + [token];
      assert Spelled(b) + [token] == Spell(b.frames) + (Flatten(b.current) + [token]);
  }

  lemma SameWithoutLast(a: seq<Token>, b: seq<Token>, x: Token)
    requires a + [x] == b + [x]
    ensures a == b
  {
    assert (a + [x])[..|a|] == a && (b + [x])[..|b|] == b;
  }

  lemma Regroup(a: seq<Token>, b: seq<Token>, c: seq<Token>, d: seq<Token>, e: seq<Token>, f: seq<Token>)
    ensures a + (b + (c + d + e + f)) == a + b + c + (d + e) + f
    ensures a + b + c + (d + e + f) == a + b + c + (d + e) + f
  {
  }

  lemma CloseSpells(b: Builder, f: Frames)
    requires f.Push? && f.body.Some? && Spell(f) == Spelled(b) + [Else]
    ensures Spell(f.below) + Flatten(More(f.before, Choice(f.condition, f.body.value, f.elses))) == Spelled(b) + [Close]
  {
    var body, elses := Flatten(f.body.value), FlattenElses(f.elses);
    var opening := Spell(f.below) + Flatten(f.before) + [If(f.condition)];
    Regroup(Spell(f.below), Flatten(f.before), [If(f.condition)], body, elses, [Else]);
    SameWithoutLast(opening + (body + elses), Spelled(b), Else);
    Regroup(Spell(f.below), Flatten(f.before), [If(f.condition)], body, elses, [Close]);
  }

  lemma AddCounts(b: Builder, token: Token)
    ensures Add(b, token) == None <==> (token.Else? || token.Close?) && b.frames.Bottom?
    ensures Add(b, token).Some? ==>
      Size(Add(b, token).value.frames)
        == Size(b.frames) + if token.If? then 1 else if token.Close? then -1 else 0
  {
  }

  lemma {:induction false} BuildSpells(tokens: seq<Token>)
    ensures var b := Build(Builder(Bottom, Empty), tokens);
      && (Height(tokens) == if b == None then None else Some(Size(b.value.frames)))
      && (b.Some? ==> ProperBuilder(b.value) && Spelled(b.value) == tokens)
    decreases |tokens|
  {
    if tokens != [] {
      var n := |tokens| - 1;
      BuildSpells(tokens[..n]);
      var b := Build(Builder(Bottom, Empty), tokens[..n]);
      if b.Some? {
        AddSpells(b.value, tokens[n]);
        AddCounts(b.value, tokens[n]);
      }
      assert tokens == tokens[..n] + [tokens[n]];
    }
  }

  /** A balanced sequence is the tags of a tree, the one the parser finds. */
  lemma BalancedIsATree(tokens: seq<Token>)
    ensures TreeOf(tokens).Some? <==> Balanced(tokens)
    ensures Balanced(tokens) ==> Proper(TreeOf(tokens).value) && Flatten(TreeOf(tokens).value) == tokens
  {
    BuildSpells(tokens);
    var b := Build(Builder(Bottom, Empty), tokens);
    if b.Some? && b.value.frames.Bottom? {
      assert Spelled(b.value) == Flatten(b.value.current);
    }
  }

  // ---- One tree only ----

  function Chain(a: Nodes, b: Nodes): Nodes {
    if b.Empty? then a else More(Chain(a, b.before), b.node)
  }

  lemma {:induction false} ChainEmpty(b: Nodes)
    ensures Chain(Empty, b) == b
  {
    if b.More? {
      ChainEmpty(b.before);
    }
  }

  lemma {:induction false} BuildConcat(b: Builder, x: seq<Token>, y: seq<Token>)
    requires Build(b, x).Some?
    ensures Build(b, x + y) == Build(Build(b, x).value, y)
    decreases |y|
  {
    if y == [] {
      assert x + y == x;
    } else {
      var n := |y| - 1;
      assert (x + y)[..|x| + n] == x + y[..n];
      BuildConcat(b, x, y[..n]);
    }
  }

  lemma BuildOne(b: Builder, token: Token)
    ensures Build(b, [token]) == Add(b, token)
  {
    assert [token][..0] == [];
  }

  lemma {:induction false} BuildNodes(b: Builder, nodes: Nodes)
    requires Proper(nodes)
    ensures Build(b, Flatten(nodes)) == Some(b.(current := Chain(b.current, nodes)))
    decreases nodes, 0
  {
    match nodes
    case Empty =>
    case More(before, node) =>
      BuildNodes(b, before);
      BuildConcat(b, Flatten(before), FlattenNode(node));
      BuildNode(b.(current := Chain(b.current, before)), node);
  }

  lemma {:induction false} BuildNode(b: Builder, node: Node)
    requires ProperNode(node)
    ensures Build(b, FlattenNode(node)) == Some(b.(current := More(b.current, node)))
    decreases node, 1
  {
    match node
    case Leaf(token) => BuildOne(b, token);
    case Choice(condition, body, elses) =>
      var open := Builder(Push(b.frames, b.current, condition, None, NoElse), Empty);
      var start := [If(condition)];
      BuildOne(b, If(condition));
      BuildConcat(b, start, Flatten(body));
      BuildNodes(open, body);
      ChainEmpty(body);
      BuildConcat(b, start + Flatten(body), FlattenElses(elses));
      BuildElses(open.(current := body), body, elses);
      BuildConcat(b, start + Flatten(body) + FlattenElses(elses), [Close]);
      BuildOne(Build(b, start + Flatten(body) + FlattenElses(elses)).value, Close);
  }

  lemma {:induction false} BuildElses(b: Builder, body: Nodes, elses: Elses)
    requires ProperElses(elses) && b.current == body
    requires b.frames.Push? && b.frames.body == None && b.frames.elses == NoElse
    ensures var r := Build(b, FlattenElses(elses));
      r.Some? && r.value.frames.Push?
      && Shelve(r.value.frames, r.value.current) == b.frames.(body := Some(body), elses := elses)
    decreases elses, 0
  {
    match elses
    case NoElse =>
    case OneMore(earlier, last) =>
      BuildElses(b, body, earlier);
      var r := Build(b, FlattenElses(earlier)).value;
      BuildConcat(b, FlattenElses(earlier), [Else]);
      BuildOne(r, Else);
      BuildConcat(b, FlattenElses(earlier) + [Else], Flatten(last));
      BuildNodes(Builder(Shelve(r.frames, r.current), Empty), last);
      ChainEmpty(last);
  }

  /** The tags of a tree are balanced and belong to no other tree. */
  lemma TreeIsUnique(nodes: Nodes)
    requires Proper(nodes)
    ensures Balanced(Flatten(nodes)) && TreeOf(Flatten(nodes)) == Some(nodes)
  {
    BuildNodes(Builder(Bottom, Empty), nodes);
    ChainEmpty(nodes);
    BalancedIsATree(Flatten(nodes));
  }

  // ---- What the renderer accepts ----

  predicate Structural(e: Error) {
    e == UnmatchedElse || e == UnmatchedClose || e == Unterminated
  }

  predicate Sound(r: Rendering) {
    r.Err? ==> !Structural(r.error)
  }

  lemma {:induction false} MeaningIsSound(nodes: Nodes, active: bool, values: Values)
    requires Proper(nodes)
    ensures Sound(Render(nodes, active, values))
    decreases nodes
  {
    if nodes.More? {
      MeaningIsSound(nodes.before, active, values);
      if nodes.node.Choice? && nodes.node.condition.Some? {
        var holds := Holds(nodes.node.condition.value, values);
        MeaningIsSound(nodes.node.body, active && holds, values);
        ElsesAreSound(nodes.node.elses, active && !holds, values);
      }
    }
  }

  lemma {:induction false} ElsesAreSound(elses: Elses, active: bool, values: Values)
    requires ProperElses(elses)
    ensures Sound(RenderElses(elses, active, values))
    decreases elses
  {
    if elses.OneMore? {
      ElsesAreSound(elses.earlier, active, values);
      MeaningIsSound(elses.last, active, values);
    }
  }

  lemma StepHeight(s: State, token: Token, values: Values)
    ensures var next := Step(s, token, values);
      next.Ok? ==>
        && (token.Else? || token.Close? ==> s.stack != [])
        && |next.value.stack| == |s.stack| + if token.If? then 1 else if token.Close? then -1 else 0
  {
  }

  lemma {:induction false} StackIsHeight(tokens: seq<Token>, values: Values)
    ensures var s := Exec(Ok(START), tokens, values);
      s.Ok? ==> Height(tokens) == Some(|s.value.stack|)
    decreases |tokens|
  {
    if tokens != [] {
      var n := |tokens| - 1;
      StackIsHeight(tokens[..n], values);
      var before := Exec(Ok(START), tokens[..n], values);
      if before.Ok? {
        StepHeight(before.value, tokens[n], values);
      }
    }
  }

  /** Every token sequence: a balanced one renders as its tree means and never fails for its shape; any
      other is rejected. */
  lemma RenderedExactly(tokens: seq<Token>, values: Values)
    ensures Balanced(tokens) <==> TreeOf(tokens).Some?
    ensures Balanced(tokens) ==> Sound(Rendered(tokens, values))
    ensures !Balanced(tokens) ==> Rendered(tokens, values).Err?
    ensures TreeOf(tokens).Some? ==> Rendered(tokens, values) == Render(TreeOf(tokens).value, true, values)
  {
    BalancedIsATree(tokens);
    if Balanced(tokens) {
      LoopIsMeaning(TreeOf(tokens).value, values);
      MeaningIsSound(TreeOf(tokens).value, true, values);
    } else {
      StackIsHeight(tokens, values);
    }
  }
}
