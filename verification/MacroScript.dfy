/** The macro script of `src/macroScript.ts`: stored steps as text with tokens between, and what a script
    types. */
module MacroScript {
  /** A step that is not typed text. */
  datatype TokenStep = TokenStep(id: string, action: string)

  datatype MacroStep = Type(id: string, content: string) | Act(step: TokenStep)

  /** The id of a block that came with a step, or one made up on the spot. */
  datatype BlockId = Stored(id: string) | Made

  datatype Block = Text(id: BlockId, text: string) | Token(step: TokenStep)

  datatype Caret = Caret(blockIndex: int, offset: nat)

  datatype Edit = Edit(blocks: seq<Block>, caret: Caret)

  predicate IsTextAt(blocks: seq<Block>, i: int) {
    0 <= i < |blocks| && blocks[i].Text?
  }

  /** Text first, and then tokens and text in turn. */
  predicate Alternates(blocks: seq<Block>) {
    && (blocks != [] ==> blocks[0].Text?)
    && (forall i :: 0 < i < |blocks| ==> (blocks[i].Text? <==> blocks[i - 1].Token?))
  }

  predicate EndsInText(blocks: seq<Block>) {
    blocks != [] && blocks[|blocks| - 1].Text?
  }

  /** Text, and any number of times a token and text. */
  predicate Shaped(blocks: seq<Block>) {
    Alternates(blocks) && EndsInText(blocks)
  }

  predicate ValidCaret(blocks: seq<Block>, caret: Caret) {
    IsTextAt(blocks, caret.blockIndex) && caret.offset <= |blocks[caret.blockIndex].text|
  }

  // ---- What a script types ----

  datatype Item = Char(c: char) | Press(step: TokenStep)

  function Chars(text: string): seq<Item> {
    seq(|text|, i requires 0 <= i < |text| => Char(text[i]))
  }

  lemma CharsConcat(a: string, b: string)
    ensures Chars(a + b) == Chars(a) + Chars(b)
  {
  }

  function Items(b: Block): seq<Item> {
    match b
    case Text(_, text) => Chars(text)
    case Token(step) => [Press(step)]
  }

  function Typed(blocks: seq<Block>): seq<Item> {
    if blocks == [] then []
    else Typed(blocks[..|blocks| - 1]) + Items(blocks[|blocks| - 1])
  }

  function TypedSteps(steps: seq<MacroStep>): seq<Item> {
    if steps == [] then []
    else
      var last := steps[|steps| - 1];
      TypedSteps(steps[..|steps| - 1]) + if last.Type? then Chars(last.content) else [Press(last.step)]
  }

  lemma TypedAppend(a: seq<Block>, b: Block)
    ensures Typed(a + [b]) == Typed(a) + Items(b)
  {
    assert (a + [b])[..|a|] == a;
  }

  lemma Assoc(a: seq<Item>, b: seq<Item>, c: seq<Item>)
    ensures a + b + c == a + (b + c)
  {
  }

  lemma ConcatOneMore(a: seq<Block>, b: seq<Block>, last: Block)
    requires Typed(a + b) == Typed(a) + Typed(b)
    ensures Typed(a + (b + [last])) == Typed(a) + Typed(b + [last])
  {
    calc {
      Typed(a + (b + [last]));
      { assert a + (b + [last]) == (a + b) + [last]; }
      Typed((a + b) + [last]);
      { TypedAppend(a + b, last); }
      Typed(a) + Typed(b) + Items(last);
      { Assoc(Typed(a), Typed(b), Items(last)); }
      Typed(a) + (Typed(b) + Items(last));
      { TypedAppend(b, last); }
      Typed(a) + Typed(b + [last]);
    }
  }

  lemma {:induction false} TypedConcat(a: seq<Block>, b: seq<Block>)
    ensures Typed(a + b) == Typed(a) + Typed(b)
    decreases |b|
  {
    if b == [] {
      assert a + b == a && Typed(a) + [] == Typed(a);
    } else {
      var n := |b| - 1;
      var front := b[..n];
      assert b == front + [b[n]];
      TypedConcat(a, front);
      ConcatOneMore(a, front, b[n]);
    }
  }

  // ---- Text around tokens ----

  const GAP := Text(Made, "")

  /** Adds to the text a script ends in. */
  function Extend(blocks: seq<Block>, text: string): (r: seq<Block>)
    requires EndsInText(blocks)
    ensures EndsInText(r) && (Alternates(blocks) ==> Alternates(r))
    ensures text == "" ==> r == blocks
  {
    var n := |blocks| - 1;
    assert blocks[n].text + "" == blocks[n].text;
    blocks[n := Text(blocks[n].id, blocks[n].text + text)]
  }

  function Add(blocks: seq<Block>, b: Block): seq<Block> {
    if b.Text? && EndsInText(blocks) then Extend(blocks, b.text)
    else if b.Text? || EndsInText(blocks) then blocks + [b]
    else blocks + [GAP] + [b]
  }

  function AddAll(blocks: seq<Block>): seq<Block> {
    if blocks == [] then [] else Add(AddAll(blocks[..|blocks| - 1]), blocks[|blocks| - 1])
  }

  function Closed(blocks: seq<Block>): seq<Block> {
    if EndsInText(blocks) then blocks else blocks + [GAP]
  }

  function WithText(blocks: seq<Block>): seq<Block> {
    Closed(AddAll(blocks))
  }

  method WithTextAroundTokens(blocks: seq<Block>) returns (result: seq<Block>)
    ensures result == WithText(blocks)
  {
    result := [];
    for i := 0 to |blocks|
      invariant result == AddAll(blocks[..i])
    {
      assert blocks[..i + 1][..i] == blocks[..i];
      var block := blocks[i];
      if block.Text? {
        if EndsInText(result) {
          var last := result[|result| - 1];
          result := result[|result| - 1 := Text(last.id, last.text + block.text)];
        } else {
          result := result + [block];
        }
      } else {
        if !EndsInText(result) {
          result := result + [GAP];
        }
        result := result + [block];
      }
    }
    assert blocks[..|blocks|] == blocks;
    if !EndsInText(result) {
      result := result + [GAP];
    }
  }

  lemma ExtendTypes(blocks: seq<Block>, text: string)
    requires EndsInText(blocks)
    ensures Typed(Extend(blocks, text)) == Typed(blocks) + Chars(text)
  {
    var n := |blocks| - 1;
    var before, last := blocks[..n], blocks[n];
    TypedAppend(before, last);
    assert blocks == before + [last];
    TypedAppend(before, Text(last.id, last.text + text));
    assert Extend(blocks, text) == before + [Text(last.id, last.text + text)];
    CharsConcat(last.text, text);
    Assoc(Typed(before), Chars(last.text), Chars(text));
  }

  lemma GapTypes(blocks: seq<Block>)
    ensures Typed(blocks + [GAP]) == Typed(blocks)
  {
    TypedAppend(blocks, GAP);
    assert Typed(blocks) + [] == Typed(blocks);
  }

  lemma AddTypes(blocks: seq<Block>, b: Block)
    ensures Typed(Add(blocks, b)) == Typed(blocks) + Items(b)
  {
    if b.Text? && EndsInText(blocks) {
      ExtendTypes(blocks, b.text);
    } else if b.Text? || EndsInText(blocks) {
      TypedAppend(blocks, b);
    } else {
      TypedAppend(blocks + [GAP], b);
      GapTypes(blocks);
    }
  }

  lemma AddAlternates(blocks: seq<Block>, b: Block)
    requires Alternates(blocks)
    ensures Alternates(Add(blocks, b))
  {
  }

  lemma {:induction false} AddAllTypes(blocks: seq<Block>)
    ensures Alternates(AddAll(blocks)) && Typed(AddAll(blocks)) == Typed(blocks)
  {
    if blocks != [] {
      var n := |blocks| - 1;
      AddAllTypes(blocks[..n]);
      AddTypes(AddAll(blocks[..n]), blocks[n]);
      AddAlternates(AddAll(blocks[..n]), blocks[n]);
    }
  }

  lemma AddNext(blocks: seq<Block>, n: nat)
    requires Alternates(blocks) && n < |blocks|
    ensures Alternates(blocks[..n]) && Add(blocks[..n], blocks[n]) == blocks[..n] + [blocks[n]]
  {
  }

  lemma {:induction false} AddAllKeeps(blocks: seq<Block>)
    requires Alternates(blocks)
    ensures AddAll(blocks) == blocks
  {
    if blocks != [] {
      var n := |blocks| - 1;
      AddNext(blocks, n);
      AddAllKeeps(blocks[..n]);
      assert blocks == blocks[..n] + [blocks[n]];
    }
  }

  /** Any blocks come out as a script that types the same, and a script comes out as it is. */
  lemma WithTextShapes(blocks: seq<Block>)
    ensures Shaped(WithText(blocks)) && Typed(WithText(blocks)) == Typed(blocks)
    ensures Shaped(blocks) ==> WithText(blocks) == blocks
  {
    AddAllTypes(blocks);
    GapTypes(AddAll(blocks));
    if Shaped(blocks) {
      AddAllKeeps(blocks);
    }
  }

  // ---- A script is determined by what it types ----

  function Bare(b: Block): Block {
    if b.Text? then Text(Made, b.text) else b
  }

  /** A script without the ids of its text. */
  function BareAll(blocks: seq<Block>): seq<Block> {
    seq(|blocks|, i requires 0 <= i < |blocks| => Bare(blocks[i]))
  }

  function AddItem(blocks: seq<Block>, item: Item): (r: seq<Block>)
    requires Shaped(blocks)
    ensures Shaped(r)
  {
    if item.Char? then Extend(blocks, [item.c]) else blocks + [Token(item.step)] + [GAP]
  }

  /** The script that types a given sequence. */
  function ScriptOf(items: seq<Item>): (r: seq<Block>)
    ensures Shaped(r)
  {
    if items == [] then [GAP] else AddItem(ScriptOf(items[..|items| - 1]), items[|items| - 1])
  }

  lemma AddItemTypes(blocks: seq<Block>, item: Item)
    requires Shaped(blocks)
    ensures Typed(AddItem(blocks, item)) == Typed(blocks) + [item]
  {
    match item
    case Char(c) => ExtendTypes(blocks, [c]);
    case Press(step) =>
      GapTypes(blocks + [Token(step)]);
      TypedAppend(blocks, Token(step));
  }

  lemma {:induction false} ScriptTypes(items: seq<Item>)
    ensures Typed(ScriptOf(items)) == items
  {
    if items == [] {
      EmptyScriptTypes();
    } else {
      var n := |items| - 1;
      assert items == items[..n] + [items[n]];
      ScriptTypes(items[..n]);
      AddItemTypes(ScriptOf(items[..n]), items[n]);
    }
  }

  lemma EmptyScriptTypes()
    ensures Typed([GAP]) == []
  {
    GapTypes([]);
    assert [] + [GAP] == [GAP];
  }

  lemma ScriptOfNext(items: seq<Item>, item: Item)
    ensures ScriptOf(items + [item]) == AddItem(ScriptOf(items), item)
  {
    assert (items + [item])[..|items|] == items;
  }

  lemma ExtendTwice(blocks: seq<Block>, a: string, b: string)
    requires EndsInText(blocks)
    ensures Extend(Extend(blocks, a), b) == Extend(blocks, a + b)
  {
    var text := blocks[|blocks| - 1].text;
    assert text + a + b == text + (a + b);
  }

  lemma {:induction false} ScriptOfChars(items: seq<Item>, text: string)
    ensures ScriptOf(items + Chars(text)) == Extend(ScriptOf(items), text)
    decreases |text|
  {
    if text == "" {
      assert items + Chars(text) == items;
    } else {
      var n := |text| - 1;
      ScriptOfChars(items, text[..n]);
      ScriptOfNext(items + Chars(text[..n]), Char(text[n]));
      ExtendTwice(ScriptOf(items), text[..n], [text[n]]);
      assert text == text[..n] + [text[n]];
      assert items + Chars(text) == (items + Chars(text[..n])) + [Char(text[n])];
    }
  }

  lemma BareLast(before: seq<Block>, step: TokenStep, b: Block)
    requires b.Text?
    ensures Extend(BareAll(before) + [Token(step)] + [GAP], b.text) == BareAll(before + [Token(step)] + [b])
  {
    assert "" + b.text == b.text;
  }

  lemma ScriptGrows(before: seq<Block>, step: TokenStep, b: Block)
    requires Shaped(before) && b.Text? && ScriptOf(Typed(before)) == BareAll(before)
    ensures ScriptOf(Typed(before + [Token(step)] + [b])) == BareAll(before + [Token(step)] + [b])
  {
    TypedAppend(before, Token(step));
    TypedAppend(before + [Token(step)], b);
    ScriptOfNext(Typed(before), Press(step));
    ScriptOfChars(Typed(before) + [Press(step)], b.text);
    BareLast(before, step, b);
  }

  lemma ScriptOfOne(b: Block)
    requires b.Text?
    ensures ScriptOf(Typed([b])) == BareAll([b])
  {
    TypedAppend([], b);
    assert [] + [b] == [b];
    ScriptOfChars([], b.text);
    ExtendGap(b.text);
  }

  lemma ExtendGap(text: string)
    ensures Extend([GAP], text) == [Text(Made, text)]
  {
    assert "" + text == text;
  }

  lemma LastToken(blocks: seq<Block>) returns (before: seq<Block>, step: TokenStep, b: Block)
    requires Shaped(blocks) && |blocks| > 1
    ensures Shaped(before) && b.Text? && blocks == before + [Token(step)] + [b] && |before| < |blocks|
  {
    var n := |blocks| - 1;
    before, step, b := blocks[..n - 1], blocks[n - 1].step, blocks[n];
  }

  lemma {:induction false} ScriptOfTyped(blocks: seq<Block>)
    requires Shaped(blocks)
    ensures ScriptOf(Typed(blocks)) == BareAll(blocks)
    decreases |blocks|
  {
    if |blocks| == 1 {
      ScriptOfOne(blocks[0]);
      assert blocks == [blocks[0]];
    } else {
      var before, step, b := LastToken(blocks);
      ScriptOfTyped(before);
      ScriptGrows(before, step, b);
    }
  }

  /** Scripts and typed sequences correspond one to one, up to the ids of text. */
  lemma ScriptsAreWhatTheyType(a: seq<Block>, b: seq<Block>)
    requires Shaped(a) && Shaped(b)
    ensures Typed(a) == Typed(b) <==> BareAll(a) == BareAll(b)
  {
    ScriptOfTyped(a);
    ScriptOfTyped(b);
    ScriptTypes(Typed(a));
    ScriptTypes(Typed(b));
  }

  // ---- Steps and scripts ----

  function BlockOf(step: MacroStep): Block {
    if step.Type? then Text(Stored(step.id), step.content) else Token(step.step)
  }

  function BlocksOf(steps: seq<MacroStep>): seq<Block> {
    seq(|steps|, i requires 0 <= i < |steps| => BlockOf(steps[i]))
  }

  function StepsToBlocks(steps: seq<MacroStep>): seq<Block> {
    WithText(BlocksOf(steps))
  }

  /** The step of a block; `Made` ids are spelled as they come. */
  function StepOf(b: Block, made: string): MacroStep {
    match b
    case Text(id, text) => Type(if id.Stored? then id.id else made, text)
    case Token(step) => Act(step)
  }

  function Steps(blocks: seq<Block>, made: string): seq<MacroStep> {
    if blocks == [] then []
    else
      var b, before := blocks[|blocks| - 1], Steps(blocks[..|blocks| - 1], made);
      if b.Text? && b.text == "" then before else before + [StepOf(b, made)]
  }

  method BlocksToSteps(blocks: seq<Block>, made: string) returns (steps: seq<MacroStep>)
    ensures steps == Steps(blocks, made)
  {
    steps := [];
    for i := 0 to |blocks|
      invariant steps == Steps(blocks[..i], made)
    {
      assert blocks[..i + 1][..i] == blocks[..i];
      var block := blocks[i];
      if block.Token? {
        steps := steps + [Act(block.step)];
      } else if |block.text| > 0 {
        steps := steps + [Type(if block.id.Stored? then block.id.id else made, block.text)];
      }
    }
    assert blocks[..|blocks|] == blocks;
  }

  /** No empty text and no two texts in a row. */
  predicate Canonical(steps: seq<MacroStep>) {
    && (forall i :: 0 <= i < |steps| && steps[i].Type? ==> steps[i].content != "")
    && (forall i :: 0 < i < |steps| ==> !(steps[i - 1].Type? && steps[i].Type?))
  }

  lemma {:induction false} StepsType(blocks: seq<Block>, made: string)
    ensures TypedSteps(Steps(blocks, made)) == Typed(blocks)
  {
    if blocks != [] {
      var n := |blocks| - 1;
      StepsType(blocks[..n], made);
      var before := Steps(blocks[..n], made);
      assert (before + [StepOf(blocks[n], made)])[..|before|] == before;
    }
  }

  lemma {:induction false} BlocksOfType(steps: seq<MacroStep>)
    ensures Typed(BlocksOf(steps)) == TypedSteps(steps)
  {
    if steps != [] {
      var n := |steps| - 1;
      BlocksOfType(steps[..n]);
      assert BlocksOf(steps)[..n] == BlocksOf(steps[..n]);
    }
  }

  lemma {:induction false} StepsAreCanonical(blocks: seq<Block>, made: string)
    requires Alternates(blocks)
    ensures Canonical(Steps(blocks, made))
    ensures blocks != [] && blocks[|blocks| - 1].Token? ==>
              Steps(blocks, made) != [] && Steps(blocks, made)[|Steps(blocks, made)| - 1].Act?
    ensures blocks == [] ==> Steps(blocks, made) == []
  {
    if blocks != [] {
      var n := |blocks| - 1;
      StepsAreCanonical(blocks[..n], made);
      if blocks[n].Text? && n > 0 {
        assert blocks[..n][n - 1].Token?;
      }
    }
  }

  /** Turning steps into a script and back types the same characters and tokens in the same order, and
      leaves no empty or neighbouring text steps. */
  lemma StepsThroughScript(steps: seq<MacroStep>, made: string)
    ensures Shaped(StepsToBlocks(steps)) && Typed(StepsToBlocks(steps)) == TypedSteps(steps)
    ensures TypedSteps(Steps(StepsToBlocks(steps), made)) == TypedSteps(steps)
    ensures Canonical(Steps(StepsToBlocks(steps), made))
  {
    var blocks := StepsToBlocks(steps);
    WithTextShapes(BlocksOf(steps));
    BlocksOfType(steps);
    StepsType(blocks, made);
    StepsAreCanonical(blocks, made);
  }

  lemma StepsNext(blocks: seq<Block>, b: Block, made: string)
    ensures Steps(blocks + [b], made)
            == if b.Text? && b.text == "" then Steps(blocks, made) else Steps(blocks, made) + [StepOf(b, made)]
  {
    assert (blocks + [b])[..|blocks|] == blocks;
  }

  lemma AddReturns(r: seq<Block>, b: Block, made: string)
    requires b.Text? ==> !EndsInText(r) && b.text != ""
    ensures Steps(Add(r, b), made) == Steps(r, made) + [StepOf(b, made)]
    ensures EndsInText(Add(r, b)) == b.Text?
  {
    StepsNext(r, b, made);
    StepsNext(r, GAP, made);
    StepsNext(r + [GAP], b, made);
  }

  /** The script before its last gap gives the steps back. */
  predicate Returns(steps: seq<MacroStep>, made: string) {
    var r := AddAll(BlocksOf(steps));
    Steps(r, made) == steps && (EndsInText(r) <==> steps != [] && steps[|steps| - 1].Type?)
  }

  lemma AddAllAppend(steps: seq<MacroStep>, last: MacroStep)
    ensures AddAll(BlocksOf(steps + [last])) == Add(AddAll(BlocksOf(steps)), BlockOf(last))
  {
    var blocks := BlocksOf(steps + [last]);
    assert blocks[..|steps|] == BlocksOf(steps) && blocks[|steps|] == BlockOf(last);
  }

  lemma ReturnsNext(steps: seq<MacroStep>, last: MacroStep, made: string)
    requires Returns(steps, made)
    requires last.Type? ==> last.content != "" && (steps != [] ==> !steps[|steps| - 1].Type?)
    ensures Returns(steps + [last], made)
  {
    AddReturns(AddAll(BlocksOf(steps)), BlockOf(last), made);
    AddAllAppend(steps, last);
  }

  lemma {:induction false} CanonicalReturns(steps: seq<MacroStep>, made: string)
    requires Canonical(steps)
    ensures Returns(steps, made)
  {
    if steps != [] {
      var n := |steps| - 1;
      CanonicalReturns(steps[..n], made);
      assert n > 0 ==> steps[..n][n - 1] == steps[n - 1];
      ReturnsNext(steps[..n], steps[n], made);
      assert steps == steps[..n] + [steps[n]];
    }
  }

  /** Steps come back unchanged, ids included, exactly when they had no empty or neighbouring text. */
  lemma UnchangedExactlyWhenCanonical(steps: seq<MacroStep>, made: string)
    ensures Steps(StepsToBlocks(steps), made) == steps <==> Canonical(steps)
  {
    StepsThroughScript(steps, made);
    if Canonical(steps) {
      CanonicalReturns(steps, made);
      StepsNext(AddAll(BlocksOf(steps)), GAP, made);
    }
  }

  /** A script comes back from its steps with the same text and tokens. */
  lemma ScriptThroughSteps(blocks: seq<Block>, made: string)
    requires Shaped(blocks)
    ensures BareAll(StepsToBlocks(Steps(blocks, made))) == BareAll(blocks)
  {
    StepsType(blocks, made);
    StepsThroughScript(Steps(blocks, made), made);
    ScriptsAreWhatTheyType(StepsToBlocks(Steps(blocks, made)), blocks);
  }
}
