/** The edits of the macro script (`src/macroScript.ts`): what each does to what the script types, and that
    every one keeps a script a script. */
module MacroEdits {
  import opened Common
  import opened MacroScript

  predicate Good(e: Edit) {
    Shaped(e.blocks) && ValidCaret(e.blocks, e.caret)
  }

  // ---- Lines ----

  /** Where the line a position is on ends. */
  function LineEnd(text: string, from: nat): (end: nat)
    ensures from <= |text| ==>
      from <= end <= |text| && '\n' !in text[from..end] && (end < |text| ==> text[end] == '\n')
    ensures from > |text| ==> end == |text|
    decreases |text| - from
  {
    if from >= |text| then |text| else if text[from] == '\n' then from else LineEnd(text, from + 1)
  }

  /** Where the line a position is on starts: after the last line break before it. */
  function LineStart(text: string, caret: nat): (start: nat)
    requires caret <= |text|
    ensures caret > 0 ==>
      start <= caret && '\n' !in text[start..caret] && (start > 0 ==> text[start - 1] == '\n')
  {
    if caret == 0 then if text != "" && text[0] == '\n' then 1 else 0
    else if text[caret - 1] == '\n' then caret
    else if caret == 1 then 0
    else LineStart(text, caret - 1)
  }

  predicate Letter(c: char) {
    'a' <= c <= 'z' || 'A' <= c <= 'Z'
  }

  predicate IsSlashWord(s: string) {
    s != "" && s[0] == '/' && forall i :: 1 <= i < |s| ==> Letter(s[i])
  }

  /** The line start, when the line is '/' and letters and the caret is at its end. */
  function FindSlashQuery(text: string, caret: nat): Option<nat> {
    if caret > |text| then None
    else
      var start := LineStart(text, caret);
      var typed := if start <= caret then text[start..caret] else "";
      if (caret == |text| || text[caret] == '\n') && IsSlashWord(typed) then Some(start) else None
  }

  /** The line from `start` to `end` is a slash word. */
  predicate SlashLine(text: string, start: nat, end: nat) {
    && start < end <= |text|
    && (start > 0 ==> text[start - 1] == '\n')
    && (end < |text| ==> text[end] == '\n')
    && IsSlashWord(text[start..end])
  }

  lemma {:induction false} LineStartIs(text: string, caret: nat, start: nat)
    requires start <= caret <= |text| && caret > 0
    requires forall k :: start <= k < caret ==> text[k] != '\n'
    requires start > 0 ==> text[start - 1] == '\n'
    ensures LineStart(text, caret) == start
    decreases caret
  {
    if start < caret && caret > 1 {
      LineStartIs(text, caret - 1, start);
    }
  }

  /** The menu opens exactly on a whole line of a slash and letters, with the caret at its end. */
  lemma SlashQueryExactly(text: string, caret: nat, start: nat)
    ensures FindSlashQuery(text, caret) == Some(start) <==> SlashLine(text, start, caret)
  {
    if SlashLine(text, start, caret) {
      forall k | start <= k < caret ensures text[k] != '\n' {
        assert text[start..caret][k - start] == text[k];
      }
      LineStartIs(text, caret, start);
    }
  }

  // ---- The edits ----

  function SplitAround(blocks: seq<Block>, i: nat, before: string, after: string, step: TokenStep): Edit
    requires IsTextAt(blocks, i)
  {
    Edit(blocks[..i] + [Text(blocks[i].id, before), Token(step), Text(Made, after)] + blocks[i + 1..],
         Caret(i + 2, 0))
  }

  /** The text before the end of the caret's line, and the text after that line's break. */
  function SplitAtLineEnd(text: string, offset: nat): (string, string) {
    var cut := LineEnd(text, offset);
    (text[..cut], if cut < |text| then text[cut + 1..] else "")
  }

  /** Where an edit whose caret is not on text calls itself again. */
  function Retry(blocks: seq<Block>): Caret {
    var end := |blocks| - 1;
    Caret(end, if EndsInText(blocks) then |blocks[end].text| else 0)
  }

  /** The caret after `calls` such calls. */
  function Tries(blocks: seq<Block>, caret: Caret, calls: nat): Caret
    decreases calls
  {
    if calls == 0 then caret else Tries(blocks, Retry(blocks), calls - 1)
  }

  /** The call after which the caret is on text for the first time: there the recursion ends. */
  ghost predicate LandsAfter(blocks: seq<Block>, caret: Caret, calls: nat) {
    && IsTextAt(blocks, Tries(blocks, caret, calls).blockIndex)
    && forall k: nat :: k < calls ==> !IsTextAt(blocks, Tries(blocks, caret, k).blockIndex)
  }

  /** The function calls itself for ever. */
  ghost predicate NeverLands(blocks: seq<Block>, caret: Caret) {
    forall calls: nat :: !IsTextAt(blocks, Tries(blocks, caret, calls).blockIndex)
  }

  /** A token after the line a caret in a text is on. */
  function TokenAt(blocks: seq<Block>, at: Caret, step: TokenStep): Edit
    requires IsTextAt(blocks, at.blockIndex)
  {
    var parts := SplitAtLineEnd(blocks[at.blockIndex].text, at.offset);
    SplitAround(blocks, at.blockIndex, parts.0, parts.1, step)
  }

  /** `insertToken`; nothing when the function does not return. */
  function InsertToken(blocks: seq<Block>, caret: Caret, step: TokenStep): Option<Edit> {
    var at := if IsTextAt(blocks, caret.blockIndex) then caret else Retry(blocks);
    if IsTextAt(blocks, at.blockIndex) then Some(TokenAt(blocks, at, step)) else None
  }

  function ReplaceSlashLine(blocks: seq<Block>, caret: Caret, step: TokenStep): Option<Edit> {
    if !IsTextAt(blocks, caret.blockIndex) then Some(Edit(blocks, caret))
    else
      var text := blocks[caret.blockIndex].text;
      var slash := FindSlashQuery(text, caret.offset);
      if slash == None then InsertToken(blocks, caret, step)
      else
        var head, tail := text[..slash.value], text[caret.offset..];
        var before := if head != "" && head[|head| - 1] == '\n' then head[..|head| - 1] else head;
        var after := if tail != "" && tail[0] == '\n' then tail[1..] else tail;
        Some(SplitAround(blocks, caret.blockIndex, before, after, step))
  }

  predicate IsTokenAt(blocks: seq<Block>, i: int) {
    0 <= i < |blocks| && blocks[i].Token?
  }

  function Joined(before: string, after: string): string {
    if before != "" && after != "" then before + "\n" + after else before + after
  }

  function RemoveToken(blocks: seq<Block>, i: int): Edit {
    if !IsTokenAt(blocks, i) || !IsTextAt(blocks, i - 1) || !IsTextAt(blocks, i + 1) then
      Edit(blocks, Caret(if i - 1 > 0 then i - 1 else 0, 0))
    else
      var before, after := blocks[i - 1], blocks[i + 1];
      Edit(blocks[..i - 1] + [Text(before.id, Joined(before.text, after.text))] + blocks[i + 2..],
           Caret(i - 1, |before.text|))
  }

  function TextAt(blocks: seq<Block>, at: Caret, text: string): Edit
    requires IsTextAt(blocks, at.blockIndex)
  {
    var i, b := at.blockIndex, blocks[at.blockIndex];
    var cut := if at.offset < |b.text| then at.offset else |b.text|;
    Edit(blocks[..i] + [Text(b.id, b.text[..cut] + text + b.text[cut..])] + blocks[i + 1..],
         Caret(i, at.offset + |text|))
  }

  /** `insertText`; nothing when the function does not return. */
  function InsertText(blocks: seq<Block>, caret: Caret, text: string): Option<Edit> {
    var at := if IsTextAt(blocks, caret.blockIndex) then caret else Retry(blocks);
    if IsTextAt(blocks, at.blockIndex) then Some(TextAt(blocks, at, text)) else None
  }

  // ---- When an insertion returns ----

  lemma {:induction false} TriesSettle(blocks: seq<Block>, caret: Caret, calls: nat)
    requires calls > 0
    ensures Tries(blocks, caret, calls) == Retry(blocks)
    decreases calls
  {
    if calls > 1 {
      TriesSettle(blocks, Retry(blocks), calls - 1);
    } else {
      assert Tries(blocks, Retry(blocks), 0) == Retry(blocks);
    }
  }

  lemma LandsAfterExactly(blocks: seq<Block>, caret: Caret, calls: nat)
    ensures LandsAfter(blocks, caret, calls) <==>
            if IsTextAt(blocks, caret.blockIndex) then calls == 0 else calls == 1 && EndsInText(blocks)
  {
    assert Tries(blocks, caret, 0) == caret;
    TriesSettle(blocks, caret, 1);
    if calls > 1 { TriesSettle(blocks, caret, calls); }
  }

  /** An insertion calls itself for ever exactly when neither the caret nor the end of the document is
      on text; in a script it returns, after at most one such call. */
  lemma NeverLandsExactly(blocks: seq<Block>, caret: Caret)
    ensures NeverLands(blocks, caret) <==> !IsTextAt(blocks, caret.blockIndex) && !EndsInText(blocks)
    ensures Shaped(blocks) ==> exists calls: nat :: calls <= 1 && LandsAfter(blocks, caret, calls)
  {
    var calls := if IsTextAt(blocks, caret.blockIndex) then 0 else 1;
    LandsAfterExactly(blocks, caret, calls);
    if !IsTextAt(blocks, caret.blockIndex) && !EndsInText(blocks) {
      forall n: nat ensures !IsTextAt(blocks, Tries(blocks, caret, n).blockIndex) {
        if n > 0 { TriesSettle(blocks, caret, n); }
      }
    }
  }

  /** What an insertion returns is the edit at the first of its calls that lands on text, and it returns
      nothing exactly when none does. */
  lemma InsertionsAreTheirCalls(blocks: seq<Block>, caret: Caret, step: TokenStep, text: string, calls: nat)
    ensures LandsAfter(blocks, caret, calls) ==>
      && InsertToken(blocks, caret, step) == Some(TokenAt(blocks, Tries(blocks, caret, calls), step))
      && InsertText(blocks, caret, text) == Some(TextAt(blocks, Tries(blocks, caret, calls), text))
    ensures InsertToken(blocks, caret, step) == None <==> NeverLands(blocks, caret)
    ensures InsertText(blocks, caret, text) == None <==> NeverLands(blocks, caret)
  {
    LandsAfterExactly(blocks, caret, calls);
    TriesSettle(blocks, caret, 1);
    NeverLandsExactly(blocks, caret);
  }

  /** A document of one token: inserting never returns, wherever the caret is. */
  lemma LoneTokenNeverLands(token: TokenStep, caret: Caret, step: TokenStep, text: string)
    ensures NeverLands([Token(token)], caret)
    ensures InsertToken([Token(token)], caret, step) == None && InsertText([Token(token)], caret, text) == None
  {
    NeverLandsExactly([Token(token)], caret);
  }

  // ---- Every edit leaves a script and a caret on its text ----

  lemma SplitIsGood(blocks: seq<Block>, i: nat, before: string, after: string, step: TokenStep)
    requires Shaped(blocks) && IsTextAt(blocks, i)
    ensures Good(SplitAround(blocks, i, before, after, step))
  {
  }

  lemma InsertTokenIsGood(blocks: seq<Block>, caret: Caret, step: TokenStep)
    requires Shaped(blocks)
    ensures InsertToken(blocks, caret, step).Some? && Good(InsertToken(blocks, caret, step).value)
  {
    var at := if IsTextAt(blocks, caret.blockIndex) then caret else Retry(blocks);
    var parts := SplitAtLineEnd(blocks[at.blockIndex].text, at.offset);
    SplitIsGood(blocks, at.blockIndex, parts.0, parts.1, step);
  }

  lemma InsertTextIsGood(blocks: seq<Block>, caret: Caret, text: string)
    requires Shaped(blocks) && (IsTextAt(blocks, caret.blockIndex) ==> ValidCaret(blocks, caret))
    ensures InsertText(blocks, caret, text).Some? && Good(InsertText(blocks, caret, text).value)
  {
  }

  /** Replacing a slash line moves a caret that was not on text nowhere; any other ends on text. */
  lemma ReplaceSlashLineIsGood(blocks: seq<Block>, caret: Caret, step: TokenStep)
    requires Shaped(blocks)
    ensures var r := ReplaceSlashLine(blocks, caret, step);
      && r.Some? && Shaped(r.value.blocks)
      && (ValidCaret(r.value.blocks, r.value.caret) <==> IsTextAt(blocks, caret.blockIndex))
  {
    if IsTextAt(blocks, caret.blockIndex) {
      InsertTokenIsGood(blocks, caret, step);
      var text := blocks[caret.blockIndex].text;
      var slash := FindSlashQuery(text, caret.offset);
      if slash.Some? {
        var r := ReplaceSlashLine(blocks, caret, step).value;
        var before, after := r.blocks[caret.blockIndex].text, r.blocks[caret.blockIndex + 2].text;
        SplitIsGood(blocks, caret.blockIndex, before, after, step);
      }
    }
  }

  /** Removing a token leaves a caret on text; asked to remove something else, it does so exactly when the
      place before is text or there is none. */
  lemma RemoveTokenIsGood(blocks: seq<Block>, i: int)
    requires Shaped(blocks)
    ensures var r := RemoveToken(blocks, i);
      && Shaped(r.blocks)
      && (IsTokenAt(blocks, i) ==> ValidCaret(r.blocks, r.caret))
      && (!IsTokenAt(blocks, i) ==>
            r.blocks == blocks && (ValidCaret(r.blocks, r.caret) <==> i <= 1 || IsTextAt(blocks, i - 1)))
  {
    if IsTokenAt(blocks, i) {
      assert blocks[i - 1].Text? && blocks[i + 1].Text?;
    }
  }

  /** Asked to remove the text behind a token, it returns a caret on the token. */
  lemma RemovedTextLeavesCaretOnToken(before: Block, token: TokenStep, after: Block)
    requires before.Text? && after.Text?
    ensures var blocks := [before, Token(token), after];
      && Shaped(blocks)
      && RemoveToken(blocks, 2) == Edit(blocks, Caret(1, 0)) && !ValidCaret(blocks, Caret(1, 0))
  {
    var blocks := [before, Token(token), after];
    assert blocks[0].Text? && blocks[1].Token? && blocks[2].Text?;
  }

  // ---- What an edit changes in what is typed ----

  /** Everything before a block, and everything after it. */
  function Head(blocks: seq<Block>, i: nat): seq<Item>
    requires i <= |blocks|
  {
    Typed(blocks[..i])
  }

  function Tail(blocks: seq<Block>, i: nat): seq<Item>
    requires i < |blocks|
  {
    Typed(blocks[i + 1..])
  }

  lemma TypedAround(a: seq<Block>, b: Block, c: seq<Block>)
    ensures Typed(a + [b] + c) == Typed(a) + Items(b) + Typed(c)
  {
    TypedConcat(a + [b], c);
    TypedAppend(a, b);
  }

  lemma CutAt(blocks: seq<Block>, i: nat)
    requires i < |blocks|
    ensures blocks == blocks[..i] + [blocks[i]] + blocks[i + 1..]
    ensures 0 < i < |blocks| - 1 ==>
      blocks == blocks[..i - 1] + [blocks[i - 1], blocks[i], blocks[i + 1]] + blocks[i + 2..]
  {
  }

  lemma TypedAt(blocks: seq<Block>, i: nat)
    requires i < |blocks|
    ensures Typed(blocks) == Head(blocks, i) + Items(blocks[i]) + Tail(blocks, i)
  {
    CutAt(blocks, i);
    TypedAround(blocks[..i], blocks[i], blocks[i + 1..]);
  }

  lemma TypedThree(a: seq<Block>, x: Block, y: Block, z: Block, c: seq<Block>)
    ensures Typed(a + [x, y, z] + c) == Typed(a) + (Items(x) + Items(y) + Items(z)) + Typed(c)
  {
    assert a + [x, y, z] + c == ((a + [x]) + [y]) + [z] + c;
    TypedAround((a + [x]) + [y], z, c);
    TypedAppend(a + [x], y);
    TypedAppend(a, x);
    Assoc(Typed(a) + Items(x), Items(y), Items(z));
    Assoc(Typed(a), Items(x), Items(y) + Items(z));
    Assoc(Items(x), Items(y), Items(z));
  }

  lemma SplitTypes(blocks: seq<Block>, i: nat, before: string, after: string, step: TokenStep)
    requires IsTextAt(blocks, i)
    ensures Typed(SplitAround(blocks, i, before, after, step).blocks)
            == Head(blocks, i) + (Chars(before) + [Press(step)] + Chars(after)) + Tail(blocks, i)
  {
    TypedThree(blocks[..i], Text(blocks[i].id, before), Token(step), Text(Made, after), blocks[i + 1..]);
  }

  lemma LinePartsMakeText(text: string, offset: nat)
    ensures var parts := SplitAtLineEnd(text, offset);
      text == parts.0 + (if LineEnd(text, offset) < |text| then "\n" else "") + parts.1
  {
  }

  /** Inserting a token puts it in place of the line break that ends the caret's line, or at the end of
      the text when there is none; nothing else that is typed changes. */
  lemma InsertTokenTypes(blocks: seq<Block>, caret: Caret, step: TokenStep)
    requires Shaped(blocks) && ValidCaret(blocks, caret)
    ensures var i, text := caret.blockIndex, blocks[caret.blockIndex].text;
      var end := LineEnd(text, caret.offset);
      var before, after := text[..end], if end < |text| then text[end + 1..] else "";
      && Typed(blocks) == Head(blocks, i) + Chars(text) + Tail(blocks, i)
      && text == before + (if end < |text| then "\n" else "") + after
      && Typed(InsertToken(blocks, caret, step).value.blocks)
         == Head(blocks, i) + (Chars(before) + [Press(step)] + Chars(after)) + Tail(blocks, i)
  {
    var i, text := caret.blockIndex, blocks[caret.blockIndex].text;
    var parts := SplitAtLineEnd(text, caret.offset);
    LinePartsMakeText(text, caret.offset);
    assert InsertToken(blocks, caret, step) == Some(SplitAround(blocks, i, parts.0, parts.1, step));
    TypedAt(blocks, i);
    SplitTypes(blocks, i, parts.0, parts.1, step);
  }

  /** A text around one of its lines, with the line breaks that set it off. */
  predicate AroundLine(text: string, start: nat, end: nat, before: string, after: string)
    requires start <= end <= |text|
  {
    text == before + (if start > 0 then "\n" else "") + text[start..end] + (if end < |text| then "\n" else "") + after
  }

  lemma SlashParts(text: string, start: nat, end: nat) returns (before: string, after: string)
    requires SlashLine(text, start, end)
    ensures AroundLine(text, start, end, before, after)
    ensures text[..start] == before + (if start > 0 then "\n" else "")
    ensures text[end..] == (if end < |text| then "\n" else "") + after
    ensures (start == 0 ==> before == "") && (end == |text| ==> after == "")
  {
    before := if start > 0 then text[..start - 1] else "";
    after := if end < |text| then text[end + 1..] else "";
  }

  /** A slash line gives way to the token together with the line breaks around it. */
  lemma ReplaceSlashLineTypes(blocks: seq<Block>, caret: Caret, step: TokenStep, start: nat)
      returns (before: string, after: string)
    requires Shaped(blocks) && ValidCaret(blocks, caret)
    requires SlashLine(blocks[caret.blockIndex].text, start, caret.offset)
    ensures AroundLine(blocks[caret.blockIndex].text, start, caret.offset, before, after)
    ensures Typed(ReplaceSlashLine(blocks, caret, step).value.blocks)
            == Head(blocks, caret.blockIndex) + (Chars(before) + [Press(step)] + Chars(after))
               + Tail(blocks, caret.blockIndex)
  {
    var i, text, end := caret.blockIndex, blocks[caret.blockIndex].text, caret.offset;
    before, after := SlashParts(text, start, end);
    ReplaceIsSplit(blocks, caret, step, start, before, after);
    SplitTypes(blocks, i, before, after, step);
  }

  lemma ReplaceIsSplit(
    blocks: seq<Block>, caret: Caret, step: TokenStep, start: nat, before: string, after: string)
    requires ValidCaret(blocks, caret) && SlashLine(blocks[caret.blockIndex].text, start, caret.offset)
    requires var text := blocks[caret.blockIndex].text;
      && text[..start] == before + (if start > 0 then "\n" else "")
      && text[caret.offset..] == (if caret.offset < |text| then "\n" else "") + after
      && (start == 0 ==> before == "") && (caret.offset == |text| ==> after == "")
    ensures ReplaceSlashLine(blocks, caret, step) == Some(SplitAround(blocks, caret.blockIndex, before, after, step))
  {
    var text := blocks[caret.blockIndex].text;
    SlashQueryExactly(text, caret.offset, start);
    assert start > 0 ==> (before + "\n")[..|before|] == before;
    assert caret.offset < |text| ==> ("\n" + after)[1..] == after;
  }

  function Between(before: string, after: string): seq<Item> {
    if before != "" && after != "" then [Char('\n')] else []
  }

  lemma JoinedChars(before: string, after: string)
    ensures Chars(Joined(before, after))
            == Chars(before) + Between(before, after) + Chars(after)
  {
    assert Chars("\n") == [Char('\n')];
    CharsConcat(before + "\n", after);
    CharsConcat(before, "\n");
    CharsConcat(before, after);
  }

  lemma TextAround(blocks: seq<Block>, i: nat)
    requires Shaped(blocks) && IsTokenAt(blocks, i)
    ensures 0 < i < |blocks| - 1 && blocks[i - 1].Text? && blocks[i + 1].Text?
  {
  }

  lemma TypedPair(a: seq<Block>, x: Block, z: Block, c: seq<Block>)
    requires x.Text? && z.Text?
    ensures Typed(a + [Text(x.id, Joined(x.text, z.text))] + c)
            == Typed(a) + (Chars(x.text) + Between(x.text, z.text) + Chars(z.text)) + Typed(c)
  {
    TypedAround(a, Text(x.id, Joined(x.text, z.text)), c);
    JoinedChars(x.text, z.text);
  }

  /** Removing a token leaves a line break in its place exactly when there is text on both sides. */
  lemma RemoveTokenTypes(blocks: seq<Block>, i: nat)
    requires Shaped(blocks) && IsTokenAt(blocks, i)
    ensures 0 < i < |blocks| - 1 && blocks[i - 1].Text? && blocks[i + 1].Text?
    ensures var before, after := blocks[i - 1].text, blocks[i + 1].text;
      && Typed(blocks)
         == Head(blocks, i - 1) + (Chars(before) + [Press(blocks[i].step)] + Chars(after)) + Tail(blocks, i + 1)
      && Typed(RemoveToken(blocks, i).blocks)
         == Head(blocks, i - 1) + (Chars(before) + Between(before, after) + Chars(after)) + Tail(blocks, i + 1)
  {
    TextAround(blocks, i);
    var x, y, z := blocks[i - 1], blocks[i], blocks[i + 1];
    var a, c := blocks[..i - 1], blocks[i + 2..];
    assert RemoveToken(blocks, i).blocks == a + [Text(x.id, Joined(x.text, z.text))] + c;
    TypedPair(a, x, z, c);
    CutAt(blocks, i);
    TypedThree(a, x, y, z, c);
  }

  /** Inserted text is typed at the caret, and nothing else changes. */
  lemma InsertTextTypes(blocks: seq<Block>, caret: Caret, text: string)
    requires Shaped(blocks) && ValidCaret(blocks, caret)
    ensures var i, was, k := caret.blockIndex, blocks[caret.blockIndex].text, caret.offset;
      && Typed(blocks) == Head(blocks, i) + (Chars(was[..k]) + Chars(was[k..])) + Tail(blocks, i)
      && Typed(InsertText(blocks, caret, text).value.blocks)
         == Head(blocks, i) + (Chars(was[..k]) + Chars(text) + Chars(was[k..])) + Tail(blocks, i)
  {
    var i, b, k := caret.blockIndex, blocks[caret.blockIndex], caret.offset;
    TypedAt(blocks, i);
    assert b.text == b.text[..k] + b.text[k..];
    CharsConcat(b.text[..k], b.text[k..]);
    CharsConcat(b.text[..k] + text, b.text[k..]);
    CharsConcat(b.text[..k], text);
    TypedAround(blocks[..i], Text(b.id, b.text[..k] + text + b.text[k..]), blocks[i + 1..]);
  }

  // ---- Taking a token back ----

  /** Removing the token just inserted gives the script back, ids included, exactly when no line break
      was used up or there was text on both sides of it. */
  lemma RemoveUndoesInsertExactly(blocks: seq<Block>, caret: Caret, step: TokenStep)
    requires Shaped(blocks) && ValidCaret(blocks, caret)
    ensures var text, end := blocks[caret.blockIndex].text, LineEnd(blocks[caret.blockIndex].text, caret.offset);
      RemoveToken(InsertToken(blocks, caret, step).value.blocks, caret.blockIndex + 1).blocks == blocks
      <==> end == |text| || 0 < end < |text| - 1
  {
    var i, b := caret.blockIndex, blocks[caret.blockIndex];
    var end := LineEnd(b.text, caret.offset);
    var parts := SplitAtLineEnd(b.text, caret.offset);
    var after := RemoveToken(InsertToken(blocks, caret, step).value.blocks, i + 1).blocks;
    SplitThenRemove(blocks, i, parts.0, parts.1, step);
    JoinExactly(b.text, end);
    assert after[i] == Text(b.id, Joined(parts.0, parts.1));
    assert Joined(parts.0, parts.1) == b.text ==> after == blocks;
  }

  /** A line break that starts a text is lost when a token is inserted before it and removed again. */
  lemma InsertThenRemoveLosesABreak(id: BlockId, step: TokenStep)
    ensures var blocks := [Text(id, "\na")];
      && Shaped(blocks) && ValidCaret(blocks, Caret(0, 0))
      && RemoveToken(InsertToken(blocks, Caret(0, 0), step).value.blocks, 1).blocks == [Text(id, "a")]
  {
    var blocks := [Text(id, "\na")];
    assert LineEnd("\na", 0) == 0 && "\na"[1..] == "a" && "\na"[..0] == "";
    assert InsertToken(blocks, Caret(0, 0), step) == Some(SplitAround(blocks, 0, "", "a", step));
    SplitThenRemove(blocks, 0, "", "a", step);
    var nothing := "";
    assert nothing + "a" == "a" && Joined(nothing, "a") == "a";
  }

  lemma SplitThenRemove(blocks: seq<Block>, i: nat, before: string, after: string, step: TokenStep)
    requires IsTextAt(blocks, i)
    ensures RemoveToken(SplitAround(blocks, i, before, after, step).blocks, i + 1).blocks
            == blocks[i := Text(blocks[i].id, Joined(before, after))]
  {
    var mid := SplitAround(blocks, i, before, after, step).blocks;
    assert mid[..i] == blocks[..i] && mid[i + 3..] == blocks[i + 1..];
  }

  lemma JoinExactly(text: string, end: nat)
    requires end <= |text| && (end < |text| ==> text[end] == '\n')
    ensures Joined(text[..end], if end < |text| then text[end + 1..] else "") == text
            <==> end == |text| || 0 < end < |text| - 1
  {
    if end < |text| {
      assert text == text[..end] + "\n" + text[end + 1..];
      assert |text[..end] + text[end + 1..]| < |text|;
    }
  }
}
