/** The text a typing session displays: lines of words of letters, the
    correctness grid laid out like it, and the cursor that walks both.

    Besides the nested layout the game itself uses, this module gives a
    second, flat view of the same text: every letter in reading order, one
    after another, with the cursor as a single offset into it. The typing
    lemmas use the flat view as an independent statement of "advance by one
    letter". */
module TextLayout {

  type Word = string
  type Line = seq<Word>
  type Text = seq<Line>

  /** One boolean per letter, indexed like the text: line, word, letter. */
  type Grid = seq<seq<seq<bool>>>

  /** A position in the text: line index, word index, letter index. */
  datatype Cursor = Cursor(line: nat, word: nat, letter: nat)

  /** The grid has exactly one cell per letter of the text. */
  predicate SameShape(text: Text, grid: Grid) {
    |grid| == |text| &&
    forall l :: 0 <= l < |text| ==>
      |grid[l]| == |text[l]| &&
      forall w :: 0 <= w < |text[l]| ==> |grid[l][w]| == |text[l][w]|
  }

  /** Every line holds a word and every word holds a letter. */
  predicate WellFormed(text: Text) {
    forall l :: 0 <= l < |text| ==>
      |text[l]| > 0 && forall w :: 0 <= w < |text[l]| ==> |text[l][w]| > 0
  }

  /** The cursor names an existing line and an existing word of it. */
  predicate OnWord(text: Text, c: Cursor) {
    c.line < |text| && c.word < |text[c.line]|
  }

  /** The cursor names an existing letter. */
  predicate OnLetter(text: Text, c: Cursor) {
    OnWord(text, c) && c.letter < |text[c.line][c.word]|
  }

  /** The position just past the last line. */
  function EndOf(text: Text): Cursor {
    Cursor(|text|, 0, 0)
  }

  /** The cursor stands on a line (possibly just past its last word) or
      just past the whole text: every position the flat offset is defined for. */
  predicate Positioned(text: Text, c: Cursor) {
    (c.line < |text| && c.word <= |text[c.line]|) || c == EndOf(text)
  }

  /** Reading order on positions. */
  predicate Before(p: Cursor, c: Cursor) {
    p.line < c.line ||
    (p.line == c.line && (p.word < c.word || (p.word == c.word && p.letter < c.letter)))
  }

  /** The grid's cell at `c`, read as false where the grid has no such cell. */
  predicate IsCorrect(grid: Grid, c: Cursor) {
    c.line < |grid| && c.word < |grid[c.line]| && c.letter < |grid[c.line][c.word]| &&
    grid[c.line][c.word][c.letter]
  }

  /** The letters of a line, in order, with no separators. */
  function FlatLine(line: Line): string {
    if |line| == 0 then [] else FlatLine(line[..|line| - 1]) + line[|line| - 1]
  }

  /** The letters of the whole text, in order, with no separators. */
  function FlatText(text: Text): string {
    if |text| == 0 then [] else FlatText(text[..|text| - 1]) + FlatLine(text[|text| - 1])
  }

  /** How many letters of the text come before the cursor. */
  function Offset(text: Text, c: Cursor): nat
    requires Positioned(text, c)
  {
    |FlatText(text[..c.line])| +
    (if c.line < |text| then |FlatLine(text[c.line][..c.word])| else 0) +
    c.letter
  }

  lemma FlatLineSnoc(line: Line, w: nat)
    requires w < |line|
    ensures FlatLine(line[..w + 1]) == FlatLine(line[..w]) + line[w]
  {
    assert line[..w + 1][..w] == line[..w];
  }

  lemma {:induction false} FlatLinePrefix(line: Line, w: nat)
    requires w <= |line|
    ensures FlatLine(line[..w]) <= FlatLine(line)
    decreases |line| - w
  {
    if w == |line| {
      assert line[..w] == line;
    } else {
      FlatLineSnoc(line, w);
      FlatLinePrefix(line, w + 1);
    }
  }

  lemma FlatTextSnoc(text: Text, l: nat)
    requires l < |text|
    ensures FlatText(text[..l + 1]) == FlatText(text[..l]) + FlatLine(text[l])
  {
    assert text[..l + 1][..l] == text[..l];
  }

  lemma {:induction false} FlatTextPrefix(text: Text, l: nat)
    requires l <= |text|
    ensures FlatText(text[..l]) <= FlatText(text)
    decreases |text| - l
  {
    if l == |text| {
      assert text[..l] == text;
    } else {
      FlatTextSnoc(text, l);
      FlatTextPrefix(text, l + 1);
    }
  }

  /** The letter under the cursor is the flat text's letter at the cursor's
      offset: the nested and the flat view agree. */
  lemma OffsetAtLetter(text: Text, c: Cursor)
    requires OnLetter(text, c)
    ensures Offset(text, c) < |FlatText(text)|
    ensures FlatText(text)[Offset(text, c)] == text[c.line][c.word][c.letter]
  {
    var line := text[c.line];
    FlatLineSnoc(line, c.word);
    FlatLinePrefix(line, c.word + 1);
    FlatTextSnoc(text, c.line);
    FlatTextPrefix(text, c.line + 1);
    var before := |FlatText(text[..c.line])|;
    var within := |FlatLine(line[..c.word])|;
    assert FlatLine(line)[within + c.letter] == line[c.word][c.letter];
    assert FlatText(text)[before + within + c.letter] == FlatLine(line)[within + c.letter];
  }

  /** Just past a word's last letter is the same flat position as the start
      of the next word. */
  lemma OffsetAtWordEnd(text: Text, l: nat, w: nat)
    requires l < |text| && w < |text[l]|
    ensures Offset(text, Cursor(l, w, |text[l][w]|)) == Offset(text, Cursor(l, w + 1, 0))
  {
    FlatLineSnoc(text[l], w);
  }

  /** Just past a line's last word is the same flat position as the start of
      the next line (or the end of the text). */
  lemma OffsetAtLineEnd(text: Text, l: nat)
    requires l < |text|
    ensures Positioned(text, Cursor(l + 1, 0, 0))
    ensures Offset(text, Cursor(l, |text[l]|, 0)) == Offset(text, Cursor(l + 1, 0, 0))
  {
    assert text[l][..|text[l]|] == text[l];
    FlatTextSnoc(text, l);
  }

  /** Past the whole text the offset is the number of letters in it. */
  lemma OffsetAtEnd(text: Text)
    ensures Offset(text, EndOf(text)) == |FlatText(text)|
  {
    assert text[..|text|] == text;
  }
}
