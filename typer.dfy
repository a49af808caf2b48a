/** The typing widget's session state and its key-up handler.

    `Next` is the handler as one atomic transition over an explicit state
    record: the batched setter calls of one event applied together.
    `Component` holds the same state in mutable fields, and its
    `HandleKeyUp` performs the handler's updates step by step; its contract
    ties the new state to `Next`. */
module Typer {
  import opened TextLayout

  /** The widget's state: the displayed lines, the cursor, the correctness
      grid and the mistake flag. */
  datatype Session = Session(lines: Text, cursor: Cursor, correctness: Grid, mistake: bool)

  /** The state after one key, and whether the handler asked the line
      source for a fresh line. */
  datatype Step = Step(after: Session, fetched: bool)

  const Space: string := " "

  /** What the handler needs: the cursor's line and word exist (it reads
      them before anything else). The grid having the text's shape is the
      widget's own invariant, assumed of every grid the helpers write; it
      makes the cell the handler writes exist. */
  predicate Ready(s: Session) {
    OnWord(s.lines, s.cursor) && SameShape(s.lines, s.correctness)
  }

  function CurrentWord(s: Session): Word
    requires OnWord(s.lines, s.cursor)
  {
    s.lines[s.cursor.line][s.cursor.word]
  }

  /** The key is the letter under the cursor. Past the word's end there is
      no letter, and no key matches. */
  predicate Matches(s: Session, key: string)
    requires OnWord(s.lines, s.cursor)
  {
    s.cursor.letter < |CurrentWord(s)| && key == [CurrentWord(s)[s.cursor.letter]]
  }

  /** The letter under the cursor is its word's last. */
  predicate EndsWord(s: Session)
    requires OnWord(s.lines, s.cursor)
  {
    s.cursor.letter + 1 == |CurrentWord(s)|
  }

  /** The letter under the cursor is the last of its line's last word. */
  predicate EndsLine(s: Session)
    requires OnWord(s.lines, s.cursor)
  {
    EndsWord(s) && s.cursor.word + 1 == |s.lines[s.cursor.line]|
  }

  /** The second of three buffered lines: finishing it fetches a new line. */
  predicate AtFetchPoint(s: Session) {
    s.cursor.line == 1 && |s.lines| == 3
  }

  /** The grid with the cell at `c` set to true. */
  function MarkCorrect(grid: Grid, c: Cursor): (g: Grid)
    requires c.line < |grid| && c.word < |grid[c.line]| && c.letter < |grid[c.line][c.word]|
    ensures |g| == |grid|
    ensures forall l :: 0 <= l < |grid| ==>
      |g[l]| == |grid[l]| && forall w :: 0 <= w < |grid[l]| ==> |g[l][w]| == |grid[l][w]|
    ensures IsCorrect(g, c)
    ensures forall p :: p != c ==> IsCorrect(g, p) == IsCorrect(grid, p)
  {
    grid[c.line := grid[c.line][c.word := grid[c.line][c.word][c.letter := true]]]
  }

  /** One key-up event. */
  function Next(s: Session, key: string): (r: Step)
    requires Ready(s)
    // the handler itself never writes the lines, and the grid keeps its shape
    ensures r.after.lines == s.lines
    ensures SameShape(r.after.lines, r.after.correctness)
    ensures Positioned(r.after.lines, r.after.cursor)
    // no cell is ever set back to false
    ensures forall p :: IsCorrect(s.correctness, p) ==> IsCorrect(r.after.correctness, p)
    // a correct key marks exactly the cell under the cursor and clears the mistake
    ensures Matches(s, key) ==>
      IsCorrect(r.after.correctness, s.cursor) && !r.after.mistake &&
      forall p :: p != s.cursor ==> IsCorrect(r.after.correctness, p) == IsCorrect(s.correctness, p)
    ensures !Matches(s, key) ==> r.after.correctness == s.correctness && !r.fetched
    // where a correct key moves the cursor
    ensures Matches(s, key) && !EndsWord(s) ==>
      r.after.cursor == Cursor(s.cursor.line, s.cursor.word, s.cursor.letter + 1)
    ensures Matches(s, key) && EndsWord(s) && !EndsLine(s) ==>
      r.after.cursor == Cursor(s.cursor.line, s.cursor.word + 1, 0)
    ensures Matches(s, key) && EndsLine(s) ==>
      r.fetched == AtFetchPoint(s) &&
      r.after.cursor == (if AtFetchPoint(s) then Cursor(1, 0, 0) else Cursor(s.cursor.line + 1, 0, 0))
    ensures Matches(s, key) && !EndsLine(s) ==> !r.fetched
    // a space just past the word's end moves to the next word and changes nothing else
    ensures !Matches(s, key) && key == Space && s.cursor.letter == |CurrentWord(s)| ==>
      r.after == s.(cursor := Cursor(s.cursor.line, s.cursor.word + 1, 0))
    // any other space does nothing at all, in particular it is no mistake
    ensures !Matches(s, key) && key == Space && s.cursor.letter != |CurrentWord(s)| ==>
      r.after == s
    // any other key is a mistake and moves nothing
    ensures !Matches(s, key) && key != Space ==>
      r.after == s.(mistake := true)
  {
    var c := s.cursor;
    var word := CurrentWord(s);
    if Matches(s, key) then
      var marked := s.(correctness := MarkCorrect(s.correctness, c), mistake := false);
      if c.letter + 1 == |word| then
        if c.word + 1 == |s.lines[c.line]| then
          if c.line == 1 && |s.lines| == 3 then
            Step(marked.(cursor := Cursor(1, 0, 0)), true)
          else
            Step(marked.(cursor := Cursor(c.line + 1, 0, 0)), false)
        else
          Step(marked.(cursor := Cursor(c.line, c.word + 1, 0)), false)
      else
        Step(marked.(cursor := Cursor(c.line, c.word, c.letter + 1)), false)
    else if key == Space then
      if c.letter == |word| then
        Step(s.(cursor := Cursor(c.line, c.word + 1, 0)), false)
      else
        Step(s, false)
    else
      Step(s.(mistake := true), false)
  }

  /** Measured on the flat text: a correct key moves the cursor exactly one
      letter on, unless it fetched, when the cursor is back at the start of
      the second line; every other key leaves the flat position where it was,
      including the space that steps over a word boundary. */
  lemma KeyMovesAlongText(s: Session, key: string)
    requires Ready(s)
    ensures Positioned(s.lines, s.cursor)
    ensures Matches(s, key) && !Next(s, key).fetched ==>
      Offset(s.lines, Next(s, key).after.cursor) == Offset(s.lines, s.cursor) + 1
    ensures Next(s, key).fetched ==>
      Offset(s.lines, Next(s, key).after.cursor) == |FlatLine(s.lines[0])|
    ensures !Matches(s, key) ==>
      Offset(s.lines, Next(s, key).after.cursor) == Offset(s.lines, s.cursor)
  {
    var c := s.cursor;
    var r := Next(s, key);
    if Matches(s, key) {
      if r.fetched {
        FlatTextSnoc(s.lines, 0);
        assert s.lines[..0] == [];
        assert s.lines[1][..0] == [];
      } else if EndsLine(s) {
        OffsetAtWordEnd(s.lines, c.line, c.word);
        OffsetAtLineEnd(s.lines, c.line);
        if c.line + 1 < |s.lines| {
          assert s.lines[c.line + 1][..0] == [];
        }
      } else if EndsWord(s) {
        OffsetAtWordEnd(s.lines, c.line, c.word);
      }
    } else if key == Space && c.letter == |CurrentWord(s)| {
      OffsetAtWordEnd(s.lines, c.line, c.word);
    }
  }

  /** In reading order a correct key that does not fetch moves the cursor to
      the very next letter: the letters before the new cursor are those before
      the old one, plus the one just typed. */
  lemma CorrectKeyIsSuccessor(s: Session, key: string, p: Cursor)
    requires Ready(s) && Matches(s, key) && !Next(s, key).fetched
    requires OnLetter(s.lines, p)
    ensures Before(p, Next(s, key).after.cursor) <==> Before(p, s.cursor) || p == s.cursor
  {
  }

  /** On a text whose lines and words are non-empty, a cursor on a letter
      stays on a letter, until a correct key finishes the last line of the
      buffer without fetching; then it stands past the end. In particular the
      letter index never reaches the word's length. */
  lemma StaysOnText(s: Session, key: string)
    requires Ready(s) && WellFormed(s.lines) && OnLetter(s.lines, s.cursor)
    ensures OnLetter(s.lines, Next(s, key).after.cursor) || Next(s, key).after.cursor == EndOf(s.lines)
    ensures Next(s, key).after.cursor == EndOf(s.lines) <==>
      Matches(s, key) && EndsLine(s) && !AtFetchPoint(s) && s.cursor.line + 1 == |s.lines|
  {
  }

  /** The widget's state cells, updated in place by the key handler. */
  class Component {
    var lines: Text
    var lineIndex: nat
    var wordIndex: nat
    var letterIndex: nat
    var correctness: Grid
    var mistake: bool

    /** The state as one value. */
    function Snapshot(): Session
      reads this
    {
      Session(lines, Cursor(lineIndex, wordIndex, letterIndex), correctness, mistake)
    }

    /** The initial values the widget's state cells start from. */
    constructor ()
      ensures Snapshot() == Session([], Cursor(0, 0, 0), [], false)
    {
      lines, lineIndex, wordIndex, letterIndex := [], 0, 0, 0;
      correctness, mistake := [], false;
    }

    /** A new game: the game-start helper gets a setter for every field and
        may write all of them; what it writes is decided outside this model.
        This is the entry point for the writes of that foreign helper. */
    method Replace(next: Session)
      modifies this
      ensures Snapshot() == next
    {
      lines, correctness, mistake := next.lines, next.correctness, next.mistake;
      lineIndex, wordIndex, letterIndex := next.cursor.line, next.cursor.word, next.cursor.letter;
    }

    /** The writes of the line-fetch helper: it is handed the setters of the
        lines and of the grid only, so the cursor and the mistake flag stay;
        what it writes is decided outside this model. This is the entry point
        for the writes of that foreign helper, which follow a `HandleKeyUp`
        call that returned `fetched`. */
    method ApplyFetch(newLines: Text, newCorrectness: Grid)
      modifies this`lines, this`correctness
      ensures Snapshot() == old(Snapshot()).(lines := newLines, correctness := newCorrectness)
    {
      lines, correctness := newLines, newCorrectness;
    }

    /** One key-up event. `fetched` says that the handler asked the line
        source for a new line. The source hands it the lines from before the
        key and the grid the callback captured, which may be stale; the
        arguments are not modelled. */
    method HandleKeyUp(key: string) returns (fetched: bool)
      requires Ready(Snapshot())
      modifies this
      ensures Snapshot() == Next(old(Snapshot()), key).after
      ensures fetched == Next(old(Snapshot()), key).fetched
    {
      var currentLineWords := lines[lineIndex];
      var currentWord := currentLineWords[wordIndex];
      fetched := false;
      if letterIndex < |currentWord| && key == [currentWord[letterIndex]] {
        correctness := MarkCorrect(correctness, Cursor(lineIndex, wordIndex, letterIndex));
        mistake := false;
        if letterIndex + 1 == |currentWord| {
          if wordIndex + 1 == |currentLineWords| {
            if lineIndex == 1 && |lines| == 3 {
              lineIndex := 1;
              fetched := true;
            } else {
              lineIndex := lineIndex + 1;
            }
            wordIndex := 0;
            letterIndex := 0;
          } else {
            wordIndex := wordIndex + 1;
            letterIndex := 0;
          }
        } else {
          letterIndex := letterIndex + 1;
        }
      } else if key == Space {
        if letterIndex == |currentWord| {
          wordIndex := wordIndex + 1;
          letterIndex := 0;
        }
      } else {
        mistake := true;
      }
    }
  }
}
