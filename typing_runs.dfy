/** Sequences of key-up events, and what typing a whole text does.

    A run applies the handler's own writes key by key. A fetch the handler
    triggers changes the lines only through the line source, which is not
    modelled, so a run leaves the lines as they are; the theorem about
    typing a whole text is stated for buffers in which no fetch happens. */
module TypingRuns {
  import opened TextLayout
  import opened Typer

  /** The state after the keys, one handler call each. The run stops at the
      first state outside `Ready`: a cursor off the text, where the handler
      fails before it writes anything, or a grid that has lost the text's
      shape, which the widget's helpers never produce. */
  function Run(s: Session, keys: seq<string>): Session
    decreases |keys|
  {
    if |keys| == 0 || !Ready(s) then s
    else Run(Next(s, keys[0]).after, keys[1..])
  }

  /** One key per letter. */
  function Keystrokes(letters: string): seq<string> {
    if |letters| == 0 then [] else [[letters[0]]] + Keystrokes(letters[1..])
  }

  /** Whatever keys arrive, the lines and the grid's shape stay, and no
      correct cell is ever cleared. */
  lemma {:induction false} RunNeverClears(s: Session, keys: seq<string>)
    requires SameShape(s.lines, s.correctness)
    ensures Run(s, keys).lines == s.lines
    ensures SameShape(Run(s, keys).lines, Run(s, keys).correctness)
    ensures forall p :: IsCorrect(s.correctness, p) ==> IsCorrect(Run(s, keys).correctness, p)
    decreases |keys|
  {
    if |keys| > 0 && Ready(s) {
      RunNeverClears(Next(s, keys[0]).after, keys[1..]);
    }
  }

  /** The invariant of typing the flat text in order: the cursor is on a
      letter or past the end, `k` letters come before it, and all of them
      are correct. */
  ghost predicate TypedUpTo(s: Session, k: nat) {
    SameShape(s.lines, s.correctness) && WellFormed(s.lines) &&
    (OnLetter(s.lines, s.cursor) || s.cursor == EndOf(s.lines)) &&
    k == Offset(s.lines, s.cursor) &&
    forall p :: OnLetter(s.lines, p) && Before(p, s.cursor) ==> IsCorrect(s.correctness, p)
  }

  /** Typing the flat text's next letter keeps the invariant one letter on,
      clears the mistake flag, and is the first step of the run. */
  lemma TypeNextLetter(s: Session, k: nat) returns (t: Session)
    requires TypedUpTo(s, k) && OnLetter(s.lines, s.cursor)
    requires !(AtFetchPoint(s) && EndsLine(s))
    ensures k < |FlatText(s.lines)|
    ensures Matches(s, [FlatText(s.lines)[k]]) && t == Next(s, [FlatText(s.lines)[k]]).after
    ensures t.lines == s.lines && TypedUpTo(t, k + 1) && !t.mistake
    ensures Run(s, Keystrokes(FlatText(s.lines)[k..])) == Run(t, Keystrokes(FlatText(s.lines)[k + 1..]))
  {
    var flat := FlatText(s.lines);
    OffsetAtLetter(s.lines, s.cursor);
    var key := [flat[k]];
    assert Keystrokes(flat[k..]) == [key] + Keystrokes(flat[k + 1..]) by {
      assert flat[k..][1..] == flat[k + 1..];
    }
    assert Matches(s, key);
    t := Next(s, key).after;
    KeyMovesAlongText(s, key);
    StaysOnText(s, key);
    forall p | OnLetter(s.lines, p) && Before(p, t.cursor)
      ensures IsCorrect(t.correctness, p)
    {
      CorrectKeyIsSuccessor(s, key, p);
    }
  }

  /** Typing the rest of the flat text, from a cursor on a letter or past
      the end, with every letter before the cursor already correct: the
      cursor ends past the end, every letter is correct, and if anything was
      typed the mistake flag is clear. */
  lemma {:induction false} TypeRest(s: Session, k: nat)
    requires TypedUpTo(s, k) && |s.lines| != 3
    ensures k <= |FlatText(s.lines)|
    ensures Run(s, Keystrokes(FlatText(s.lines)[k..])).cursor == EndOf(s.lines)
    ensures forall p :: OnLetter(s.lines, p) ==>
      IsCorrect(Run(s, Keystrokes(FlatText(s.lines)[k..])).correctness, p)
    ensures k < |FlatText(s.lines)| ==> !Run(s, Keystrokes(FlatText(s.lines)[k..])).mistake
    decreases |FlatText(s.lines)| - k
  {
    var flat := FlatText(s.lines);
    if OnLetter(s.lines, s.cursor) {
      assert !AtFetchPoint(s);
      var t := TypeNextLetter(s, k);
      TypeRest(t, k + 1);
      if k + 1 == |flat| {
        assert flat[k + 1..] == [];
      }
    } else {
      TypedToEnd(s, k);
    }
  }

  /** Once the cursor is past the end, the rest of the flat text is empty
      and every letter is already correct. */
  lemma TypedToEnd(s: Session, k: nat)
    requires TypedUpTo(s, k) && !OnLetter(s.lines, s.cursor)
    ensures k == |FlatText(s.lines)| && s.cursor == EndOf(s.lines)
    ensures Run(s, Keystrokes(FlatText(s.lines)[k..])) == s
    ensures forall p :: OnLetter(s.lines, p) ==> IsCorrect(s.correctness, p)
  {
    var flat := FlatText(s.lines);
    OffsetAtEnd(s.lines);
    assert Keystrokes(flat[k..]) == [] by {
      assert flat[k..] == [];
    }
    assert Run(s, []) == s;
    forall p | OnLetter(s.lines, p) ensures IsCorrect(s.correctness, p) {
      assert Before(p, s.cursor);
    }
  }

  /** Typing the rest of the current word, from a letter of it, with the
      word's letters before the cursor already correct: every letter of the
      word ends correct and the mistake flag is clear. This holds in every
      buffer, including when the word's last letter triggers a fetch. */
  lemma {:induction false} TypeWordRest(s: Session)
    requires Ready(s) && s.cursor.letter < |CurrentWord(s)|
    requires forall i :: 0 <= i < s.cursor.letter ==>
      IsCorrect(s.correctness, Cursor(s.cursor.line, s.cursor.word, i))
    ensures !Run(s, Keystrokes(CurrentWord(s)[s.cursor.letter..])).mistake
    ensures forall i :: 0 <= i < |CurrentWord(s)| ==>
      IsCorrect(Run(s, Keystrokes(CurrentWord(s)[s.cursor.letter..])).correctness,
                Cursor(s.cursor.line, s.cursor.word, i))
    decreases |CurrentWord(s)| - s.cursor.letter
  {
    var c := s.cursor;
    var word := CurrentWord(s);
    var rest := word[c.letter..];
    var key := [word[c.letter]];
    assert Keystrokes(rest) == [key] + Keystrokes(word[c.letter + 1..]) by {
      assert rest[1..] == word[c.letter + 1..];
    }
    var t := Next(s, key).after;
    RunStep(s, Keystrokes(rest));
    assert Run(s, Keystrokes(rest)) == Run(t, Keystrokes(word[c.letter + 1..]));
    if EndsWord(s) {
      assert word[c.letter + 1..] == [];
      assert Run(t, []) == t;
    } else {
      assert t.cursor == Cursor(c.line, c.word, c.letter + 1);
      assert CurrentWord(t) == word;
      TypeWordRest(t);
    }
  }

  /** Typing every letter of the text in order, from the first letter,
      marks every letter correct and leaves the cursor past the end with no
      mistake. */
  lemma TypeWholeText(s: Session)
    requires SameShape(s.lines, s.correctness) && WellFormed(s.lines) && |s.lines| != 3
    requires s.cursor == Cursor(0, 0, 0)
    ensures Run(s, Keystrokes(FlatText(s.lines))).cursor == EndOf(s.lines)
    ensures forall p :: OnLetter(s.lines, p) ==>
      IsCorrect(Run(s, Keystrokes(FlatText(s.lines))).correctness, p)
    ensures |FlatText(s.lines)| > 0 ==> !Run(s, Keystrokes(FlatText(s.lines))).mistake
  {
    assert s.lines[..0] == [];
    if |s.lines| > 0 {
      assert s.lines[0][..0] == [];
    }
    TypeRest(s, 0);
    assert FlatText(s.lines)[0..] == FlatText(s.lines);
  }

  /** A key the handler accepts is the first step of a run. */
  lemma RunStep(s: Session, keys: seq<string>)
    requires Ready(s) && |keys| > 0
    ensures Run(s, keys) == Run(Next(s, keys[0]).after, keys[1..])
  {
  }

  /** Two lines, "cat dog" and "fish", and the keys of typing them with a
      space after each word. */
  const CatDog: Text := [["cat", "dog"], ["fish"]]
  const CatDogKeys: seq<string> := ["c", "a", "t", " ", "d", "o", "g", " ", "f", "i", "s", "h"]

  /** Keys 0 to 3 of the typing of `CatDog`. */
  lemma CatDogPart0(s: Session) returns (t: Session)
    requires s.lines == CatDog && SameShape(s.lines, s.correctness) && s.cursor == Cursor(0, 0, 0)
    ensures t.lines == CatDog && SameShape(t.lines, t.correctness) && t.cursor == Cursor(0, 1, 0) && !t.mistake
    ensures Run(s, CatDogKeys[0..]) == Run(t, CatDogKeys[4..])
    ensures forall p :: p in {Cursor(0, 0, 0), Cursor(0, 0, 1), Cursor(0, 0, 2)} ==> IsCorrect(Run(t, CatDogKeys[4..]).correctness, p)
  {
    assert CatDogKeys[0..][1..] == CatDogKeys[1..];
    RunStep(s, CatDogKeys[0..]);
    var s1 := Next(s, CatDogKeys[0]).after;
    assert s1.cursor == Cursor(0, 0, 1);
    RunNeverClears(s1, CatDogKeys[1..]);
    assert CatDogKeys[1..][1..] == CatDogKeys[2..];
    RunStep(s1, CatDogKeys[1..]);
    var s2 := Next(s1, CatDogKeys[1]).after;
    assert s2.cursor == Cursor(0, 0, 2);
    RunNeverClears(s2, CatDogKeys[2..]);
    assert CatDogKeys[2..][1..] == CatDogKeys[3..];
    RunStep(s2, CatDogKeys[2..]);
    var s3 := Next(s2, CatDogKeys[2]).after;
    assert s3.cursor == Cursor(0, 1, 0);
    RunNeverClears(s3, CatDogKeys[3..]);
    assert CatDogKeys[3..][1..] == CatDogKeys[4..];
    RunStep(s3, CatDogKeys[3..]);
    t := Next(s3, CatDogKeys[3]).after;
    assert t.cursor == Cursor(0, 1, 0);
  }

  /** Keys 4 to 7 of the typing of `CatDog`. */
  lemma CatDogPart1(s: Session) returns (t: Session)
    requires s.lines == CatDog && SameShape(s.lines, s.correctness) && s.cursor == Cursor(0, 1, 0)
    ensures t.lines == CatDog && SameShape(t.lines, t.correctness) && t.cursor == Cursor(1, 0, 0) && !t.mistake
    ensures Run(s, CatDogKeys[4..]) == Run(t, CatDogKeys[8..])
    ensures forall p :: p in {Cursor(0, 1, 0), Cursor(0, 1, 1), Cursor(0, 1, 2)} ==> IsCorrect(Run(t, CatDogKeys[8..]).correctness, p)
  {
    assert CatDogKeys[4..][1..] == CatDogKeys[5..];
    RunStep(s, CatDogKeys[4..]);
    var s5 := Next(s, CatDogKeys[4]).after;
    assert s5.cursor == Cursor(0, 1, 1);
    RunNeverClears(s5, CatDogKeys[5..]);
    assert CatDogKeys[5..][1..] == CatDogKeys[6..];
    RunStep(s5, CatDogKeys[5..]);
    var s6 := Next(s5, CatDogKeys[5]).after;
    assert s6.cursor == Cursor(0, 1, 2);
    RunNeverClears(s6, CatDogKeys[6..]);
    assert CatDogKeys[6..][1..] == CatDogKeys[7..];
    RunStep(s6, CatDogKeys[6..]);
    var s7 := Next(s6, CatDogKeys[6]).after;
    assert s7.cursor == Cursor(1, 0, 0);
    RunNeverClears(s7, CatDogKeys[7..]);
    assert CatDogKeys[7..][1..] == CatDogKeys[8..];
    RunStep(s7, CatDogKeys[7..]);
    t := Next(s7, CatDogKeys[7]).after;
    assert t.cursor == Cursor(1, 0, 0);
  }

  /** Keys 8 to 11 of the typing of `CatDog`. */
  lemma CatDogPart2(s: Session) returns (t: Session)
    requires s.lines == CatDog && SameShape(s.lines, s.correctness) && s.cursor == Cursor(1, 0, 0)
    ensures t.lines == CatDog && SameShape(t.lines, t.correctness) && t.cursor == Cursor(2, 0, 0) && !t.mistake
    ensures Run(s, CatDogKeys[8..]) == Run(t, CatDogKeys[12..])
    ensures forall p :: p in {Cursor(1, 0, 0), Cursor(1, 0, 1), Cursor(1, 0, 2), Cursor(1, 0, 3)} ==> IsCorrect(Run(t, CatDogKeys[12..]).correctness, p)
  {
    assert CatDogKeys[8..][1..] == CatDogKeys[9..];
    RunStep(s, CatDogKeys[8..]);
    var s9 := Next(s, CatDogKeys[8]).after;
    assert s9.cursor == Cursor(1, 0, 1);
    RunNeverClears(s9, CatDogKeys[9..]);
    assert CatDogKeys[9..][1..] == CatDogKeys[10..];
    RunStep(s9, CatDogKeys[9..]);
    var s10 := Next(s9, CatDogKeys[9]).after;
    assert s10.cursor == Cursor(1, 0, 2);
    RunNeverClears(s10, CatDogKeys[10..]);
    assert CatDogKeys[10..][1..] == CatDogKeys[11..];
    RunStep(s10, CatDogKeys[10..]);
    var s11 := Next(s10, CatDogKeys[10]).after;
    assert s11.cursor == Cursor(1, 0, 3);
    RunNeverClears(s11, CatDogKeys[11..]);
    assert CatDogKeys[11..][1..] == CatDogKeys[12..];
    RunStep(s11, CatDogKeys[11..]);
    t := Next(s11, CatDogKeys[11]).after;
    assert t.cursor == Cursor(2, 0, 0);
    RunNeverClears(t, CatDogKeys[12..]);
  }

  /** The ten letter positions of `CatDog`. */
  lemma CatDogLetters(p: Cursor)
    requires OnLetter(CatDog, p)
    ensures p in {Cursor(0, 0, 0), Cursor(0, 0, 1), Cursor(0, 0, 2), Cursor(0, 1, 0), Cursor(0, 1, 1),
                  Cursor(0, 1, 2), Cursor(1, 0, 0), Cursor(1, 0, 1), Cursor(1, 0, 2), Cursor(1, 0, 3)}
  {
    assert |CatDog[0]| == 2 && |CatDog[0][0]| == 3 && |CatDog[0][1]| == 3;
    assert |CatDog[1]| == 1 && |CatDog[1][0]| == 4;
  }

  /** Typing "cat dog" and "fish" letter by letter with a space after each
      word: each space comes when the cursor has already moved on to the next
      word's first letter, so it does nothing, and the session ends past the
      last line with every letter correct and no mistake. */
  lemma CatDogFish()
    ensures var s := Session(CatDog, Cursor(0, 0, 0),
                             [[[false, false, false], [false, false, false]], [[false, false, false, false]]], false);
            var t := Run(s, CatDogKeys);
            t.cursor == Cursor(2, 0, 0) && !t.mistake &&
            forall p :: OnLetter(CatDog, p) ==> IsCorrect(t.correctness, p)
  {
    var s := Session(CatDog, Cursor(0, 0, 0),
                     [[[false, false, false], [false, false, false]], [[false, false, false, false]]], false);
    assert CatDogKeys[0..] == CatDogKeys;
    var s4 := CatDogPart0(s);
    var s8 := CatDogPart1(s4);
    var s12 := CatDogPart2(s8);
    assert CatDogKeys[12..] == [];
    assert Run(s, CatDogKeys) == s12;
    forall p | OnLetter(CatDog, p) ensures IsCorrect(s12.correctness, p) {
      CatDogLetters(p);
    }
  }
}
