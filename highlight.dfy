/** How the widget renders each letter: its class list, from the session
    state and the letter's position alone. */
module Highlight {
  import opened TextLayout
  import opened Typer

  /** The class tokens of the letter at `p`: the letter under the cursor is
      highlighted (and shown red while there is a mistake); any other letter
      typed correctly is shown white. */
  function LetterClasses(s: Session, p: Cursor): (r: seq<string>)
    ensures |r| > 0 && r[0] == "letter"
    ensures "bg-black" in r <==> p == s.cursor
    ensures "text-red-500" in r <==> p == s.cursor && s.mistake
    ensures "text-white" in r <==> p != s.cursor && IsCorrect(s.correctness, p)
    ensures p == s.cursor ==> r[|r| - 1] == "bg-black"
    ensures forall t :: t in r ==> t in {"letter", "text-red-500", "bg-black", "text-white"}
    ensures forall i, j :: 0 <= i < j < |r| ==> r[i] != r[j]
  {
    var isCorrect := IsCorrect(s.correctness, p);
    var isCurrent := p == s.cursor;
    if isCurrent then
      ["letter"] + (if s.mistake then ["text-red-500"] else []) + ["bg-black"]
    else if isCorrect then
      ["letter", "text-white"]
    else
      ["letter"]
  }

  /** The class list of every displayed letter, nested like the text. */
  function Render(s: Session): (r: seq<seq<seq<seq<string>>>>)
    ensures |r| == |s.lines|
    ensures forall l :: 0 <= l < |r| ==>
      |r[l]| == |s.lines[l]| &&
      forall w :: 0 <= w < |r[l]| ==>
        |r[l][w]| == |s.lines[l][w]| &&
        forall i :: 0 <= i < |r[l][w]| ==> r[l][w][i] == LetterClasses(s, Cursor(l, w, i))
  {
    seq(|s.lines|, l requires 0 <= l < |s.lines| =>
      seq(|s.lines[l]|, w requires 0 <= w < |s.lines[l]| =>
        seq(|s.lines[l][w]|, i requires 0 <= i < |s.lines[l][w]| => LetterClasses(s, Cursor(l, w, i)))))
  }

  /** Exactly the letter under the cursor is highlighted, and some letter is
      highlighted exactly when the cursor is on a letter. */
  lemma HighlightIsCursor(s: Session)
    ensures forall l, w, i :: 0 <= l < |s.lines| && 0 <= w < |s.lines[l]| && 0 <= i < |s.lines[l][w]| ==>
      ("bg-black" in Render(s)[l][w][i] <==> Cursor(l, w, i) == s.cursor)
    ensures (exists l, w, i :: 0 <= l < |s.lines| && 0 <= w < |s.lines[l]| && 0 <= i < |s.lines[l][w]| &&
                               "bg-black" in Render(s)[l][w][i]) <==> OnLetter(s.lines, s.cursor)
  {
  }
}
