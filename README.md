# Typing game: the key handler of the Typer widget

The Typer widget shows a few lines of random words. The user types them and
the widget tracks each letter's correctness. Its state is:

- the buffered `lines`, each a sequence of words;
- a cursor of three indices: line, word and letter;
- a `correctness` grid with one boolean per letter;
- a `mistake` flag.

Each key-up event is handled by `handleKeyUp`. A key equal to the letter
under the cursor marks that letter correct, clears the mistake and moves the
cursor on: to the next letter, the next word or the next line. On the second
of three buffered lines, the cursor instead stays on line 1 and a new line is
fetched. A space typed just past a word's end moves to the next word. Any
other key sets the mistake flag, except a space, which then does nothing.

The model has four modules:

- `TextLayout` (`text_layout.dfy`): the nested text, the grid, and the
  cursor. It also gives a flat view of the text: all its letters in reading
  order (`FlatText`), with the cursor as one offset into them (`Offset`).
  That flat view is the reference the handler is checked against.
- `Typer` (`typer.dfy`): the session state as a value (`Session`) and the
  handler as one atomic transition (`Next`). All setter calls of one event
  are applied together, and the updater forms (`prev => prev + 1`) act as
  sequential updates. The class `Component` holds the same state in mutable
  fields. Its `HandleKeyUp` performs the updates step by step and is proved
  to end in the state `Next` gives.
- `Highlight` (`highlight.dfy`): the class list of each displayed letter.
- `TypingRuns` (`typing_runs.dfy`): sequences of keys, and what typing a
  whole text does.

The line source is external: `fetchNewLine`, `getRandomWords` and
`startNewGame` come from a helper module that is not part of this model.
`HandleKeyUp` and `Next` report whether the handler called `fetchNewLine`,
not what it passed. The source passes the lines from before the key and the
grid the callback captured. That grid can be stale, and through the shared
inner arrays it can already carry the mark this key sets. What `fetchNewLine` then writes through the two setters it is
handed (the lines and the grid, Typer.tsx:37) arrives through
`Component.ApplyFetch`; a new game from `startNewGame` (Typer.tsx:17, 66),
which is handed every setter, arrives through `Component.Replace`. The model
says nothing about the values written.

Three consequences of the code are worth stating:

- A space that is not the letter under the cursor, typed anywhere except
  just past a word's last letter, does nothing and sets no mistake
  (`Typer.Next`, its no-op case).
- A correct last letter moves straight to the next word. So on a text with
  no empty words the letter index never reaches the word's length
  (`Typer.StaysOnText`). The space branch fires only on an empty word, and a
  space typed between words then does nothing (`TypingRuns.CatDogFish`).
- Finishing the last buffered line without a fetch moves the cursor past the
  end (`Typer.StaysOnText`). The next key then fails where the handler reads
  the line and the word (Typer.tsx:22-23).

## Model

| member | source | states |
|---|---|---|
| `Typer.Next` | components/src/Typer/Typer.tsx:20-58 | One key-up event, on a cursor whose line and word exist. The lines are never written and the grid keeps the text's shape. No cell goes back to false. A matching key sets exactly the cell under the cursor, clears `mistake` and moves the cursor on. If that letter ends the word, the cursor goes to the next word with letter 0. If it ends the line, the cursor goes to the next line, or, on line 1 of 3, stays on line 1, goes to (1, 0, 0) and fetches. A space just past the word's end moves to (line, word + 1, 0) and changes nothing else. Any other space is a complete no-op. Any other key sets `mistake` and changes nothing else. |
| `Typer.MarkCorrect` | components/src/Typer/Typer.tsx:27-31 | The grid keeps its shape, the given cell becomes true, and every other cell reads as before. |
| `Typer.KeyMovesAlongText` | components/src/Typer/Typer.tsx:26-57 | Measured in the flat text, a matching key that does not fetch moves the cursor exactly one letter on. A fetching key puts it at the start of line 1, after all of line 0's letters. Every other key leaves the flat position unchanged, including the space that crosses a word boundary. |
| `Typer.CorrectKeyIsSuccessor` | components/src/Typer/Typer.tsx:33-49 | After a matching key that does not fetch, the letters before the new cursor in reading order are those before the old cursor plus the letter just typed. |
| `Typer.StaysOnText` | components/src/Typer/Typer.tsx:22-55 | On a text with no empty line or word, a cursor on a letter stays on a letter. The one exception is a matching key that finishes the buffer's last line without fetching. That key, and only that key, moves the cursor past the end. |
| `Typer.Component.HandleKeyUp` | components/src/Typer/Typer.tsx:20-59 | Updates the state step by step as the source does. The new state, and whether it fetched, are exactly those of `Next` applied to the old state. |
| `Typer.Component.constructor` | components/src/Typer/Typer.tsx:9-14 | The initial state: no lines, cursor (0, 0, 0), an empty grid, and no mistake. |
| `Typer.Component.Replace` | components/src/Typer/Typer.tsx:16-18 | A new game (`startNewGame`, called at mount and by the "New Game" button at line 66): the values written through all the setters become the whole new state. |
| `Typer.Component.ApplyFetch` | components/src/Typer/Typer.tsx:37 | A fetch (`fetchNewLine`) is handed only the setters of the lines and the grid: those two are replaced, the cursor and `mistake` stay as they are. |
| `TextLayout.OffsetAtLetter` | components/src/Typer/Typer.tsx:22-24 | The letter the handler compares the key with is the flat text's letter at the cursor's offset, and that offset lies inside the flat text. |
| `TextLayout.OffsetAtWordEnd` | components/src/Typer/Typer.tsx:52-54 | Just past a word's last letter is the same flat position as the next word's start. |
| `TextLayout.OffsetAtLineEnd` | components/src/Typer/Typer.tsx:34-42 | Just past a line's last word is the same flat position as the next line's start, or the end of the text. |
| `Highlight.LetterClasses` | components/src/Typer/Typer.tsx:75-89 | The list always starts with `letter`. `bg-black` is present exactly for the letter under the cursor, and comes last there. `text-red-500` is present exactly for that letter while `mistake` holds. `text-white` is present exactly for a correct letter not under the cursor, where a missing grid cell counts as not correct. No other class appears. No class appears twice. |
| `Highlight.Render` | components/src/Typer/Typer.tsx:70-100 | The rendered class lists have the text's shape, and each one is the letter's `LetterClasses`. |
| `Highlight.HighlightIsCursor` | components/src/Typer/Typer.tsx:76-86 | Exactly the displayed letter under the cursor is highlighted. Some letter is highlighted exactly when the cursor is on a letter. |
| `TypingRuns.RunNeverClears` | components/src/Typer/Typer.tsx:26-31 | Over any sequence of keys, the lines and the grid's shape stay, and no cell that was correct becomes incorrect. |
| `TypingRuns.TypeNextLetter` | components/src/Typer/Typer.tsx:26-49 | On a text with no empty line or word, with the grid in the text's shape, the cursor on a letter and every letter before it correct, and unless the key finishes line 1 of 3 (the fetching key): typing the flat text's next letter is a match, and the state after it is exactly `Next`'s. All letters before the new cursor are then correct, the cursor sits one flat letter further on, and `mistake` is clear. |
| `TypingRuns.TypeRest` | components/src/Typer/Typer.tsx:26-49 | On a text with no empty line or word and with other than 3 lines, with the grid in the text's shape, the cursor on a letter or past the end, and every letter before it correct: typing the rest of the flat text leaves every letter correct, the cursor past the end, and `mistake` clear if any key was typed. |
| `TypingRuns.TypeWordRest` | components/src/Typer/Typer.tsx:26-49 | On any buffer, including one where the word's last letter fetches: from a cursor on a letter, with the word's letters before it correct, typing the rest of the current word leaves every letter of that word correct and `mistake` clear. This is through the handler's own writes only; the grid a fetch writes afterwards is not applied. |
| `TypingRuns.TypeWholeText` | components/src/Typer/Typer.tsx:26-49 | Start at (0, 0, 0) on a text with no empty line or word and with other than 3 lines, so no fetch happens. Typing all its letters in order makes every letter correct, puts the cursor past the end, and leaves `mistake` clear. |
| `TypingRuns.CatDogFish` | components/src/Typer/Typer.tsx:20-59 | On the lines "cat dog" and "fish", the keys c, a, t, space, d, o, g, space, f, i, s, h end at cursor (2, 0, 0). Every letter is then correct and `mistake` is clear: each space arrives when the cursor is already on the next word and does nothing. |

## Left out

- `fetchNewLine`, `getRandomWords` and `startNewGame` (helper module, Typer.tsx:3): the helper module is not part of this model. It is foreign code and its words are random. The model records only that the handler calls `fetchNewLine` (the `fetched` result), not the arguments it passes. What `fetchNewLine` writes is an arbitrary argument of `Component.ApplyFetch`, and what `startNewGame` writes one of `Component.Replace`.
- `TypingRuns.Run` applies only the handler's own writes. When a key triggers a fetch, what the helper writes through `setLines` and `setCorrectness` (Typer.tsx:37), the new lines and the new grid, is not applied: a run carries only the handler's own writes. `TypingRuns.TypeWholeText` therefore assumes a buffer with other than 3 lines, where no fetch happens.
- `TypingRuns.TypeWholeText`: covers only texts with no empty lines or words and with other than 3 lines. Other texts either fetch or leave the cursor on an empty word.
- `Typer.Next` and `Typer.Component.HandleKeyUp` require the cursor's line and word to exist: otherwise the source fails where it reads them (Typer.tsx:22-23). A letter index past the word's end is allowed: the source then reads `undefined` and the key does not match. They also require the grid to have the text's shape. That is the widget's invariant, which the model assumes of every grid the helpers write; the source itself would still run on some mis-shaped grids (a grid whose cell under the cursor exists), and those states are not modelled.
- `TypingRuns.TypeNextLetter`: does not cover the key that finishes line 1 of a 3-line buffer, because that key fetches and the lines the helper then adds are not modelled. `TypingRuns.TypeWordRest` covers that key for the current word.
- `TypingRuns.TypeRest`: covers only texts with no empty lines or words and with other than 3 lines, with the grid in the text's shape, for the same reason as `TypingRuns.TypeWholeText`.
- React machinery is not modelled: the state hooks, the effect at Typer.tsx:16-18, `useCallback` and its dependency list at line 59. That list omits `correctness`, so a stale grid can reach `fetchNewLine`.
- The shallow copy at Typer.tsx:28-29 writes into the previous grid's inner arrays. The model treats the write as a value update of one cell, so that aliasing is not captured.
- Keys are compared as Dafny strings of Unicode characters. JavaScript's UTF-16 indexing of the word (`currentWord[i]`) is not modelled.
- `Highlight.LetterClasses` returns the class list. The model does not build the `className` string the source gets by concatenating it with single spaces.
- Not modelled: the JSX layout, the heading, the fixed timer text "30" (Typer.tsx:65), the "New Game" button wiring (Typer.tsx:66), and `LINELENGTH` (Typer.tsx:5), which only goes to the helpers. `app/page.tsx` only renders the widget.
- The race animator, timing and words-per-minute are not in the modelled source file.
