# Guess-the-Pokémon round logic and score keeping, in Dafny

This project models the two pieces of sequential logic in a browser quiz game.
In the game, the player sees a creature's silhouette and picks its name from
four buttons.

- **Round assembly** (`fetchQuizData`, module `PokeLogic`). The function draws
  random IDs into a JavaScript `Set` until it holds four distinct IDs between
  1 and 1000. It picks one of the four positions as the answer, looks up each
  ID, and reshapes the four records into button `options` (ID and name, in
  the order the IDs entered the set) and a `correctOption` (ID, name and
  artwork of the answer).
  The ID loop is an imperative method with loop invariants (`GenerateIds`).
  It is proved against `Collected`, a function giving the set's contents in
  insertion order. The reshaping is made of pure functions.
- **Score and reveal state** (`App`, module `App`). The component keeps a
  streak `score`, a best streak `highScore`, and the flags `revealed` and
  `isWrong`. It changes them in `loadQuestion`, `checkHighScore`,
  `handleSkip` and `handleGuess`. The class `App.Game` has these fields and
  one method per handler. Each method is proved equal to a pure transition on
  a `Scoreboard` value (`AfterLoad`, `AfterCheck`, `AfterSkip`,
  `AfterGuess`). Lemmas about `Run`, the fold of those transitions over any
  sequence of events, state that the best streak never decreases and that the
  stored entry stays consistent with it.

The game's inputs from the outside world become parameters:

- `Math.random` becomes a supplied sequence of draws `0 <= r < 1000` and a
  supplied answer position `0 <= k < 4`.
- Each network lookup becomes a supplied function `lookup` from an ID to the
  record that lookup returns.
- The stored `highScore` entry becomes the field `saved`: the last value this
  session wrote, or `None` before any write.
- The value parsed from storage at start-up becomes the constructor's
  argument.
- React's state setters become immediate assignments, made in program order.

Points worth knowing about the code, which the model follows:

- IDs range over 1..1000, although the comment on `getRandomId` says 1..151.
- A guess is compared with the answer by the name of the button pressed.
- `loadQuestion` clears the flags before its `await`, and sets the new round
  only when the lookups resolve. So the model has two methods for it:
  `LoadQuestion` and `ReceiveQuizData`.
- `parseInt(...) || 0` can give a negative start-up value for the best streak,
  so `highScore` is an `int`. The current streak `score` is a `nat`.
- A correct guess does not update `highScore`. So after a run of correct
  guesses the streak can exceed the best streak. `highScore >= score` is
  promised only right after `checkHighScore`, a wrong guess or a skip.

## Model

`App.Step` (one event to its handler) and `App.Run` (events in order) are
helpers without contracts of their own; the lemmas below speak about them.
`App.Scenarios` plays the two wrong-answer scenarios (streak 5 with best 5,
streak 3 with best 2) against the `Game` class. It then shows that a guess
while the answer is shown changes nothing, and plays a skip. Like Step and
Run, it has no postcondition and so no row.

| member | source | states |
|---|---|---|
| `PokeLogic.RandomId` | src/utils/pokeLogic.js:3-4 | every ID a draw produces lies in 1..1000 |
| `PokeLogic.SetAdd` | src/utils/pokeLogic.js:9-10 | `Set.add` on insertion-ordered contents: the value is then present; a value already present leaves the set unchanged; a new one grows it by exactly one at the end and keeps the earlier entries in order; distinctness is preserved |
| `PokeLogic.Collected` | src/utils/pokeLogic.js:8-12 | the set's contents after adding the ID of every draw in turn never outnumber the draws |
| `PokeLogic.CollectedIsIdSet` | src/utils/pokeLogic.js:8-12 | the collected IDs are pairwise distinct, all in 1..1000, and are exactly the set of IDs the draws produce |
| `PokeLogic.CollectedSize` | src/utils/pokeLogic.js:8-11 | the set's size equals the number of distinct IDs among the draws |
| `PokeLogic.DrawsRemain` | src/utils/pokeLogic.js:9 | while the set is smaller than the number of distinct IDs the draws produce, some draw is still unused, so the loop can take another |
| `PokeLogic.CollectedStep` | src/utils/pokeLogic.js:9-10 | one loop iteration is one `add` of the next draw's ID |
| `PokeLogic.GenerateIds` | src/utils/pokeLogic.js:7-12 | the loop stops with `idArray` holding exactly 4 pairwise-distinct IDs in 1..1000, in first-insertion order; they are the contents after the draws it used; the set had fewer than 4 IDs before the last of them, so it stops as soon as it is full; the set never exceeds 4 while it runs |
| `PokeLogic.CorrectId` | src/utils/pokeLogic.js:15-16 | for an answer position in 0..3, `correctId` is an element of `idArray` |
| `PokeLogic.BuildOptions` | src/utils/pokeLogic.js:27-31 | `options` has one entry per record, and entry i holds the id and name of `results[i]` (order preserved) |
| `PokeLogic.AssembleQuiz` | src/utils/pokeLogic.js:27-42 | the round has 4 options matching the records position by position; `correctOption` has the id, name and image of `results[correctIndex]` |
| `PokeLogic.CorrectOptionIsAnOption` | src/utils/pokeLogic.js:33-39 | `correctOption` agrees with `options[correctIndex]` on id and name |
| `PokeLogic.AssembleQuizExample` | src/utils/pokeLogic.js:27-42 | records for IDs 7, 25, 94, 130 with answer position 2 give answer ID 94 and options 7, 25, 94, 130 in that order |
| `PokeLogic.FaithfulLookupsGiveOneAnswer` | src/utils/pokeLogic.js:27-39 | if every lookup answers with the record of the ID it asked for, options built from four distinct IDs carry distinct IDs, and an option carries the answer's ID exactly when it is at the answer's position |
| `PokeLogic.FetchQuizData` | src/utils/pokeLogic.js:6-43 | the whole round: four distinct in-range IDs collected from a prefix of the draws; option i is the id and name of the lookup of ID i; `correctOption` is the id, name and image of the lookup of `correctId`; if each lookup returns the record for the ID it asked for, the options' IDs are pairwise distinct and exactly one option, the one at `correctIndex`, has the answer's ID |
| `App.Max` | src/App.jsx:28-29 | the best streak after a check is the larger of the old best and the streak |
| `App.AfterCheck` | src/App.jsx:27-32 | `checkHighScore`: the best becomes max(best, streak), so it never decreases and ends at least the streak; the stored entry is written with the streak exactly when streak > best; streak and flags unchanged |
| `App.AfterLoad` | src/App.jsx:15-17 | `loadQuestion` clears `revealed` and `isWrong` and leaves streak, best and the stored entry alone |
| `App.AfterSkip` | src/App.jsx:35-39 | a skip raises the best to max(best, streak), then zeroes the streak and clears both flags |
| `App.AfterGuess` | src/App.jsx:41-61 | a guess while revealed changes nothing; a guess whose name equals the answer's adds one to the streak, clears `isWrong` and leaves the best and the stored entry alone; a wrong guess raises the best to the max with the pre-guess streak, zeroes the streak and sets `isWrong`; any unrevealed guess sets `revealed` |
| `App.StepConsistent` | src/App.jsx:27-31 | every handler keeps the stored entry equal to the best streak once written, and unwritten exactly while the best is still the start-up value |
| `App.RunConsistent` | src/App.jsx:27-31 | that consistency holds after any sequence of guesses, skips and loads |
| `App.RunHighScoreMonotone` | src/App.jsx:27-31 | the best streak never decreases over any sequence of guesses, skips and loads |
| `App.RunEndingInResetBoundsScore` | src/App.jsx:35-57 | after a sequence ending in a wrong unrevealed guess or a skip, the streak is 0 and the best is at least both the streak and the best just before the last event |
| `App.RunSnoc` | src/App.jsx:15-61 | handling one more event after a sequence of events is one more step of the handlers |
| `App.WrongGuessAtEqualBest` | src/App.jsx:50-56 | streak 5, best 5, wrong guess: streak 0, best stays 5, nothing written |
| `App.WrongGuessAboveBest` | src/App.jsx:50-56 | streak 3, best 2, wrong guess: best 3 (written), then streak 0 |
| `App.Game.constructor` | src/App.jsx:5-13 | initial state: streak 0, best = the parsed stored value, both flags false, no round yet, nothing written |
| `App.Game.LoadQuestion` | src/App.jsx:15-17 | clears both flags; streak, best and round unchanged |
| `App.Game.ReceiveQuizData` | src/App.jsx:18-19 | the resolved round becomes the current one; score state unchanged |
| `App.Game.CheckHighScore` | src/App.jsx:27-32 | the state becomes `AfterCheck` of the old state; the best never drops and ends at least the streak; the stored entry changes exactly when streak > best |
| `App.Game.HandleSkip` | src/App.jsx:35-39 | the state becomes `AfterSkip` of the old state: streak 0, flags cleared, best = max(old best, old streak) |
| `App.Game.HandleGuess` | src/App.jsx:41-61 | while revealed, nothing changes; otherwise the state becomes `AfterGuess` with the current round's answer name, and `revealed` is set |

## Left out

- The `fetch` calls, `Promise.all`, JSON parsing and the `sprites.other['official-artwork']` path (src/utils/pokeLogic.js:20-24, 40). These are network I/O. The model gives `lookup` one record per ID, and the image is a plain field of that record.
- `PokeLogic.FetchQuizData`: the options' IDs come from the lookups' answers (`pokemon.id`), so they are proved distinct, with exactly one matching the answer, only when each lookup returns the record for the ID it asked for. The code does not check this and the model does not assume it.
- A rejected lookup failing the whole round: this comes from `Promise.all`, which is left out with the network. `lookup` always succeeds.
- `Math.random`, and whether the loop terminates under real randomness. The draws are supplied. `GenerateIds` requires that they produce at least four distinct IDs.
- Uniform choice of the answer position (src/utils/pokeLogic.js:15): the position is a supplied value in 0..3.
- Reading and parsing `localStorage` (src/App.jsx:11-13) and writing it as a string (src/App.jsx:30). Browser storage is the constructor's argument and the `saved` field.
- Sound effects (src/App.jsx:46, 52) and all of src/background.jsx: media playback, not logic.
- The 2.5-second `setTimeout` that calls `loadQuestion` after a guess (src/App.jsx:60). The timer is not modelled: a caller invokes `LoadQuestion` afterwards.
- React's batching and rendering, and the JSX layout (src/App.jsx:63-180). What the view shows is not modelled. It renders the buttons only while unrevealed and only once a round exists; `HandleGuess` states this as its precondition.
- The `useEffect` that loads the first round on mount (src/App.jsx:22-24): it is the same `loadQuestion`.
