/**
 * The quiz screen's score keeping: the current streak, the best streak, and
 * the two flags that say whether the answer is shown and whether the last
 * guess was wrong.
 *
 * React state updates are modelled as immediate assignments made in program
 * order; the persisted `highScore` entry of the browser's local storage is a
 * field holding the last value this session wrote to it.
 */
module App {
  import opened Wrappers
  import PokeLogic

  function Max(a: int, b: int): (m: int)
    ensures m >= a && m >= b && (m == a || m == b)
  {
    if a >= b then a else b
  }

  /**
   * The state the handlers change. `saved` is the value last written to the
   * stored `highScore` entry, `None` while this session has written nothing.
   */
  datatype Scoreboard = Scoreboard(
    score: nat,
    highScore: int,
    revealed: bool,
    isWrong: bool,
    saved: Option<int>)

  /** `checkHighScore`: the best streak catches up with the current one. */
  function AfterCheck(b: Scoreboard): (r: Scoreboard)
    ensures r.highScore == Max(b.highScore, b.score)
    ensures r.highScore >= b.highScore && r.highScore >= r.score
    ensures r.saved == (if b.score > b.highScore then Some(b.score) else b.saved)
    ensures r.score == b.score && r.revealed == b.revealed && r.isWrong == b.isWrong
  {
    if b.score > b.highScore then b.(highScore := b.score, saved := Some(b.score)) else b
  }

  /** The synchronous part of `loadQuestion`: both flags are cleared. */
  function AfterLoad(b: Scoreboard): (r: Scoreboard)
    ensures !r.revealed && !r.isWrong
    ensures r.score == b.score && r.highScore == b.highScore && r.saved == b.saved
  {
    b.(revealed := false, isWrong := false)
  }

  /** `handleSkip`: check the best streak, end the streak, load a new round. */
  function AfterSkip(b: Scoreboard): (r: Scoreboard)
    ensures r.score == 0 && !r.revealed && !r.isWrong
    ensures r.highScore == Max(b.highScore, b.score) && r.highScore >= r.score
    ensures r.saved == AfterCheck(b).saved
  {
    AfterLoad(AfterCheck(b).(score := 0))
  }

  /**
   * `handleGuess(selected)` while the round's answer is named `answer`:
   * names are compared, not IDs.
   */
  function AfterGuess(b: Scoreboard, selected: string, answer: string): (r: Scoreboard)
    ensures b.revealed ==> r == b
    ensures !b.revealed ==> r.revealed
    ensures !b.revealed && selected == answer ==>
              r.score == b.score + 1 && !r.isWrong &&
              r.highScore == b.highScore && r.saved == b.saved
    ensures !b.revealed && selected != answer ==>
              r.highScore == Max(b.highScore, b.score) && r.score == 0 && r.isWrong &&
              r.saved == AfterCheck(b).saved
  {
    if b.revealed then b
    else if selected == answer then b.(score := b.score + 1, isWrong := false, revealed := true)
    else AfterCheck(b).(score := 0, isWrong := true, revealed := true)
  }

  /** What the player or the timer can do to the screen. */
  datatype Event = Guess(selected: string, answer: string) | Skip | Load

  function Step(b: Scoreboard, e: Event): Scoreboard
  {
    match e
    case Guess(selected, answer) => AfterGuess(b, selected, answer)
    case Skip => AfterSkip(b)
    case Load => AfterLoad(b)
  }

  /** The state after the events happen in order. */
  function Run(b: Scoreboard, events: seq<Event>): Scoreboard
    decreases |events|
  {
    if events == [] then b else Run(Step(b, events[0]), events[1..])
  }

  /**
   * The stored entry and the best streak agree: nothing has been written
   * while the best streak is the one read at start-up, and once something
   * has been written it is the best streak, which then exceeds the start-up
   * value.
   */
  ghost predicate Consistent(b: Scoreboard, initialHighScore: int)
  {
    b.highScore >= initialHighScore &&
    (b.saved == None <==> b.highScore == initialHighScore) &&
    (b.saved.Some? ==> b.saved.value == b.highScore)
  }

  /** Every handler keeps the stored entry consistent with the best streak. */
  lemma StepConsistent(b: Scoreboard, initialHighScore: int, e: Event)
    requires Consistent(b, initialHighScore)
    ensures Consistent(Step(b, e), initialHighScore)
  {
  }

  lemma {:induction false} RunConsistent(b: Scoreboard, initialHighScore: int, events: seq<Event>)
    requires Consistent(b, initialHighScore)
    ensures Consistent(Run(b, events), initialHighScore)
    decreases |events|
  {
    if events != [] {
      StepConsistent(b, initialHighScore, events[0]);
      RunConsistent(Step(b, events[0]), initialHighScore, events[1..]);
    }
  }

  /** The best streak never goes down, whatever the player does. */
  lemma {:induction false} RunHighScoreMonotone(b: Scoreboard, events: seq<Event>)
    ensures Run(b, events).highScore >= b.highScore
    decreases |events|
  {
    if events != [] {
      RunHighScoreMonotone(Step(b, events[0]), events[1..]);
    }
  }

  /** A run that ends with a wrong guess or a skip leaves best >= streak == 0. */
  lemma {:induction false} RunEndingInResetBoundsScore(b: Scoreboard, events: seq<Event>)
    requires events != []
    requires events[|events| - 1].Skip? ||
             (events[|events| - 1].Guess? &&
              events[|events| - 1].selected != events[|events| - 1].answer &&
              !Run(b, events[..|events| - 1]).revealed)
    ensures Run(b, events).score == 0
    ensures Run(b, events).highScore >= Run(b, events[..|events| - 1]).score
    ensures Run(b, events).highScore >= Run(b, events[..|events| - 1]).highScore
    decreases |events|
  {
    RunSnoc(b, events[..|events| - 1], events[|events| - 1]);
    assert events[..|events| - 1] + [events[|events| - 1]] == events;
  }

  /** Running one more event is one more step. */
  lemma {:induction false} RunSnoc(b: Scoreboard, events: seq<Event>, e: Event)
    ensures Run(b, events + [e]) == Step(Run(b, events), e)
    decreases |events|
  {
    if events == [] {
      assert [e][1..] == [];
    } else {
      assert (events + [e])[1..] == events[1..] + [e];
      RunSnoc(Step(b, events[0]), events[1..], e);
    }
  }

  /** Streak 5, best 5, wrong answer: the streak ends and the best stays 5. */
  lemma WrongGuessAtEqualBest()
    ensures AfterGuess(Scoreboard(5, 5, false, false, None), "pikachu", "eevee")
            == Scoreboard(0, 5, true, true, None)
  {
  }

  /** Streak 3, best 2, wrong answer: the best becomes 3 before the reset. */
  lemma WrongGuessAboveBest()
    ensures AfterGuess(Scoreboard(3, 2, false, false, None), "pikachu", "eevee")
            == Scoreboard(0, 3, true, true, Some(3))
  {
  }

  /** The `App` component's state and its event handlers. */
  class Game {
    var score: nat
    var highScore: int
    var revealed: bool
    var isWrong: bool
    /** The value last written to the stored `highScore` entry, if any. */
    var saved: Option<int>
    /** `quizData`: `None` until the first round has arrived. */
    var quizData: Option<PokeLogic.QuizData>
    /** The value `parseInt(localStorage.getItem('highScore')) || 0` gave. */
    ghost const initialHighScore: int

    function Board(): Scoreboard
      reads this
    {
      Scoreboard(score, highScore, revealed, isWrong, saved)
    }

    ghost predicate Valid()
      reads this
    {
      Consistent(Board(), initialHighScore)
    }

    /** The initial `useState` values; `storedHighScore` is the parsed entry. */
    constructor (storedHighScore: int)
      ensures Valid() && initialHighScore == storedHighScore
      ensures Board() == Scoreboard(0, storedHighScore, false, false, None)
      ensures quizData == None
    {
      score := 0;
      highScore := storedHighScore;
      revealed := false;
      isWrong := false;
      saved := None;
      quizData := None;
      initialHighScore := storedHighScore;
    }

    /** `loadQuestion` up to its `await`: the flags are reset. */
    method LoadQuestion()
      requires Valid()
      modifies this
      ensures Valid()
      ensures Board() == AfterLoad(old(Board()))
      ensures !revealed && !isWrong && score == old(score) && highScore == old(highScore)
      ensures quizData == old(quizData)
    {
      revealed := false;
      isWrong := false;
    }

    /** `setQuizData(data)` once `fetchQuizData` has resolved. */
    method ReceiveQuizData(data: PokeLogic.QuizData)
      requires Valid()
      modifies this
      ensures Valid()
      ensures Board() == old(Board()) && quizData == Some(data)
    {
      quizData := Some(data);
    }

    /** `checkHighScore`: raise and persist the best streak if it was beaten. */
    method CheckHighScore()
      requires Valid()
      modifies this
      ensures Valid()
      ensures Board() == AfterCheck(old(Board()))
      ensures highScore >= old(highScore) && highScore >= score
      ensures saved != old(saved) <==> old(score) > old(highScore)
      ensures quizData == old(quizData)
    {
      if score > highScore {
        highScore := score;
        saved := Some(score);
      }
    }

    /** `handleSkip`. */
    method HandleSkip()
      requires Valid()
      modifies this
      ensures Valid()
      ensures Board() == AfterSkip(old(Board()))
      ensures score == 0 && !revealed && !isWrong
      ensures highScore == Max(old(highScore), old(score))
      ensures quizData == old(quizData)
    {
      CheckHighScore();
      score := 0;
      LoadQuestion();
    }

    /**
     * `handleGuess(selectedName)`. Unless the answer is already shown, the
     * current round must have arrived: the buttons exist only then.
     */
    method HandleGuess(selectedName: string)
      requires Valid()
      requires !revealed ==> quizData.Some?
      modifies this
      ensures Valid()
      ensures old(revealed) ==> Board() == old(Board())
      ensures !old(revealed) ==>
                Board() == AfterGuess(old(Board()), selectedName,
                                      old(quizData).value.correctOption.name)
      ensures !old(revealed) ==> revealed
      ensures quizData == old(quizData)
    {
      if revealed {
        return;
      }
      if selectedName == quizData.value.correctOption.name {
        score := score + 1;
        isWrong := false;
      } else {
        CheckHighScore();
        score := 0;
        isWrong := true;
      }
      revealed := true;
    }
  }

  /**
   * The two wrong-answer scenarios played against the class: streak 5 with
   * best 5, then streak 3 with best 2. The second game goes on with a guess
   * while the answer is shown, which changes nothing, and a skip.
   */
  method Scenarios(round: PokeLogic.QuizData)
    requires round.correctOption.name != "missingno"
  {
    var answer := round.correctOption.name;

    var equal := new Game(5);
    equal.ReceiveQuizData(round);
    var k := 0;
    while k < 5
      invariant 0 <= k <= 5
      invariant equal.Valid() && equal.initialHighScore == 5
      invariant equal.score == k && equal.highScore == 5 && equal.saved == None
      invariant !equal.revealed && equal.quizData == Some(round)
    {
      equal.HandleGuess(answer);
      equal.LoadQuestion();
      k := k + 1;
    }
    equal.HandleGuess("missingno");
    assert equal.score == 0 && equal.highScore == 5 && equal.saved == None && equal.isWrong;

    var above := new Game(2);
    above.ReceiveQuizData(round);
    above.HandleGuess(answer);
    above.LoadQuestion();
    above.HandleGuess(answer);
    above.LoadQuestion();
    above.HandleGuess(answer);
    assert above.score == 3 && above.highScore == 2;
    above.LoadQuestion();
    above.HandleGuess("missingno");
    assert above.score == 0 && above.highScore == 3 && above.saved == Some(3);
    above.HandleGuess(answer);
    assert above.score == 0 && above.isWrong;
    above.LoadQuestion();
    above.HandleSkip();
    assert above.highScore == 3 && above.score == 0;
  }
}
