/**
 * One quiz round: four distinct random creature IDs, one of them chosen as
 * the answer, the looked-up records reshaped into button options and the
 * answer's display data.
 *
 * `Math.random` is replaced by supplied draws, and each network lookup by a
 * supplied function from an ID to the record the lookup returns.
 */
module PokeLogic {

  /** The largest ID a draw can produce; IDs run from 1 to MAX_ID. */
  const MAX_ID := 1000
  /** How many candidates a round holds. */
  const OPTION_COUNT := 4

  /** A value of `Math.floor(Math.random() * 1000)`. */
  predicate IsDraw(r: int)
  {
    0 <= r < MAX_ID
  }

  predicate AllDraws(draws: seq<int>)
  {
    forall i :: 0 <= i < |draws| ==> IsDraw(draws[i])
  }

  predicate Distinct(s: seq<int>)
  {
    forall i, j :: 0 <= i < j < |s| ==> s[i] != s[j]
  }

  predicate InIdRange(s: seq<int>)
  {
    forall i :: 0 <= i < |s| ==> 1 <= s[i] <= MAX_ID
  }

  function Elements(s: seq<int>): set<int>
  {
    set x | x in s
  }

  /** `getRandomId`: a draw shifted into the ID range. */
  function RandomId(r: int): (id: int)
    requires IsDraw(r)
    ensures 1 <= id <= MAX_ID
  {
    r + 1
  }

  /**
   * `Set.prototype.add` on a set whose contents, in insertion order, are
   * `ids`: a value already present changes nothing, a new one is appended.
   */
  function SetAdd(ids: seq<int>, x: int): (r: seq<int>)
    ensures x in r
    ensures x in ids ==> r == ids
    ensures x !in ids ==> |r| == |ids| + 1 && r[..|ids|] == ids && r[|ids|] == x
    ensures Distinct(ids) ==> Distinct(r)
  {
    if x in ids then ids else ids + [x]
  }

  /** The IDs that `draws` produce, as a set. */
  function IdSet(draws: seq<int>): set<int>
    requires AllDraws(draws)
  {
    set i | 0 <= i < |draws| :: RandomId(draws[i])
  }

  /**
   * The contents, in insertion order, of a set that starts empty and
   * receives `getRandomId()` for each of `draws` in turn.
   */
  function Collected(draws: seq<int>): (ids: seq<int>)
    requires AllDraws(draws)
    ensures |ids| <= |draws|
    decreases |draws|
  {
    if draws == [] then []
    else SetAdd(Collected(draws[..|draws| - 1]), RandomId(draws[|draws| - 1]))
  }

  /**
   * The collected IDs are pairwise distinct, lie in 1..MAX_ID, and are
   * exactly the IDs the draws produce.
   */
  lemma {:induction false} CollectedIsIdSet(draws: seq<int>)
    requires AllDraws(draws)
    ensures Distinct(Collected(draws)) && InIdRange(Collected(draws))
    ensures Elements(Collected(draws)) == IdSet(draws)
    decreases |draws|
  {
    if draws != [] {
      var prefix := draws[..|draws| - 1];
      CollectedIsIdSet(prefix);
      assert IdSet(draws) == IdSet(prefix) + {RandomId(draws[|draws| - 1])} by {
        assert forall i :: 0 <= i < |prefix| ==> prefix[i] == draws[i];
      }
    }
  }

  /** The set holds as many IDs as the draws produce distinct ones. */
  lemma {:induction false} CollectedSize(draws: seq<int>)
    requires AllDraws(draws)
    ensures |Collected(draws)| == |IdSet(draws)|
    decreases |draws|
  {
    if draws != [] {
      var prefix := draws[..|draws| - 1];
      var id := RandomId(draws[|draws| - 1]);
      CollectedSize(prefix);
      CollectedIsIdSet(prefix);
      CollectedIsIdSet(draws);
      var before := Collected(prefix);
      assert Elements(Collected(draws)) == IdSet(prefix) + {id};
      if id in before {
        assert IdSet(draws) == IdSet(prefix);
      } else {
        assert id !in IdSet(prefix);
      }
    }
  }

  /** While the set lacks one of the IDs the draws produce, a draw is left. */
  lemma DrawsRemain(draws: seq<int>, i: int)
    requires AllDraws(draws) && 0 <= i <= |draws|
    requires |Collected(draws[..i])| < |IdSet(draws)|
    ensures i < |draws|
  {
    CollectedSize(draws);
    assert draws[..|draws|] == draws;
  }

  /** Taking one more draw is one more `add`. */
  lemma CollectedStep(draws: seq<int>, i: int)
    requires AllDraws(draws) && 0 <= i < |draws|
    ensures Collected(draws[..i + 1]) == SetAdd(Collected(draws[..i]), RandomId(draws[i]))
  {
    assert draws[..i + 1][..i] == draws[..i];
  }

  /**
   * The `while (ids.size < 4)` loop of `fetchQuizData` followed by
   * `[...ids]`. It consumes draws until the set first holds four IDs and
   * reports how many it used; the supplied draws must contain at least four
   * distinct values, as an endless stream of uniform draws does.
   */
  method GenerateIds(draws: seq<int>) returns (idArray: seq<int>, used: nat)
    requires AllDraws(draws)
    requires |IdSet(draws)| >= OPTION_COUNT
    ensures 0 < used <= |draws|
    ensures idArray == Collected(draws[..used])
    ensures |idArray| == OPTION_COUNT && Distinct(idArray) && InIdRange(idArray)
    ensures |Collected(draws[..used - 1])| < OPTION_COUNT
  {
    var ids: seq<int> := [];
    var i := 0;
    ghost var last := 0;
    while |ids| < OPTION_COUNT
      invariant 0 <= i <= |draws|
      invariant ids == Collected(draws[..i])
      invariant |ids| <= OPTION_COUNT
      invariant i > 0 ==> last == i - 1 && |Collected(draws[..last])| < OPTION_COUNT
      decreases |draws| - i
    {
      DrawsRemain(draws, i);
      CollectedStep(draws, i);
      ids := SetAdd(ids, RandomId(draws[i]));
      last, i := i, i + 1;
    }
    assert Distinct(ids) && InIdRange(ids) by {
      CollectedIsIdSet(draws[..i]);
    }
    idArray, used := ids, i;
  }

  /** `idArray[correctIndex]`: the ID of the answer. */
  function CorrectId(idArray: seq<int>, correctIndex: int): (id: int)
    requires |idArray| == OPTION_COUNT && 0 <= correctIndex < OPTION_COUNT
    ensures id in idArray
  {
    idArray[correctIndex]
  }

  /** The parts of one lookup's JSON that the round uses. */
  datatype Pokemon = Pokemon(id: int, name: string, image: string)

  /** A button label: an entry of `options`. */
  datatype QuizOption = QuizOption(id: int, name: string)

  /** The answer with its artwork. */
  datatype CorrectOption = CorrectOption(id: int, name: string, image: string)

  datatype QuizData = QuizData(options: seq<QuizOption>, correctOption: CorrectOption)

  /** `results.map(pokemon => ({ id, name }))`. */
  function BuildOptions(results: seq<Pokemon>): (options: seq<QuizOption>)
    ensures |options| == |results|
    ensures forall i :: 0 <= i < |results| ==>
              options[i].id == results[i].id && options[i].name == results[i].name
  {
    if results == [] then []
    else [QuizOption(results[0].id, results[0].name)] + BuildOptions(results[1..])
  }

  /** The object `fetchQuizData` returns, built from the four records. */
  function AssembleQuiz(results: seq<Pokemon>, correctIndex: int): (quiz: QuizData)
    requires |results| == OPTION_COUNT && 0 <= correctIndex < OPTION_COUNT
    ensures |quiz.options| == OPTION_COUNT
    ensures forall i :: 0 <= i < OPTION_COUNT ==>
              quiz.options[i].id == results[i].id && quiz.options[i].name == results[i].name
    ensures quiz.correctOption.id == results[correctIndex].id
    ensures quiz.correctOption.name == results[correctIndex].name
    ensures quiz.correctOption.image == results[correctIndex].image
  {
    var correct := results[correctIndex];
    QuizData(BuildOptions(results), CorrectOption(correct.id, correct.name, correct.image))
  }

  /** The answer agrees with its own button on id and name. */
  lemma CorrectOptionIsAnOption(results: seq<Pokemon>, correctIndex: int)
    requires |results| == OPTION_COUNT && 0 <= correctIndex < OPTION_COUNT
    ensures AssembleQuiz(results, correctIndex).options[correctIndex]
            == QuizOption(AssembleQuiz(results, correctIndex).correctOption.id,
                          AssembleQuiz(results, correctIndex).correctOption.name)
  {
  }

  /** Four records for IDs 7, 25, 94 and 130 with the answer at position 2. */
  lemma AssembleQuizExample(names: seq<string>, images: seq<string>)
    requires |names| == OPTION_COUNT && |images| == OPTION_COUNT
    ensures var results := seq(OPTION_COUNT, i requires 0 <= i < OPTION_COUNT =>
                               Pokemon([7, 25, 94, 130][i], names[i], images[i]));
            var quiz := AssembleQuiz(results, 2);
            quiz.correctOption == CorrectOption(94, names[2], images[2]) &&
            quiz.options == [QuizOption(7, names[0]), QuizOption(25, names[1]),
                             QuizOption(94, names[2]), QuizOption(130, names[3])]
  {
  }

  /**
   * Options built from lookups that each answer with the record of the ID
   * asked for carry distinct IDs, and only the answer's position carries
   * the answer's ID.
   */
  lemma FaithfulLookupsGiveOneAnswer(idArray: seq<int>, correctIndex: int,
                                     lookup: int -> Pokemon, quiz: QuizData)
    requires |idArray| == OPTION_COUNT && Distinct(idArray) && InIdRange(idArray)
    requires 0 <= correctIndex < OPTION_COUNT
    requires |quiz.options| == OPTION_COUNT
    requires forall i :: 0 <= i < OPTION_COUNT ==> quiz.options[i].id == lookup(idArray[i]).id
    requires quiz.correctOption.id == lookup(idArray[correctIndex]).id
    ensures (forall id :: 1 <= id <= MAX_ID ==> lookup(id).id == id) ==>
              (forall i, j :: 0 <= i < j < OPTION_COUNT ==> quiz.options[i].id != quiz.options[j].id) &&
              (forall i :: 0 <= i < OPTION_COUNT ==>
                 (quiz.options[i].id == quiz.correctOption.id <==> i == correctIndex))
  {
    if forall id :: 1 <= id <= MAX_ID ==> lookup(id).id == id {
      assert forall i :: 0 <= i < OPTION_COUNT ==> quiz.options[i].id == idArray[i];
    }
  }

  /**
   * `fetchQuizData` end to end: the ID loop, the choice of the answer, one
   * lookup per ID in `idArray` order, and the reshaping. When every lookup
   * answers with the record of the ID it was asked for, the options carry
   * distinct IDs and exactly one of them is the answer's.
   */
  method FetchQuizData(draws: seq<int>, correctIndex: int, lookup: int -> Pokemon)
    returns (quiz: QuizData, ghost idArray: seq<int>)
    requires AllDraws(draws)
    requires |IdSet(draws)| >= OPTION_COUNT
    requires 0 <= correctIndex < OPTION_COUNT
    ensures |idArray| == OPTION_COUNT && Distinct(idArray) && InIdRange(idArray)
    ensures exists used :: 0 < used <= |draws| && idArray == Collected(draws[..used])
    ensures |quiz.options| == OPTION_COUNT
    ensures forall i :: 0 <= i < OPTION_COUNT ==>
              quiz.options[i] == QuizOption(lookup(idArray[i]).id, lookup(idArray[i]).name)
    ensures quiz.correctOption == CorrectOption(lookup(CorrectId(idArray, correctIndex)).id,
                                                lookup(CorrectId(idArray, correctIndex)).name,
                                                lookup(CorrectId(idArray, correctIndex)).image)
    ensures (forall id :: 1 <= id <= MAX_ID ==> lookup(id).id == id) ==>
              (forall i, j :: 0 <= i < j < OPTION_COUNT ==> quiz.options[i].id != quiz.options[j].id) &&
              (forall i :: 0 <= i < OPTION_COUNT ==>
                 (quiz.options[i].id == quiz.correctOption.id <==> i == correctIndex))
  {
    var ids, used := GenerateIds(draws);
    idArray := ids;
    assert 0 < used <= |draws| && idArray == Collected(draws[..used]);
    var results := seq(|ids|, i requires 0 <= i < |ids| => lookup(ids[i]));
    assert forall i :: 0 <= i < OPTION_COUNT ==> results[i] == lookup(idArray[i]);
    quiz := AssembleQuiz(results, correctIndex);
    FaithfulLookupsGiveOneAnswer(idArray, correctIndex, lookup, quiz);
  }
}
