/**
 * The poem puzzle: an era's line of verse is cut into words and shuffled;
 * clicking a word (other than the first) moves it one place to the left;
 * submitting scores 1 out of 1 when the words are back in the original order.
 */
module PuzzleGame {
  import opened Js
  import opened Games

  /** The words of each era's line; any other era id gets qin's. */
  function PoemData(dynastyId: string): seq<string> {
    match dynastyId
    case "han" => ["大风", "起兮", "云飞扬", "威加海内"]
    case "tang" => ["云想", "衣裳", "花想容", "春风拂槛"]
    case _ => ["秦王", "扫六合", "虎视", "何雄哉"]
  }

  /** Every line has four distinct words; unknown eras get qin's line. */
  lemma PoemTables(dynastyId: string)
    ensures |PoemData(dynastyId)| == 4
    ensures forall i, j :: 0 <= i < j < 4 ==> PoemData(dynastyId)[i] != PoemData(dynastyId)[j]
    ensures dynastyId !in {"han", "tang"} ==> PoemData(dynastyId) == PoemData("qin")
  {
  }

  /** `moveWord(from, to)`: splice the word out at `from` and back in at `to`. */
  function Move(order: seq<string>, from: nat, to: int): seq<string>
    requires from < |order|
  {
    InsertAt(RemoveAt(order, from), to, order[from])
  }

  /** Moving the word at `i > 0` to `i - 1` swaps it with its left neighbour and keeps the same words. */
  lemma MoveLeftSwaps(order: seq<string>, i: nat)
    requires 0 < i < |order|
    ensures Move(order, i, i - 1) == order[..i - 1] + [order[i], order[i - 1]] + order[i + 1..]
    ensures multiset(Move(order, i, i - 1)) == multiset(order)
  {
    var r := RemoveAt(order, i);
    assert r == order[..i] + order[i + 1..];
    assert r[..i - 1] == order[..i - 1];
    assert r[i - 1..] == [order[i - 1]] + order[i + 1..];
    RemoveAtMultiset(order, i);
    InsertAtMultiset(r, i - 1, order[i]);
  }

  /** Puzzle scoring: 1 when every word is where the original line has it, else 0. */
  function PuzzleCorrect(userOrder: seq<string>, original: seq<string>): nat {
    if EveryMatches(userOrder, original) then 1 else 0
  }

  /** For a rearrangement of the line, the puzzle is solved exactly when the words read as the original. */
  lemma SolvedIffOriginal(userOrder: seq<string>, original: seq<string>)
    requires multiset(userOrder) == multiset(original)
    ensures PuzzleCorrect(userOrder, original) == 1 <==> userOrder == original
  {
    assert |userOrder| == |multiset(userOrder)| == |multiset(original)| == |original|;
    EveryMatchesIsEqual(userOrder, original);
  }

  class PoemPuzzle {
    var original: seq<string>
    var shuffled: seq<string>
    var userOrder: seq<string>
    var startTime: int

    /** The words on screen are always the words of the line. */
    predicate Valid()
      reads this
    {
      multiset(userOrder) == multiset(original)
    }

    /** Mounting the game with a round in play: the era's line and the order the shuffle produced. */
    constructor Start(dynastyId: string, shuffledWords: seq<string>, now: int)
      requires multiset(shuffledWords) == multiset(PoemData(dynastyId))
      ensures Valid()
      ensures original == PoemData(dynastyId) && shuffled == shuffledWords && userOrder == shuffledWords
      ensures startTime == now
    {
      original := PoemData(dynastyId);
      shuffled := shuffledWords;
      userOrder := shuffledWords;
      startTime := now;
    }

    /** `moveWord`, as the word buttons call it: from a word on screen to the slot before it. */
    method MoveWord(fromIndex: nat, toIndex: int)
      requires Valid() && fromIndex < |userOrder|
      modifies this
      ensures Valid()
      ensures userOrder == Move(old(userOrder), fromIndex, toIndex)
      ensures original == old(original) && shuffled == old(shuffled) && startTime == old(startTime)
    {
      var newOrder := userOrder;
      var movedWord := newOrder[fromIndex];
      newOrder := RemoveAt(newOrder, fromIndex);
      newOrder := InsertAt(newOrder, toIndex, movedWord);
      RemoveAtMultiset(userOrder, fromIndex);
      InsertAtMultiset(RemoveAt(userOrder, fromIndex), toIndex, movedWord);
      userOrder := newOrder;
    }

    /** A click on the word at `index`: the first word does not move, any other moves one place left. */
    method ClickWord(index: nat)
      requires Valid() && index < |userOrder|
      modifies this
      ensures Valid()
      ensures index == 0 ==> userOrder == old(userOrder)
      ensures index > 0 ==> userOrder == old(userOrder)[..index - 1] + [old(userOrder)[index], old(userOrder)[index - 1]] +
                                         old(userOrder)[index + 1..]
      ensures original == old(original) && shuffled == old(shuffled) && startTime == old(startTime)
    {
      if index > 0 {
        MoveLeftSwaps(userOrder, index);
        MoveWord(index, index - 1);
      }
    }

    /** `checkAnswer`: one point if the line is restored, out of one. */
    method CheckAnswer(now: int) returns (score: GameScore)
      requires Valid()
      ensures score == GameScore(PuzzleCorrect(userOrder, original), 1, ElapsedSeconds(startTime, now))
    {
      var correct := if EveryMatches(userOrder, original) then 1 else 0;
      score := GameScore(correct, 1, ElapsedSeconds(startTime, now));
    }
  }
}
