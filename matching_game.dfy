/**
 * The person/achievement matching game: the player selects a person and
 * then an achievement; a right pair is recorded as a match and both
 * selections clear at once, a wrong one clears after a delay. The round ends
 * when every pair is matched, scoring full marks.
 */
module MatchingGame {
  import opened Js
  import opened Games
  import Seqs

  datatype Pair = Pair(person: string, achievement: string)

  /** The pairs of each era; any other era id gets the qin pairs. */
  function MatchingPairs(dynastyId: string): seq<Pair> {
    match dynastyId
    case "han" => [
      Pair("刘邦", "建立汉朝"), Pair("张骞", "出使西域"),
      Pair("司马迁", "撰写史记"), Pair("霍去病", "征战匈奴")]
    case "tang" => [
      Pair("李世民", "贞观之治"), Pair("武则天", "女皇称帝"),
      Pair("李白", "诗仙美誉"), Pair("杜甫", "诗圣称号")]
    case _ => [
      Pair("秦始皇", "统一六国"), Pair("李斯", "统一文字"),
      Pair("蒙恬", "修筑长城"), Pair("扶苏", "主张仁政")]
  }

  /** Every era has four pairs; no person and no achievement appears twice; unknown eras get qin's. */
  lemma PairTables(dynastyId: string)
    ensures |MatchingPairs(dynastyId)| == 4
    ensures forall i, j :: 0 <= i < j < |MatchingPairs(dynastyId)| ==>
              MatchingPairs(dynastyId)[i].person != MatchingPairs(dynastyId)[j].person &&
              MatchingPairs(dynastyId)[i].achievement != MatchingPairs(dynastyId)[j].achievement
    ensures forall i :: 0 <= i < |MatchingPairs(dynastyId)| ==> MatchingPairs(dynastyId)[i].person != ""
    ensures dynastyId !in {"han", "tang"} ==> MatchingPairs(dynastyId) == MatchingPairs("qin")
  {
  }

  /** `matches.some(m => m.person === person)`. */
  predicate PersonMatched(matches: seq<Pair>, person: string) {
    exists i :: 0 <= i < |matches| && matches[i].person == person
  }

  /** `matches.some(m => m.achievement === achievement)`. */
  predicate AchievementMatched(matches: seq<Pair>, achievement: string) {
    exists i :: 0 <= i < |matches| && matches[i].achievement == achievement
  }

  /** `selected === x ? null : x`: clicking the selected item deselects it, clicking another selects that. */
  function Toggle(selected: Option<string>, x: string): (r: Option<string>)
    ensures r == None <==> selected == Some(x)
    ensures r != None ==> r == Some(x)
  {
    if selected == Some(x) then None else Some(x)
  }

  class MatchingRound {
    var pairs: seq<Pair>
    var selectedPerson: Option<string>
    var selectedAchievement: Option<string>
    var matches: seq<Pair>
    var startTime: int
    /** Clearing timeouts scheduled by wrong guesses and not yet fired. */
    var pendingClears: nat

    /** Matches are distinct pairs of the round, and the selected person is not already matched. */
    predicate Valid()
      reads this
    {
      Seqs.Distinct(matches) &&
      (forall i :: 0 <= i < |matches| ==> matches[i] in pairs) &&
      (selectedPerson.Some? ==> !PersonMatched(matches, selectedPerson.value))
    }

    /** Mounting the game with a round in play: the era's pairs, nothing matched or selected. */
    constructor Start(dynastyId: string, now: int)
      ensures Valid()
      ensures pairs == MatchingPairs(dynastyId) && matches == [] && startTime == now
      ensures selectedPerson == None && selectedAchievement == None && pendingClears == 0
    {
      pairs := MatchingPairs(dynastyId);
      selectedPerson := None;
      selectedAchievement := None;
      matches := [];
      startTime := now;
      pendingClears := 0;
    }

    /** `handlePersonClick`: a matched person is ignored; otherwise the selection toggles. */
    method HandlePersonClick(person: string)
      requires Valid()
      modifies this
      ensures Valid()
      ensures PersonMatched(matches, person) ==> selectedPerson == old(selectedPerson)
      ensures !PersonMatched(matches, person) ==> selectedPerson == Toggle(old(selectedPerson), person)
      ensures pairs == old(pairs) && matches == old(matches) && selectedAchievement == old(selectedAchievement)
      ensures startTime == old(startTime) && pendingClears == old(pendingClears)
    {
      if PersonMatched(matches, person) {
        return;
      }
      selectedPerson := Toggle(selectedPerson, person);
    }

    /**
     * `handleAchievementClick`: a matched achievement is ignored. Otherwise
     * the achievement selection toggles and, with a person selected, the
     * guess is judged: a right pair is appended to the matches and both
     * selections clear, ending the round with full marks when it was the last
     * pair; a wrong one schedules the clearing timeout. `ended` is the score
     * handed to `onGameEnd`, if any.
     */
    method HandleAchievementClick(achievement: string, now: int) returns (ended: Option<GameScore>)
      requires Valid()
      modifies this
      ensures Valid()
      ensures pairs == old(pairs) && startTime == old(startTime)
      ensures AchievementMatched(old(matches), achievement) ==>
                matches == old(matches) && selectedPerson == old(selectedPerson) &&
                selectedAchievement == old(selectedAchievement) && pendingClears == old(pendingClears) &&
                ended == None
      ensures !AchievementMatched(old(matches), achievement) && !Truthy(old(selectedPerson)) ==>
                matches == old(matches) && selectedPerson == old(selectedPerson) &&
                selectedAchievement == Toggle(old(selectedAchievement), achievement) &&
                pendingClears == old(pendingClears) && ended == None
      ensures !AchievementMatched(old(matches), achievement) && Truthy(old(selectedPerson)) &&
              Pair(old(selectedPerson).value, achievement) in pairs ==>
                matches == old(matches) + [Pair(old(selectedPerson).value, achievement)] &&
                selectedPerson == None && selectedAchievement == None &&
                pendingClears == old(pendingClears) &&
                ended == (if |matches| == |pairs| then Some(GameScore(|pairs|, |pairs|, ElapsedSeconds(startTime, now)))
                          else None)
      ensures !AchievementMatched(old(matches), achievement) && Truthy(old(selectedPerson)) &&
              Pair(old(selectedPerson).value, achievement) !in pairs ==>
                matches == old(matches) && selectedPerson == old(selectedPerson) &&
                selectedAchievement == Toggle(old(selectedAchievement), achievement) &&
                pendingClears == old(pendingClears) + 1 && ended == None
      ensures ended.Some? ==> forall p :: p in pairs ==> p in matches
    {
      ended := None;
      if AchievementMatched(matches, achievement) {
        return;
      }
      selectedAchievement := Toggle(selectedAchievement, achievement);
      if Truthy(selectedPerson) {
        var correctPair := Pair(selectedPerson.value, achievement);
        if correctPair in pairs {
          assert correctPair !in matches by {
            if correctPair in matches {
              var i :| 0 <= i < |matches| && matches[i] == correctPair;
              assert PersonMatched(matches, selectedPerson.value);
            }
          }
          var n := |matches|;
          matches := matches + [correctPair];
          selectedPerson := None;
          selectedAchievement := None;
          if n + 1 == |pairs| {
            ended := Some(GameScore(|pairs|, |pairs|, ElapsedSeconds(startTime, now)));
            Seqs.DistinctWithin(matches, pairs);
          }
        } else {
          pendingClears := pendingClears + 1;
        }
      }
    }

    /** The delayed clearing after a wrong guess fires: both selections clear. */
    method ClearSelections()
      requires Valid() && pendingClears > 0
      modifies this
      ensures Valid()
      ensures selectedPerson == None && selectedAchievement == None && pendingClears == old(pendingClears) - 1
      ensures pairs == old(pairs) && matches == old(matches) && startTime == old(startTime)
    {
      selectedPerson := None;
      selectedAchievement := None;
      pendingClears := pendingClears - 1;
    }
  }

  /** However the round is played, there are never more matches than pairs (the "matched: n / m" counter). */
  lemma MatchesWithinPairs(g: MatchingRound)
    requires g.Valid()
    ensures |g.matches| <= |g.pairs|
    ensures |g.matches| == |g.pairs| ==> forall p :: p in g.pairs ==> p in g.matches
  {
    Seqs.DistinctWithin(g.matches, g.pairs);
  }
}
