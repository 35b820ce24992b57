/**
 * The mini-game shell: which game is open, whether a round is in play and
 * the score the last round reported; and the result panel, with its tier
 * icon, rounded percentage and elapsed-time label. The four games report
 * their score through `EndGame`.
 */
module Games {
  import opened Js

  datatype GameType = TimelineSort | Matching | Puzzle | Memory

  /** What a finished round reports: answers right, answers asked, seconds taken. */
  datatype GameScore = GameScore(correct: nat, total: nat, timeSpent: int)

  const NoScore: GameScore := GameScore(0, 0, 0)

  /** `Math.floor((Date.now() - startTime) / 1000)`, both clock readings in milliseconds. */
  function ElapsedSeconds(startTime: int, now: int): (s: int)
    ensures 1000 * s <= now - startTime < 1000 * (s + 1)
  {
    (now - startTime) / 1000
  }

  class GameShell {
    var selectedGame: Option<GameType>
    var gameScore: GameScore
    var isPlaying: bool

    /** The game menu, with no round played. */
    constructor ()
      ensures selectedGame == None && gameScore == NoScore && !isPlaying
    {
      selectedGame := None;
      gameScore := NoScore;
      isPlaying := false;
    }

    /** `startGame`: open a game, start playing, forget the last score. */
    method StartGame(g: GameType)
      modifies this
      ensures selectedGame == Some(g) && isPlaying && gameScore == NoScore
      ensures !ShowResult()
    {
      selectedGame := Some(g);
      isPlaying := true;
      gameScore := NoScore;
    }

    /** `endGame`: record the reported score and stop playing; the game stays open. */
    method EndGame(score: GameScore)
      modifies this
      ensures gameScore == score && !isPlaying && selectedGame == old(selectedGame)
      ensures ShowResult() <==> score.total > 0
    {
      gameScore := score;
      isPlaying := false;
    }

    /** `resetGame`: back to the menu, as on mount. */
    method ResetGame()
      modifies this
      ensures selectedGame == None && gameScore == NoScore && !isPlaying
      ensures !ShowResult()
    {
      selectedGame := None;
      isPlaying := false;
      gameScore := NoScore;
    }

    /** The result panel is rendered once a round with at least one question has ended. */
    predicate ShowResult()
      reads this
    {
      !isPlaying && gameScore.total > 0
    }
  }

  datatype Tier = Trophy | Medal | Books

  /** The share of answers right. */
  function Ratio(s: GameScore): real
    requires s.total > 0
  {
    Quotient(s.correct, s.total)
  }

  /** The icon of the result panel: 🏆 at 80% or more, 🎖️ at 60% or more, 📚 below. */
  function ResultTier(s: GameScore): Tier
    requires s.total > 0
  {
    if Ratio(s) >= 0.8 then Trophy else if Ratio(s) >= 0.6 then Medal else Books
  }

  /** The tier in whole numbers: 🏆 iff 5·correct ≥ 4·total, 🎖️ iff 3·total ≤ 5·correct < 4·total. */
  lemma TierByCounts(s: GameScore)
    requires s.total > 0
    ensures ResultTier(s) == Trophy <==> 5 * s.correct >= 4 * s.total
    ensures ResultTier(s) == Medal <==> 3 * s.total <= 5 * s.correct < 4 * s.total
    ensures ResultTier(s) == Books <==> 5 * s.correct < 3 * s.total
  {
    QuotientAtLeast(s.correct, s.total, 0.8);
    QuotientAtLeast(s.correct, s.total, 0.6);
  }

  function TierRank(t: Tier): nat {
    match t
    case Books => 0
    case Medal => 1
    case Trophy => 2
  }

  /** More answers right out of the same total never earns a lower tier; a clean sweep earns the trophy. */
  lemma TierMonotone(s: GameScore, s': GameScore)
    requires s.total > 0 && s'.total == s.total && s.correct <= s'.correct
    ensures TierRank(ResultTier(s)) <= TierRank(ResultTier(s'))
    ensures s'.correct == s'.total ==> ResultTier(s') == Trophy
    ensures s.correct == 0 ==> ResultTier(s) == Books
  {
    TierByCounts(s);
    TierByCounts(s');
  }

  /** The percentage of the result panel, `Math.round((correct / total) * 100)`. */
  function Percentage(s: GameScore): int
    requires s.total > 0
  {
    RoundedPercent(s.correct, s.total)
  }

  /** With no more right than asked, the percentage is in [0, 100]: 100 for a clean sweep, 0 for none right. */
  lemma PercentageBounds(s: GameScore)
    requires s.total > 0 && s.correct <= s.total
    ensures 0 <= Percentage(s) <= 100
    ensures s.correct == s.total ==> Percentage(s) == 100
    ensures s.correct == 0 ==> Percentage(s) == 0
  {
    RoundedPercentBounds(s.correct, s.total);
  }

  /** The minutes of the elapsed-time label, `Math.floor(t / 60)`. */
  function Minutes(t: int): int {
    t / 60
  }

  /** The seconds of the elapsed-time label, `t % 60`. */
  function Seconds(t: int): int {
    Rem(t, 60)
  }

  /** For a non-negative time the label splits it into whole minutes and 0-59 seconds. */
  lemma TimeLabelSplits(t: int)
    requires t >= 0
    ensures 60 * Minutes(t) + Seconds(t) == t
    ensures 0 <= Seconds(t) < 60 && Minutes(t) >= 0
  {
  }
}
