/**
 * The knowledge quiz of an era: the player picks an option, submits, is
 * shown whether it was right, and after a delay moves to the next question
 * or, after the last one, to the completion screen with the score, its
 * percentage and a level. The question and explanation texts carry no
 * behaviour and are not modelled.
 */
module Quiz {
  import opened Js

  datatype Question = Question(id: string, options: seq<string>, correctAnswer: nat, difficulty: string)

  /** The questions of each era that has a quiz; an era without one gets none. */
  function QuizData(dynastyId: string): seq<Question> {
    match dynastyId
    case "qin" => [
      Question("q1", ["公元前230年", "公元前221年", "公元前210年", "公元前206年"], 1, "easy"),
      Question("q2", ["洛阳", "长安", "咸阳", "临淄"], 2, "easy"),
      Question("q3", ["统一文字", "统一货币", "统一度量衡", "统一宗教"], 3, "medium")]
    case "han" => [
      Question("q1", ["刘邦", "刘秀", "刘彻", "刘恒"], 0, "easy"),
      Question("q2", ["汉高祖", "汉文帝", "汉武帝", "汉宣帝"], 2, "medium"),
      Question("q3", ["司马相如", "司马迁", "班固", "范晔"], 1, "easy")]
    case "three_kingdoms" => [
      Question("q1", ["魏蜀吴", "秦楚燕", "齐鲁晋", "赵韩魏"], 0, "easy"),
      Question("q2", ["公元200年", "公元208年", "公元220年", "公元234年"], 1, "medium"),
      Question("q3", ["刘备", "刘禅", "关羽", "张飞"], 1, "medium")]
    case "jin" => [
      Question("q1", ["司马懿", "司马师", "司马昭", "司马炎"], 3, "easy"),
      Question("q2", ["王羲之", "王献之", "谢安", "陶渊明"], 0, "easy"),
      Question("q3", ["王羲之", "谢安", "陶渊明", "祖逖"], 2, "medium")]
    case "southern_northern" => [
      Question("q1", ["宋齐梁陈", "魏晋隋唐", "夏商周秦", "汉魏晋宋"], 0, "medium"),
      Question("q2", ["征服南朝", "促进民族融合", "发展经济", "加强军事"], 1, "medium")]
    case "sui" => [
      Question("q1", ["杨坚", "杨广", "杨勇", "杨素"], 0, "easy"),
      Question("q2", ["隋文帝", "隋炀帝", "唐太宗", "唐高宗"], 1, "easy"),
      Question("q3", ["汉朝", "魏晋", "隋朝", "唐朝"], 2, "medium")]
    case "tang" => [
      Question("q1", ["李世民", "李渊", "李治", "李隆基"], 1, "easy"),
      Question("q2", ["唐高祖", "唐太宗", "唐高宗", "唐玄宗"], 1, "easy"),
      Question("q3", ["杜甫", "李白", "王维", "白居易"], 1, "easy")]
    case "five_dynasties" => [
      Question("q1", ["后梁", "后唐", "后晋", "后汉"], 0, "medium"),
      Question("q2", ["李煜", "李白", "杜甫", "苏轼"], 0, "medium")]
    case _ => []
  }

  const QuizEras: set<string> :=
    {"qin", "han", "three_kingdoms", "jin", "southern_northern", "sui", "tang", "five_dynasties"}

  /** A question whose right answer is one of its options and whose difficulty is a declared one. */
  predicate WellFormed(q: Question) {
    q.correctAnswer < |q.options| && q.difficulty in {"easy", "medium", "hard"}
  }

  /**
   * The eight eras with a quiz have two or three well-formed questions of
   * four options each, with distinct ids; every other era id has none.
   */
  lemma QuizTables(dynastyId: string)
    ensures dynastyId !in QuizEras <==> QuizData(dynastyId) == []
    ensures dynastyId in QuizEras ==> 2 <= |QuizData(dynastyId)| <= 3
    ensures forall i :: 0 <= i < |QuizData(dynastyId)| ==>
              WellFormed(QuizData(dynastyId)[i]) && |QuizData(dynastyId)[i].options| == 4
    ensures forall i, j :: 0 <= i < j < |QuizData(dynastyId)| ==> QuizData(dynastyId)[i].id != QuizData(dynastyId)[j].id
  {
    match dynastyId
    case "qin" => case "han" => case "three_kingdoms" => case "jin" =>
    case "southern_northern" => case "sui" => case "tang" => case "five_dynasties" =>
    case _ =>
  }

  /** The stars shown for a difficulty: one for easy, two for medium, three otherwise. */
  function DifficultyStars(difficulty: string): (n: nat)
    ensures 1 <= n <= 3
  {
    if difficulty == "easy" then 1 else if difficulty == "medium" then 2 else 3
  }

  /** `getDifficultyColor`, with the blue gradient for an undeclared difficulty. */
  function DifficultyColor(difficulty: string): string {
    match difficulty
    case "easy" => "from-green-400 to-emerald-500"
    case "medium" => "from-yellow-400 to-orange-500"
    case "hard" => "from-red-400 to-pink-500"
    case _ => "from-blue-400 to-cyan-500"
  }

  /** The difficulty badge: 简单, 中等, and 困难 for anything else. */
  function DifficultyLabel(difficulty: string): string {
    if difficulty == "easy" then "简单" else if difficulty == "medium" then "中等" else "困难"
  }

  /**
   * The three declared difficulties get one, two and three stars, three
   * different colors and three different labels; the harder, the more stars.
   */
  lemma DifficultyBadges()
    ensures DifficultyStars("easy") == 1 && DifficultyStars("medium") == 2 && DifficultyStars("hard") == 3
    ensures DifficultyColor("easy") != DifficultyColor("medium") && DifficultyColor("medium") != DifficultyColor("hard") &&
            DifficultyColor("hard") != DifficultyColor("easy")
    ensures DifficultyLabel("easy") != DifficultyLabel("medium") && DifficultyLabel("medium") != DifficultyLabel("hard") &&
            DifficultyLabel("hard") != DifficultyLabel("easy")
    ensures forall d :: d !in {"easy", "medium", "hard"} ==>
              DifficultyColor(d) == "from-blue-400 to-cyan-500" && DifficultyStars(d) == 3
  {
  }

  datatype ScoreLevel = ScoreLevel(level: string, color: string, icon: string)

  const Scholar := ScoreLevel("历史学霸", "from-yellow-400 to-gold-500", "🏆")
  const Expert := ScoreLevel("历史达人", "from-purple-400 to-violet-500", "🎖️")
  const Enthusiast := ScoreLevel("历史爱好者", "from-blue-400 to-cyan-500", "📚")
  const Novice := ScoreLevel("历史新手", "from-gray-400 to-gray-500", "🌱")

  /** `getScoreLevel`: the level of a percentage of `(score / total) * 100`, at 90, 70 and 50. */
  function GetScoreLevel(score: nat, total: nat): ScoreLevel
    requires total > 0
  {
    var percentage := Quotient(score, total) * 100.0;
    if percentage >= 90.0 then Scholar
    else if percentage >= 70.0 then Expert
    else if percentage >= 50.0 then Enthusiast
    else Novice
  }

  function LevelRank(l: ScoreLevel): nat {
    if l == Scholar then 3 else if l == Expert then 2 else if l == Enthusiast then 1 else 0
  }

  /** The levels in whole numbers: 学霸 iff 10·score ≥ 9·total, 达人 iff 7·total ≤ 10·score < 9·total, and so on. */
  lemma ScoreLevelByCounts(score: nat, total: nat)
    requires total > 0
    ensures GetScoreLevel(score, total) == Scholar <==> 10 * score >= 9 * total
    ensures GetScoreLevel(score, total) == Expert <==> 7 * total <= 10 * score < 9 * total
    ensures GetScoreLevel(score, total) == Enthusiast <==> 5 * total <= 10 * score < 7 * total
    ensures GetScoreLevel(score, total) == Novice <==> 10 * score < 5 * total
  {
    QuotientAtLeast(score, total, 0.9);
    QuotientAtLeast(score, total, 0.7);
    QuotientAtLeast(score, total, 0.5);
  }

  /** A higher score out of the same total never gets a lower level; full marks get 学霸, none 新手. */
  lemma ScoreLevelMonotone(score: nat, score': nat, total: nat)
    requires total > 0 && score <= score'
    ensures LevelRank(GetScoreLevel(score, total)) <= LevelRank(GetScoreLevel(score', total))
    ensures score' == total ==> GetScoreLevel(score', total) == Scholar
    ensures score == 0 ==> GetScoreLevel(score, total) == Novice
  {
    ScoreLevelByCounts(score, total);
    ScoreLevelByCounts(score', total);
  }

  class InteractiveQuiz {
    const questions: seq<Question>
    var currentQuestion: nat
    var selectedAnswer: Option<nat>
    var showResult: bool
    var score: nat
    var answers: seq<bool>
    var quizCompleted: bool
    /** The delayed step after a submitted answer is scheduled and has not fired. */
    var pendingAdvance: bool

    /**
     * The quiz's bookkeeping: the score counts the right answers; one answer
     * is recorded per question passed plus the one on show; the completion
     * screen follows the last question's result; a delayed step is pending
     * exactly while a result is on show before completion.
     */
    predicate Valid()
      reads this
    {
      score == CountTrue(answers) &&
      |answers| == currentQuestion + (if showResult then 1 else 0) &&
      (currentQuestion < |questions| || (questions == [] && currentQuestion == 0 && !showResult)) &&
      (quizCompleted ==> showResult && currentQuestion == |questions| - 1) &&
      (pendingAdvance <==> showResult && !quizCompleted)
    }

    /** The quiz of an era as first shown. */
    constructor (dynastyId: string)
      ensures Valid() && questions == QuizData(dynastyId)
      ensures currentQuestion == 0 && selectedAnswer == None && !showResult
      ensures score == 0 && answers == [] && !quizCompleted && !pendingAdvance
    {
      questions := QuizData(dynastyId);
      currentQuestion := 0;
      selectedAnswer := None;
      showResult := false;
      score := 0;
      answers := [];
      quizCompleted := false;
      pendingAdvance := false;
    }

    /** `handleAnswerSelect`: the picked option becomes the selection. */
    method HandleAnswerSelect(answerIndex: nat)
      requires Valid()
      modifies this
      ensures Valid()
      ensures selectedAnswer == Some(answerIndex)
      ensures currentQuestion == old(currentQuestion) && showResult == old(showResult) && score == old(score)
      ensures answers == old(answers) && quizCompleted == old(quizCompleted) && pendingAdvance == old(pendingAdvance)
    {
      selectedAnswer := Some(answerIndex);
    }

    /**
     * `handleNextQuestion`, whose button is on screen only while a question
     * is shown and its result is not: without a selection nothing happens.
     * Otherwise whether the selection is the right answer is recorded, the
     * score goes up by one exactly when it is, the result is shown and the
     * delayed step is scheduled.
     */
    method HandleNextQuestion()
      requires Valid() && |questions| > 0 && !showResult && !quizCompleted
      modifies this
      ensures Valid()
      ensures old(selectedAnswer) == None ==>
                answers == old(answers) && score == old(score) && !showResult && !pendingAdvance
      ensures old(selectedAnswer) != None ==>
                var isCorrect := old(selectedAnswer).value == questions[currentQuestion].correctAnswer;
                answers == old(answers) + [isCorrect] &&
                score == old(score) + (if isCorrect then 1 else 0) &&
                showResult && pendingAdvance
      ensures currentQuestion == old(currentQuestion) && selectedAnswer == old(selectedAnswer)
      ensures quizCompleted == old(quizCompleted)
    {
      if selectedAnswer == None {
        return;
      }
      var isCorrect := selectedAnswer.value == questions[currentQuestion].correctAnswer;
      CountTrueAppend(answers, isCorrect);
      answers := answers + [isCorrect];
      if isCorrect {
        score := score + 1;
      }
      showResult := true;
      pendingAdvance := true;
    }

    /**
     * The delayed step fires: before the last question it moves on and
     * clears the selection and the result; on the last it completes the quiz.
     */
    method Advance()
      requires Valid() && pendingAdvance
      modifies this
      ensures Valid() && !pendingAdvance
      ensures old(currentQuestion) < |questions| - 1 ==>
                currentQuestion == old(currentQuestion) + 1 && selectedAnswer == None &&
                !showResult && !quizCompleted
      ensures old(currentQuestion) >= |questions| - 1 ==>
                currentQuestion == old(currentQuestion) && quizCompleted && showResult &&
                selectedAnswer == old(selectedAnswer)
      ensures score == old(score) && answers == old(answers)
    {
      if currentQuestion < |questions| - 1 {
        currentQuestion := currentQuestion + 1;
        selectedAnswer := None;
        showResult := false;
      } else {
        quizCompleted := true;
      }
      pendingAdvance := false;
    }

    /** `resetQuiz`, from the completion screen: every field back to its initial value. */
    method ResetQuiz()
      requires Valid() && quizCompleted
      modifies this
      ensures Valid()
      ensures currentQuestion == 0 && selectedAnswer == None && !showResult
      ensures score == 0 && answers == [] && !quizCompleted && !pendingAdvance
    {
      currentQuestion := 0;
      selectedAnswer := None;
      showResult := false;
      score := 0;
      answers := [];
      quizCompleted := false;
      pendingAdvance := false;
    }

    /** The completion screen's percentage, `Math.round((score / questions.length) * 100)`. */
    function Percentage(): int
      reads this
      requires |questions| > 0
    {
      RoundedPercent(score, |questions|)
    }

    /** The completion screen's level. */
    function Level(): ScoreLevel
      reads this
      requires |questions| > 0
    {
      GetScoreLevel(score, |questions|)
    }
  }

  /**
   * However the quiz is played, the score is at most the answers given and
   * those at most the questions; on completion every question is answered
   * once, and the percentage shown is in [0, 100].
   */
  lemma ScoreBounded(q: InteractiveQuiz)
    requires q.Valid()
    ensures q.score <= |q.answers| <= |q.questions|
    ensures q.quizCompleted ==> |q.answers| == |q.questions| && 0 <= q.Percentage() <= 100
  {
    if q.quizCompleted {
      RoundedPercentBounds(q.score, |q.questions|);
    }
  }
}
