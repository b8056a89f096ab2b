/**
 * The "Learn & Earn" quiz: a fixed table of three questions and a page
 * with five state fields driven by three handlers (select an answer, next
 * question, start over).
 *
 * `Select`, `Next` and `Reset` state each handler as a transition on a
 * `Quiz` value and carry the invariant it keeps; the `LearnPage` class
 * updates its fields one by one as the handlers do and is proved to follow
 * those transitions.
 */
module Learn {
  import opened Wrappers
  import opened JsString

  datatype Question = Question(question: string, options: seq<string>, correctAnswer: nat, explanation: string)

  const Questions: seq<Question> := [
    Question(
      "What is compound interest?",
      ["Interest calculated only on the principal amount",
       "Interest calculated on principal and accumulated interest",
       "A fixed rate of interest",
       "Interest paid monthly"],
      1,
      "Compound interest is calculated on both the principal amount and the accumulated interest from previous periods, allowing your money to grow exponentially over time."),
    Question(
      "Which payment method is generally safest for online transactions?",
      ["Sending cash on delivery",
       "Bank transfer to unknown accounts",
       "Credit cards with fraud protection",
       "Sharing OTPs with sellers"],
      2,
      "Credit cards typically offer the best fraud protection, including the ability to dispute charges and zero liability for unauthorized transactions."),
    Question(
      "What should you do before making a large UPI payment?",
      ["Share your PIN with someone to verify",
       "Verify the recipient through alternate means",
       "Send the full amount immediately",
       "Ignore any warnings"],
      1,
      "Always verify the recipient's identity through official channels or alternate communication methods before sending large amounts of money.")
  ]

  /** The table has three questions, each with four options, one of them correct. */
  lemma QuestionsWellFormed()
    ensures |Questions| == 3
    ensures forall i :: 0 <= i < |Questions| ==>
              |Questions[i].options| == 4 && Questions[i].correctAnswer < |Questions[i].options|
  {
  }

  /** The page state: `currentQuestion`, `selectedAnswer`, `showExplanation`, `score`, `finCoins`. */
  datatype Quiz = Quiz(current: nat, selected: Option<int>, show: bool, score: nat, finCoins: nat)

  const Initial: Quiz := Quiz(0, None, false, 0, 0)

  /** The toasts the handlers raise. */
  datatype Notice = Correct | Incorrect | Complete(points: nat, total: nat)

  function NoticeText(n: Notice): string {
    match n
    case Correct => "Correct! +10 FinCoins earned! \U{1F389}"
    case Incorrect => "Not quite right. Keep learning!"
    case Complete(points, total) => "Quiz Complete! Total Score: " + NatString(points) + "/" + NatString(total)
  }

  /**
   * What the page keeps true: the question index stays in the table, an
   * answer is selected exactly while the explanation is shown, each question
   * is scored at most once, and every point earned ten coins that a restart
   * does not take back.
   */
  ghost predicate Inv(q: Quiz) {
    && q.current < |Questions|
    && (q.selected.None? <==> !q.show)
    && q.score <= q.current + (if q.show then 1 else 0)
    && q.finCoins >= 10 * q.score
    && q.finCoins % 10 == 0
  }

  lemma InitialInv()
    ensures Inv(Initial)
  {
  }

  /** `isQuizComplete`. */
  predicate IsQuizComplete(q: Quiz) {
    q.current == |Questions| - 1 && q.show
  }

  /**
   * `handleAnswerSelect`: ignored while the explanation is shown; otherwise
   * the answer is recorded and shown, and a correct one earns a point and
   * ten coins.
   */
  function Select(q: Quiz, index: int): (r: (Quiz, Option<Notice>))
    requires q.current < |Questions|
    ensures Inv(q) ==> Inv(r.0)
    ensures q.show ==> r == (q, None)
    ensures !q.show ==>
              && r.0.show && r.0.selected == Some(index) && r.0.current == q.current
              && r.1.Some? && (r.1.value == Correct <==> index == Questions[q.current].correctAnswer)
              && (r.1.value == Correct ==> r.0.score == q.score + 1 && r.0.finCoins == q.finCoins + 10)
              && (r.1.value != Correct ==> r.0.score == q.score && r.0.finCoins == q.finCoins)
  {
    if q.show then (q, None)
    else
      var q' := q.(selected := Some(index), show := true);
      if index == Questions[q.current].correctAnswer then
        (q'.(score := q.score + 1, finCoins := q.finCoins + 10), Some(Correct))
      else
        (q', Some(Incorrect))
  }

  /**
   * `handleNextQuestion`: moves to the next question with nothing selected,
   * or, on the last question, changes nothing and reports `score + 1` out of
   * the number of questions.
   */
  function Next(q: Quiz): (r: (Quiz, Option<Notice>))
    requires q.current < |Questions|
    ensures Inv(q) ==> Inv(r.0)
    ensures r.0.current < |Questions|
    ensures q.current < |Questions| - 1 ==>
              r == (q.(current := q.current + 1, selected := None, show := false), None)
    ensures q.current == |Questions| - 1 ==> r == (q, Some(Complete(q.score + 1, |Questions|)))
  {
    if q.current < |Questions| - 1 then
      (q.(current := q.current + 1, selected := None, show := false), None)
    else
      (q, Some(Complete(q.score + 1, |Questions|)))
  }

  /** `resetQuiz`: back to the first question with no score, keeping the coins. */
  function Reset(q: Quiz): (r: Quiz)
    ensures Inv(q) ==> Inv(r)
    ensures r == Initial.(finCoins := q.finCoins)
  {
    q.(current := 0, selected := None, show := false, score := 0)
  }

  /** What the user can do on the page. */
  datatype Action = Answer(index: int) | NextQuestion | StartOver

  /**
   * The buttons on screen: answers while no explanation is shown, "Next
   * Question" once it is shown unless the quiz is complete, "Start Over"
   * when it is.
   */
  predicate Offered(q: Quiz, a: Action) {
    match a
    case Answer(_) => !q.show
    case NextQuestion => q.show && !IsQuizComplete(q)
    case StartOver => q.show && IsQuizComplete(q)
  }

  function Apply(q: Quiz, a: Action): (r: Quiz)
    requires q.current < |Questions|
    ensures r.current < |Questions|
  {
    match a
    case Answer(i) => Select(q, i).0
    case NextQuestion => Next(q).0
    case StartOver => Reset(q)
  }

  /** The state after a session of actions. */
  function Play(q: Quiz, actions: seq<Action>): (r: Quiz)
    requires q.current < |Questions|
    ensures r.current < |Questions|
    decreases |actions|
  {
    if actions == [] then q else Play(Apply(q, actions[0]), actions[1..])
  }

  /** Every session keeps the invariant, whatever the user clicks. */
  lemma {:induction false} PlayInv(q: Quiz, actions: seq<Action>)
    requires Inv(q)
    ensures Inv(Play(q, actions))
    decreases |actions|
  {
    if actions != [] {
      var q' := Apply(q, actions[0]);
      assert Inv(q');
      PlayInv(q', actions[1..]);
    }
  }

  /** Every session from the start keeps the invariant. */
  lemma SessionInv(actions: seq<Action>)
    ensures Inv(Play(Initial, actions))
  {
    PlayInv(Initial, actions);
  }

  /** Coins never decrease, whatever the user clicks. */
  lemma {:induction false} CoinsNeverDecrease(q: Quiz, actions: seq<Action>)
    requires q.current < |Questions|
    ensures Play(q, actions).finCoins >= q.finCoins
    decreases |actions|
  {
    if actions != [] {
      CoinsNeverDecrease(Apply(q, actions[0]), actions[1..]);
    }
  }

  /**
   * "Next Question" is only offered before the last question, so the
   * completion report of `Next` is never shown: from the buttons on screen,
   * "Next Question" always advances.
   */
  lemma NextOfferedAdvances(q: Quiz)
    requires Inv(q) && Offered(q, NextQuestion)
    ensures Next(q) == (q.(current := q.current + 1, selected := None, show := false), None)
  {
  }

  /** Once an answer to the last question is shown, only "Start Over" is offered. */
  lemma AnswerLastCompletes(q: Quiz, index: int)
    requires Inv(q) && q.current == |Questions| - 1 && !q.show
    ensures IsQuizComplete(Select(q, index).0)
    ensures Offered(Select(q, index).0, StartOver)
    ensures !Offered(Select(q, index).0, NextQuestion)
  {
  }

  /** The page's state fields, updated one by one as its handlers do. */
  class LearnPage {
    var currentQuestion: nat
    var selectedAnswer: Option<int>
    var showExplanation: bool
    var score: nat
    var finCoins: nat

    function State(): Quiz
      reads this
    {
      Quiz(currentQuestion, selectedAnswer, showExplanation, score, finCoins)
    }

    ghost predicate Valid()
      reads this
    {
      Inv(State())
    }

    constructor ()
      ensures Valid() && State() == Initial
    {
      currentQuestion, selectedAnswer, showExplanation, score, finCoins := 0, None, false, 0, 0;
    }

    method HandleAnswerSelect(index: int) returns (notice: Option<Notice>)
      requires Valid()
      modifies this
      ensures Valid()
      ensures (State(), notice) == Select(old(State()), index)
    {
      if showExplanation {
        return None;
      }
      selectedAnswer := Some(index);
      showExplanation := true;
      if index == Questions[currentQuestion].correctAnswer {
        score := score + 1;
        finCoins := finCoins + 10;
        notice := Some(Correct);
      } else {
        notice := Some(Incorrect);
      }
    }

    method HandleNextQuestion() returns (notice: Option<Notice>)
      requires Valid()
      modifies this
      ensures Valid()
      ensures (State(), notice) == Next(old(State()))
    {
      if currentQuestion < |Questions| - 1 {
        currentQuestion := currentQuestion + 1;
        selectedAnswer := None;
        showExplanation := false;
        notice := None;
      } else {
        notice := Some(Complete(score + 1, |Questions|));
      }
    }

    method ResetQuiz()
      requires Valid()
      modifies this
      ensures Valid()
      ensures State() == Reset(old(State()))
    {
      currentQuestion := 0;
      selectedAnswer := None;
      showExplanation := false;
      score := 0;
    }

    /** `isQuizComplete`, read from the fields. */
    method IsComplete() returns (complete: bool)
      requires Valid()
      ensures complete <==> currentQuestion == |Questions| - 1 && showExplanation
      ensures complete == IsQuizComplete(State())
    {
      complete := currentQuestion == |Questions| - 1 && showExplanation;
    }
  }
}
