/** Saving a finished quiz and listing the caller's assessments
    (actions/interview.js:196-299): per-question results, the wrong answers,
    the improvement-tip decision, and the assessment table. */
module Assessments {
  import opened Wrappers
  import opened Text
  import opened AiText
  import opened Accounts
  import opened Filtering
  import opened Quiz

  /** One entry of `questionResults`. `userAnswer` is absent when the answers
      array is shorter than the quiz or holds null. */
  datatype QuestionResult = QuestionResult(
    question: string,
    answer: string,
    userAnswer: Option<string>,
    isCorrect: bool,
    explanation: string)

  /** `answers[index]`, which is undefined past the end of the array. */
  function AnswerAt(answers: seq<Option<string>>, k: nat): Option<string> {
    if k < |answers| then answers[k] else None
  }

  /** Question `k` has an answer, and it is the correct answer, string for
      string. */
  predicate AnsweredRight(questions: seq<Question>, answers: seq<Option<string>>, k: nat)
    requires k < |questions|
  {
    k < |answers| && answers[k] == Some(questions[k].correctAnswer)
  }

  /** `questions.map(...)`: one result per question, in order, graded by
      exact string equality; a missing answer is never correct. */
  function QuestionResults(questions: seq<Question>, answers: seq<Option<string>>): (r: seq<QuestionResult>)
    ensures |r| == |questions|
    ensures forall k :: 0 <= k < |r| ==>
              && r[k].question == questions[k].question
              && r[k].answer == questions[k].correctAnswer
              && r[k].userAnswer == AnswerAt(answers, k)
              && r[k].explanation == questions[k].explanation
    ensures forall k :: 0 <= k < |r| ==> (r[k].isCorrect <==> AnsweredRight(questions, answers, k))
  {
    seq(|questions|, k requires 0 <= k < |questions| =>
      var q := questions[k];
      var a := AnswerAt(answers, k);
      QuestionResult(q.question, q.correctAnswer, a, a == Some(q.correctAnswer), q.explanation))
  }

  predicate IsWrong(r: QuestionResult) {
    !r.isCorrect
  }

  /** `questionResults.filter((q) => !q.isCorrect)`: exactly the wrong
      entries, in their original order, and none when every answer is right. */
  function WrongAnswers(results: seq<QuestionResult>): (r: seq<QuestionResult>)
    ensures forall k :: 0 <= k < |r| ==> r[k] in results && !r[k].isCorrect
    ensures forall k :: 0 <= k < |results| && !results[k].isCorrect ==> results[k] in r
    ensures r == [] <==> forall k :: 0 <= k < |results| ==> results[k].isCorrect
  {
    var r := Filter(results, IsWrong);
    assert r != [] ==> r[0] in results;
    r
  }

  /** The wrong answers of a longer result list are those of its two parts,
      one after the other. */
  lemma WrongAnswersConcat(a: seq<QuestionResult>, b: seq<QuestionResult>)
    ensures WrongAnswers(a + b) == WrongAnswers(a) + WrongAnswers(b)
  {
    FilterConcat(a, b, IsWrong);
  }

  /** Every question has an answer, and it is the correct one. */
  predicate AllAnsweredRight(questions: seq<Question>, answers: seq<Option<string>>) {
    forall k :: 0 <= k < |questions| ==> AnsweredRight(questions, answers, k)
  }

  /** A quiz answered in full and correctly has no wrong answers; one missing
      answer is enough for a wrong answer. */
  lemma AllRightNoWrongAnswers(questions: seq<Question>, answers: seq<Option<string>>)
    ensures WrongAnswers(QuestionResults(questions, answers)) == [] <==> AllAnsweredRight(questions, answers)
  {
    var r := QuestionResults(questions, answers);
    if WrongAnswers(r) == [] {
      assert forall k :: 0 <= k < |r| ==> r[k].isCorrect;
    } else {
      var k :| 0 <= k < |r| && !r[k].isCorrect;
      assert !AnsweredRight(questions, answers, k);
    }
  }

  /** The tip used when no model is configured. */
  const RevisionTip: string :=
    "Focus on revising the key concepts behind the questions you missed. Re-read explanations and practice with similar problems."

  /** The tip used when the model call throws. */
  const ReviewTip: string :=
    "Review the relevant topics and practice targeted exercises to strengthen weak areas."

  /** `improvementTip`: null when nothing was wrong; otherwise the fixed
      revision tip without a key, the model's reply trimmed, or the fixed
      review tip when the call throws. */
  function ImprovementTip(wrong: seq<QuestionResult>, apiKey: Option<string>, reply: AiReply): (r: Option<string>)
    ensures r.None? <==> wrong == []
    ensures wrong != [] && !Configured(apiKey) ==> r == Some(RevisionTip)
    ensures wrong != [] && Configured(apiKey) && reply.Threw? ==> r == Some(ReviewTip)
    ensures wrong != [] && Configured(apiKey) && reply.Replied? ==> r == Some(Trim(reply.text))
  {
    if wrong == [] then None
    else if !Configured(apiKey) then Some(RevisionTip)
    else match reply
      case Replied(text) => Some(Trim(text))
      case Threw => Some(ReviewTip)
  }

  /** A model reply of nothing but whitespace is stored as an empty tip, not
      as null and not as a fixed tip. */
  lemma BlankReplyGivesEmptyTip(wrong: seq<QuestionResult>, apiKey: Option<string>, text: string)
    requires wrong != [] && Configured(apiKey) && AllSpace(text)
    ensures ImprovementTip(wrong, apiKey, Replied(text)) == Some("")
  {
    TrimAllSpace(text);
  }

  /** A row of the assessment table. */
  datatype Assessment = Assessment(
    userId: nat,
    quizScore: real,
    questions: seq<QuestionResult>,
    category: string,
    improvementTip: Option<string>)

  /** The row `saveQuizResult` writes for `user`: the results, the caller's
      score as given (whatever the results say), the category "Technical",
      and a tip exactly when some answer was wrong. */
  function NewAssessment(user: User, questions: seq<Question>, answers: seq<Option<string>>, score: real,
                         apiKey: Option<string>, reply: AiReply): (r: Assessment)
    ensures r.userId == user.id && r.quizScore == score && r.category == "Technical"
    ensures r.questions == QuestionResults(questions, answers)
    ensures r.improvementTip.None? <==> AllAnsweredRight(questions, answers)
    ensures r.improvementTip == ImprovementTip(WrongAnswers(r.questions), apiKey, reply)
  {
    var results := QuestionResults(questions, answers);
    AllRightNoWrongAnswers(questions, answers);
    Assessment(user.id, score, results, "Technical", ImprovementTip(WrongAnswers(results), apiKey, reply))
  }

  function BelongsTo(id: nat): Assessment -> bool {
    (a: Assessment) => a.userId == id
  }

  /** The rows of user `id`, in the order they were written. */
  function AssessmentsOf(rows: seq<Assessment>, id: nat): (r: seq<Assessment>)
    ensures forall k :: 0 <= k < |r| ==> r[k] in rows && r[k].userId == id
    ensures forall k :: 0 <= k < |rows| && rows[k].userId == id ==> rows[k] in r
  {
    Filter(rows, BelongsTo(id))
  }

  /** A new row shows up in its owner's list, at the end, and in no one
      else's. */
  lemma AssessmentsOfAppend(rows: seq<Assessment>, a: Assessment, id: nat)
    ensures AssessmentsOf(rows + [a], id) ==
              AssessmentsOf(rows, id) + (if a.userId == id then [a] else [])
  {
    FilterAppend(rows, a, BelongsTo(id));
  }

  /** The assessment table. */
  class AssessmentStore {
    var rows: seq<Assessment>

    constructor()
      ensures rows == []
    {
      rows := [];
    }

    /** `saveQuizResult(questions, answers, score)`: the caller checks come
        first and write nothing; then one row is written, unless the insert
        fails ("Failed to save quiz result"). `apiKey` and `reply` stand for
        the model call that produces the tip. */
    method SaveQuizResult(caller: Option<string>, users: map<string, User>,
                          questions: seq<Question>, answers: seq<Option<string>>, score: real,
                          apiKey: Option<string>, reply: AiReply, saveFails: bool)
      returns (r: Result<Assessment, Error>)
      modifies this
      ensures CurrentUser(caller, users).Failure? ==>
                r == Failure(CurrentUser(caller, users).error) && rows == old(rows)
      ensures CurrentUser(caller, users).Success? && saveFails ==>
                r == Failure(SaveFailed) && rows == old(rows)
      ensures CurrentUser(caller, users).Success? && !saveFails ==>
                && r == Success(NewAssessment(users[caller.value], questions, answers, score, apiKey, reply))
                && rows == old(rows) + [r.value]
    {
      var user := CurrentUser(caller, users);
      if user.Failure? {
        return Failure(user.error);
      }
      var results := QuestionResults(questions, answers);
      var wrong := WrongAnswers(results);
      var tip := ImprovementTip(wrong, apiKey, reply);
      if saveFails {
        return Failure(SaveFailed);
      }
      var a := Assessment(user.value.id, score, results, "Technical", tip);
      rows := rows + [a];
      r := Success(a);
    }

    /** `getAssessments()`: the caller's rows, or "Failed to fetch
        assessments" when the query fails. */
    method GetAssessments(caller: Option<string>, users: map<string, User>, fetchFails: bool)
      returns (r: Result<seq<Assessment>, Error>)
      ensures CurrentUser(caller, users).Failure? ==> r == Failure(CurrentUser(caller, users).error)
      ensures CurrentUser(caller, users).Success? && fetchFails ==> r == Failure(FetchFailed)
      ensures CurrentUser(caller, users).Success? && !fetchFails ==>
                r == Success(AssessmentsOf(rows, users[caller.value].id))
    {
      var user := CurrentUser(caller, users);
      if user.Failure? {
        return Failure(user.error);
      }
      if fetchFails {
        return Failure(FetchFailed);
      }
      r := Success(AssessmentsOf(rows, user.value.id));
    }
  }
}
