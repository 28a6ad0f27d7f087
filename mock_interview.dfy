/** The Mock Interview page's session: the generated question list, the
    current question, the answers typed so far and the started and completed
    flags, with the category and difficulty colours and the completion
    percentage the progress card shows. */
module MockInterview {
  import opened Optional
  import opened Percent

  datatype InterviewQuestion = InterviewQuestion(id: string, question: string, category: string, difficulty: string)

  /** The one question list every company and role receives. */
  const GeneratedQuestions: seq<InterviewQuestion> := [
    InterviewQuestion("1",
      "Explain the difference between processes and threads and when you would use one over the other.",
      "Technical", "Medium"),
    InterviewQuestion("2",
      "Write an algorithm to find the longest substring without repeating characters in a given string.",
      "Coding", "Hard"),
    InterviewQuestion("3",
      "How would you design a scalable system for Google's search autocomplete feature?",
      "System Design", "Hard"),
    InterviewQuestion("4",
      "Describe a time when you faced a technical challenge. How did you approach it and what was the outcome?",
      "Behavioral", "Medium"),
    InterviewQuestion("5",
      "Explain how you would approach debugging a production issue that is affecting a critical service.",
      "Technical", "Medium"),
    InterviewQuestion("6",
      "How do you stay updated with the latest technologies and programming practices?",
      "Behavioral", "Easy"),
    InterviewQuestion("7",
      "Implement a function to check if a binary tree is balanced.",
      "Coding", "Medium"),
    InterviewQuestion("8",
      "How would you handle a situation where you disagree with a team member's approach to solving a problem?",
      "Behavioral", "Medium"),
    InterviewQuestion("9",
      "Explain the concept of eventual consistency and why it matters in distributed systems.",
      "Technical", "Hard"),
    InterviewQuestion("10",
      "Design a URL shortening service like bit.ly.",
      "System Design", "Medium"),
    InterviewQuestion("11",
      "How would you implement a cache with LRU (Least Recently Used) eviction policy?",
      "Coding", "Hard"),
    InterviewQuestion("12",
      "Tell me about a project you're particularly proud of. What was your role and what challenges did you overcome?",
      "Behavioral", "Medium"),
    InterviewQuestion("13",
      "How would you design the back-end system for a real-time collaborative document editing service?",
      "System Design", "Hard"),
    InterviewQuestion("14",
      "Explain how garbage collection works in your preferred programming language.",
      "Technical", "Medium"),
    InterviewQuestion("15",
      "Write an algorithm to find the kth largest element in an unsorted array.",
      "Coding", "Medium"),
    InterviewQuestion("16",
      "How do you ensure your code is maintainable and understandable for other developers?",
      "Behavioral", "Easy"),
    InterviewQuestion("17",
      "Describe your approach to testing and quality assurance in software development.",
      "Technical", "Medium"),
    InterviewQuestion("18",
      "Implement a function to determine if a string is a palindrome.",
      "Coding", "Easy"),
    InterviewQuestion("19",
      "How would you design a notification system that can handle millions of users?",
      "System Design", "Hard"),
    InterviewQuestion("20",
      "Tell me about a time when you had to learn a new technology quickly to complete a project.",
      "Behavioral", "Medium")]

  // ---------------------------------------------------------------------------
  // Colour lookups

  const DefaultColor := "bg-gray-100 text-gray-800"

  /** `getCategoryColor`. */
  function CategoryColor(category: string): (r: string)
    ensures category == "Technical" ==> r == "bg-blue-100 text-blue-800"
    ensures category == "Coding" ==> r == "bg-green-100 text-green-800"
    ensures category == "Behavioral" ==> r == "bg-purple-100 text-purple-800"
    ensures category == "System Design" ==> r == "bg-orange-100 text-orange-800"
    ensures r == DefaultColor <==>
      category != "Technical" && category != "Coding" && category != "Behavioral" && category != "System Design"
  {
    match category
    case "Technical" => "bg-blue-100 text-blue-800"
    case "Coding" => "bg-green-100 text-green-800"
    case "Behavioral" => "bg-purple-100 text-purple-800"
    case "System Design" => "bg-orange-100 text-orange-800"
    case _ => DefaultColor
  }

  /** `getDifficultyColor`. */
  function DifficultyColor(difficulty: string): (r: string)
    ensures difficulty == "Easy" ==> r == "bg-green-100 text-green-800"
    ensures difficulty == "Medium" ==> r == "bg-yellow-100 text-yellow-800"
    ensures difficulty == "Hard" ==> r == "bg-red-100 text-red-800"
    ensures r == DefaultColor <==> difficulty != "Easy" && difficulty != "Medium" && difficulty != "Hard"
  {
    match difficulty
    case "Easy" => "bg-green-100 text-green-800"
    case "Medium" => "bg-yellow-100 text-yellow-800"
    case "Hard" => "bg-red-100 text-red-800"
    case _ => DefaultColor
  }

  /** Every generated question has a known category and difficulty, so none is shown in gray. */
  lemma GeneratedQuestionsHaveColors()
    ensures forall i :: 0 <= i < |GeneratedQuestions| ==>
      CategoryColor(GeneratedQuestions[i].category) != DefaultColor &&
      DifficultyColor(GeneratedQuestions[i].difficulty) != DefaultColor
  {
  }

  // ---------------------------------------------------------------------------
  // Answers and completion

  function QuestionIds(questions: seq<InterviewQuestion>): set<string> {
    set i | 0 <= i < |questions| :: questions[i].id
  }

  /** A list has at most as many distinct ids as questions. */
  lemma {:induction false} QuestionIdsAtMostLength(questions: seq<InterviewQuestion>)
    ensures |QuestionIds(questions)| <= |questions|
  {
    if questions != [] {
      var n := |questions| - 1;
      QuestionIdsAtMostLength(questions[..n]);
      assert QuestionIds(questions) == QuestionIds(questions[..n]) + {questions[n].id} by {
        forall id | id in QuestionIds(questions) ensures id in QuestionIds(questions[..n]) + {questions[n].id} {
          var i :| 0 <= i < |questions| && questions[i].id == id;
          if i < n {
            assert questions[..n][i] == questions[i];
          }
        }
      }
    }
  }

  /** `Math.round(answered / total * 100)`. With no questions it is no number
      (NaN with no answers, Infinity otherwise); the page shows the figure only
      when there are questions. */
  function CompletionPercent(answered: nat, total: nat): (r: Option<int>)
    ensures r.None? <==> total == 0
    ensures r.Some? ==> 2 * total * r.value <= 200 * answered + total < 2 * total * (r.value + 1)
  {
    if total == 0 then None else Some(RoundedPercent(answered, total))
  }

  /** Only question ids are ever answered, so completion never passes 100%. */
  lemma CompletionAtMost100(answers: map<string, string>, questions: seq<InterviewQuestion>)
    requires |questions| > 0
    requires answers.Keys <= QuestionIds(questions)
    ensures var r := CompletionPercent(|answers.Keys|, |questions|);
      r.Some? && 0 <= r.value <= 100
  {
    QuestionIdsAtMostLength(questions);
    assert |answers.Keys| <= |QuestionIds(questions)| by {
      SubsetCardinality(answers.Keys, QuestionIds(questions));
    }
    RoundedPercentBounds(|answers.Keys|, |questions|);
  }

  lemma SubsetCardinality(a: set<string>, b: set<string>)
    requires a <= b
    ensures |a| <= |b|
  {
    assert b == a + (b - a);
  }

  // ---------------------------------------------------------------------------
  // The session

  class InterviewSession {
    var company: string
    var role: string
    var questions: seq<InterviewQuestion>
    var currentQuestionIndex: nat
    var userAnswers: map<string, string>
    var interviewStarted: bool
    var interviewCompleted: bool

    constructor()
      ensures company == "" && role == "" && questions == []
      ensures currentQuestionIndex == 0 && userAnswers == map[]
      ensures !interviewStarted && !interviewCompleted
    {
      company := "";
      role := "";
      questions := [];
      currentQuestionIndex := 0;
      userAnswers := map[];
      interviewStarted := false;
      interviewCompleted := false;
    }

    /** When there are questions, the index points at one of them. */
    predicate IndexInRange()
      reads this
    {
      |questions| > 0 ==> currentQuestionIndex < |questions|
    }

    /** Every answer belongs to one of the questions. */
    predicate AnswersForQuestions()
      reads this
    {
      userAnswers.Keys <= QuestionIds(questions)
    }

    function Completion(): Option<int>
      reads this
    {
      CompletionPercent(|userAnswers.Keys|, |questions|)
    }

    method SelectCompany(c: string)
      modifies this
      ensures company == c
      ensures role == old(role) && questions == old(questions) && currentQuestionIndex == old(currentQuestionIndex)
      ensures userAnswers == old(userAnswers)
      ensures interviewStarted == old(interviewStarted) && interviewCompleted == old(interviewCompleted)
    {
      company := c;
    }

    method SelectRole(r: string)
      modifies this
      ensures role == r
      ensures company == old(company) && questions == old(questions) && currentQuestionIndex == old(currentQuestionIndex)
      ensures userAnswers == old(userAnswers)
      ensures interviewStarted == old(interviewStarted) && interviewCompleted == old(interviewCompleted)
    {
      role := r;
    }

    /** `generateQuestions`: nothing without a company and a role; otherwise a
        fresh session over the fixed question list. */
    method GenerateQuestions()
      modifies this
      ensures company == old(company) && role == old(role)
      ensures old(company) == "" || old(role) == "" ==>
        questions == old(questions) && currentQuestionIndex == old(currentQuestionIndex) &&
        userAnswers == old(userAnswers) &&
        interviewStarted == old(interviewStarted) && interviewCompleted == old(interviewCompleted)
      ensures old(company) != "" && old(role) != "" ==>
        questions == GeneratedQuestions && currentQuestionIndex == 0 && userAnswers == map[] &&
        !interviewStarted && !interviewCompleted
      ensures old(company) != "" && old(role) != "" ==> IndexInRange() && AnswersForQuestions()
    {
      if company == "" || role == "" {
        return;
      }
      questions := GeneratedQuestions;
      currentQuestionIndex := 0;
      userAnswers := map[];
      interviewStarted := false;
      interviewCompleted := false;
    }

    method StartInterview()
      modifies this
      ensures interviewStarted
      ensures company == old(company) && role == old(role) && questions == old(questions)
      ensures currentQuestionIndex == old(currentQuestionIndex) && userAnswers == old(userAnswers)
      ensures interviewCompleted == old(interviewCompleted)
    {
      interviewStarted := true;
    }

    /** `saveAnswer`: sets or overwrites one answer. */
    method SaveAnswer(questionId: string, answer: string)
      modifies this
      ensures userAnswers == old(userAnswers)[questionId := answer]
      ensures questionId in userAnswers && userAnswers[questionId] == answer
      ensures forall k :: k in old(userAnswers) && k != questionId ==> k in userAnswers && userAnswers[k] == old(userAnswers)[k]
      ensures userAnswers.Keys == old(userAnswers).Keys + {questionId}
      ensures old(AnswersForQuestions()) && questionId in QuestionIds(questions) ==> AnswersForQuestions()
      ensures company == old(company) && role == old(role) && questions == old(questions)
      ensures currentQuestionIndex == old(currentQuestionIndex)
      ensures interviewStarted == old(interviewStarted) && interviewCompleted == old(interviewCompleted)
    {
      userAnswers := userAnswers[questionId := answer];
    }

    /** The answer box writes the answer of the current question. */
    method AnswerCurrent(answer: string)
      requires |questions| > 0 && IndexInRange()
      modifies this
      ensures company == old(company) && role == old(role) && questions == old(questions)
      ensures currentQuestionIndex == old(currentQuestionIndex)
      ensures userAnswers == old(userAnswers)[questions[currentQuestionIndex].id := answer]
      ensures old(AnswersForQuestions()) ==> AnswersForQuestions()
      ensures IndexInRange()
      ensures interviewStarted == old(interviewStarted) && interviewCompleted == old(interviewCompleted)
    {
      SaveAnswer(questions[currentQuestionIndex].id, answer);
    }

    /** `nextQuestion`: advance, or finish on the last question. */
    method NextQuestion()
      modifies this
      ensures old(currentQuestionIndex) < |questions| - 1 ==>
        currentQuestionIndex == old(currentQuestionIndex) + 1 && interviewCompleted == old(interviewCompleted)
      ensures !(old(currentQuestionIndex) < |questions| - 1) ==>
        currentQuestionIndex == old(currentQuestionIndex) && interviewCompleted
      ensures old(IndexInRange()) ==> IndexInRange()
      ensures company == old(company) && role == old(role) && questions == old(questions)
      ensures userAnswers == old(userAnswers) && interviewStarted == old(interviewStarted)
    {
      if currentQuestionIndex < |questions| - 1 {
        currentQuestionIndex := currentQuestionIndex + 1;
      } else {
        interviewCompleted := true;
      }
    }

    /** `previousQuestion`: step back unless at the first question. */
    method PreviousQuestion()
      modifies this
      ensures old(currentQuestionIndex) > 0 ==> currentQuestionIndex == old(currentQuestionIndex) - 1
      ensures old(currentQuestionIndex) == 0 ==> currentQuestionIndex == 0
      ensures old(IndexInRange()) ==> IndexInRange()
      ensures company == old(company) && role == old(role) && questions == old(questions)
      ensures userAnswers == old(userAnswers)
      ensures interviewStarted == old(interviewStarted) && interviewCompleted == old(interviewCompleted)
    {
      if currentQuestionIndex > 0 {
        currentQuestionIndex := currentQuestionIndex - 1;
      }
    }

    /** A button of the question navigator, which lists one button per question. */
    method JumpTo(index: nat)
      requires index < |questions|
      modifies this
      ensures currentQuestionIndex == index && IndexInRange()
      ensures company == old(company) && role == old(role) && questions == old(questions)
      ensures userAnswers == old(userAnswers)
      ensures interviewStarted == old(interviewStarted) && interviewCompleted == old(interviewCompleted)
    {
      currentQuestionIndex := index;
    }

    /** "End Interview". */
    method EndInterview()
      modifies this
      ensures interviewCompleted
      ensures company == old(company) && role == old(role) && questions == old(questions)
      ensures currentQuestionIndex == old(currentQuestionIndex) && userAnswers == old(userAnswers)
      ensures interviewStarted == old(interviewStarted)
    {
      interviewCompleted := true;
    }

    /** "Review Questions & Answers": back to the question list, answers kept. */
    method Review()
      modifies this
      ensures !interviewStarted && !interviewCompleted
      ensures company == old(company) && role == old(role) && questions == old(questions)
      ensures currentQuestionIndex == old(currentQuestionIndex) && userAnswers == old(userAnswers)
    {
      interviewStarted := false;
      interviewCompleted := false;
    }

    /** "Change Selection" and "Create New Interview" drop the questions and nothing else. */
    method ClearQuestions()
      modifies this
      ensures questions == [] && IndexInRange()
      ensures company == old(company) && role == old(role)
      ensures currentQuestionIndex == old(currentQuestionIndex) && userAnswers == old(userAnswers)
      ensures interviewStarted == old(interviewStarted) && interviewCompleted == old(interviewCompleted)
    {
      questions := [];
    }
  }
}
