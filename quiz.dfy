/** Quiz generation (actions/interview.js:7-194): the fallback quiz built from
    a fixed pool of fifteen questions, and the choice between the model's quiz
    and that fallback. */
module Quiz {
  import opened Wrappers
  import opened Text
  import opened AiText
  import opened Accounts
  import opened Shuffling

  datatype Question = Question(
    question: string,
    options: seq<string>,
    correctAnswer: string,
    explanation: string)

  /** How many pool entries the fallback quiz keeps. */
  const QuizLength: nat := 10

  /** `(user?.industry || "software").toLowerCase()`: a missing or empty
      industry reads as "software". */
  function IndustryLabel(industry: Option<string>): (r: string)
    ensures industry.None? || industry.value == "" ==> r == "software"
    ensures industry.Some? && industry.value != "" ==> r == ToLower(industry.value) && |r| == |industry.value|
  {
    ToLower(if industry.None? || industry.value == "" then "software" else industry.value)
  }

  /** A well-formed multiple-choice question: four options, one of them the
      correct answer. */
  predicate WellFormed(q: Question) {
    |q.options| == 4 && q.correctAnswer in q.options
  }

  /** The questions of the fallback pool, well-formed by construction. */
  type PoolQuestion = q: Question | WellFormed(q)
    witness Question("", ["", "", "", ""], "", "")

  /** A pool entry; the verifier checks that the correct answer is one of the
      four options. */
  function Mcq(question: string, options: seq<string>, correctAnswer: string, explanation: string): PoolQuestion
    requires |options| == 4 && correctAnswer in options
  {
    Question(question, options, correctAnswer, explanation)
  }

  /** The pool entries, in the source's order. Each takes the industry label;
      only the first one mentions it. */
  function DesignConcept(industry: string): PoolQuestion {
    Mcq("Which of the following best describes a core design concept in " + industry + "?",
      ["Loose coupling", "Global state everywhere", "Hidden side-effects", "No testing needed"],
      "Loose coupling",
      "Loose coupling improves maintainability and testability.")
  }

  function IdempotentMethod(industry: string): PoolQuestion {
    Mcq("Which HTTP method is idempotent?",
      ["POST", "PUT", "PATCH", "CONNECT"],
      "PUT",
      "PUT replaces a resource and is idempotent by definition.")
  }

  function BinarySearch(industry: string): PoolQuestion {
    Mcq("What is the time complexity of binary search on a sorted array?",
      ["O(n)", "O(log n)", "O(n log n)", "O(1)"],
      "O(log n)",
      "Each step halves the search space.")
  }

  function FifoStructure(industry: string): PoolQuestion {
    Mcq("Which data structure operates on a FIFO principle?",
      ["Stack", "Queue", "Tree", "Graph"],
      "Queue",
      "Queues process elements First-In-First-Out.")
  }

  function SqlWhere(industry: string): PoolQuestion {
    Mcq("Which SQL clause filters rows before grouping?",
      ["WHERE", "HAVING", "GROUP BY", "ORDER BY"],
      "WHERE",
      "WHERE filters rows; HAVING filters groups.")
  }

  function Acid(industry: string): PoolQuestion {
    Mcq("What does ACID stand for in databases?",
      ["Atomicity, Consistency, Isolation, Durability", "Accuracy, Consistency, Isolation, Durability", "Atomicity, Concurrency, Integrity, Durability", "Availability, Consistency, Isolation, Durability"],
      "Atomicity, Consistency, Isolation, Durability",
      "ACID are key transaction properties.")
  }

  function UnauthorizedStatus(industry: string): PoolQuestion {
    Mcq("Which HTTP status code represents 'Unauthorized' (no valid credentials)?",
      ["400", "401", "403", "404"],
      "401",
      "401 indicates authentication is required or failed.")
  }

  function NoSqlDatabase(industry: string): PoolQuestion {
    Mcq("Which of these is a NoSQL database?",
      ["PostgreSQL", "MySQL", "MongoDB", "SQLite"],
      "MongoDB",
      "MongoDB is a document-oriented NoSQL database.")
  }

  function Flexbox(industry: string): PoolQuestion {
    Mcq("What does CSS Flexbox primarily control?",
      ["2D grid layout", "One\U{2011}dimensional layout", "Server rendering", "Accessibility"],
      "One\U{2011}dimensional layout",
      "Flexbox lays out items in a row or column.")
  }

  function ShallowCopy(industry: string): PoolQuestion {
    Mcq("Which JavaScript method creates a shallow copy of an array?",
      ["push", "map", "splice", "sort"],
      "map",
      "map returns a new array without mutating the original.")
  }

  function UnitTesting(industry: string): PoolQuestion {
    Mcq("What is the purpose of unit testing?",
      ["Test integrated systems only", "Verify individual components in isolation", "Measure performance", "Deploy automatically"],
      "Verify individual components in isolation",
      "Unit tests validate small pieces of code independently.")
  }

  function CloudControl(industry: string): PoolQuestion {
    Mcq("Which cloud model gives you most control over OS and runtime?",
      ["SaaS", "PaaS", "IaaS", "FaaS"],
      "IaaS",
      "IaaS provides virtualized infrastructure with OS-level control.")
  }

  function IdempotentMeaning(industry: string): PoolQuestion {
    Mcq("What does 'idempotent' mean in API design?",
      ["Multiple calls have the same effect as a single call", "Calls are always cached", "Calls are always asynchronous", "Calls must be retried"],
      "Multiple calls have the same effect as a single call",
      "Idempotent operations can be safely retried.")
  }

  function NotPrimitive(industry: string): PoolQuestion {
    Mcq("Which one is NOT a JavaScript primitive?",
      ["string", "number", "object", "boolean"],
      "object",
      "Objects are reference types; not primitives.")
  }

  function GitRebase(industry: string): PoolQuestion {
    Mcq("What does Git 'rebase' do?",
      ["Combines multiple commits into one", "Moves/rewrites commits onto another base", "Discards local changes", "Creates a new branch"],
      "Moves/rewrites commits onto another base",
      "Rebase reapplies commits on a new base tip.")
  }

  /** The question pool: fifteen entries, in the source's order, whatever
      the industry label. */
  function Pool(industry: string): (r: seq<PoolQuestion>)
    ensures |r| == 15
  {
    [DesignConcept(industry), IdempotentMethod(industry), BinarySearch(industry), FifoStructure(industry), SqlWhere(industry),
     Acid(industry), UnauthorizedStatus(industry), NoSqlDatabase(industry), Flexbox(industry), ShallowCopy(industry),
     UnitTesting(industry), CloudControl(industry), IdempotentMeaning(industry), NotPrimitive(industry), GitRebase(industry)]
  }

  /** `q` is the pool entry `p` with its options reordered: question, answer
      and explanation are copied, the options are a permutation. */
  predicate OptionsShuffled(q: Question, p: Question) {
    && q.question == p.question
    && q.correctAnswer == p.correctAnswer
    && q.explanation == p.explanation
    && |q.options| == |p.options|
    && multiset(q.options) == multiset(p.options)
  }

  /** What `fallbackQuiz` returns: the pool entries at ten pairwise-distinct
      positions `picks`, in that order, each with its options reordered. */
  predicate IsFallbackQuiz(quiz: seq<Question>, picks: seq<nat>, pool: seq<Question>) {
    && |picks| == QuizLength && |quiz| == QuizLength
    && Distinct(picks)
    && (forall k :: 0 <= k < QuizLength ==> picks[k] < |pool|)
    && (forall k :: 0 <= k < QuizLength ==> OptionsShuffled(quiz[k], pool[picks[k]]))
  }

  /** Shuffle a copy of one question's options; the question itself is
      untouched. */
  method ShuffleOptions(q: Question) returns (r: Question)
    ensures OptionsShuffled(r, q)
  {
    var options := new string[|q.options|](m requires 0 <= m < |q.options| => q.options[m]);
    assert options[..] == q.options;
    ghost var oj := Shuffle(options);
    FisherYatesPermutes(q.options, oj);
    r := q.(options := options[..]);
  }

  /** Pick ten questions and shuffle each one's options: shuffle a copy of the
      pool, keep its first ten entries, and shuffle a copy of each kept
      entry's options. The pool and its option lists are never modified. */
  method SelectQuestions(pool: seq<Question>) returns (quiz: seq<Question>, ghost picks: seq<nat>)
    requires |pool| >= QuizLength
    ensures IsFallbackQuiz(quiz, picks, pool)
  {
    var shuffled, order := ShuffledCopy(pool);
    picks := order[..QuizLength];
    quiz := [];
    var k := 0;
    while k < QuizLength
      invariant 0 <= k <= QuizLength && |quiz| == k
      invariant forall m :: 0 <= m < k ==> OptionsShuffled(quiz[m], pool[picks[m]])
    {
      var q := ShuffleOptions(shuffled[k]);
      quiz := quiz + [q];
      k := k + 1;
    }
  }

  /** `fallbackQuiz(user)`: ten questions drawn from the pool for the user's
      industry. */
  method FallbackQuiz(industry: Option<string>) returns (quiz: seq<Question>, ghost picks: seq<nat>)
    ensures IsFallbackQuiz(quiz, picks, Pool(IndustryLabel(industry)))
  {
    quiz, picks := SelectQuestions(Pool(IndustryLabel(industry)));
  }

  /** A fallback quiz drawn from well-formed questions, such as the pool's,
      has ten questions of four options each, and each question's correct
      answer is among its options. */
  lemma FallbackQuizWellFormed(quiz: seq<Question>, picks: seq<nat>, pool: seq<PoolQuestion>)
    requires IsFallbackQuiz(quiz, picks, pool)
    ensures |quiz| == 10
    ensures forall k :: 0 <= k < |quiz| ==> WellFormed(quiz[k])
  {
    forall k | 0 <= k < |quiz|
      ensures WellFormed(quiz[k])
    {
      var q, p := quiz[k], pool[picks[k]];
      assert WellFormed(p);
      assert p.correctAnswer in multiset(p.options);
      assert q.correctAnswer in multiset(q.options);
    }
  }

  /** The model's quiz, when there is one: a configured key, a reply, and a
      reply whose cleaned text parses. */
  function AiQuiz(apiKey: Option<string>, reply: AiReply, parse: string -> Option<seq<Question>>): (r: Option<seq<Question>>)
    ensures r.Some? ==> Configured(apiKey) && reply.Replied? && parse(Clean(reply.text)) == r
    ensures Configured(apiKey) && reply.Replied? ==> r == parse(Clean(reply.text))
  {
    if !Configured(apiKey) then None
    else match reply
      case Threw => None
      case Replied(text) => parse(Clean(text))
  }

  /** `generateQuiz()`: the caller checks first; then the model's quiz, or the
      fallback quiz when the key is missing or the call or the parse fails.
      `parse` stands for `JSON.parse(...).questions`. */
  method GenerateQuiz(caller: Option<string>, users: map<string, User>, apiKey: Option<string>,
                      reply: AiReply, parse: string -> Option<seq<Question>>)
    returns (r: Result<seq<Question>, Error>, ghost picks: seq<nat>)
    ensures CurrentUser(caller, users).Failure? ==> r == Failure(CurrentUser(caller, users).error)
    ensures CurrentUser(caller, users).Success? ==> r.Success?
    ensures CurrentUser(caller, users).Success? && AiQuiz(apiKey, reply, parse).Some? ==>
              r.value == AiQuiz(apiKey, reply, parse).value
    ensures CurrentUser(caller, users).Success? && AiQuiz(apiKey, reply, parse).None? ==>
              IsFallbackQuiz(r.value, picks, Pool(IndustryLabel(users[caller.value].industry)))
  {
    picks := [];
    var user := CurrentUser(caller, users);
    if user.Failure? {
      return Failure(user.error), picks;
    }
    var fromModel := AiQuiz(apiKey, reply, parse);
    if fromModel.Some? {
      return Success(fromModel.value), picks;
    }
    var quiz;
    quiz, picks := FallbackQuiz(user.value.industry);
    r := Success(quiz);
  }
}
