# Career-assistant server actions, modelled in Dafny

This project models the sequential logic underneath three server-action
files of a career-assistance web application:

- the fallback interview quiz, the quiz-or-fallback decision, and the grading
  and saving of a finished quiz (`actions/interview.js`);
- the industry insights: canned defaults, the model-or-defaults decision, and
  the get-or-create of the insight row for the caller's industry
  (`actions/dashboard.js`);
- cover letters: the fallback letter template, the three ways a generated
  letter reaches the table, and the owner-scoped list, read and delete
  (`actions/cover-letter.js`).

Every action except `generateAIInsights` starts by resolving the caller: no
caller id means "Unauthorized", no user row means "User not found", and
nothing is written before these two checks pass (`Accounts.CurrentUser`).
`generateAIInsights` has no caller check of its own. The external services
are inputs. The signed-in caller is an `Option<string>`. The user table is a
map from caller id to `User`. `GEMINI_API_KEY` is an `Option<string>`, and an
empty key counts as unset. The model call is an `AiReply` (`Replied(text)` or
`Threw`), `JSON.parse` is a function parameter `parse` that may fail,
`Math.random` is a nondeterministic choice of `j` in `[0, i]`, and `Date.now()`
is a parameter `now`. A failure of a database write or read is a boolean
input for these queries only: the assessment create (`saveFails`), the
assessment read (`fetchFails`), the insight create (`createFails`), and the two
cover-letter creates (`firstCreateFails`, `retryCreateFails`).

Tables are classes holding a sequence of rows: `AssessmentStore`,
`InsightStore` and `CoverLetterStore`. The actions that write are methods
with `modifies this`. Their `ensures` state the new table in terms of the
old one. The pure functions beside them state the lookups:
`AssessmentsOf` and `InsightFor` carry the append lemmas
(`AssessmentsOfAppend`, `InsightForAppend`), `Find` carries
`FindIsOwnerScoped`, and `LettersOf` is the shared `Filter` with the owner
test.

Modules, one file each: `Wrappers` (Option, Result), `Text` (trim,
lower-case, join, integer rendering), `AiText` (the fence-stripping cleaner),
`Accounts` (errors, users, the caller checks), `Shuffling` (Fisher–Yates on an
array), `Filtering` (order-preserving filter), `Quiz`, `Assessments`,
`Insights`, `CoverLetters`.

Three details of the code that the model keeps:

- The cleaner removes every "```" marker anywhere in the text, with an
  optional `json` tag and one optional newline after each. It does not remove
  only leading and trailing fences.
- The pool holds fifteen questions in all. The first of them is the one that
  names the industry.
- With a key configured and a wrong answer, a model reply made only of
  whitespace is stored as the empty tip `""`. It is not stored as null.

## Model

| member | source | states |
|---|---|---|
| Accounts.CurrentUser | actions/interview.js:197-204 | "Unauthorized" exactly when the caller id is missing or empty; "User not found" exactly when a caller has no user row; otherwise that row |
| Text.Trim | actions/dashboard.js:55 | the result has no whitespace at either end |
| Text.TrimRemovesPadding | actions/dashboard.js:55 | `trim` cuts only whitespace: the input is whitespace + result + whitespace |
| Text.TrimIdempotent | actions/dashboard.js:55 | trimming twice is trimming once |
| Text.TrimAllSpace | actions/interview.js:247 | a text made only of whitespace trims to the empty string |
| Text.TrimSkipsLeadingSpace | actions/dashboard.js:55 | whitespace put in front of a text does not change its trim |
| Text.ToLower | actions/interview.js:8 | lower-casing keeps the length, turns each ASCII upper-case letter into its lower-case letter and keeps every other character |
| Text.ToLowerIdempotent | actions/interview.js:8 | lower-casing twice is lower-casing once |
| Text.Join | actions/cover-letter.js:11-13 | an empty list joins to ""; otherwise the text ends right after the last element |
| Text.JoinPlacesInOrder | actions/cover-letter.js:11-13 | each element of a joined list sits in the joined text at its offset, in list order |
| Text.JoinSeparates | actions/cover-letter.js:11-13 | the separator stands exactly between neighbouring elements |
| Text.IntToString | actions/cover-letter.js:10 | a leading "-" exactly for a negative number, then decimal digits with no leading zero, at least one of them |
| Text.IntToStringRoundTrip | actions/cover-letter.js:10 | the decimal rendering of an integer reads back as that integer |
| AiText.Clean | actions/dashboard.js:55 | the cleaned text has no whitespace at either end |
| AiText.StripFences | actions/dashboard.js:55 | the global fence replace never makes the text longer |
| AiText.StripFencesPlain | actions/dashboard.js:55 | a text with no "```" marker passes the fence removal unchanged |
| AiText.StripFencesKeepsPlainPrefix | actions/dashboard.js:55 | text before the first backtick is copied as it is |
| AiText.StripFencesLeavesNoFence | actions/dashboard.js:55 | after the global replace no "```" marker is left anywhere |
| AiText.CleanLeavesNoFence | actions/dashboard.js:55 | the cleaned text contains no "```" marker |
| AiText.CleanIdempotent | actions/interview.js:186 | cleaning an already-cleaned text changes nothing |
| AiText.CleanPlain | actions/dashboard.js:55 | a text without backticks is only trimmed |
| AiText.CleanJsonFence | actions/dashboard.js:55 | "```json\n" + J + "```" cleans to trim(J) when J has no backticks |
| AiText.CleanBareFence | actions/dashboard.js:55 | "```" + J + "```" cleans to trim(J) when J has no backticks and does not start with "json" |
| AiText.CleanEatsLeadingJson | actions/dashboard.js:55 | with no newline after the tag, "```json" + J + "```" still cleans to trim(J) |
| Shuffling.Shuffle | actions/interview.js:123-129 | every swap index is in bounds (`j` in `[0, i]`, `i` from length-1 down to 1), and the array ends as the Fisher–Yates function of its old contents and the choices |
| Shuffling.SwapPermutes | actions/interview.js:126 | one swap keeps the multiset of elements |
| Shuffling.FisherYatesPermutes | actions/interview.js:124-128 | the shuffle keeps the length and the multiset of elements |
| Shuffling.FisherYatesShortIsIdentity | actions/interview.js:124 | arrays of length 0 or 1 come back untouched |
| Shuffling.FisherYatesKeepsDistinct | actions/interview.js:124-128 | shuffling pairwise-distinct elements leaves them pairwise distinct |
| Shuffling.FisherYatesReindexes | actions/interview.js:124-128 | shuffling the list of positions says where each element went |
| Shuffling.ShuffledCopy | actions/interview.js:132 | a shuffled `slice()` copy: the same length, and each entry taken from a distinct position of the input |
| Quiz.IndustryLabel | actions/interview.js:8 | a missing or empty industry reads as "software"; otherwise the industry, lower-cased, of the same length |
| Quiz.Pool | actions/interview.js:9-120 | the pool holds fifteen questions for every industry |
| Quiz.ShuffleOptions | actions/interview.js:134 | question, answer and explanation are copied; the options are a permutation of the entry's options |
| Quiz.SelectQuestions | actions/interview.js:131-135 | ten entries at pairwise-distinct pool positions, each with its options permuted |
| Quiz.FallbackQuiz | actions/interview.js:7-138 | the same, drawn from the pool for the user's industry label |
| Quiz.FallbackQuizWellFormed | actions/interview.js:9-120 | a fallback quiz has ten questions, each with four options, one of them the correct answer |
| Quiz.AiQuiz | actions/interview.js:176-189 | the model's quiz exists only with a key, a reply and a successful parse of the cleaned reply |
| Quiz.GenerateQuiz | actions/interview.js:140-194 | the caller checks first; the parsed model quiz when there is one, otherwise a fallback quiz for the user's industry |
| Filtering.Filter | actions/interview.js:215 | the kept elements are exactly those of the input that pass the test |
| Filtering.FilterConcat | actions/interview.js:215 | filtering a concatenation filters each part, in order |
| Filtering.FilterKeepsAll | actions/interview.js:215 | the filter returns its input exactly when every element passes |
| Assessments.QuestionResults | actions/interview.js:206-212 | one result per question, in order, with the fields copied; `isCorrect` holds iff the answer at that index is present and equal to the correct answer |
| Assessments.WrongAnswers | actions/interview.js:215 | exactly the results with `isCorrect` false, and none iff all are correct |
| Assessments.WrongAnswersConcat | actions/interview.js:215 | the wrong answers keep the results' order |
| Assessments.AllRightNoWrongAnswers | actions/interview.js:206-219 | there are no wrong answers iff every question was answered, and answered correctly |
| Assessments.ImprovementTip | actions/interview.js:217-253 | null iff nothing was wrong; otherwise the fixed revision tip without a key, the trimmed reply, or the fixed review tip when the call throws |
| Assessments.BlankReplyGivesEmptyTip | actions/interview.js:247 | a whitespace-only reply is stored as the empty tip |
| Assessments.NewAssessment | actions/interview.js:256-265 | the row holds the caller's id, the score as given, the results, category "Technical", and a tip iff some answer was wrong; the stored tip is the one `ImprovementTip` chooses for the row's wrong answers (the trimmed reply, the revision tip or the review tip) |
| Assessments.AssessmentsOf | actions/interview.js:284-292 | only rows of this user, and all of them |
| Assessments.AssessmentsOfAppend | actions/interview.js:284-292 | a new row joins its owner's list at the end and nobody else's |
| Assessments.AssessmentStore.SaveQuizResult | actions/interview.js:196-272 | the caller errors and "Failed to save quiz result" write nothing; otherwise exactly the new row is appended and returned |
| Assessments.AssessmentStore.GetAssessments | actions/interview.js:274-299 | the caller errors, "Failed to fetch assessments", or the caller's rows |
| Insights.Remote | actions/dashboard.js:9-13 | a remote salary range, with min ≤ median ≤ max |
| Insights.DefaultInsights | actions/dashboard.js:7-21 | five ordered salary ranges, demand level and outlook within the prompt's enumerations, five skills, trends and recommended skills |
| Insights.DefaultInsightsIgnoreIndustry | actions/dashboard.js:7 | the defaults do not depend on the industry |
| Insights.GenerateAIInsights | actions/dashboard.js:23-60 | the defaults without a key, after a throw or a failed parse; otherwise the parsed cleaned reply; never anything else |
| Insights.FencedReplyParsesJson | actions/dashboard.js:49-56 | a reply of "```json\n" + J + "```" is parsed as trim(J) |
| Insights.InsightFor | actions/dashboard.js:66-76 | the row found belongs to the user's industry; there is none iff the user has no industry or no row has it |
| Insights.InsightForAppend | actions/dashboard.js:75-90 | an appended row changes the lookup only for its own industry, and only when that industry had none |
| Insights.CreatedRowIsFound | actions/dashboard.js:75-90 | after the create, the next lookup finds the created row, and industries stay unique |
| Insights.InsightStore.GetIndustryInsights | actions/dashboard.js:62-91 | the caller errors create nothing; an existing row is returned unchanged; otherwise one row with the user's industry, the generated insights and `nextUpdate = now + 604800000` is appended |
| CoverLetters.SkillsText | actions/cover-letter.js:11-13 | a missing or empty skill list reads "communication, problem solving"; otherwise the skills joined by ", " |
| CoverLetters.FieldText | actions/cover-letter.js:10-30 | each hole's value; experience, industry and name fall back to 0, "the industry" and "Candidate" only when absent |
| CoverLetters.ExperienceReadsBack | actions/cover-letter.js:10 | the experience hole reads back as the stored years, or 0 |
| CoverLetters.SkillsInOrder | actions/cover-letter.js:11-13 | the user's skills appear in the skills hole in order, separated by ", " |
| CoverLetters.RenderSplit | actions/cover-letter.js:7-31 | rendering adjacent stretches of the template concatenates them |
| CoverLetters.RenderAt | actions/cover-letter.js:7-31 | segment k is rendered between what precedes and what follows it |
| CoverLetters.TemplateHoles | actions/cover-letter.js:10-30 | the company fills segments 3, 11 and 13 only, the job title segment 1 only, the name segment 15 only |
| CoverLetters.FallbackNamesCompany | actions/cover-letter.js:21-27 | the letter shows the company name at each of its three holes |
| CoverLetters.FallbackLetter | actions/cover-letter.js:7-31 | the letter is the template rendered in order, and every hole shows its field's value between the text before it and the text after it |
| CoverLetters.NewLetter | actions/cover-letter.js:71-80 | the row copies description, company and title, has status "completed" and the user's id |
| CoverLetters.LetterContent | actions/cover-letter.js:67-110 | the trimmed reply when the model replied and its create succeeded; the fallback letter on every other path |
| CoverLetters.LettersOf | actions/cover-letter.js:123-130 | only the user's letters, and all of them |
| CoverLetters.Find | actions/cover-letter.js:143-148 | a position whose row has both the id and the user's id; none iff no row has both |
| CoverLetters.FindIsOwnerScoped | actions/cover-letter.js:143-148 | another user's letter is never found |
| CoverLetters.RemoveAt | actions/cover-letter.js:161-166 | removing one row keeps every other row and the key invariant, and leaves no row with that id |
| CoverLetters.CoverLetterStore.Create | actions/cover-letter.js:71-80 | one create appends one row with a fresh id |
| CoverLetters.CoverLetterStore.GenerateCoverLetter | actions/cover-letter.js:33-111 | the caller errors write nothing; a failing last create writes nothing; otherwise exactly one row with the content above |
| CoverLetters.CoverLetterStore.GetCoverLetters | actions/cover-letter.js:113-131 | the caller errors, or exactly `LettersOf` the caller: each of the caller's letters once, in creation order, and no one else's |
| CoverLetters.CoverLetterStore.GetCoverLetter | actions/cover-letter.js:133-149 | the caller errors; a letter with this id owned by the caller; null iff there is none |
| CoverLetters.CoverLetterStore.DeleteCoverLetter | actions/cover-letter.js:151-167 | the caller errors and a missing match change nothing; otherwise exactly the matching row is removed and returned |

## Left out

- Identity and the database are modelled, not called. `auth()` is an optional caller id, and the user table is a map. Each table is a sequence of rows. The user table is keyed by the identity provider's id, so `clerkUserId` is the map key rather than a field of `User`.
- A database failure is not modelled for the user lookup that every action runs, nor for the cover-letter reads (`findMany`, `findUnique`) and the delete. In the code such an error propagates; the model treats these queries as always answering. The one exception is a delete whose filter matches no row, which `RecordNotFound` models.
- Row order by `createdAt`. Rows are kept in creation order, so `getAssessments` (ascending) is that order. `getCoverLetters` returns the caller's letters in creation order, not newest first: the order depends on database timestamps.
- Ids are natural numbers handed out by the store. The database's own ids and `createdAt` values are not modelled.
- Prompt wording, the model client and its output are left out. The reply is opaque text, and `JSON.parse` is a parameter. Nothing is claimed about the shape of the parsed JSON. That includes a parsed `industry` key that would override the row's industry in the spread, and a `questions` field that would be missing.
- `Math.random`: only `j` in `[0, i]` is modelled, not uniformity.
- Logging with `console.error`, `async`/`await`, and the "use server" directive.
- Text.ToLower: only ASCII letters are lower-cased, because the Unicode case tables of `toLowerCase` are not modelled.
- Strings are sequences of code points. JavaScript's UTF-16 details are not modelled.
- Numbers are mathematical: JSON and salary numbers are `real`, and experience is an `int`. Floating-point rounding is not modelled.
- Only the `${n}` rendering of integer experience is modelled. A non-integer number would render differently.
- Form fields that are `undefined` (rendered as "undefined" in the template) are not modelled. `LetterRequest` fields are strings.
- The prompt-building code (`wrongQuestionsText`, the quiz and letter prompts) only feeds the model, so it is left out.
- Quiz.GenerateQuiz: the model's quiz is whatever `parse` returns. Nothing is proved about its length or its options, because the source does not check them.
- A user without an industry: `user.industryInsight` is then null, so `getIndustryInsights` creates a row with no industry on every call. Whether the database accepts such a row depends on its schema, which is not part of this model.
- Concurrent requests are not modelled, so neither is a racing duplicate insert of an insight row.
