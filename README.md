# Hyakunin Isshu quiz: question construction and session state

A model of the core of a browser quiz over the hundred classical Japanese
poems of the Hyakunin Isshu. The quiz draws a target poem and a pool of up to
ten poems drawn from the whole corpus, which may include the target, builds a
four-way multiple-choice question, and keeps a per-browser session with the
score counters, the question on screen and the page flags.

- `records.dfy` (module `Records`): the `Poem`, `Question` and `Score`
  records, the question kind (lower verse or author; the session's game mode
  takes the same two values), `Option` and `Result`.
- `sampling.dfy` (module `Sampling`): random draws as caller-supplied index
  lists. A sample is a list of distinct positions; a permutation is a sample
  that covers every position. `SelectMultiset` proves that selecting distinct
  positions yields a sub-multiset of the data, and that selecting every
  position yields exactly its elements.
- `poem_data.dfy` (module `PoemData`): the poem store's two accessors. The
  corpus is an in-memory `seq<Poem>`.
- `questions.dfy` (module `Questions`): the question generator. `ScanPool`
  and `PadChoices` are the scan loop and the padding loop, and `BuildChoices`
  runs both. `GenerateLowerVerseQuestion` and `GenerateAuthorQuestion` are the
  two question kinds. Each method is proved against the functions
  `Distractors`, `Padding`, `Unshuffled`, `MakeQuestion` and `QuestionFor`.
  The lemmas state the properties of those functions.
- `session.dfy` (module `Session`): the session as a class
  `SessionState`. Its fields `score`, `totalQuestions`, `showResult`,
  `questionData`, `userAnswer`, `isCorrect`, `generateNextQuestion`,
  `gameMode` and `initialized` mirror the keys of the same names (in
  snake_case) that the page stores in its session state.
  Each page handler is a method with a `modifies this` frame. Its `ensures`
  gives the whole new state as an update of the old `View()`. `Valid()` is
  the session invariant, and every transition preserves it. The invariant
  says:
  - `score <= totalQuestions`;
  - a pending generation has no question on screen;
  - the result view always has its question, a recorded choice taken from
    that question's choices, and the verdict of comparing the two.

A click on a button the page does not display in the current state leaves
the session unchanged. Each handler method checks the condition under which
the page shows its button.

Behaviour of the code a reader might not expect:
- The code does not deduplicate distractors against each other, and it
  does not compare placeholders with the correct answer. The four choices
  are therefore not always pairwise distinct. `DuplicateDistractors` shows
  two pool poems by the same author producing a repeated choice.
  `AnswerOccursOnce` proves the correct answer occurs once only on the
  condition that no placeholder spells it.
- After a failed automatic generation, the code clears the pending flag.
  The session is not left entirely unchanged.
- Reset leaves `user_answer`, `is_correct` and the pending flag as they
  are.
- The mode can be changed in any state, not only when no question is on
  screen.
- An empty corpus does not stop the game from starting. Each generation
  fails instead, and `RandomPoem` returns `Err(NoPoemData)`.

## Model

| member | source | states |
|---|---|---|
| Sampling.SelectMultiset | app.py:81 | taking distinct positions of the data yields a sub-multiset of it; taking every position yields exactly its multiset |
| PoemData.RandomPoem | app.py:68-74 | fails exactly when the corpus is empty; otherwise returns the corpus poem at the drawn position |
| PoemData.RandomPoems | app.py:76-82 | empty on an empty corpus; otherwise min(count, corpus size) poems, each the corpus poem at its sampled position, never taking a poem more often than the corpus holds it, and exactly the corpus's poems when count covers the corpus |
| Questions.Prompt | app.py:113 | the prompt begins with the upper verse; for a lower-verse question it is nothing more, for an author question a newline and the lower verse follow (app.py:138) |
| Questions.Placeholder | app.py:107 | a placeholder is the label of its question kind ("選択肢", or "作者" for author questions as app.py:134), a space and the decimal digit of the list length |
| Questions.Qualifies | app.py:100 | a pool poem that passes the filter (another id and another answer field, as app.py:127 for authors) is never the target poem itself |
| Questions.Padding | app.py:106-107 | the padding fills the list up to 4 entries, and the entry for position k is the placeholder numbered k |
| Questions.Unshuffled | app.py:98-107 | the list before the shuffle has 4 entries and starts with the correct answer |
| Questions.QuestionFor | app.py:92-146 | generation fails exactly on an empty corpus; otherwise the question is about the drawn poem, of the requested kind, with that kind's prompt and answer field, and 4 choices that are a reordering of the list before the shuffle |
| Questions.Distractors | app.py:99-103 | the distractors are a prefix of the qualifying answers in pool order, of length min(3, number of qualifying answers) |
| Questions.UnshuffledShape | app.py:98-107 | before the shuffle the list has 4 entries: the correct answer, the distractors, then at each remaining position k the placeholder numbered k |
| Questions.Shuffle | app.py:109 | shuffling keeps the length and the multiset of choices |
| Questions.MakeQuestion | app.py:109-117 | a built question has 4 choices, the same multiset as the unshuffled list, and a correct answer that is the target's answer field and occurs among the choices |
| Questions.ScanPool | app.py:98-103 | the scan loop yields the correct answer followed by exactly the distractors |
| Questions.PadChoices | app.py:106-107 | the padding loop appends the placeholders numbered by the current length up to position 3 |
| Questions.BuildChoices | app.py:98-107 | the scan and padding loops together yield the unshuffled list: 4 entries headed by the correct answer |
| Questions.GenerateLowerVerseQuestion | app.py:92-117 | fails exactly on an empty corpus; otherwise the question about the drawn poem, prompt its upper verse, answer its lower verse, kind lower verse, 4 choices containing the answer |
| Questions.GenerateAuthorQuestion | app.py:119-146 | fails exactly on an empty corpus; otherwise the question about the drawn poem, prompt both verses joined by a newline, answer its author, kind author, 4 choices containing the answer |
| Questions.QualifyingPrefix | app.py:99-103 | the qualifying answers of a pool prefix are a prefix of those of the whole pool, so stopping early keeps pool order |
| Questions.QualifyingMembers | app.py:99-101 | a string is a qualifying answer iff some pool poem with another id and another answer carries it |
| Questions.DistractorsQualify | app.py:100-101 | every distractor is the answer of a pool poem with another id and another answer, so no distractor equals the correct answer |
| Questions.PlaceholdersDistinct | app.py:107 | placeholders with different numbers differ |
| Questions.AnswerOccursOnce | app.py:98-109 | when no placeholder spells the correct answer, it occurs exactly once in the list, before and after the shuffle |
| Questions.NoQualifyingPoem | app.py:106-107 | when no pool poem qualifies, the list is the answer followed by the placeholders numbered 1, 2, 3 |
| Questions.SinglePoemCorpus | app.py:94-109 | with a one-poem corpus generation succeeds and the choices are the answer and the three placeholders |
| Questions.SinglePoemCorpusDistinct | app.py:106-109 | with a one-poem corpus, and no placeholder spelling the answer, the four choices are pairwise different |
| Questions.AllPlaceholdersDistinct | app.py:106-107 | the answer and the three placeholders are pairwise different unless a placeholder spells the answer |
| Questions.ShuffleKeepsDistinct | app.py:109 | shuffling keeps pairwise different entries pairwise different |
| Questions.DuplicateDistractors | app.py:126-128 | two pool poems by the same author give that author twice among the choices |
| Session.SessionState.constructor | app.py:151 | a new session holds nothing yet and satisfies the invariant |
| Session.SessionState.Initialize | app.py:149-160 | the first call stores the defaults (lower-verse mode, zero counters, no question, no answer, no pending generation); later calls change nothing |
| Session.SessionState.SelectMode | app.py:179-183 | choosing another mode sets it and drops the question and the result view; choosing the current mode changes nothing |
| Session.SessionState.Generate | app.py:195-198 | generates a question of the session's current mode |
| Session.SessionState.GeneratePending | app.py:193-206 | with a generation pending and no result shown: on success stores the question, hides the result and clears the flag; on failure only clears the flag, keeping the question; otherwise nothing changes |
| Session.SessionState.NewQuestion | app.py:209-220 | with no result shown and no generation pending, a successful generation stores the question and hides the result; a failure or any other state changes nothing |
| Session.SessionState.SubmitAnswer | app.py:230-242 | on a shown question, records the clicked choice and its verdict, shows the result, adds exactly 1 to the answer count and 1 to the score iff the choice is the correct answer, keeping score <= total; otherwise nothing changes |
| Session.SessionState.Next | app.py:265-272 | from the result view, drops the question, answer and verdict, hides the result and sets the pending flag; otherwise nothing changes |
| Session.SessionState.Reset | app.py:316-321 | zeroes both counters, hides the result and drops the question; the mode and every other field stay |
| Session.SessionState.CurrentScore | app.py:277-281 | the displayed score pair is exactly (score, answer count), and correct <= total |
| Session.SessionState.Valid | app.py:230-242 | the session invariant: score <= answer count, and the result flag is only set while a question is stored, so the result view always has its question; this makes the `and st.session_state.question_data` test at app.py:188 redundant |
| Session.PlayOneRound | app.py:230-242 | a fresh session answering one lower-verse question counts one answer, and one correct answer exactly when the clicked choice is the drawn poem's lower verse |

## Left out

- Loading the corpus from the JSON file, the logging, and the error output of
  a failed load (app.py:53-66): this is I/O. The model starts from an
  in-memory `seq<Poem>`, and an unreadable file acts like an empty corpus.
- The randomness of `random.choice`, `random.sample` and `random.shuffle`:
  these become inputs. `pick` is a position, `sample` a list of distinct
  positions of length min(count, corpus size), and `perm` a permutation of
  the four choice positions. Their `requires` state what the random
  functions promise.
- All page rendering: titles, text, the metric widget, the poem details of
  the result view, layout and `st.rerun`. The buttons become the session's
  methods.
- `Score.percentage` and the percentage display (app.py:44-47, app.py:278):
  these are floating point and are not modelled. `CurrentScore` gives the
  exact integer pair that app.py:281 displays, together with
  `correct <= total`.
- `GameManager.score` (app.py:90): it is created and never updated.
- Exception and error message texts: a failed generation is `Err(NoPoemData)`.
- Malformed corpus records: the source keeps the corpus as dictionaries and
  turns a record into a poem only when it is drawn (app.py:74, app.py:82).
  A record with a missing or extra key then raises `TypeError`, and the
  handlers report that as a failed generation (app.py:204, app.py:219). The
  model's corpus is a `seq<Poem>`, so every record is well formed, and an
  empty corpus is the only failure it covers.
- The check of `main` that the data store and game manager were built
  (app.py:303-308): it only guards the I/O above.
- Placeholder: defined only for single-digit numbers. Padding numbers the
  placeholders by the list length, which is 1 to 3 while padding runs, so
  every placeholder the code creates is covered.
