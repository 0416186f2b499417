# Quiz engine: answer normalisation and the play session

A Dafny model of the core of a single-user quiz trainer. It has two parts.

- **Engine** (`engine.dfy`, from `app/engine.py`) covers answer normalisation and evaluation. `normalize` puts a raw answer into canonical form:
  - it upper-cases the text;
  - it deletes the blank characters space, tab and newline, and the brackets `( ) [ ]`;
  - it writes every multiplication sign (`*`, `·`, `×`) as `X`.

  `evaluate_answer` looks a question up in the store. It judges the answer correct exactly when the canonical forms of the stored answer and the given answer are equal. It always reports the stored answer as it was written.

  The model has three layers:
  - `Normalize` specifies the source's staged pipeline.
  - `NormalizeAnswer` runs that pipeline step by step, with the deletion loop of the source.
  - `Canon` is an independent, character-by-character definition of the same canonical form. The lemma `NormalizeIsCanon` proves that the pipeline and `Canon` agree. Shape, idempotence, deletion and the unification of multiplication signs all follow from that lemma.

- **Play** (`play.dfy`, from `app/main.py`) covers the process-wide `SESSION` dictionary and the three handlers that drive it. `PlaySession` is a class whose fields are the dictionary's keys. The `started` field is false while the dictionary is still empty.
  - `PlayStart` (`play_start`) replaces the session wholesale, or leaves it untouched when the sample is empty.
  - `PlayAnswer` (`play_answer`) runs one submission through these steps: check the deadline, log the answer, score it in training mode, advance, then summarise or show the next question.
  - `PlayTimeout` (`play_timeout`) reports the summary. In exam mode it re-counts the whole log.

  These properties are preserved:
  - `Valid` says there is one log entry per accepted submission, that the score never exceeds the attempts, and that exam mode keeps the accumulator at 0.
  - `ScoredAgainst(store)` says the training accumulator equals an exam-style re-count (`CountCorrect`) of the same log.

  Together they let `PlayTimeout` promise that the reported score is the re-count of the log in both modes.

The clock is an integer `now` passed to each handler. The record store is a map from question id to question. The random sample query is a function parameter `fetch(subcategoryId, limit)`, which returns the sampled ids in the order the query returns them.

Two behaviours of the code that the model keeps deliberately:
- The summary always carries `timeout = True`, on the exhaustion path too (app/main.py:285).
- `play_answer` does not refuse a submission after the queue is used up. Such a submission is logged, `current` grows past `len(queue)`, and the summary is shown again. So `current <= len(queue)` holds only as long as submissions start from a position inside the queue, and `PlayAnswer` states exactly that.

## Model

| member | source | states |
|---|---|---|
| Engine.NormalizeAnswer | app/engine.py:8-23 | computes the canonical form: "" for "", otherwise upper-case, then one deletion pass per blank/bracket character in order, then the three replacements by X |
| Engine.Canon | app/engine.py:12-21 | the per-character reference form is never longer than its input: each character contributes at most one |
| Engine.CanonShape | app/engine.py:12-21 | the reference form contains no blank, bracket, multiplication sign or ASCII lower-case letter (a-z) |
| Engine.NormalizeIsCanon | app/engine.py:8-23 | the staged upper/delete/replace pipeline equals the character-by-character canonical form, for every string |
| Engine.NormalizeShape | app/engine.py:12-21 | the result is no longer than the input and holds no space, tab, newline, bracket, `*`, `·`, `×` or ASCII lower-case letter (a-z) |
| Engine.NormalizeIdempotent | app/engine.py:8-23 | normalising a normalised answer changes nothing |
| Engine.NormalizeDeletes | app/engine.py:14-15 | inserting a blank or bracket anywhere does not change the result: these are deleted, not replaced |
| Engine.NormalizeTimes | app/engine.py:12-21 | `*`, `·`, `×`, `x` and `X` at any position give the same result: each becomes exactly one X |
| Engine.NormalizeEmpty | app/engine.py:9-10 | the empty answer normalises to "" |
| Engine.CanonStarExample | app/engine.py:12-21 | the reference form of "2 * 3" is "2X3": blanks vanish and the star becomes X |
| Engine.CanonProductExamples | app/engine.py:12-21 | the reference forms of "2×3", "2·3" and "2x3" are all "2X3" |
| Engine.CanonBracketExample | app/engine.py:12-15 | the reference form of "(a+b)" is "A+B" |
| Engine.CanonNumberExamples | app/engine.py:14-15 | the reference forms of "42", " 42 " and "4 2" are "42", and that of "43" is "43" |
| Engine.NormalizeExamples | app/engine.py:8-23 | "2 * 3", "2×3", "2·3" and "2x3" all normalise to "2X3", and "(a+b)" normalises to "A+B" |
| Engine.NormalizeNumberExamples | app/engine.py:8-23 | "42", " 42 " and "4 2" normalise to "42"; "43" stays "43" |
| Engine.GetQuestion | app/crud.py:162-171 | a question is found exactly when its id is in the store, and it is the stored one |
| Engine.EvaluateAnswer | app/engine.py:30-51 | `expected` is missing exactly for an unknown id, which is never correct; for a known id `expected` is the un-normalised stored answer and `correct` holds iff both canonical forms are equal |
| Engine.EvaluateUpToFormatting | app/engine.py:39-42 | two answers with the same canonical form get the same verdict |
| Engine.EvaluateAcceptsCanonical | app/engine.py:39-46 | the canonical form of the stored answer is itself judged correct |
| Engine.EvaluateExamples | app/engine.py:30-51 | with stored answer "42": "42", " 42 " and "4 2" are correct, "43" is wrong with expected "42", an unknown id gives no expected answer |
| Play.CountCorrect | app/main.py:269-274 | the exam re-count of a log never exceeds the number of logged answers |
| Play.CountCorrectAppend | app/main.py:222-232 | logging one more answer raises the re-count by one exactly when the evaluator accepts that answer |
| Play.CountCorrectAll | app/main.py:269-276 | the re-count equals the number of attempts iff every logged answer is correct |
| Play.CountCorrectUpToFormatting | app/main.py:270-274 | logs that agree on question ids and canonical answers get the same re-count |
| Play.PlaySession.constructor | app/main.py:32 | the process starts with an empty session: no answers, position 0, score 0 |
| Play.PlaySession.PlayStart | app/main.py:158-201 | queries with no limit when every question is wanted. An empty sample redirects home and leaves the session unchanged. Otherwise the session becomes the sample's ids in order, position 0, score 0, empty log, full time budget of minutes*60, exam mode iff the flag is set, and the page shows the first question, progress 1 of len(queue) and the full budget |
| Play.PlaySession.PlayTimeout | app/main.py:265-289 | changes nothing. It reports attempts = position (0 for an empty session), the exam re-count or the training accumulator (0 when empty) and timeout = true. For a consistent session the score is the re-count of the log in both modes and is at most the attempts |
| Play.PlaySession.PlayAnswer | app/main.py:207-259 | Past the deadline: a summary, with the log, position and score unchanged. Otherwise: one entry (id, raw answer) is appended, the position advances by exactly 1, and in training the score rises by 1 iff the evaluator accepts (never in exam). It then summarises when the queue is used up, or else shows `queue[current]`, progress current+1 of len(queue), the remaining time computed on entry, and the verdict only in training. It keeps `Valid` and the agreement of accumulator and re-count |
| Play.TrainingScenario | app/main.py:222-259 | for any store and any two stored questions, training with one answer whose canonical form matches and one whose does not first shows the second question with the verdict "correct", progress 2 of 2 and the remaining time, then ends in the summary (2 attempts, 1 correct) |
| Play.ExamScenario | app/main.py:222-276 | the same answers in exam mode: the page after the first answer shows the second question with no verdict, and the re-count of the log gives the same summary (2, 1) |
| Play.TimeoutScenario | app/main.py:214-219 | with a zero-minute budget, a submission at the start time is not logged and the summary is (0 attempts, 0 correct) |

## Left out

- Upper-casing is modelled over the ASCII letters `a`-`z` only. Python's `str.upper()` maps other letters too, and can lengthen a string (`ß` becomes `SS`). The length bound of `NormalizeShape` is therefore a property of the ASCII model. So is its claim about lower-case letters: only `a`-`z` are excluded, and a letter such as `é` passes through unchanged (in Python some letters, such as `ĸ`, also stay lower-case).
- `normalize(None)` is not modelled. No caller passes `None`: the stored answer column is `NOT NULL` and `user_answer` is a required form field. The empty-string case is modelled.
- The record store (app/crud.py, app/models.py, app/db.py) is left out. `get_question` is a map lookup. `get_random_questions` is the `fetch` parameter, so its random order, its `LIMIT` semantics and the distinctness of the ids it returns are not modelled.
- Wall-clock time is left out. `time.time()` is replaced by an integer `now`, so the `int(...)` truncation of a float remaining time does not arise.
- Rendering of templates and presentation-only context keys (`request`, `"training": True/False`) are left out.
- HTTP form decoding is left out. The optional integer fields `all_questions` and `exam` arrive as booleans (absent or 0 is false).
- `play_answer` on a never-started session is not modelled. It raises `KeyError` in the source, so `PlayAnswer` requires `started`.
- Play.PlaySession.PlayAnswer: keeps the training accumulator equal to the re-count only against the same store throughout. An administrator who edits a question's answer mid-session can make the two differ.
- Concurrent requests against the unsynchronised `SESSION` are not modelled; the model is single-threaded.
- The admin and index routes (app/main.py:46-153) are not part of this model. They only pass through to the store and redirect.
