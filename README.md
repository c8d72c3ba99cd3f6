# Buzzer game master: a verified model

This project models the game-master screen of a buzzer quiz: the React
component `Buzzer` in `src/components/buzzer.tsx`. The moderator opens a
session ("partie"), picks a theme and a question, and starts the question,
which arms a countdown. The moderator then judges the player who buzzed
first. A wrong answer moves the judging cursor down the buzz queue, and a
correct one records the answer and resets the round. Closing the session
submits every player's score, stores the winner's score on the session,
refreshes the history and clears the game.

Layout:

- `types.dfy` (module `Types`): the entities (buzzer, theme, question,
  buzz result, session, history entry, user score), the shape of a network
  reply `Http<T>`, and the effects the handlers produce. A reply is either
  `Response(status, body)` or `NetworkError`. `body` is None when
  `res.json()` would reject. An effect is a request issued (`Call`) or a
  socket message emitted (`Emit`).
- `scoring.dfy` (module `Scoring`): the pure lookups. These are
  `Array.prototype.find` (`Find`), `getSelectedQuestion`, the `gagnant`
  lookup, and the winner `reduce` with its first-maximum tie-break.
- `handlers.dfy` (module `Handlers`): the component's state as one value
  (`ScreenState`). Each handler is a function from the state before to the
  state after, plus the effects in order (`Step`). Every handler thus
  appears twice: as this function, which the lemmas reason about, and as
  a method of `GameMaster`, which is proved to follow it.
- `game_master.dfy` (module `Component`): class `GameMaster`. Each state
  variable of the component is a field, and the requests and messages go
  into a ghost `trace`. Every handler is a method that updates the fields
  one after another, as the setters do. Each method's contract says the
  new fields equal the transition function applied to the old ones, and
  that the trace is extended by exactly that function's effects. The
  score-submission loop is a `while` loop over the score list.
- `properties.dfy` (module `Properties`): what the handlers guarantee about
  resets, the judging cursor, the countdown and the close sequence.

Modelling choices:

- Every awaited reply is an input of the handler. A thrown request is
  `NetworkError`, a non-2xx status is a `Response` that is not ok, and an
  unparsable body is `body == None`. The outcome of each score submission
  comes from a function `submitReplies(i)`. The handler never reads it
  except to log it.
- A handler runs from start to finish with no other event in between. The
  one exception is the theme selection, which is split at its await into
  `HandleThemeSelect` and `OnQuestionsArrived`. That split shows that a
  late question list is applied even after another theme has been chosen.
- `selectedThemeId` is `""` in the component when no theme is chosen. The
  model writes that as None. JavaScript truthiness of ids is `Truthy`:
  null and 0 are falsy.
- The component's render shows some controls only under a condition. Such
  a condition becomes the handler's precondition:
  - the new-game button needs a non-empty registry and no open session
    (line 393);
  - the theme list needs a session and loaded themes (lines 399, 404);
  - the question list needs a truthy theme id and a non-empty list
    (lines 417, 420);
  - the judging buttons need a session and a buzz result (lines 399, 453).
- The countdown is a discrete `Tick`. It is one run of the effect at
  lines 103-123, or one firing of its one-second interval.
- The session name `Partie <Date.now()>` is the `name` parameter of
  `HandleNewGame`.
- `handleEndGame` ends in a page reload. The model writes that as a return
  to the state the component mounts with.

The model follows the code as written, where it is specific:

- An empty registry push is ignored.
- A stale question list is applied.
- `currentIndex` is not reset when a new buzz result arrives. Lemma
  `StaleCursorSkipsArrival` shows that a fresh queue can then end before
  its second arrival is judged.
- A 204 score reply makes the close emit `partie end` with the question id
  and clear the game. It skips the submissions, the update and the history
  refresh.
- An ok score reply holding an empty list makes `winner` undefined. The
  handler then throws at line 277, after an empty submission loop, so no
  state changes.
- A refused session update returns, but only when its error body can be
  read. If reading that body throws, or the request itself throws, the
  error is caught and the close goes on.
- Neither reset path of the close clears `currentIndex` or `themes`.

## Model

| member | source | states |
|---|---|---|
| Scoring.Find | src/components/buzzer.tsx:183-185 | `find` returns None exactly when no element satisfies the predicate; otherwise it returns the element at the first index that does |
| Scoring.GetSelectedQuestion | src/components/buzzer.tsx:183-185 | the result is a listed question whose id is the selected id (or -1 when none is selected), the first such in list order; None exactly when no question has that id |
| Scoring.Gagnant | src/components/buzzer.tsx:462-464 | the result is the first registered buzzer whose id equals the id being judged; None exactly when no buzzer has it |
| Scoring.Reduce | src/components/buzzer.tsx:273-275 | the fold ends on the initial accumulator or on an element of the list, and its score is at least the accumulator's and at least every entry's |
| Scoring.Winner | src/components/buzzer.tsx:273-275 | the winner is undefined exactly for an empty list; otherwise it is an entry whose score is at least every entry's score |
| Scoring.ReduceFirstMaximum | src/components/buzzer.tsx:273-275 | because the comparison is strict, the fold keeps its accumulator unless some entry beats it, and otherwise ends on the first entry holding the maximum |
| Scoring.WinnerIsFirstMaximum | src/components/buzzer.tsx:273-275 | the winner of a non-empty list is its first maximum: no entry scores more, and every earlier entry scores strictly less |
| Scoring.WinnerTieGoesToFirst | src/components/buzzer.tsx:273-275 | for scores 50, 80, 80 the winner is the second entry |
| Component.GameMaster.constructor | src/components/buzzer.tsx:46-57 | the fields start at the `useState` defaults: empty lists, no session, no theme, question, countdown or buzz result, cursor 0, and an empty trace; a mount is this constructor followed by `FetchHistoriqueParties`, which the mount effect calls at line 63 |
| Component.GameMaster.OnBuzzerUpdate | src/components/buzzer.tsx:72-80 | the fields become the registry-push transition of the old fields; nothing is sent |
| Component.GameMaster.OnBuzzResult | src/components/buzzer.tsx:83-86 | the payload is stored as the buzz result; nothing else changes |
| Component.GameMaster.FetchHistoriqueParties | src/components/buzzer.tsx:126-135 | the history request is sent; the history is replaced only by a delivered list |
| Component.GameMaster.HandleNewGame | src/components/buzzer.tsx:146-181 | the fields and the trace follow the new-game transition: create with score 0, store the session, fetch and store the themes, send `game start`, stopping at the first failed request |
| Component.GameMaster.HandleThemeSelect | src/components/buzzer.tsx:187-194 | the theme is recorded, the question and the question list are cleared, and the question fetch for that theme is sent |
| Component.GameMaster.OnQuestionsArrived | src/components/buzzer.tsx:195-201 | a delivered question list replaces `questions`; any other reply leaves the state as it is |
| Component.GameMaster.HandleQuestionSelect | src/components/buzzer.tsx:327-329 | only the selected question id changes |
| Component.GameMaster.HandleStartGame | src/components/buzzer.tsx:331-350 | the fields and the trace follow the start transition: with a session, a truthy id and the question found, `question start` is sent and the countdown set to the question's timer |
| Component.GameMaster.Tick | src/components/buzzer.tsx:103-123 | the fields and the trace follow one countdown step: decrement, or at zero or below send `timer ended` and stop |
| Component.GameMaster.HandleBonneReponse | src/components/buzzer.tsx:466-507 | the fields and the trace follow the correct-answer transition, with the gagnant computed from the registry and the judged id as the render does |
| Component.GameMaster.ResetRoundFields | src/components/buzzer.tsx:497-503 | a won round clears theme, questions, question, countdown and buzz result, sets the cursor to 0, and keeps everything else |
| Component.GameMaster.HandleMauvaiseReponse | src/components/buzzer.tsx:510-543 | the fields and the trace follow the wrong-answer transition: advance the cursor to the next arrival, or clear the round when the queue is exhausted |
| Component.GameMaster.ClearRoundFields | src/components/buzzer.tsx:528-533 | an exhausted queue clears question, questions, buzz result and theme, sets the cursor to 0, and keeps everything else, countdown included |
| Component.GameMaster.ClearGameFields | src/components/buzzer.tsx:317-322 | the close clears session, theme, questions, question, countdown and buzz result, and keeps registry, history, themes and cursor |
| Component.GameMaster.SubmitScores | src/components/buzzer.tsx:240-264 | whatever each submission's outcome, the loop sends exactly the list of submissions, one per entry in order, and changes no state variable |
| Component.GameMaster.HandleEndPartie | src/components/buzzer.tsx:204-237 | the fields and the trace follow the close transition from the score fetch on (no session, 204, failed fetch, delivered list) |
| Component.GameMaster.CloseWithScores | src/components/buzzer.tsx:240-322 | the fields and the trace follow the close once the scores are in: submissions, winner, session update, then the final steps unless the update is refused |
| Component.GameMaster.FinishClose | src/components/buzzer.tsx:310-322 | the history is refreshed, `partie end` is sent without a question id, and the game is cleared |
| Component.GameMaster.HandleEndGame | src/components/buzzer.tsx:137-142 | `game end` is sent and the state returns to the mount state |
| Properties.RegistryPushReplacesOrIgnores | src/components/buzzer.tsx:72-80 | a non-empty push replaces both registries and nothing else; an empty push changes nothing |
| Properties.BuzzResultPushKeepsCursor | src/components/buzzer.tsx:83-86 | a buzz-result push stores the payload and leaves the cursor and every other field unchanged |
| Properties.NewGameOpensSession | src/components/buzzer.tsx:146-173 | with both replies delivered, the session and the themes are stored, and create, theme fetch and `game start` are sent in that order |
| Properties.NewGameFailures | src/components/buzzer.tsx:157-163 | a failed create changes nothing; a failed theme fetch keeps the created session and sends no `game start` |
| Properties.ThemeSelectClearsQuestions | src/components/buzzer.tsx:187-194 | selecting a theme records it and clears the question and the list before the fetch; nothing else changes |
| Properties.QuestionsOnlyFromDeliveredList | src/components/buzzer.tsx:194-201 | after a theme selection, the question list is the delivered list, and stays empty on any failure |
| Properties.StaleQuestionListApplied | src/components/buzzer.tsx:187-202 | a list arriving after a second theme selection is still applied, under the second theme |
| Properties.QuestionSelectRecordsId | src/components/buzzer.tsx:327-329 | selecting a question changes only the selected id and sends nothing |
| Properties.StartGameArmsCountdown | src/components/buzzer.tsx:331-350 | with a session, a truthy id and the question found, `question start` carries the session id, question id, label and timer, and the countdown is set to that timer |
| Properties.StartGameGuarded | src/components/buzzer.tsx:332-335 | without a session, a truthy id or a matching question, starting does nothing |
| Properties.NoQuestionsNoStart | src/components/buzzer.tsx:334-335 | with an empty question list no question can start |
| Properties.StoppedCountdownIsSilent | src/components/buzzer.tsx:104 | any number of steps of a stopped countdown change nothing and send nothing |
| Properties.CountdownDecrements | src/components/buzzer.tsx:116-118 | from `n`, up to `n` steps decrement the count by one each and send nothing |
| Properties.CountdownEndsOnce | src/components/buzzer.tsx:103-123 | running the countdown past its end sends exactly one `timer ended` with the session and question at that moment, then stops; nothing else changes |
| Properties.CorrectAnswerResetsRound | src/components/buzzer.tsx:466-503 | with the guards met and a delivered reply, the answer is recorded for the gagnant, `result question` names them, the round is reset and the session kept |
| Properties.CorrectAnswerFailureKeepsState | src/components/buzzer.tsx:467-489 | with a guard unmet, a refused or thrown request, or an unreadable body, no state changes |
| Properties.WrongAnswerAdvances | src/components/buzzer.tsx:510-543 | with a queue entry left, `question result` with null winner is sent, the judged id becomes that entry's buzzer, the cursor goes up by one, and the queue and everything else are kept |
| Properties.WrongAnswerExhaustsQueue | src/components/buzzer.tsx:524-534 | on the last arrival the round is cleared and the cursor reset, while the session and the countdown are kept |
| Properties.WrongAnswerGuarded | src/components/buzzer.tsx:511-515 | without a queue in the payload or without the question found, a wrong answer does nothing |
| Properties.WrongAnswerKeepsCursorOnQueue | src/components/buzzer.tsx:524-542 | while the cursor points at the judged player, a wrong answer keeps it so, or ends the round |
| Properties.JudgingWalksQueue | src/components/buzzer.tsx:510-543 | `k` wrong answers with arrivals left move the cursor `k` places and send `k` null-winner results, changing nothing else |
| Properties.JudgingExhaustsQueue | src/components/buzzer.tsx:510-543 | from cursor `i` in a queue of `n`, the round is cleared after exactly `n - i` wrong answers, each sending a null-winner result |
| Properties.WrongAnswersSplit | src/components/buzzer.tsx:510-543 | `k + 1` wrong answers in a row are `k` of them followed by one more |
| Properties.StaleCursorSkipsArrival | src/components/buzzer.tsx:83-86 | with the cursor left at 1, a fresh two-entry queue ends on the first wrong answer, so its second arrival is never judged |
| Properties.SubmitCallsInOrder | src/components/buzzer.tsx:240-264 | the submissions are exactly one per entry, the i-th carrying the i-th entry's user id, the session id and the score |
| Properties.EndPartieWithoutGame | src/components/buzzer.tsx:205 | closing with no open session does nothing |
| Properties.EndPartieNoScores | src/components/buzzer.tsx:214-230 | a 204 reply sends `partie end` with the question id and clears the game, with no submission and no update; cursor and themes are kept |
| Properties.EndPartieFetchFailure | src/components/buzzer.tsx:232-237 | a refused, thrown or unreadable score fetch returns with the state unchanged |
| Properties.EndPartieEmptyListThrows | src/components/buzzer.tsx:273-277 | an ok reply (any 2xx status but 204) holding an empty list stops at the undefined winner: the state is unchanged and only the fetch was sent |
| Properties.EndPartieSubmitsThenUpdates | src/components/buzzer.tsx:240-295 | with a delivered non-empty list, the effects begin with exactly the fetch, one submission per entry in order, and the update carrying the winner's score |
| Properties.EndPartieUpdateRefused | src/components/buzzer.tsx:297-301 | a refused update whose error body is read aborts right after it: the state is unchanged, the session stays open, and the effects are exactly fetch, submissions and update, with no history fetch and no `partie end` |
| Properties.EndPartieCloses | src/components/buzzer.tsx:285-322 | a successful update, a thrown update or an unreadable refusal gives exactly the effects fetch, submissions, update, history fetch, `partie end`; the history is refreshed and the game cleared, session included |
| Properties.RefreshHistoryReplaces | src/components/buzzer.tsx:126-135 | the history is replaced only by a delivered list; nothing else changes |
| Properties.EndGameStartsOver | src/components/buzzer.tsx:137-142 | ending the game sends `game end` and starts over from the mount state |

## Left out

- JSX rendering and styling are not modelled. Render conditions appear only as handler preconditions.
- `src/api/socket.ts` and `src/api/http.ts` are not part of this model. They wrap socket.io-client and `fetch`. A socket message is an `Emit` effect, and a reply is an input.
- The mount effect's `connect`, `disconnect` and `buzzed` handlers only log, so they are left out. So is the unsubscription on unmount.
- Real network I/O and JSON decoding are left out. A reply body is either the decoded value or absent.
- Interleaving of asynchronous handlers is not modelled, except that the theme selection is split at its await. Every other handler runs to completion on the state it started from.
- `setInterval` timing is wall-clock behaviour. The countdown is a sequence of discrete `Tick` steps.
- `console` output and `alert` have no effect on state and are left out.
- The body of a submission reply is only logged, so its content is not modelled.
- JavaScript's `number` is modelled as an unbounded `int`. The comparison `String(a) === String(b)` on ids is integer equality.
- The page reload after `game end` is modelled as a return to the mount state. The history fetch the remounted page makes is not shown.
