/**
 * The game-master screen's state as one value, and each event handler of
 * the screen as a function from the state before to the state after plus
 * the effects (requests, socket messages) the handler produces, in order.
 * Every awaited reply is an input: the handler runs to completion with no
 * other event in between, except for the theme selection, whose question
 * list may arrive late (ThemeSelect, then QuestionsArrived).
 */
module Handlers {
  import opened Types
  import opened Scoring

  /**
   * The component's state variables. `selectedThemeId` is the empty string
   * in the source when nothing is chosen, modelled as None.
   */
  datatype ScreenState = ScreenState(
    buzzers: seq<Buzzer>,
    gameBuzzers: seq<Buzzer>,
    historiqueParties: seq<PartieHistorique>,
    currentIndex: nat,
    currentGame: Option<Game>,
    themes: seq<Theme>,
    selectedThemeId: Option<int>,
    questions: seq<Question>,
    selectedQuestionId: Option<int>,
    remainingTime: Option<int>,
    buzzResult: Option<BuzzerResult>)

  /** The state after a handler and the effects it produced, in order. */
  datatype Step = Step(next: ScreenState, effects: seq<Effect>)

  /** The state when the screen mounts. */
  function Initial(): ScreenState {
    ScreenState([], [], [], 0, None, [], None, [], None, None, None)
  }

  /** JavaScript truthiness of a numeric id: null and 0 are falsy. */
  predicate Truthy(id: Option<int>) {
    id.Some? && id.value != 0
  }

  /** The question the moderator has selected, as `getSelectedQuestion` finds it. */
  function SelectedQuestion(s: ScreenState): Option<Question> {
    GetSelectedQuestion(s.questions, s.selectedQuestionId)
  }

  /** `currentGame?.id`. */
  function GameId(s: ScreenState): Option<int> {
    if s.currentGame.Some? then Some(s.currentGame.value.id) else None
  }

  /**
   * The fields the close sequence clears: session, theme, questions,
   * question, countdown and buzz result. `themes`, `currentIndex`, the
   * registry and the history are kept.
   */
  function ClearGame(s: ScreenState): ScreenState {
    s.(currentGame := None, selectedThemeId := None, questions := [],
       selectedQuestionId := None, remainingTime := None, buzzResult := None)
  }

  /**
   * The resets after a won round: theme, questions, question, countdown,
   * buzz result and cursor. The session stays open.
   */
  function ResetRound(s: ScreenState): ScreenState {
    s.(selectedThemeId := None, questions := [], selectedQuestionId := None,
       remainingTime := None, buzzResult := None, currentIndex := 0)
  }

  /**
   * The resets when the buzz queue is exhausted: question, questions, buzz
   * result, theme and cursor. The countdown is kept.
   */
  function ClearRound(s: ScreenState): ScreenState {
    s.(selectedQuestionId := None, questions := [], buzzResult := None,
       selectedThemeId := None, currentIndex := 0)
  }

  /** `buzzerUpdate`: a non-empty list replaces both registries; an empty one is ignored. */
  function BuzzerUpdate(s: ScreenState, pushed: seq<Buzzer>): Step {
    if |pushed| > 0 then Step(s.(buzzers := pushed, gameBuzzers := pushed), [])
    else Step(s, [])
  }

  /** `buzz result`: the payload is stored as it is; the cursor is not touched. */
  function BuzzResultPush(s: ScreenState, data: BuzzerResult): Step {
    Step(s.(buzzResult := Some(data)), [])
  }

  /** The new-game button is shown only with a registry and no open session. */
  predicate CanStartNewGame(s: ScreenState) {
    |s.buzzers| > 0 && s.currentGame.None?
  }

  /**
   * `handleNewGame`: create the session (score 0), store it, fetch the
   * themes, store them and announce `game start`. A failure of either
   * request stops the handler where it happens.
   */
  function NewGame(s: ScreenState, name: string, created: Http<Game>, themesReply: Http<seq<Theme>>): Step
    requires CanStartNewGame(s)
  {
    var sent := [Call(CreatePartie(name, 0))];
    if !created.Delivers() then Step(s, sent)
    else
      var withGame := s.(currentGame := Some(created.body.value));
      var asked := sent + [Call(FetchThemes)];
      if !themesReply.Delivers() then Step(withGame, asked)
      else Step(withGame.(themes := themesReply.body.value), asked + [Emit(GameStart(name))])
  }

  /** The theme list is shown only inside an open session with themes loaded. */
  predicate CanSelectTheme(s: ScreenState) {
    s.currentGame.Some? && |s.themes| > 0
  }

  /**
   * `handleThemeSelect` up to its await: record the theme, clear the
   * question and the question list, and request the theme's questions.
   */
  function ThemeSelect(s: ScreenState, themeId: int): Step
    requires CanSelectTheme(s)
  {
    Step(s.(selectedThemeId := Some(themeId), selectedQuestionId := None, questions := []),
         [Call(FetchQuestions(themeId))])
  }

  /**
   * The rest of `handleThemeSelect`: a delivered list replaces `questions`,
   * whichever theme is selected by then; anything else leaves it alone.
   */
  function QuestionsArrived(s: ScreenState, reply: Http<seq<Question>>): Step {
    if reply.Delivers() then Step(s.(questions := reply.body.value), []) else Step(s, [])
  }

  /** The question list is shown only for a chosen theme that has questions. */
  predicate CanSelectQuestion(s: ScreenState) {
    s.currentGame.Some? && Truthy(s.selectedThemeId) && |s.questions| > 0
  }

  /** `handleQuestionSelect`. */
  function QuestionSelect(s: ScreenState, questionId: int): Step
    requires CanSelectQuestion(s)
  {
    Step(s.(selectedQuestionId := Some(questionId)), [])
  }

  /**
   * `handleStartGame`: with an open session, a truthy question id and that
   * question found, announce `question start` and arm the countdown with
   * the question's timer; otherwise do nothing.
   */
  function StartGame(s: ScreenState): Step {
    if s.currentGame.None? || !Truthy(s.selectedQuestionId) then Step(s, [])
    else match SelectedQuestion(s)
      case None => Step(s, [])
      case Some(q) =>
        Step(s.(remainingTime := Some(q.timer)),
             [Emit(QuestionStart(s.currentGame.value.id, s.selectedQuestionId.value, q.labelText, q.timer))])
  }

  /**
   * One step of the countdown effect: a positive count goes down by one (the
   * interval fired); a count at or below zero sends `timer ended` once and
   * stops the countdown; a stopped countdown does nothing.
   */
  function Tick(s: ScreenState): Step {
    match s.remainingTime
    case None => Step(s, [])
    case Some(t) =>
      if t <= 0 then Step(s.(remainingTime := None), [Emit(TimerEnded(GameId(s), s.selectedQuestionId))])
      else Step(s.(remainingTime := Some(t - 1)), [])
  }

  /** The judging buttons are shown only with an open session and a buzz result. */
  predicate CanJudge(s: ScreenState) {
    s.currentGame.Some? && s.buzzResult.Some?
  }

  /** The buzzer being judged, looked up in the game registry. */
  function CurrentGagnant(s: ScreenState): Option<Buzzer>
    requires s.buzzResult.Some?
  {
    Gagnant(s.gameBuzzers, s.buzzResult.value.premierBuzzerId)
  }

  /**
   * `handleBonneReponse`: with a session, a truthy question and a known
   * gagnant, record the correct answer; on a delivered reply, when the
   * question is still found, announce `result question` and reset the round
   * (theme, questions, question, countdown, buzz result, cursor). A failed
   * reply, a thrown error or a body that is not JSON changes nothing.
   */
  function BonneReponse(s: ScreenState, reply: Http<()>): Step
    requires s.buzzResult.Some?
  {
    if s.currentGame.None? || !Truthy(s.selectedQuestionId) || CurrentGagnant(s).None? then Step(s, [])
    else
      var game := s.currentGame.value;
      var winner := CurrentGagnant(s).value;
      var sent := [Call(PostCorrectAnswer(game.id, s.selectedQuestionId.value, winner.userId))];
      if !reply.Delivers() then Step(s, sent)
      else match SelectedQuestion(s)
        case None => Step(s, sent)
        case Some(q) =>
          Step(ResetRound(s), sent + [Emit(ResultQuestion(game.namePartie, q.labelText, winner.userName))])
  }

  /**
   * `handleMauvaiseReponse`: with a queue and the question found, announce
   * `question result` with no winner; then move the cursor to the next
   * arrival, or, past the end of the queue, clear the round (question,
   * questions, buzz result, theme) and reset the cursor. The countdown is
   * not touched.
   */
  function MauvaiseReponse(s: ScreenState): Step
    requires CanJudge(s)
  {
    var result := s.buzzResult.value;
    if result.buzzers.None? then Step(s, [])
    else match SelectedQuestion(s)
      case None => Step(s, [])
      case Some(q) =>
        var queue := result.buzzers.value;
        var nextIndex := s.currentIndex + 1;
        var sent := [Emit(QuestionResult(s.currentGame.value.namePartie, q.labelText, None))];
        if nextIndex >= |queue| then
          Step(ClearRound(s), sent)
        else
          Step(s.(buzzResult := Some(result.(premierBuzzerId := queue[nextIndex].buzzerId)),
                  currentIndex := nextIndex), sent)
  }

  /** The submission attempts of the close sequence, one per entry, in list order. */
  function SubmitCalls(scores: seq<UserScore>, partieId: int): seq<Effect> {
    if |scores| == 0 then []
    else
      var last := scores[|scores| - 1];
      SubmitCalls(scores[..|scores| - 1], partieId) + [Call(SubmitScore(last.userId, partieId, last.totalScore))]
  }

  /** `fetchHistoriqueParties`: a delivered list replaces the history. */
  function RefreshHistory(s: ScreenState, reply: Http<seq<PartieHistorique>>): Step {
    if reply.Delivers() then Step(s.(historiqueParties := reply.body.value), [Call(FetchHistory)])
    else Step(s, [Call(FetchHistory)])
  }

  /**
   * Whether the session-update step lets the close go on: a non-ok reply
   * returns unless reading its error body throws; a thrown request error
   * is caught and the close goes on.
   */
  predicate UpdateProceeds(reply: Http<()>) {
    match reply
    case NetworkError => true
    case Response(_, body) => reply.IsOk() || body.None?
  }

  /** The score fetch answered 204 No Content: no score was recorded. */
  predicate NoScores(reply: Http<seq<UserScore>>) {
    reply.Response? && reply.status == 204
  }

  /**
   * `handleEndPartie`, submission outcomes aside (each is only logged):
   * fetch the scores; on 204 announce `partie end` with the question and
   * clear the game; on a failed fetch stop; otherwise go on as SubmitAndClose.
   */
  function EndPartie(s: ScreenState, scoresReply: Http<seq<UserScore>>, updateReply: Http<()>,
                     historyReply: Http<seq<PartieHistorique>>): Step
  {
    if s.currentGame.None? then Step(s, [])
    else
      var game := s.currentGame.value;
      var fetched := [Call(FetchScores(game.id))];
      if NoScores(scoresReply) then
        Step(ClearGame(s), fetched + [Emit(PartieEnd(game.id, Some(s.selectedQuestionId)))])
      else if !scoresReply.Delivers() then Step(s, fetched)
      else
        var rest := SubmitAndClose(s, game, scoresReply.body.value, updateReply, historyReply);
        Step(rest.next, fetched + rest.effects)
  }

  /**
   * The close once the scores are in: submit every entry, pick the winner
   * (an empty list makes the source throw here), update the session, and
   * unless that update is refused, refresh the history, announce
   * `partie end` and clear the game.
   */
  function SubmitAndClose(s: ScreenState, game: Game, scores: seq<UserScore>, updateReply: Http<()>,
                          historyReply: Http<seq<PartieHistorique>>): Step
  {
    var submitted := SubmitCalls(scores, game.id);
    match Winner(scores)
    case None => Step(s, submitted)
    case Some(winner) =>
      var updated := submitted + [Call(UpdatePartie(game.id, game.namePartie, winner.totalScore))];
      if !UpdateProceeds(updateReply) then Step(s, updated)
      else
        var refreshed := RefreshHistory(s, historyReply);
        Step(ClearGame(refreshed.next), updated + refreshed.effects + [Emit(PartieEnd(game.id, None))])
  }

  /** `handleEndGame`: announce `game end`; the page reload starts over from the mount state. */
  function EndGame(s: ScreenState): Step {
    Step(Initial(), [Emit(GameEnd)])
  }
}
