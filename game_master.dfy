/**
 * The `Buzzer` component as an object: its state variables are fields that
 * the event handlers update one setter at a time, and the requests and
 * socket messages it produces are appended to a ghost trace. Each handler
 * is specified by its transition function in module Handlers.
 */
module Component {
  import opened Types
  import opened Scoring
  import opened Handlers

  class GameMaster {
    var buzzers: seq<Buzzer>
    var gameBuzzers: seq<Buzzer>
    var historiqueParties: seq<PartieHistorique>
    var currentIndex: nat
    var currentGame: Option<Game>
    var themes: seq<Theme>
    var selectedThemeId: Option<int>
    var questions: seq<Question>
    var selectedQuestionId: Option<int>
    var remainingTime: Option<int>
    var buzzResult: Option<BuzzerResult>

    /** Requests issued and messages emitted so far, in order. */
    ghost var trace: seq<Effect>

    /** The current values of the state variables. */
    function Snapshot(): ScreenState
      reads this
    {
      ScreenState(buzzers, gameBuzzers, historiqueParties, currentIndex, currentGame, themes,
              selectedThemeId, questions, selectedQuestionId, remainingTime, buzzResult)
    }

    /**
     * The `useState` defaults. A mount is this constructor followed by
     * FetchHistoriqueParties, which the mount effect runs first.
     */
    constructor ()
      ensures Snapshot() == Initial() && trace == []
    {
      buzzers, gameBuzzers, historiqueParties := [], [], [];
      currentIndex, currentGame, themes := 0, None, [];
      selectedThemeId, questions, selectedQuestionId := None, [], None;
      remainingTime, buzzResult := None, None;
      trace := [];
    }

    /** The `buzzerUpdate` socket handler. */
    method OnBuzzerUpdate(pushed: seq<Buzzer>)
      modifies this
      ensures Snapshot() == BuzzerUpdate(old(Snapshot()), pushed).next
      ensures trace == old(trace) + BuzzerUpdate(old(Snapshot()), pushed).effects
    {
      if |pushed| > 0 {
        buzzers := pushed;
        gameBuzzers := pushed;
      }
    }

    /** The `buzz result` socket handler. */
    method OnBuzzResult(data: BuzzerResult)
      modifies this
      ensures Snapshot() == BuzzResultPush(old(Snapshot()), data).next
      ensures trace == old(trace) + BuzzResultPush(old(Snapshot()), data).effects
    {
      buzzResult := Some(data);
    }

    /** `fetchHistoriqueParties`, run at mount and at the end of a close. */
    method FetchHistoriqueParties(reply: Http<seq<PartieHistorique>>)
      modifies this
      ensures Snapshot() == RefreshHistory(old(Snapshot()), reply).next
      ensures trace == old(trace) + RefreshHistory(old(Snapshot()), reply).effects
    {
      trace := trace + [Call(FetchHistory)];
      if reply.Delivers() {
        historiqueParties := reply.body.value;
      }
    }

    /** `handleNewGame`; `name` stands for the clock-derived session name. */
    method HandleNewGame(name: string, created: Http<Game>, themesReply: Http<seq<Theme>>)
      requires CanStartNewGame(Snapshot())
      modifies this
      ensures Snapshot() == NewGame(old(Snapshot()), name, created, themesReply).next
      ensures trace == old(trace) + NewGame(old(Snapshot()), name, created, themesReply).effects
    {
      trace := trace + [Call(CreatePartie(name, 0))];
      if !created.Delivers() {
        return;
      }
      currentGame := Some(created.body.value);
      trace := trace + [Call(FetchThemes)];
      if !themesReply.Delivers() {
        return;
      }
      themes := themesReply.body.value;
      trace := trace + [Emit(GameStart(name))];
    }

    /** `handleThemeSelect` up to the await of its question fetch. */
    method HandleThemeSelect(themeId: int)
      requires CanSelectTheme(Snapshot())
      modifies this
      ensures Snapshot() == ThemeSelect(old(Snapshot()), themeId).next
      ensures trace == old(trace) + ThemeSelect(old(Snapshot()), themeId).effects
    {
      selectedThemeId := Some(themeId);
      selectedQuestionId := None;
      questions := [];
      trace := trace + [Call(FetchQuestions(themeId))];
    }

    /** The continuation of `handleThemeSelect` once its question fetch settles. */
    method OnQuestionsArrived(reply: Http<seq<Question>>)
      modifies this
      ensures Snapshot() == QuestionsArrived(old(Snapshot()), reply).next
      ensures trace == old(trace) + QuestionsArrived(old(Snapshot()), reply).effects
    {
      if reply.Delivers() {
        questions := reply.body.value;
      }
    }

    /** `handleQuestionSelect`. */
    method HandleQuestionSelect(questionId: int)
      requires CanSelectQuestion(Snapshot())
      modifies this
      ensures Snapshot() == QuestionSelect(old(Snapshot()), questionId).next
      ensures trace == old(trace) + QuestionSelect(old(Snapshot()), questionId).effects
    {
      selectedQuestionId := Some(questionId);
    }

    /** `handleStartGame`. */
    method HandleStartGame()
      modifies this
      ensures Snapshot() == StartGame(old(Snapshot())).next
      ensures trace == old(trace) + StartGame(old(Snapshot())).effects
    {
      if currentGame.None? || !Truthy(selectedQuestionId) {
        return;
      }
      var selected := GetSelectedQuestion(questions, selectedQuestionId);
      if selected.None? {
        return;
      }
      var q := selected.value;
      trace := trace + [Emit(QuestionStart(currentGame.value.id, selectedQuestionId.value, q.labelText, q.timer))];
      remainingTime := Some(q.timer);
    }

    /** One run of the countdown effect, or one firing of its interval. */
    method Tick()
      modifies this
      ensures Snapshot() == Handlers.Tick(old(Snapshot())).next
      ensures trace == old(trace) + Handlers.Tick(old(Snapshot())).effects
    {
      if remainingTime.None? {
        return;
      }
      var t := remainingTime.value;
      if t <= 0 {
        var endedGame := if currentGame.Some? then Some(currentGame.value.id) else None;
        trace := trace + [Emit(TimerEnded(endedGame, selectedQuestionId))];
        remainingTime := None;
        return;
      }
      remainingTime := Some(t - 1);
    }

    /** `handleBonneReponse`; `gagnant` is computed as the render does. */
    method HandleBonneReponse(reply: Http<()>)
      requires buzzResult.Some?
      modifies this
      ensures Snapshot() == BonneReponse(old(Snapshot()), reply).next
      ensures trace == old(trace) + BonneReponse(old(Snapshot()), reply).effects
    {
      var gagnant := Gagnant(gameBuzzers, buzzResult.value.premierBuzzerId);
      if currentGame.None? || !Truthy(selectedQuestionId) || gagnant.None? {
        return;
      }
      var game := currentGame.value;
      trace := trace + [Call(PostCorrectAnswer(game.id, selectedQuestionId.value, gagnant.value.userId))];
      if !reply.Delivers() {
        return;
      }
      var selected := GetSelectedQuestion(questions, selectedQuestionId);
      if selected.None? {
        return;
      }
      trace := trace + [Emit(ResultQuestion(game.namePartie, selected.value.labelText, gagnant.value.userName))];
      ResetRoundFields();
    }

    /** The resets of a won round. */
    method ResetRoundFields()
      modifies this
      ensures Snapshot() == ResetRound(old(Snapshot())) && trace == old(trace)
    {
      selectedThemeId, questions, selectedQuestionId, remainingTime, buzzResult, currentIndex :=
        None, [], None, None, None, 0;
    }

    /** `handleMauvaiseReponse`. */
    method HandleMauvaiseReponse()
      requires CanJudge(Snapshot())
      modifies this
      ensures Snapshot() == MauvaiseReponse(old(Snapshot())).next
      ensures trace == old(trace) + MauvaiseReponse(old(Snapshot())).effects
    {
      var result := buzzResult.value;
      if result.buzzers.None? {
        return;
      }
      var nextIndex := currentIndex + 1;
      var selected := GetSelectedQuestion(questions, selectedQuestionId);
      if selected.None? {
        return;
      }
      trace := trace + [Emit(QuestionResult(currentGame.value.namePartie, selected.value.labelText, None))];
      var queue := result.buzzers.value;
      if nextIndex >= |queue| {
        ClearRoundFields();
        return;
      }
      buzzResult, currentIndex := Some(result.(premierBuzzerId := queue[nextIndex].buzzerId)), nextIndex;
    }

    /** The resets when the buzz queue is exhausted. */
    method ClearRoundFields()
      modifies this
      ensures Snapshot() == ClearRound(old(Snapshot())) && trace == old(trace)
    {
      selectedQuestionId, questions, buzzResult, selectedThemeId, currentIndex := None, [], None, None, 0;
    }

    /** The resets shared by both exits of the close sequence. */
    method ClearGameFields()
      modifies this
      ensures Snapshot() == ClearGame(old(Snapshot())) && trace == old(trace)
    {
      currentGame, selectedThemeId, questions, selectedQuestionId, remainingTime, buzzResult :=
        None, None, [], None, None, None;
    }

    /**
     * The submission loop of `handleEndPartie`: one request per entry, in
     * list order. `submitReplies(i)` is the outcome of the i-th request;
     * a refused or thrown submission is only logged, so whatever the
     * outcomes are, every entry is attempted and no state variable changes.
     */
    method SubmitScores(scores: seq<UserScore>, partieId: int, submitReplies: nat -> Http<()>)
      modifies this`trace
      ensures trace == old(trace) + SubmitCalls(scores, partieId)
    {
      var i := 0;
      while i < |scores|
        invariant 0 <= i <= |scores|
        invariant trace == old(trace) + SubmitCalls(scores[..i], partieId)
      {
        var user := scores[i];
        trace := trace + [Call(SubmitScore(user.userId, partieId, user.totalScore))];
        // The outcome, submitReplies(i), is only logged: a refused or thrown
        // submission does not stop the loop, so it is not read here.
        assert scores[..i + 1][..i] == scores[..i];
        i := i + 1;
      }
      assert scores[..|scores|] == scores;
    }

    /** `handleEndPartie`; `submitReplies` as in SubmitScores. */
    method HandleEndPartie(scoresReply: Http<seq<UserScore>>, submitReplies: nat -> Http<()>,
                           updateReply: Http<()>, historyReply: Http<seq<PartieHistorique>>)
      modifies this
      ensures Snapshot() == EndPartie(old(Snapshot()), scoresReply, updateReply, historyReply).next
      ensures trace == old(trace) + EndPartie(old(Snapshot()), scoresReply, updateReply, historyReply).effects
    {
      if currentGame.None? {
        return;
      }
      var game := currentGame.value;
      trace := trace + [Call(FetchScores(game.id))];
      if NoScores(scoresReply) {
        trace := trace + [Emit(PartieEnd(game.id, Some(selectedQuestionId)))];
        ClearGameFields();
        return;
      }
      if !scoresReply.Delivers() {
        return;
      }
      CloseWithScores(game, scoresReply.body.value, submitReplies, updateReply, historyReply);
    }

    /** The part of `handleEndPartie` after a delivered score list. */
    method CloseWithScores(game: Game, scores: seq<UserScore>, submitReplies: nat -> Http<()>,
                           updateReply: Http<()>, historyReply: Http<seq<PartieHistorique>>)
      modifies this
      ensures Snapshot() == SubmitAndClose(old(Snapshot()), game, scores, updateReply, historyReply).next
      ensures trace == old(trace) + SubmitAndClose(old(Snapshot()), game, scores, updateReply, historyReply).effects
    {
      SubmitScores(scores, game.id, submitReplies);
      var winner := Winner(scores);
      if winner.None? {
        // `winner.user_name` on undefined throws: the handler stops here.
        return;
      }
      trace := trace + [Call(UpdatePartie(game.id, game.namePartie, winner.value.totalScore))];
      if !UpdateProceeds(updateReply) {
        return;
      }
      FinishClose(game.id, historyReply);
    }

    /** The last steps of a close that got past the session update. */
    method FinishClose(partieId: int, historyReply: Http<seq<PartieHistorique>>)
      modifies this
      ensures Snapshot() == ClearGame(RefreshHistory(old(Snapshot()), historyReply).next)
      ensures trace == old(trace) + RefreshHistory(old(Snapshot()), historyReply).effects
                       + [Emit(PartieEnd(partieId, None))]
    {
      FetchHistoriqueParties(historyReply);
      trace := trace + [Emit(PartieEnd(partieId, None))];
      ClearGameFields();
    }

    /** `handleEndGame`: `game end`, then the reload brings back the mount state. */
    method HandleEndGame()
      modifies this
      ensures Snapshot() == EndGame(old(Snapshot())).next
      ensures trace == old(trace) + EndGame(old(Snapshot())).effects
    {
      trace := trace + [Emit(GameEnd)];
      buzzers, gameBuzzers, historiqueParties := [], [], [];
      currentIndex, currentGame, themes := 0, None, [];
      selectedThemeId, questions, selectedQuestionId := None, [], None;
      remainingTime, buzzResult := None, None;
    }
  }
}
