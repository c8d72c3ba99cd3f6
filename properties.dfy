/**
 * What the handlers guarantee: which fields each outcome resets and which
 * it keeps, how the judging cursor walks the buzz queue, how the countdown
 * ends, and the abort points of the close sequence.
 */
module Properties {
  import opened Types
  import opened Scoring
  import opened Handlers

  // ----- Registry and buzz-result pushes -----

  /** A non-empty registry push replaces both registries wholesale; an empty one changes nothing. */
  lemma RegistryPushReplacesOrIgnores(s: ScreenState, pushed: seq<Buzzer>)
    ensures |pushed| > 0 ==> BuzzerUpdate(s, pushed) == Step(s.(buzzers := pushed, gameBuzzers := pushed), [])
    ensures |pushed| == 0 ==> BuzzerUpdate(s, pushed) == Step(s, [])
  {
  }

  /** A buzz-result push stores the payload and leaves the cursor where it was. */
  lemma BuzzResultPushKeepsCursor(s: ScreenState, data: BuzzerResult)
    ensures BuzzResultPush(s, data).next.buzzResult == Some(data)
    ensures BuzzResultPush(s, data).next.currentIndex == s.currentIndex
    ensures BuzzResultPush(s, data).next == s.(buzzResult := Some(data))
  {
  }

  // ----- New game, theme and question selection -----

  /** Both replies delivered: the session is open, the themes are stored and `game start` is sent. */
  lemma NewGameOpensSession(s: ScreenState, name: string, created: Http<Game>, themesReply: Http<seq<Theme>>)
    requires CanStartNewGame(s) && created.Delivers() && themesReply.Delivers()
    ensures NewGame(s, name, created, themesReply)
         == Step(s.(currentGame := Some(created.body.value), themes := themesReply.body.value),
                 [Call(CreatePartie(name, 0)), Call(FetchThemes), Emit(GameStart(name))])
  {
  }

  /**
   * A failed session creation changes nothing; a failed theme fetch keeps
   * the created session but sends no `game start`.
   */
  lemma NewGameFailures(s: ScreenState, name: string, created: Http<Game>, themesReply: Http<seq<Theme>>)
    requires CanStartNewGame(s)
    ensures !created.Delivers() ==> NewGame(s, name, created, themesReply) == Step(s, [Call(CreatePartie(name, 0))])
    ensures created.Delivers() && !themesReply.Delivers() ==>
      NewGame(s, name, created, themesReply)
      == Step(s.(currentGame := Some(created.body.value)), [Call(CreatePartie(name, 0)), Call(FetchThemes)])
  {
  }

  /** Selecting a theme records it and clears the question and the list before the fetch. */
  lemma ThemeSelectClearsQuestions(s: ScreenState, themeId: int)
    requires CanSelectTheme(s)
    ensures var r := ThemeSelect(s, themeId);
      && r.next.selectedThemeId == Some(themeId)
      && r.next.selectedQuestionId == None
      && r.next.questions == []
      && r.next == s.(selectedThemeId := Some(themeId), selectedQuestionId := None, questions := [])
      && r.effects == [Call(FetchQuestions(themeId))]
  {
  }

  /** Only a delivered question list repopulates `questions`. */
  lemma QuestionsOnlyFromDeliveredList(s: ScreenState, themeId: int, reply: Http<seq<Question>>)
    requires CanSelectTheme(s)
    ensures var r := QuestionsArrived(ThemeSelect(s, themeId).next, reply);
      r.next.questions == (if reply.Delivers() then reply.body.value else [])
  {
  }

  /**
   * A late list for a theme the moderator has already left is applied all
   * the same: the questions of theme `first` show under theme `second`.
   */
  lemma StaleQuestionListApplied(s: ScreenState, first: int, second: int, stale: seq<Question>)
    requires CanSelectTheme(s)
    ensures var afterSecond := ThemeSelect(ThemeSelect(s, first).next, second).next;
      var r := QuestionsArrived(afterSecond, Response(200, Some(stale)));
      r.next.selectedThemeId == Some(second) && r.next.questions == stale
  {
  }

  /** Selecting a question changes only the selected id. */
  lemma QuestionSelectRecordsId(s: ScreenState, questionId: int)
    requires CanSelectQuestion(s)
    ensures QuestionSelect(s, questionId) == Step(s.(selectedQuestionId := Some(questionId)), [])
  {
  }

  // ----- Starting a question and the countdown -----

  /** With a session, a truthy id and the question found, `question start` is sent and the countdown armed. */
  lemma StartGameArmsCountdown(s: ScreenState)
    requires s.currentGame.Some? && Truthy(s.selectedQuestionId) && SelectedQuestion(s).Some?
    ensures var q := SelectedQuestion(s).value;
      StartGame(s) == Step(s.(remainingTime := Some(q.timer)),
        [Emit(QuestionStart(s.currentGame.value.id, s.selectedQuestionId.value, q.labelText, q.timer))])
  {
  }

  /** Without a session, a truthy id or a matching question, starting does nothing. */
  lemma StartGameGuarded(s: ScreenState)
    requires s.currentGame.None? || !Truthy(s.selectedQuestionId) || SelectedQuestion(s).None?
    ensures StartGame(s) == Step(s, [])
  {
  }

  /** A theme with no questions can never start a question. */
  lemma NoQuestionsNoStart(s: ScreenState)
    requires s.questions == []
    ensures StartGame(s) == Step(s, [])
  {
  }

  /** `k` countdown steps in a row. */
  function Ticks(s: ScreenState, k: nat): Step
    decreases k
  {
    if k == 0 then Step(s, [])
    else
      var first := Tick(s);
      var rest := Ticks(first.next, k - 1);
      Step(rest.next, first.effects + rest.effects)
  }

  /** A stopped countdown stays stopped and sends nothing. */
  lemma {:induction false} StoppedCountdownIsSilent(s: ScreenState, k: nat)
    requires s.remainingTime.None?
    decreases k
    ensures Ticks(s, k) == Step(s, [])
  {
    if k > 0 {
      StoppedCountdownIsSilent(s, k - 1);
    }
  }

  /** Up to `n` steps from `n`, the count goes down by one per step and nothing is sent. */
  lemma {:induction false} CountdownDecrements(s: ScreenState, n: int, k: nat)
    requires s.remainingTime == Some(n) && k <= n
    decreases k
    ensures Ticks(s, k) == Step(s.(remainingTime := Some(n - k)), [])
  {
    if k > 0 {
      CountdownDecrements(s.(remainingTime := Some(n - 1)), n - 1, k - 1);
    }
  }

  /**
   * Past its end the countdown has sent exactly one `timer ended`, with the
   * session and question of the moment, and is stopped; nothing else changed.
   */
  lemma {:induction false} CountdownEndsOnce(s: ScreenState, t: int, k: nat)
    requires s.remainingTime == Some(t) && k > 0 && k > t
    decreases k
    ensures Ticks(s, k) == Step(s.(remainingTime := None), [Emit(TimerEnded(GameId(s), s.selectedQuestionId))])
  {
    if t <= 0 {
      StoppedCountdownIsSilent(s.(remainingTime := None), k - 1);
    } else {
      CountdownEndsOnce(s.(remainingTime := Some(t - 1)), t - 1, k - 1);
    }
  }

  // ----- Judging -----

  /** The payload of the wrong-answer announcement. */
  function NoWinnerMessage(s: ScreenState): Effect
    requires s.currentGame.Some? && SelectedQuestion(s).Some?
  {
    Emit(QuestionResult(s.currentGame.value.namePartie, SelectedQuestion(s).value.labelText, None))
  }

  /**
   * Correct answer, delivered reply: `result question` is sent with the
   * gagnant's name and the round is reset, the session kept.
   */
  lemma CorrectAnswerResetsRound(s: ScreenState, reply: Http<()>)
    requires s.buzzResult.Some? && s.currentGame.Some? && Truthy(s.selectedQuestionId)
    requires CurrentGagnant(s).Some? && SelectedQuestion(s).Some? && reply.Delivers()
    ensures var game := s.currentGame.value;
      var winner := CurrentGagnant(s).value;
      var r := BonneReponse(s, reply);
      && r.next == s.(selectedThemeId := None, questions := [], selectedQuestionId := None,
                      remainingTime := None, buzzResult := None, currentIndex := 0)
      && r.next.currentGame == s.currentGame
      && r.effects == [Call(PostCorrectAnswer(game.id, s.selectedQuestionId.value, winner.userId)),
                       Emit(ResultQuestion(game.namePartie, SelectedQuestion(s).value.labelText, winner.userName))]
  {
  }

  /** Correct answer without its guards, or with a reply that is not delivered: no state changes. */
  lemma CorrectAnswerFailureKeepsState(s: ScreenState, reply: Http<()>)
    requires s.buzzResult.Some?
    requires s.currentGame.None? || !Truthy(s.selectedQuestionId) || CurrentGagnant(s).None? || !reply.Delivers()
    ensures BonneReponse(s, reply).next == s
  {
  }

  /**
   * Wrong answer with another arrival queued: `question result` with a null
   * winner is sent, the cursor moves to that arrival, and the queue, the
   * session and everything else are kept.
   */
  lemma WrongAnswerAdvances(s: ScreenState)
    requires CanJudge(s) && s.buzzResult.value.buzzers.Some? && SelectedQuestion(s).Some?
    requires s.currentIndex + 1 < |s.buzzResult.value.buzzers.value|
    ensures var result := s.buzzResult.value;
      var r := MauvaiseReponse(s);
      && r.next.currentIndex == s.currentIndex + 1
      && r.next.buzzResult == Some(result.(premierBuzzerId := result.buzzers.value[s.currentIndex + 1].buzzerId))
      && r.next.buzzResult.value.buzzers == result.buzzers
      && r.next == s.(buzzResult := r.next.buzzResult, currentIndex := s.currentIndex + 1)
      && r.effects == [NoWinnerMessage(s)]
  {
  }

  /**
   * Wrong answer on the last arrival: the round is cleared (question,
   * questions, buzz result, theme) and the cursor reset, while the session
   * and the running countdown are kept.
   */
  lemma WrongAnswerExhaustsQueue(s: ScreenState)
    requires CanJudge(s) && s.buzzResult.value.buzzers.Some? && SelectedQuestion(s).Some?
    requires s.currentIndex + 1 >= |s.buzzResult.value.buzzers.value|
    ensures var r := MauvaiseReponse(s);
      && r.next == s.(selectedQuestionId := None, questions := [], buzzResult := None,
                      selectedThemeId := None, currentIndex := 0)
      && r.next.currentGame == s.currentGame
      && r.next.remainingTime == s.remainingTime
      && r.effects == [NoWinnerMessage(s)]
  {
  }

  /** Wrong answer without a queue in the payload or without the question found: nothing happens. */
  lemma WrongAnswerGuarded(s: ScreenState)
    requires CanJudge(s) && (s.buzzResult.value.buzzers.None? || SelectedQuestion(s).None?)
    ensures MauvaiseReponse(s) == Step(s, [])
  {
  }

  /** The cursor designates the player being judged. */
  predicate CursorOnQueue(s: ScreenState) {
    && s.buzzResult.Some?
    && s.buzzResult.value.buzzers.Some?
    && s.currentIndex < |s.buzzResult.value.buzzers.value|
    && s.buzzResult.value.buzzers.value[s.currentIndex].buzzerId == s.buzzResult.value.premierBuzzerId
  }

  /** A wrong answer keeps the cursor on the player being judged, or ends the round. */
  lemma WrongAnswerKeepsCursorOnQueue(s: ScreenState)
    requires CanJudge(s) && CursorOnQueue(s)
    ensures var r := MauvaiseReponse(s);
      CursorOnQueue(r.next) || r.next.buzzResult.None?
  {
  }

  /** `k` wrong answers in a row. */
  function WrongAnswers(s: ScreenState, k: nat): Step
    decreases k
  {
    if k == 0 || !CanJudge(s) then Step(s, [])
    else
      var first := MauvaiseReponse(s);
      var rest := WrongAnswers(first.next, k - 1);
      Step(rest.next, first.effects + rest.effects)
  }

  /**
   * Judging wrong `k` times while arrivals remain walks the cursor `k` places
   * down the queue, each time naming that arrival, and sends one null-winner
   * result per answer.
   */
  lemma {:induction false} JudgingWalksQueue(s: ScreenState, k: nat)
    requires CanJudge(s) && s.buzzResult.value.buzzers.Some? && SelectedQuestion(s).Some?
    requires s.currentIndex + k < |s.buzzResult.value.buzzers.value|
    decreases k
    ensures var result := s.buzzResult.value;
      var r := WrongAnswers(s, k);
      && r.next.currentIndex == s.currentIndex + k
      && (k > 0 ==>
            r.next.buzzResult == Some(result.(premierBuzzerId := result.buzzers.value[s.currentIndex + k].buzzerId)))
      && r.next == s.(buzzResult := r.next.buzzResult, currentIndex := s.currentIndex + k)
      && |r.effects| == k
      && forall i :: 0 <= i < k ==> r.effects[i] == NoWinnerMessage(s)
  {
    if k > 0 {
      var first := MauvaiseReponse(s);
      WrongAnswerAdvances(s);
      JudgingWalksQueue(first.next, k - 1);
    }
  }

  /**
   * From cursor `i` in a queue of `n`, the round ends with no winner after
   * exactly `n - i` wrong answers, keeping the session and the countdown.
   */
  lemma {:induction false} JudgingExhaustsQueue(s: ScreenState)
    requires CanJudge(s) && s.buzzResult.value.buzzers.Some? && SelectedQuestion(s).Some?
    requires s.currentIndex < |s.buzzResult.value.buzzers.value|
    ensures var n := |s.buzzResult.value.buzzers.value|;
      var r := WrongAnswers(s, n - s.currentIndex);
      && r.next == s.(selectedQuestionId := None, questions := [], buzzResult := None,
                      selectedThemeId := None, currentIndex := 0)
      && |r.effects| == n - s.currentIndex
      && forall i :: 0 <= i < |r.effects| ==> r.effects[i] == NoWinnerMessage(s)
  {
    var n := |s.buzzResult.value.buzzers.value|;
    var k := n - s.currentIndex - 1;
    JudgingWalksQueue(s, k);
    var walked := WrongAnswers(s, k);
    WrongAnswerExhaustsQueue(walked.next);
    WrongAnswersSplit(s, k);
  }

  /** `k + 1` wrong answers are `k` of them followed by one more. */
  lemma {:induction false} WrongAnswersSplit(s: ScreenState, k: nat)
    decreases k
    ensures var walked := WrongAnswers(s, k);
      var last := WrongAnswers(walked.next, 1);
      WrongAnswers(s, k + 1) == Step(last.next, walked.effects + last.effects)
  {
    if k > 0 && CanJudge(s) {
      WrongAnswersSplit(MauvaiseReponse(s).next, k - 1);
    }
  }

  /**
   * The cursor is not reset when a new buzz result arrives: with the cursor
   * left at 1 from an earlier queue, a fresh queue of two arrivals ends on
   * the first wrong answer, and its second player is never judged.
   */
  lemma StaleCursorSkipsArrival(s: ScreenState, first: int, second: int)
    requires s.currentGame.Some? && SelectedQuestion(s).Some? && s.currentIndex == 1
    ensures var pushed := BuzzResultPush(s, BuzzerResult(first, Some([BuzzEntry(first), BuzzEntry(second)]))).next;
      MauvaiseReponse(pushed).next.buzzResult.None?
  {
  }

  // ----- Closing the session -----

  /** Every entry gets exactly one submission attempt, in list order. */
  lemma {:induction false} SubmitCallsInOrder(scores: seq<UserScore>, partieId: int)
    ensures |SubmitCalls(scores, partieId)| == |scores|
    ensures forall i :: 0 <= i < |scores| ==>
              SubmitCalls(scores, partieId)[i] == Call(SubmitScore(scores[i].userId, partieId, scores[i].totalScore))
  {
    if |scores| > 0 {
      SubmitCallsInOrder(scores[..|scores| - 1], partieId);
    }
  }

  /** Closing with no open session does nothing. */
  lemma EndPartieWithoutGame(s: ScreenState, scoresReply: Http<seq<UserScore>>, updateReply: Http<()>,
                             historyReply: Http<seq<PartieHistorique>>)
    requires s.currentGame.None?
    ensures EndPartie(s, scoresReply, updateReply, historyReply) == Step(s, [])
  {
  }

  /**
   * A 204 score reply closes at once: no submission, no session update, no
   * history refresh; `partie end` carries the selected question and the
   * game state is cleared (the cursor and the themes are kept).
   */
  lemma EndPartieNoScores(s: ScreenState, status: int, body: Option<seq<UserScore>>, updateReply: Http<()>,
                          historyReply: Http<seq<PartieHistorique>>)
    requires s.currentGame.Some? && status == 204
    ensures var id := s.currentGame.value.id;
      var r := EndPartie(s, Response(status, body), updateReply, historyReply);
      && r.next == ClearGame(s)
      && r.next.currentGame.None?
      && r.next.currentIndex == s.currentIndex
      && r.effects == [Call(FetchScores(id)), Emit(PartieEnd(id, Some(s.selectedQuestionId)))]
      && forall e :: e in r.effects ==> !(e.Call? && (e.request.SubmitScore? || e.request.UpdatePartie?))
  {
  }

  /** A failed or thrown score fetch returns with the state unchanged. */
  lemma EndPartieFetchFailure(s: ScreenState, scoresReply: Http<seq<UserScore>>, updateReply: Http<()>,
                              historyReply: Http<seq<PartieHistorique>>)
    requires s.currentGame.Some? && !scoresReply.Delivers() && !NoScores(scoresReply)
    ensures EndPartie(s, scoresReply, updateReply, historyReply) == Step(s, [Call(FetchScores(s.currentGame.value.id))])
  {
  }

  /**
   * An empty delivered score list makes the winner `undefined`: the handler
   * throws right after the (empty) submission loop and nothing changes.
   */
  lemma EndPartieEmptyListThrows(s: ScreenState, status: int, updateReply: Http<()>,
                                 historyReply: Http<seq<PartieHistorique>>)
    requires s.currentGame.Some? && 200 <= status <= 299 && status != 204
    ensures EndPartie(s, Response(status, Some([])), updateReply, historyReply)
         == Step(s, [Call(FetchScores(s.currentGame.value.id))])
  {
  }

  /** The effects of a close with a delivered non-empty list, up to the session update. */
  function UpToUpdate(game: Game, scores: seq<UserScore>): seq<Effect>
    requires |scores| > 0
  {
    [Call(FetchScores(game.id))] + SubmitCalls(scores, game.id)
    + [Call(UpdatePartie(game.id, game.namePartie, Winner(scores).value.totalScore))]
  }

  /**
   * A delivered non-empty list: the fetch, one submission per entry in
   * order, then the session update with the winner's score.
   */
  lemma EndPartieSubmitsThenUpdates(s: ScreenState, scoresReply: Http<seq<UserScore>>, updateReply: Http<()>,
                                    historyReply: Http<seq<PartieHistorique>>)
    requires s.currentGame.Some? && !NoScores(scoresReply)
    requires scoresReply.Delivers() && |scoresReply.body.value| > 0
    ensures var game := s.currentGame.value;
      var scores := scoresReply.body.value;
      var r := EndPartie(s, scoresReply, updateReply, historyReply);
      && |r.effects| >= |scores| + 2
      && r.effects[0] == Call(FetchScores(game.id))
      && (forall i :: 0 <= i < |scores| ==>
            r.effects[1 + i] == Call(SubmitScore(scores[i].userId, game.id, scores[i].totalScore)))
      && r.effects[|scores| + 1] == Call(UpdatePartie(game.id, game.namePartie, Winner(scores).value.totalScore))
      && r.effects[..|scores| + 2] == UpToUpdate(game, scores)
  {
    var game := s.currentGame.value;
    var scores := scoresReply.body.value;
    SubmitCallsInOrder(scores, game.id);
    var prefix := UpToUpdate(game, scores);
    var r := EndPartie(s, scoresReply, updateReply, historyReply);
    assert r.effects[..|prefix|] == prefix;
  }

  /**
   * A refused session update (non-ok, error body read) aborts before the
   * history refresh and the reset: the session stays open.
   */
  lemma EndPartieUpdateRefused(s: ScreenState, scoresReply: Http<seq<UserScore>>, status: int,
                               historyReply: Http<seq<PartieHistorique>>)
    requires s.currentGame.Some? && !NoScores(scoresReply)
    requires scoresReply.Delivers() && |scoresReply.body.value| > 0
    requires !(200 <= status <= 299)
    ensures var r := EndPartie(s, scoresReply, Response(status, Some(())), historyReply);
      && r == Step(s, UpToUpdate(s.currentGame.value, scoresReply.body.value))
      && r.next.currentGame == s.currentGame
      && Call(FetchHistory) !in r.effects
      && forall e :: e in r.effects ==> !(e.Emit? && e.message.PartieEnd?)
  {
    var game := s.currentGame.value;
    var scores := scoresReply.body.value;
    SubmitCallsInOrder(scores, game.id);
    var prefix := UpToUpdate(game, scores);
    assert EndPartie(s, scoresReply, Response(status, Some(())), historyReply) == Step(s, prefix);
    assert forall i :: 0 <= i < |prefix| ==> prefix[i].Call? && prefix[i] != Call(FetchHistory);
  }

  /**
   * A successful update, a thrown update request, or a refusal whose error
   * body cannot be read: the history is refreshed, `partie end` is sent and
   * the game state is cleared, session included.
   */
  lemma EndPartieCloses(s: ScreenState, scoresReply: Http<seq<UserScore>>, updateReply: Http<()>,
                        historyReply: Http<seq<PartieHistorique>>)
    requires s.currentGame.Some? && !NoScores(scoresReply)
    requires scoresReply.Delivers() && |scoresReply.body.value| > 0
    requires updateReply.NetworkError? || updateReply.IsOk() || updateReply.body.None?
    ensures var id := s.currentGame.value.id;
      var r := EndPartie(s, scoresReply, updateReply, historyReply);
      && r.next == ClearGame(RefreshHistory(s, historyReply).next)
      && r.next.currentGame.None?
      && r.effects == UpToUpdate(s.currentGame.value, scoresReply.body.value)
                      + [Call(FetchHistory), Emit(PartieEnd(id, None))]
  {
    var prefix := UpToUpdate(s.currentGame.value, scoresReply.body.value);
    var refreshed := RefreshHistory(s, historyReply);
    assert EndPartie(s, scoresReply, updateReply, historyReply)
        == Step(ClearGame(refreshed.next), prefix + [Call(FetchHistory), Emit(PartieEnd(s.currentGame.value.id, None))]);
  }

  /** A history refresh replaces the list only when one is delivered. */
  lemma RefreshHistoryReplaces(s: ScreenState, reply: Http<seq<PartieHistorique>>)
    ensures RefreshHistory(s, reply).next.historiqueParties
         == (if reply.Delivers() then reply.body.value else s.historiqueParties)
    ensures RefreshHistory(s, reply).next == s.(historiqueParties := RefreshHistory(s, reply).next.historiqueParties)
  {
  }

  /** Ending the game sends `game end` and starts over from the mount state. */
  lemma EndGameStartsOver(s: ScreenState)
    ensures EndGame(s) == Step(Initial(), [Emit(GameEnd)])
    ensures EndGame(s).next.currentGame.None? && EndGame(s).next.buzzers == []
  {
  }
}
