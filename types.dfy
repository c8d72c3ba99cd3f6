/**
 * The entities the game-master screen works with, the shape of a network
 * reply as the handlers see it, and the effects (requests issued, socket
 * messages emitted) that the model records.
 */
module Types {

  datatype Option<T> = None | Some(value: T)

  /** A buzzer bound to a player, as pushed by the `buzzerUpdate` message. */
  datatype Buzzer = Buzzer(buzzerId: int, userName: string, userId: int)

  datatype Theme = Theme(id: int, labelText: string)

  /** `labelText` is the source's `label` (a Dafny keyword); `points` is a string; `timer` is the countdown in seconds. */
  datatype Question = Question(id: int, titre: string, labelText: string, points: string, timer: int)

  /** One arrival in the buzz queue. */
  datatype BuzzEntry = BuzzEntry(buzzerId: int)

  /**
   * The `buzz result` payload: `premierBuzzerId` names the player being
   * judged; `buzzers` is the arrival queue, which the payload may lack.
   */
  datatype BuzzerResult = BuzzerResult(premierBuzzerId: int, buzzers: Option<seq<BuzzEntry>>)

  /** The open session ("partie") as returned by the create call. */
  datatype Game = Game(id: int, namePartie: string)

  datatype PartieHistorique = PartieHistorique(id: int, namePartie: string, scorePartie: int, winnerName: string)

  datatype UserScore = UserScore(userId: string, userName: string, totalScore: int)

  /**
   * What an awaited `fetch` gives a handler: a response with its status and
   * its JSON body (None when `res.json()` rejects, e.g. an empty 204 body),
   * or a thrown network error.
   */
  datatype Http<T> = Response(status: int, body: Option<T>) | NetworkError
  {
    /** The `res.ok` flag of the fetch API: a 2xx status. */
    predicate IsOk() {
      Response? && 200 <= status <= 299
    }

    /** `res.ok` holds and `await res.json()` yields a value. */
    predicate Delivers() {
      IsOk() && body.Some?
    }
  }

  /** The HTTP requests the handlers issue, with the data they send. */
  datatype Request =
    | CreatePartie(namePartie: string, scorePartie: int)
    | FetchThemes
    | FetchQuestions(themeId: int)
    | FetchScores(partieId: int)
    | SubmitScore(userId: string, partieId: int, score: int)
    | UpdatePartie(partieId: int, namePartie: string, scorePartie: int)
    | PostCorrectAnswer(partieId: int, questionId: int, winnerUserId: int)
    | FetchHistory

  /** The socket messages the handlers emit, with their payloads. */
  datatype Message =
    | GameStart(game: string)
    | GameEnd
    | QuestionStart(gameId: int, questionId: int, question: string, timer: int)
    | TimerEnded(endedGameId: Option<int>, endedQuestionId: Option<int>)
    /** `result question`: the round was won by `winner`. */
    | ResultQuestion(partieName: string, question: string, winner: string)
    /** `question result`: sent on a wrong answer, with `noWinner` always None (null). */
    | QuestionResult(partieName: string, question: string, noWinner: Option<string>)
    /** `endedQuestion` is None when the payload has no `questionId` key at all. */
    | PartieEnd(gameId: int, endedQuestion: Option<Option<int>>)

  datatype Effect = Call(request: Request) | Emit(message: Message)
}
