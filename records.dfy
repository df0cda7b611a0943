/** Records kept by the study backend: the score a client submits, the score
    record that is stored and cached, the per-player experiment record, and
    the documents and errors of the document store. Timestamps are whole
    seconds supplied by the caller. */
module Records {

  /** The round that always shows the control image. */
  const CONTROL_ROUND: int := 15

  /** The rounds that end the three scored phases of the study. */
  const CHECKPOINT_ROUNDS: set<int> := {4, 12, 17}

  /** What the client submits after a round. */
  datatype ScoreRequest = ScoreRequest(
    aiScore: int,
    playerScore: int,
    rounds: int,
    predictionCity: string,
    labelCity: string,
    userCityAnswer: string)

  /** One scoring event as it is cached and persisted. */
  datatype ScoreRecord = ScoreRecord(
    playerId: string,
    createdAt: int,
    aiScore: int,
    playerScore: int,
    rounds: int,
    predictionCity: string,
    labelCity: string,
    userCityAnswer: string)

  /** The images shown to a player so far, in order. */
  datatype ExperimentRecord = ExperimentRecord(
    playerId: string,
    createdAt: int,
    images: seq<string>)

  /** A log entry of a prediction or explanation request. It carries no
      score, so score queries never select it. */
  datatype RequestRecord = RequestRecord(
    playerId: string,
    createdAt: int,
    route: string,
    imageHash: string)

  /** The documents the store holds. Only `Score` documents have an AI score. */
  datatype Doc =
    | Score(score: ScoreRecord)
    | Experiment(experiment: ExperimentRecord)
    | Request(request: RequestRecord)

  /** A document under its key. */
  datatype Entry = Entry(key: string, doc: Doc)

  /** The exceptions the modelled code can raise. */
  datatype Error =
    | IndexError   // a list index out of range
    | KeyError     // a dictionary without the expected field
    | ValueError   // max() of an empty list
    | TypeError    // a call that leaves out a required argument

  datatype Result<T> = Ok(value: T) | Err(error: Error)

  datatype Option<T> = None | Some(value: T)

  /** The record `record_score` builds from a request, stamped at `now`. */
  function MakeRecord(player: string, req: ScoreRequest, now: int): ScoreRecord {
    ScoreRecord(player, now, req.aiScore, req.playerScore, req.rounds,
                req.predictionCity, req.labelCity, req.userCityAnswer)
  }
}
