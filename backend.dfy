/** The study backend's state and its game operations: the in-memory score
    tracker (one record per player), the document store (score records under
    fresh keys, experiment records under the player's key), and the five
    operations that read and change them. The clock and the UUID generator
    are parameters: `now` is the timestamp a call stamps on what it creates,
    and `id` is the freshly generated key of a new score document. */
module StudyBackend {
  import opened Records
  import opened Store
  import opened RoundSequencer
  import opened Aggregation

  /** The selection of `final_score`: the player's checkpoint records. */
  const CHECKPOINTS: RoundFilter := RoundIn(CHECKPOINT_ROUNDS)

  /** The selection of `attention_check`: the player's control-round records. */
  const CONTROLS: RoundFilter := RoundIn({CONTROL_ROUND})

  /** The experiment record `streetview` extends: the stored one, a new empty
      one stamped `now` when the key is missing, or KeyError when the document
      under the player's key has no image list. */
  function PriorExperiment(store: seq<Entry>, player: string, now: int): (r: Result<ExperimentRecord>)
    ensures Lookup(store, player).None? ==> r == Ok(ExperimentRecord(player, now, []))
    ensures r.Ok? && Lookup(store, player).Some? ==> Lookup(store, player) == Some(Experiment(r.value))
    ensures r.Err? <==> Lookup(store, player).Some? && !Lookup(store, player).value.Experiment?
  {
    match Lookup(store, player)
    case None => Ok(ExperimentRecord(player, now, []))
    case Some(Experiment(e)) => Ok(e)
    case Some(_) => Err(KeyError)
  }

  /** The outcome of `has_finished` as written: its answer or exception, and
      the score tracker afterwards. */
  datatype Outcome = Outcome(result: Result<bool>, cache: map<string, ScoreRecord>)

  /** `has_finished` as written. On a miss with a stored record it seeds the
      tracker and then calls itself without `total_rounds`, which raises
      TypeError before the call's body runs. */
  function HasFinishedAsWritten(cache: map<string, ScoreRecord>, store: seq<Entry>, player: string, totalRounds: int): (o: Outcome)
    ensures player in cache ==> o == Outcome(Ok(cache[player].rounds >= totalRounds), cache)
    ensures player !in cache && Selected(store, player, AnyRound) == [] ==> o == Outcome(Ok(false), cache)
    ensures player !in cache && Selected(store, player, AnyRound) != [] ==>
              var newest := Query(store, player, AnyRound)[0];
              newest in Selected(store, player, AnyRound) &&
              (forall x :: x in Selected(store, player, AnyRound) ==> x.createdAt <= newest.createdAt) &&
              o == Outcome(Err(TypeError), cache[player := newest])
  {
    if player in cache then Outcome(Ok(cache[player].rounds >= totalRounds), cache)
    else
      var docs := Query(store, player, AnyRound);
      QueryIsSortedSelection(store, player, AnyRound);
      if docs == [] then Outcome(Ok(false), cache)
      else Outcome(Err(TypeError), cache[player := docs[0]])
  }

  /** After a restart with one stored score record, the first completion check
      for that player fails with TypeError, and a retry answers from the tracker
      the first call seeded. */
  lemma AsWrittenFailsOnce(rec: ScoreRecord, key: string, totalRounds: int)
    ensures HasFinishedAsWritten(map[], [Entry(key, Score(rec))], rec.playerId, totalRounds).result == Err(TypeError)
    ensures var o := HasFinishedAsWritten(map[], [Entry(key, Score(rec))], rec.playerId, totalRounds);
            HasFinishedAsWritten(o.cache, [Entry(key, Score(rec))], rec.playerId, totalRounds).result ==
              Ok(rec.rounds >= totalRounds)
  {
    var s := [Entry(key, Score(rec))];
    assert s[0].doc.Score? && Selects(AnyRound, rec.playerId, s[0].doc.score);
    assert Selected(s, rec.playerId, AnyRound) != [];
  }

  /** What the loop of `final_score` counts over a store: nothing exactly when
      there is no checkpoint record, at most one record per checkpoint round,
      and a largest round that is a checkpoint round no stored checkpoint
      record exceeds. */
  lemma CheckpointTotals(store: seq<Entry>, player: string)
    ensures var counted := FirstSeen(Query(store, player, CHECKPOINTS));
            (counted == [] <==> Selected(store, player, CHECKPOINTS) == []) &&
            |counted| <= 3 &&
            (counted != [] ==>
              MaxOf(RoundsOf(counted)) in CHECKPOINT_ROUNDS &&
              forall x :: x in Selected(store, player, CHECKPOINTS) ==> x.rounds <= MaxOf(RoundsOf(counted)))
  {
    var docs := Query(store, player, CHECKPOINTS);
    var sel := Selected(store, player, CHECKPOINTS);
    QueryIsSortedSelection(store, player, CHECKPOINTS);
    assert forall i :: 0 <= i < |docs| ==> docs[i].rounds in CHECKPOINT_ROUNDS by {
      SelectedSpec(store, player, CHECKPOINTS);
      assert forall i :: 0 <= i < |docs| ==> docs[i] in sel;
    }
    CheckpointTally(docs);
    if docs != [] {
      var m := MaxOf(RoundsOf(FirstSeen(docs)));
      forall x | x in sel ensures x.rounds <= m {
        var i :| 0 <= i < |docs| && docs[i] == x;
      }
    }
  }

  /** The body of `final_score` over the query result `docs`. The loop skips
      a record whose round is already in `recorded`, and otherwise adds the
      record's scores and keeps its time stamp and city fields; `max` of the
      recorded rounds then raises ValueError when nothing was recorded. */
  method TallyFirstSeen(player: string, docs: seq<ScoreRecord>) returns (r: Result<ScoreRecord>)
    ensures r.Err? <==> docs == []
    ensures r.Err? ==> r.error == ValueError
    ensures r.Ok? ==>
              var counted := FirstSeen(docs);
              var last := counted[|counted| - 1];
              counted != [] &&
              r.value == ScoreRecord(player, last.createdAt, SumAi(counted), SumPlayer(counted),
                                     MaxOf(RoundsOf(counted)), last.predictionCity, last.labelCity,
                                     last.userCityAnswer)
  {
    var totalAi, totalPlayer, createdAt := 0, 0, 0;
    var predictionCity, labelCity, userCityAnswer := "", "", "";
    var recorded: seq<int> := [];
    ghost var counted: seq<ScoreRecord> := [];
    for i := 0 to |docs|
      invariant counted == FirstSeen(docs[..i])
      invariant recorded == RoundsOf(counted)
      invariant totalAi == SumAi(counted) && totalPlayer == SumPlayer(counted)
      invariant counted != [] ==>
                  var last := counted[|counted| - 1];
                  createdAt == last.createdAt && predictionCity == last.predictionCity &&
                  labelCity == last.labelCity && userCityAnswer == last.userCityAnswer
    {
      var doc := docs[i];
      FirstSeenStep(docs, i);
      if doc.rounds in recorded {
        continue;
      }
      TallyAppend(counted, doc);
      counted := counted + [doc];
      totalAi := totalAi + doc.aiScore;
      totalPlayer := totalPlayer + doc.playerScore;
      createdAt := doc.createdAt;
      recorded := recorded + [doc.rounds];
      labelCity := doc.labelCity;
      predictionCity := doc.predictionCity;
      userCityAnswer := doc.userCityAnswer;
    }
    assert docs[..|docs|] == docs;
    assert recorded == [] <==> docs == [] by {
      MaxCountedRound(docs);
    }
    if recorded == [] {
      return Err(ValueError);
    }
    r := Ok(ScoreRecord(player, createdAt, totalAi, totalPlayer, MaxOf(recorded),
                        predictionCity, labelCity, userCityAnswer));
  }

  class Backend {
    /** The study's image hashes and control image hashes, in file order. */
    const images: seq<string>
    const controls: seq<string>
    /** `IN_MEMORY_SCORE_TRACKER`: the latest score record written or read per player. */
    var cache: map<string, ScoreRecord>
    /** `repo`: the document store. */
    var store: seq<Entry>

    /** The store is a dictionary, and the tracker only holds score records of
        the player they are filed under that the store also holds. */
    ghost predicate Valid()
      reads this
    {
      KeysDistinct(store) &&
      forall p :: p in cache ==> cache[p] in Selected(store, p, AnyRound)
    }

    /** A process start: the tracker is empty, the store holds what was persisted. */
    constructor (images: seq<string>, controls: seq<string>, persisted: seq<Entry>)
      requires KeysDistinct(persisted)
      ensures Valid()
      ensures this.images == images && this.controls == controls
      ensures cache == map[] && store == persisted
    {
      this.images := images;
      this.controls := controls;
      cache := map[];
      store := persisted;
    }

    /** `record_score`: builds the record, overwrites the player's tracker
        entry with it and persists it under the fresh key `id`. */
    method RecordScore(player: string, req: ScoreRequest, now: int, id: string) returns (record: ScoreRecord)
      requires Valid() && Lookup(store, id).None?
      modifies this
      ensures Valid()
      ensures record == MakeRecord(player, req, now)
      ensures record.playerId == player && record.createdAt == now
      ensures record.aiScore == req.aiScore && record.playerScore == req.playerScore && record.rounds == req.rounds
      ensures record.predictionCity == req.predictionCity && record.labelCity == req.labelCity
      ensures record.userCityAnswer == req.userCityAnswer
      ensures cache == old(cache)[player := record]
      ensures forall p :: p != player ==> (p in cache <==> p in old(cache)) && (p in cache ==> cache[p] == old(cache)[p])
      ensures store == old(store) + [Entry(id, Score(record))]
    {
      record := MakeRecord(player, req, now);
      ghost var before := store;
      cache := cache[player := record];
      store := store + [Entry(id, Score(record))];
      assert KeysDistinct(store) by {
        assert forall i :: 0 <= i < |before| ==> store[i] == before[i];
      }
      forall p | p in cache ensures cache[p] in Selected(store, p, AnyRound) {
        SelectedAppend(before, Entry(id, Score(record)), p, AnyRound);
      }
    }

    /** `streetview`: picks the round's image, appends it to the player's
        experiment record (creating the record on first contact), records
        the score and stores the experiment record under the player's key.
        Returns the hash of the image to show; an exception leaves the state
        as it was. */
    method Streetview(player: string, req: ScoreRequest, now: int, id: string) returns (r: Result<string>)
      requires Valid() && Lookup(store, id).None? && id != player
      modifies this
      ensures Valid()
      ensures SelectImage(images, controls, req.rounds).Err? ==> r == SelectImage(images, controls, req.rounds)
      ensures SelectImage(images, controls, req.rounds).Ok? && PriorExperiment(old(store), player, now).Err? ==>
                r == Err(KeyError)
      ensures r.Ok? <==> SelectImage(images, controls, req.rounds).Ok? && PriorExperiment(old(store), player, now).Ok?
      ensures r.Err? ==> cache == old(cache) && store == old(store)
      ensures r.Ok? ==> r == SelectImage(images, controls, req.rounds) && PriorExperiment(old(store), player, now).Ok?
      ensures r.Ok? ==>
                var prior := PriorExperiment(old(store), player, now).value;
                var rec := MakeRecord(player, req, now);
                cache == old(cache)[player := rec] &&
                store == Upsert(old(store) + [Entry(id, Score(rec))], player,
                                Experiment(prior.(images := prior.images + [r.value])))
      ensures r.Ok? ==>
                var prior := PriorExperiment(old(store), player, now).value;
                Lookup(store, player) == Some(Experiment(prior.(images := prior.images + [r.value]))) &&
                Lookup(store, id) == Some(Score(MakeRecord(player, req, now))) &&
                forall k :: k != player && k != id ==> Lookup(store, k) == Lookup(old(store), k)
    {
      var prior := PriorExperiment(store, player, now);
      var selected := SelectImage(images, controls, req.rounds);
      if selected.Err? {
        return selected;
      }
      if prior.Err? {
        return Err(KeyError);
      }
      var exp := prior.value.(images := prior.value.images + [selected.value]);
      ghost var before := store;
      var rec := RecordScore(player, req, now, id);
      ghost var scored := store;
      LookupAppend(before, Entry(id, Score(rec)), player);
      forall p | p in cache ensures
        Selected(Upsert(scored, player, Experiment(exp)), p, AnyRound) == Selected(scored, p, AnyRound)
      {
        SelectedUpsert(scored, player, Experiment(exp), p, AnyRound);
      }
      store := Upsert(store, player, Experiment(exp));
      forall k | k != player && k != id ensures Lookup(store, k) == Lookup(before, k) {
        LookupAppend(before, Entry(id, Score(rec)), k);
      }
      LookupAppend(before, Entry(id, Score(rec)), id);
      r := selected;
    }

    /** `has_finished` with the re-check passing `total_rounds` on: answers
        from the tracker; on a miss seeds the tracker with the player's newest
        stored score record and checks once more, or answers false when there
        is none. The second call always hits the tracker, so the recursion
        stops after one fallback. */
    method HasFinished(player: string, totalRounds: int) returns (finished: bool)
      requires Valid()
      modifies this
      decreases if player in cache then 0 else 1
      ensures Valid() && store == old(store)
      ensures player in old(cache) ==>
                cache == old(cache) && finished == (old(cache)[player].rounds >= totalRounds)
      ensures player !in old(cache) && Selected(store, player, AnyRound) == [] ==>
                cache == old(cache) && !finished
      ensures player !in old(cache) && Selected(store, player, AnyRound) != [] ==>
                var newest := Query(store, player, AnyRound)[0];
                newest in Selected(store, player, AnyRound) &&
                (forall x :: x in Selected(store, player, AnyRound) ==> x.createdAt <= newest.createdAt) &&
                cache == old(cache)[player := newest] &&
                finished == (newest.rounds >= totalRounds)
    {
      if player in cache {
        return cache[player].rounds >= totalRounds;
      }
      var docs := Query(store, player, AnyRound);
      QueryIsSortedSelection(store, player, AnyRound);
      if docs != [] {
        cache := cache[player := docs[0]];
        finished := HasFinished(player, totalRounds);
      } else {
        finished := false;
      }
    }

    /** `final_score`: sums the scores of the newest record of each checkpoint
        round and reports the largest checkpoint round reached; the time stamp
        and the city fields are those of the last record counted. With no
        checkpoint record, `max` of the empty list raises ValueError. */
    method FinalScore(player: string) returns (r: Result<ScoreRecord>)
      ensures r.Err? <==> Selected(store, player, CHECKPOINTS) == []
      ensures r.Err? ==> r.error == ValueError
      ensures r.Ok? ==>
                var counted := FirstSeen(Query(store, player, CHECKPOINTS));
                var last := counted[|counted| - 1];
                counted != [] &&
                r.value == ScoreRecord(player, last.createdAt, SumAi(counted), SumPlayer(counted),
                                       MaxOf(RoundsOf(counted)), last.predictionCity, last.labelCity,
                                       last.userCityAnswer)
      ensures r.Ok? ==> r.value.playerId == player && r.value.rounds in CHECKPOINT_ROUNDS
      ensures r.Ok? ==> forall x :: x in Selected(store, player, CHECKPOINTS) ==> x.rounds <= r.value.rounds
      ensures r.Ok? ==> |FirstSeen(Query(store, player, CHECKPOINTS))| <= 3
    {
      var docs := Query(store, player, CHECKPOINTS);
      r := TallyFirstSeen(player, docs);
      CheckpointTotals(store, player);
      QueryIsSortedSelection(store, player, CHECKPOINTS);
    }

    /** `attention_check`: false with fewer than two control-round records;
        otherwise true exactly when the newest two carry different player scores. */
    function AttentionCheck(player: string): (answer: bool)
      reads this
      ensures |Selected(store, player, CONTROLS)| < 2 ==> !answer
      ensures |Selected(store, player, CONTROLS)| >= 2 ==>
                var q := Query(store, player, CONTROLS);
                |q| >= 2 &&
                q[0].createdAt >= q[1].createdAt &&
                (forall j :: 2 <= j < |q| ==> q[j].createdAt <= q[1].createdAt) &&
                (answer <==> q[1].playerScore != q[0].playerScore)
    {
      var docs := Query(store, player, CONTROLS);
      QueryIsSortedSelection(store, player, CONTROLS);
      if |docs| < 2 then false
      else docs[1].playerScore != docs[0].playerScore
    }
  }

  /** After a score for round 5 is recorded, the player has completed 5 rounds
      but not 6. */
  method CompletionAfterScore(b: Backend, player: string, req: ScoreRequest, now: int, id: string)
    returns (done5: bool, done6: bool)
    requires b.Valid() && Lookup(b.store, id).None? && req.rounds == 5
    modifies b
    ensures b.Valid() && done5 && !done6
  {
    var _ := b.RecordScore(player, req, now, id);
    done5 := b.HasFinished(player, 5);
    done6 := b.HasFinished(player, 6);
  }
}
