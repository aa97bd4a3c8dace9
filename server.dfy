/**
 * The current server (src/server.js): one backend holding the three tables its
 * handlers write, `chat_history`, `trips` and `points`, with the `/api/chat`
 * and `/api/create-draft-route` handlers as methods. Database reads, the model
 * call and `JSON.parse` arrive as parameters; inserts append to the tables.
 */
module Server {
  import opened Wrappers
  import opened JsValues
  import opened Http
  import opened ChatPipeline
  import opened DraftRoute

  class Backend {
    /** The imported `assistantPrompt`, whose text is not part of this model. */
    const assistantPrompt: string
    var chatHistory: seq<Turn>
    var trips: seq<Trip>
    var points: seq<Point>

    /** The tables' consistency: see `DraftRoute.TablesValid`. */
    ghost predicate Valid()
      reads this
    {
      TablesValid(trips, points)
    }

    constructor (assistantPrompt: string)
      ensures Valid()
      ensures this.assistantPrompt == assistantPrompt
      ensures chatHistory == [] && trips == [] && points == []
    {
      this.assistantPrompt := assistantPrompt;
      chatHistory, trips, points := [], [], [];
    }

    /**
     * `POST /api/chat`. `historyReadOk` is false when the history query returns no
     * data; `historyInsertOk` is false when the two-row insert reports an error,
     * which the handler does not check. The history table only grows, and only on
     * a 200 reply; nothing else changes.
     */
    method Chat(userId: Value, message: Value, historyReadOk: bool,
                llm: seq<ChatMessage> -> Completion, parse: string -> Option<Value>,
                historyInsertOk: bool) returns (resp: Response)
      modifies this`chatHistory
      ensures old(chatHistory) <= chatHistory
      ensures !Truthy(userId) || !Truthy(message) ==>
        resp == Response(400, ErrorBody(MissingFieldsError)) && chatHistory == old(chatHistory)
      ensures var t := ChatTurn(assistantPrompt, old(chatHistory), historyReadOk, userId, message, llm, parse);
        && resp == t.response
        && chatHistory == old(chatHistory) + (if historyInsertOk then t.logged else [])
    {
      if !Truthy(userId) || !Truthy(message) {
        return Response(400, ErrorBody(MissingFieldsError));
      }
      var history := if historyReadOk then Some(FetchHistory(chatHistory, userId)) else None;
      var historyFiltered := FilterHistory(history.GetOr([]));
      var messages := Messages(assistantPrompt, historyFiltered, message);
      var completion := llm(messages);
      if completion.CompletionFailed? {
        return Response(500, ErrorBody(GenerationError));
      }
      var split := SplitReply(RawResponse(completion.content), parse);
      if historyInsertOk {
        chatHistory := chatHistory + [Turn(userId, Str("user"), message), Turn(userId, Str("assistant"), Str(split.reply))];
      }
      resp := Response(200, ChatReply(split.reply, split.suggestions));
    }

    /**
     * `POST /api/create-draft-route`. `ranked` is the attractions query ordered by
     * descending rating before its limit (None when the query reports an error or
     * no data); `tripError` is the trip insert's error message, if any; an order in
     * `failedInserts` marks a point insert that fails, which the handler does not
     * check. No trip is created unless some attraction was fetched; the loop
     * attempts one insert per attraction and the tables keep their invariant.
     */
    method CreateDraftRoute(userId: Value, ranked: Option<seq<Attraction>>, tripError: Option<string>,
                            failedInserts: set<nat>) returns (resp: Response)
      requires Valid()
      modifies this`trips, this`points
      ensures Valid()
      ensures !Truthy(userId) ==>
        resp == Response(400, ErrorBody(UserIdRequired)) && trips == old(trips) && points == old(points)
      ensures Truthy(userId) && (ranked.None? || ranked.value == []) ==>
        resp == Response(500, ErrorBody(AttractionsUnavailable)) && trips == old(trips) && points == old(points)
      ensures Truthy(userId) && ranked.Some? && ranked.value != [] && tripError.Some? ==>
        resp == Response(500, ErrorBody(TripInsertFailedPrefix + tripError.value))
        && trips == old(trips) && points == old(points)
      ensures Truthy(userId) && ranked.Some? && ranked.value != [] && tripError.None? ==>
        var attractions := TopAttractions(ranked.value);
        var id := |old(trips)|;
        && resp == Response(200, DraftCreated(id))
        && trips == old(trips) + [DraftTrip(id, userId, attractions[0])]
        && points == old(points) + Committed(Planned(id, attractions), failedInserts)
    {
      if !Truthy(userId) {
        return Response(400, ErrorBody(UserIdRequired));
      }
      if ranked.None? || TopAttractions(ranked.value) == [] {
        return Response(500, ErrorBody(AttractionsUnavailable));
      }
      var attractions := TopAttractions(ranked.value);
      if tripError.Some? {
        return Response(500, ErrorBody(TripInsertFailedPrefix + tripError.value));
      }
      var tripId := |trips|;
      DraftKeepsTablesValid(trips, points, userId, attractions, failedInserts);
      trips := trips + [DraftTrip(tripId, userId, attractions[0])];
      InsertPoints(tripId, attractions, failedInserts);
      resp := Response(200, DraftCreated(tripId));
    }

    /**
     * The `for` loop of the draft route: one insert per attraction, `order = i`,
     * carried on whether or not an earlier insert failed.
     */
    method InsertPoints(tripId: nat, attractions: seq<Attraction>, failedInserts: set<nat>)
      modifies this`points
      ensures points == old(points) + Committed(Planned(tripId, attractions), failedInserts)
    {
      ghost var written: seq<Point> := [];
      var i := 0;
      while i < |attractions|
        invariant 0 <= i <= |attractions|
        invariant written == Committed(Planned(tripId, attractions[..i]), failedInserts)
        invariant points == old(points) + written
      {
        CommittedSnoc(tripId, attractions, i, failedInserts);
        var inserted := if i in failedInserts then [] else [PointFor(tripId, attractions[i], i)];
        if i !in failedInserts {
          points := points + inserted;
        }
        written := written + inserted;
        i := i + 1;
      }
      assert attractions[..|attractions|] == attractions;
    }
  }
}
