/**
 * The earlier server (server.js): the `/api/chat` handler alone, with its
 * system prompt written inline, over the `chat_history` table. It shares every
 * step with the current handler, so its contract is stated through the same
 * `ChatPipeline.ChatTurn`.
 */
module LegacyServer {
  import opened Wrappers
  import opened JsValues
  import opened Http
  import opened ChatPipeline

  class Backend {
    /** The inline travel-assistant instruction; its text is not part of this model. */
    const systemPrompt: string
    var chatHistory: seq<Turn>

    constructor (systemPrompt: string)
      ensures this.systemPrompt == systemPrompt && chatHistory == []
    {
      this.systemPrompt := systemPrompt;
      chatHistory := [];
    }

    /**
     * `POST /api/chat`: a request without a truthy `user_id` and `message` is
     * answered 400 before any query; otherwise the history window is read, the
     * model is called, its text is split, and on success the user row and then
     * the assistant row holding the reply are appended. The table only grows.
     */
    method Chat(userId: Value, message: Value, historyReadOk: bool,
                llm: seq<ChatMessage> -> Completion, parse: string -> Option<Value>,
                historyInsertOk: bool) returns (resp: Response)
      modifies this`chatHistory
      ensures old(chatHistory) <= chatHistory
      ensures !Truthy(userId) || !Truthy(message) ==>
        resp == Response(400, ErrorBody(MissingFieldsError)) && chatHistory == old(chatHistory)
      ensures var t := ChatTurn(systemPrompt, old(chatHistory), historyReadOk, userId, message, llm, parse);
        && resp == t.response
        && chatHistory == old(chatHistory) + (if historyInsertOk then t.logged else [])
    {
      if !Truthy(userId) || !Truthy(message) {
        return Response(400, ErrorBody(MissingFieldsError));
      }
      var history := if historyReadOk then Some(FetchHistory(chatHistory, userId)) else None;
      var historyFiltered := FilterHistory(history.GetOr([]));
      var messages := Messages(systemPrompt, historyFiltered, message);
      var completion := llm(messages);
      if completion.CompletionFailed? {
        return Response(500, ErrorBody(GenerationError));
      }
      var split := SplitReply(RawResponse(completion.content), parse);
      if historyInsertOk {
        chatHistory := chatHistory + [Turn(userId, Str("user"), message), Turn(userId, Str("assistant"), Str(split.reply))];
      }
      resp := Response(200, ChatReply(split.reply, split.suggestions));
    }
  }
}
