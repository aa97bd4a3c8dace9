/**
 * The logic of the `/api/chat` handler, which both revisions of the server
 * share word for word apart from the system prompt: request validation, the
 * history window, the history filter, the message list sent to the model, the
 * split of the model's text into a reply and suggestions, and the two rows
 * logged afterwards. The model call and `JSON.parse` are parameters.
 */
module ChatPipeline {
  import opened Wrappers
  import opened JsValues
  import opened Http

  /** `.limit(10)` on the history query. */
  const HistoryLimit: nat := 10
  const MissingFieldsError := "Missing user_id or message"
  /** Both the fallback text for an empty completion and the body of the 500 reply. */
  const GenerationError := "Ошибка генерации"

  /** A row of the `chat_history` table. */
  datatype Turn = Turn(userId: Value, role: Value, message: Value)

  /** A fetched history row (`select('role, message')`), or a null entry. */
  datatype HistoryRow = NullRow | Row(role: Value, message: Value)

  /** An entry `{ role, content }` of the list sent to the model. */
  datatype ChatMessage = ChatMessage(role: Value, content: Value)

  /** What the completion call yields: a thrown error, or `choices[0].message.content` (null or a string). */
  datatype Completion = CompletionFailed | Completed(content: Option<string>)

  /** The visible reply and the suggestions extracted from the model's text. */
  datatype Split = Split(reply: string, suggestions: Value)

  /** The response of one chat request and the rows it asks the history table to append. */
  datatype TurnResult = TurnResult(response: Response, logged: seq<Turn>)

  // ---------------------------------------------------------------------------
  // The history window
  // ---------------------------------------------------------------------------

  /**
   * The rows of `table` whose `user_id` equals `userId` (`.eq('user_id', user_id)`),
   * in table order, each as often as the table holds it.
   */
  function UserTurns(table: seq<Turn>, userId: Value): (r: seq<Turn>)
    ensures |r| <= |table|
    ensures forall t :: t in r <==> t in table && t.userId == userId
  {
    if table == [] then []
    else
      var last := table[|table| - 1];
      UserTurns(table[..|table| - 1], userId) + (if last.userId == userId then [last] else [])
  }

  lemma {:induction false} UserTurnsAppend(a: seq<Turn>, b: seq<Turn>, userId: Value)
    ensures UserTurns(a + b, userId) == UserTurns(a, userId) + UserTurns(b, userId)
    decreases |b|
  {
    if b == [] {
      assert a + b == a;
    } else {
      var b', last := b[..|b| - 1], b[|b| - 1];
      var tail := if last.userId == userId then [last] else [];
      assert (a + b)[..|a + b| - 1] == a + b';
      assert (a + b)[|a + b| - 1] == last;
      calc {
        UserTurns(a + b, userId);
        UserTurns(a + b', userId) + tail;
        { UserTurnsAppend(a, b', userId); }
        UserTurns(a, userId) + UserTurns(b', userId) + tail;
        UserTurns(a, userId) + (UserTurns(b', userId) + tail);
        UserTurns(a, userId) + UserTurns(b, userId);
      }
    }
  }

  /**
   * The history query: the user's rows ordered by ascending `created_at`
   * (table order) and cut to the first ten, so the OLDEST ten turns.
   */
  function FetchHistory(table: seq<Turn>, userId: Value): (r: seq<HistoryRow>)
    ensures |r| <= HistoryLimit
    ensures var mine := UserTurns(table, userId);
      && |r| == (if |mine| < HistoryLimit then |mine| else HistoryLimit)
      && forall i :: 0 <= i < |r| ==> r[i] == Row(mine[i].role, mine[i].message)
  {
    var mine := UserTurns(table, userId);
    var n := if |mine| < HistoryLimit then |mine| else HistoryLimit;
    seq(n, i requires 0 <= i < n => Row(mine[i].role, mine[i].message))
  }

  /** Each of the user's rows is selected exactly as often as the table holds it; no other row is. */
  lemma {:induction false} UserTurnsCounts(table: seq<Turn>, userId: Value)
    ensures forall t :: multiset(UserTurns(table, userId))[t] == if t.userId == userId then multiset(table)[t] else 0
  {
    if table != [] {
      var init, last := table[..|table| - 1], table[|table| - 1];
      UserTurnsCounts(init, userId);
      assert table == init + [last];
    }
  }

  /**
   * Once a user has ten rows, the window never moves again: whatever is appended
   * later, the model is shown the same ten oldest turns.
   */
  lemma HistoryWindowFreezes(table: seq<Turn>, later: seq<Turn>, userId: Value)
    requires |UserTurns(table, userId)| >= HistoryLimit
    ensures FetchHistory(table + later, userId) == FetchHistory(table, userId)
  {
    UserTurnsAppend(table, later, userId);
  }

  // ---------------------------------------------------------------------------
  // The history filter and the message list
  // ---------------------------------------------------------------------------

  /**
   * The filter's test: a non-null row whose `message` is a string and whose `role`
   * is the string 'user' or 'assistant' (the `!== null` tests are implied).
   */
  predicate Keep(h: HistoryRow)
  {
    h.Row? && h.message.Str? && (h.role == Str("user") || h.role == Str("assistant"))
  }

  /** `a` occurs in `b` in the same order, possibly with gaps. */
  predicate IsSubsequence<T(==)>(a: seq<T>, b: seq<T>)
    decreases |b|
  {
    a == [] || (b != [] && if a[0] == b[0] then IsSubsequence(a[1..], b[1..]) else IsSubsequence(a, b[1..]))
  }

  /** `history.filter(...)`: the kept rows, in their original order, each as often as it was fetched. */
  function FilterHistory(rows: seq<HistoryRow>): (r: seq<HistoryRow>)
    ensures |r| <= |rows|
    ensures forall h :: h in r <==> h in rows && Keep(h)
    ensures IsSubsequence(r, rows)
  {
    if rows == [] then []
    else if Keep(rows[0]) then
      var rest := FilterHistory(rows[1..]);
      assert ([rows[0]] + rest)[1..] == rest;
      [rows[0]] + rest
    else FilterHistory(rows[1..])
  }

  /** Each kept row appears exactly as often as it was fetched; no dropped row appears. */
  lemma {:induction false} FilterHistoryCounts(rows: seq<HistoryRow>)
    ensures forall h :: multiset(FilterHistory(rows))[h] == if Keep(h) then multiset(rows)[h] else 0
  {
    if rows != [] {
      FilterHistoryCounts(rows[1..]);
      assert rows == [rows[0]] + rows[1..];
    }
  }

  /** Filtering distributes over concatenation, so each row is judged on its own. */
  lemma {:induction false} FilterHistoryAppend(a: seq<HistoryRow>, b: seq<HistoryRow>)
    ensures FilterHistory(a + b) == FilterHistory(a) + FilterHistory(b)
  {
    if a == [] {
      assert a + b == b;
    } else {
      assert (a + b)[0] == a[0];
      assert (a + b)[1..] == a[1..] + b;
      FilterHistoryAppend(a[1..], b);
    }
  }

  /**
   * The list sent to the model: the system prompt, the filtered history mapped
   * to `{ role, content }`, then the new user message.
   */
  function Messages(prompt: string, filtered: seq<HistoryRow>, message: Value): (r: seq<ChatMessage>)
    requires forall h :: h in filtered ==> h.Row?
    ensures |r| == |filtered| + 2
    ensures r[0] == ChatMessage(Str("system"), Str(prompt))
    ensures r[|r| - 1] == ChatMessage(Str("user"), message)
    ensures forall i :: 0 < i < |r| - 1 ==> r[i] == ChatMessage(filtered[i - 1].role, filtered[i - 1].message)
  {
    [ChatMessage(Str("system"), Str(prompt))]
      + seq(|filtered|, i requires 0 <= i < |filtered| => ChatMessage(filtered[i].role, filtered[i].message))
      + [ChatMessage(Str("user"), message)]
  }

  /**
   * What reaches the model from the store: at most twelve messages, and between
   * the system prompt and the new message only 'user' and 'assistant' entries with
   * string content, each one a stored row of this user.
   */
  lemma SentMessagesSanitized(prompt: string, table: seq<Turn>, userId: Value, message: Value)
    ensures var filtered := FilterHistory(FetchHistory(table, userId));
      var r := Messages(prompt, filtered, message);
      && |r| <= HistoryLimit + 2
      && forall i :: 0 < i < |r| - 1 ==>
           && (r[i].role == Str("user") || r[i].role == Str("assistant"))
           && r[i].content.Str?
           && Turn(userId, r[i].role, r[i].content) in table
  {
    var fetched := FetchHistory(table, userId);
    var filtered := FilterHistory(fetched);
    var r := Messages(prompt, filtered, message);
    var mine := UserTurns(table, userId);
    forall i | 0 < i < |r| - 1
      ensures r[i].role == Str("user") || r[i].role == Str("assistant")
      ensures r[i].content.Str?
      ensures Turn(userId, r[i].role, r[i].content) in table
    {
      assert filtered[i - 1] in filtered;
      assert Keep(filtered[i - 1]) && filtered[i - 1] in fetched;
      var j :| 0 <= j < |fetched| && fetched[j] == filtered[i - 1];
      assert mine[j] in mine;
      assert mine[j] == Turn(userId, r[i].role, r[i].content);
    }
  }

  // ---------------------------------------------------------------------------
  // Splitting the reply from the suggestions
  // ---------------------------------------------------------------------------

  /** `completion.choices[0].message.content || 'Ошибка генерации'` */
  function RawResponse(content: Option<string>): (r: string)
    ensures r != ""
    ensures content.Some? && content.value != "" ==> r == content.value
    ensures content.None? || content.value == "" ==> r == GenerationError
  {
    if content.Some? && content.value != "" then content.value else GenerationError
  }

  /**
   * `parsed.suggestions`: None where JavaScript throws a TypeError (a parsed
   * `null`). A JSON array, string, number or boolean has no such property.
   */
  function GetSuggestions(parsed: Value): (r: Option<Value>)
    ensures r.None? <==> parsed.Null? || parsed.Undefined?
    ensures parsed.Obj? && "suggestions" in parsed.props ==> r == Some(parsed.props["suggestions"])
    ensures r.Some? && !(parsed.Obj? && "suggestions" in parsed.props) ==> r == Some(Undefined)
  {
    match parsed
    case Undefined => None
    case Null => None
    case Obj(props) => Some(if "suggestions" in props then props["suggestions"] else Undefined)
    case _ => Some(Undefined)
  }

  /**
   * The try block of the handler: parse the text from the last `{` on; on success
   * the reply is the trimmed text before it and the suggestions are the parsed
   * `suggestions` when truthy; on any exception the reply is the raw text and the
   * suggestions stay `[]`. `parse` is `JSON.parse`, None where it throws.
   */
  function SplitReply(raw: string, parse: string -> Option<Value>): (r: Split)
    ensures |r.reply| <= |raw|
    ensures r.reply == raw || r.reply == Trim(SliceUpTo(raw, LastIndexOf(raw, '{')))
    ensures r.suggestions == Arr([]) || Truthy(r.suggestions)
    ensures r.suggestions != Arr([]) ==> r.reply == Trim(SliceUpTo(raw, LastIndexOf(raw, '{')))
  {
    var jsonStart := LastIndexOf(raw, '{');
    var jsonPart := SliceFrom(raw, jsonStart);
    match parse(jsonPart)
    case None => Split(raw, Arr([]))
    case Some(parsed) =>
      match GetSuggestions(parsed)
      case None => Split(raw, Arr([]))
      case Some(s) => Split(Trim(SliceUpTo(raw, jsonStart)), if Truthy(s) then s else Arr([]))
  }

  /** In `prefix + "{" + rest` with no `{` in `rest`, the JSON part is `"{" + rest` and the text before it is `prefix`. */
  lemma LastBraceSplit(prefix: string, rest: string)
    requires '{' !in rest
    ensures var raw := prefix + "{" + rest;
      && LastIndexOf(raw, '{') == |prefix|
      && SliceFrom(raw, |prefix|) == "{" + rest
      && SliceUpTo(raw, |prefix|) == prefix
  {
    var raw := prefix + "{" + rest;
    var k := LastIndexOf(raw, '{');
    assert raw[|prefix|] == '{';
    assert raw[|prefix|..] == "{" + rest;
    assert raw[..|prefix|] == prefix;
  }

  /**
   * When the text from the last `{` parses to an object, the reply is the trimmed
   * text before that brace and the suggestions are the object's `suggestions`
   * when truthy, else `[]`.
   */
  lemma SplitParsedObject(prefix: string, rest: string, props: map<string, Value>, parse: string -> Option<Value>)
    requires '{' !in rest
    requires parse("{" + rest) == Some(Obj(props))
    ensures var r := SplitReply(prefix + "{" + rest, parse);
      && r.reply == Trim(prefix)
      && r.suggestions == (if "suggestions" in props && Truthy(props["suggestions"]) then props["suggestions"] else Arr([]))
  {
    LastBraceSplit(prefix, rest);
  }

  /** When the text from the last `{` does not parse, the whole raw text is the reply and there are no suggestions. */
  lemma SplitUnparsable(prefix: string, rest: string, parse: string -> Option<Value>)
    requires '{' !in rest
    requires parse("{" + rest).None?
    ensures SplitReply(prefix + "{" + rest, parse) == Split(prefix + "{" + rest, Arr([]))
  {
    LastBraceSplit(prefix, rest);
  }

  /**
   * A text that parses to `null` makes `parsed.suggestions` throw; the handler
   * falls back to the raw text. The real `JSON.parse` never reaches this branch
   * (a text starting with `{` parses to an object or throws, and a single
   * character is never `null`); it shows that the catch covers the case.
   */
  lemma SplitParsedNull(prefix: string, rest: string, parse: string -> Option<Value>)
    requires '{' !in rest
    requires parse("{" + rest) == Some(Null)
    ensures SplitReply(prefix + "{" + rest, parse) == Split(prefix + "{" + rest, Arr([]))
  {
    LastBraceSplit(prefix, rest);
  }

  /**
   * With no `{` at all, `lastIndexOf` gives -1 and `slice(-1)` is the last character.
   * If that character alone parses (a trailing digit, say), the reply silently
   * loses it: the reply is the text without its last character, trimmed.
   */
  lemma TrailingCharacterDropped(body: string, c: char, v: Value, parse: string -> Option<Value>)
    requires '{' !in body && c != '{'
    requires parse([c]) == Some(v) && v != Null && v != Undefined
    ensures SplitReply(body + [c], parse).reply == Trim(body)
    ensures |SplitReply(body + [c], parse).reply| < |body + [c]|
  {
    var raw := body + [c];
    assert raw[|raw| - 1] == c;
    assert LastIndexOf(raw, '{') == -1 by {
      assert forall k :: 0 <= k < |raw| ==> raw[k] != '{' by {
        forall k | 0 <= k < |raw| ensures raw[k] != '{' {
          if k < |body| { assert raw[k] == body[k]; }
        }
      }
    }
    assert SliceFrom(raw, -1) == [c];
    assert SliceUpTo(raw, -1) == body;
  }

  /** With no `{` and a last character that does not parse, the reply is the whole text. */
  lemma NoBraceUnparsable(raw: string, parse: string -> Option<Value>)
    requires '{' !in raw && raw != []
    requires parse([raw[|raw| - 1]]).None?
    ensures SplitReply(raw, parse) == Split(raw, Arr([]))
  {
    assert LastIndexOf(raw, '{') == -1;
    assert SliceFrom(raw, -1) == [raw[|raw| - 1]];
  }

  // ---------------------------------------------------------------------------
  // One chat request
  // ---------------------------------------------------------------------------

  /** The list sent to the model for a request: the window read (or `[]`), filtered, between the prompt and the message. */
  function SentMessages(prompt: string, table: seq<Turn>, readOk: bool, userId: Value, message: Value): seq<ChatMessage>
  {
    Messages(prompt, FilterHistory(if readOk then FetchHistory(table, userId) else []), message)
  }

  /**
   * One `/api/chat` request against the history table `table`. `readOk` is false
   * when the history query yields no data (`history || []`), `llm` is the
   * completion call and `parse` is `JSON.parse`. The result is the response and
   * the rows the handler inserts after the completion.
   */
  function ChatTurn(prompt: string, table: seq<Turn>, readOk: bool, userId: Value, message: Value,
                    llm: seq<ChatMessage> -> Completion, parse: string -> Option<Value>): (t: TurnResult)
    ensures t.response.status == 400 <==> !Truthy(userId) || !Truthy(message)
    ensures t.response.status == 400 ==> t.response.body == ErrorBody(MissingFieldsError)
    ensures t.response.status == 500 ==> t.response.body == ErrorBody(GenerationError)
    ensures t.response.status in {200, 400, 500}
    ensures t.response.status != 200 ==> t.logged == []
    ensures t.response.status == 200 ==>
      && t.response.body.ChatReply?
      && t.logged == [Turn(userId, Str("user"), message), Turn(userId, Str("assistant"), Str(t.response.body.reply))]
  {
    if !Truthy(userId) || !Truthy(message) then
      TurnResult(Response(400, ErrorBody(MissingFieldsError)), [])
    else
      match llm(SentMessages(prompt, table, readOk, userId, message))
      case CompletionFailed => TurnResult(Response(500, ErrorBody(GenerationError)), [])
      case Completed(content) =>
        var split := SplitReply(RawResponse(content), parse);
        TurnResult(Response(200, ChatReply(split.reply, split.suggestions)),
                   [Turn(userId, Str("user"), message), Turn(userId, Str("assistant"), Str(split.reply))])
  }

  /**
   * A valid request is answered 500 exactly when the model call throws, and 200
   * otherwise, whatever text the model returns.
   */
  lemma ChatStatusFollowsModel(prompt: string, table: seq<Turn>, readOk: bool, userId: Value, message: Value,
                               llm: seq<ChatMessage> -> Completion, parse: string -> Option<Value>)
    requires Truthy(userId) && Truthy(message)
    ensures var t := ChatTurn(prompt, table, readOk, userId, message, llm, parse);
      && t.response.status == (if llm(SentMessages(prompt, table, readOk, userId, message)).CompletionFailed? then 500 else 200)
      && (t.response.status == 500 ==> t.response.body == ErrorBody(GenerationError) && t.logged == [])
  {
  }

  /**
   * End to end: when the model's text ends in a JSON object after its last `{`,
   * the user sees the trimmed text before that brace, the object's truthy
   * `suggestions` (else `[]`), and the assistant row logged holds that same reply.
   */
  lemma ChatRepliesBeforeBrace(prompt: string, table: seq<Turn>, readOk: bool, userId: Value, message: Value,
                               llm: seq<ChatMessage> -> Completion, parse: string -> Option<Value>,
                               prefix: string, rest: string, props: map<string, Value>)
    requires Truthy(userId) && Truthy(message)
    requires '{' !in rest
    requires llm(SentMessages(prompt, table, readOk, userId, message)) == Completed(Some(prefix + "{" + rest))
    requires parse("{" + rest) == Some(Obj(props))
    ensures var t := ChatTurn(prompt, table, readOk, userId, message, llm, parse);
      && t.response.status == 200
      && t.response.body == ChatReply(Trim(prefix),
           if "suggestions" in props && Truthy(props["suggestions"]) then props["suggestions"] else Arr([]))
      && t.logged == [Turn(userId, Str("user"), message), Turn(userId, Str("assistant"), Str(Trim(prefix)))]
  {
    SplitParsedObject(prefix, rest, props, parse);
  }

  /**
   * End to end: when the text after the model's last `{` does not parse, the
   * user sees the whole text with no suggestions, and the assistant row logged
   * holds the whole text.
   */
  lemma ChatRepliesWholeText(prompt: string, table: seq<Turn>, readOk: bool, userId: Value, message: Value,
                             llm: seq<ChatMessage> -> Completion, parse: string -> Option<Value>,
                             prefix: string, rest: string)
    requires Truthy(userId) && Truthy(message)
    requires '{' !in rest
    requires llm(SentMessages(prompt, table, readOk, userId, message)) == Completed(Some(prefix + "{" + rest))
    requires parse("{" + rest).None?
    ensures var t := ChatTurn(prompt, table, readOk, userId, message, llm, parse);
      && t.response == Response(200, ChatReply(prefix + "{" + rest, Arr([])))
      && t.logged == [Turn(userId, Str("user"), message), Turn(userId, Str("assistant"), Str(prefix + "{" + rest))]
  {
    SplitUnparsable(prefix, rest, parse);
  }
}
