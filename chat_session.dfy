/**
 * One user turn of the single-shot agent (process_message): the chat history
 * the UI owns is updated in place, the model is asked at most twice, and a
 * single google_search call may run in between.
 */
module ChatSession {
  import opened Wrappers
  import opened JsonValues
  import opened PyText
  import opened FuncCall

  /**
   * The collaborators of a turn, as oracles: the model (ollama.chat: the reply
   * text, or the text of the exception it raised), json.loads with
   * FunctionCall(**data), the text of pydantic's error for parameters it
   * rejects, and the web search (google_search: the first hit, or the text of
   * its exception).
   */
  datatype Services = Services(
    chat: seq<ChatMessage> -> Result<string, string>,
    decodeCall: string -> Option<FunctionCall>,
    invalidParameters: map<string, JsonValue> -> string,
    search: string -> Result<SearchResult, string>)

  /** N: how many recent history entries a prompt may replay. */
  const MEMORY_WINDOW: nat := 6

  /** The only call name that triggers a search. */
  const SEARCH_FUNCTION: string := "google_search"

  /** SearchParameters(**parameters).query: a "query" entry holding a string; other entries are ignored. */
  function SearchQuery(parameters: map<string, JsonValue>, svc: Services): (r: Result<string, string>)
    ensures r.Success? <==> "query" in parameters && parameters["query"].JString?
    ensures r.Success? ==> parameters["query"] == JString(r.value)
    ensures r.Failure? ==> r.error == svc.invalidParameters(parameters)
  {
    if "query" in parameters && parameters["query"].JString? then Success(parameters["query"].str)
    else Failure(svc.invalidParameters(parameters))
  }

  /** The placeholder shown while the search runs. */
  function SearchingInfo(query: string): string {
    "Searching for: " + query
  }

  /** The status that replaces the placeholder once the search returns. */
  function SearchedInfo(query: string, result: SearchResult): string {
    "Searched for: " + query + "\n\nResult:\n" + result.ToString()
  }

  /** The assistant message that reports an exception raised anywhere in the turn. */
  function ErrorMessage(error: string): ChatMessage {
    ChatMessage(Assistant, "An error occurred: " + error)
  }

  /** The assistant message holding the answer given after a search. */
  function SearchAnswer(answer: string): ChatMessage {
    ChatMessage(Assistant, " Response:\n" + answer)
  }

  function Last<T>(s: seq<T>): T
    requires s != []
  {
    s[|s| - 1]
  }

  /**
   * The history the UI sees at each yield of process_message, in order; the
   * last one is the history the turn leaves behind.
   */
  function Turn(history: seq<ChatMessage>, userInput: string, systemPrompt: string, svc: Services)
    : (r: seq<seq<ChatMessage>>)
    ensures 1 <= |r| <= 3
  {
    var h1 := history + [ChatMessage(User, userInput)];
    match svc.chat(BuildMessages(h1, Some(userInput), systemPrompt, MEMORY_WINDOW, None))
    case Failure(e) => [h1 + [ErrorMessage(e)]]
    case Success(reply) => AfterReply(h1, reply, systemPrompt, svc)
  }

  /** The rest of a turn once the model has replied: a search when the reply is a google_search call, else the reply itself. */
  function AfterReply(h1: seq<ChatMessage>, reply: string, systemPrompt: string, svc: Services)
    : (r: seq<seq<ChatMessage>>)
    ensures 1 <= |r| <= 3
  {
    var call := ParseFunctionCall(reply, svc.decodeCall);
    if call.Some? && call.value.name == SEARCH_FUNCTION then
      match SearchQuery(call.value.parameters, svc)
      case Failure(e) => [h1 + [ErrorMessage(e)]]
      case Success(query) => SearchPhase(h1, query, systemPrompt, svc)
    else
      [h1 + [ChatMessage(Assistant, reply)]]
  }

  /** The search, the overwritten placeholder, and the second model call. */
  function SearchPhase(h1: seq<ChatMessage>, query: string, systemPrompt: string, svc: Services)
    : (r: seq<seq<ChatMessage>>)
    ensures 2 <= |r| <= 3
    ensures r[0] == h1 + [ChatMessage(Assistant, SearchingInfo(query))]
  {
    var h2 := h1 + [ChatMessage(Assistant, SearchingInfo(query))];
    match svc.search(query)
    case Failure(e) => [h2, h2 + [ErrorMessage(e)]]
    case Success(result) =>
      var h3 := h1 + [ChatMessage(Assistant, SearchedInfo(query, result))];
      match svc.chat(BuildMessages(h3, None, systemPrompt, MEMORY_WINDOW, Some(result)))
      case Failure(e) => [h2, h3, h3 + [ErrorMessage(e)]]
      case Success(answer) => [h2, h3, h3 + [SearchAnswer(answer)]]
  }

  /** Every snapshot keeps h1 in front and adds one or two entries after it. */
  ghost predicate GrowsFrom(snapshots: seq<seq<ChatMessage>>, h1: seq<ChatMessage>) {
    && |snapshots| >= 1
    && forall s :: s in snapshots ==> h1 <= s && |h1| + 1 <= |s| <= |h1| + 2
  }

  lemma SearchPhaseGrows(h1: seq<ChatMessage>, query: string, systemPrompt: string, svc: Services)
    ensures GrowsFrom(SearchPhase(h1, query, systemPrompt, svc), h1)
  {
    var h2 := h1 + [ChatMessage(Assistant, SearchingInfo(query))];
    assert h1 <= h2;
    match svc.search(query)
    case Failure(e) =>
      assert h1 <= h2 + [ErrorMessage(e)];
    case Success(result) =>
      var h3 := h1 + [ChatMessage(Assistant, SearchedInfo(query, result))];
      assert h1 <= h3;
      var last := SearchPhase(h1, query, systemPrompt, svc)[2];
      assert exists m :: last == h3 + [m];
  }

  lemma AfterReplyGrows(h1: seq<ChatMessage>, reply: string, systemPrompt: string, svc: Services)
    ensures GrowsFrom(AfterReply(h1, reply, systemPrompt, svc), h1)
  {
    var call := ParseFunctionCall(reply, svc.decodeCall);
    if call.Some? && call.value.name == SEARCH_FUNCTION {
      match SearchQuery(call.value.parameters, svc)
      case Failure(e) =>
        assert h1 <= h1 + [ErrorMessage(e)];
      case Success(query) =>
        SearchPhaseGrows(h1, query, systemPrompt, svc);
    } else {
      assert h1 <= h1 + [ChatMessage(Assistant, reply)];
    }
  }

  /**
   * Every history a turn shows keeps the earlier history and the new user
   * turn in front, and the turn ends two or three entries longer.
   */
  lemma TurnExtendsHistory(history: seq<ChatMessage>, userInput: string, systemPrompt: string, svc: Services)
    ensures var snaps := Turn(history, userInput, systemPrompt, svc);
            && |snaps| >= 1
            && (forall s :: s in snaps ==> history + [ChatMessage(User, userInput)] <= s)
            && (|Last(snaps)| == |history| + 2 || |Last(snaps)| == |history| + 3)
  {
    var h1 := history + [ChatMessage(User, userInput)];
    match svc.chat(BuildMessages(h1, Some(userInput), systemPrompt, MEMORY_WINDOW, None))
    case Failure(e) =>
      assert h1 <= h1 + [ErrorMessage(e)];
    case Success(reply) =>
      AfterReplyGrows(h1, reply, systemPrompt, svc);
      var snaps := Turn(history, userInput, systemPrompt, svc);
      assert Last(snaps) in snaps;
  }

  /** The chat history list that the UI owns and process_message mutates. */
  class ChatHistory {
    var messages: seq<ChatMessage>

    constructor (initial: seq<ChatMessage>)
      ensures messages == initial
    {
      messages := initial;
    }

    /** list.append */
    method Append(m: ChatMessage)
      modifies this
      ensures messages == old(messages) + [m]
    {
      messages := messages + [m];
    }

    /** history[-1] = m */
    method ReplaceLast(m: ChatMessage)
      requires messages != []
      modifies this
      ensures messages == old(messages)[..|old(messages)| - 1] + [m]
    {
      messages := messages[..|messages| - 1] + [m];
    }
  }

  /**
   * The search branch of process_message: show the
   * placeholder, search, overwrite the placeholder with the result and ask
   * the model again. None: an exception was raised and recorded as the
   * error message; Some(answer): the second reply, not yet recorded.
   */
  method SearchAndAsk(chatHistory: ChatHistory, query: string, systemPrompt: string, svc: Services)
    returns (snapshots: seq<seq<ChatMessage>>, searchInfo: string, answer: Option<string>)
    modifies chatHistory
    ensures answer.None? ==>
              snapshots == SearchPhase(old(chatHistory.messages), query, systemPrompt, svc) && chatHistory.messages == Last(snapshots)
    ensures answer.Some? ==>
              searchInfo != "" &&
              SearchPhase(old(chatHistory.messages), query, systemPrompt, svc) ==
              snapshots + [chatHistory.messages + [SearchAnswer(answer.value)]]
  {
    ghost var h1 := chatHistory.messages;
    searchInfo := SearchingInfo(query);
    chatHistory.Append(ChatMessage(Assistant, searchInfo));
    ghost var h2 := chatHistory.messages;
    snapshots := [chatHistory.messages];
    var found := svc.search(query);
    if found.Failure? {
      chatHistory.Append(ErrorMessage(found.error));
      snapshots := snapshots + [chatHistory.messages];
      return snapshots, searchInfo, None;
    }
    searchInfo := SearchedInfo(query, found.value);
    chatHistory.ReplaceLast(ChatMessage(Assistant, searchInfo));
    ghost var h3 := h1 + [ChatMessage(Assistant, searchInfo)];
    assert chatHistory.messages == h3;
    snapshots := snapshots + [chatHistory.messages];
    var messages := BuildMessages(chatHistory.messages, None, systemPrompt, MEMORY_WINDOW, Some(found.value));
    var finalResponse := svc.chat(messages);
    if finalResponse.Failure? {
      chatHistory.Append(ErrorMessage(finalResponse.error));
      snapshots := snapshots + [chatHistory.messages];
      assert snapshots == [h2, h3, h3 + [ErrorMessage(finalResponse.error)]];
      return snapshots, searchInfo, None;
    }
    answer := Some(finalResponse.value);
    assert SearchPhase(h1, query, systemPrompt, svc) == [h2, h3, h3 + [SearchAnswer(finalResponse.value)]];
  }

  /**
   * process_message: records the user turn, asks the model, runs a search when
   * the reply is a google_search call, and records the answer; any exception
   * is recorded as an error message instead. Returns what each yield showed.
   */
  method ProcessMessage(userInput: string, chatHistory: ChatHistory, systemPrompt: string, svc: Services)
    returns (snapshots: seq<seq<ChatMessage>>)
    modifies chatHistory
    ensures snapshots == Turn(old(chatHistory.messages), userInput, systemPrompt, svc)
    ensures chatHistory.messages == Last(snapshots)
  {
    chatHistory.Append(ChatMessage(User, userInput));
    ghost var h1 := chatHistory.messages;
    var searchInfo: Option<string> := None;
    var messages := BuildMessages(chatHistory.messages, Some(userInput), systemPrompt, MEMORY_WINDOW, None);
    var response := svc.chat(messages);
    if response.Failure? {
      chatHistory.Append(ErrorMessage(response.error));
      snapshots := [chatHistory.messages];
      return;
    }
    var modelResponse := response.value;
    assert Turn(old(chatHistory.messages), userInput, systemPrompt, svc) == AfterReply(h1, modelResponse, systemPrompt, svc);
    var functionCall := ParseFunctionCall(modelResponse, svc.decodeCall);
    var assistantResponse: string;
    snapshots := [];
    if functionCall.Some? && functionCall.value.name == SEARCH_FUNCTION {
      var searchParams := SearchQuery(functionCall.value.parameters, svc);
      if searchParams.Failure? {
        chatHistory.Append(ErrorMessage(searchParams.error));
        snapshots := [chatHistory.messages];
        return;
      }
      var searchQuery := searchParams.value;
      assert AfterReply(h1, modelResponse, systemPrompt, svc) == SearchPhase(h1, searchQuery, systemPrompt, svc);
      var info, answer;
      snapshots, info, answer := SearchAndAsk(chatHistory, searchQuery, systemPrompt, svc);
      if answer.None? {
        return;
      }
      searchInfo := Some(info);
      assistantResponse := answer.value;
    } else {
      assistantResponse := modelResponse;
    }
    // Python's `if search_info:` is false for None and for the empty string.
    if searchInfo.Some? && searchInfo.value != "" {
      chatHistory.Append(SearchAnswer(assistantResponse));
    } else {
      chatHistory.Append(ChatMessage(Assistant, assistantResponse));
    }
    snapshots := snapshots + [chatHistory.messages];
  }

  // ---------------------------------------------------------------------
  // Properties of a turn

  /** The first prompt of a turn: the model sees its own user turn last. */
  function FirstPrompt(history: seq<ChatMessage>, userInput: string, systemPrompt: string): seq<ChatMessage> {
    BuildMessages(history + [ChatMessage(User, userInput)], Some(userInput), systemPrompt, MEMORY_WINDOW, None)
  }

  /**
   * The first prompt ends with the user turn. Once the history (with the new
   * turn) is longer than the window, the window already ends with that turn,
   * so the model sees it twice; a shorter history is replayed without it.
   */
  lemma FirstPromptRepeatsLongTurn(history: seq<ChatMessage>, userInput: string, systemPrompt: string)
    ensures var p := FirstPrompt(history, userInput, systemPrompt);
            && |p| >= 2 && p[0] == ChatMessage(System, systemPrompt)
            && Last(p) == ChatMessage(User, userInput)
            && (|history| >= MEMORY_WINDOW ==> p[|p| - 2] == ChatMessage(User, userInput))
            && (|history| < MEMORY_WINDOW ==> p == [p[0]] + FilterMemory(history) + [Last(p)])
  {
    var u := ChatMessage(User, userInput);
    var h1 := history + [u];
    var p := FirstPrompt(history, userInput, systemPrompt);
    BuildMessagesLayout(h1, Some(userInput), systemPrompt, MEMORY_WINDOW, None);
    var memory := FilterMemory(Window(h1, MEMORY_WINDOW));
    assert p == [p[0]] + memory + [u];
    var older := WindowOfNewTurn(history, u, MEMORY_WINDOW);
    if |history| >= MEMORY_WINDOW {
      UserTurnSurvivesFilter(older, u);
      assert p[|p| - 2] == memory[|memory| - 1];
    }
  }

  /** With the new turn appended, the window is the older entries it keeps plus, for a long history, the turn itself. */
  lemma WindowOfNewTurn(history: seq<ChatMessage>, u: ChatMessage, n: nat) returns (older: seq<ChatMessage>)
    requires n > 0
    ensures |history| >= n ==> Window(history + [u], n) == older + [u]
    ensures |history| < n ==> Window(history + [u], n) == history
  {
    var h1 := history + [u];
    if |history| >= n {
      older := h1[|h1| - n..|h1| - 1];
      assert h1[|h1| - n..] == older + [u];
    } else {
      older := [];
      assert h1[..|h1| - 1] == history;
    }
  }

  /** A user turn at the end of a window survives the filter as its last entry. */
  lemma UserTurnSurvivesFilter(older: seq<ChatMessage>, u: ChatMessage)
    requires u.role == User
    ensures FilterMemory(older + [u]) == FilterMemory(older) + [u]
  {
    FilterMemoryAppend(older, [u]);
    assert FilterMemory([u]) == [u];
  }

  /** A turn whose model reply is not a google_search call never searches, whatever the search would give. */
  lemma NoSearchCallNoSearch(history: seq<ChatMessage>, userInput: string, systemPrompt: string, svc: Services,
                             otherSearch: string -> Result<SearchResult, string>, reply: string)
    requires svc.chat(FirstPrompt(history, userInput, systemPrompt)) == Success(reply)
    requires var call := ParseFunctionCall(reply, svc.decodeCall); call.None? || call.value.name != SEARCH_FUNCTION
    ensures Turn(history, userInput, systemPrompt, svc) == [history + [ChatMessage(User, userInput), ChatMessage(Assistant, reply)]]
    ensures Turn(history, userInput, systemPrompt, svc) == Turn(history, userInput, systemPrompt, svc.(search := otherSearch))
  {
    var h1 := history + [ChatMessage(User, userInput)];
    assert Turn(history, userInput, systemPrompt, svc) == [h1 + [ChatMessage(Assistant, reply)]];
    assert h1 + [ChatMessage(Assistant, reply)] == history + [ChatMessage(User, userInput), ChatMessage(Assistant, reply)];
  }

  /** A model failure on the first call leaves the user turn followed by the error report. */
  lemma ModelFailureRecorded(history: seq<ChatMessage>, userInput: string, systemPrompt: string, svc: Services, e: string)
    requires svc.chat(FirstPrompt(history, userInput, systemPrompt)) == Failure(e)
    ensures Turn(history, userInput, systemPrompt, svc) ==
            [history + [ChatMessage(User, userInput), ChatMessage(Assistant, "An error occurred: " + e)]]
  {
    var h1 := history + [ChatMessage(User, userInput)];
    assert Turn(history, userInput, systemPrompt, svc) == [h1 + [ErrorMessage(e)]];
    assert h1 + [ErrorMessage(e)] == history + [ChatMessage(User, userInput), ErrorMessage(e)];
  }

  /**
   * A successful search turn shows the placeholder, then overwrites it in
   * place, so the turn leaves exactly the user turn, the search status and
   * the answer; the second prompt ends with the observation and replays no
   * status message.
   */
  lemma SearchTurnShape(history: seq<ChatMessage>, userInput: string, systemPrompt: string, svc: Services,
                        reply: string, call: FunctionCall, query: string, result: SearchResult, answer: string)
    requires svc.chat(FirstPrompt(history, userInput, systemPrompt)) == Success(reply)
    requires ParseFunctionCall(reply, svc.decodeCall) == Some(call) && call.name == SEARCH_FUNCTION
    requires "query" in call.parameters && call.parameters["query"] == JString(query)
    requires svc.search(query) == Success(result)
    requires var h3 := history + [ChatMessage(User, userInput), ChatMessage(Assistant, SearchedInfo(query, result))];
             svc.chat(BuildMessages(h3, None, systemPrompt, MEMORY_WINDOW, Some(result))) == Success(answer)
    ensures var snaps := Turn(history, userInput, systemPrompt, svc);
            && |snaps| == 3
            && snaps[0] == history + [ChatMessage(User, userInput), ChatMessage(Assistant, "Searching for: " + query)]
            && Last(snaps) == history + [ChatMessage(User, userInput),
                                         ChatMessage(Assistant, SearchedInfo(query, result)),
                                         ChatMessage(Assistant, " Response:\n" + answer)]
    ensures var h3 := history + [ChatMessage(User, userInput), ChatMessage(Assistant, SearchedInfo(query, result))];
            var p := BuildMessages(h3, None, systemPrompt, MEMORY_WINDOW, Some(result));
            && Last(p) == ChatMessage(User, ObservationPrompt(result))
            && forall m :: m in p ==> !IsStatus(m)
  {
    var u := ChatMessage(User, userInput);
    var h1 := history + [u];
    var h2 := h1 + [ChatMessage(Assistant, SearchingInfo(query))];
    var h3 := h1 + [ChatMessage(Assistant, SearchedInfo(query, result))];
    assert h2 == history + [u, ChatMessage(Assistant, "Searching for: " + query)];
    assert h3 == history + [u, ChatMessage(Assistant, SearchedInfo(query, result))];
    SearchTurn(history, userInput, systemPrompt, svc, reply, call, query);
    assert SearchPhase(h1, query, systemPrompt, svc) == [h2, h3, h3 + [SearchAnswer(answer)]];
    SecondPromptEndsWithObservation(h3, systemPrompt, result);
  }

  /** A valid google_search call hands the rest of the turn to the search phase. */
  lemma SearchTurn(history: seq<ChatMessage>, userInput: string, systemPrompt: string, svc: Services,
                   reply: string, call: FunctionCall, query: string)
    requires svc.chat(FirstPrompt(history, userInput, systemPrompt)) == Success(reply)
    requires ParseFunctionCall(reply, svc.decodeCall) == Some(call) && call.name == SEARCH_FUNCTION
    requires "query" in call.parameters && call.parameters["query"] == JString(query)
    ensures Turn(history, userInput, systemPrompt, svc) ==
            SearchPhase(history + [ChatMessage(User, userInput)], query, systemPrompt, svc)
  {
    var h1 := history + [ChatMessage(User, userInput)];
    assert Turn(history, userInput, systemPrompt, svc) == AfterReply(h1, reply, systemPrompt, svc);
    assert SearchQuery(call.parameters, svc) == Success(query);
  }

  /** The prompt of the second model call ends with the observation and shows no status message. */
  lemma SecondPromptEndsWithObservation(h3: seq<ChatMessage>, systemPrompt: string, result: SearchResult)
    ensures var p := BuildMessages(h3, None, systemPrompt, MEMORY_WINDOW, Some(result));
            && Last(p) == ChatMessage(User, ObservationPrompt(result))
            && forall m :: m in p ==> !IsStatus(m)
  {
    PromptHasNoStatus(h3, None, systemPrompt, MEMORY_WINDOW, Some(result));
    BuildMessagesLayout(h3, None, systemPrompt, MEMORY_WINDOW, Some(result));
  }

  /** A failed search keeps the placeholder and adds the error report after it. */
  lemma SearchFailureKeepsPlaceholder(history: seq<ChatMessage>, userInput: string, systemPrompt: string, svc: Services,
                                      reply: string, call: FunctionCall, query: string, e: string)
    requires svc.chat(FirstPrompt(history, userInput, systemPrompt)) == Success(reply)
    requires ParseFunctionCall(reply, svc.decodeCall) == Some(call) && call.name == SEARCH_FUNCTION
    requires "query" in call.parameters && call.parameters["query"] == JString(query)
    requires svc.search(query) == Failure(e)
    ensures Last(Turn(history, userInput, systemPrompt, svc)) ==
            history + [ChatMessage(User, userInput), ChatMessage(Assistant, "Searching for: " + query), ErrorMessage(e)]
  {
    SearchTurn(history, userInput, systemPrompt, svc, reply, call, query);
  }

  /**
   * A google_search call without a string "query" fails validation before
   * anything is shown: the turn leaves the user turn and the validation error,
   * and never searches.
   */
  lemma InvalidParametersRecorded(history: seq<ChatMessage>, userInput: string, systemPrompt: string, svc: Services,
                                  reply: string, call: FunctionCall)
    requires svc.chat(FirstPrompt(history, userInput, systemPrompt)) == Success(reply)
    requires ParseFunctionCall(reply, svc.decodeCall) == Some(call) && call.name == SEARCH_FUNCTION
    requires !("query" in call.parameters && call.parameters["query"].JString?)
    ensures Turn(history, userInput, systemPrompt, svc) ==
            [history + [ChatMessage(User, userInput), ErrorMessage(svc.invalidParameters(call.parameters))]]
  {
    var h1 := history + [ChatMessage(User, userInput)];
    var e := svc.invalidParameters(call.parameters);
    assert SearchQuery(call.parameters, svc) == Failure(e);
    assert Turn(history, userInput, systemPrompt, svc) == AfterReply(h1, reply, systemPrompt, svc) == [h1 + [ErrorMessage(e)]];
    assert h1 + [ErrorMessage(e)] == history + [ChatMessage(User, userInput), ErrorMessage(e)];
  }

  /**
   * A model failure on the second call comes after the placeholder was
   * overwritten: the turn leaves the user turn, the search status and the error
   * report.
   */
  lemma SecondCallFailureRecorded(history: seq<ChatMessage>, userInput: string, systemPrompt: string, svc: Services,
                                  reply: string, call: FunctionCall, query: string, result: SearchResult, e: string)
    requires svc.chat(FirstPrompt(history, userInput, systemPrompt)) == Success(reply)
    requires ParseFunctionCall(reply, svc.decodeCall) == Some(call) && call.name == SEARCH_FUNCTION
    requires "query" in call.parameters && call.parameters["query"] == JString(query)
    requires svc.search(query) == Success(result)
    requires var h3 := history + [ChatMessage(User, userInput), ChatMessage(Assistant, SearchedInfo(query, result))];
             svc.chat(BuildMessages(h3, None, systemPrompt, MEMORY_WINDOW, Some(result))) == Failure(e)
    ensures Last(Turn(history, userInput, systemPrompt, svc)) ==
            history + [ChatMessage(User, userInput), ChatMessage(Assistant, SearchedInfo(query, result)), ErrorMessage(e)]
  {
    var h1 := history + [ChatMessage(User, userInput)];
    var h3 := h1 + [ChatMessage(Assistant, SearchedInfo(query, result))];
    assert h3 == history + [ChatMessage(User, userInput), ChatMessage(Assistant, SearchedInfo(query, result))];
    SearchTurn(history, userInput, systemPrompt, svc, reply, call, query);
    assert Last(SearchPhase(h1, query, systemPrompt, svc)) == h3 + [ErrorMessage(e)];
  }

  /**
   * What the next turn replays of a successful search turn: the search status
   * is dropped by filter_memory, the user turn and the answer are kept.
   */
  lemma SearchStatusNotReplayed(history: seq<ChatMessage>, userInput: string, query: string, result: SearchResult, answer: string)
    ensures FilterMemory(history + [ChatMessage(User, userInput),
                                    ChatMessage(Assistant, SearchedInfo(query, result)),
                                    SearchAnswer(answer)])
            == FilterMemory(history) + [ChatMessage(User, userInput), SearchAnswer(answer)]
  {
    var status := ChatMessage(Assistant, SearchedInfo(query, result));
    assert StartsWith(status.content, SEARCHED) by {
      assert status.content[..|SEARCHED|] == SEARCHED;
    }
    assert !IsStatus(SearchAnswer(answer)) by {
      assert SearchAnswer(answer).content[0] == ' ';
    }
    var tail := [ChatMessage(User, userInput), status, SearchAnswer(answer)];
    FilterMemoryAppend(history, tail);
    assert FilterMemory(tail) == [ChatMessage(User, userInput)] + FilterMemory(tail[1..]);
    assert FilterMemory(tail[1..]) == FilterMemory(tail[2..]);
    assert FilterMemory(tail[2..]) == [SearchAnswer(answer)] + FilterMemory(tail[3..]);
  }

  /**
   * The turn after a completed search turn shows the model the earlier user
   * turn and the answer, and no status message: both sit in the window
   * whatever the length of the history.
   */
  lemma NextPromptAfterSearch(history: seq<ChatMessage>, userInput: string, query: string, result: SearchResult,
                              answer: string, nextInput: string, systemPrompt: string)
    ensures var h := history + [ChatMessage(User, userInput),
                                ChatMessage(Assistant, SearchedInfo(query, result)),
                                SearchAnswer(answer)];
            var p := FirstPrompt(h, nextInput, systemPrompt);
            && ChatMessage(User, userInput) in p
            && SearchAnswer(answer) in p
            && forall m :: m in p ==> !IsStatus(m)
  {
    var u := ChatMessage(User, userInput);
    var a := SearchAnswer(answer);
    var h := history + [u, ChatMessage(Assistant, SearchedInfo(query, result)), a];
    var h1 := h + [ChatMessage(User, nextInput)];
    var w := Window(h1, MEMORY_WINDOW);
    WindowKeepsLastTurn(history, u, ChatMessage(Assistant, SearchedInfo(query, result)), a, ChatMessage(User, nextInput));
    StatusTextsRecognised(query, result, "", answer);
    FilterMemoryMembers(w);
    BuildMessagesLayout(h1, Some(nextInput), systemPrompt, MEMORY_WINDOW, None);
    PromptHasNoStatus(h1, Some(nextInput), systemPrompt, MEMORY_WINDOW, None);
    var memory := FilterMemory(w);
    assert u in memory && a in memory;
  }

  /** The window of the next turn still holds the three entries of the turn before it. */
  lemma WindowKeepsLastTurn(history: seq<ChatMessage>, u: ChatMessage, status: ChatMessage, a: ChatMessage, next: ChatMessage)
    ensures var w := Window(history + [u, status, a] + [next], MEMORY_WINDOW);
            u in w && a in w
  {
    var h := history + [u, status, a];
    var h1 := h + [next];
    var w := Window(h1, MEMORY_WINDOW);
    if |h1| > MEMORY_WINDOW {
      assert w == h1[|h1| - MEMORY_WINDOW..];
      assert w[2] == u && w[4] == a;
    } else {
      assert w == h;
      assert w[|history|] == u && w[|history| + 2] == a;
    }
  }

  /** Both status texts the turn writes are the ones filter_memory recognises; its other messages are not. */
  lemma StatusTextsRecognised(query: string, result: SearchResult, error: string, answer: string)
    ensures IsStatus(ChatMessage(Assistant, SearchingInfo(query)))
    ensures IsStatus(ChatMessage(Assistant, SearchedInfo(query, result)))
    ensures !IsStatus(ErrorMessage(error)) && !IsStatus(SearchAnswer(answer))
  {
    assert SearchingInfo(query)[..|SEARCHING|] == SEARCHING;
    assert SearchedInfo(query, result)[..|SEARCHED|] == SEARCHED;
    assert ErrorMessage(error).content[0] == 'A';
    assert SearchAnswer(answer).content[0] == ' ';
  }
}
