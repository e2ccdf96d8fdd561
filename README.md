# Two tool-calling chat agents, modelled in Dafny

This project models the deterministic core of two small conversational agents.

The first is the single-shot agent in `ai_agent_func_call_gemma3.py`. It keeps a
chat history that a UI owns. For each user turn it works as follows:
- it appends the user turn and builds a prompt: a system message, the recent
  history with the search-status messages filtered out, then the user input;
- it asks the model;
- it tries to read a `google_search` function call out of the free-text reply,
  by taking the stripped text from the first `{` to the last `}`;
- if it finds one, it shows a "Searching for:" placeholder, runs the search,
  overwrites the placeholder with a "Searched for:" status that holds the
  result, and asks the model again with an observation prompt;
- it records the answer. Any exception is recorded as an "An error occurred:"
  message instead.

The second is the ReAct agent in `react_agent.py`. `react_loop` asks the model
again and again. A reply that requests tools is appended to the caller's message
list, followed by one `tool` message per requested call, in call order, each
keyed by the call's id. The first reply without tool calls is appended, and its
content is the answer. `single_query` starts the list with a fixed system
message and the user prompt.

Modules:
- `Wrappers` holds `Option` and `Result`.
- `JsonValues` holds the decoded JSON values the agents inspect.
- `PyText` holds the Python string built-ins used: `strip`, `find`, `rfind`,
  slicing and `startswith`.
- `FuncCall` holds call extraction, `filter_memory`, the window,
  `build_messages` and `SearchResult.to_string`.
- `ChatSession` holds `process_message`. The list it mutates is the class
  `ChatHistory`.
- `ReactTools` holds `search`, the tool schemas, `FUNCTION_MAP` and the
  dispatch of one call.
- `ReactLoop` holds `react_loop`. The list it mutates is the class
  `Conversation`.

The model server, JSON decoding, pydantic validation, the web search and the
calculator's `eval` are outside the model. They are given as parameters:
- `Services` in `ChatSession` supplies the model (its reply, or the text of its
  exception), json decoding, pydantic's error text and the web search.
- `Toolbox` in `ReactTools` supplies `json.loads` of the call arguments and the
  calculator.
- For `react_loop`, the model server is a finite script of replies. A reply is
  `Failure` when the model call raised.

Each imperative operation is proved against a specification function:
- `ProcessMessage` against `Turn`, which gives the list of histories shown at
  each `yield`;
- `ReactLoop` against `Run`, which gives everything a run appends and how it
  ends;
- `AnswerCalls` against `ToolRound`.

## Model

| member | source | states |
|---|---|---|
| PyText.TrimStartSpec | ai_agent_func_call_gemma3.py:58 | the left half of `strip()` removes a prefix made only of white space and stops at the first non-space character |
| PyText.Strip | ai_agent_func_call_gemma3.py:58 | `strip()` never lengthens the text, and a non-empty result neither starts nor ends with white space |
| PyText.TrimEndSpec | ai_agent_func_call_gemma3.py:58 | the right half of `strip()` removes a suffix made only of white space and stops at the last non-space character |
| PyText.StripOffset | ai_agent_func_call_gemma3.py:58 | the stripped response is a contiguous run of the original, with only white space around it, and it neither starts nor ends with white space |
| PyText.StripKeeps | ai_agent_func_call_gemma3.py:58 | a non-space character, such as a brace, occurs in the stripped text exactly when it occurs in the original |
| PyText.Find | ai_agent_func_call_gemma3.py:59 | `find` gives -1 or an index inside the text |
| PyText.RFind | ai_agent_func_call_gemma3.py:60 | `rfind` gives -1 or an index inside the text, so `end_idx` is 0 exactly when it found nothing |
| PyText.FindSpec | ai_agent_func_call_gemma3.py:59 | `find('{')` is -1 exactly when there is no `{`; otherwise it is the index of the first one |
| PyText.RFindSpec | ai_agent_func_call_gemma3.py:60 | `rfind('}')` is -1 exactly when there is no `}`; otherwise it is the index of the last one |
| PyText.Slice | ai_agent_func_call_gemma3.py:65 | `response[start:end]` is the characters from start up to end, and is empty when end is not after start |
| FuncCall.ParseFunctionCall | ai_agent_func_call_gemma3.py:54-70 | a call is only ever found in a response holding both a `{` and a `}`; every failure is "no call", never an error |
| FuncCall.NoBraceNoCall | ai_agent_func_call_gemma3.py:58-63 | a response without any `{` or without any `}` yields no candidate and no call |
| FuncCall.BraceSpanAt | ai_agent_func_call_gemma3.py:59-65 | in the stripped text, the candidate runs from the first `{` through the last `}`, both included |
| FuncCall.CandidateIsBraceSpan | ai_agent_func_call_gemma3.py:58-67 | when the first `{` comes before the last `}`, only the stripped text from the first `{` through the last `}` is handed to the decoder, and the decoder's answer is the result |
| FuncCall.ReversedBracesNoCall | ai_agent_func_call_gemma3.py:59-70 | when every `}` comes before the first `{`, the empty slice fails to decode and the result is "no call" |
| FuncCall.WrappedCallRecovered | ai_agent_func_call_gemma3.py:54-70 | a call object wrapped in prose with no `{` before it and no `}` after it reaches the decoder exactly as written, whatever white space surrounds it |
| FuncCall.FilterMemory | ai_agent_func_call_gemma3.py:128-138 | the filtered memory is never longer than the memory |
| FuncCall.FilterMemoryMembers | ai_agent_func_call_gemma3.py:130-138 | a message survives exactly when it is in the memory and is not an assistant "Searching for:" or "Searched for:" status |
| FuncCall.FilterMemoryIsSubsequence | ai_agent_func_call_gemma3.py:130-138 | the result keeps the surviving messages in their original order |
| FuncCall.FilterMemoryCounts | ai_agent_func_call_gemma3.py:130-138 | each non-status message survives as many times as it occurs; a status message occurs 0 times |
| FuncCall.FilterMemoryAppend | ai_agent_func_call_gemma3.py:130-138 | filtering a concatenation gives the concatenation of the filtered parts |
| FuncCall.FilterMemoryIdempotent | ai_agent_func_call_gemma3.py:130-138 | filtering twice gives the same as filtering once |
| FuncCall.UserMessagesKept | ai_agent_func_call_gemma3.py:133 | a user message is always kept, whatever its text |
| FuncCall.Window | ai_agent_func_call_gemma3.py:145 | the memory slice is never longer than the history and is either a run of its first entries or a run of its last entries |
| FuncCall.WindowBounds | ai_agent_func_call_gemma3.py:145 | the window has at most N entries for N > 0 and is empty for an empty or one-entry history; if the history is longer than N it is the last N entries, otherwise all but the last |
| FuncCall.BuildMessages | ai_agent_func_call_gemma3.py:145-158 | the prompt starts with the system message and, for N > 0, holds at most N + 2 messages |
| FuncCall.BuildMessagesLayout | ai_agent_func_call_gemma3.py:146-158 | the prompt is the system message, then the filtered window unchanged, then the observation prompt if there is a search result, else the user input if there is one, else nothing |
| FuncCall.PromptHasNoStatus | ai_agent_func_call_gemma3.py:145-147 | no prompt contains a search-status message |
| FuncCall.SearchResult.ToString | ai_agent_func_call_gemma3.py:23-24 | the observation text starts with "Title: " and ends with the snippet |
| FuncCall.ToStringInjective | ai_agent_func_call_gemma3.py:23-24 | when title and link have no line break, the formatted observation determines title, link and snippet |
| FuncCall.ObservationPrompt | ai_agent_func_call_gemma3.py:148-155 | the observation prompt starts with the fixed instruction and ends with the snippet |
| FuncCall.ObservationPromptShape | ai_agent_func_call_gemma3.py:148-155 | the observation prompt is the fixed instruction followed by `to_string()`, which starts with "Title: " and ends with the snippet |
| ChatSession.SearchQuery | ai_agent_func_call_gemma3.py:187-188 | validation succeeds exactly when "query" is present and holds a string, and then gives that string; otherwise the error is pydantic's text for those parameters |
| ChatSession.Turn | ai_agent_func_call_gemma3.py:163-228 | a turn yields one, two or three histories |
| ChatSession.AfterReply | ai_agent_func_call_gemma3.py:183-223 | after the first reply the turn yields one, two or three histories |
| ChatSession.SearchPhase | ai_agent_func_call_gemma3.py:189-212 | the search phase yields two or three histories, and the first is the history with the "Searching for:" placeholder appended |
| ChatSession.SearchPhaseGrows | ai_agent_func_call_gemma3.py:189-212 | every history the search phase shows keeps the earlier history in front and adds one or two entries |
| ChatSession.AfterReplyGrows | ai_agent_func_call_gemma3.py:183-221 | every history shown after the first reply keeps the earlier history in front and adds one or two entries |
| ChatSession.TurnExtendsHistory | ai_agent_func_call_gemma3.py:163-228 | a turn only appends after the old history and the user turn, and it ends two or three entries longer |
| ChatSession.ChatHistory.Append | ai_agent_func_call_gemma3.py:167 | `list.append` adds the message at the end and changes nothing else |
| ChatSession.ChatHistory.ReplaceLast | ai_agent_func_call_gemma3.py:200 | `chat_history[-1] = m` replaces the last entry and keeps the rest |
| ChatSession.SearchAndAsk | ai_agent_func_call_gemma3.py:189-212 | the search branch, in place: it shows the placeholder, searches, overwrites the placeholder and asks again; each raised exception is recorded, as the turn specifies |
| ChatSession.ProcessMessage | ai_agent_func_call_gemma3.py:163-228 | the histories yielded are exactly `Turn` of the old history, and the history the turn leaves is the last of them |
| ChatSession.FirstPromptRepeatsLongTurn | ai_agent_func_call_gemma3.py:145-157 | the first prompt ends with the user turn; once the earlier history has at least 6 entries that turn also ends the window, so the model sees it twice |
| ChatSession.NoSearchCallNoSearch | ai_agent_func_call_gemma3.py:185-221 | a reply that is not a `google_search` call is recorded as it is, and the search is never consulted |
| ChatSession.ModelFailureRecorded | ai_agent_func_call_gemma3.py:175-227 | if the first model call raises, the turn leaves the user turn followed by "An error occurred: …" |
| ChatSession.SearchTurnShape | ai_agent_func_call_gemma3.py:185-223 | a successful search turn first shows the "Searching for:" placeholder, then leaves exactly the user turn, the "Searched for:" status and " Response:\n" plus the answer; the second prompt ends with the observation and replays no status |
| ChatSession.SearchFailureKeepsPlaceholder | ai_agent_func_call_gemma3.py:191-227 | a failed search leaves the placeholder in the history, followed by the error message |
| ChatSession.InvalidParametersRecorded | ai_agent_func_call_gemma3.py:187-227 | a `google_search` call without a string "query" leaves only the user turn and the validation error, and nothing is searched |
| ChatSession.SecondCallFailureRecorded | ai_agent_func_call_gemma3.py:199-227 | a failure of the second model call leaves the user turn, the "Searched for:" status and the error message |
| ChatSession.SearchStatusNotReplayed | ai_agent_func_call_gemma3.py:128-138 | `filter_memory` of a history ending in a completed search turn keeps the user turn and the answer and drops the status |
| ChatSession.NextPromptAfterSearch | ai_agent_func_call_gemma3.py:140-158 | the prompt of the turn after a completed search turn shows the model that turn's user message and answer, and no status message, whatever the length of the history |
| ChatSession.StatusTextsRecognised | ai_agent_func_call_gemma3.py:191-227 | both status texts the turn writes are ones `filter_memory` drops; the error and answer messages are not |
| ReactTools.Search | react_agent.py:7-9 | the dummy answer starts with "Search results for '" and ends with a closing quote |
| ReactTools.SearchQuotesQuery | react_agent.py:7-9 | `search` answers with "Search results for '" followed by the query and a closing quote |
| ReactTools.SearchInjective | react_agent.py:7-9 | different queries never share an answer |
| ReactTools.RegistryMatchesSchemas | react_agent.py:20-54 | `FUNCTION_MAP` holds exactly `search` and `calculator`, the declared tools, and each callable takes the one parameter its schema requires |
| ReactTools.ExecuteCall | react_agent.py:70-72 | a call fails with `ArgumentsNotJson` exactly when its arguments text does not decode |
| ReactTools.ExecuteCallOutcomes | react_agent.py:70-72 | a call succeeds exactly when its arguments decode to an object whose only key is the parameter of a registered tool and the tool does not raise; an unknown name fails at the lookup once the arguments decode; only `calculator` can raise by itself |
| ReactTools.ExecuteSearch | react_agent.py:7-9 | a `search` call with a "query" argument returns the canned answer for that query |
| ReactTools.ExecuteCalculator | react_agent.py:12-17 | a `calculator` call with an "expression" argument returns the evaluator's text, or raises what escaped the evaluator |
| ReactLoop.ToolRound | react_agent.py:69-77 | a round adds at most one tool message per requested call |
| ReactLoop.ToolRoundSpec | react_agent.py:69-77 | the round's messages are tool messages, one per call in call order, keyed by the call id and carrying its result, up to the first call that raised |
| ReactLoop.Run | react_agent.py:59-80 | a run consumes at least one scripted reply when there is one, never more than the script holds, and all of it when the script runs out |
| ReactLoop.AnsweredAtFirstFinal | react_agent.py:66-80 | the first reply without tool calls, after replies whose calls all ran, is appended last and its content is the answer |
| ReactLoop.AnsweredOnlyAtFirstFinal | react_agent.py:59-80 | conversely, a run answers only at a reply without tool calls that follows only replies whose calls all ran |
| ReactLoop.OutOfScriptIff | react_agent.py:59-78 | the loop asks for more replies than the script holds exactly when every scripted reply requests tools and all of them run |
| ReactLoop.NoCallsAfterEnd | react_agent.py:79-80 | once a run has answered or raised, later scripted replies are never requested |
| ReactLoop.RoundAnswersCalls | react_agent.py:68-77 | a round answers the waiting calls of its request in order, one tool message each |
| ReactLoop.RunKeepsPairing | react_agent.py:57-80 | what a run appends never holds a tool message that answers no waiting call |
| ReactLoop.RequestOf | react_agent.py:68-77 | in a well-paired list, every tool message comes after the assistant message that requested it, with only its earlier siblings, in call order, in between |
| ReactLoop.AnswerCalls | react_agent.py:69-77 | the inner loop appends exactly the round's tool messages and reports the call that raised |
| ReactLoop.ReactLoop | react_agent.py:57-80 | `messages` only grows: the old list stays in front and exactly the run's messages are appended; the result is the run's outcome |
| ReactLoop.Initial | react_agent.py:84-87 | the starting list leaves no tool call waiting for an answer |
| ReactLoop.SingleQuery | react_agent.py:83-88 | the run starts from exactly the system message "You are a helpful assistant using ReAct." and the user prompt |
| ReactLoop.SingleQueryPairsToolMessages | react_agent.py:68-88 | in the list that `single_query` builds, every tool message is immediately preceded by the assistant message that requested it or by a sibling answering the same request |

## Left out

- The Gradio interface and its event wiring are not modelled. They are presentation only.
- The HTTP request to Serper, the API keys and the environment loading are not modelled. `google_search` is an oracle that returns the first hit or the text of the exception it raised.
- `ollama.chat` and `openai.ChatCompletion.create` are not modelled.
  - For the single-shot agent, the model is a function of the prompt. A model that answers the same prompt differently on the two calls is not captured.
  - For the ReAct agent, the model is a finite script of replies. Running past its end is the `OutOfScript` outcome; the source has no iteration cap of its own.
- `json.loads`, `FunctionCall(**data)` and the text of pydantic's errors are oracles. The empty candidate is "no call" without consulting the decoder, because `json.loads("")` always raises.
- `SearchParameters` is modelled by pydantic 2's rule for a `str` field: "query" must be present and hold a JSON string, and other keys are ignored. Other pydantic configurations are not modelled.
- `calculator`'s `eval` is not modelled. The calculator is an oracle from the expression to either its text (including the "error: …" text of an `Exception` it catches) or the `BaseException`, such as `SystemExit` from `exit()`, that escapes its handler and so the loop. An `eval` that never returns is not modelled. The oracle is also assumed deterministic and free of side effects, which the source does not guarantee: `eval` with an empty globals dict still reaches the builtins, so an expression can import modules and run arbitrary code, including code that changes `messages` itself. `ReactLoop.ReactLoop`'s append-only result, `ReactLoop.RunKeepsPairing` and `ReactLoop.SingleQueryPairsToolMessages` therefore hold only for tool calls without such side effects.
- `chat_mode` and `main` are not modelled. They are stdin, argparse and print plumbing.
- The `print` diagnostics are not modelled.
- The text of the single-shot agent's system prompt is a parameter. Only its position in the prompt matters here.
- The generators' `yield` is modelled as the list of histories shown at each yield. Coroutine scheduling is not modelled.
- `tests/test_preprocess_code.py` is not modelled. It tests `llm_func_call_for_ai_agent.py`, which is not part of this model.
- `str.isspace` is modelled as the fixed list of code points Python treats as white space. Unicode normalisation and other encodings are not modelled.
