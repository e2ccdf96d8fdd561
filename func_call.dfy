/**
 * The deterministic core of the single-shot agent: extracting a function
 * call from free model text, dropping the transient search-status messages
 * from the chat memory, and assembling the message list sent to the model.
 */
module FuncCall {
  import opened Wrappers
  import opened JsonValues
  import opened PyText

  datatype Role = System | User | Assistant

  /** One chat-history entry, {"role": ..., "content": ...}. */
  datatype ChatMessage = ChatMessage(role: Role, content: string)

  /** A validated call request {"name": ..., "parameters": {...}}. */
  datatype FunctionCall = FunctionCall(name: string, parameters: map<string, JsonValue>)

  /** The first organic hit of a search. */
  datatype SearchResult = SearchResult(title: string, link: string, snippet: string) {
    /** The observation text shown to the model and to the user. */
    function ToString(): (r: string)
      ensures "Title: " <= r
      ensures |r| > |snippet| && r[|r| - |snippet|..] == snippet
    {
      "Title: " + title + "\nLink: " + link + "\nSnippet: " + snippet
    }
  }

  /** The two reserved prefixes of transient progress messages. */
  const SEARCHING: string := "Searching for:"
  const SEARCHED: string := "Searched for:"

  /** The instruction placed before a search result when the model is asked for the final answer. */
  const OBSERVATION_PREFIX: string :=
    "Refer to the following search result and provide a concise, factual answer based only on this information:\n"

  // ---------------------------------------------------------------------
  // Call extraction

  /**
   * The text handed to the JSON decoder: the stripped response from its first
   * '{' through its last '}', or None when it lacks either brace.
   */
  function JsonCandidate(response: string): Option<string> {
    BraceSpan(Strip(response))
  }

  /** s[s.find('{') : s.rfind('}') + 1], or None when either search fails. */
  function BraceSpan(s: string): Option<string> {
    var start := Find(s, '{');
    var end := RFind(s, '}') + 1;
    if start == -1 || end == 0 then None else Some(Slice(s, start, end))
  }

  /**
   * json.loads followed by FunctionCall(**data), where `decode` stands for both:
   * it gives None whenever either raises. json.loads rejects the empty document,
   * so that case never reaches the decoder.
   */
  function Decode(text: string, decode: string -> Option<FunctionCall>): Option<FunctionCall> {
    if text == "" then None else decode(text)
  }

  /** parse_function_call: a call request found in the model's text, or None; never an error. */
  function ParseFunctionCall(response: string, decode: string -> Option<FunctionCall>): (r: Option<FunctionCall>)
    ensures r.Some? ==> '{' in response && '}' in response
  {
    StripKeeps(response, '{');
    StripKeeps(response, '}');
    FindSpec(Strip(response), '{');
    RFindSpec(Strip(response), '}');
    match JsonCandidate(response)
    case None => None
    case Some(text) => Decode(text, decode)
  }

  /** Without an opening or a closing brace anywhere in the response there is no call. */
  lemma NoBraceNoCall(response: string, decode: string -> Option<FunctionCall>)
    requires '{' !in response || '}' !in response
    ensures JsonCandidate(response) == None
    ensures ParseFunctionCall(response, decode) == None
  {
    StripKeeps(response, '{');
    StripKeeps(response, '}');
    FindSpec(Strip(response), '{');
    RFindSpec(Strip(response), '}');
  }

  /** The span runs from the first '{' at i through the last '}' at j, both ends included. */
  lemma {:induction false} BraceSpanAt(s: string, i: nat, j: nat)
    requires i <= j < |s| && s[i] == '{' && s[j] == '}'
    requires forall k :: 0 <= k < i ==> s[k] != '{'
    requires forall k :: j < k < |s| ==> s[k] != '}'
    ensures BraceSpan(s) == Some(s[i..j + 1])
  {
    FindSpec(s, '{');
    RFindSpec(s, '}');
    assert Find(s, '{') == i;
    assert RFind(s, '}') == j;
  }

  /**
   * With both braces present, the candidate is exactly the stripped text from
   * the first '{' through the last '}' inclusive, and that text alone is decoded.
   */
  lemma CandidateIsBraceSpan(response: string, decode: string -> Option<FunctionCall>, i: nat, j: nat)
    requires i <= j < |Strip(response)|
    requires Strip(response)[i] == '{' && Strip(response)[j] == '}'
    requires forall k :: 0 <= k < i ==> Strip(response)[k] != '{'
    requires forall k :: j < k < |Strip(response)| ==> Strip(response)[k] != '}'
    ensures JsonCandidate(response) == Some(Strip(response)[i..j + 1])
    ensures ParseFunctionCall(response, decode) == decode(Strip(response)[i..j + 1])
  {
    BraceSpanAt(Strip(response), i, j);
  }

  /** When every '}' comes before the first '{', the candidate is empty and there is no call. */
  lemma ReversedBracesNoCall(response: string, decode: string -> Option<FunctionCall>, i: nat)
    requires i < |Strip(response)| && Strip(response)[i] == '{'
    requires forall k :: 0 <= k < i ==> Strip(response)[k] != '{'
    requires forall k :: i <= k < |Strip(response)| ==> Strip(response)[k] != '}'
    ensures ParseFunctionCall(response, decode) == None
  {
    var s := Strip(response);
    FindSpec(s, '{');
    RFindSpec(s, '}');
    assert Find(s, '{') == i;
    assert RFind(s, '}') < i;
  }

  /**
   * A call object wrapped in prose recovers exactly that object: when the text
   * before it has no '{' and the text after it has no '}', only the object
   * reaches the decoder, whatever white space surrounds the response.
   */
  lemma WrappedCallRecovered(before: string, obj: string, after: string, decode: string -> Option<FunctionCall>)
    requires |obj| >= 2 && obj[0] == '{' && obj[|obj| - 1] == '}'
    requires '{' !in before && '}' !in after
    ensures ParseFunctionCall(before + obj + after, decode) == decode(obj)
  {
    var i, j := WrappedBraces(before, obj, after);
    BraceSpanAt(Strip(before + obj + after), i, j);
  }

  /** Where the braces of a wrapped object sit once the response is stripped. */
  lemma WrappedBraces(before: string, obj: string, after: string) returns (i: nat, j: nat)
    requires |obj| >= 2 && obj[0] == '{' && obj[|obj| - 1] == '}'
    requires '{' !in before && '}' !in after
    ensures var s := Strip(before + obj + after);
            && i <= j < |s| && s[i] == '{' && s[j] == '}' && s[i..j + 1] == obj
            && (forall x :: 0 <= x < i ==> s[x] != '{')
            && (forall x :: j < x < |s| ==> s[x] != '}')
  {
    var response := before + obj + after;
    var s := Strip(response);
    var k := StripOffset(response);
    var lo, hi := |before|, |before| + |obj| - 1;
    // Neither brace of the object is white space, so stripping leaves the object whole.
    assert response[lo] == obj[0] && response[hi] == obj[|obj| - 1];
    StripCannotCut(response, k, lo);
    StripCannotCut(response, k, hi);
    i, j := lo - k, hi - k;
    WrappedSpan(response, s, k, before, obj, after, i, j);
  }

  /** Stripping never removes a character that is not white space. */
  lemma StripCannotCut(s: string, k: nat, i: nat)
    requires StrippedAt(s, Strip(s), k) && i < |s| && !IsSpace(s[i])
    ensures k <= i < k + |Strip(s)|
  {
  }

  /** Where the wrapped object and its surroundings land inside the stripped text. */
  lemma WrappedSpan(response: string, s: string, k: nat, before: string, obj: string, after: string, i: nat, j: nat)
    requires response == before + obj + after && |obj| >= 1
    requires i == |before| - k && j == |before| + |obj| - 1 - k
    requires k <= |before| && |before| + |obj| <= k + |s| <= |response| && s == response[k..k + |s|]
    requires '{' !in before && '}' !in after
    ensures j < |s| && s[i..j + 1] == obj && s[i] == obj[0] && s[j] == obj[|obj| - 1]
    ensures forall x :: 0 <= x < i ==> s[x] != '{'
    ensures forall x :: j < x < |s| ==> s[x] != '}'
  {
    forall x | 0 <= x <= j ensures s[x] == (if x < i then before[k + x] else obj[x - i]) {
      assert s[x] == response[k + x];
    }
    forall x | j < x < |s| ensures s[x] == after[x - j - 1] {
      assert s[x] == response[k + x];
    }
  }

  // ---------------------------------------------------------------------
  // Memory filtering

  /** An assistant progress message: the model must never see these. */
  predicate IsStatus(m: ChatMessage) {
    m.role == Assistant && (StartsWith(m.content, SEARCHING) || StartsWith(m.content, SEARCHED))
  }

  /** filter_memory: the memory without its assistant search-status messages. */
  function FilterMemory(memory: seq<ChatMessage>): (r: seq<ChatMessage>)
    ensures |r| <= |memory|
  {
    if memory == [] then []
    else (if IsStatus(memory[0]) then [] else [memory[0]]) + FilterMemory(memory[1..])
  }

  /** The filtered memory holds exactly the messages of the memory that are not status messages. */
  lemma {:induction false} FilterMemoryMembers(memory: seq<ChatMessage>)
    ensures forall m :: m in FilterMemory(memory) <==> m in memory && !IsStatus(m)
  {
    if memory != [] {
      FilterMemoryMembers(memory[1..]);
      assert memory == [memory[0]] + memory[1..];
    }
  }

  /** a keeps some of the entries of b, in b's order. */
  ghost predicate IsSubsequence(a: seq<ChatMessage>, b: seq<ChatMessage>)
    decreases |b|
  {
    if a == [] then true
    else if b == [] then false
    else (a[0] == b[0] && IsSubsequence(a[1..], b[1..])) || IsSubsequence(a, b[1..])
  }

  /** Filtering keeps the surviving messages in their original order. */
  lemma {:induction false} FilterMemoryIsSubsequence(memory: seq<ChatMessage>)
    ensures IsSubsequence(FilterMemory(memory), memory)
  {
    if memory != [] {
      FilterMemoryIsSubsequence(memory[1..]);
      var r := FilterMemory(memory);
      if !IsStatus(memory[0]) {
        assert r[0] == memory[0] && r[1..] == FilterMemory(memory[1..]);
      } else {
        assert r == FilterMemory(memory[1..]);
      }
    }
  }

  /** Every non-status message survives as often as it occurs; every status message is gone. */
  lemma {:induction false} FilterMemoryCounts(memory: seq<ChatMessage>, m: ChatMessage)
    ensures multiset(FilterMemory(memory))[m] == if IsStatus(m) then 0 else multiset(memory)[m]
  {
    if memory != [] {
      var rest := memory[1..];
      FilterMemoryCounts(rest, m);
      var head := if IsStatus(memory[0]) then [] else [memory[0]];
      assert memory == [memory[0]] + rest;
      assert multiset(memory) == multiset([memory[0]]) + multiset(rest);
      assert FilterMemory(memory) == head + FilterMemory(rest);
      assert multiset(FilterMemory(memory)) == multiset(head) + multiset(FilterMemory(rest));
    }
  }

  /** filter_memory distributes over concatenation. */
  lemma {:induction false} FilterMemoryAppend(a: seq<ChatMessage>, b: seq<ChatMessage>)
    ensures FilterMemory(a + b) == FilterMemory(a) + FilterMemory(b)
  {
    if a == [] {
      assert a + b == b;
    } else {
      FilterMemoryAppend(a[1..], b);
      assert (a + b)[0] == a[0] && (a + b)[1..] == a[1..] + b;
      var head := if IsStatus(a[0]) then [] else [a[0]];
      calc {
        FilterMemory(a + b);
        head + FilterMemory(a[1..] + b);
        head + (FilterMemory(a[1..]) + FilterMemory(b));
        (head + FilterMemory(a[1..])) + FilterMemory(b);
        FilterMemory(a) + FilterMemory(b);
      }
    }
  }

  /** Filtering an already filtered memory changes nothing. */
  lemma {:induction false} FilterMemoryIdempotent(memory: seq<ChatMessage>)
    ensures FilterMemory(FilterMemory(memory)) == FilterMemory(memory)
  {
    if memory != [] {
      FilterMemoryIdempotent(memory[1..]);
      var head := if IsStatus(memory[0]) then [] else [memory[0]];
      FilterMemoryAppend(head, FilterMemory(memory[1..]));
      if !IsStatus(memory[0]) {
        assert FilterMemory(head) == head by {
          assert head[1..] == [];
        }
      }
    }
  }

  /** A user message survives filtering whatever it says, even with a status prefix. */
  lemma UserMessagesKept(memory: seq<ChatMessage>, m: ChatMessage)
    requires m in memory && m.role == User
    ensures m in FilterMemory(memory)
  {
  }

  // ---------------------------------------------------------------------
  // Prompt assembly

  /**
   * The memory slice: chat_history[-n:] when the history is longer than n,
   * otherwise chat_history[:-1]. Python reads h[-0:] as the whole list, so
   * n == 0 keeps every entry.
   */
  function Window(history: seq<ChatMessage>, n: nat): (r: seq<ChatMessage>)
    ensures |r| <= |history|
    ensures r == history[..|r|] || r == history[|history| - |r|..]
  {
    if |history| > n then (if n == 0 then history else history[|history| - n..])
    else if history == [] then []
    else history[..|history| - 1]
  }

  /** The window is a run of the latest entries; for n >= 1 it holds at most n, and nothing from a history of at most one entry. */
  lemma WindowBounds(history: seq<ChatMessage>, n: nat)
    ensures |Window(history, n)| <= |history|
    ensures n > 0 ==> |Window(history, n)| <= n
    ensures history == [] || (|history| == 1 && n > 0) ==> Window(history, n) == []
    ensures |history| > n > 0 ==> Window(history, n) == history[|history| - n..]
    ensures 0 < |history| <= n ==> Window(history, n) + [history[|history| - 1]] == history
  {
  }

  /** The observation-grounded prompt built from a search result. */
  function ObservationPrompt(result: SearchResult): (r: string)
    ensures OBSERVATION_PREFIX <= r
    ensures |r| > |result.snippet| && r[|r| - |result.snippet|..] == result.snippet
  {
    OBSERVATION_PREFIX + result.ToString()
  }

  /**
   * build_messages: the system message, the filtered window, then one user
   * message: the observation prompt when a search result is given, else the
   * user input when given, else nothing.
   */
  function BuildMessages(history: seq<ChatMessage>, userInput: Option<string>, systemPrompt: string,
                         n: nat, searchResult: Option<SearchResult>): (r: seq<ChatMessage>)
    ensures |r| >= 1 && r[0] == ChatMessage(System, systemPrompt)
    ensures n > 0 ==> |r| <= n + 2
  {
    WindowBounds(history, n);
    var messages := [ChatMessage(System, systemPrompt)] + FilterMemory(Window(history, n));
    if searchResult.Some? then messages + [ChatMessage(User, ObservationPrompt(searchResult.value))]
    else if userInput.Some? then messages + [ChatMessage(User, userInput.value)]
    else messages
  }

  /** The exact layout of the prompt, with the search result taking precedence over the user input. */
  lemma BuildMessagesLayout(history: seq<ChatMessage>, userInput: Option<string>, systemPrompt: string,
                            n: nat, searchResult: Option<SearchResult>)
    ensures var r := BuildMessages(history, userInput, systemPrompt, n, searchResult);
            var memory := FilterMemory(Window(history, n));
            && r[1..1 + |memory|] == memory
            && (searchResult.Some? ==> r == [r[0]] + memory + [ChatMessage(User, ObservationPrompt(searchResult.value))])
            && (searchResult.None? && userInput.Some? ==> r == [r[0]] + memory + [ChatMessage(User, userInput.value)])
            && (searchResult.None? && userInput.None? ==> r == [r[0]] + memory)
  {
  }

  /** No prompt ever shows the model a search-status message. */
  lemma PromptHasNoStatus(history: seq<ChatMessage>, userInput: Option<string>, systemPrompt: string,
                          n: nat, searchResult: Option<SearchResult>)
    ensures forall m :: m in BuildMessages(history, userInput, systemPrompt, n, searchResult) ==> !IsStatus(m)
  {
    FilterMemoryMembers(Window(history, n));
    BuildMessagesLayout(history, userInput, systemPrompt, n, searchResult);
  }

  // ---------------------------------------------------------------------
  // Observation text

  /** Two texts that each start with a single line split the same way at their first newline. */
  lemma SplitAtNewline(x1: string, r1: string, x2: string, r2: string)
    requires '\n' !in x1 && '\n' !in x2
    requires x1 + "\n" + r1 == x2 + "\n" + r2
    ensures x1 == x2 && r1 == r2
  {
    var s := x1 + "\n" + r1;
    forall k | 0 <= k < |x1| ensures s[k] != '\n' {
      assert s[k] == x1[k];
    }
    forall k | 0 <= k < |x2| ensures s[k] != '\n' {
      assert s[k] == x2[k];
    }
    assert s[|x1|] == '\n' && s[|x2|] == (x2 + "\n" + r2)[|x2|] == '\n';
    FindSpec(s, '\n');
    assert Find(s, '\n') == |x1|;
    assert Find(s, '\n') == |x2|;
    assert x1 == s[..|x1|] && x2 == s[..|x2|];
    assert r1 == s[|x1| + 1..] && r2 == s[|x2| + 1..];
  }

  /** The observation text, grouped field by field. */
  lemma ToStringFields(r: SearchResult)
    ensures r.ToString() == "Title: " + (r.title + "\n" + ("Link: " + (r.link + "\n" + ("Snippet: " + r.snippet))))
  {
  }

  /**
   * The observation text determines the search result it was made from, as
   * long as the title and the link are single lines.
   */
  lemma ToStringInjective(a: SearchResult, b: SearchResult)
    requires '\n' !in a.title && '\n' !in a.link && '\n' !in b.title && '\n' !in b.link
    requires a.ToString() == b.ToString()
    ensures a == b
  {
    ToStringFields(a);
    ToStringFields(b);
    var restA := "Link: " + (a.link + "\n" + ("Snippet: " + a.snippet));
    var restB := "Link: " + (b.link + "\n" + ("Snippet: " + b.snippet));
    assert a.title + "\n" + restA == a.ToString()[7..] == b.title + "\n" + restB;
    SplitAtNewline(a.title, restA, b.title, restB);
    assert a.link + "\n" + ("Snippet: " + a.snippet) == restA[6..] == b.link + "\n" + ("Snippet: " + b.snippet);
    SplitAtNewline(a.link, "Snippet: " + a.snippet, b.link, "Snippet: " + b.snippet);
    assert a.snippet == ("Snippet: " + a.snippet)[9..] == b.snippet;
  }

  /** The observation prompt is the fixed instruction followed by the whole observation, ending in the snippet. */
  lemma ObservationPromptShape(result: SearchResult)
    ensures StartsWith(ObservationPrompt(result), OBSERVATION_PREFIX)
    ensures ObservationPrompt(result)[|OBSERVATION_PREFIX|..] == result.ToString()
    ensures StartsWith(result.ToString(), "Title: ")
    ensures result.ToString()[|result.ToString()| - |result.snippet|..] == result.snippet
  {
  }
}
