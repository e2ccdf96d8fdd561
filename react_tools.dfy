/**
 * The tools of the iterative agent: the two callables, their declared
 * schemas, the FUNCTION_MAP registry and the dispatch of one requested call.
 */
module ReactTools {
  import opened Wrappers
  import opened JsonValues

  /** search(query): a canned answer that quotes the query. */
  function Search(query: string): (r: string)
    ensures |r| > 20
    ensures r[..20] == "Search results for '"
    ensures r[|r| - 1] == '\''
  {
    "Search results for '" + query + "'"
  }

  /** The canned answer gives back the query it quotes, so different queries never share an answer. */
  lemma SearchQuotesQuery(query: string)
    ensures |Search(query)| == |query| + 21
    ensures Search(query)[20..|Search(query)| - 1] == query
  {
  }

  lemma SearchInjective(q1: string, q2: string)
    requires Search(q1) == Search(q2)
    ensures q1 == q2
  {
    SearchQuotesQuery(q1);
    SearchQuotesQuery(q2);
  }

  /** The callables the registry can hold. */
  datatype Tool = SearchTool | CalculatorTool

  /** One entry of the `tools` list sent to the model: a name and its one required parameter. */
  datatype ToolSchema = ToolSchema(name: string, description: string, parameter: string)

  const TOOL_SCHEMAS: seq<ToolSchema> := [
    ToolSchema("search", "Search the web", "query"),
    ToolSchema("calculator", "Evaluate a math expression", "expression")
  ]

  /** FUNCTION_MAP: tool name to callable. */
  const FUNCTION_MAP: map<string, Tool> := map["search" := SearchTool, "calculator" := CalculatorTool]

  /** The name of the one parameter of each callable's Python signature. */
  function Parameter(tool: Tool): string {
    match tool
    case SearchTool => "query"
    case CalculatorTool => "expression"
  }

  /** The registry holds exactly the declared tools, and each callable takes the parameter its schema requires. */
  lemma RegistryMatchesSchemas()
    ensures FUNCTION_MAP.Keys == {"search", "calculator"}
    ensures forall s :: s in TOOL_SCHEMAS ==> s.name in FUNCTION_MAP && Parameter(FUNCTION_MAP[s.name]) == s.parameter
    ensures forall name :: name in FUNCTION_MAP ==> exists s :: s in TOOL_SCHEMAS && s.name == name
  {
    assert TOOL_SCHEMAS[0].name == "search" && TOOL_SCHEMAS[1].name == "calculator";
  }

  /** A tool call requested by the model: its identifier, the tool's name and the JSON text of its arguments. */
  datatype ToolCall = ToolCall(id: string, name: string, arguments: string)

  /** Why running a requested call raised; react_loop does not catch any of these. */
  datatype ToolError =
    | ArgumentsNotJson(callId: string)          // json.loads rejected the arguments text
    | UnknownTool(name: string)                 // FUNCTION_MAP[name] raised KeyError
    | ArgumentMismatch(name: string)            // the decoded arguments do not bind to the callable's signature
    | ToolRaised(name: string, reason: string)  // the callable itself raised

  /**
   * The library side of a call: json.loads on the arguments text (None when it
   * raises), and the calculator. The calculator turns an ordinary exception of
   * eval into an "error: ..." text, which is a Success here; Failure is an
   * exception its handler does not catch, such as SystemExit from "exit()".
   */
  datatype Toolbox = Toolbox(decodeArguments: string -> Option<Document>, calculator: JsonValue -> Result<string, string>)

  /** Calling a tool with its one argument bound: its text, or the exception that escaped it. */
  function Apply(tool: Tool, argument: JsonValue, box: Toolbox): Result<string, string> {
    match tool
    case SearchTool => Success(Search(PyStr(argument)))
    case CalculatorTool => box.calculator(argument)
  }

  /** One requested call: decode the arguments, look the tool up, call it with the arguments bound by keyword. */
  function ExecuteCall(call: ToolCall, box: Toolbox): (r: Result<string, ToolError>)
    ensures r == Failure(ArgumentsNotJson(call.id)) <==> box.decodeArguments(call.arguments).None?
  {
    match box.decodeArguments(call.arguments)
    case None => Failure(ArgumentsNotJson(call.id))
    case Some(args) =>
      if call.name !in FUNCTION_MAP then Failure(UnknownTool(call.name))
      else
        var tool := FUNCTION_MAP[call.name];
        if args.Object? && args.fields.Keys == {Parameter(tool)} then
          match Apply(tool, args.fields[Parameter(tool)], box)
          case Success(text) => Success(text)
          case Failure(reason) => Failure(ToolRaised(call.name, reason))
        else
          Failure(ArgumentMismatch(call.name))
  }

  /**
   * A call succeeds exactly when its arguments decode to an object whose only
   * key is the parameter of a registered tool and the tool itself does not
   * raise; an unregistered name fails at the lookup once the arguments
   * decode; only the calculator can raise by itself.
   */
  lemma ExecuteCallOutcomes(call: ToolCall, box: Toolbox)
    ensures ExecuteCall(call, box).Success? <==>
              && box.decodeArguments(call.arguments).Some?
              && call.name in FUNCTION_MAP
              && box.decodeArguments(call.arguments).value.Object?
              && box.decodeArguments(call.arguments).value.fields.Keys == {Parameter(FUNCTION_MAP[call.name])}
              && Apply(FUNCTION_MAP[call.name], box.decodeArguments(call.arguments).value.fields[Parameter(FUNCTION_MAP[call.name])], box).Success?
    ensures ExecuteCall(call, box).Failure? && ExecuteCall(call, box).error.UnknownTool? <==>
              box.decodeArguments(call.arguments).Some? && call.name !in {"search", "calculator"}
    ensures ExecuteCall(call, box).Failure? && ExecuteCall(call, box).error.ToolRaised? ==> call.name == "calculator"
  {
    RegistryMatchesSchemas();
  }

  /** search with a "query" argument answers with the canned text for that query. */
  lemma ExecuteSearch(call: ToolCall, box: Toolbox, query: string)
    requires call.name == "search"
    requires box.decodeArguments(call.arguments) == Some(Object(map["query" := JString(query)]))
    ensures ExecuteCall(call, box) == Success("Search results for '" + query + "'")
  {
  }

  /** calculator with an "expression" argument answers with the evaluator's text, or raises what escaped it. */
  lemma ExecuteCalculator(call: ToolCall, box: Toolbox, expression: JsonValue)
    requires call.name == "calculator"
    requires box.decodeArguments(call.arguments) == Some(Object(map["expression" := expression]))
    ensures box.calculator(expression).Success? ==> ExecuteCall(call, box) == Success(box.calculator(expression).value)
    ensures box.calculator(expression).Failure? ==>
              ExecuteCall(call, box) == Failure(ToolRaised("calculator", box.calculator(expression).error))
  {
  }
}
