/**
 * The chat service: from a list of role-tagged messages it picks the latest
 * user turn, optionally wraps it in a function-calling prompt, hands it to
 * the browser driver, and builds an OpenAI-style response whose usage
 * figures are character counts divided by four.
 *
 * The clock and the UUID generator the builders consult are a `Stamp`; the
 * regex-and-JSON scan of a reply for function calls is a `parse` function
 * that lists the candidate calls it finds, in the order the two passes of
 * the scan meet them.
 */
module Services {
  import opened Common
  import opened Models
  import opened Drivers
  import Utils

  /** What the clock and the UUID generator answer while one response is built. */
  datatype Stamp = Stamp(micros: nat, uuid: string, seconds: nat)

  function ResponseId(stamp: Stamp): string {
    Utils.GenerateId(Utils.DefaultIdPrefix, stamp.micros, stamp.uuid)
  }

  // ---------------------------------------------------------------------------
  // _get_latest_user_message
  // ---------------------------------------------------------------------------

  /** Message `i` is a user turn and no later message is. */
  predicate LastUserAt(messages: seq<ChatMessage>, i: int) {
    && 0 <= i < |messages|
    && messages[i].role == UserRole
    && forall j :: i < j < |messages| ==> messages[j].role != UserRole
  }

  /**
   * The last message whose role is "user", scanning from the end; None when
   * no message has that role (the empty list included).
   */
  function LatestUserMessage(messages: seq<ChatMessage>): (r: Option<ChatMessage>)
    ensures r.None? <==> forall i :: 0 <= i < |messages| ==> messages[i].role != UserRole
    ensures r.Some? ==> exists i :: LastUserAt(messages, i) && messages[i] == r.value
  {
    if messages == [] then None
    else if messages[|messages| - 1].role == UserRole then
      assert LastUserAt(messages, |messages| - 1);
      Some(messages[|messages| - 1])
    else
      var init := messages[..|messages| - 1];
      var r := LatestUserMessage(init);
      assert forall i :: 0 <= i < |init| ==> init[i] == messages[i];
      assert r.Some? ==> exists i :: LastUserAt(messages, i) && messages[i] == r.value by {
        if r.Some? {
          var i :| LastUserAt(init, i) && init[i] == r.value;
          assert LastUserAt(messages, i);
        }
      }
      r
  }

  // ---------------------------------------------------------------------------
  // Usage estimates
  // ---------------------------------------------------------------------------

  /** `msg.content or ''`. */
  function ContentOrEmpty(m: ChatMessage): string {
    if m.content.Some? then m.content.value else ""
  }

  /** The characters of all contents, an absent content counting as none. */
  function TotalChars(messages: seq<ChatMessage>): nat {
    if messages == [] then 0
    else TotalChars(messages[..|messages| - 1]) + |ContentOrEmpty(messages[|messages| - 1])|
  }

  /**
   * _estimate_tokens: a quarter of the characters, rounded down, but never
   * below one.
   */
  function EstimateTokens(messages: seq<ChatMessage>): (r: nat)
    ensures r >= 1
    ensures TotalChars(messages) >= 4 ==> 4 * r <= TotalChars(messages) < 4 * r + 4
    ensures TotalChars(messages) < 4 ==> r == 1
  {
    var q := TotalChars(messages) / 4;
    if q < 1 then 1 else q
  }

  /** Twelve characters ("Hello world!") are estimated as three tokens. */
  lemma EstimateTwelveCharacters()
    ensures EstimateTokens([Message(UserRole, Some("Hello world!"))]) == 3
  {
    var ms := [Message(UserRole, Some("Hello world!"))];
    assert ms[..0] == [];
    assert |ContentOrEmpty(ms[0])| == 12;
    assert TotalChars(ms) == 12;
  }

  /** `' '.join(msg.content or '' for msg in messages)`. */
  function JoinContents(messages: seq<ChatMessage>): string {
    if |messages| == 0 then ""
    else if |messages| == 1 then ContentOrEmpty(messages[0])
    else JoinContents(messages[..|messages| - 1]) + " " + ContentOrEmpty(messages[|messages| - 1])
  }

  /** The joined text holds every content plus one space between neighbours. */
  lemma {:induction false} JoinedLength(messages: seq<ChatMessage>)
    ensures |JoinContents(messages)| == TotalChars(messages) + (if |messages| == 0 then 0 else |messages| - 1)
  {
    if |messages| == 1 {
      assert messages[..0] == [];
    } else if |messages| > 1 {
      JoinedLength(messages[..|messages| - 1]);
    }
  }

  // ---------------------------------------------------------------------------
  // _build_response, _build_error_response, _build_function_call_response
  // ---------------------------------------------------------------------------

  const StopReason := "stop"
  const FunctionCallReason := "function_call"
  const ErrorPreamble := "I apologize, but I encountered an error while processing your request: "

  /**
   * _build_response: one assistant choice carrying `content`, the model
   * copied from the request, and estimated usage that adds up.
   */
  function BuildResponse(request: ChatCompletionRequest, content: string, stamp: Stamp): (r: ChatCompletionResponse)
    ensures |r.choices| == 1
    ensures r.choices[0] == ChatCompletionChoice(0, Message(AssistantRole, Some(content)), StopReason)
    ensures r.choices[0].message.functionCall.None?
    ensures r.model == request.model && r.objectName == CompletionObject
    ensures r.id == ResponseId(stamp) && r.created == stamp.seconds
    ensures r.usage.promptTokens == EstimateTokens(request.messages)
    ensures r.usage.completionTokens == (if |content| / 4 == 0 then 1 else |content| / 4)
    ensures r.usage.totalTokens == r.usage.promptTokens + r.usage.completionTokens
  {
    var promptTokens := EstimateTokens(request.messages);
    var completionTokens := EstimateTokens([Message(AssistantRole, Some(content))]);
    assert [Message(AssistantRole, Some(content))][..0] == [];
    assert TotalChars([Message(AssistantRole, Some(content))]) == |content|;
    var choice := ChatCompletionChoice(0, Message(AssistantRole, Some(content)), StopReason);
    var usage := ChatCompletionUsage(promptTokens, completionTokens, promptTokens + completionTokens);
    ChatCompletionResponse(ResponseId(stamp), CompletionObject, stamp.seconds, request.model, [choice], usage)
  }

  /**
   * What _build_error_response builds: one assistant choice apologising with
   * the error text. Usage is a quarter of the space-joined request contents
   * and of the error text, with no lower bound of one, and the total is
   * their sum.
   */
  function ErrorResponse(request: ChatCompletionRequest, errorMessage: string, stamp: Stamp): (r: ChatCompletionResponse)
    ensures |r.choices| == 1
    ensures r.choices[0] == ChatCompletionChoice(0, Message(AssistantRole, Some(ErrorPreamble + errorMessage)), StopReason)
    ensures r.model == request.model && r.id == ResponseId(stamp) && r.created == stamp.seconds
    ensures r.objectName == CompletionObject
    ensures r.usage.promptTokens
      == (TotalChars(request.messages) + (if |request.messages| == 0 then 0 else |request.messages| - 1)) / 4
    ensures r.usage.completionTokens == |errorMessage| / 4
    ensures r.usage.totalTokens == r.usage.promptTokens + r.usage.completionTokens
  {
    JoinedLength(request.messages);
    var choice := ChatCompletionChoice(0, Message(AssistantRole, Some(ErrorPreamble + errorMessage)), StopReason);
    var promptTokens := |JoinContents(request.messages)| / 4;
    var completionTokens := |errorMessage| / 4;
    var usage := ChatCompletionUsage(promptTokens, completionTokens, promptTokens + completionTokens);
    ChatCompletionResponse(ResponseId(stamp), CompletionObject, stamp.seconds, request.model, [choice], usage)
  }

  /** _build_error_response: the record is built with a zero total, which is then set to the sum. */
  method BuildErrorResponse(request: ChatCompletionRequest, errorMessage: string, stamp: Stamp)
    returns (response: ChatCompletionResponse)
    ensures response == ErrorResponse(request, errorMessage, stamp)
  {
    var message := Message(AssistantRole, Some(ErrorPreamble + errorMessage));
    var choice := ChatCompletionChoice(0, message, StopReason);
    var usage := ChatCompletionUsage(|JoinContents(request.messages)| / 4, |errorMessage| / 4, 0);
    usage := usage.(totalTokens := usage.promptTokens + usage.completionTokens);
    response := ChatCompletionResponse(ResponseId(stamp), CompletionObject, stamp.seconds, request.model, [choice], usage);
  }

  /**
   * A function_call object found in a reply: its "name" and "arguments"
   * entries when present as strings.
   */
  datatype CallCandidate = CallCandidate(name: Option<string>, arguments: Option<string>)

  /** `str(KeyError(key))`. */
  function KeyErrorText(key: string): string {
    "'" + key + "'"
  }

  /**
   * What _build_function_call_response builds: one assistant choice with no
   * content and the call, finish reason "function_call", usage as for errors
   * but over the reply text. Reading a missing "name" or "arguments" raises
   * KeyError.
   */
  function CallResponse(request: ChatCompletionRequest, call: CallCandidate, responseContent: string, stamp: Stamp)
    : (r: Result<ChatCompletionResponse>)
    ensures call.name.None? ==> r == Raised(KeyErrorText("name"))
    ensures call.name.Some? && call.arguments.None? ==> r == Raised(KeyErrorText("arguments"))
    ensures call.name.Some? && call.arguments.Some? ==> r.Ok?
    ensures r.Ok? ==> |r.value.choices| == 1 && r.value.choices[0] == ChatCompletionChoice(
      0, ChatMessage(AssistantRole, None, Some(FunctionCall(call.name.value, call.arguments.value))), FunctionCallReason)
    ensures r.Ok? ==> r.value.model == request.model && r.value.id == ResponseId(stamp) && r.value.created == stamp.seconds
    ensures r.Ok? ==> r.value.objectName == CompletionObject
    ensures r.Ok? ==> (r.value.usage.promptTokens
      == (TotalChars(request.messages) + (if |request.messages| == 0 then 0 else |request.messages| - 1)) / 4)
    ensures r.Ok? ==> r.value.usage.completionTokens == |responseContent| / 4
    ensures r.Ok? ==> r.value.usage.totalTokens == r.value.usage.promptTokens + r.value.usage.completionTokens
  {
    if call.name.None? then Raised(KeyErrorText("name"))
    else if call.arguments.None? then Raised(KeyErrorText("arguments"))
    else
      JoinedLength(request.messages);
      var message := ChatMessage(AssistantRole, None, Some(FunctionCall(call.name.value, call.arguments.value)));
      var choice := ChatCompletionChoice(0, message, FunctionCallReason);
      var promptTokens := |JoinContents(request.messages)| / 4;
      var completionTokens := |responseContent| / 4;
      var usage := ChatCompletionUsage(promptTokens, completionTokens, promptTokens + completionTokens);
      Ok(ChatCompletionResponse(ResponseId(stamp), CompletionObject, stamp.seconds, request.model, [choice], usage))
  }

  /** _build_function_call_response: reads the two keys, then sets the total after construction. */
  method BuildFunctionCallResponse(request: ChatCompletionRequest, call: CallCandidate, responseContent: string, stamp: Stamp)
    returns (r: Result<ChatCompletionResponse>)
    ensures r == CallResponse(request, call, responseContent, stamp)
  {
    if call.name.None? {
      return Raised(KeyErrorText("name"));
    }
    if call.arguments.None? {
      return Raised(KeyErrorText("arguments"));
    }
    var message := ChatMessage(AssistantRole, None, Some(FunctionCall(call.name.value, call.arguments.value)));
    var choice := ChatCompletionChoice(0, message, FunctionCallReason);
    var usage := ChatCompletionUsage(|JoinContents(request.messages)| / 4, |responseContent| / 4, 0);
    usage := usage.(totalTokens := usage.promptTokens + usage.completionTokens);
    return Ok(ChatCompletionResponse(ResponseId(stamp), CompletionObject, stamp.seconds, request.model, [choice], usage));
  }

  // ---------------------------------------------------------------------------
  // Function definitions: _extract_functions_from_tools and the declared list
  // ---------------------------------------------------------------------------

  const FunctionKind := "function"

  /** The functions of the tools whose type is "function", in tool order. */
  function FunctionsOf(tools: seq<ToolDefinition>): (r: seq<FunctionDefinition>)
    ensures |r| <= |tools|
    ensures forall f :: f in r ==> exists i :: 0 <= i < |tools| && tools[i].kind == FunctionKind && tools[i].definition == f
    ensures forall i :: 0 <= i < |tools| && tools[i].kind == FunctionKind ==> tools[i].definition in r
  {
    if tools == [] then []
    else
      var init := FunctionsOf(tools[..|tools| - 1]);
      var last := tools[|tools| - 1];
      assert forall i :: 0 <= i < |tools| - 1 ==> tools[..|tools| - 1][i] == tools[i];
      if last.kind == FunctionKind then init + [last.definition] else init
  }

  /** Extraction distributes over concatenation, so it keeps the tools' order. */
  lemma {:induction false} FunctionsOfAppend(a: seq<ToolDefinition>, b: seq<ToolDefinition>)
    ensures FunctionsOf(a + b) == FunctionsOf(a) + FunctionsOf(b)
    decreases |b|
  {
    if b == [] {
      assert a + b == a;
    } else {
      assert (a + b)[..|a + b| - 1] == a + b[..|b| - 1];
      FunctionsOfAppend(a, b[..|b| - 1]);
    }
  }

  /** _extract_functions_from_tools: nothing for None or an empty list. */
  function ExtractFunctions(tools: Option<seq<ToolDefinition>>): (r: seq<FunctionDefinition>)
    ensures !Truthy(tools) ==> r == []
    ensures tools.Some? ==> r == FunctionsOf(tools.value)
  {
    if !Truthy(tools) then [] else FunctionsOf(tools.value)
  }

  /** `request.functions or self._extract_functions_from_tools(request.tools)`. */
  function DeclaredFunctions(request: ChatCompletionRequest): seq<FunctionDefinition> {
    if Truthy(request.functions) then request.functions.value else ExtractFunctions(request.tools)
  }

  /** The request takes the function-calling path: functions or tools is a non-empty list. */
  predicate WantsFunctions(request: ChatCompletionRequest) {
    Truthy(request.functions) || Truthy(request.tools)
  }

  // ---------------------------------------------------------------------------
  // _build_function_context and _build_function_message
  // ---------------------------------------------------------------------------

  const ContextHeader := "I have access to the following functions that I can call to help answer your question:\n\n"

  const ContextFooter :=
    "When you need to call a function, please respond with a JSON object in this exact format:\n"
    + "{\"function_call\": {\"name\": \"function_name\", \"arguments\": \"{\\\"parameter\\\": \\\"value\\\"}\"}}\n\n"
    + "Make sure to use proper JSON formatting with escaped quotes in the arguments.\n\n"

  function OrElse(s: Option<string>, default: string): string {
    if s.Some? then s.value else default
  }

  /** One parameter's line: name, type (default "string"), required or optional, description. */
  function ParameterLine(p: Property, required: seq<string>): string {
    "  - " + p.name + " (" + OrElse(p.kind, "string") + ")"
    + (if p.name in required then " (required)" else " (optional)")
    + ": " + OrElse(p.description, "") + "\n"
  }

  function ParameterLines(props: seq<Property>, required: seq<string>): string {
    if props == [] then ""
    else ParameterLines(props[..|props| - 1], required) + ParameterLine(props[|props| - 1], required)
  }

  /** The "Parameters:" part of a function's entry; empty when the schema object is empty. */
  function ParametersText(schema: Schema): string {
    if schema.IsTruthy() then
      var props := if schema.properties.Some? then schema.properties.value else [];
      var required := if schema.required.Some? then schema.required.value else [];
      "Parameters:\n" + ParameterLines(props, required)
    else ""
  }

  function NameLine(f: FunctionDefinition): string {
    "Function: " + f.name + "\n"
  }

  function DescriptionLine(f: FunctionDefinition): string {
    "Description: " + f.description + "\n"
  }

  /** One function's entry: its name, description, parameters and a blank line. */
  function FunctionBlock(f: FunctionDefinition): string {
    NameLine(f) + DescriptionLine(f) + ParametersText(f.parameters) + "\n"
  }

  function FunctionBlocks(functions: seq<FunctionDefinition>): string {
    if functions == [] then ""
    else FunctionBlocks(functions[..|functions| - 1]) + FunctionBlock(functions[|functions| - 1])
  }

  /**
   * The prompt describing the declared functions: empty when there are none;
   * otherwise the header, one entry per function in order, and the footer
   * that asks for a JSON function_call object.
   */
  function FunctionContext(functions: seq<FunctionDefinition>): (r: string)
    ensures r == "" <==> functions == []
    ensures functions != [] ==> |r| >= |ContextHeader| + |ContextFooter|
    ensures functions != [] ==> r[..|ContextHeader|] == ContextHeader && r[|r| - |ContextFooter|..] == ContextFooter
  {
    if functions == [] then "" else ContextHeader + FunctionBlocks(functions) + ContextFooter
  }

  /** Every declared function's name line appears in the prompt. */
  lemma EveryFunctionNamed(functions: seq<FunctionDefinition>, f: FunctionDefinition)
    requires f in functions
    ensures Contains(FunctionContext(functions), NameLine(f))
  {
    var k := BlockOffset(functions, f);
    OccursInSuffix(ContextHeader, FunctionBlocks(functions), NameLine(f), k);
    OccursInPrefix(ContextHeader + FunctionBlocks(functions), ContextFooter, NameLine(f), |ContextHeader| + k);
  }

  /** Where in the concatenated entries the name line of `f` starts. */
  lemma {:induction false} BlockOffset(functions: seq<FunctionDefinition>, f: FunctionDefinition) returns (k: nat)
    requires f in functions
    ensures OccursAt(FunctionBlocks(functions), NameLine(f), k)
    decreases |functions|
  {
    var init := functions[..|functions| - 1];
    var last := functions[|functions| - 1];
    assert FunctionBlocks(functions) == FunctionBlocks(init) + FunctionBlock(last);
    if f == last {
      assert OccursAt(NameLine(f), NameLine(f), 0);
      OccursInPrefix(NameLine(f), DescriptionLine(f), NameLine(f), 0);
      OccursInPrefix(NameLine(f) + DescriptionLine(f), ParametersText(f.parameters), NameLine(f), 0);
      OccursInPrefix(NameLine(f) + DescriptionLine(f) + ParametersText(f.parameters), "\n", NameLine(f), 0);
      OccursInSuffix(FunctionBlocks(init), FunctionBlock(last), NameLine(f), 0);
      k := |FunctionBlocks(init)|;
    } else {
      assert functions == init + [last];
      assert f in init;
      k := BlockOffset(init, f);
      OccursInPrefix(FunctionBlocks(init), FunctionBlock(last), NameLine(f), k);
    }
  }

  /** The inner loop of _build_function_context: one line per parameter, in order. */
  method AppendParameterLines(context: string, params: seq<Property>, required: seq<string>) returns (extended: string)
    ensures extended == context + ParameterLines(params, required)
  {
    extended := context;
    var j := 0;
    while j < |params|
      invariant 0 <= j <= |params|
      invariant extended == context + ParameterLines(params[..j], required)
    {
      var param := params[j];
      var paramType := OrElse(param.kind, "string");
      var paramDesc := OrElse(param.description, "");
      var reqText := if param.name in required then " (required)" else " (optional)";
      var line := "  - " + param.name + " (" + paramType + ")" + reqText + ": " + paramDesc + "\n";
      assert line == ParameterLine(param, required);
      assert params[..j + 1][..j] == params[..j];
      assert ParameterLines(params[..j + 1], required) == ParameterLines(params[..j], required) + line;
      AppendAssoc(context, ParameterLines(params[..j], required), line);
      extended := extended + line;
      j := j + 1;
    }
    assert params[..j] == params;
  }

  /**
   * The parameter part of one function's entry, appended to `context`;
   * nothing when the schema object is empty.
   */
  method AppendParameters(context: string, schema: Schema) returns (extended: string)
    ensures extended == context + ParametersText(schema)
  {
    extended := context;
    if schema.IsTruthy() {
      var params := if schema.properties.Some? then schema.properties.value else [];
      var required := if schema.required.Some? then schema.required.value else [];
      extended := AppendParameterLines(extended + "Parameters:\n", params, required);
      AppendAssoc(context, "Parameters:\n", ParameterLines(params, required));
    }
  }

  /** One function's entry appended to `context`: name line, description line, parameters, blank line. */
  method AppendFunctionBlock(context: string, func: FunctionDefinition) returns (extended: string)
    ensures extended == context + FunctionBlock(func)
  {
    extended := context + ("Function: " + func.name + "\n");
    assert extended == context + NameLine(func);
    extended := extended + ("Description: " + func.description + "\n");
    assert extended == context + NameLine(func) + DescriptionLine(func);
    extended := AppendParameters(extended, func.parameters);
    extended := extended + "\n";
    AppendAssoc(context, NameLine(func), DescriptionLine(func));
    AppendAssoc(context, NameLine(func) + DescriptionLine(func), ParametersText(func.parameters));
    AppendAssoc(context, NameLine(func) + DescriptionLine(func) + ParametersText(func.parameters), "\n");
  }

  /** The loop of _build_function_context: each function's entry appended in order. */
  method AppendFunctionBlocks(context: string, functions: seq<FunctionDefinition>) returns (extended: string)
    ensures extended == context + FunctionBlocks(functions)
  {
    extended := context;
    var i := 0;
    while i < |functions|
      invariant 0 <= i <= |functions|
      invariant extended == context + FunctionBlocks(functions[..i])
    {
      extended := AppendFunctionBlock(extended, functions[i]);
      assert functions[..i + 1][..i] == functions[..i];
      AppendAssoc(context, FunctionBlocks(functions[..i]), FunctionBlock(functions[i]));
      i := i + 1;
    }
    assert functions[..i] == functions;
  }

  /**
   * _build_function_context: the prompt for the request's declared
   * functions, accumulated entry by entry and line by line.
   */
  method BuildFunctionContext(request: ChatCompletionRequest) returns (context: string)
    ensures context == FunctionContext(DeclaredFunctions(request))
  {
    var functions := DeclaredFunctions(request);
    if |functions| == 0 {
      return "";
    }
    context := AppendFunctionBlocks(ContextHeader, functions);
    context := context + ContextFooter;
  }

  const UserRequestLabel := "\nUser request: "

  /**
   * _build_function_message: the function prompt, then the user's request
   * after a "User request:" label on a new line, so that the request can be
   * read back from the end of the message.
   */
  function BuildFunctionMessage(userContent: string, functionContext: string): (r: string)
    ensures |r| == |functionContext| + |UserRequestLabel| + |userContent|
    ensures r[..|functionContext|] == functionContext
    ensures r[|functionContext|..|functionContext| + |UserRequestLabel|] == UserRequestLabel
    ensures r[|r| - |userContent|..] == userContent
  {
    functionContext + UserRequestLabel + userContent
  }

  /** The function-calling prompt for the request's latest user turn. */
  function EnhancedMessage(request: ChatCompletionRequest): string {
    var user := LatestUserMessage(request.messages);
    BuildFunctionMessage(if user.Some? then ContentOrEmpty(user.value) else "", FunctionContext(DeclaredFunctions(request)))
  }

  // ---------------------------------------------------------------------------
  // _detect_function_call
  // ---------------------------------------------------------------------------

  /** `any(f.name == name for f in functions)`: a missing name matches nothing. */
  predicate Declares(functions: seq<FunctionDefinition>, name: Option<string>) {
    name.Some? && exists i :: 0 <= i < |functions| && functions[i].name == name.value
  }

  /** Candidate `i` is the first whose name is declared. */
  predicate FirstDeclaredAt(candidates: seq<CallCandidate>, functions: seq<FunctionDefinition>, i: int) {
    && 0 <= i < |candidates|
    && Declares(functions, candidates[i].name)
    && forall j :: 0 <= j < i ==> !Declares(functions, candidates[j].name)
  }

  /** No candidate names a declared function. */
  predicate NoneDeclared(candidates: seq<CallCandidate>, functions: seq<FunctionDefinition>) {
    forall i :: 0 <= i < |candidates| ==> !Declares(functions, candidates[i].name)
  }

  /** The first candidate, in scan order, whose name is declared. */
  function FirstDeclared(candidates: seq<CallCandidate>, functions: seq<FunctionDefinition>): (r: Option<CallCandidate>)
    ensures r.Some? ==> Declares(functions, r.value.name)
    ensures functions == [] ==> r.None?
  {
    if candidates == [] then None
    else if Declares(functions, candidates[0].name) then Some(candidates[0])
    else FirstDeclared(candidates[1..], functions)
  }

  /**
   * FirstDeclared finds the earliest declared candidate, and finds nothing
   * exactly when no candidate is declared.
   */
  lemma {:induction false} FirstDeclaredIsFirst(candidates: seq<CallCandidate>, functions: seq<FunctionDefinition>)
    ensures FirstDeclared(candidates, functions).Some? ==>
      exists i :: FirstDeclaredAt(candidates, functions, i) && candidates[i] == FirstDeclared(candidates, functions).value
    ensures FirstDeclared(candidates, functions).None? <==> NoneDeclared(candidates, functions)
  {
    if candidates == [] {
    } else if Declares(functions, candidates[0].name) {
      assert FirstDeclaredAt(candidates, functions, 0);
    } else {
      var rest := candidates[1..];
      FirstDeclaredIsFirst(rest, functions);
      if FirstDeclared(rest, functions).Some? {
        var i :| FirstDeclaredAt(rest, functions, i) && rest[i] == FirstDeclared(rest, functions).value;
        forall j | 0 <= j < i + 1
          ensures !Declares(functions, candidates[j].name)
        {
          if j > 0 {
            assert candidates[j] == rest[j - 1];
          }
        }
        assert FirstDeclaredAt(candidates, functions, i + 1);
      } else {
        forall j | 0 <= j < |candidates|
          ensures !Declares(functions, candidates[j].name)
        {
          if j > 0 {
            assert candidates[j] == rest[j - 1];
          }
        }
      }
    }
  }

  /**
   * _detect_function_call over the candidates the scan found: the first
   * candidate whose name is declared, or None. No undeclared name ever
   * comes back.
   */
  method DetectFunctionCall(candidates: seq<CallCandidate>, functions: seq<FunctionDefinition>)
    returns (call: Option<CallCandidate>)
    ensures call == FirstDeclared(candidates, functions)
    ensures call.Some? ==> exists i :: FirstDeclaredAt(candidates, functions, i) && candidates[i] == call.value
    ensures call.None? <==> NoneDeclared(candidates, functions)
  {
    FirstDeclaredIsFirst(candidates, functions);
    var i := 0;
    while i < |candidates|
      invariant 0 <= i <= |candidates|
      invariant FirstDeclared(candidates[i..], functions) == FirstDeclared(candidates, functions)
    {
      var funcCall := candidates[i];
      assert candidates[i..][0] == funcCall && candidates[i..][1..] == candidates[i + 1..];
      if Declares(functions, funcCall.name) {
        return Some(funcCall);
      }
      i := i + 1;
    }
    return None;
  }

  // ---------------------------------------------------------------------------
  // The service object
  // ---------------------------------------------------------------------------

  const SendFailedMessage := "Failed to process function calling request"
  const FunctionErrorPrefix := "Function calling error: "

  /**
   * What _handle_function_calling answers once the driver has replied (or
   * raised): an error response for an exception or an empty reply, a
   * function-call response when the reply names a declared function (an
   * error response if that call lacks its arguments), and a plain response
   * otherwise.
   */
  function FunctionAnswer(request: ChatCompletionRequest, reply: Result<string>,
                          parse: string -> seq<CallCandidate>, stamp: Stamp): (r: ChatCompletionResponse)
    ensures |r.choices| == 1 && r.model == request.model && r.id == ResponseId(stamp)
    ensures r.choices[0].message.functionCall.Some? ==>
      Declares(DeclaredFunctions(request), Some(r.choices[0].message.functionCall.value.name))
    ensures reply.Raised? ==> r == ErrorResponse(request, FunctionErrorPrefix + reply.message, stamp)
    ensures reply.Raised? ==>
      r.choices[0] == ChatCompletionChoice(0, Message(AssistantRole, Some(ErrorPreamble + (FunctionErrorPrefix + reply.message))), StopReason)
    ensures reply == Ok("") ==> r == ErrorResponse(request, SendFailedMessage, stamp)
    ensures reply == Ok("") ==>
      r.choices[0] == ChatCompletionChoice(0, Message(AssistantRole, Some(ErrorPreamble + SendFailedMessage)), StopReason)
    ensures (reply.Ok? && reply.value != "" && FirstDeclared(parse(reply.value), DeclaredFunctions(request)).None?) ==>
      r == BuildResponse(request, reply.value, stamp)
    ensures (reply.Ok? && reply.value != "") ==>
      (var call := FirstDeclared(parse(reply.value), DeclaredFunctions(request));
       call.Some? && call.value.arguments.Some? ==>
         && CallResponse(request, call.value, reply.value, stamp).Ok?
         && r == CallResponse(request, call.value, reply.value, stamp).value
         && r.choices[0] == ChatCompletionChoice(0,
              ChatMessage(AssistantRole, None, Some(FunctionCall(call.value.name.value, call.value.arguments.value))),
              FunctionCallReason)
         && r.usage.completionTokens == |reply.value| / 4
         && r.usage.totalTokens == r.usage.promptTokens + r.usage.completionTokens)
    ensures (reply.Ok? && reply.value != "") ==>
      (var call := FirstDeclared(parse(reply.value), DeclaredFunctions(request));
       call.Some? && call.value.arguments.None? ==>
         r == ErrorResponse(request, FunctionErrorPrefix + KeyErrorText("arguments"), stamp))
  {
    if reply.Raised? then ErrorResponse(request, FunctionErrorPrefix + reply.message, stamp)
    else if reply.value == "" then ErrorResponse(request, SendFailedMessage, stamp)
    else
      match FirstDeclared(parse(reply.value), DeclaredFunctions(request))
      case None => BuildResponse(request, reply.value, stamp)
      case Some(call) =>
        match CallResponse(request, call, reply.value, stamp)
        case Ok(response) => response
        case Raised(message) => ErrorResponse(request, FunctionErrorPrefix + message, stamp)
  }

  /** The answering step of _handle_function_calling, as the code does it. */
  method AnswerFunctionReply(request: ChatCompletionRequest, reply: Result<string>,
                             parse: string -> seq<CallCandidate>, stamp: Stamp)
    returns (r: ChatCompletionResponse)
    ensures r == FunctionAnswer(request, reply, parse, stamp)
  {
    if reply.Raised? {
      r := BuildErrorResponse(request, FunctionErrorPrefix + reply.message, stamp);
      return;
    }
    if reply.value == "" {
      r := BuildErrorResponse(request, SendFailedMessage, stamp);
      return;
    }
    var functionCall := DetectFunctionCall(parse(reply.value), DeclaredFunctions(request));
    if functionCall.Some? {
      var built := BuildFunctionCallResponse(request, functionCall.value, reply.value, stamp);
      if built.Raised? {
        r := BuildErrorResponse(request, FunctionErrorPrefix + built.message, stamp);
        return;
      }
      return built.value;
    }
    return BuildResponse(request, reply.value, stamp);
  }

  class ChatGPTService {
    var driver: ChatGPTDriver

    /** A new service owns a new, inactive driver; the session starts lazily. */
    constructor ()
      ensures fresh(driver)
      ensures driver.State() == DriverState(None, None, false)
    {
      driver := new ChatGPTDriver();
    }

    /** _initialize_session: one start attempt, its result only logged. */
    method InitializeSession(launch: Launch)
      modifies driver
      ensures driver.State() == StartTransition(old(driver.State()), launch).state
    {
      var ok := driver.StartSession(launch);
    }

    /**
     * _handle_regular_chat: sends the latest user turn's content and wraps
     * the reply. No user turn gives None without touching the page; an
     * exception from the driver is passed on.
     */
    method HandleRegularChat(request: ChatCompletionRequest, page: Page, stamp: Stamp)
      returns (r: Result<Option<ChatCompletionResponse>>, trace: seq<Action>)
      ensures LatestUserMessage(request.messages).None? ==> r == Ok(None) && trace == []
      ensures LatestUserMessage(request.messages).Some? && driver.IsSessionActive() ==>
        var x := SendOutcome(LatestUserMessage(request.messages).value.content, page);
        r == Ok(Some(BuildResponse(request, x.reply, stamp))) && trace == x.trace
      ensures LatestUserMessage(request.messages).Some? && !driver.IsSessionActive() ==>
        r == Raised(NotActiveMessage) && trace == []
      ensures r.Ok? && r.value.Some? ==> |r.value.value.choices| == 1 && r.value.value.choices[0].message.functionCall.None?
    {
      var userMessage := LatestUserMessage(request.messages);
      if userMessage.None? {
        return Ok(None), [];
      }
      var reply;
      reply, trace := driver.SendMessage(userMessage.value.content, page);
      if reply.Raised? {
        return Raised(reply.message), trace;
      }
      if reply.value == "" {
        return Ok(None), trace;
      }
      return Ok(Some(BuildResponse(request, reply.value, stamp))), trace;
    }

    /**
     * _handle_function_calling: sends the latest user turn wrapped in the
     * function prompt, then answers with a function-call response when the
     * reply names a declared function, with a plain response otherwise, and
     * with an error response when anything raises. No user turn gives None
     * without touching the page.
     */
    method HandleFunctionCalling(request: ChatCompletionRequest, page: Page, parse: string -> seq<CallCandidate>, stamp: Stamp)
      returns (r: Option<ChatCompletionResponse>, trace: seq<Action>)
      ensures LatestUserMessage(request.messages).None? ==> r.None? && trace == []
      ensures LatestUserMessage(request.messages).Some? ==> r.Some?
      ensures r.Some? ==> |r.value.choices| == 1
      ensures r.Some? && r.value.choices[0].message.functionCall.Some? ==>
        Declares(DeclaredFunctions(request), Some(r.value.choices[0].message.functionCall.value.name))
      ensures LatestUserMessage(request.messages).Some? && driver.IsSessionActive() ==>
        var x := SendOutcome(Some(EnhancedMessage(request)), page);
        r == Some(FunctionAnswer(request, Ok(x.reply), parse, stamp)) && trace == x.trace
      ensures LatestUserMessage(request.messages).Some? && !driver.IsSessionActive() ==>
        r == Some(FunctionAnswer(request, Raised(NotActiveMessage), parse, stamp))
      ensures !driver.IsSessionActive() ==> trace == []
    {
      var functionContext := BuildFunctionContext(request);
      var userMessage := LatestUserMessage(request.messages);
      if userMessage.None? {
        return None, [];
      }
      var enhancedMessage := BuildFunctionMessage(ContentOrEmpty(userMessage.value), functionContext);
      var reply;
      reply, trace := driver.SendMessage(Some(enhancedMessage), page);
      var answer := AnswerFunctionReply(request, reply, parse, stamp);
      return Some(answer), trace;
    }

    /**
     * create_chat_completion. An inactive session gets exactly one start
     * attempt; if it is still inactive the answer is None and the page is
     * untouched. A request with non-empty functions or tools takes the
     * function-calling path, any other the regular path. A response comes
     * back exactly when the session is active and there is a user turn;
     * exceptions become None.
     */
    method CreateChatCompletion(request: ChatCompletionRequest, launch: Launch, page: Page,
                                parse: string -> seq<CallCandidate>, stamp: Stamp)
      returns (r: Option<ChatCompletionResponse>, trace: seq<Action>)
      modifies driver
      ensures old(driver.IsSessionActive()) ==> driver.State() == old(driver.State())
      ensures !old(driver.IsSessionActive()) ==> driver.State() == StartTransition(old(driver.State()), launch).state
      ensures r.Some? <==> driver.IsSessionActive() && LatestUserMessage(request.messages).Some?
      ensures !driver.IsSessionActive() || LatestUserMessage(request.messages).None? ==> trace == []
      ensures r.Some? && !WantsFunctions(request) ==>
        var x := SendOutcome(LatestUserMessage(request.messages).value.content, page);
        r == Some(BuildResponse(request, x.reply, stamp)) && trace == x.trace
      ensures r.Some? && WantsFunctions(request) ==>
        var x := SendOutcome(Some(EnhancedMessage(request)), page);
        r == Some(FunctionAnswer(request, Ok(x.reply), parse, stamp)) && trace == x.trace
      ensures r.Some? ==> |r.value.choices| == 1
      ensures r.Some? && r.value.choices[0].message.functionCall.Some? ==>
        WantsFunctions(request)
        && Declares(DeclaredFunctions(request), Some(r.value.choices[0].message.functionCall.value.name))
    {
      if !driver.IsSessionActive() {
        InitializeSession(launch);
        if !driver.IsSessionActive() {
          return None, [];
        }
      }
      if WantsFunctions(request) {
        r, trace := HandleFunctionCalling(request, page, parse, stamp);
        return;
      }
      var outcome;
      outcome, trace := HandleRegularChat(request, page, stamp);
      if outcome.Raised? {
        return None, trace;
      }
      r := outcome.value;
    }

    /** health_check: whether the driver's session is active. */
    method HealthCheck() returns (healthy: bool)
      ensures healthy <==> Live(driver.State())
    {
      healthy := driver.IsSessionActive();
    }

    /** cleanup: closes the driver's session. */
    method Cleanup()
      modifies driver
      ensures driver.State() == CloseTransition(old(driver.State()))
      ensures !driver.IsSessionActive()
    {
      driver.CloseSession();
    }
  }
}
