/**
 * The request and response records of the chat-completion API, reduced to
 * the fields the chat service reads or writes. Sampling parameters
 * (temperature, top_p), max_tokens, stream and the tool-choice hints are
 * not read by the service and are not part of this model.
 */
module Models {
  import opened Common

  const UserRole := "user"
  const AssistantRole := "assistant"

  /** A call the assistant asks the client to make; `arguments` is a JSON text. */
  datatype FunctionCall = FunctionCall(name: string, arguments: string)

  /** One role-tagged turn. `content` is absent on a pure function-call turn. */
  datatype ChatMessage = ChatMessage(role: string, content: Option<string>, functionCall: Option<FunctionCall>)

  /** A plain turn without a function call. */
  function Message(role: string, content: Option<string>): ChatMessage {
    ChatMessage(role, content, None)
  }

  /**
   * One entry of a JSON Schema `properties` object; `kind` and `description`
   * are absent when the entry has no `type` or `description` key.
   */
  datatype Property = Property(name: string, kind: Option<string>, description: Option<string>)

  /**
   * The `parameters` JSON Schema of a function definition: its `properties`
   * (in insertion order) and `required` entries when those keys are present,
   * and whether the object holds any other key. An object is falsy in Python
   * exactly when it holds no key at all.
   */
  datatype Schema = Schema(properties: Option<seq<Property>>, required: Option<seq<string>>, hasOtherKeys: bool) {
    predicate IsTruthy() {
      properties.Some? || required.Some? || hasOtherKeys
    }
  }

  datatype FunctionDefinition = FunctionDefinition(name: string, description: string, parameters: Schema)

  /** A tool entry; only `kind == "function"` tools carry a usable function. */
  datatype ToolDefinition = ToolDefinition(kind: string, definition: FunctionDefinition)

  datatype ChatCompletionRequest = ChatCompletionRequest(
    model: string,
    messages: seq<ChatMessage>,
    functions: Option<seq<FunctionDefinition>>,
    tools: Option<seq<ToolDefinition>>)

  datatype ChatCompletionChoice = ChatCompletionChoice(index: nat, message: ChatMessage, finishReason: string)

  datatype ChatCompletionUsage = ChatCompletionUsage(promptTokens: nat, completionTokens: nat, totalTokens: nat)

  datatype ChatCompletionResponse = ChatCompletionResponse(
    id: string,
    objectName: string,
    created: nat,
    model: string,
    choices: seq<ChatCompletionChoice>,
    usage: ChatCompletionUsage)

  const CompletionObject := "chat.completion"
}
