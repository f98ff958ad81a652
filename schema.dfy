/**
 * The records of src/types/schema.ts: the agents the user defines and the
 * responses shown for them.
 */
module Schema {

  import opened Wrappers

  datatype AgentColor = Blue | Green | Red | Purple | Yellow

  /** `AgentOptions`: every flag is optional. */
  datatype AgentOptions = AgentOptions(
    expectBoolean: Option<bool>,
    useLLMChat: Option<bool>,
    includeSearchEngines: Option<bool>)

  /** `BaseAgent`: a named system-prompt preset; `name` is its identity. */
  datatype BaseAgent = BaseAgent(
    name: string,
    sysPrompt: string,
    active: bool,
    color: AgentColor,
    opts: Option<AgentOptions>)

  /** `string | boolean` of `AgentResponse.response`. */
  datatype ResponseValue = Text(text: string) | Flag(flag: bool)

  /** `AgentResponse`; `time` is a millisecond timestamp standing for the `Date`. */
  datatype AgentResponse = AgentResponse(
    agentName: string,
    response: Option<ResponseValue>,
    url: string,
    time: nat)
}

/**
 * The wire format of the chat endpoint, from src/types/ollama.ts, and the
 * message roles shared with src/helpers/ollamaHelpers.ts.
 */
module OllamaTypes {

  import opened Wrappers

  /** `'user' | 'system' | 'agent'`. */
  datatype Role = User | System | Agent

  /** `OllamaMessage`: one turn as it goes over the wire. */
  datatype OllamaMessage = OllamaMessage(role: Role, content: string)

  /** The optional `options` of a chat request; the temperature is kept as an integer. */
  datatype ChatOptions = ChatOptions(temperature: Option<int>)

  /** `ChatRequestBody` (`RequestBody` is the same type). */
  datatype ChatRequestBody = ChatRequestBody(
    options: Option<ChatOptions>,
    model: string,
    stream: bool,
    messages: seq<OllamaMessage>,
    format: Option<string>,
    template: Option<string>)

  /** The `message` of a `ChatResponseBody`. */
  datatype ReplyMessage = ReplyMessage(role: string, content: string)

  /**
   * What `response.json()` resolves to, as far as the caller looks at it: a
   * falsy value (`null`, `false`, `0`, `""`), or an object whose `message`
   * field may be missing.
   */
  datatype ResponseJson = FalsyJson | ObjectJson(message: Option<ReplyMessage>)
}
