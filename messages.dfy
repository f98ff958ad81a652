/**
 * `Message` and its three subclasses (src/helpers/ollamaHelpers.ts): an
 * immutable pair of text and role. The subclasses only fix the role.
 */
module Messages {

  import opened OllamaTypes

  /** `MessageConfig`, which is also what `toJSON` yields. */
  datatype MessageConfig = MessageConfig(text: string, role: Role)

  datatype Message = Message(config: MessageConfig) {

    /** The `body` getter. */
    function Body(): (b: string)
      ensures b == config.text
    {
      config.text
    }

    /** The `role` getter. */
    function Role(): (r: OllamaTypes.Role)
      ensures r == config.role
    {
      config.role
    }

    /** `toJSON`: the text and role, nothing else. */
    function ToJson(): (j: MessageConfig)
      ensures j.text == Body() && j.role == Role()
    {
      MessageConfig(config.text, config.role)
    }
  }

  /** `new SystemMessage(text)`. */
  function SystemMessage(text: string): (m: Message)
    ensures m.Body() == text && m.Role() == System
  {
    Message(MessageConfig(text, System))
  }

  /** `new HumanMessage(text)`: the role is `'user'`. */
  function HumanMessage(text: string): (m: Message)
    ensures m.Body() == text && m.Role() == User
  {
    Message(MessageConfig(text, User))
  }

  /** `new AIMessage(text)`: the role is `'agent'`. */
  function AIMessage(text: string): (m: Message)
    ensures m.Body() == text && m.Role() == Agent
  {
    Message(MessageConfig(text, Agent))
  }
}
