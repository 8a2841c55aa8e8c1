/** The chat-completion wire format: role-tagged messages. */
module Wire {

  datatype Role = SystemRole | UserRole | AssistantRole

  /** One `{role, content}` entry of a request's `messages` list. */
  datatype WireMessage = WireMessage(role: Role, content: string)
}
