/** The chat messages that sessions store and providers receive. */
module Chat {

  datatype Role = System | User | Assistant | Tool | Other(name: string)

  /** `calls` are the IDs of the tool calls a message makes, `answers` the ID a tool message answers. */
  datatype Message = Message(role: Role, content: string, calls: seq<string>, answers: string)
}
