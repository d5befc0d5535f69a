/**
  The chat-completion client both backends call. The model service is not
  part of this model: it is an oracle that maps the number of a call (0 for
  the first call a request handler makes, 1 for the next, ...) and the
  request sent to what the client returns or raises.
 */
module Llm {

  datatype Role = System | User

  datatype Message = Message(role: Role, content: string)

  /** `client.chat.completions.create(model=..., temperature=..., messages=...)`. */
  datatype Request = Request(model: string, temperature: real, messages: seq<Message>)

  /**
    What one call gives back: the first choice's message content, a
    `groq.InternalServerError`, or any other exception.
   */
  datatype Outcome =
    | Completion(content: string)
    | InternalServerError(detail: string)
    | OtherError(detail: string)

  /** The model service: call number and request to outcome. */
  type Upstream = (nat, Request) -> Outcome

  /** A request with a system message followed by a user message. */
  function Chat(model: string, temperature: real, system: string, user: string): Request {
    Request(model, temperature, [Message(System, system), Message(User, user)])
  }
}
