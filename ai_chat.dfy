/** What a call to the AI chat service comes back with, as the two components see it.

    The service itself (`ai.chat`), its prompts and the network are outside the model:
    every call becomes an event that carries its outcome.
 */
module AiChat {

  datatype Option<+T> = None | Some(value: T)

  /** The settled outcome of one `ai.chat` call: `Ok` carries `response.message.content`,
      `Fail` stands for a rejected call or a response without a message or content. */
  datatype Reply<+T> = Ok(content: T) | Fail

  /** The text a reply yields after the components' guard `!response?.message?.content`:
      an empty content is falsy in JavaScript and is rejected like a missing one. */
  function Text(reply: Reply<string>): (text: Option<string>)
    ensures text.Some? <==> reply.Ok? && reply.content != ""
    ensures text.Some? ==> text.value == reply.content
  {
    match reply
    case Ok(content) => if content == "" then None else Some(content)
    case Fail => None
  }
}
