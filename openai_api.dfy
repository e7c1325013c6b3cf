/**
 * The chat-completion wire objects (OpenAIRequest, OpenAIResponse) and what a
 * call through the REST client can end in. The configured client logs non-2xx
 * statuses instead of throwing, so a reply with any status and a readable (or
 * empty) body comes back as a value; a body that cannot be converted throws.
 */
module OpenAIApi {
  import opened Wrappers

  datatype RequestMessage = RequestMessage(role: string, content: string)

  datatype OpenAIRequest = OpenAIRequest(model: string, messages: seq<RequestMessage>)

  /** `OpenAIResponse.Choice.Message`; its fields may be null. */
  datatype ReplyMessage = ReplyMessage(role: Option<string>, content: Option<string>)

  /** `OpenAIResponse.Choice`; its message may be null. */
  datatype Choice = Choice(message: Option<ReplyMessage>)

  /** `OpenAIResponse`; its list of choices may be null. */
  datatype OpenAIResponse = OpenAIResponse(choices: Option<seq<Choice>>)

  /** `restTemplate.exchange`: it throws (network failure, unreadable body), or
      returns a status and a possibly-null body. */
  datatype Exchange = Threw | Returned(status: int, body: Option<OpenAIResponse>)

  const HttpOk := 200
}
