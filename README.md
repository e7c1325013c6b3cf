# WeChat official-account ↔ chat-model gateway: a Dafny model

This project models the two cooperating parts of the gateway's core:

- **The webhook controller** (`WeixinPortalController`). It answers the platform's GET
  challenge (`validate`). It also handles POST deliveries (`handleMessage`): signature check,
  XML decoding, dispatch on the message type and the event name, and wrapping every reply
  except the bare `success` acknowledgement in a text envelope (`buildMessage`). The model is
  a set of pure functions from a request to a `(status, body)` response (module
  `WeixinPortal`, file `weixin_portal.dfy`).
  - The four collaborators the controller cannot see are function-typed parameters: the
    signature utility, the XML decoder, the login service and the AI service.
  - A collaborator that a path does not consult cannot change that path's result. The result
    also lists, in order, the calls made to the login service and the AI service.
- **The conversation orchestrator** (`OpenAIService`). `askQuestion(userId, question)` reads
  the user's transcript from Redis under `chat:context:<userId>`. It appends
  `"\nUser: " + question` and sends the whole text as the single `user` message of a
  `gpt-3.5-turbo` request. Only on a usable reply does it write back
  `prompt + "\nAI: " + answer` with a 30-minute TTL and archive the sanitised answer; every
  failure becomes a fixed fallback answer (module `ChatService`, file `chat_service.dfy`).
  - The pure decisions are functions: `CacheKey`, `Prompt`, `BuildRequest`, `ClassifyReply`,
    `ContextAfter`, `Sanitize`, and `Ask`, which combines them into what one call decides.
  - The class `OpenAIService` holds the Redis store (`ContextCache.ContextStore`, a map from
    key to value and expiry) and the repository (`ChatArchive.ChatRecordRepository`, an
    append-only sequence). `AskQuestion` performs the call on both, and its postcondition
    ties the new state to `Ask`.

Supporting modules: `Wrappers` (Option, for Java references that may be null), `JavaText`
(the Java and commons-lang3 string operations the code relies on), `OpenAIApi` (the request
and response objects, and the two ways a REST call can end).

Inputs from outside the program are parameters:
- the current time, in milliseconds;
- the model client, a function from request to `Exchange`;
- the signature check, a function returning `Genuine`, `Forged` or `CheckError` (it threw);
- the decoder, a function returning `None` when it throws or yields null;
- whether the login service returns normally;
- whether the repository accepts a record.

Three facts about the code shape the model:
- The code keeps the transcript as one growing string. It has no turn structure, no
  character budget and no eviction, so none is modelled. `Transcript` only names what a run
  of answered exchanges serialises to.
- A POST whose handling throws is answered with status 500 and an error envelope.
- The client's error handler only logs, so a non-2xx status does not throw by itself. A
  non-2xx reply whose body is empty or readable JSON takes the "cannot answer now" branch
  (`Unexpected`). A reply whose body cannot be converted (an HTML error page, say) throws
  during conversion and ends in `Broken`, the "service unavailable" branch; the model's
  client covers it by returning `Threw`.

## Model

| member | source | states |
|---|---|---|
| WeixinPortal.BlankChallengeRejected | src/main/java/org/example/chatai/controller/WeixinPortalController.java:47-50 | a blank signature, timestamp, nonce or echostr gives 400 `请求参数非法`, and the response is the same whatever the signature check would say (it is not consulted) |
| WeixinPortal.ChallengeDecidedBySignature | src/main/java/org/example/chatai/controller/WeixinPortalController.java:51-58 | with all four parameters present: 200 with exactly `echostr` iff the check accepts, 403 `验签失败` iff it rejects, 500 `服务器内部错误` iff it throws |
| WeixinPortal.ForgedDeliveryRejected | src/main/java/org/example/chatai/controller/WeixinPortalController.java:77-83 | a POST with a rejected signature is answered 403 `验签失败` with no call to any service; the result is one constant, so the decoder, login service and AI service have no say |
| WeixinPortal.UnsubscribeAcknowledgedBare | src/main/java/org/example/chatai/controller/WeixinPortalController.java:129-131 | an unsubscribe event gets status 200 and the bare body `success`, with no envelope and no call |
| WeixinPortal.EventRepliesFixed | src/main/java/org/example/chatai/controller/WeixinPortalController.java:117-137 | SCAN calls saveLoginState(ticket, openid) once and replies `扫码成功！我是AI助手`, or 500 when that call throws; subscribe replies `感谢关注！我是AI助手`; any other named event replies `暂不支持此事件类型`; all with 200; a null event is a 500 |
| WeixinPortal.TextRepliesFromAnswer | src/main/java/org/example/chatai/controller/WeixinPortalController.java:141-156 | a text message asks the AI service exactly once with its content and is answered 200: a failed call gives `AI服务暂时不可用`, a null or blank answer gives `抱歉，我暂时无法回答这个问题`, any other answer is the envelope content verbatim |
| WeixinPortal.UnsupportedAndMalformedDeliveries | src/main/java/org/example/chatai/controller/WeixinPortalController.java:90-112 | an unknown message type gives 200 `暂不支持该消息类型`; a throwing check, an undecodable body or a null message type give 500 with the envelope `服务暂时不可用，请稍后重试` and no call |
| WeixinPortal.RepliesAddressedToSender | src/main/java/org/example/chatai/controller/WeixinPortalController.java:159-179 | every envelope goes from `originalid` to `openid`, has type `text`, the current second as its time and non-empty content; the only plain bodies are the 403 refusal and `success`; status is 200, 403 or 500, and 403 exactly for a rejected signature |
| WeixinPortal.ServicesCalledOnlyWhenRouted | src/main/java/org/example/chatai/controller/WeixinPortalController.java:94-100 | a service is called only on a genuine, decoded delivery: the AI service once for a text message, the login service once for a SCAN event |
| ContextCache.SetThenGet | src/main/java/org/example/chatai/service/OpenAIService.java:100 | a value set with a TTL reads back until the TTL runs out and reads as absent afterwards; other keys read as before |
| ContextCache.ContextStore.Get | src/main/java/org/example/chatai/service/OpenAIService.java:49 | returns the stored value only while it has not expired, otherwise nil |
| ContextCache.ContextStore.Set | src/main/java/org/example/chatai/service/OpenAIService.java:100 | overwrites exactly one key with the value and a fresh expiry; every other key is unchanged |
| ChatArchive.ChatRecordRepository.Save | src/main/java/org/example/chatai/service/OpenAIService.java:138 | appends the record at the end; earlier records are unchanged |
| ChatService.CacheKeyInjective | src/main/java/org/example/chatai/service/OpenAIService.java:46 | the key `chat:context:` + userId determines the user: different users never share an entry |
| ChatService.OtherUsersUntouched | src/main/java/org/example/chatai/service/OpenAIService.java:46-49 | writing one user's entry leaves every other user's read unchanged |
| ChatService.RequestCarriesTranscript | src/main/java/org/example/chatai/service/OpenAIService.java:58-73 | the request has model `gpt-3.5-turbo` and exactly one message, role `user`, whose content is the stored transcript (empty when absent) followed by `\nUser: ` and the question |
| ChatService.AbsentContextIsEmpty | src/main/java/org/example/chatai/service/OpenAIService.java:49-55 | an absent entry leads to the same call, result and writes as an empty transcript |
| ChatService.AnsweredExchange | src/main/java/org/example/chatai/service/OpenAIService.java:88-108 | on 200 with a body, a non-empty choice list and a first message present: the result is that message's content, the new transcript is prompt + `\nAI: ` + answer, and the sanitised answer is archived (nothing when the content is null) |
| ChatService.FallbackExchange | src/main/java/org/example/chatai/service/OpenAIService.java:109-117 | otherwise nothing is written or archived. The result is `抱歉，我现在无法回答，请稍后再试` exactly for a reply with another status, no body or an empty choice list. It is `服务暂时不可用，请稍后重试` exactly when the call or the reading of its reply throws |
| ChatService.ContextOnlyGrows | src/main/java/org/example/chatai/service/OpenAIService.java:94-100 | a write only extends the stored transcript: the old value is a proper prefix of the new one, longer by at least both labels and the question |
| ChatService.HelloScenario | src/main/java/org/example/chatai/service/OpenAIService.java:41-108 | with no context, question `hello` and completion `hi there`: answer `hi there`, stored `\nUser: hello\nAI: hi there`, archived `hi there` |
| ChatService.AnsweredExchangeAppendsTurn | src/main/java/org/example/chatai/service/OpenAIService.java:49-100 | if the stored text (absent counting as empty) is the transcript of earlier exchanges, an answered exchange stores the transcript of those exchanges plus the new one, a null answer being recorded as `null` |
| ChatService.TranscriptPrefix | src/main/java/org/example/chatai/service/OpenAIService.java:94 | over any number of exchanges, the transcript of the earlier ones is a prefix of the later transcript |
| ChatService.Sanitize | src/main/java/org/example/chatai/service/OpenAIService.java:127-131 | the archived answer contains no `\n` and no `\r` and is no longer than the answer; it is the trimmed rest after `AI:` when the flattened answer starts with that label, and the flattened answer itself, untrimmed, otherwise |
| ChatService.SanitizeLabelled | src/main/java/org/example/chatai/service/OpenAIService.java:129-131 | when the flattened answer starts with `AI:`, those three characters are dropped and the rest trimmed, so neither end is blank |
| ChatService.SanitizeKeepsPlainLine | src/main/java/org/example/chatai/service/OpenAIService.java:127-131 | a one-line answer without the `AI:` label is archived exactly as given, untrimmed |
| JavaText.RemoveAll | src/main/java/org/example/chatai/service/OpenAIService.java:127 | `replace(c, "")` leaves no occurrence of `c` and adds no character |
| JavaText.RemoveAllAppend | src/main/java/org/example/chatai/service/OpenAIService.java:127 | removal distributes over concatenation, so each character is kept or dropped on its own and order is kept |
| JavaText.RemoveAllAbsent | src/main/java/org/example/chatai/service/OpenAIService.java:127 | removing a character the text does not contain changes nothing |
| JavaText.Trim | src/main/java/org/example/chatai/service/OpenAIService.java:130 | `trim()` is the slice that starts after the leading characters ≤ U+0020, has no such character at either end, and leaves only such characters behind it |
| JavaText.TrimTrimmed | src/main/java/org/example/chatai/service/OpenAIService.java:130 | trimming a string whose ends are not blank returns it unchanged |
| WeixinPortal.Validate | src/main/java/org/example/chatai/controller/WeixinPortalController.java:40-60 | the GET challenge: blank check, then the signature check, then echo (200), refuse (403) or internal error (500); its properties are the two challenge lemmas |
| WeixinPortal.HandleMessage | src/main/java/org/example/chatai/controller/WeixinPortalController.java:68-114 | the POST delivery: signature check, decode, dispatch on the message type, 500 error envelope for anything thrown; its properties are the delivery lemmas |
| WeixinPortal.HandleEvent | src/main/java/org/example/chatai/controller/WeixinPortalController.java:117-138 | dispatch on the event name, with the login call for SCAN and a throw for a null event; stated by `EventRepliesFixed` and `UnsubscribeAcknowledgedBare` |
| WeixinPortal.HandleTextMessage | src/main/java/org/example/chatai/controller/WeixinPortalController.java:141-156 | one AI call with the content, mapped to the reply text; stated by `TextRepliesFromAnswer` |
| WeixinPortal.BuildMessage | src/main/java/org/example/chatai/controller/WeixinPortalController.java:168-179 | the text envelope from `originalid` to `openid` stamped in seconds; stated by `RepliesAddressedToSender` |
| WeixinPortal.Reply | src/main/java/org/example/chatai/controller/WeixinPortalController.java:159-166 | `buildResponse` and `buildErrorResponse`, both the XML-encoded `buildMessage` |
| JavaText.IsBlank | src/main/java/org/example/chatai/controller/WeixinPortalController.java:145 | `StringUtils.isBlank` on a non-null string: empty or only `Character.isWhitespace` characters |
| JavaText.IsBlankOrNull | src/main/java/org/example/chatai/controller/WeixinPortalController.java:145 | `StringUtils.isBlank` on a possibly-null string: null counts as blank |
| JavaText.IsAnyBlank | src/main/java/org/example/chatai/controller/WeixinPortalController.java:47 | `StringUtils.isAnyBlank`: some argument is blank |
| ContextCache.LiveValue | src/main/java/org/example/chatai/service/OpenAIService.java:49 | what a Redis GET returns: the value while unexpired, otherwise nil |
| ChatService.CacheKey | src/main/java/org/example/chatai/service/OpenAIService.java:46 | the key `chat:context:` + userId; stated by `CacheKeyInjective` |
| ChatService.Prompt | src/main/java/org/example/chatai/service/OpenAIService.java:49-58 | the stored transcript (empty when absent) + `\nUser: ` + question; stated by `RequestCarriesTranscript` and `AbsentContextIsEmpty` |
| ChatService.BuildRequest | src/main/java/org/example/chatai/service/OpenAIService.java:69-73 | the `gpt-3.5-turbo` request with one `user` message; stated by `RequestCarriesTranscript` |
| ChatService.ClassifyReply | src/main/java/org/example/chatai/service/OpenAIService.java:88-117 | the reply test of :88-89 and the NPEs that reach the catch: usable first-choice content, unexpected reply, or thrown; stated by `AnsweredExchange` and `FallbackExchange` |
| ChatService.ContextAfter | src/main/java/org/example/chatai/service/OpenAIService.java:94 | prompt + `\nAI: ` + answer, with a null answer rendered `null`; stated by `AnsweredExchange` and `ContextOnlyGrows` |
| JavaText.Rendered | src/main/java/org/example/chatai/service/OpenAIService.java:94 | what `+` appends for a possibly-null string |
| ChatService.StripLineBreaks | src/main/java/org/example/chatai/service/OpenAIService.java:127 | `replace("\n", "").replace("\r", "")` |
| ChatService.Ask | src/main/java/org/example/chatai/service/OpenAIService.java:41-118 | what one `askQuestion` call decides: its result, the transcript to write and the answer to archive; stated by `AnsweredExchange`, `FallbackExchange`, `ContextOnlyGrows` and tied to `AskQuestion` |
| ChatService.SanitizeJoinsLines | src/main/java/org/example/chatai/service/OpenAIService.java:127-131 | an unlabelled answer of two lines is archived as the lines joined, untrimmed |
| ChatService.SanitizeJoinExample | src/main/java/org/example/chatai/service/OpenAIService.java:127-131 | `a\nb` is archived as `ab` |
| JavaText.RemoveAllSeparator | src/main/java/org/example/chatai/service/OpenAIService.java:127 | removing a character that occurs once, between two parts, joins the parts |
| ChatService.OpenAIService.AskQuestion | src/main/java/org/example/chatai/service/OpenAIService.java:41-118 | the result is `Ask`'s answer; only this user's key is written, and only when `Ask` writes, with a TTL of 30 minutes; the archive gains exactly one record when `Ask` archives and the repository accepts it, otherwise none; it has no precondition and always returns |
| ChatService.OpenAIService.SaveChatRecord | src/main/java/org/example/chatai/service/OpenAIService.java:123-143 | appends one record with the sanitised answer; a null answer or a refusing repository is swallowed and appends nothing |

## Left out

- The digest computation inside `SignatureUtil.check` and the XML codec (`XmlUtil`) are not
  part of this model. The check is a parameter with three outcomes; the codec is an abstract
  decoder and an `Envelope` datatype.
- WeixinPortal.HandleMessage: encoding the reply envelope is taken never to throw. A failure
  of `beanToXml` inside the handlers, and the exception that could then escape the catch
  block, are not modelled.
- ChatService.OpenAIService.AskQuestion: Redis connection failures and failure of the JSON
  logging of the request are not modelled. In the code both land in the catch block and give
  `服务暂时不可用，请稍后重试` with no write. The model's store always answers.
- ChatService.ClassifyReply: a null element in the choice list is not modelled. The first
  choice is always an object; its message and the list itself may be null.
- The controller calls a one-argument `askQuestion` from another revision of the service.
  The controller is modelled against an abstract AI outcome (answer, null answer, or failed
  future). The service is modelled with its two-argument signature.
- `@Async`, `CompletableFuture` scheduling and the lost-update race between concurrent
  requests of one user are not modelled. Each call is one synchronous step.
- Spring's handling of missing `@RequestParam` values happens before the controller runs.
  Java `null` strings for userId or question are not modelled.
- HTTP transport, the retrofit interface and the JPA interface are not modelled. Beyond
  append-only storage, the repository is not modelled, and neither are the test and AI
  controllers, the configuration classes or logging.
- Wall-clock time is a parameter. The reply time is `nowMillis / 1000`, for non-negative
  milliseconds. The record's `createdAt` is the same instant.
