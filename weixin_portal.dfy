/**
 * The official-account webhook controller (WeixinPortalController): the GET
 * challenge `validate` and the POST delivery `handleMessage` with its event and
 * text branches, as pure functions from a request to a (status, body) response.
 *
 * What the controller cannot see is a parameter: the signature utility, the XML
 * decoder, the login service and the AI service are the four function-typed
 * fields of `Collaborators`. A collaborator that is not consulted on a path
 * cannot influence that path's result, and the result carries the trace of the
 * calls made to the two services whose effects leave the controller.
 */
module WeixinPortal {
  import opened Wrappers
  import opened JavaText

  // Reply bodies, as the controller writes them.
  const BadRequestBody := "请求参数非法"
  const SignatureFailedBody := "验签失败"
  const InternalErrorBody := "服务器内部错误"
  const ServiceUnavailableText := "服务暂时不可用，请稍后重试"
  const UnsupportedMessageText := "暂不支持该消息类型"
  const ScanReplyText := "扫码成功！我是AI助手"
  const SubscribeReplyText := "感谢关注！我是AI助手"
  const UnsubscribeAck := "success"
  const UnsupportedEventText := "暂不支持此事件类型"
  const BlankAnswerText := "抱歉，我暂时无法回答这个问题"
  const AiUnavailableText := "AI服务暂时不可用"

  /** What `SignatureUtil.check` does: accept, reject, or throw. */
  datatype Verdict = Genuine | Forged | CheckError

  /** The outbound text message that `XmlUtil.beanToXml` serialises. */
  datatype Envelope = Envelope(
    fromUserName: string,
    toUserName: string,
    createTime: int,
    msgType: string,
    content: string)

  /** A response body: plain text, or an XML-encoded envelope. */
  datatype Body = Plain(text: string) | Xml(envelope: Envelope)

  datatype Response = Response(status: int, body: Body)

  /** The fields of the decoded inbound message that the controller reads; each may be null. */
  datatype InboundMessage = InboundMessage(
    msgType: Option<string>,
    event: Option<string>,
    ticket: Option<string>,
    content: Option<string>)

  /** How the AI service's future completes: with a (possibly null) answer, or exceptionally. */
  datatype AiOutcome = Answer(text: Option<string>) | Failed

  /** Calls the controller makes on services outside it. */
  datatype Action =
    | SaveLoginState(ticket: Option<string>, openid: string)
    | AskQuestion(question: Option<string>)

  /** The response together with the calls made while computing it, in order. */
  datatype Handled = Handled(response: Response, actions: seq<Action>)

  /** A handler's string result (None: it threw) and the calls it made. */
  datatype Step = Step(reply: Option<Body>, actions: seq<Action>)

  /** The injected configuration `weixin.config.originalid` and `weixin.config.token`. */
  datatype PortalConfig = PortalConfig(originalid: string, token: string)

  datatype Collaborators = Collaborators(
    check: (string, string, string, string) -> Verdict,         // SignatureUtil.check(token, signature, timestamp, nonce)
    decode: seq<bv8> -> Option<InboundMessage>,                  // UTF-8 decoding then XmlUtil.xmlToBean; None: threw or null
    saveLoginState: (Option<string>, string) -> bool,            // ILoginService.saveLoginState; false: threw
    askQuestion: Option<string> -> AiOutcome)                    // OpenAIService.askQuestion

  datatype ChallengeRequest = ChallengeRequest(signature: string, timestamp: string, nonce: string, echostr: string)

  datatype DeliveryRequest = DeliveryRequest(
    body: seq<bv8>, signature: string, timestamp: string, nonce: string, openid: string)

  /** `buildMessage`: the text envelope from the account to the user, stamped in seconds. */
  function BuildMessage(cfg: PortalConfig, openid: string, content: string, nowMillis: nat): Envelope {
    Envelope(cfg.originalid, openid, nowMillis / 1000, "text", content)
  }

  /** `buildResponse` and `buildErrorResponse`: both are `buildMessage`. */
  function Reply(cfg: PortalConfig, openid: string, content: string, nowMillis: nat): Body {
    Xml(BuildMessage(cfg, openid, content, nowMillis))
  }

  /** `validate`: the GET challenge. */
  function Validate(cfg: PortalConfig, check: (string, string, string, string) -> Verdict, req: ChallengeRequest): Response {
    if IsAnyBlank([req.signature, req.timestamp, req.nonce, req.echostr]) then
      Response(400, Plain(BadRequestBody))
    else
      match check(cfg.token, req.signature, req.timestamp, req.nonce)
      case Genuine => Response(200, Plain(req.echostr))
      case Forged => Response(403, Plain(SignatureFailedBody))
      case CheckError => Response(500, Plain(InternalErrorBody))
  }

  /** `handleEvent`: dispatch on the event name; a null event throws. */
  function HandleEvent(cfg: PortalConfig, co: Collaborators, m: InboundMessage, openid: string, nowMillis: nat): Step {
    match m.event
    case None => Step(None, [])
    case Some(event) =>
      if event == "SCAN" then
        var saved := co.saveLoginState(m.ticket, openid);
        Step(if saved then Some(Reply(cfg, openid, ScanReplyText, nowMillis)) else None,
             [SaveLoginState(m.ticket, openid)])
      else if event == "subscribe" then
        Step(Some(Reply(cfg, openid, SubscribeReplyText, nowMillis)), [])
      else if event == "unsubscribe" then
        Step(Some(Plain(UnsubscribeAck)), [])
      else
        Step(Some(Reply(cfg, openid, UnsupportedEventText, nowMillis)), [])
  }

  /** `handleTextMessage`: ask the AI service and wrap what it answers. */
  function HandleTextMessage(cfg: PortalConfig, co: Collaborators, m: InboundMessage, openid: string, nowMillis: nat): Step {
    var text :=
      match co.askQuestion(m.content)
      case Failed => AiUnavailableText
      case Answer(a) => if IsBlankOrNull(a) then BlankAnswerText else a.value;
    Step(Some(Reply(cfg, openid, text, nowMillis)), [AskQuestion(m.content)])
  }

  /** `handleMessage`: the POST delivery. Anything thrown becomes a 500 error envelope. */
  function HandleMessage(cfg: PortalConfig, co: Collaborators, req: DeliveryRequest, nowMillis: nat): Handled {
    var failure := Response(500, Reply(cfg, req.openid, ServiceUnavailableText, nowMillis));
    match co.check(cfg.token, req.signature, req.timestamp, req.nonce)
    case CheckError => Handled(failure, [])
    case Forged => Handled(Response(403, Plain(SignatureFailedBody)), [])
    case Genuine =>
      match co.decode(req.body)
      case None => Handled(failure, [])
      case Some(m) =>
        match m.msgType
        case None => Handled(failure, [])
        case Some(t) =>
          if t == "event" || t == "text" then
            var step := if t == "event" then HandleEvent(cfg, co, m, req.openid, nowMillis)
                        else HandleTextMessage(cfg, co, m, req.openid, nowMillis);
            match step.reply
            case Some(b) => Handled(Response(200, b), step.actions)
            case None => Handled(failure, step.actions)
          else
            Handled(Response(200, Reply(cfg, req.openid, UnsupportedMessageText, nowMillis)), [])
  }

  // ---------------------------------------------------------------------------
  // Properties of the challenge

  /** A blank parameter is answered with 400 before the signature is looked at:
      the response is the same whatever the signature check would say. */
  lemma BlankChallengeRejected(cfg: PortalConfig, check: (string, string, string, string) -> Verdict,
                               other: (string, string, string, string) -> Verdict, req: ChallengeRequest)
    requires IsBlank(req.signature) || IsBlank(req.timestamp) || IsBlank(req.nonce) || IsBlank(req.echostr)
    ensures Validate(cfg, check, req) == Response(400, Plain(BadRequestBody))
    ensures Validate(cfg, check, req) == Validate(cfg, other, req)
  {
    var params := [req.signature, req.timestamp, req.nonce, req.echostr];
    if IsBlank(req.signature) {
      assert IsBlank(params[0]);
    } else if IsBlank(req.timestamp) {
      assert IsBlank(params[1]);
    } else if IsBlank(req.nonce) {
      assert IsBlank(params[2]);
    } else {
      assert IsBlank(params[3]);
    }
  }

  /** With all four parameters present, the challenge is echoed exactly when the
      signature is genuine, refused with 403 exactly when it is forged, and
      answered with 500 exactly when the check throws. */
  lemma ChallengeDecidedBySignature(cfg: PortalConfig, check: (string, string, string, string) -> Verdict, req: ChallengeRequest)
    requires !IsBlank(req.signature) && !IsBlank(req.timestamp) && !IsBlank(req.nonce) && !IsBlank(req.echostr)
    ensures var r := Validate(cfg, check, req);
            var verdict := check(cfg.token, req.signature, req.timestamp, req.nonce);
            && (r == Response(200, Plain(req.echostr)) <==> verdict == Genuine)
            && (r == Response(403, Plain(SignatureFailedBody)) <==> verdict == Forged)
            && (r == Response(500, Plain(InternalErrorBody)) <==> verdict == CheckError)
  {
  }

  // ---------------------------------------------------------------------------
  // Properties of the delivery

  /** A forged delivery is refused with a bare 403 and no call: the result is one
      constant, so neither the decoder, the login service nor the AI service
      (nor the clock) can have a say in it. */
  lemma ForgedDeliveryRejected(cfg: PortalConfig, co: Collaborators, req: DeliveryRequest, nowMillis: nat)
    requires co.check(cfg.token, req.signature, req.timestamp, req.nonce) == Forged
    ensures HandleMessage(cfg, co, req, nowMillis) == Handled(Response(403, Plain(SignatureFailedBody)), [])
  {
  }

  /** The delivery is genuine and decodes to an event message. */
  predicate IsEventDelivery(cfg: PortalConfig, co: Collaborators, req: DeliveryRequest) {
    && co.check(cfg.token, req.signature, req.timestamp, req.nonce) == Genuine
    && co.decode(req.body).Some?
    && co.decode(req.body).value.msgType == Some("event")
  }

  /** Unsubscribing is acknowledged with the bare platform literal, without an envelope. */
  lemma UnsubscribeAcknowledgedBare(cfg: PortalConfig, co: Collaborators, req: DeliveryRequest, nowMillis: nat)
    requires IsEventDelivery(cfg, co, req)
    requires co.decode(req.body).value.event == Some("unsubscribe")
    ensures HandleMessage(cfg, co, req, nowMillis) == Handled(Response(200, Plain(UnsubscribeAck)), [])
  {
  }

  /** The other events get fixed replies: SCAN records the ticket for the user and
      greets (or fails with 500 when the login service throws), subscribe welcomes,
      any other named event is declined, and a missing event name is a 500. */
  lemma EventRepliesFixed(cfg: PortalConfig, co: Collaborators, req: DeliveryRequest, nowMillis: nat)
    requires IsEventDelivery(cfg, co, req)
    ensures var h := HandleMessage(cfg, co, req, nowMillis);
            var m := co.decode(req.body).value;
            var failure := Response(500, Reply(cfg, req.openid, ServiceUnavailableText, nowMillis));
            && (m.event == Some("SCAN") ==>
                  && h.actions == [SaveLoginState(m.ticket, req.openid)]
                  && h.response == (if co.saveLoginState(m.ticket, req.openid)
                                    then Response(200, Reply(cfg, req.openid, ScanReplyText, nowMillis))
                                    else failure))
            && (m.event == Some("subscribe") ==>
                  h == Handled(Response(200, Reply(cfg, req.openid, SubscribeReplyText, nowMillis)), []))
            && (m.event.Some? && m.event.value != "SCAN" && m.event.value != "subscribe" && m.event.value != "unsubscribe" ==>
                  h == Handled(Response(200, Reply(cfg, req.openid, UnsupportedEventText, nowMillis)), []))
            && (m.event.None? ==> h == Handled(failure, []))
  {
  }

  /** A text message asks the AI service once, with the message content, and
      always answers 200: a failed call becomes the unavailability notice, a null
      or blank answer the cannot-answer notice, and any other answer is sent verbatim. */
  lemma TextRepliesFromAnswer(cfg: PortalConfig, co: Collaborators, req: DeliveryRequest, nowMillis: nat)
    requires co.check(cfg.token, req.signature, req.timestamp, req.nonce) == Genuine
    requires co.decode(req.body).Some? && co.decode(req.body).value.msgType == Some("text")
    ensures var h := HandleMessage(cfg, co, req, nowMillis);
            var m := co.decode(req.body).value;
            var outcome := co.askQuestion(m.content);
            && h.actions == [AskQuestion(m.content)]
            && h.response.status == 200
            && (outcome.Failed? ==> h.response.body == Reply(cfg, req.openid, AiUnavailableText, nowMillis))
            && (outcome.Answer? && IsBlankOrNull(outcome.text) ==>
                  h.response.body == Reply(cfg, req.openid, BlankAnswerText, nowMillis))
            && (outcome.Answer? && !IsBlankOrNull(outcome.text) ==>
                  h.response.body == Reply(cfg, req.openid, outcome.text.value, nowMillis))
  {
  }

  /** A message of another type is declined with 200; a check that throws, a body
      that does not decode and a missing message type all end in the 500 error envelope. */
  lemma UnsupportedAndMalformedDeliveries(cfg: PortalConfig, co: Collaborators, req: DeliveryRequest, nowMillis: nat)
    ensures var h := HandleMessage(cfg, co, req, nowMillis);
            var verdict := co.check(cfg.token, req.signature, req.timestamp, req.nonce);
            var decoded := co.decode(req.body);
            var failure := Handled(Response(500, Reply(cfg, req.openid, ServiceUnavailableText, nowMillis)), []);
            && (verdict == CheckError ==> h == failure)
            && (verdict == Genuine && decoded.None? ==> h == failure)
            && (verdict == Genuine && decoded.Some? && decoded.value.msgType.None? ==> h == failure)
            && (verdict == Genuine && decoded.Some? && decoded.value.msgType.Some?
                && decoded.value.msgType.value != "event" && decoded.value.msgType.value != "text" ==>
                  h == Handled(Response(200, Reply(cfg, req.openid, UnsupportedMessageText, nowMillis)), []))
  {
  }

  /** Every reply envelope goes from the account to the requesting user, is a text
      message stamped with the current second and has non-empty content; the only
      unwrapped bodies are the 403 refusal and the unsubscribe acknowledgement;
      403 is given exactly for a forged signature. */
  lemma RepliesAddressedToSender(cfg: PortalConfig, co: Collaborators, req: DeliveryRequest, nowMillis: nat)
    ensures var r := HandleMessage(cfg, co, req, nowMillis).response;
            && (r.status == 200 || r.status == 403 || r.status == 500)
            && (r.status == 403 <==> co.check(cfg.token, req.signature, req.timestamp, req.nonce) == Forged)
            && (r.body.Xml? ==>
                  && r.body.envelope.fromUserName == cfg.originalid
                  && r.body.envelope.toUserName == req.openid
                  && r.body.envelope.msgType == "text"
                  && r.body.envelope.createTime == nowMillis / 1000
                  && r.body.envelope.content != "")
            && (r.body.Plain? ==>
                  || (r.status == 403 && r.body.text == SignatureFailedBody)
                  || (r.status == 200 && r.body.text == UnsubscribeAck))
  {
  }

  /** The login service and the AI service are called at most once, and only on a
      genuine, decoded delivery routed to them: SCAN events and text messages. */
  lemma ServicesCalledOnlyWhenRouted(cfg: PortalConfig, co: Collaborators, req: DeliveryRequest, nowMillis: nat)
    ensures var h := HandleMessage(cfg, co, req, nowMillis);
            h.actions != [] ==>
              && co.check(cfg.token, req.signature, req.timestamp, req.nonce) == Genuine
              && co.decode(req.body).Some?
              && var m := co.decode(req.body).value;
                 || (h.actions == [AskQuestion(m.content)] && m.msgType == Some("text"))
                 || (h.actions == [SaveLoginState(m.ticket, req.openid)]
                     && m.msgType == Some("event") && m.event == Some("SCAN"))
  {
  }
}
