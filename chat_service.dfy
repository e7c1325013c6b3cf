/**
 * The conversation orchestrator (OpenAIService): `askQuestion` reads the user's
 * transcript from the context store, appends the question, sends the whole
 * transcript as one user message to the model, and only on a usable reply
 * writes the transcript back with the answer (TTL 30 minutes) and archives a
 * sanitised copy of the answer. Every failure becomes a fixed fallback answer.
 *
 * The pure part (key, prompt, request, reply classification, sanitisation) is a
 * set of functions; `Ask` combines them into what one call decides, and the
 * class method `AskQuestion` performs it on the store and the archive.
 */
module ChatService {
  import opened Wrappers
  import opened JavaText
  import opened OpenAIApi
  import opened ContextCache
  import opened ChatArchive

  const ContextKeyPrefix := "chat:context:"
  const UserLabel := "\nUser: "
  const AiLabel := "\nAI: "
  const ModelName := "gpt-3.5-turbo"
  const UserRole := "user"
  const ContextTtlMillis: nat := 30 * 60 * 1000
  const CannotAnswerNow := "抱歉，我现在无法回答，请稍后再试"
  const ServiceUnavailable := "服务暂时不可用，请稍后重试"
  const ArchiveLabel := "AI:"

  /** The store key holding a user's transcript. */
  function CacheKey(userId: string): string {
    ContextKeyPrefix + userId
  }

  /** The transcript sent to the model: the stored one (empty when absent) and the question. */
  function Prompt(previous: Option<string>, question: string): string {
    previous.GetOr("") + UserLabel + question
  }

  /** The request: one user message carrying the whole prompt. */
  function BuildRequest(prompt: string): OpenAIRequest {
    OpenAIRequest(ModelName, [RequestMessage(UserRole, prompt)])
  }

  /** The transcript written back after an answer (a null answer is rendered "null"). */
  function ContextAfter(prompt: string, answer: Option<string>): string {
    prompt + AiLabel + Rendered(answer)
  }

  /** How the reply is read: a usable answer (the first choice's possibly-null
      content), an unexpected reply, or a reply whose reading throws. */
  datatype ReplyKind = Usable(answer: Option<string>) | Unexpected | Broken

  function ClassifyReply(ex: Exchange): ReplyKind {
    match ex
    case Threw => Broken
    case Returned(status, body) =>
      if status != HttpOk || body.None? then Unexpected
      else
        match body.value.choices
        case None => Broken                       // getChoices().isEmpty() on null
        case Some(choices) =>
          if choices == [] then Unexpected
          else
            match choices[0].message
            case None => Broken                   // getMessage().getContent() on null
            case Some(msg) => Usable(msg.content)
  }

  /** The answer with every line feed and carriage return removed. */
  function StripLineBreaks(answer: string): string {
    RemoveAll(RemoveAll(answer, '\n'), '\r')
  }

  /** The answer as archived: line breaks removed, then an "AI:" label cut off
      and the rest trimmed; an unlabelled answer is not trimmed. */
  function Sanitize(answer: string): (r: string)
    ensures '\n' !in r && '\r' !in r
    ensures |r| <= |answer|
    ensures StartsWith(StripLineBreaks(answer), ArchiveLabel) ==> r == Trim(StripLineBreaks(answer)[|ArchiveLabel|..])
    ensures !StartsWith(StripLineBreaks(answer), ArchiveLabel) ==> r == StripLineBreaks(answer)
  {
    var flat := StripLineBreaks(answer);
    if StartsWith(flat, ArchiveLabel) then
      var r := Trim(flat[|ArchiveLabel|..]);
      assert forall x :: x in r ==> x in flat;
      r
    else
      flat
  }

  /** What one call of `askQuestion` decides: its result, the transcript to write
      (None: no write) and the answer to archive (None: nothing to archive). */
  datatype AskStep = AskStep(answer: Option<string>, context: Option<string>, archived: Option<string>)

  function Ask(previous: Option<string>, question: string, client: OpenAIRequest -> Exchange): AskStep {
    var prompt := Prompt(previous, question);
    match ClassifyReply(client(BuildRequest(prompt)))
    case Usable(a) =>
      // saveChatRecord throws on a null answer, and the exception is swallowed
      AskStep(a, Some(ContextAfter(prompt, a)), if a.Some? then Some(Sanitize(a.value)) else None)
    case Unexpected => AskStep(Some(CannotAnswerNow), None, None)
    case Broken => AskStep(Some(ServiceUnavailable), None, None)
  }

  // ---------------------------------------------------------------------------
  // Keys

  /** Different users have different keys. */
  lemma CacheKeyInjective(u: string, v: string)
    ensures CacheKey(u) == CacheKey(v) ==> u == v
  {
    if CacheKey(u) == CacheKey(v) {
      assert u == CacheKey(u)[|ContextKeyPrefix|..];
      assert v == CacheKey(v)[|ContextKeyPrefix|..];
    }
  }

  /** Writing one user's transcript leaves every other user's read unchanged. */
  lemma OtherUsersUntouched(entries: map<string, CacheEntry>, user: string, e: CacheEntry, other: string, now: int)
    requires other != user
    ensures LiveValue(entries[CacheKey(user) := e], CacheKey(other), now) == LiveValue(entries, CacheKey(other), now)
  {
    CacheKeyInjective(user, other);
  }

  // ---------------------------------------------------------------------------
  // One exchange

  /** The model is sent exactly one user message holding the stored transcript
      (empty when absent) followed by the question. */
  lemma RequestCarriesTranscript(previous: Option<string>, question: string)
    ensures var r := BuildRequest(Prompt(previous, question));
            && r.model == ModelName
            && |r.messages| == 1
            && r.messages[0].role == UserRole
            && r.messages[0].content == previous.GetOr("") + "\nUser: " + question
            && (previous.Some? ==> StartsWith(r.messages[0].content, previous.value))
  {
  }

  /** An absent transcript and an empty one lead to the same call. */
  lemma AbsentContextIsEmpty(question: string, client: OpenAIRequest -> Exchange)
    ensures Ask(None, question, client) == Ask(Some(""), question, client)
  {
  }

  /** On a 200 reply with a body and at least one choice whose message is present,
      the answer is that choice's content, the transcript grows by the question and
      the answer, and the sanitised answer is archived (unless it is null). */
  lemma AnsweredExchange(previous: Option<string>, question: string, client: OpenAIRequest -> Exchange)
    requires var ex := client(BuildRequest(Prompt(previous, question)));
             && ex.Returned? && ex.status == HttpOk && ex.body.Some?
             && ex.body.value.choices.Some? && |ex.body.value.choices.value| > 0
             && ex.body.value.choices.value[0].message.Some?
    ensures var ex := client(BuildRequest(Prompt(previous, question)));
            var a := ex.body.value.choices.value[0].message.value.content;
            var step := Ask(previous, question, client);
            && step.answer == a
            && step.context == Some(previous.GetOr("") + "\nUser: " + question + "\nAI: " + Rendered(a))
            && step.archived == (if a.Some? then Some(Sanitize(a.value)) else None)
  {
  }

  /** Otherwise nothing is written or archived and the answer is a fallback: the
      cannot-answer text for an unexpected reply, the unavailability text when
      the call or the reading of its reply throws. */
  lemma FallbackExchange(previous: Option<string>, question: string, client: OpenAIRequest -> Exchange)
    requires !ClassifyReply(client(BuildRequest(Prompt(previous, question)))).Usable?
    ensures var ex := client(BuildRequest(Prompt(previous, question)));
            var step := Ask(previous, question, client);
            && step.context == None && step.archived == None
            && (step.answer == Some(CannotAnswerNow) <==>
                  ex.Returned? && (ex.status != HttpOk || ex.body.None? || ex.body.value.choices == Some([])))
            && (step.answer == Some(ServiceUnavailable) <==>
                  || ex.Threw?
                  || (ex.Returned? && ex.status == HttpOk && ex.body.Some?
                      && (|| ex.body.value.choices.None?
                          || (|ex.body.value.choices.value| > 0 && ex.body.value.choices.value[0].message.None?))))
  {
  }

  /** A write only ever extends the stored transcript: the old one is a proper prefix of the new one. */
  lemma ContextOnlyGrows(previous: Option<string>, question: string, client: OpenAIRequest -> Exchange)
    ensures var step := Ask(previous, question, client);
            step.context.Some? ==>
              previous.GetOr("") < step.context.value
              && |step.context.value| >= |previous.GetOr("")| + |UserLabel| + |question| + |AiLabel|
  {
  }

  /** Scenario: an empty context, the question "hello" and the completion
      "hi there" give the answer "hi there" and store one question-answer pair. */
  lemma HelloScenario(client: OpenAIRequest -> Exchange)
    requires client(BuildRequest("\nUser: hello")) ==
             Returned(200, Some(OpenAIResponse(Some([Choice(Some(ReplyMessage(Some("assistant"), Some("hi there"))))]))))
    ensures Ask(None, "hello", client) == AskStep(Some("hi there"), Some("\nUser: hello\nAI: hi there"), Some("hi there"))
  {
    var prompt := Prompt(None, "hello");
    assert prompt == "\nUser: hello";
    assert ClassifyReply(client(BuildRequest(prompt))) == Usable(Some("hi there"));
    assert ContextAfter(prompt, Some("hi there")) == "\nUser: hello\nAI: hi there";
    assert !StartsWith("hi there", ArchiveLabel) by {
      assert "hi there"[0] != ArchiveLabel[0];
    }
    SanitizeKeepsPlainLine("hi there");
  }

  // ---------------------------------------------------------------------------
  // The transcript over many exchanges

  /** One exchange: a question and its answer. */
  datatype Turn = Turn(question: string, answer: string)

  /** The transcript that a sequence of answered exchanges serialises to. */
  function Transcript(turns: seq<Turn>): string {
    if turns == [] then ""
    else
      var last := turns[|turns| - 1];
      Transcript(turns[..|turns| - 1]) + UserLabel + last.question + AiLabel + last.answer
  }

  /** Starting from a stored transcript of some turns (absent or empty for no
      turns), an answered exchange stores the transcript of those turns and the
      new one, whose answer is the reply's content as concatenation renders it
      (`null` for a null content). */
  lemma AnsweredExchangeAppendsTurn(turns: seq<Turn>, stored: Option<string>, question: string,
                                    client: OpenAIRequest -> Exchange)
    requires stored.GetOr("") == Transcript(turns)
    requires ClassifyReply(client(BuildRequest(Prompt(stored, question)))).Usable?
    ensures var step := Ask(stored, question, client);
            step.context == Some(Transcript(turns + [Turn(question, Rendered(step.answer))]))
  {
  }

  /** The transcript of earlier turns is a prefix of the transcript of later ones. */
  lemma {:induction false} TranscriptPrefix(turns: seq<Turn>, more: seq<Turn>)
    ensures Transcript(turns) <= Transcript(turns + more)
  {
    if more == [] {
      assert turns + more == turns;
    } else {
      var all := turns + more;
      var init := more[..|more| - 1];
      assert all[..|all| - 1] == turns + init;
      TranscriptPrefix(turns, init);
    }
  }

  // ---------------------------------------------------------------------------
  // Archive sanitisation

  /** A labelled answer loses the label and its surrounding blanks. */
  lemma SanitizeLabelled(answer: string)
    requires StartsWith(StripLineBreaks(answer), ArchiveLabel)
    ensures var flat := StripLineBreaks(answer);
            && Sanitize(answer) == Trim(flat[3..])
            && IsTrimmed(Sanitize(answer))
            && |Sanitize(answer)| <= |answer| - 3
  {
  }

  /** A one-line answer that has no label is archived exactly as it is, untrimmed. */
  lemma SanitizeKeepsPlainLine(answer: string)
    requires '\n' !in answer && '\r' !in answer
    requires !StartsWith(answer, ArchiveLabel)
    ensures Sanitize(answer) == answer
  {
    RemoveAllAbsent(answer, '\n');
    RemoveAllAbsent(answer, '\r');
  }

  /** An unlabelled answer spread over two lines is archived as the two lines
      joined, with nothing trimmed. */
  lemma SanitizeJoinsLines(first: string, second: string)
    requires '\n' !in first && '\r' !in first && '\n' !in second && '\r' !in second
    requires !StartsWith(first + second, ArchiveLabel)
    ensures Sanitize(first + "\n" + second) == first + second
  {
    assert first + "\n" + second == first + ['\n'] + second;
    RemoveAllSeparator(first, second, '\n');
    RemoveAllAbsent(first + second, '\r');
  }

  /** Example: "a\nb" is archived as "ab". */
  lemma SanitizeJoinExample()
    ensures Sanitize("a\nb") == "ab"
  {
  }

  // ---------------------------------------------------------------------------
  // The service

  class OpenAIService {
    const redis: ContextStore
    const repository: ChatRecordRepository

    constructor (redis: ContextStore, repository: ChatRecordRepository)
      ensures this.redis == redis && this.repository == repository
    {
      this.redis := redis;
      this.repository := repository;
    }

    /** `askQuestion(userId, question)`. The model client is `client`, the clock
        `now`, and `archiveSaves` says whether the repository accepts the record. */
    method AskQuestion(userId: string, question: string, client: OpenAIRequest -> Exchange, now: int, archiveSaves: bool)
      returns (answer: Option<string>)
      modifies redis, repository
      ensures var step := Ask(LiveValue(old(redis.entries), CacheKey(userId), now), question, client);
              && answer == step.answer
              && redis.entries == (if step.context.Some?
                                   then old(redis.entries)[CacheKey(userId) := CacheEntry(step.context.value, now + ContextTtlMillis)]
                                   else old(redis.entries))
              && repository.records == old(repository.records)
                                       + (if step.archived.Some? && archiveSaves
                                          then [ChatRecord(userId, question, step.archived.value, now)]
                                          else [])
    {
      var cacheKey := CacheKey(userId);
      var previousContext := redis.Get(cacheKey, now);
      var context := Prompt(previousContext, question);
      var response := client(BuildRequest(context));
      match ClassifyReply(response) {
        case Usable(a) =>
          redis.Set(cacheKey, ContextAfter(context, a), ContextTtlMillis, now);
          SaveChatRecord(userId, question, a, now, archiveSaves);
          answer := a;
        case Unexpected =>
          answer := Some(CannotAnswerNow);
        case Broken =>
          answer := Some(ServiceUnavailable);
      }
    }

    /** `saveChatRecord`: archive the sanitised answer; a null answer or a
        refusing repository is swallowed and nothing is appended. */
    method SaveChatRecord(userId: string, question: string, answer: Option<string>, now: int, archiveSaves: bool)
      modifies repository
      ensures repository.records == old(repository.records)
                                    + (if answer.Some? && archiveSaves
                                       then [ChatRecord(userId, question, Sanitize(answer.value), now)]
                                       else [])
    {
      if answer.Some? && archiveSaves {
        repository.Save(ChatRecord(userId, question, Sanitize(answer.value), now));
      }
    }
  }
}
