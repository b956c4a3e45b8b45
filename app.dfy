/**
 * The page component of App.tsx: the conversation log and the busy flag
 * it keeps as state, and the handlers that send a message and clear the
 * conversation. The clock, the confirmation dialog, the key configuration
 * and the model's reply stream are inputs.
 */
module AppComponent {
  import opened Wrappers
  import opened Conversation
  import GeminiService

  /**
   * What the send handler ends up consuming: the model's stream when a
   * session could be had, otherwise no chunks and the error the session
   * request threw.
   */
  function ReplyFor(session: Result<GeminiService.Chat, string>, stream: ChunkStream): (reply: ChunkStream)
    ensures session.Failure? ==> reply.chunks == [] && reply.failure == Some(session.error)
    ensures session.Success? ==> reply == stream
  {
    if session.Failure? then ChunkStream([], Some(session.error)) else stream
  }

  class App {
    var messages: seq<Message>
    var isLoading: bool

    constructor ()
      ensures messages == [] && !isLoading
    {
      messages := [];
      isLoading := false;
    }

    /** The mount effect seeds the log with the welcome entry. */
    method Mount(now: nat)
      modifies this
      ensures messages == InitialLog(now) && isLoading == old(isLoading)
    {
      messages := InitialLog(now);
    }

    /**
     * A confirmed clear drops the chat session and leaves a single welcome
     * entry; an unconfirmed one changes nothing. The busy flag is not touched.
     */
    method HandleClearChat(confirmed: bool, idAt: nat, stampAt: nat, service: GeminiService.ChatService)
      requires service.Valid()
      modifies this, service
      ensures service.Valid()
      ensures confirmed ==> messages == ClearedLog(idAt, stampAt)
      ensures confirmed ==> service.State() == GeminiService.ResetChatSessionStep(old(service.State()))
      ensures !confirmed ==> messages == old(messages) && service.State() == old(service.State())
      ensures isLoading == old(isLoading)
    {
      if confirmed {
        service.ResetChatSession();
        messages := ClearedLog(idAt, stampAt);
      }
    }

    /**
     * The synchronous start of a send: append the user message, raise the
     * busy flag, append the empty streaming placeholder.
     */
    method OpenExchange(text: string, clock: Clock) returns (botId: MessageId)
      modifies this
      ensures messages == Opened(old(messages), text, clock)
      ensures isLoading
      ensures botId == BotId(clock)
    {
      var newUserMessage := UserMessage(text, clock);
      messages := messages + [newUserMessage];
      isLoading := true;
      botId := BotId(clock);
      messages := messages + [Placeholder(clock)];
    }

    /**
     * Send `text`: open the exchange, fold each chunk's text into the
     * placeholder, then finish it or replace its text by the error text,
     * and in every case release the busy flag.
     */
    method HandleSendMessage(text: string, clock: Clock, service: GeminiService.ChatService,
                             env: GeminiService.Env, stream: ChunkStream)
      requires service.Valid()
      modifies this, service
      ensures service.Valid()
      ensures var step := GeminiService.GetChatSessionStep(old(service.State()), env);
        && service.State() == step.state
        && messages == SendResult(old(messages), text, clock, ReplyFor(step.result, stream))
      ensures !isLoading
    {
      var botId := OpenExchange(text, clock);
      ghost var base := messages;
      var chat := service.GetChatSession(env);
      if chat.Failure? {
        messages := UpdateById(messages, botId, MarkFailed(ErrorText(chat.error)));
      } else {
        var chunks := stream.chunks;
        var fullText := "";
        var i := 0;
        while i < |chunks|
          invariant 0 <= i <= |chunks|
          modifies this
          invariant isLoading
          invariant fullText == Accumulate(chunks[..i])
          invariant messages == Streamed(base, botId, chunks[..i])
        {
          AccumulateStep(chunks, i);
          StreamedStep(base, botId, chunks, i);
          fullText := fullText + ChunkText(chunks[i]);
          messages := UpdateById(messages, botId, SetText(fullText));
          i := i + 1;
        }
        assert chunks[..i] == chunks;
        if stream.failure.Some? {
          messages := UpdateById(messages, botId, MarkFailed(ErrorText(stream.failure.value)));
        } else {
          messages := UpdateById(messages, botId, EndStreaming);
        }
      }
      isLoading := false;
    }
  }

  /**
   * The error thrown by the session holder when no key is configured is
   * the one the send handler recognises: such a send ends with the
   * configuration-specific text on the placeholder, and caches nothing.
   */
  lemma MissingKeySendShowsConfigError(prev: seq<Message>, text: string, clock: Clock,
                                       g: GeminiService.Gateway, env: GeminiService.Env, stream: ChunkStream)
    requires g.chatSession.None? && g.genAI.None? && GeminiService.GetApiKey(env).None?
    ensures var step := GeminiService.GetChatSessionStep(g, env);
      && step.state == g
      && var r := SendResult(prev, text, clock, ReplyFor(step.result, stream));
         && r[|prev| + 1].text == CONFIG_ERROR_TEXT
         && r[|prev| + 1].isError
         && !r[|prev| + 1].isStreaming
  {
  }

  /**
   * A send whose stream throws after some chunks shows the generic error
   * text alone: whatever text had arrived is discarded.
   */
  lemma TransportErrorDiscardsPartialText(prev: seq<Message>, text: string, clock: Clock, stream: ChunkStream)
    requires stream.failure.Some? && stream.failure.value != MISSING_KEY_ERROR
    ensures var r := SendResult(prev, text, clock, stream);
      && r[|prev| + 1].text == GENERIC_ERROR_TEXT
      && r[|prev| + 1].isError
  {
  }
}
