/** The chat page component as an object: the fields its state hooks and its
    session ref hold, and one method per handler step, each proved against
    the matching step of the ChatSession state machine. */
module ChatComponent {
  import opened JsText
  import opened Transcript
  import ChatSession

  class ChatPage {
    var messages: seq<Message>
    var input: string
    var isLoading: bool
    /** The cached session handle (the session ref); None when none is cached. */
    var session: Option<nat>
    /** Fresh-id counter standing in for the clock-derived message ids. */
    var nextId: nat
    /** How many session handles have been created so far. */
    var sessionsCreated: nat

    /** The page's state as a value. */
    function State(): ChatSession.ChatState
      reads this
    {
      ChatSession.ChatState(messages, input, isLoading, session, nextId, sessionsCreated)
    }

    ghost predicate Valid()
      reads this
    {
      ChatSession.Valid(State())
    }

    /** The page as mounted: only the welcome message, idle, empty input, no session. */
    constructor ()
      ensures Valid() && State() == ChatSession.Initial()
    {
      messages := [Message(ChatSession.WelcomeId, Model, ChatSession.WelcomeText)];
      input := "";
      isLoading := false;
      session := None;
      nextId := ChatSession.WelcomeId + 1;
      sessionsCreated := 0;
    }

    /** The input box's change handler; the box is disabled while loading. */
    method SetInput(text: string)
      requires Valid()
      modifies this
      ensures Valid() && State() == ChatSession.SetInput(old(State()), text)
    {
      if !isLoading {
        input := text;
      }
    }

    /** The guard's `inputValue.trim()` test. */
    method InputTrimsEmpty() returns (empty: bool)
      ensures empty <==> IsBlank(input)
    {
      empty := Trim(input) == "";
    }

    /** The guard and the user message of handleSendMessage. */
    method Submit() returns (accepted: bool)
      requires Valid()
      modifies this
      ensures Valid() && State() == ChatSession.Submit(old(State()))
      ensures accepted <==> !IsBlank(old(input)) && !old(isLoading)
    {
      ChatSession.SubmitPreservesValid(State());
      var empty := InputTrimsEmpty();
      if empty || isLoading {
        return false;
      }
      var userText := input;
      input := "";
      messages, nextId := messages + [Message(nextId, User, userText)], nextId + 1;
      isLoading := true;
      accepted := true;
    }

    /** getChatSession: returns the cached handle, or creates and caches one;
      None stands for creation throwing. */
    method GetChatSession(createFails: bool) returns (chat: Option<nat>)
      requires Valid()
      modifies this
      ensures Valid() && State() == ChatSession.GetChatSession(old(State()), createFails)
      ensures chat == session
      ensures old(session).Some? ==> chat == old(session)
    {
      if session.None? && !createFails {
        session, sessionsCreated := Some(sessionsCreated), sessionsCreated + 1;
      }
      chat := session;
    }

    /** Appends the empty model message and returns its id. */
    method AppendPlaceholder() returns (aiMessageId: nat)
      requires Valid()
      modifies this
      ensures Valid() && State() == ChatSession.AppendPlaceholder(old(State()))
      ensures aiMessageId == old(nextId)
    {
      ChatSession.AppendPlaceholderPreservesValid(State());
      aiMessageId := nextId;
      messages, nextId := messages + [Message(aiMessageId, Model, "")], nextId + 1;
    }

    /** One streaming update of the message with `id`. */
    method ApplyChunk(id: nat, text: string)
      requires Valid()
      modifies this
      ensures Valid() && State() == ChatSession.ApplyChunk(old(State()), id, text)
    {
      ChatSession.ApplyChunkPreservesValid(State(), id, text);
      messages := UpdateById(messages, id, text);
    }

    /** The catch branch: appends the fixed error message. */
    method ReportError()
      requires Valid()
      modifies this
      ensures Valid() && State() == ChatSession.ReportError(old(State()))
    {
      ChatSession.ReportErrorPreservesValid(State());
      messages, nextId := messages + [Message(nextId, Model, ChatSession.ErrorText)], nextId + 1;
    }

    /** The finally branch. */
    method FinishSend()
      requires Valid()
      modifies this
      ensures Valid() && State() == ChatSession.FinishSend(old(State()))
    {
      isLoading := false;
    }

    /** startNewChat: one reset message, no cached session, flag untouched. */
    method StartNewChat()
      requires Valid()
      modifies this
      ensures Valid() && State() == ChatSession.StartNewChat(old(State()))
    {
      messages, nextId := [Message(nextId, Model, ChatSession.ResetText)], nextId + 1;
      session := None;
    }

    /** The streaming loop of handleSendMessage: each non-empty chunk is
      added to the reply so far, which is then written into the placeholder. */
    method StreamReply(aiMessageId: nat, chunks: seq<Option<string>>) returns (fullText: string)
      requires Valid()
      modifies this
      ensures Valid() && State() == ChatSession.StreamChunks(old(State()), aiMessageId, chunks)
      ensures fullText == Accumulate(chunks)
    {
      fullText := "";
      var i := 0;
      while i < |chunks|
        invariant 0 <= i <= |chunks|
        invariant Valid()
        invariant fullText == Accumulate(chunks[..i])
        invariant State() == ChatSession.StreamChunks(old(State()), aiMessageId, chunks[..i])
      {
        assert chunks[..i + 1][..i] == chunks[..i];
        var chunkText := chunks[i];
        if chunkText.Some? && chunkText.value != "" {
          fullText := fullText + chunkText.value;
          ApplyChunk(aiMessageId, fullText);
        }
        i := i + 1;
      }
      assert chunks[..i] == chunks;
    }

    /** handleSendMessage, run to the end with no other handler in between. */
    method HandleSendMessage(createFails: bool, reply: ChatSession.Reply)
      requires Valid()
      modifies this
      ensures Valid() && State() == ChatSession.HandleSendMessage(old(State()), createFails, reply)
    {
      ghost var s := State();
      var accepted := Submit();
      if !accepted {
        return;
      }
      var chat := GetChatSession(createFails);
      if chat.None? {
        ReportError();
        FinishSend();
        return;
      }
      var aiMessageId := AppendPlaceholder();
      ghost var waiting := State();
      ghost var result := ChatSession.HandleSendMessage(s, createFails, reply);
      match reply
      case OpenFailed =>
        assert result == ChatSession.FinishSend(ChatSession.ReportError(waiting));
        ReportError();
        FinishSend();
      case Streamed(chunks, completes) =>
        var fullText := StreamReply(aiMessageId, chunks);
        ghost var streamed := ChatSession.StreamChunks(waiting, aiMessageId, chunks);
        assert result == ChatSession.FinishSend(if completes then streamed else ChatSession.ReportError(streamed));
        if !completes {
          ReportError();
        }
        FinishSend();
    }
  }
}
