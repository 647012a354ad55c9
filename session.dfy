/** The chat page's state machine on values: the state it keeps, one function
    per step of its handlers, the whole send handler composed from those steps,
    and the properties the page promises about them. */
module ChatSession {
  import opened JsText
  import opened Transcript

  /** Id of the seeded welcome message; the fresh-id counter starts above it. */
  const WelcomeId: nat := 0

  const WelcomeText: string :=
    "**Bienvenue.** Je suis l'intelligence Wizard. \n\nJe suis là pour vous assister dans vos projets technologiques, analyser vos données ou créer du contenu. \n\n*Par quoi commençons-nous ?*"

  const ResetText: string := "Système réinitialisé. Nouvelle session prête."

  const ErrorText: string :=
    "⚠️ **Erreur système.** La connexion au noyau neuronal a échoué. Veuillez réessayer."

  /** The page's state: the transcript, the input box, the in-flight flag, the
      cached session handle (handles are numbered in creation order), the next
      fresh message id, and how many handles have been created. */
  datatype ChatState = ChatState(
    messages: seq<Message>,
    input: string,
    isLoading: bool,
    session: Option<nat>,
    nextId: nat,
    sessionsCreated: nat)

  /** What the external chat service does with one request: the stream fails
      to open, or it yields `chunks` in order and then either ends or fails. */
  datatype Reply = OpenFailed | Streamed(chunks: seq<Option<string>>, completes: bool)

  /** Message ids are distinct and below the counter; a cached handle is one
      that was created. */
  ghost predicate Valid(s: ChatState)
  {
    && (forall i :: 0 <= i < |s.messages| ==> s.messages[i].id < s.nextId)
    && (forall i, j :: 0 <= i < j < |s.messages| ==> s.messages[i].id != s.messages[j].id)
    && (s.session.Some? ==> s.session.value < s.sessionsCreated)
  }

  /** The state the page mounts with: the welcome message and nothing else. */
  function Initial(): (r: ChatState)
    ensures Valid(r) && !r.isLoading && r.input == "" && r.session.None?
    ensures |r.messages| == 1 && r.messages[0].role == Model && r.messages[0].text == WelcomeText
  {
    ChatState([Message(WelcomeId, Model, WelcomeText)], "", false, None, WelcomeId + 1, 0)
  }

  /** Typing into the input box; the box is disabled while a send is in flight. */
  function SetInput(s: ChatState, text: string): ChatState
  {
    if s.isLoading then s else s.(input := text)
  }

  /** The send guard: the input must not trim to empty (by Trim's contract,
      it must not be all whitespace) and no send may be in flight. */
  predicate CanSend(s: ChatState)
  {
    !IsBlank(s.input) && !s.isLoading
  }

  /** Guard, then the user message with the input verbatim, the input
      cleared and the in-flight flag set. */
  function Submit(s: ChatState): ChatState
  {
    if !CanSend(s) then s
    else
      s.(messages := s.messages + [Message(s.nextId, User, s.input)],
         input := "", isLoading := true, nextId := s.nextId + 1)
  }

  /** getChatSession: a cached handle is kept; otherwise a new one is created,
      unless creation fails, in which case nothing is cached.  The handle
      handed back is the resulting `session`; None means creation threw. */
  function GetChatSession(s: ChatState, createFails: bool): ChatState
  {
    if s.session.Some? || createFails then s
    else s.(session := Some(s.sessionsCreated), sessionsCreated := s.sessionsCreated + 1)
  }

  /** The empty `model` message the reply will stream into; its id is `s.nextId`. */
  function AppendPlaceholder(s: ChatState): ChatState
  {
    s.(messages := s.messages + [Message(s.nextId, Model, "")], nextId := s.nextId + 1)
  }

  /** One streaming update: the message with `id` gets `text`. */
  function ApplyChunk(s: ChatState, id: nat, text: string): ChatState
  {
    s.(messages := UpdateById(s.messages, id, text))
  }

  /** The streaming loop over `chunks` for the placeholder `id`. */
  function StreamChunks(s: ChatState, id: nat, chunks: seq<Option<string>>): ChatState
  {
    s.(messages := FoldChunks(s.messages, id, chunks))
  }

  /** The catch branch: one fixed error message appended at the end. */
  function ReportError(s: ChatState): ChatState
  {
    s.(messages := s.messages + [Message(s.nextId, Model, ErrorText)], nextId := s.nextId + 1)
  }

  /** The finally branch. */
  function FinishSend(s: ChatState): ChatState
  {
    s.(isLoading := false)
  }

  /** startNewChat: the transcript becomes the one reset message and the
      cached handle is dropped. */
  function StartNewChat(s: ChatState): ChatState
  {
    s.(messages := [Message(s.nextId, Model, ResetText)], session := None, nextId := s.nextId + 1)
  }

  /** handleSendMessage run to the end with no other handler in between. */
  function HandleSendMessage(s: ChatState, createFails: bool, reply: Reply): ChatState
  {
    if !CanSend(s) then s
    else
      var sent := Submit(s);
      var ready := GetChatSession(sent, createFails);
      if ready.session.None? then FinishSend(ReportError(ready))
      else
        var id := ready.nextId;
        var waiting := AppendPlaceholder(ready);
        match reply
        case OpenFailed => FinishSend(ReportError(waiting))
        case Streamed(chunks, completes) =>
          var streamed := StreamChunks(waiting, id, chunks);
          FinishSend(if completes then streamed else ReportError(streamed))
  }

  // ---------------------------------------------------------------------
  // The guard and the first steps of a send

  /** A send changes nothing exactly when the input is blank or a send is in flight. */
  lemma SendRejectedIff(s: ChatState, createFails: bool, reply: Reply)
    ensures HandleSendMessage(s, createFails, reply) == s <==> (IsBlank(s.input) || s.isLoading)
  {
    if CanSend(s) {
      var sent := Submit(s);
      var ready := GetChatSession(sent, createFails);
      assert |ready.messages| == |s.messages| + 1;
      var r := HandleSendMessage(s, createFails, reply);
      if ready.session.Some? {
        var waiting := AppendPlaceholder(ready);
        if reply.Streamed? {
          assert |StreamChunks(waiting, ready.nextId, reply.chunks).messages| == |waiting.messages|;
        }
      }
      assert |r.messages| > |s.messages|;
    }
  }

  /** An accepted submit appends one user message holding the input verbatim,
      clears the input and sets the in-flight flag; a rejected one changes nothing. */
  lemma SubmitEffect(s: ChatState)
    ensures !IsBlank(s.input) && !s.isLoading ==>
      && Submit(s).messages == s.messages + [Message(s.nextId, User, s.input)]
      && Submit(s).input == "" && Submit(s).isLoading
      && Submit(s).session == s.session
    ensures IsBlank(s.input) || s.isLoading ==> Submit(s) == s
  {
  }

  /** Once the session is obtained the empty model placeholder comes directly
      after the user message, at the end of the transcript. */
  lemma PlaceholderFollowsUser(s: ChatState, createFails: bool)
    requires CanSend(s)
    requires GetChatSession(Submit(s), createFails).session.Some?
    ensures AppendPlaceholder(GetChatSession(Submit(s), createFails)).messages
         == s.messages + [Message(s.nextId, User, s.input), Message(s.nextId + 1, Model, "")]
  {
  }

  /** Session creation fails only when no handle is cached. */
  lemma CreateFailsOnlyWithoutCache(s: ChatState, createFails: bool)
    ensures GetChatSession(s, createFails).session.None? <==> s.session.None? && createFails
  {
  }

  // ---------------------------------------------------------------------
  // Session handle

  /** A cached handle is returned as it is, so repeated calls agree: a second
      call after a successful one changes nothing, however creation would fare. */
  lemma GetChatSessionIdempotent(s: ChatState, first: bool, second: bool)
    requires GetChatSession(s, first).session.Some?
    ensures GetChatSession(GetChatSession(s, first), second) == GetChatSession(s, first)
    ensures s.session.Some? ==> GetChatSession(s, first) == s
  {
  }

  /** After startNewChat the next send creates a handle, and it is a new one. */
  lemma ResetForcesNewSession(s: ChatState)
    requires Valid(s)
    ensures GetChatSession(StartNewChat(s), false).session == Some(s.sessionsCreated)
    ensures s.session.Some? ==> s.session.value != s.sessionsCreated
  {
  }

  /** startNewChat leaves exactly the reset message, drops the handle and
      leaves the in-flight flag and the input as they were. */
  lemma StartNewChatEffect(s: ChatState)
    ensures var r := StartNewChat(s);
      && |r.messages| == 1 && r.messages[0].role == Model && r.messages[0].text == ResetText
      && r.session.None? && r.isLoading == s.isLoading && r.input == s.input
  {
  }

  // ---------------------------------------------------------------------
  // Streaming

  /** A chunk update touches only the message carrying `id`: same length, every
      other message as before, and nothing at all if no message has that id. */
  lemma ApplyChunkFrame(s: ChatState, id: nat, text: string, p: nat)
    requires Valid(s) && p < |s.messages| && s.messages[p].id == id
    ensures ApplyChunk(s, id, text).messages == s.messages[p := s.messages[p].(text := text)]
    ensures ApplyChunk(s, id, text).(messages := s.messages) == s
  {
    var r := ApplyChunk(s, id, text).messages;
    assert forall i :: 0 <= i < |s.messages| && i != p ==> s.messages[i].id != id;
    assert forall i :: 0 <= i < |r| ==> r[i] == s.messages[p := s.messages[p].(text := text)][i];
  }

  /** A chunk aimed at an id no message carries leaves the state unchanged. */
  lemma ApplyChunkMissing(s: ChatState, id: nat, text: string)
    requires forall i :: 0 <= i < |s.messages| ==> s.messages[i].id != id
    ensures ApplyChunk(s, id, text) == s
  {
  }

  /** Updating the fresh last message of a transcript gives that message the text. */
  lemma UpdateLast(ms: seq<Message>, m: Message, text: string)
    requires forall i :: 0 <= i < |ms| ==> ms[i].id != m.id
    ensures UpdateById(ms + [m], m.id, text) == ms + [m.(text := text)]
  {
    var r, e := UpdateById(ms + [m], m.id, text), ms + [m.(text := text)];
    assert forall i :: 0 <= i < |ms| ==> (ms + [m])[i] == ms[i];
    assert forall i :: 0 <= i < |r| ==> r[i] == e[i];
  }

  /** While the reply streams into the placeholder at the end of the
      transcript, after any k chunks the placeholder holds the in-order
      concatenation of the chunks so far, the messages before it are untouched,
      and that text is a prefix of the final reply. */
  lemma StreamIntermediate(w: ChatState, id: nat, chunks: seq<Option<string>>, k: nat)
    requires |w.messages| > 0 && k <= |chunks|
    requires w.messages[|w.messages| - 1] == Message(id, Model, "")
    requires forall i :: 0 <= i < |w.messages| - 1 ==> w.messages[i].id != id
    ensures StreamChunks(w, id, chunks[..k]).messages
         == w.messages[..|w.messages| - 1] + [Message(id, Model, Accumulate(chunks[..k]))]
    ensures Accumulate(chunks[..k]) <= Accumulate(chunks)
    ensures Accumulate(chunks[..k]) == Concat(Emitted(chunks[..k]))
  {
    StreamFillsPlaceholder(w, id, chunks[..k]);
    AccumulatePrefix(chunks, k);
    AccumulateIsConcatOfEmitted(chunks[..k]);
  }

  /** The streaming loop over `cs` writes their accumulated text into the
      placeholder at the end and nothing else. */
  lemma StreamFillsPlaceholder(w: ChatState, id: nat, cs: seq<Option<string>>)
    requires |w.messages| > 0
    requires w.messages[|w.messages| - 1] == Message(id, Model, "")
    requires forall i :: 0 <= i < |w.messages| - 1 ==> w.messages[i].id != id
    ensures StreamChunks(w, id, cs).messages
         == w.messages[..|w.messages| - 1] + [Message(id, Model, Accumulate(cs))]
  {
    var before, p := w.messages[..|w.messages| - 1], Message(id, Model, "");
    assert w.messages == before + [p];
    assert forall i :: 0 <= i < |before| ==> before[i].id != id;
    FoldIsSingleUpdate(w.messages, id, cs);
    UpdateLast(before, p, Accumulate(cs));
  }

  // ---------------------------------------------------------------------
  // A whole send

  /** The state right after the placeholder, when the send was accepted and
      the session obtained. */
  lemma WaitingState(s: ChatState, createFails: bool)
    requires Valid(s) && CanSend(s)
    requires GetChatSession(Submit(s), createFails).session.Some?
    ensures var w := AppendPlaceholder(GetChatSession(Submit(s), createFails));
      && w.messages[|w.messages| - 1] == Message(s.nextId + 1, Model, "")
      && (forall i :: 0 <= i < |w.messages| - 1 ==> w.messages[i].id != s.nextId + 1)
      && w.nextId == s.nextId + 2 && w.input == "" && w.isLoading
  {
  }

  /** A send whose stream ends normally leaves the user message and the
      finished reply, the concatenation of the non-empty chunks, at the end of
      the transcript, with the input cleared and the flag down. */
  lemma SendSucceeds(s: ChatState, createFails: bool, chunks: seq<Option<string>>)
    requires Valid(s) && CanSend(s) && (s.session.Some? || !createFails)
    ensures var r := HandleSendMessage(s, createFails, Streamed(chunks, true));
      && r.messages == s.messages + [Message(s.nextId, User, s.input),
                                     Message(s.nextId + 1, Model, Concat(Emitted(chunks)))]
      && r.input == "" && !r.isLoading && r.session.Some?
  {
    var w := AppendPlaceholder(GetChatSession(Submit(s), createFails));
    WaitingState(s, createFails);
    StreamIntermediate(w, s.nextId + 1, chunks, |chunks|);
    assert chunks[..|chunks|] == chunks;
  }

  /** A stream that fails after some chunks keeps the partly filled
      placeholder and appends exactly one error message after it. */
  lemma SendFailsMidStream(s: ChatState, createFails: bool, chunks: seq<Option<string>>)
    requires Valid(s) && CanSend(s) && (s.session.Some? || !createFails)
    ensures var r := HandleSendMessage(s, createFails, Streamed(chunks, false));
      && r.messages == s.messages + [Message(s.nextId, User, s.input),
                                     Message(s.nextId + 1, Model, Concat(Emitted(chunks))),
                                     Message(s.nextId + 2, Model, ErrorText)]
      && r.input == "" && !r.isLoading && r.session.Some?
  {
    var w := AppendPlaceholder(GetChatSession(Submit(s), createFails));
    WaitingState(s, createFails);
    StreamIntermediate(w, s.nextId + 1, chunks, |chunks|);
    assert chunks[..|chunks|] == chunks;
    var streamed := StreamChunks(w, s.nextId + 1, chunks);
    var u := Message(s.nextId, User, s.input);
    var p := Message(s.nextId + 1, Model, Concat(Emitted(chunks)));
    assert w.messages[..|w.messages| - 1] == s.messages + [u];
    assert streamed.messages == s.messages + [u] + [p];
    var e := Message(s.nextId + 2, Model, ErrorText);
    AppendThree(s.messages, u, p, e);
  }

  /** A stream that fails to open keeps the empty placeholder and appends the
      error message after it; the handle stays cached for the next send. */
  lemma SendFailsOnOpen(s: ChatState, createFails: bool)
    requires CanSend(s) && (s.session.Some? || !createFails)
    ensures var r := HandleSendMessage(s, createFails, OpenFailed);
      && r.messages == s.messages + [Message(s.nextId, User, s.input),
                                     Message(s.nextId + 1, Model, ""),
                                     Message(s.nextId + 2, Model, ErrorText)]
      && r.input == "" && !r.isLoading && r.session.Some?
  {
    var u, p, e := Message(s.nextId, User, s.input), Message(s.nextId + 1, Model, ""),
                   Message(s.nextId + 2, Model, ErrorText);
    var w := AppendPlaceholder(GetChatSession(Submit(s), createFails));
    assert HandleSendMessage(s, createFails, OpenFailed) == FinishSend(ReportError(w));
    assert w.messages == s.messages + [u] + [p];
    assert ReportError(w).messages == w.messages + [e];
  }

  /** When creating the session fails there is no placeholder: the error
      message follows the user message, and no handle is cached. */
  lemma SendFailsOnCreate(s: ChatState, reply: Reply)
    requires CanSend(s) && s.session.None?
    ensures var r := HandleSendMessage(s, true, reply);
      && r.messages == s.messages + [Message(s.nextId, User, s.input),
                                     Message(s.nextId + 1, Model, ErrorText)]
      && r.input == "" && !r.isLoading && r.session.None?
  {
    var u, e := Message(s.nextId, User, s.input), Message(s.nextId + 1, Model, ErrorText);
    assert ReportError(Submit(s)).messages == s.messages + [u] + [e];
  }

  /** Every send, accepted or not, ends with no send in flight, unless one
      already was. */
  lemma SendEndsIdle(s: ChatState, createFails: bool, reply: Reply)
    ensures HandleSendMessage(s, createFails, reply).isLoading == s.isLoading
  {
  }

  // ---------------------------------------------------------------------
  // The invariant

  /** Appending a message with the counter's id, then bumping the counter,
      keeps the ids distinct and below the counter. */
  lemma AppendFreshValid(s: ChatState, m: Message)
    requires Valid(s) && m.id == s.nextId
    ensures Valid(s.(messages := s.messages + [m], nextId := s.nextId + 1))
  {
    var ms := s.messages + [m];
    assert forall i :: 0 <= i < |s.messages| ==> ms[i] == s.messages[i];
  }

  lemma SubmitPreservesValid(s: ChatState)
    requires Valid(s)
    ensures Valid(Submit(s))
  {
    if CanSend(s) { AppendFreshValid(s, Message(s.nextId, User, s.input)); }
  }

  lemma AppendPlaceholderPreservesValid(s: ChatState)
    requires Valid(s)
    ensures Valid(AppendPlaceholder(s))
  {
    AppendFreshValid(s, Message(s.nextId, Model, ""));
  }

  lemma ReportErrorPreservesValid(s: ChatState)
    requires Valid(s)
    ensures Valid(ReportError(s))
  {
    AppendFreshValid(s, Message(s.nextId, Model, ErrorText));
  }

  /** Streaming updates keep every id where it was. */
  lemma StreamChunksPreservesValid(s: ChatState, id: nat, chunks: seq<Option<string>>)
    requires Valid(s)
    ensures Valid(StreamChunks(s, id, chunks))
  {
  }

  lemma ApplyChunkPreservesValid(s: ChatState, id: nat, text: string)
    requires Valid(s)
    ensures Valid(ApplyChunk(s, id, text))
  {
  }

  /** Typing touches neither the transcript nor the handle. */
  lemma SetInputPreservesValid(s: ChatState, text: string)
    requires Valid(s)
    ensures Valid(SetInput(s, text))
  {
  }

  /** A newly created handle is numbered below the new creation count. */
  lemma GetChatSessionPreservesValid(s: ChatState, createFails: bool)
    requires Valid(s)
    ensures Valid(GetChatSession(s, createFails))
  {
  }

  lemma FinishSendPreservesValid(s: ChatState)
    requires Valid(s)
    ensures Valid(FinishSend(s))
  {
  }

  /** The reset message takes a fresh id, and no handle stays cached. */
  lemma StartNewChatPreservesValid(s: ChatState)
    requires Valid(s)
    ensures Valid(StartNewChat(s))
  {
  }

  lemma SendPreservesValid(s: ChatState, createFails: bool, reply: Reply)
    requires Valid(s)
    ensures Valid(HandleSendMessage(s, createFails, reply))
  {
    if CanSend(s) {
      var sent := Submit(s);
      SubmitPreservesValid(s);
      var ready := GetChatSession(sent, createFails);
      GetChatSessionPreservesValid(sent, createFails);
      if ready.session.None? {
        ReportErrorPreservesValid(ready);
        FinishSendPreservesValid(ReportError(ready));
      } else {
        var waiting := AppendPlaceholder(ready);
        AppendPlaceholderPreservesValid(ready);
        match reply
        case OpenFailed =>
          ReportErrorPreservesValid(waiting);
          FinishSendPreservesValid(ReportError(waiting));
        case Streamed(chunks, completes) =>
          var streamed := StreamChunks(waiting, ready.nextId, chunks);
          StreamChunksPreservesValid(waiting, ready.nextId, chunks);
          if completes {
            FinishSendPreservesValid(streamed);
          } else {
            ReportErrorPreservesValid(streamed);
            FinishSendPreservesValid(ReportError(streamed));
          }
      }
    }
  }

  // ---------------------------------------------------------------------
  // startNewChat during a send

  /** If the user starts a new chat while a reply streams, the remaining
      chunks find no message with the placeholder's id and are dropped; a
      later failure still appends the error message to the new transcript,
      and the flag still clears at the end. */
  lemma ResetDuringStream(s: ChatState, id: nat, chunks: seq<Option<string>>, completes: bool)
    requires Valid(s) && id < s.nextId
    ensures var reset := StartNewChat(s);
      var streamed := StreamChunks(reset, id, chunks);
      var r := FinishSend(if completes then streamed else ReportError(streamed));
      && streamed == reset
      && r.messages == [Message(s.nextId, Model, ResetText)]
                       + (if completes then [] else [Message(s.nextId + 1, Model, ErrorText)])
      && !r.isLoading && r.session.None?
  {
    FoldWithoutTarget(StartNewChat(s).messages, id, chunks);
  }

  // ---------------------------------------------------------------------
  // Scenarios

  /** Fresh page, "Hi" typed and sent, the stream yields "Bonjour": the
      transcript is the welcome message, the user's "Hi" and the reply. */
  lemma ScenarioBonjour()
    ensures HandleSendMessage(SetInput(Initial(), "Hi"), false, Streamed([Some("Bonjour")], true)).messages
         == [Message(WelcomeId, Model, WelcomeText), Message(1, User, "Hi"), Message(2, Model, "Bonjour")]
  {
    var s := SetInput(Initial(), "Hi");
    var welcome, hi, bonjour := Message(WelcomeId, Model, WelcomeText), Message(1, User, "Hi"),
                                Message(2, Model, "Bonjour");
    assert s.messages == [welcome] && s.nextId == 1 && s.input == "Hi";
    assert "Hi"[0] == 'H' && !IsWhitespace('H');
    SendSucceeds(s, false, [Some("Bonjour")]);
    assert Emitted([Some("Bonjour")]) == ["Bonjour"] by {
      assert [Some("Bonjour")][1..] == [];
    }
    assert Concat(["Bonjour"]) == "Bonjour" + Concat([]);
    var r := HandleSendMessage(s, false, Streamed([Some("Bonjour")], true));
    assert r.messages == s.messages + [hi, Message(2, Model, Concat(Emitted([Some("Bonjour")])))];
    assert Concat(Emitted([Some("Bonjour")])) == "Bonjour";
    assert [welcome] + [hi, bonjour] == [welcome, hi, bonjour];
  }


}
