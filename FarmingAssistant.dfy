/** The chat panel. Its state is the session handle, the transcript, the
    text box and the loading flag. A send appends the farmer's message, then
    an empty model message once the reply stream opens, then grows that
    message chunk by chunk; a failure appends one fixed error message. */
module FarmingAssistant {
  import opened Types
  import opened JsText

  const WelcomeText := "Hello! I am AgriBot, your AI farming assistant. How can I help you today? You can ask me about planting schedules, soil health, pest control, and more."
  const ErrorText := "Sorry, I encountered an error. Please try again."

  const Welcome := ChatMessage(Model, WelcomeText)
  const ErrorReply := ChatMessage(Model, ErrorText)

  /** How `sendMessageStream` and the iteration over its stream end: the call
      throws before a stream exists, or the stream delivers `chunks` in order
      and then either finishes or throws (`broke`). */
  datatype StreamReply = NotOpened | Opened(chunks: seq<string>, broke: bool)

  predicate Failed(reply: StreamReply) {
    reply.NotOpened? || reply.broke
  }

  function Last(t: seq<ChatMessage>): ChatMessage
    requires |t| > 0
  {
    t[|t| - 1]
  }

  /** The in-order concatenation of the stream's chunks. */
  function Concat(chunks: seq<string>): string {
    if chunks == [] then "" else Concat(chunks[..|chunks| - 1]) + chunks[|chunks| - 1]
  }

  /** The updater applied for each chunk: when the last message is the
      model's, its text grows by the chunk; otherwise the transcript is
      returned as it was. The source reads `prev[prev.length - 1].role`, which
      throws on an empty transcript, so it needs one. */
  function ApplyChunk(prev: seq<ChatMessage>, chunk: string): (next: seq<ChatMessage>)
    requires |prev| > 0
    ensures |next| == |prev|
    ensures next[..|prev| - 1] == prev[..|prev| - 1]
    ensures Last(next).role == Last(prev).role
    ensures Last(prev).role == Model ==> Last(next).text == Last(prev).text + chunk
    ensures Last(prev).role != Model ==> next == prev
  {
    var last := Last(prev);
    if last.role == Model then prev[..|prev| - 1] + [ChatMessage(last.role, last.text + chunk)]
    else prev
  }

  /** The transcript after the updater has run once per chunk, in order. */
  function ApplyChunks(prev: seq<ChatMessage>, chunks: seq<string>): (next: seq<ChatMessage>)
    requires |prev| > 0
    ensures |next| == |prev|
  {
    if chunks == [] then prev
    else ApplyChunk(ApplyChunks(prev, chunks[..|chunks| - 1]), chunks[|chunks| - 1])
  }

  /** Streaming into a trailing model message keeps every earlier message and
      leaves that message holding its old text followed by all chunks. */
  lemma {:induction false} ApplyChunksToModel(prev: seq<ChatMessage>, chunks: seq<string>)
    requires |prev| > 0 && Last(prev).role == Model
    ensures ApplyChunks(prev, chunks)
         == prev[..|prev| - 1] + [ChatMessage(Model, Last(prev).text + Concat(chunks))]
  {
    if chunks == [] {
      assert Last(prev).text + "" == Last(prev).text;
      assert prev == prev[..|prev| - 1] + [Last(prev)];
    } else {
      var init := chunks[..|chunks| - 1];
      ApplyChunksToModel(prev, init);
      var mid := ApplyChunks(prev, init);
      assert Last(mid) == ChatMessage(Model, Last(prev).text + Concat(init));
      assert mid[..|mid| - 1] == prev[..|prev| - 1];
      assert chunks[..|chunks| - 1] == init;
      assert Concat(chunks) == Concat(init) + chunks[|chunks| - 1];
      assert Last(prev).text + Concat(init) + chunks[|chunks| - 1]
          == Last(prev).text + Concat(chunks);
    }
  }

  /** When the last message is the farmer's, no chunk changes anything. */
  lemma {:induction false} ApplyChunksToUser(prev: seq<ChatMessage>, chunks: seq<string>)
    requires |prev| > 0 && Last(prev).role == User
    ensures ApplyChunks(prev, chunks) == prev
  {
    if chunks != [] {
      ApplyChunksToUser(prev, chunks[..|chunks| - 1]);
    }
  }

  /** What a send with `reply` appends after the farmer's message. */
  function StreamTail(reply: StreamReply): seq<ChatMessage> {
    match reply
    case NotOpened => [ErrorReply]
    case Opened(chunks, broke) =>
      [ChatMessage(Model, Concat(chunks))] + (if broke then [ErrorReply] else [])
  }

  /** The transcript after an accepted send of `text` that ends with `reply`. */
  function SendTranscript(prev: seq<ChatMessage>, text: string, reply: StreamReply): seq<ChatMessage> {
    prev + [ChatMessage(User, text)] + StreamTail(reply)
  }

  /** `b` is a later transcript than `a`: it is at least as long, every
      message of `a` keeps its role and place, and every message of `a` but
      the last, which a stream may still be growing, is unchanged. */
  predicate Grows(a: seq<ChatMessage>, b: seq<ChatMessage>) {
    |a| <= |b|
    && (forall i :: 0 <= i < |a| ==> b[i].role == a[i].role)
    && (forall i :: 0 <= i < |a| - 1 ==> b[i] == a[i])
  }

  /** One change the panel makes: append a message, or rewrite the text of
      the last message. */
  predicate Step(a: seq<ChatMessage>, b: seq<ChatMessage>) {
    (|b| == |a| + 1 && b[..|a|] == a)
    || (|a| > 0 && |b| == |a| && b[..|a| - 1] == a[..|a| - 1] && Last(b).role == Last(a).role)
  }

  /** Every step yields a later transcript. */
  lemma StepGrows(a: seq<ChatMessage>, b: seq<ChatMessage>)
    requires Step(a, b)
    ensures Grows(a, b)
  {
  }

  /** Steps compose: a run of them still yields a later transcript. */
  lemma GrowsTransitive(a: seq<ChatMessage>, b: seq<ChatMessage>, c: seq<ChatMessage>)
    requires Grows(a, b) && Grows(b, c)
    ensures Grows(a, c)
  {
  }

  /** The chunk updater is a Step. */
  lemma ApplyChunkIsStep(prev: seq<ChatMessage>, chunk: string)
    requires |prev| > 0
    ensures Step(prev, ApplyChunk(prev, chunk))
  {
  }

  /** A send never disturbs what was already there: the old transcript is a
      prefix of the new one, the farmer's message comes right after it, and
      on success exactly one model message follows, holding all chunks in
      order. */
  lemma SendKeepsHistory(prev: seq<ChatMessage>, text: string, reply: StreamReply)
    ensures var t := SendTranscript(prev, text, reply);
      |t| > |prev| && t[..|prev|] == prev && t[|prev|] == ChatMessage(User, text)
      && Grows(prev, t)
      && (!Failed(reply) ==> t == prev + [ChatMessage(User, text), ChatMessage(Model, Concat(reply.chunks))])
  {
  }

  /** A failed send ends with exactly one error message, placed after the
      partial model message when the stream had opened. */
  lemma FailedSendEndsWithError(prev: seq<ChatMessage>, text: string, reply: StreamReply)
    requires Failed(reply)
    ensures var t := SendTranscript(prev, text, reply);
      Last(t) == ErrorReply
      && (reply.NotOpened? ==> |t| == |prev| + 2)
      && (reply.Opened? ==> |t| == |prev| + 3 && t[|t| - 2] == ChatMessage(Model, Concat(reply.chunks)))
  {
  }

  /** Whether `handleSendMessage` gets past its guard: the text is not blank,
      a session exists and no reply is pending. */
  predicate Accepts(input: string, hasSession: bool, loading: bool) {
    !IsBlank(input) && hasSession && !loading
  }

  class Panel {
    /** `chat !== null`: the session has been created. */
    var hasSession: bool
    var messages: seq<ChatMessage>
    var input: string
    var loading: bool

    /** Before setup there is no session, no message and the panel is
        loading; afterwards the transcript is never empty and, between
        handlers, no reply is pending. (That the welcome message stays first
        follows from SendMessage keeping the old transcript as a prefix.) */
    ghost predicate Valid()
      reads this
    {
      (hasSession ==> |messages| > 0 && !loading)
      && (!hasSession ==> messages == [] && loading)
    }

    /** The state on mount, before the setup effect has run. */
    constructor ()
      ensures Valid()
      ensures !hasSession && messages == [] && input == "" && loading
    {
      hasSession := false;
      messages := [];
      input := "";
      loading := true;
    }

    /** `initChat`: create the session and seed the transcript with exactly
        the welcome message. */
    method InitChat()
      modifies this
      ensures Valid()
      ensures hasSession && messages == [Welcome] && !loading && input == old(input)
    {
      hasSession := true;
      messages := [Welcome];
      loading := false;
    }

    /** The text box's change handler, reachable only while the box is
        enabled. */
    method SetInput(text: string)
      requires InputEnabled()
      modifies this
      ensures input == text
      ensures hasSession == old(hasSession) && messages == old(messages) && loading == old(loading)
    {
      input := text;
    }

    /** The text box is disabled while a reply is pending; in a valid state
        that is exactly until the session exists. */
    function InputEnabled(): (b: bool)
      reads this
      ensures b <==> loading == false
      ensures Valid() ==> (b <==> hasSession)
    {
      !loading
    }

    /** The Send button is enabled when the text is not blank and no reply is
        pending; with a session, that is exactly when the handler accepts. */
    function SendEnabled(): (b: bool)
      reads this
      ensures hasSession ==> (b <==> Accepts(input, hasSession, loading))
    {
      !IsBlank(input) && !loading
    }

    /** The `for await` loop of `handleSendMessage`: each chunk, in arrival
        order, goes through the chunk updater. Into a trailing model message
        this leaves every earlier message alone and appends all chunks to
        that message's text. */
    method ReceiveChunks(chunks: seq<string>)
      requires |messages| > 0 && Last(messages).role == Model
      modifies this
      ensures messages == old(messages)[..|old(messages)| - 1]
                          + [ChatMessage(Model, Last(old(messages)).text + Concat(chunks))]
      ensures Grows(old(messages), messages)
      ensures hasSession == old(hasSession) && input == old(input) && loading == old(loading)
    {
      ghost var streamStart := messages;
      var i := 0;
      while i < |chunks|
        invariant 0 <= i <= |chunks|
        invariant hasSession == old(hasSession) && input == old(input) && loading == old(loading)
        invariant |messages| > 0
        invariant messages == ApplyChunks(streamStart, chunks[..i])
        invariant Grows(streamStart, messages)
      {
        ghost var prior := messages;
        ApplyChunkIsStep(prior, chunks[i]);
        messages := ApplyChunk(messages, chunks[i]);
        StepGrows(prior, messages);
        GrowsTransitive(streamStart, prior, messages);
        assert chunks[..i + 1][..i] == chunks[..i];
        i := i + 1;
      }
      assert chunks[..|chunks|] == chunks;
      ApplyChunksToModel(streamStart, chunks);
    }

    /** `handleSendMessage` up to the call into the session. When the guard
        rejects, nothing changes and nothing is sent. Otherwise the farmer's
        untrimmed text goes out and is appended as a user message, the text
        box is cleared, and the panel waits for the reply with the text box
        and the Send button disabled. */
    method BeginSend() returns (sent: Option<string>)
      modifies this
      ensures hasSession == old(hasSession)
      ensures Grows(old(messages), messages)
      ensures !Accepts(old(input), old(hasSession), old(loading)) ==>
        sent == None && messages == old(messages) && input == old(input) && loading == old(loading)
      ensures Accepts(old(input), old(hasSession), old(loading)) ==>
        sent == Some(old(input))
        && messages == old(messages) + [ChatMessage(User, old(input))]
        && input == "" && loading && !InputEnabled() && !SendEnabled()
    {
      if IsBlank(input) || !hasSession || loading {
        sent := None;
        return;
      }
      var text := input;
      ghost var before := messages;
      messages := messages + [ChatMessage(User, text)];
      StepGrows(before, messages);
      input := "";
      loading := true;
      sent := Some(text);
    }

    /** The `try`/`catch` of `handleSendMessage`, after the farmer's message
        is in: the model message opened for the stream and the chunks in it,
        then the error message if the call or the stream throws, all while
        the reply is pending. Each change is a Step, so the transcript only
        grows. */
    method ReceiveReply(reply: StreamReply)
      requires hasSession && loading && |messages| > 0
      modifies this
      ensures messages == old(messages) + StreamTail(reply)
      ensures Grows(old(messages), messages)
      ensures hasSession == old(hasSession) && input == old(input) && loading == old(loading)
    {
      ghost var before := messages;
      match reply {
        case NotOpened =>
          messages := messages + [ErrorReply];
          StepGrows(before, messages);
        case Opened(chunks, broke) =>
          messages := messages + [ChatMessage(Model, "")];
          StepGrows(before, messages);
          ghost var streamOpen := messages;
          assert streamOpen[..|streamOpen| - 1] == before;
          ReceiveChunks(chunks);
          GrowsTransitive(before, streamOpen, messages);
          assert "" + Concat(chunks) == Concat(chunks);
          assert messages == before + [ChatMessage(Model, Concat(chunks))];
          if broke {
            ghost var streamed := messages;
            messages := messages + [ErrorReply];
            StepGrows(streamed, messages);
            GrowsTransitive(before, streamed, messages);
          }
      }
    }

    /** `handleSendMessage`, run to completion with `reply` as what the
        session returns: BeginSend, then the reply while loading, then the
        `finally` that lowers the loading flag. When the guard rejects,
        nothing changes and nothing is sent. Otherwise the untrimmed text is
        sent, the text box is cleared, and the transcript ends as
        SendTranscript says. `sent` is what reaches the session. */
    method SendMessage(reply: StreamReply) returns (sent: Option<string>)
      requires Valid()
      modifies this
      ensures Valid()
      ensures hasSession == old(hasSession)
      ensures |old(messages)| <= |messages| && messages[..|old(messages)|] == old(messages)
      ensures Grows(old(messages), messages)
      ensures !Accepts(old(input), old(hasSession), old(loading)) ==>
        sent == None && messages == old(messages) && input == old(input) && loading == old(loading)
      ensures Accepts(old(input), old(hasSession), old(loading)) ==>
        sent == Some(old(input)) && input == "" && !loading
        && messages == SendTranscript(old(messages), old(input), reply)
    {
      ghost var before, text := messages, input;
      sent := BeginSend();
      if sent.Some? {
        ghost var asked := messages;
        ReceiveReply(reply);
        GrowsTransitive(before, asked, messages);
        assert messages == SendTranscript(before, text, reply);
        assert messages[..|before|] == before;
        loading := false;
      }
    }
  }
}
