/** Chat turn bookkeeping: the transcript shown in the chat pane and the
    history log of completed turns, and the two operations that change them,
    sending a prompt and regenerating one reply.

    The chat backend is a parameter: a total function from the request to a
    Reply, Ok with the assistant text or Err with the text of the exception
    that the call (or reading the reply's content) raised. */
module Chat {
  import opened Base
  import opened History

  datatype Role = User | Assistant

  /** A transcript message. Besides role and content a message may carry more
      keys (the welcome message carries a "timestamp"); they are kept in `extra`. */
  datatype ChatMessage = ChatMessage(role: Role, content: string, extra: map<string, string>)

  /** A message as sent to the backend: role and content only. */
  datatype ContextMessage = ContextMessage(role: Role, content: string)

  /** One backend call: model name, messages, sampling temperature. */
  datatype Request = Request(model: string, messages: seq<ContextMessage>, temperature: real)

  type Backend = Request -> Reply

  /** The number of most recent transcript messages sent as context. */
  const ContextSize: nat := 10

  const ErrorReplyPrefix: string := "Sorry, I encountered an error: "
  const ErrorNoticePrefix: string := "Error: "
  const RegenerateNoticePrefix: string := "Failed to regenerate: "
  /** str() of the IndexError that list.pop raises for an index past the end. */
  const PopOutOfRange: string := "pop index out of range"
  /** str() of the IndexError that list.pop raises on an empty list. */
  const PopFromEmpty: string := "pop from empty list"

  function UserMessage(text: string): ChatMessage {
    ChatMessage(User, text, map[])
  }

  function AssistantMessage(text: string): ChatMessage {
    ChatMessage(Assistant, text, map[])
  }

  function Reduce(m: ChatMessage): ContextMessage {
    ContextMessage(m.role, m.content)
  }

  /** Every message reduced to role and content, in the same order. */
  function ReduceAll(s: seq<ChatMessage>): (r: seq<ContextMessage>)
    ensures |r| == |s|
    ensures forall i :: 0 <= i < |s| ==> r[i] == Reduce(s[i])
  {
    if s == [] then [] else [Reduce(s[0])] + ReduceAll(s[1..])
  }

  /** Where Python's `messages[-10:]` starts. */
  function WindowStart(n: nat): (k: nat)
    ensures k <= n
  {
    if n > ContextSize then n - ContextSize else 0
  }

  /** The context of a request: the last ten messages (all of them when there
      are fewer), oldest first, reduced to role and content. */
  function ContextWindow(msgs: seq<ChatMessage>): (r: seq<ContextMessage>)
    ensures |r| == if |msgs| < ContextSize then |msgs| else ContextSize
    ensures forall i :: 0 <= i < |r| ==> r[i] == Reduce(msgs[|msgs| - |r| + i])
  {
    ReduceAll(msgs[WindowStart(|msgs|)..])
  }

  /** The loop of send_message that copies the last ten messages into the request. */
  method BuildContext(msgs: seq<ChatMessage>) returns (ctx: seq<ContextMessage>)
    ensures ctx == ContextWindow(msgs)
  {
    var start := WindowStart(|msgs|);
    ctx := [];
    var i := start;
    while i < |msgs|
      invariant start <= i <= |msgs|
      invariant |ctx| == i - start
      invariant forall j :: 0 <= j < |ctx| ==> ctx[j] == Reduce(msgs[start + j])
    {
      ctx := ctx + [ContextMessage(msgs[i].role, msgs[i].content)];
      i := i + 1;
    }
  }

  /** The transcript and the history log together. */
  datatype Chat = Chat(messages: seq<ChatMessage>, history: seq<Entry>)

  /** The request send_message issues for `prompt`: the context window of the
      transcript once the prompt has been appended. */
  function SendRequest(messages: seq<ChatMessage>, prompt: string, model: string, temperature: real): Request {
    Request(model, ContextWindow(messages + [UserMessage(prompt)]), temperature)
  }

  /** The state after send_message(prompt). A blank prompt changes nothing.
      Otherwise the prompt is appended, then either the reply and one history
      entry (stamped with `now`), or an error reply and no history entry. */
  function SendTurn(c: Chat, prompt: string, model: string, temperature: real, backend: Backend,
                    now: Instant, responseTime: real): (r: Chat)
    ensures r == c <==> IsBlank(prompt)
    ensures !IsBlank(prompt) ==> |r.messages| == |c.messages| + 2 && r.messages[..|c.messages|] == c.messages
                                 && r.messages[|c.messages|] == UserMessage(prompt)
    ensures |c.history| <= |r.history| <= |c.history| + 1 && r.history[..|c.history|] == c.history
  {
    if IsBlank(prompt) then c
    else
      var withPrompt := c.messages + [UserMessage(prompt)];
      match backend(SendRequest(c.messages, prompt, model, temperature))
      case Ok(reply) =>
        Chat(withPrompt + [AssistantMessage(reply)],
             c.history + [TurnEntry(Stamp(now), model, prompt, reply, Seconds(responseTime))])
      case Err(reason) =>
        Chat(withPrompt + [AssistantMessage(ErrorReplyPrefix + reason)], c.history)
  }

  /** The request regenerate_message issues: the content of the message just
      before `index`, alone, sent as a user message. */
  function RegenerateRequest(messages: seq<ChatMessage>, index: int, model: string, temperature: real): Request
    requires 0 < index < |messages|
  {
    Request(model, [ContextMessage(User, messages[index - 1].content)], temperature)
  }

  /** The transcript after regenerate_message(index). Nothing happens for an
      index that is not positive, nor for one past the end (pop raises before
      changing the list). Otherwise the message at `index` is removed and, when
      the backend answers, the new reply is inserted in its place. */
  function Regenerated(messages: seq<ChatMessage>, index: int, model: string, temperature: real,
                       backend: Backend): (r: seq<ChatMessage>)
    ensures |messages| - 1 <= |r| <= |messages|
    ensures forall i :: 0 <= i < |r| && i < index ==> r[i] == messages[i]
    ensures |r| == |messages| - 1 ==> 0 < index < |messages| && forall i :: index <= i < |r| ==> r[i] == messages[i + 1]
    ensures |r| == |messages| ==> forall i :: 0 <= i < |r| && i != index ==> r[i] == messages[i]
  {
    if index <= 0 || index >= |messages| then messages
    else
      var rest := messages[..index] + messages[index + 1..];
      match backend(RegenerateRequest(messages, index, model, temperature))
      case Ok(reply) => rest[..index] + [AssistantMessage(reply)] + rest[index..]
      case Err(_) => rest
  }

  class Conversation {
    /** The transcript, st.session_state.messages. */
    var messages: seq<ChatMessage>
    /** The history log, st.session_state.chat_history. */
    var chatHistory: seq<Entry>

    constructor ()
      ensures messages == [] && chatHistory == []
    {
      messages := [];
      chatHistory := [];
    }

    /** send_message(prompt). Returns the request sent to the backend, if
        any, and the error notice shown, if any. */
    method SendMessage(prompt: string, model: string, temperature: real, backend: Backend,
                       now: Instant, responseTime: real)
      returns (request: Option<Request>, notice: Option<string>)
      modifies this
      ensures Chat(messages, chatHistory) ==
              SendTurn(Chat(old(messages), old(chatHistory)), prompt, model, temperature, backend, now, responseTime)
      ensures request == if IsBlank(prompt) then None else Some(SendRequest(old(messages), prompt, model, temperature))
      ensures notice.Some? <==> request.Some? && backend(request.value).Err?
      ensures notice.Some? ==> notice.value == ErrorNoticePrefix + backend(request.value).reason
    {
      if IsBlank(prompt) {
        return None, None;
      }
      messages := messages + [UserMessage(prompt)];
      var context := BuildContext(messages);
      var req := Request(model, context, temperature);
      request := Some(req);
      var reply := backend(req);
      match reply {
        case Ok(text) =>
          messages := messages + [AssistantMessage(text)];
          chatHistory := chatHistory + [TurnEntry(Stamp(now), model, prompt, text, Seconds(responseTime))];
          notice := None;
        case Err(reason) =>
          notice := Some(ErrorNoticePrefix + reason);
          messages := messages + [AssistantMessage(ErrorReplyPrefix + reason)];
      }
    }

    /** regenerate_message(index). Returns the request sent to the backend, if
        any, and the error notice shown, if any. The history log is untouched. */
    method RegenerateMessage(index: int, model: string, temperature: real, backend: Backend)
      returns (request: Option<Request>, notice: Option<string>)
      modifies this
      ensures messages == Regenerated(old(messages), index, model, temperature, backend)
      ensures chatHistory == old(chatHistory)
      ensures request == if 0 < index < |old(messages)| then Some(RegenerateRequest(old(messages), index, model, temperature)) else None
      ensures index > 0 && |old(messages)| == 0 ==> notice == Some(RegenerateNoticePrefix + PopFromEmpty)
      ensures index >= |old(messages)| > 0 ==> notice == Some(RegenerateNoticePrefix + PopOutOfRange)
      ensures request.Some? ==> notice == if backend(request.value).Err? then Some(RegenerateNoticePrefix + backend(request.value).reason) else None
      ensures index <= 0 ==> notice == None
    {
      request, notice := None, None;
      if index > 0 {
        if |messages| == 0 {
          notice := Some(RegenerateNoticePrefix + PopFromEmpty);
          return;
        }
        if index >= |messages| {
          notice := Some(RegenerateNoticePrefix + PopOutOfRange);
          return;
        }
        ghost var before := messages;
        messages := messages[..index] + messages[index + 1..];
        var userMessage := messages[index - 1].content;
        assert userMessage == before[index - 1].content;
        var req := Request(model, [ContextMessage(User, userMessage)], temperature);
        request := Some(req);
        match backend(req) {
          case Ok(text) =>
            messages := messages[..index] + [AssistantMessage(text)] + messages[index..];
          case Err(reason) =>
            notice := Some(RegenerateNoticePrefix + reason);
        }
      }
    }

    /** cleanup_chat_history(): the log rebuilt with datetime stamps as text. */
    method CleanupChatHistory()
      modifies this
      ensures chatHistory == Cleaned(old(chatHistory))
      ensures messages == old(messages)
    {
      if chatHistory != [] {
        chatHistory := CleanHistory(chatHistory);
      }
    }
  }

  // ---------------------------------------------------------------------
  // Properties of a turn

  /** A prompt made only of whitespace leaves the transcript and the log as they were. */
  lemma BlankPromptIsNoOp(c: Chat, prompt: string, model: string, temperature: real, backend: Backend,
                          now: Instant, responseTime: real)
    requires IsBlank(prompt)
    ensures SendTurn(c, prompt, model, temperature, backend, now, responseTime) == c
  {
  }

  /** The context of the request is the last min(10, n) messages of the
      transcript after the prompt is appended, oldest first, and ends with the
      prompt itself. */
  lemma ContextIsRecentMessages(messages: seq<ChatMessage>, prompt: string, model: string, temperature: real)
    ensures var ctx := SendRequest(messages, prompt, model, temperature).messages;
      var all := messages + [UserMessage(prompt)];
      && |ctx| == (if |all| < ContextSize then |all| else ContextSize)
      && (forall i :: 0 <= i < |ctx| ==> ctx[i] == Reduce(all[|all| - |ctx| + i]))
      && ctx[|ctx| - 1] == ContextMessage(User, prompt)
  {
  }

  /** On success the transcript grows by the prompt and the reply, and the log
      by one entry recording prompt, reply and the reply's length. */
  lemma SendSuccess(c: Chat, prompt: string, model: string, temperature: real, backend: Backend,
                    now: Instant, responseTime: real)
    requires !IsBlank(prompt) && backend(SendRequest(c.messages, prompt, model, temperature)).Ok?
    ensures var c' := SendTurn(c, prompt, model, temperature, backend, now, responseTime);
      var reply := backend(SendRequest(c.messages, prompt, model, temperature)).text;
      && c'.messages == c.messages + [UserMessage(prompt), AssistantMessage(reply)]
      && |c'.history| == |c.history| + 1 && c'.history[..|c.history|] == c.history
      && c'.history[|c.history|]["user"] == Text(prompt)
      && c'.history[|c.history|]["assistant"] == Text(reply)
      && c'.history[|c.history|]["response_length"] == Count(|reply|)
      && c'.history[|c.history|]["timestamp"] == Text(Stamp(now))
  {
    var c' := SendTurn(c, prompt, model, temperature, backend, now, responseTime);
    assert c'.history[..|c.history|] == c.history;
  }

  /** On failure the transcript ends with the prompt and an error reply that
      embeds the reason, and the log is unchanged. */
  lemma SendFailure(c: Chat, prompt: string, model: string, temperature: real, backend: Backend,
                    now: Instant, responseTime: real)
    requires !IsBlank(prompt) && backend(SendRequest(c.messages, prompt, model, temperature)).Err?
    ensures var c' := SendTurn(c, prompt, model, temperature, backend, now, responseTime);
      var reason := backend(SendRequest(c.messages, prompt, model, temperature)).reason;
      && c'.messages == c.messages + [UserMessage(prompt), AssistantMessage(ErrorReplyPrefix + reason)]
      && c'.history == c.history
  {
  }

  /** Every entry of the log records the length of its own reply, and a turn
      keeps it so. */
  lemma SendKeepsLogConsistent(c: Chat, prompt: string, model: string, temperature: real, backend: Backend,
                               now: Instant, responseTime: real)
    requires forall i :: 0 <= i < |c.history| ==> Consistent(c.history[i])
    ensures var h := SendTurn(c, prompt, model, temperature, backend, now, responseTime).history;
      forall i :: 0 <= i < |h| ==> Consistent(h[i])
  {
  }

  /** The "Total Chars" metric grows by exactly the length of the reply on a
      successful turn, and stays as it was otherwise. */
  lemma SendAddsReplyLength(c: Chat, prompt: string, model: string, temperature: real, backend: Backend,
                            now: Instant, responseTime: real)
    requires forall i :: 0 <= i < |c.history| ==> HasNumericLength(c.history[i])
    ensures var h := SendTurn(c, prompt, model, temperature, backend, now, responseTime).history;
      && (forall i :: 0 <= i < |h| ==> HasNumericLength(h[i]))
      && TotalResponseLength(h) ==
         TotalResponseLength(c.history) +
         (if !IsBlank(prompt) && backend(SendRequest(c.messages, prompt, model, temperature)).Ok?
          then |backend(SendRequest(c.messages, prompt, model, temperature)).text| else 0)
  {
    if !IsBlank(prompt) {
      var req := SendRequest(c.messages, prompt, model, temperature);
      if backend(req).Ok? {
        var e := TurnEntry(Stamp(now), model, prompt, backend(req).text, Seconds(responseTime));
        TotalAppend(c.history, e);
      }
    }
  }

  /** The random-prompt button appends the prompt and then calls
      send_message, which appends it again: the transcript gets the prompt
      twice in a row, and the backend sees it twice at the end of its context. */
  lemma RandomPromptSentTwice(c: Chat, prompt: string, model: string, temperature: real, backend: Backend,
                              now: Instant, responseTime: real)
    requires !IsBlank(prompt)
    ensures var before := c.(messages := c.messages + [UserMessage(prompt)]);
      var after := SendTurn(before, prompt, model, temperature, backend, now, responseTime);
      var ctx := SendRequest(before.messages, prompt, model, temperature).messages;
      && after.messages[|c.messages|] == UserMessage(prompt)
      && after.messages[|c.messages| + 1] == UserMessage(prompt)
      && |ctx| >= 2
      && ctx[|ctx| - 2] == ContextMessage(User, prompt) && ctx[|ctx| - 1] == ContextMessage(User, prompt)
  {
    var before := c.(messages := c.messages + [UserMessage(prompt)]);
    var after := SendTurn(before, prompt, model, temperature, backend, now, responseTime);
    assert after.messages[|c.messages|] == UserMessage(prompt) by {
      assert after.messages[..|before.messages|] == before.messages;
      assert before.messages[|c.messages|] == UserMessage(prompt);
    }
    ContextIsRecentMessages(before.messages, prompt, model, temperature);
    var all := before.messages + [UserMessage(prompt)];
    assert all[|all| - 2] == UserMessage(prompt);
  }

  // ---------------------------------------------------------------------
  // Properties of regeneration

  /** When the backend answers, the transcript keeps its length, every message
      but the one at `index` is unchanged, and that one becomes the reply to
      the single message just before it. */
  lemma RegenerateSuccess(messages: seq<ChatMessage>, index: int, model: string, temperature: real, backend: Backend)
    requires 0 < index < |messages|
    requires backend(RegenerateRequest(messages, index, model, temperature)).Ok?
    ensures var r := Regenerated(messages, index, model, temperature, backend);
      && |r| == |messages|
      && (forall i :: 0 <= i < |messages| && i != index ==> r[i] == messages[i])
      && r[index] == AssistantMessage(backend(RegenerateRequest(messages, index, model, temperature)).text)
  {
  }

  /** Index 0, a negative index or one past the end leaves the transcript as it was. */
  lemma RegenerateOutOfRange(messages: seq<ChatMessage>, index: int, model: string, temperature: real, backend: Backend)
    requires index <= 0 || index >= |messages|
    ensures Regenerated(messages, index, model, temperature, backend) == messages
  {
  }

  /** When the backend fails after the pop, the message at `index` is lost:
      the transcript is one shorter and the rest keeps its order. */
  lemma RegenerateFailureDropsMessage(messages: seq<ChatMessage>, index: int, model: string, temperature: real, backend: Backend)
    requires 0 < index < |messages|
    requires backend(RegenerateRequest(messages, index, model, temperature)).Err?
    ensures var r := Regenerated(messages, index, model, temperature, backend);
      && |r| == |messages| - 1
      && (forall i :: 0 <= i < index ==> r[i] == messages[i])
      && (forall i :: index <= i < |r| ==> r[i] == messages[i + 1])
  {
  }
}
