/** The chat-response generator of chat_llm.py: a `ChatLLM` object holding a
    fixed model name and a completion-service client, whose one operation
    builds the message list from a system prompt, the chat history and the
    current message, sends it to the service in one request, and wraps the
    first returned choice as an assistant reply. Every failure on the way
    (a history entry without "role" or "content", an exception from the
    service, a response without choices) ends the call with that error. */
module Chat {
  import opened ChatTypes

  // ---------------------------------------------------------------------
  // Message assembly
  // ---------------------------------------------------------------------

  /** A history entry carries both keys the assembly reads. */
  predicate Complete(entry: Entry) {
    "role" in entry && "content" in entry
  }

  predicate AllComplete(history: seq<Entry>) {
    forall i :: 0 <= i < |history| ==> Complete(history[i])
  }

  /** k is the first history entry that lacks one of the two keys. */
  predicate FirstIncomplete(history: seq<Entry>, k: int) {
    && 0 <= k < |history|
    && !Complete(history[k])
    && forall j :: 0 <= j < k ==> Complete(history[j])
  }

  /** The key whose lookup fails first: the copied dictionary is written
      with "role" before "content", so "role" is looked up first. */
  function MissingKey(entry: Entry): string {
    if "role" !in entry then "role" else "content"
  }

  /** The copy of one history entry: its role and content, nothing else. */
  function ToMessage(entry: Entry): Result<Message> {
    if "role" !in entry then Err(KeyError("role"))
    else if "content" !in entry then Err(KeyError("content"))
    else Ok(Message(entry["role"], entry["content"]))
  }

  /** The history copied entry by entry, front to back, stopping at the
      first entry whose copy fails. */
  function CopyHistory(history: seq<Entry>): Result<seq<Message>>
    decreases |history|
  {
    if history == [] then Ok([])
    else
      match CopyHistory(history[..|history| - 1])
      case Err(e) => Err(e)
      case Ok(copied) =>
        match ToMessage(history[|history| - 1])
        case Err(e) => Err(e)
        case Ok(m) => Ok(copied + [m])
  }

  /** The message list the service receives: the system prompt, the copied
      history, the current user message. */
  function Assembled(systemPrompt: string, history: seq<Entry>, message: string): Result<seq<Message>> {
    match CopyHistory(history)
    case Err(e) => Err(e)
    case Ok(copied) => Ok([Message("system", systemPrompt)] + copied + [Message("user", message)])
  }

  /** Reference definition of the conversation sent for a complete history,
      stated position by position rather than by appending. */
  function Conversation(systemPrompt: string, history: seq<Entry>, message: string): (c: seq<Message>)
    requires AllComplete(history)
    ensures |c| == |history| + 2
    ensures c[0] == Message("system", systemPrompt)
    ensures c[|history| + 1] == Message("user", message)
    ensures forall i :: 0 <= i < |history| ==> c[i + 1] == Message(history[i]["role"], history[i]["content"])
  {
    [Message("system", systemPrompt)]
    + seq(|history|, i requires 0 <= i < |history| => Message(history[i]["role"], history[i]["content"]))
    + [Message("user", message)]
  }

  /** Once a prefix of the history fails to copy, the whole history fails
      with the same error: later entries are never looked at. */
  lemma {:induction false} CopyHistoryErrPersists(history: seq<Entry>, k: nat)
    requires k <= |history|
    requires CopyHistory(history[..k]).Err?
    ensures CopyHistory(history) == CopyHistory(history[..k])
    decreases |history| - k
  {
    if k == |history| {
      assert history[..k] == history;
    } else {
      var front := history[..|history| - 1];
      assert front[..k] == history[..k];
      CopyHistoryErrPersists(front, k);
    }
  }

  /** The copy succeeds exactly when every entry has both keys; it then has
      one message per entry, in order, carrying that entry's role and
      content and dropping every other key. */
  lemma {:induction false} CopyHistoryOk(history: seq<Entry>)
    ensures CopyHistory(history).Ok? <==> AllComplete(history)
    ensures CopyHistory(history).Ok? ==>
      && |CopyHistory(history).value| == |history|
      && forall i :: 0 <= i < |history| ==>
           Complete(history[i]) && CopyHistory(history).value[i] == Message(history[i]["role"], history[i]["content"])
    decreases |history|
  {
    if history != [] {
      var n := |history| - 1;
      var front := history[..n];
      CopyHistoryOk(front);
      assert forall i :: 0 <= i < n ==> front[i] == history[i];
      if AllComplete(history) {
        assert AllComplete(front);
      } else if AllComplete(front) {
        assert !Complete(history[n]);
      }
    }
  }

  /** The copy of a history whose first incomplete entry is k fails with
      the KeyError of that entry's first missing key. */
  lemma {:induction false} CopyHistoryFirstError(history: seq<Entry>, k: int)
    requires FirstIncomplete(history, k)
    ensures CopyHistory(history) == Err(KeyError(MissingKey(history[k])))
  {
    var front := history[..k];
    assert AllComplete(front) by {
      assert forall j :: 0 <= j < k ==> front[j] == history[j];
    }
    CopyHistoryOk(front);
    var upto := history[..k + 1];
    assert upto[..k] == front;
    CopyHistoryErrPersists(history, k + 1);
  }

  /** An incomplete history has a first incomplete entry. */
  lemma {:induction false} FirstIncompleteExists(history: seq<Entry>) returns (k: nat)
    requires !AllComplete(history)
    ensures FirstIncomplete(history, k)
    decreases |history|
  {
    if Complete(history[0]) {
      var rest := history[1..];
      assert !AllComplete(rest) by {
        var i :| 0 <= i < |history| && !Complete(history[i]);
        assert rest[i - 1] == history[i];
      }
      var k' := FirstIncompleteExists(rest);
      k := k' + 1;
      assert forall j :: 1 <= j < k ==> history[j] == rest[j - 1];
    } else {
      k := 0;
    }
  }

  /** Assembly succeeds exactly when every history entry has "role" and
      "content"; it then yields the reference conversation (length N + 2,
      system prompt first, user message last, history in between in
      order, roles copied unchecked); otherwise it fails with the KeyError
      of the first incomplete entry. */
  lemma AssembledLayout(systemPrompt: string, history: seq<Entry>, message: string)
    ensures Assembled(systemPrompt, history, message).Ok? <==> AllComplete(history)
    ensures AllComplete(history) ==> Assembled(systemPrompt, history, message) == Ok(Conversation(systemPrompt, history, message))
    ensures forall k :: FirstIncomplete(history, k) ==>
      Assembled(systemPrompt, history, message) == Err(KeyError(MissingKey(history[k])))
  {
    CopyHistoryOk(history);
    if AllComplete(history) {
      var c := Assembled(systemPrompt, history, message).value;
      var r := Conversation(systemPrompt, history, message);
      assert |c| == |r|;
      forall i | 0 <= i < |c|
        ensures c[i] == r[i]
      {
        if 0 < i <= |history| {
          assert c[i] == CopyHistory(history).value[i - 1];
        }
      }
      assert c == r;
    } else {
      var k := FirstIncompleteExists(history);
      CopyHistoryFirstError(history, k);
    }
  }

  /** The request from the smoke test: its history entry carries a
      timestamp, which does not reach the service. */
  lemma SmokeTestConversation(systemPrompt: string, timestamp: string)
    ensures Assembled(systemPrompt,
                      [map["role" := "user", "content" := "Hello", "timestamp" := timestamp]],
                      "What helps with sleep?")
         == Ok([Message("system", systemPrompt), Message("user", "Hello"), Message("user", "What helps with sleep?")])
  {
    var entry := map["role" := "user", "content" := "Hello", "timestamp" := timestamp];
    var history := [entry];
    assert history[..|history| - 1] == [];
    assert CopyHistory(history[..|history| - 1]) == Ok([]);
    assert ToMessage(entry) == Ok(Message("user", "Hello"));
    assert CopyHistory(history) == Ok([] + [Message("user", "Hello")]);
    assert [] + [Message("user", "Hello")] == [Message("user", "Hello")];
    assert [Message("system", systemPrompt)] + [Message("user", "Hello")] + [Message("user", "What helps with sleep?")]
        == [Message("system", systemPrompt), Message("user", "Hello"), Message("user", "What helps with sleep?")];
  }

  /** A role outside "system", "user" and "assistant" is copied through. */
  lemma UnknownRoleForwarded(systemPrompt: string, message: string)
    ensures Assembled(systemPrompt, [map["role" := "moderator", "content" := "hi"]], message)
         == Ok([Message("system", systemPrompt), Message("moderator", "hi"), Message("user", message)])
  {
    var entry := map["role" := "moderator", "content" := "hi"];
    var history := [entry];
    assert history[..|history| - 1] == [];
    assert CopyHistory(history[..|history| - 1]) == Ok([]);
    assert ToMessage(entry) == Ok(Message("moderator", "hi"));
    assert CopyHistory(history) == Ok([] + [Message("moderator", "hi")]);
    assert [] + [Message("moderator", "hi")] == [Message("moderator", "hi")];
    assert [Message("system", systemPrompt)] + [Message("moderator", "hi")] + [Message("user", message)]
        == [Message("system", systemPrompt), Message("moderator", "hi"), Message("user", message)];
  }

  /** The message list built step by step, as the source's loop does: start
      with the system message, append one copy per history entry, append
      the user message. The caller's history is only read. */
  method AssembleMessages(systemPrompt: string, history: array<Entry>, message: string)
    returns (r: Result<seq<Message>>)
    ensures r == Assembled(systemPrompt, history[..], message)
  {
    var messages := [Message("system", systemPrompt)];
    var i := 0;
    while i < history.Length
      invariant 0 <= i <= history.Length
      invariant CopyHistory(history[..i]).Ok?
      invariant messages == [Message("system", systemPrompt)] + CopyHistory(history[..i]).value
    {
      var entry := history[i];
      assert history[..i + 1][..i] == history[..i];
      if "role" !in entry {
        CopyHistoryErrPersists(history[..], i + 1);
        return Err(KeyError("role"));
      }
      if "content" !in entry {
        CopyHistoryErrPersists(history[..], i + 1);
        return Err(KeyError("content"));
      }
      messages := messages + [Message(entry["role"], entry["content"])];
      i := i + 1;
    }
    assert history[..i] == history[..];
    messages := messages + [Message("user", message)];
    r := Ok(messages);
  }

  // ---------------------------------------------------------------------
  // Response shaping
  // ---------------------------------------------------------------------

  /** The reply built from a completion response: the content of the first
      choice, passed through unchanged (even when missing), under the fixed
      role "assistant" with `recommend` off; a response without choices
      fails at the index. */
  function ShapeResponse(response: CompletionResponse): (r: Result<ChatResponse>)
    ensures r.Ok? <==> |response.choices| > 0
    ensures r.Ok? ==> r.value.role == "assistant" && !r.value.recommend
    ensures r.Ok? ==> r.value.content == response.choices[0].content
    ensures r.Err? ==> r.error == IndexError
  {
    if |response.choices| == 0 then Err(IndexError)
    else Ok(ChatResponse("assistant", response.choices[0].content, false))
  }

  // ---------------------------------------------------------------------
  // The whole call
  // ---------------------------------------------------------------------

  /** The one request sent: the given model, the assembled messages and
      the fixed output limit. */
  function Request(model: string, messages: seq<Message>): CompletionRequest {
    CompletionRequest(model, messages, MaxTokens)
  }

  /** The outcome of one call: assembly, then one request to the service,
      then shaping; the first error met is the call's error. */
  function Generate(model: string, client: CompletionRequest -> CallOutcome,
                    message: string, history: seq<Entry>, systemPrompt: string): Result<ChatResponse>
  {
    match Assembled(systemPrompt, history, message)
    case Err(e) => Err(e)
    case Ok(messages) =>
      match client(Request(model, messages))
      case Raised(reason) => Err(ServiceError(reason))
      case Returned(response) => ShapeResponse(response)
  }

  /** A history entry without "role" or "content" fails the call with the
      KeyError of the first such entry, whatever the service would have
      answered: the service plays no part in the outcome. */
  lemma AssemblyFailureSkipsService(model: string, client: CompletionRequest -> CallOutcome,
                                    other: CompletionRequest -> CallOutcome,
                                    message: string, history: seq<Entry>, systemPrompt: string, k: int)
    requires FirstIncomplete(history, k)
    ensures Generate(model, client, message, history, systemPrompt) == Err(KeyError(MissingKey(history[k])))
    ensures Generate(model, client, message, history, systemPrompt) == Generate(model, other, message, history, systemPrompt)
  {
    AssembledLayout(systemPrompt, history, message);
  }

  /** With a complete history the call's outcome is decided by the service's
      answer to one request (the model, the reference conversation, 500
      output tokens): an exception is propagated unchanged, a response
      without choices fails with IndexError, otherwise the reply is the
      first choice's content as a non-recommending assistant message. */
  lemma CompleteHistoryOutcome(model: string, client: CompletionRequest -> CallOutcome,
                               message: string, history: seq<Entry>, systemPrompt: string)
    requires AllComplete(history)
    ensures var request := CompletionRequest(model, Conversation(systemPrompt, history, message), 500);
      Generate(model, client, message, history, systemPrompt) ==
        match client(request)
        case Raised(reason) => Err(ServiceError(reason))
        case Returned(response) =>
          if |response.choices| == 0 then Err(IndexError)
          else Ok(ChatResponse("assistant", response.choices[0].content, false))
  {
    AssembledLayout(systemPrompt, history, message);
  }

  /** The chat model: a fixed model name and a completion-service client,
      both set once at construction and never changed. */
  class ChatLLM {
    const model: string
    const client: CompletionRequest -> CallOutcome

    constructor (client: CompletionRequest -> CallOutcome)
      ensures model == "gpt-3.5-turbo"
      ensures this.client == client
    {
      model := DefaultModel;
      this.client := client;
    }

    /** One chat turn. `clientId` is accepted but plays no part in the
        outcome; the history array is only read (no modifies clause). */
    method GenerateChatResponse(message: string, history: array<Entry>, clientId: string, systemPrompt: string)
      returns (r: Result<ChatResponse>)
      ensures r == Generate(model, client, message, history[..], systemPrompt)
      ensures r.Ok? ==> r.value.role == "assistant" && !r.value.recommend
    {
      var messages :- AssembleMessages(systemPrompt, history, message);
      var outcome := client(Request(model, messages));
      match outcome {
        case Raised(reason) =>
          r := Err(ServiceError(reason));
        case Returned(response) =>
          r := ShapeResponse(response);
      }
    }
  }
}
