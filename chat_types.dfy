/** Values exchanged by the chat component: history entries as the caller
    hands them over, the role/content messages sent to the completion
    service, the service's reply, the reply produced for the caller, and the
    errors that end a call. */
module ChatTypes {

  /** One entry of the caller's chat history: a loosely typed dictionary.
      Besides "role" and "content" it may hold any other key (a
      "timestamp", say), and either of those two keys may be absent. */
  type Entry = map<string, string>

  /** A role/content pair of the message list sent to the service. The role
      is an arbitrary string: nothing restricts it to a fixed set. */
  datatype Message = Message(role: string, content: string)

  /** The fixed parameters of every completion request. The sampling
      temperature is a floating-point pass-through and is not modelled. */
  const DefaultModel: string := "gpt-3.5-turbo"
  const MaxTokens: nat := 500

  datatype CompletionRequest = CompletionRequest(model: string, messages: seq<Message>, maxTokens: nat)

  /** One completion candidate; its message content may be missing (None). */
  datatype Choice = Choice(content: Option<string>)

  datatype CompletionResponse = CompletionResponse(choices: seq<Choice>)

  /** What the completion service does with one request: it returns a
      response, or it raises an exception (authentication, rate limit,
      network failure, ...), described here only by its message. */
  datatype CallOutcome = Returned(response: CompletionResponse) | Raised(reason: string)

  /** The reply handed back to the caller. */
  datatype ChatResponse = ChatResponse(role: string, content: Option<string>, recommend: bool)

  /** The exceptions a call can end with; each is propagated unchanged.
      KeyError carries the missing dictionary key, IndexError stands for
      indexing an empty list of choices, ServiceError for whatever the
      completion service raised. */
  datatype Error = KeyError(key: string) | IndexError | ServiceError(reason: string)

  datatype Option<+T> = None | Some(value: T)

  datatype Result<+T> = Ok(value: T) | Err(error: Error) {
    predicate IsFailure() {
      Err?
    }

    function PropagateFailure<U>(): Result<U>
      requires Err?
    {
      Err(error)
    }

    function Extract(): T
      requires Ok?
    {
      value
    }
  }
}
