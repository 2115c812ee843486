# Chat response generation, modelled in Dafny

This project models `ChatLLM`, the chat-response generator of a shop
assistant backend (`chat_llm.py`). A `ChatLLM` object holds a fixed model name
(`"gpt-3.5-turbo"`) and a completion-service client. Its one operation,
`generate_chat_response`, runs in three steps:

1. It builds a new message list: a system entry with the system prompt, then
   one `{role, content}` copy of each chat-history entry in order (any other
   key, such as a timestamp, is dropped, and the role is not checked), then
   the current message as a user entry. A history entry without `role` or
   `content` raises a `KeyError`.
2. It sends that list to the completion service in a single request, with the
   fixed model and a 500-token output limit.
3. It wraps the content of the first returned choice as a reply whose role is
   always `"assistant"` and whose `recommend` flag is always false. A response
   with no choices raises an `IndexError`.

Every exception is logged and re-raised unchanged.

Files:

- `chat_types.dfy` (module `ChatTypes`): history entries (`map<string, string>`),
  messages, the request, the service's response and outcome, the reply, the
  errors and a `Result` type.
- `chat_llm.dfy` (module `Chat`): the specification functions (`CopyHistory`,
  `Assembled`, `Conversation`, `ShapeResponse`, `Generate`), the lemmas about
  them, the imperative `AssembleMessages` loop, and the class `ChatLLM`.

The completion service is modelled as a pure function from request to outcome
(`Returned(response)` or `Raised(reason)`). It is passed to the `ChatLLM`
constructor and kept in a constant field, just as the source keeps its client
object. Because the service has no side effects in this model, "no request is
sent when assembly fails" is stated as "the outcome does not depend on the
service at all" (`AssemblyFailureSkipsService`). The caller's history list is
an `array<Entry>`. Neither method has a `modifies` clause, so Dafny's frame
rule guarantees that the history is not changed. `clientId` is accepted but
unused, so the specification of the call (`Generate`) does not take it.

Where the design description and the code differ, the model follows the code:

- The code does not validate roles. A role such as `"moderator"` is forwarded
  unchanged (`UnknownRoleForwarded`), and no `InvalidRoleError` exists.
- A first choice whose content is missing (`None`) is not an error. The
  missing content is passed through into the reply.
- There is no timeout and no typed error taxonomy. Errors are a key error, an
  index error or whatever the service raised, each propagated as it is.

## Model

| member | source | states |
|---|---|---|
| `Chat.ChatLLM.constructor` | chat_llm.py:13-16 | the model name is fixed to "gpt-3.5-turbo" and the injected client is kept |
| `Chat.AssembleMessages` | chat_llm.py:39-49 | the loop that starts with the system entry, appends one copy per history entry and then the user entry returns exactly the assembly specification, including the KeyError of a missing key; the history array is only read |
| `Chat.Conversation` | chat_llm.py:39-49 | reference layout of the request's messages: N + 2 entries, the system prompt at position 0, history entry i at position i + 1, the user message last |
| `Chat.CopyHistoryOk` | chat_llm.py:42-46 | copying the history succeeds if and only if every entry has "role" and "content"; it then yields one message per entry, in order, holding only that entry's role and content |
| `Chat.CopyHistoryFirstError` | chat_llm.py:44-45 | when entry k is the first one missing a key, the copy fails with KeyError("role") if that entry lacks "role", and with KeyError("content") otherwise |
| `Chat.CopyHistoryErrPersists` | chat_llm.py:42-46 | once a prefix of the history fails to copy, the whole history fails with the same error, so later entries do not matter |
| `Chat.AssembledLayout` | chat_llm.py:39-49 | assembly succeeds if and only if every history entry is complete; it then equals the reference conversation; otherwise it fails with the KeyError of the first incomplete entry |
| `Chat.UnknownRoleForwarded` | chat_llm.py:42-46 | a role outside system/user/assistant is copied through, not rejected |
| `Chat.SmokeTestConversation` | test_api.py:45-56 | the smoke test's request assembles to system, ("user", "Hello"), ("user", "What helps with sleep?"), and its timestamp is dropped |
| `Chat.ShapeResponse` | chat_llm.py:60-67 | the reply exists if and only if there is at least one choice; it has role "assistant", recommend false and the first choice's content; with no choices the error is IndexError |
| `Chat.AssemblyFailureSkipsService` | chat_llm.py:39-57 | a history entry missing a key fails the whole call with that entry's KeyError, and the outcome is the same for every service |
| `Chat.CompleteHistoryOutcome` | chat_llm.py:52-71 | with a complete history, only the service's answer to the single request (the model, the reference conversation, 500 tokens) decides the outcome. An exception is re-raised unchanged, an empty choice list gives IndexError, and otherwise the result is the first choice's content as a non-recommending assistant reply |
| `Chat.ChatLLM.GenerateChatResponse` | chat_llm.py:18-71 | the method's result is the outcome specification (assembly, one request, shaping, errors propagated), and every successful reply has role "assistant" and recommend false |

## Left out

- The `AsyncOpenAI` client, `await`, and reading the API key from the environment: the service is an injected pure function from request to outcome.
- Sampling temperature 0.7: it is a floating-point pass-through and is not part of the modelled request.
- Logging of errors: it has no observable effect beyond the re-raise, which is modelled.
- History entries whose values are not strings, and entries that are not dictionaries: `Entry` is `map<string, string>`.
- Validation done by the `ChatResponse` and `ChatMessage` classes of the `models` module: that module is not part of this model, so no constraint of it is assumed.
- Concurrency, cancellation and timeouts: the code has none of its own, and each call is independent and shares no mutable state.
- The HTTP smoke test itself (network requests and printing): only its request data and its role assertion appear, in `SmokeTestConversation` and in the ensures of `GenerateChatResponse`.
