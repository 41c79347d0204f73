/**
 * The backend adapter (`GeminiService`): a chat session that is created
 * eagerly when an API key is configured and lazily on the first message
 * otherwise, and an error slot that the chat component shares.
 *
 * The `@google/genai` client is not modelled: creating a session is recorded
 * as a `ChatSession` value, and each `sendMessageStream` call is given its
 * outcome as a parameter (it returns a fragment stream, or it throws).
 */
module Gemini {
  import opened Options

  const ModelName := "gemini-2.5-flash"
  const DummyApiKey := "MISSING_API_KEY"
  const MissingKeyError := "API key for Google GenAI is not set. Please set the API_KEY environment variable."
  const SendFailedError := "Failed to send message to Gemini. Please check your API key and network connection."

  /** How a fragment stream ends once all its chunks have been delivered. */
  datatype StreamEnd = Exhausted | Raises

  /** The chunk texts a response stream yields, in order, and how it ends after them. */
  datatype FragmentStream = FragmentStream(chunks: seq<string>, end: StreamEnd)

  /** What one `sendMessageStream` call does: hand back a stream, or throw. */
  datatype SendOutcome = Streams(stream: FragmentStream) | Throws

  /** A session made by `chats.create`: the key of the client that made it and its model. */
  datatype ChatSession = ChatSession(apiKey: string, model: string)

  /** `!process.env.API_KEY`: an unset or empty variable counts as missing. */
  predicate KeyMissing(apiKey: Option<string>)
  {
    apiKey.None? || apiKey.value == ""
  }

  /** The value `sendMessage` resolves to for a given library outcome. */
  function SendResult(outcome: SendOutcome): (r: Option<FragmentStream>)
  {
    match outcome
    case Streams(stream) => Some(stream)
    case Throws => None
  }

  class GeminiService {
    /** The key the `GoogleGenAI` client was constructed with. */
    var clientKey: string
    /** The `chat` field; `None` while it is still unassigned. */
    var chat: Option<ChatSession>
    /** How many times `chats.create` has been called. */
    var sessionsCreated: nat
    /** The `error` signal, shared with the chat component. */
    var error: Option<string>

    /** The session, when there is one, was made by this service's client. */
    ghost predicate Valid()
      reads this`clientKey, this`chat, this`sessionsCreated
    {
      (chat.Some? ==> chat.value == ChatSession(clientKey, ModelName)) &&
      (chat.None? <==> sessionsCreated == 0)
    }

    /** A missing key degrades the service: error set, dummy client, no session. */
    constructor (apiKey: Option<string>)
      ensures Valid()
      ensures KeyMissing(apiKey) ==>
        clientKey == DummyApiKey && chat == None && sessionsCreated == 0 && error == Some(MissingKeyError)
      ensures !KeyMissing(apiKey) ==>
        clientKey == apiKey.value && chat == Some(ChatSession(apiKey.value, ModelName)) &&
        sessionsCreated == 1 && error == None
    {
      chat := None;
      sessionsCreated := 0;
      if KeyMissing(apiKey) {
        error := Some(MissingKeyError);
        clientKey := DummyApiKey;
      } else {
        error := None;
        clientKey := apiKey.value;
      }
      new;
      if !KeyMissing(apiKey) {
        StartChat();
      }
    }

    /** Creates a new session from the current client; the error slot is untouched. */
    method StartChat()
      modifies this`chat, this`sessionsCreated
      ensures Valid()
      ensures chat == Some(ChatSession(clientKey, ModelName))
      ensures sessionsCreated == old(sessionsCreated) + 1
    {
      chat := Some(ChatSession(clientKey, ModelName));
      sessionsCreated := sessionsCreated + 1;
    }

    /**
     * Clears the error, creates a session if there is none, and hands the
     * message to the session. A throwing call becomes `None` plus a fixed
     * error. The branch that returns `None` without a session cannot be
     * taken: the error slot was cleared just before it is tested.
     */
    method SendMessage(message: string, outcome: SendOutcome) returns (r: Option<FragmentStream>)
      requires Valid()
      modifies this`chat, this`sessionsCreated, this`error
      ensures Valid()
      ensures chat == (if old(chat).Some? then old(chat) else Some(ChatSession(clientKey, ModelName)))
      ensures sessionsCreated == old(sessionsCreated) + (if old(chat).None? then 1 else 0)
      ensures r == SendResult(outcome)
      ensures outcome.Streams? ==> error == None
      ensures outcome.Throws? ==> error == Some(SendFailedError)
    {
      error := None;
      if chat.None? {
        if error.None? {
          StartChat();
        } else {
          assert false;
          return None;
        }
      }
      match outcome
      case Streams(stream) =>
        r := Some(stream);
      case Throws =>
        error := Some(SendFailedError);
        r := None;
    }
  }
}
