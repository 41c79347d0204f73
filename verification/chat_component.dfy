/**
 * The turn coordinator (`ChatComponent`): it reacts to the speech
 * recogniser's callbacks, runs one conversation turn per final transcript,
 * and hands replies to speech output.
 *
 * The recogniser and the speech synthesiser are not modelled as objects:
 * whether a recogniser exists is fixed at construction, the recogniser's
 * callbacks are methods, `toggleListening` returns the command it issues, and
 * the synthesiser is its `speaking` flag, the texts it was asked to speak and
 * the number of times playing speech was cancelled.
 * The component has no error slot of its own: it reads and writes the
 * service's.
 */
module Chat {
  import opened Options
  import opened JsString
  import opened Gemini
  import opened ChatTurn

  const Greeting := "Hello! I'm Alex. I'm here to help you practice your English. Tap the microphone and let's start with a simple question: How was your day?"
  const UnsupportedError := "Speech Recognition API is not supported in this browser."
  const InitFailedError := "Speech Recognition could not be initialized."
  const RecognitionErrorPrefix := "Speech recognition error: "

  /** How setting up speech recognition went: a recogniser, no API, or a throwing constructor. */
  datatype RecognitionSetup = Supported | Unsupported | ConstructorThrows

  /** A call on the recogniser. */
  datatype RecognitionCommand = Start | Stop

  /** What `formatMessage` writes for one character. */
  function FormatChar(c: char): (r: string)
  {
    if c == '\n' then "<br>" else [c]
  }

  /** `formatMessage`: every line feed becomes `<br>`. */
  function FormatMessage(text: string): (r: string)
    ensures '\n' !in r
  {
    if text == [] then "" else FormatChar(text[0]) + FormatMessage(text[1..])
  }

  /** Each line feed lengthens the text by three characters; nothing else changes the length. */
  lemma {:induction false} FormatMessageLength(text: string)
    ensures |FormatMessage(text)| == |text| + 3 * multiset(text)['\n']
  {
    if text != [] {
      assert text == [text[0]] + text[1..];
      FormatMessageLength(text[1..]);
    }
  }

  /** Text without line feeds is left as it is. */
  lemma {:induction false} FormatMessageKeepsPlainText(text: string)
    requires '\n' !in text
    ensures FormatMessage(text) == text
  {
    if text != [] {
      assert text == [text[0]] + text[1..];
      FormatMessageKeepsPlainText(text[1..]);
    }
  }

  /** Formatting works piece by piece. */
  lemma {:induction false} FormatMessageAppend(a: string, b: string)
    ensures FormatMessage(a + b) == FormatMessage(a) + FormatMessage(b)
  {
    if a == [] {
      assert a + b == b;
    } else {
      var ab := a + b;
      assert ab[0] == a[0] && ab[1..] == a[1..] + b;
      FormatMessageAppend(a[1..], b);
      assert FormatMessage(ab) == FormatChar(a[0]) + FormatMessage(a[1..] + b);
    }
  }

  /** A line feed becomes `<br>`; with FormatMessageAppend and FormatMessageKeepsPlainText this fixes every output. */
  lemma FormatMessageLineFeed()
    ensures FormatMessage("\n") == "<br>"
  {
  }

  /** Formatting an already formatted text changes nothing. */
  lemma {:induction false} FormatMessageIdempotent(text: string)
    ensures FormatMessage(FormatMessage(text)) == FormatMessage(text)
  {
    FormatMessageKeepsPlainText(FormatMessage(text));
  }

  class ChatComponent {
    /** The injected backend service; its `error` is this component's `error`. */
    const service: GeminiService
    /** Whether a recogniser was created (`recognition` is set). */
    const hasRecognition: bool
    var messages: seq<Message>
    var isListening: bool
    var isProcessing: bool
    /** `speechSynthesis.speaking`. */
    var speaking: bool
    /** The texts handed to `speechSynthesis.speak`, in order. */
    var utterances: seq<string>
    /** How many times `speechSynthesis.cancel` stopped speech that was playing. */
    var cancels: nat

    ghost predicate Valid()
      reads this`isListening, service`clientKey, service`chat, service`sessionsCreated
    {
      service.Valid() && (isListening ==> hasRecognition)
    }

    /**
     * Sets up recognition (a failure lands in the shared error slot) and,
     * when the error slot is then empty, greets the user and speaks the
     * greeting.
     */
    constructor (backend: GeminiService, setup: RecognitionSetup)
      requires backend.Valid()
      modifies backend`error
      ensures Valid() && service == backend
      ensures hasRecognition == setup.Supported?
      ensures backend.error == match setup
        case Supported => old(backend.error)
        case Unsupported => Some(UnsupportedError)
        case ConstructorThrows => Some(InitFailedError)
      ensures !isListening && !isProcessing
      ensures var greets := setup.Supported? && old(backend.error).None?;
        messages == (if greets then [Message(Ai, Greeting, false)] else []) &&
        utterances == (if greets then [Greeting] else []) &&
        speaking == greets && cancels == 0
    {
      service := backend;
      hasRecognition := setup.Supported?;
      messages := [];
      isListening := false;
      isProcessing := false;
      speaking := false;
      utterances := [];
      cancels := 0;
      new;
      match setup {
        case Supported =>
        case Unsupported => backend.error := Some(UnsupportedError);
        case ConstructorThrows => backend.error := Some(InitFailedError);
      }
      if backend.error.None? {
        messages := [Message(Ai, Greeting, false)];
        Speak(Greeting);
      }
    }

    /** The error signal, shared with the service. */
    function Error(): (r: Option<string>)
      reads this, service
    {
      service.error
    }

    /**
     * The microphone button: no recogniser, no call; listening, stop; else
     * start, unless a turn is in flight or speech output is playing.
     */
    method ToggleListening() returns (cmd: Option<RecognitionCommand>)
      ensures cmd == Some(Stop) <==> hasRecognition && isListening
      ensures cmd == Some(Start) <==> hasRecognition && !isListening && !isProcessing && !speaking
      ensures cmd.None? <==> !hasRecognition || (!isListening && (isProcessing || speaking))
    {
      if !hasRecognition {
        return None;
      }
      if isListening {
        cmd := Some(Stop);
      } else {
        if isProcessing || speaking {
          return None;
        }
        cmd := Some(Start);
      }
    }

    /** The recogniser's `onstart` callback. */
    method OnStart()
      requires Valid() && hasRecognition
      modifies this`isListening
      ensures Valid() && isListening
    {
      isListening := true;
    }

    /** The recogniser's `onend` callback. */
    method OnEnd()
      requires Valid() && hasRecognition
      modifies this`isListening
      ensures Valid() && !isListening
    {
      isListening := false;
    }

    /** The recogniser's `onerror` callback, for the error code `code`. */
    method OnError(code: string)
      requires Valid() && hasRecognition
      modifies this`isListening, service`error
      ensures Valid() && !isListening
      ensures Error() == Some(RecognitionErrorPrefix + code)
    {
      service.error := Some(RecognitionErrorPrefix + code);
      isListening := false;
    }

    /**
     * The recogniser's `onresult` callback. `results` holds, per result, the
     * transcripts of its alternatives; the first alternative of the last
     * result is trimmed and, when something is left, a turn runs on it.
     */
    method OnResult(results: seq<seq<string>>, outcome: SendOutcome)
      requires Valid() && hasRecognition
      requires |results| > 0 && |results[|results| - 1]| > 0
      modifies this`messages, this`isProcessing, this`speaking, this`utterances, this`cancels,
        service`chat, service`sessionsCreated, service`error
      ensures Valid()
      ensures var transcript := Trim(results[|results| - 1][0]);
        if transcript == "" then
          unchanged(this) && unchanged(service)
        else
          var t := RunTurn(old(messages), transcript, outcome);
          messages == t.log && service.error == t.error && !isProcessing &&
          utterances == old(utterances) + (if t.spoken.Some? then [t.spoken.value] else []) &&
          speaking == (t.spoken.Some? || old(speaking)) &&
          cancels == old(cancels) + (if t.spoken.Some? && old(speaking) then 1 else 0) &&
          service.chat == (if old(service.chat).Some? then old(service.chat)
                           else Some(ChatSession(service.clientKey, ModelName))) &&
          service.sessionsCreated == old(service.sessionsCreated) + (if old(service.chat).None? then 1 else 0)
    {
      var transcript := Trim(results[|results| - 1][0]);
      if transcript != "" {
        HandleUserMessage(transcript, outcome);
      }
    }

    /**
     * One conversation turn for the transcript `text`; the backend call
     * behaves as `outcome` says.
     */
    method HandleUserMessage(text: string, outcome: SendOutcome)
      requires Valid()
      modifies this`messages, this`isProcessing, this`speaking, this`utterances, this`cancels,
        service`chat, service`sessionsCreated, service`error
      ensures Valid()
      ensures var t := RunTurn(old(messages), text, outcome);
        messages == t.log && service.error == t.error &&
        utterances == old(utterances) + (if t.spoken.Some? then [t.spoken.value] else []) &&
        speaking == (t.spoken.Some? || old(speaking)) &&
        cancels == old(cancels) + (if t.spoken.Some? && old(speaking) then 1 else 0)
      ensures !isProcessing
      ensures service.chat == (if old(service.chat).Some? then old(service.chat)
                               else Some(ChatSession(service.clientKey, ModelName)))
      ensures service.sessionsCreated == old(service.sessionsCreated) + (if old(service.chat).None? then 1 else 0)
    {
      ghost var t := RunTurn(messages, text, outcome);
      BeginTurn(text);
      ghost var started := messages;
      var stream := service.SendMessage(text, outcome);
      if stream.None? {
        assert t == TurnResult(SealRefused(started), None, Some(SendFailedError));
        RefuseTurn();
      } else {
        ConsumeStream(stream.value);
      }
    }

    /** The send produced no stream: the turn ends, the placeholder is sealed with a fixed reply, nothing is spoken. */
    method RefuseTurn()
      requires |messages| > 0
      modifies this`messages, this`isProcessing
      ensures messages == SealRefused(old(messages)) && !isProcessing
    {
      isProcessing := false;
      messages := SealRefused(messages);
    }

    /**
     * The `try`/`catch`/`finally` part of a turn: the chunks are consumed, a
     * raising stream sets the error and replaces the response with a fixed
     * notice, and the turn is finalised and spoken.
     */
    method ConsumeStream(stream: FragmentStream)
      requires EndsWithStreamingAi(messages) && messages[|messages| - 1].text == ""
      modifies this`messages, this`isProcessing, this`speaking, this`utterances, this`cancels, service`error
      ensures var finished := Consumed(old(messages), stream);
        messages == finished.0 && speaking && utterances == old(utterances) + [finished.1]
      ensures cancels == old(cancels) + (if old(speaking) then 1 else 0)
      ensures service.error == if stream.end.Raises? then Some(StreamErrorMessage) else old(service.error)
      ensures !isProcessing
    {
      var aiResponse := ReceiveChunks(stream.chunks);
      if stream.end.Raises? {
        service.error := Some(StreamErrorMessage);
        aiResponse := StreamErrorReply;
      }
      FinishTurn(aiResponse);
    }

    /** The first, synchronous part of a turn: the user message and the AI placeholder are appended. */
    method BeginTurn(text: string)
      modifies this`messages, this`isProcessing
      ensures isProcessing
      ensures messages == old(messages) + [UserMessage(text), Placeholder]
    {
      isProcessing := true;
      messages := messages + [UserMessage(text)];
      messages := messages + [Placeholder];
    }

    /**
     * The `for await` loop: each chunk is added to the response, and the
     * trailing streaming AI message shows the response so far.
     */
    method ReceiveChunks(chunks: seq<string>) returns (aiResponse: string)
      requires EndsWithStreamingAi(messages) && messages[|messages| - 1].text == ""
      modifies this`messages
      ensures aiResponse == Concat(chunks)
      ensures messages == old(messages)[..|old(messages)| - 1] + [Message(Ai, aiResponse, true)]
      ensures (messages, aiResponse) == Streamed(old(messages), "", chunks)
    {
      ghost var n := |messages| - 1;
      ghost var before := messages;
      assert before == before[..n] + [Message(Ai, "", true)];
      aiResponse := "";
      var i := 0;
      while i < |chunks|
        invariant 0 <= i <= |chunks|
        invariant aiResponse == Concat(chunks[..i])
        invariant messages == before[..n] + [Message(Ai, aiResponse, true)]
      {
        assert chunks[..i + 1] == chunks[..i] + [chunks[i]];
        ConcatSnoc(chunks[..i], chunks[i]);
        aiResponse := aiResponse + chunks[i];
        messages := WithStreamingText(messages, aiResponse);
        i := i + 1;
      }
      assert chunks[..i] == chunks;
      StreamedFromPlaceholder(before, chunks);
    }

    /** The `finally` block: seal the AI message, settle its text, speak it. */
    method FinishTurn(aiResponse: string)
      requires |messages| > 0
      modifies this`messages, this`isProcessing, this`speaking, this`utterances, this`cancels
      ensures var finished := Finalise(old(messages), aiResponse);
        messages == finished.0 && speaking == (finished.1 != "") &&
        utterances == old(utterances) + (if finished.1 != "" then [finished.1] else [])
      ensures cancels == old(cancels) + (if old(speaking) then 1 else 0)
      ensures !isProcessing
    {
      var finished := Finalise(messages, aiResponse);
      messages := finished.0;
      isProcessing := false;
      Speak(finished.1);
    }

    /** `speak`: cancels what is playing, then speaks `text` unless it is empty. */
    method Speak(text: string)
      modifies this`speaking, this`utterances, this`cancels
      ensures speaking == (text != "")
      ensures cancels == old(cancels) + (if old(speaking) then 1 else 0)
      ensures utterances == old(utterances) + (if text != "" then [text] else [])
    {
      if speaking {
        cancels := cancels + 1;
        speaking := false;
      }
      if text != "" {
        utterances := utterances + [text];
        speaking := true;
      }
    }

    /** Speech output finishes on its own (the synthesiser, not the component). */
    method UtteranceFinished()
      modifies this`speaking
      ensures !speaking
    {
      speaking := false;
    }
  }
}
