/**
 * The conversation log of the chat component and a value-level account of
 * one conversation turn: the user message and the AI placeholder are
 * appended, response chunks are written into the placeholder as they
 * arrive, and a final step seals the placeholder on every exit path.
 */
module ChatTurn {
  import opened Options
  import opened Gemini

  const RefusedReply := "Sorry, I couldn't process that. Please try again."
  const StreamErrorMessage := "An error occurred while receiving the response."
  const StreamErrorReply := "I encountered an error. Please try again."
  const NoReplyFallback := "I'm sorry, I didn't catch that. Could you please say it again?"

  datatype Sender = User | Ai

  /** One chat message; an absent `isStreaming` is `false`. */
  datatype Message = Message(sender: Sender, text: string, isStreaming: bool)

  function UserMessage(text: string): (r: Message)
  {
    Message(User, text, false)
  }

  /** The empty, unsealed AI message a turn starts with. */
  const Placeholder := Message(Ai, "", true)

  /** No message of the log is still streaming. */
  predicate AllSealed(log: seq<Message>)
  {
    forall i | 0 <= i < |log| :: !log[i].isStreaming
  }

  /** The guard of the in-place updates: the last message is an AI message still streaming. */
  predicate EndsWithStreamingAi(log: seq<Message>)
  {
    |log| > 0 && log[|log| - 1].sender == Ai && log[|log| - 1].isStreaming
  }

  /** The texts of `chunks` joined in order. */
  function Concat(chunks: seq<string>): (r: string)
  {
    if chunks == [] then "" else chunks[0] + Concat(chunks[1..])
  }

  lemma {:induction false} ConcatSnoc(chunks: seq<string>, c: string)
    ensures Concat(chunks + [c]) == Concat(chunks) + c
  {
    if chunks == [] {
      assert [c][1..] == [];
    } else {
      assert (chunks + [c])[1..] == chunks[1..] + [c];
      ConcatSnoc(chunks[1..], c);
    }
  }

  /** The joined response is empty exactly when every chunk is empty. */
  lemma {:induction false} ConcatEmptyIff(chunks: seq<string>)
    ensures Concat(chunks) == "" <==> forall i | 0 <= i < |chunks| :: chunks[i] == ""
  {
    if chunks != [] {
      ConcatEmptyIff(chunks[1..]);
      assert forall i | 1 <= i < |chunks| :: chunks[i] == chunks[1..][i - 1];
    }
  }

  /** The refused-send update: a trailing streaming AI message gets the fixed reply and is sealed. */
  function SealRefused(log: seq<Message>): (r: seq<Message>)
    requires |log| > 0
    ensures |r| == |log| && r[..|log| - 1] == log[..|log| - 1]
    ensures EndsWithStreamingAi(log) ==> r[|log| - 1] == Message(Ai, RefusedReply, false)
    ensures !EndsWithStreamingAi(log) ==> r == log
  {
    if EndsWithStreamingAi(log) then
      log[..|log| - 1] + [log[|log| - 1].(text := RefusedReply, isStreaming := false)]
    else
      log
  }

  /** The per-chunk update: a trailing streaming AI message shows the response so far. */
  function WithStreamingText(log: seq<Message>, response: string): (r: seq<Message>)
    requires |log| > 0
    ensures |r| == |log| && r[..|log| - 1] == log[..|log| - 1]
    ensures EndsWithStreamingAi(log) ==> r[|log| - 1] == Message(Ai, response, true)
    ensures !EndsWithStreamingAi(log) ==> r == log
  {
    if EndsWithStreamingAi(log) then
      log[..|log| - 1] + [log[|log| - 1].(text := response)]
    else
      log
  }

  /**
   * Consuming `chunks`, starting from the response `acc`: each chunk is added
   * to the response and the log updated. Returns the log and the response.
   */
  function Streamed(log: seq<Message>, acc: string, chunks: seq<string>): (r: (seq<Message>, string))
    requires |log| > 0
    ensures r.1 == acc + Concat(chunks)
    ensures |r.0| == |log| && r.0[..|log| - 1] == log[..|log| - 1]
    ensures EndsWithStreamingAi(log) && log[|log| - 1].text == acc ==>
      r.0[|log| - 1] == Message(Ai, r.1, true)
    ensures !EndsWithStreamingAi(log) ==> r.0 == log
    decreases |chunks|
  {
    if chunks == [] then
      (log, acc)
    else
      var response := acc + chunks[0];
      Streamed(WithStreamingText(log, response), response, chunks[1..])
  }

  /** Streaming into a fresh placeholder leaves it unsealed, showing the joined chunks. */
  lemma StreamedFromPlaceholder(log: seq<Message>, chunks: seq<string>)
    requires EndsWithStreamingAi(log) && log[|log| - 1].text == ""
    ensures Streamed(log, "", chunks) ==
      (log[..|log| - 1] + [Message(Ai, Concat(chunks), true)], Concat(chunks))
  {
    var r := Streamed(log, "", chunks);
    var n := |log| - 1;
    assert r.1 == Concat(chunks);
    assert r.0[n] == Message(Ai, r.1, true);
    assert r.0 == r.0[..n] + [r.0[n]];
  }

  /**
   * The unconditional last step of a turn. When the last message is an AI
   * message it is sealed and shows the response, an empty response being
   * replaced by a fixed apology. Returns the log and the text to speak.
   */
  function Finalise(log: seq<Message>, response: string): (r: (seq<Message>, string))
    requires |log| > 0
    ensures |r.0| == |log| && r.0[..|log| - 1] == log[..|log| - 1]
    ensures log[|log| - 1].sender == Ai ==>
      r.0[|log| - 1] == Message(Ai, r.1, false) && r.1 != "" &&
      r.1 == (if response == "" then NoReplyFallback else response)
    ensures log[|log| - 1].sender != Ai ==> r == (log, response)
  {
    var last := log[|log| - 1];
    if last.sender == Ai then
      var spoken := if response == "" then NoReplyFallback else response;
      (log[..|log| - 1] + [last.(isStreaming := false, text := spoken)], spoken)
    else
      (log, response)
  }

  /**
   * The part of a turn after a stream was obtained, from the log `started`
   * that ends with the placeholder: the placeholder shows the joined chunks,
   * then the turn is finalised with them or, when the stream raised, with a
   * fixed notice. Returns the log and the text to speak.
   */
  function Consumed(started: seq<Message>, stream: FragmentStream): (r: (seq<Message>, string))
    requires |started| > 0
  {
    var joined := Concat(stream.chunks);
    var streamed := started[..|started| - 1] + [Message(Ai, joined, true)];
    Finalise(streamed, if stream.end.Raises? then StreamErrorReply else joined)
  }

  /** What one turn leaves behind: the log, the text handed to speech output if any, the error slot. */
  datatype TurnResult = TurnResult(log: seq<Message>, spoken: Option<string>, error: Option<string>)

  /**
   * One turn for the transcript `text`, given what the backend does with it:
   * the user message and the placeholder are appended; a failed send seals
   * the placeholder with a fixed reply; otherwise the placeholder shows the
   * joined chunks (see StreamedFromPlaceholder) and the turn is finalised
   * with them or, when the stream raised, with a fixed error notice.
   */
  function RunTurn(log: seq<Message>, text: string, outcome: SendOutcome): (r: TurnResult)
    ensures r.spoken.None? <==> outcome.Throws?
    ensures r.error.None? <==> outcome.Streams? && outcome.stream.end.Exhausted?
  {
    var started := log + [UserMessage(text), Placeholder];
    match outcome
    case Throws =>
      TurnResult(SealRefused(started), None, Some(SendFailedError))
    case Streams(stream) =>
      var finished := Consumed(started, stream);
      TurnResult(finished.0, Some(finished.1), if stream.end.Raises? then Some(StreamErrorMessage) else None)
  }

  /**
   * What every turn guarantees. Exactly two messages are appended and nothing
   * before them changes; the AI message is sealed with non-empty text on
   * every path; it is spoken unless the send failed; the error slot holds
   * the failure of the turn, if any.
   */
  lemma TurnProperties(log: seq<Message>, text: string, outcome: SendOutcome)
    ensures var t := RunTurn(log, text, outcome);
      |t.log| == |log| + 2 && t.log[..|log|] == log &&
      t.log[|log|] == UserMessage(text) &&
      t.log[|log| + 1].sender == Ai && !t.log[|log| + 1].isStreaming && t.log[|log| + 1].text != "" &&
      (AllSealed(log) ==> AllSealed(t.log)) &&
      (outcome.Throws? ==>
        t.log[|log| + 1].text == RefusedReply && t.spoken == None && t.error == Some(SendFailedError)) &&
      (outcome.Streams? ==> t.spoken == Some(t.log[|log| + 1].text)) &&
      (outcome.Streams? && outcome.stream.end.Raises? ==>
        t.log[|log| + 1].text == StreamErrorReply && t.error == Some(StreamErrorMessage)) &&
      (outcome.Streams? && outcome.stream.end.Exhausted? ==>
        var joined := Concat(outcome.stream.chunks);
        t.log[|log| + 1].text == (if joined == "" then NoReplyFallback else joined) && t.error == None)
  {
  }
}
