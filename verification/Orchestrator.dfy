/**
 * One call of `bot_response` (main.py:64-119), stated as a function of the
 * conversation before the call, the user's prompt, the retry budget and what
 * the remote services do on each attempt.
 *
 * The chat service, the JSON decoder and the image round trip (image service,
 * download, decode, save, display) are not computed here: each attempt's
 * behaviour is an input `Attempt`.
 */
module Orchestrator {
  import opened Wrappers
  import opened Text
  import opened ImageFile

  /** The buffer is cut back to this many entries on the plain-reply path. */
  const MaxHistory := 12
  /** The default of `max_retries`. */
  const DefaultMaxRetries := 3
  /** The one tool the chat service is offered. */
  const ImageTool := "generate_dalle_image"
  /** An exception whose text contains this is retried. */
  const PolicyMarker := "content_policy_violation"
  const ProcessingError := "An error occurred while processing the response."
  const GenerationError := "An error occurred while generating the response."
  const RetriesExhausted := "Failed to generate response after retries."
  /** The text of the `KeyError` raised when the decoded arguments lack "prompt". */
  const MissingPromptError := "'prompt'"
  const ImageUrlLabel := "Image URL: "

  datatype Role = User | Assistant

  /** An entry of the `messages` buffer; a reply's content may be absent (`None`). */
  datatype Message = Message(role: Role, content: Option<string>)

  function UserMessage(prompt: string): Message
  {
    Message(User, Some(prompt))
  }

  /** What `json.loads(arguments)["prompt"]` does with a tool call's argument text. */
  datatype Arguments =
    | Malformed            // json.loads raises JSONDecodeError
    | NoPrompt             // the decoded value has no "prompt" entry
    | Prompt(text: string) // the prompt for the image service

  datatype ToolCall = ToolCall(name: string, arguments: Arguments)

  /** What asking for, downloading, saving and showing an image does. */
  datatype ImageRoundTrip =
    | ImageFailed(error: string)
    | ImageSaved(url: string, suffix: Suffix)

  /**
   * What one attempt meets: the chat request raises, or it returns a message
   * with content and tool calls; `image` is what the image round trip would do
   * if this attempt honoured a tool call.
   */
  datatype Attempt =
    | ChatFailed(error: string)
    | Reply(content: Option<string>, toolCalls: seq<ToolCall>, image: ImageRoundTrip)

  /** How one attempt ends. */
  datatype Action =
    | Raise(error: string)                  // an exception reaches the handler at main.py:110
    | BadArguments                          // the JSONDecodeError handler at main.py:89-92
    | ShowImage(url: string, suffix: Suffix) // the image path, main.py:94-100
    | Answer(content: Option<string>)        // the plain-reply path, main.py:102-108

  /** What a call leaves behind: the buffer, the returned value, the file saved and how many chat requests were sent. */
  datatype TurnResult = TurnResult(messages: seq<Message>, reply: Option<string>, saved: Option<string>, requests: nat)

  /** Index of the first tool call named `generate_dalle_image`, or `|calls|` if there is none. */
  function FirstImageCall(calls: seq<ToolCall>): (k: nat)
    ensures k <= |calls|
    ensures forall j :: 0 <= j < k ==> calls[j].name != ImageTool
    ensures k < |calls| ==> calls[k].name == ImageTool
  {
    if |calls| == 0 || calls[0].name == ImageTool then 0 else 1 + FirstImageCall(calls[1..])
  }

  /** Tool calls after the first image call do not move it. */
  lemma {:induction false} FirstImageCallIgnoresLater(calls: seq<ToolCall>, more: seq<ToolCall>)
    requires FirstImageCall(calls) < |calls|
    ensures FirstImageCall(calls + more) == FirstImageCall(calls)
  {
    if calls[0].name != ImageTool {
      assert (calls + more)[1..] == calls[1..] + more;
      FirstImageCallIgnoresLater(calls[1..], more);
    }
  }

  function ImageLine(url: string): string
  {
    ImageUrlLabel + url
  }

  /** The body of the `try` at main.py:71-108: how one attempt ends. */
  function Classify(a: Attempt): Action
  {
    match a
    case ChatFailed(e) => Raise(e)
    case Reply(content, calls, image) =>
      var k := FirstImageCall(calls);
      if k == |calls| then Answer(content)
      else
        match calls[k].arguments
        case Malformed => BadArguments
        case NoPrompt => Raise(MissingPromptError)
        case Prompt(_) =>
          match image
          case ImageFailed(e) => Raise(e)
          case ImageSaved(url, n) => ShowImage(url, n)
  }

  /** The handler at main.py:112 retries only a content-policy exception. */
  predicate IsRetry(action: Action)
  {
    action.Raise? && Contains(action.error, PolicyMarker)
  }

  /** `messages[-12:]` when the buffer is longer than 12 (main.py:105-106). */
  function Trim(messages: seq<Message>): (r: seq<Message>)
    ensures |r| == if |messages| <= MaxHistory then |messages| else MaxHistory
    ensures r == messages[|messages| - |r|..]
  {
    if |messages| > MaxHistory then messages[|messages| - MaxHistory..] else messages
  }

  /** How the call ends once an attempt is not retried. */
  function Settle(messages: seq<Message>, action: Action, requests: nat): TurnResult
    requires !IsRetry(action)
  {
    match action
    case Raise(_) => TurnResult(messages, Some(GenerationError), None, requests)
    case BadArguments => TurnResult(messages, Some(ProcessingError), None, requests)
    case ShowImage(url, n) =>
      TurnResult(messages + [Message(Assistant, Some(ImageLine(url)))], Some(ImageLine(url)),
                 Some(ImageFilename(url, n)), requests)
    case Answer(content) =>
      TurnResult(Trim(messages + [Message(Assistant, content)]), content, None, requests)
  }

  /** The loop at main.py:69-119 from attempt number `attempt` on. */
  function Attempts(messages: seq<Message>, attempt: nat, maxRetries: int, outcomes: seq<Attempt>): TurnResult
    requires maxRetries <= |outcomes|
    decreases maxRetries - attempt
  {
    if attempt >= maxRetries then TurnResult(messages, Some(RetriesExhausted), None, attempt)
    else
      var action := Classify(outcomes[attempt]);
      if IsRetry(action) then Attempts(messages, attempt + 1, maxRetries, outcomes)
      else Settle(messages, action, attempt + 1)
  }

  /** `bot_response(prompt, maxRetries)` on the buffer `history`. */
  function Turn(history: seq<Message>, prompt: string, maxRetries: int, outcomes: seq<Attempt>): TurnResult
    requires maxRetries <= |outcomes|
  {
    Attempts(history + [UserMessage(prompt)], 0, maxRetries, outcomes)
  }

  /** Every attempt before `k` ended in a content-policy exception. */
  predicate RetriedBefore(outcomes: seq<Attempt>, k: int)
    requires k <= |outcomes|
  {
    forall i :: 0 <= i < k ==> IsRetry(Classify(outcomes[i]))
  }

  /** The first attempt from `from` on that is not retried, or the end of the budget. */
  function FirstSettling(outcomes: seq<Attempt>, from: nat, maxRetries: int): (k: nat)
    requires maxRetries <= |outcomes|
    ensures from <= k
    ensures k <= maxRetries || k == from
    ensures forall i :: from <= i < k ==> IsRetry(Classify(outcomes[i]))
    ensures k < maxRetries ==> !IsRetry(Classify(outcomes[k]))
    decreases maxRetries - from
  {
    if from >= maxRetries || !IsRetry(Classify(outcomes[from])) then from
    else FirstSettling(outcomes, from + 1, maxRetries)
  }

  /** Retried attempts change nothing: the loop goes on as if it began at the first attempt that is not retried. */
  lemma {:induction false} SkipRetries(messages: seq<Message>, attempt: nat, maxRetries: int, outcomes: seq<Attempt>)
    requires maxRetries <= |outcomes|
    ensures Attempts(messages, attempt, maxRetries, outcomes)
      == Attempts(messages, FirstSettling(outcomes, attempt, maxRetries), maxRetries, outcomes)
    decreases maxRetries - attempt
  {
    if attempt < maxRetries && IsRetry(Classify(outcomes[attempt])) {
      SkipRetries(messages, attempt + 1, maxRetries, outcomes);
    }
  }

  /** The loop's result is decided by the first attempt that is not retried. */
  lemma AttemptsSettle(messages: seq<Message>, attempt: nat, maxRetries: int, outcomes: seq<Attempt>)
    requires maxRetries <= |outcomes|
    ensures var k := FirstSettling(outcomes, attempt, maxRetries);
      Attempts(messages, attempt, maxRetries, outcomes) ==
        if k < maxRetries then Settle(messages, Classify(outcomes[k]), k + 1)
        else TurnResult(messages, Some(RetriesExhausted), None, k)
  {
    SkipRetries(messages, attempt, maxRetries, outcomes);
  }

  lemma AppendTwo<T>(s: seq<T>, a: T, b: T)
    ensures s + [a] + [b] == s + [a, b]
  {
  }

  /** When attempt `j` is the first that is not retried, it decides the call. */
  lemma TurnSettlesAt(history: seq<Message>, prompt: string, maxRetries: int, outcomes: seq<Attempt>, j: nat)
    requires maxRetries <= |outcomes| && j < maxRetries
    requires RetriedBefore(outcomes, j) && !IsRetry(Classify(outcomes[j]))
    ensures Turn(history, prompt, maxRetries, outcomes)
      == Settle(history + [UserMessage(prompt)], Classify(outcomes[j]), j + 1)
  {
    var k := FirstSettling(outcomes, 0, maxRetries);
    assert k == j;
    AttemptsSettle(history + [UserMessage(prompt)], 0, maxRetries, outcomes);
  }

  /**
   * At most `maxRetries` chat requests are sent, and every request but the
   * last met a content-policy exception: the counter moves only on those.
   */
  lemma RetriesOnlyOnPolicyViolation(history: seq<Message>, prompt: string, maxRetries: int, outcomes: seq<Attempt>)
    requires maxRetries <= |outcomes|
    ensures var t := Turn(history, prompt, maxRetries, outcomes);
      && t.requests <= (if maxRetries < 0 then 0 else maxRetries)
      && RetriedBefore(outcomes, t.requests - 1)
  {
    AttemptsSettle(history + [UserMessage(prompt)], 0, maxRetries, outcomes);
  }

  /** Running out of attempts: the user entry stays, nothing else is added, the retries string is returned. */
  lemma ExhaustedRetries(history: seq<Message>, prompt: string, maxRetries: int, outcomes: seq<Attempt>)
    requires 0 <= maxRetries <= |outcomes|
    requires RetriedBefore(outcomes, maxRetries)
    ensures Turn(history, prompt, maxRetries, outcomes)
      == TurnResult(history + [UserMessage(prompt)], Some(RetriesExhausted), None, maxRetries)
  {
    AttemptsSettle(history + [UserMessage(prompt)], 0, maxRetries, outcomes);
  }

  /** Any other exception ends the call at once with the generation-error string and adds no reply. */
  lemma OtherExceptionAborts(history: seq<Message>, prompt: string, maxRetries: int, outcomes: seq<Attempt>, j: nat)
    requires maxRetries <= |outcomes| && j < maxRetries && RetriedBefore(outcomes, j)
    requires Classify(outcomes[j]).Raise? && !Contains(Classify(outcomes[j]).error, PolicyMarker)
    ensures Turn(history, prompt, maxRetries, outcomes)
      == TurnResult(history + [UserMessage(prompt)], Some(GenerationError), None, j + 1)
  {
    TurnSettlesAt(history, prompt, maxRetries, outcomes, j);
  }

  /**
   * A first image call whose decoded arguments lack "prompt" raises KeyError,
   * which the outer handler reports as a generation error: it is not the
   * processing error of main.py:89-92 and is not retried.
   */
  lemma MissingPromptIsGenerationError(history: seq<Message>, prompt: string, maxRetries: int, outcomes: seq<Attempt>, j: nat)
    requires maxRetries <= |outcomes| && j < maxRetries && RetriedBefore(outcomes, j)
    requires outcomes[j].Reply? && FirstImageCall(outcomes[j].toolCalls) < |outcomes[j].toolCalls|
    requires outcomes[j].toolCalls[FirstImageCall(outcomes[j].toolCalls)].arguments == NoPrompt
    ensures Turn(history, prompt, maxRetries, outcomes)
      == TurnResult(history + [UserMessage(prompt)], Some(GenerationError), None, j + 1)
  {
    assert Classify(outcomes[j]) == Raise(MissingPromptError);
    TurnSettlesAt(history, prompt, maxRetries, outcomes, j);
  }

  /** Unparseable arguments of the first image call end the call with the processing-error string and consume no retry. */
  lemma MalformedArgumentsAbort(history: seq<Message>, prompt: string, maxRetries: int, outcomes: seq<Attempt>, j: nat)
    requires maxRetries <= |outcomes| && j < maxRetries && RetriedBefore(outcomes, j)
    requires outcomes[j].Reply? && FirstImageCall(outcomes[j].toolCalls) < |outcomes[j].toolCalls|
    requires outcomes[j].toolCalls[FirstImageCall(outcomes[j].toolCalls)].arguments == Malformed
    ensures Turn(history, prompt, maxRetries, outcomes)
      == TurnResult(history + [UserMessage(prompt)], Some(ProcessingError), None, j + 1)
  {
    assert Classify(outcomes[j]) == BadArguments;
    TurnSettlesAt(history, prompt, maxRetries, outcomes, j);
  }

  /**
   * A reply with no `generate_dalle_image` call: one assistant entry with the
   * reply's content is added, the buffer is cut to its last 12 entries, and the
   * content is returned.
   */
  lemma PlainReply(history: seq<Message>, prompt: string, maxRetries: int, outcomes: seq<Attempt>, j: nat)
    requires maxRetries <= |outcomes| && j < maxRetries && RetriedBefore(outcomes, j)
    requires outcomes[j].Reply?
    requires forall i :: 0 <= i < |outcomes[j].toolCalls| ==> outcomes[j].toolCalls[i].name != ImageTool
    ensures var t := Turn(history, prompt, maxRetries, outcomes);
      var full := history + [UserMessage(prompt), Message(Assistant, outcomes[j].content)];
      && |t.messages| == (if |full| <= MaxHistory then |full| else MaxHistory)
      && t.messages == full[|full| - |t.messages|..]
      && t.reply == outcomes[j].content
      && t.saved == None
      && t.requests == j + 1
  {
    assert Classify(outcomes[j]) == Answer(outcomes[j].content);
    TurnSettlesAt(history, prompt, maxRetries, outcomes, j);
    AppendTwo(history, UserMessage(prompt), Message(Assistant, outcomes[j].content));
  }

  /**
   * A reply whose first `generate_dalle_image` call carries a prompt and whose
   * image is saved: exactly one "Image URL: <url>" entry is added and returned,
   * the file is saved under the derived name, and the buffer is NOT trimmed.
   */
  lemma ImageReply(history: seq<Message>, prompt: string, maxRetries: int, outcomes: seq<Attempt>, j: nat)
    requires maxRetries <= |outcomes| && j < maxRetries && RetriedBefore(outcomes, j)
    requires outcomes[j].Reply? && FirstImageCall(outcomes[j].toolCalls) < |outcomes[j].toolCalls|
    requires outcomes[j].toolCalls[FirstImageCall(outcomes[j].toolCalls)].arguments.Prompt?
    requires outcomes[j].image.ImageSaved?
    ensures var url := outcomes[j].image.url;
      var t := Turn(history, prompt, maxRetries, outcomes);
      && t.messages == history + [UserMessage(prompt), Message(Assistant, Some(ImageUrlLabel + url))]
      && t.reply == Some(ImageUrlLabel + url)
      && t.saved == Some(ImageFilename(url, outcomes[j].image.suffix))
      && t.requests == j + 1
  {
    var a := outcomes[j];
    var k := FirstImageCall(a.toolCalls);
    assert a.toolCalls[k].arguments.Prompt?;
    assert Classify(a) == ShowImage(a.image.url, a.image.suffix);
    TurnSettlesAt(history, prompt, maxRetries, outcomes, j);
    AppendTwo(history, UserMessage(prompt), Message(Assistant, Some(ImageUrlLabel + a.image.url)));
  }

  /** Whatever the services do, the user entry is added once and at most one assistant entry follows it. */
  lemma UserPromptAppendedOnce(history: seq<Message>, prompt: string, maxRetries: int, outcomes: seq<Attempt>)
    requires maxRetries <= |outcomes|
    ensures var t := Turn(history, prompt, maxRetries, outcomes);
      var base := history + [UserMessage(prompt)];
      || t.messages == base
      || (exists m: Message :: m.role == Assistant && t.messages == base + [m])
      || (exists m: Message :: m.role == Assistant && t.messages == Trim(base + [m]))
  {
    var base := history + [UserMessage(prompt)];
    AttemptsSettle(base, 0, maxRetries, outcomes);
  }

  /**
   * An image reply grows the buffer by two entries and is never trimmed, so on a
   * buffer of 11 or more entries it leaves more than 12 behind.
   */
  lemma ImageReplyCanExceedLimit(history: seq<Message>, prompt: string, maxRetries: int, outcomes: seq<Attempt>, j: nat)
    requires maxRetries <= |outcomes| && j < maxRetries && RetriedBefore(outcomes, j)
    requires outcomes[j].Reply? && FirstImageCall(outcomes[j].toolCalls) < |outcomes[j].toolCalls|
    requires outcomes[j].toolCalls[FirstImageCall(outcomes[j].toolCalls)].arguments.Prompt?
    requires outcomes[j].image.ImageSaved?
    ensures |Turn(history, prompt, maxRetries, outcomes).messages| == |history| + 2
    ensures |history| >= MaxHistory - 1 ==> |Turn(history, prompt, maxRetries, outcomes).messages| > MaxHistory
  {
    ImageReply(history, prompt, maxRetries, outcomes, j);
  }
}
