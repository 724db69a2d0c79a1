/**
 * The process-wide conversation buffer and the two handlers that update it in
 * place: `bot_response` (main.py:64-119) and the UI's `respond` (main.py:137-145).
 */
module Bot {
  import opened Wrappers
  import opened Text
  import opened ImageFile
  import opened Orchestrator

  /** The global `messages` list of main.py:61. */
  class Conversation {
    var messages: seq<Message>

    constructor ()
      ensures messages == []
    {
      messages := [];
    }

    /**
     * `bot_response(userPrompt, maxRetries)`: attempt `i` of the loop meets
     * `outcomes[i]`. Returns the string handed back to the caller and the name
     * of the image file saved, if any.
     */
    method BotResponse(userPrompt: string, maxRetries: int, outcomes: seq<Attempt>)
      returns (reply: Option<string>, saved: Option<string>)
      requires maxRetries <= |outcomes|
      modifies this
      ensures var t := Turn(old(messages), userPrompt, maxRetries, outcomes);
        messages == t.messages && reply == t.reply && saved == t.saved
    {
      messages := messages + [UserMessage(userPrompt)];
      var attempt: nat := 0;
      while attempt < maxRetries
        invariant messages == old(messages) + [UserMessage(userPrompt)]
        invariant Attempts(messages, attempt, maxRetries, outcomes) == Turn(old(messages), userPrompt, maxRetries, outcomes)
        decreases maxRetries - attempt
      {
        var error: string;  // the text of the exception this attempt raises
        match outcomes[attempt] {
          case ChatFailed(e) =>
            assert Classify(outcomes[attempt]) == Raise(e);
            error := e;
          case Reply(content, toolCalls, image) =>
            var raised: Option<string> := None;
            for i := 0 to |toolCalls|
              invariant forall j :: 0 <= j < i ==> toolCalls[j].name != ImageTool
            {
              if toolCalls[i].name == ImageTool {
                match toolCalls[i].arguments {
                  case Malformed =>
                    assert FirstImageCall(toolCalls) == i;
                    assert Classify(outcomes[attempt]) == BadArguments;
                    return Some(ProcessingError), None;
                  case NoPrompt =>
                    assert FirstImageCall(toolCalls) == i;
                    assert Classify(outcomes[attempt]) == Raise(MissingPromptError);
                    raised := Some(MissingPromptError);
                  case Prompt(_) =>
                    match image {
                      case ImageFailed(e) =>
                        assert FirstImageCall(toolCalls) == i;
                        assert Classify(outcomes[attempt]) == Raise(e);
                        raised := Some(e);
                      case ImageSaved(url, suffix) =>
                        assert FirstImageCall(toolCalls) == i;
                        assert Classify(outcomes[attempt]) == ShowImage(url, suffix);
                        var filename := ImageFilename(url, suffix);
                        messages := messages + [Message(Assistant, Some(ImageUrlLabel + url))];
                        return Some(ImageUrlLabel + url), Some(filename);
                    }
                }
                break;
              }
            }
            match raised {
              case None =>
                // no tool call was honoured: the plain-reply path
                assert Classify(outcomes[attempt]) == Answer(content);
                messages := messages + [Message(Assistant, content)];
                if |messages| > MaxHistory {
                  messages := messages[|messages| - MaxHistory..];
                }
                return content, None;
              case Some(e) =>
                assert Classify(outcomes[attempt]) == Raise(e);
                error := e;
            }
        }
        if Contains(error, PolicyMarker) {
          attempt := attempt + 1;
        } else {
          return Some(GenerationError), None;
        }
      }
      return Some(RetriesExhausted), None;
    }
  }

  /** The chat panel's history, a list the UI handler appends to in place. */
  class ChatHistory {
    var pairs: seq<(string, Option<string>)>

    constructor ()
      ensures pairs == []
    {
      pairs := [];
    }
  }

  /**
   * The UI's `respond(message, chat_history)`: one call of `bot_response` with
   * the default retry budget, one (message, reply) pair appended to the panel,
   * and an empty text box.
   */
  method Respond(conversation: Conversation, message: string, chatHistory: ChatHistory, outcomes: seq<Attempt>)
    returns (textbox: string, shown: ChatHistory)
    requires DefaultMaxRetries <= |outcomes|
    modifies conversation, chatHistory
    ensures var t := Turn(old(conversation.messages), message, DefaultMaxRetries, outcomes);
      && conversation.messages == t.messages
      && chatHistory.pairs == old(chatHistory.pairs) + [(message, t.reply)]
    ensures textbox == "" && shown == chatHistory
  {
    var botMessage, saved := conversation.BotResponse(message, DefaultMaxRetries, outcomes);
    chatHistory.pairs := chatHistory.pairs + [(message, botMessage)];
    return "", chatHistory;
  }
}
