/** The command-line loop `main` (main.py:122-129). */
module Cli {
  import opened Wrappers
  import opened Orchestrator
  import Bot

  /** A character after Python's `str.lower`, for ASCII letters. */
  function LowerChar(c: char): char
  {
    if 'A' <= c <= 'Z' then (c as int + 32) as char else c
  }

  /** Python's `s.lower()`, for ASCII letters. */
  function Lower(s: string): string
  {
    seq(|s|, i requires 0 <= i < |s| => LowerChar(s[i]))
  }

  /** The test `user_input.lower() == 'exit'` of main.py:125. */
  predicate IsExit(s: string)
  {
    Lower(s) == "exit"
  }

  /** The inputs that stop the loop are exactly the 16 spellings of "exit" in any letter case. */
  lemma ExitSpellings(s: string)
    ensures IsExit(s) <==>
      && |s| == 4
      && (s[0] == 'e' || s[0] == 'E')
      && (s[1] == 'x' || s[1] == 'X')
      && (s[2] == 'i' || s[2] == 'I')
      && (s[3] == 't' || s[3] == 'T')
  {
    if |s| == 4 {
      assert Lower(s)[0] == LowerChar(s[0]) && Lower(s)[1] == LowerChar(s[1]);
      assert Lower(s)[2] == LowerChar(s[2]) && Lower(s)[3] == LowerChar(s[3]);
    }
  }

  /** Index of the first input that is an exit command, or `|inputs|`. */
  function FirstExit(inputs: seq<string>): (k: nat)
    ensures k <= |inputs|
    ensures forall i :: 0 <= i < k ==> !IsExit(inputs[i])
    ensures k < |inputs| ==> IsExit(inputs[k])
  {
    if |inputs| == 0 || IsExit(inputs[0]) then 0 else 1 + FirstExit(inputs[1..])
  }

  /** The buffer and the printed replies after a sequence of turns. */
  datatype Session = Session(messages: seq<Message>, replies: seq<Option<string>>)

  /** Each forwarded prompt has its own attempt outcomes, enough for the default budget. */
  predicate HasOutcomes(prompts: seq<string>, outcomes: seq<seq<Attempt>>)
  {
    |prompts| <= |outcomes| && forall i :: 0 <= i < |outcomes| ==> DefaultMaxRetries <= |outcomes[i]|
  }

  /** `bot_response` called on each prompt in turn, starting from `history`. */
  function Replay(history: seq<Message>, prompts: seq<string>, outcomes: seq<seq<Attempt>>): (s: Session)
    requires HasOutcomes(prompts, outcomes)
    ensures |s.replies| == |prompts|
  {
    if |prompts| == 0 then Session(history, [])
    else
      var n := |prompts| - 1;
      var before := Replay(history, prompts[..n], outcomes);
      var t := Turn(before.messages, prompts[n], DefaultMaxRetries, outcomes[n]);
      Session(t.messages, before.replies + [t.reply])
  }

  /** Replaying one more prompt is one more turn on the buffer the shorter replay left. */
  lemma ReplayStep(history: seq<Message>, prompts: seq<string>, outcomes: seq<seq<Attempt>>, n: nat)
    requires n < |prompts| && HasOutcomes(prompts, outcomes)
    ensures var before := Replay(history, prompts[..n], outcomes);
      var t := Turn(before.messages, prompts[n], DefaultMaxRetries, outcomes[n]);
      Replay(history, prompts[..n + 1], outcomes) == Session(t.messages, before.replies + [t.reply])
  {
    assert prompts[..n + 1][..n] == prompts[..n];
  }

  /** Inputs after an exit command can change nothing: the loop has stopped before them. */
  lemma {:induction false} FirstExitIgnoresLater(inputs: seq<string>, more: seq<string>)
    requires FirstExit(inputs) < |inputs|
    ensures FirstExit(inputs + more) == FirstExit(inputs)
  {
    if !IsExit(inputs[0]) {
      assert (inputs + more)[1..] == inputs[1..] + more;
      FirstExitIgnoresLater(inputs[1..], more);
    }
  }

  /**
   * Once an exit command has been typed, whatever follows it is never forwarded:
   * the buffer and the printed replies are those of the inputs up to the exit.
   */
  lemma ExitEndsSession(history: seq<Message>, inputs: seq<string>, more: seq<string>, outcomes: seq<seq<Attempt>>)
    requires FirstExit(inputs) < |inputs| && HasOutcomes(inputs + more, outcomes)
    ensures var k := FirstExit(inputs);
      Replay(history, (inputs + more)[..FirstExit(inputs + more)], outcomes) == Replay(history, inputs[..k], outcomes)
  {
    FirstExitIgnoresLater(inputs, more);
    var k := FirstExit(inputs);
    assert (inputs + more)[..k] == inputs[..k];
  }

  /**
   * `main()`: reads `inputs` one by one, stops at the first exit command
   * without calling `bot_response` for it, and otherwise forwards each input
   * unchanged and prints the reply.
   */
  method RunCli(conversation: Bot.Conversation, inputs: seq<string>, outcomes: seq<seq<Attempt>>)
    returns (printed: seq<Option<string>>)
    requires HasOutcomes(inputs, outcomes)
    modifies conversation
    ensures var s := Replay(old(conversation.messages), inputs[..FirstExit(inputs)], outcomes);
      conversation.messages == s.messages && printed == s.replies
  {
    printed := [];
    var i := 0;
    while i < |inputs|
      invariant 0 <= i <= |inputs|
      invariant i <= FirstExit(inputs)
      invariant var s := Replay(old(conversation.messages), inputs[..i], outcomes);
        conversation.messages == s.messages && printed == s.replies
    {
      var userInput := inputs[i];
      if IsExit(userInput) {
        break;
      }
      var response, saved := conversation.BotResponse(userInput, DefaultMaxRetries, outcomes[i]);
      printed := printed + [response];
      ReplayStep(old(conversation.messages), inputs, outcomes, i);
      i := i + 1;
    }
    assert FirstExit(inputs) == i;
  }
}
