# Personal-Dalle turn handling, modelled in Dafny

Personal-Dalle is a small chat front end. It forwards a user's text to a hosted
chat-completion service. When the service asks for the `generate_dalle_image`
tool, it asks an image service for a picture, downloads it, saves it under a
derived file name, and answers with the picture's URL. It keeps a process-wide
conversation buffer (`messages`), which is cut back to its last 12 entries.

This project models the part of `main.py` that decides things:

- `bot_response`: the retry loop, the tool-call dispatch, and the appends to and trimming of the buffer;
- the image filename expression;
- the command-line loop's exit test;
- the UI handler's history append.

The remote services are not computed. Each loop iteration meets one `Attempt`, given as input:

- the chat request raises an exception, given by its text; or
- it returns a reply with content and tool calls.

The JSON decoding of a tool call's arguments is an input `Arguments` value:

- `Malformed`: the decoder raises `JSONDecodeError`;
- `NoPrompt`: there is no `"prompt"` entry, and `KeyError` is raised;
- `Prompt(text)`: the prompt is found.

The image round trip is an input too. It covers the image service, the download, the decoding, the save and the display. It either fails with an exception text, or it yields a URL and the random draw below 1000.

Files:

- `Wrappers.dfy`: `Option`, for Python values that may be `None`.
- `Text.dfy`: Python's substring test `t in s`.
- `ImageFile.dfy`: the saved file's name, `url.split("/")[-1].split("?")[0] + str(n) + ".png"`.
- `Orchestrator.dfy`: the data model, and `Turn`, a function that gives the outcome of one `bot_response` call. Also the lemmas about it: the retry policy, the three failure strings, which tool call is honoured, and when the buffer is trimmed.
- `Bot.dfy`: class `Conversation`, which holds the global `messages` list. Its imperative `BotResponse` method has the source's `while` loop and its `for` loop over tool calls. It is proved equal to `Turn`. `Respond` is the UI handler.
- `Cli.dfy`: the exit test and the command-line loop, proved against `Replay` (a fold of `Turn`).

Three places where the code behaves differently from what a reader might expect; the model follows the code:

- The buffer is trimmed only on the plain-reply path (main.py:105-106). The image path returns at main.py:100 without trimming. The failure paths do not trim either. So the buffer can exceed 12 entries (`ImageReplyCanExceedLimit`).
- A missing `"prompt"` key raises `KeyError`. The outer handler reports it as the generation error, not the processing error (`MissingPromptIsGenerationError`).
- The image round trip runs inside the same `try`. So an image-service exception whose text contains `content_policy_violation` is retried like a chat exception. The retry sends the chat request again on the same buffer.

## Model

| member | source | states |
|---|---|---|
| `Bot.Conversation.constructor` | main.py:61 | the global buffer starts empty |
| `Bot.Conversation.BotResponse` | main.py:64-119 | the new buffer, the returned value and the saved file name are exactly those of `Turn` on the old buffer: the user entry is appended once before the loop, and one attempt's outcome is consumed per iteration |
| `Bot.ChatHistory.constructor` | main.py:137-142 | the chat panel's history list starts empty; `Bot.Respond` states the one pair each call appends to it in place |
| `Bot.Respond` | main.py:137-145 | one `bot_response` call with the default budget of 3; exactly one (message, reply) pair is appended to the chat history in place; the text box value returned is empty and the same history object is returned |
| `Cli.Lower` | main.py:125 | `str.lower()` on ASCII letters; its effect on the exit test is stated by `Cli.ExitSpellings` |
| `Cli.IsExit` | main.py:125 | the test `user_input.lower() == 'exit'`; `Cli.ExitSpellings` states exactly which inputs pass it |
| `Cli.ExitSpellings` | main.py:125 | an input stops the loop if and only if it is "exit" in some letter case (four characters, each the lower- or upper-case letter) |
| `Cli.FirstExit` | main.py:123-126 | the index where the loop stops: no earlier input is an exit command, and it is the end of input or an exit command |
| `Cli.FirstExitIgnoresLater` | main.py:123-126 | inputs typed after an exit command do not move the point where the loop stops |
| `Cli.ExitEndsSession` | main.py:123-129 | once an exit command has been typed, nothing after it reaches `bot_response`: the buffer and the printed replies are those of the inputs before the exit, whatever follows |
| `Cli.Replay` | main.py:122-129 | `bot_response` applied to each forwarded input in turn, one reply per input; `Cli.RunCli` is proved equal to it and `Cli.ExitEndsSession` states what the exit command cuts off |
| `Cli.RunCli` | main.py:122-129 | the inputs before the first exit command are forwarded unchanged, in order, one `bot_response` each; the exit command and everything after it are never forwarded; the printed replies are those turns' replies |
| `Orchestrator.Turn` | main.py:64-119 | one `bot_response` call: the user entry appended to the buffer, then the retry loop; `Bot.Conversation.BotResponse` is proved equal to it, and `Orchestrator.UserPromptAppendedOnce`, `Orchestrator.RetriesOnlyOnPolicyViolation` and the path lemmas below state its outcomes |
| `Orchestrator.Attempts` | main.py:69-119 | the `while attempt < max_retries` loop from a given attempt on; `Orchestrator.SkipRetries` and `Orchestrator.AttemptsSettle` state how it ends |
| `Orchestrator.Classify` | main.py:71-108 | how the `try` body of one attempt ends (chat exception, plain reply, bad JSON, missing prompt, image exception, saved image); each case is stated by `Orchestrator.PlainReply`, `Orchestrator.ImageReply`, `Orchestrator.MalformedArgumentsAbort`, `Orchestrator.MissingPromptIsGenerationError` and `Orchestrator.OtherExceptionAborts` |
| `Orchestrator.IsRetry` | main.py:112 | an exception is retried when its text contains `content_policy_violation`; `Orchestrator.RetriesOnlyOnPolicyViolation` and `Orchestrator.OtherExceptionAborts` state its effect |
| `Orchestrator.Settle` | main.py:92-117 | the return at main.py:92, 100, 108 or 117 for an attempt that is not retried; `Orchestrator.TurnSettlesAt` ties it to `Orchestrator.Turn`, and the path lemmas state each case |
| `Orchestrator.FirstImageCall` | main.py:83-84 | the index of the first tool call named `generate_dalle_image`: no earlier call has that name |
| `Orchestrator.FirstImageCallIgnoresLater` | main.py:83-100 | only the first image call is acted on: appending further tool calls does not change which call is honoured |
| `Orchestrator.Trim` | main.py:105-106 | the result holds min(n, 12) entries and is the last entries of the buffer in their original order |
| `Orchestrator.FirstSettling` | main.py:69-117 | the first attempt that is not a content-policy retry: every attempt before it was retried, and it is not, or the budget is used up |
| `Orchestrator.SkipRetries` | main.py:110-115 | an attempt that meets a content-policy exception changes nothing but the counter: the loop continues as if it had started at the first attempt that is not retried |
| `Orchestrator.AttemptsSettle` | main.py:69-119 | the call's result is decided by the first attempt that is not a content-policy retry, or is the retries-exhausted result when there is none |
| `Orchestrator.TurnSettlesAt` | main.py:69-117 | when attempt j is the first that is not retried, the call's result is that attempt's outcome applied to the old buffer plus the user entry, after j + 1 requests |
| `Orchestrator.RetriesOnlyOnPolicyViolation` | main.py:69-115 | at most max(max_retries, 0) chat requests are sent; every request but the last met an exception containing `content_policy_violation` |
| `Orchestrator.ExhaustedRetries` | main.py:112-119 | when every attempt in the budget is a content-policy exception, the buffer is the old one plus the user entry, "Failed to generate response after retries." is returned, no file is saved, and max_retries requests were sent |
| `Orchestrator.OtherExceptionAborts` | main.py:110-117 | any other exception ends the call at that attempt with "An error occurred while generating the response."; no assistant entry is added and the buffer is not trimmed |
| `Orchestrator.MissingPromptIsGenerationError` | main.py:88-117 | when the first image call of the deciding attempt has decoded arguments without "prompt", the call returns "An error occurred while generating the response." (not the JSON handler's processing error); the buffer is the old one plus the user entry, no file is saved, and no further request is sent |
| `Orchestrator.MalformedArgumentsAbort` | main.py:87-92 | invalid JSON in the first image call's arguments returns "An error occurred while processing the response." at that attempt; no assistant entry is added and no further attempt is made |
| `Orchestrator.PlainReply` | main.py:102-108 | a reply without an image call appends exactly one assistant entry with the reply's content; the buffer becomes the last min(n, 12) entries of old buffer + user entry + that entry; the content is returned and no file is saved |
| `Orchestrator.ImageReply` | main.py:94-100 | a reply whose first image call yields a saved image appends exactly one "Image URL: <url>" entry and returns the same string; the file is saved under the derived name; the buffer is not trimmed |
| `Orchestrator.UserPromptAppendedOnce` | main.py:67-119 | on every path the buffer is the old buffer plus one user entry, followed by at most one assistant entry, and trimmed only in the last case |
| `Orchestrator.ImageReplyCanExceedLimit` | main.py:99-106 | any image reply (any budget, at any attempt) leaves exactly |old| + 2 entries, because the image path returns before the trim; on a buffer of 11 or more entries that is more than 12 |
| `Text.Contains` | main.py:112 | Python's `t in s` on strings, as a left-to-right scan; `Text.ContainsIffOccurs` states its meaning |
| `Text.ContainsIffOccurs` | main.py:112 | the left-to-right scan used for `'content_policy_violation' in str(e)` holds exactly when some window of the text spells the marker |
| `ImageFile.SegmentStart` | main.py:96 | the position after the last `/` (or 0): the character before it is `/` and no `/` follows |
| `ImageFile.QueryStart` | main.py:96 | the position of the first `?` at or after a start (or the end): no `?` lies between the start and it |
| `ImageFile.AfterLastSlash` | main.py:96 | `split("/")[-1]`: a suffix of the URL with no `/`, which is the whole URL or follows a `/` |
| `ImageFile.AfterLastSlashUnique` | main.py:96 | those three facts determine the last segment |
| `ImageFile.BeforeFirstQuery` | main.py:96 | `split("?")[0]`: a prefix with no `?`, which is the whole string or is followed by a `?` |
| `ImageFile.BeforeFirstQueryUnique` | main.py:96 | those three facts determine the first piece |
| `ImageFile.DecimalString` | main.py:96 | `str(n)`: one or more decimal digits, no leading zero, at most 3 digits when n < 1000 |
| `ImageFile.DecimalRoundTrip` | main.py:96 | reading the digits back gives n |
| `ImageFile.ImageFilename` | main.py:96 | the expression `image_url.split("/")[-1].split("?")[0] + str(n) + ".png"`; `ImageFile.ImageFilenameShape` states its shape |
| `ImageFile.ImageFilenameShape` | main.py:96 | the name is `url[i..j]` + decimal digits + ".png", where `url[i..j]` is the text after the URL's last `/`, cut before the first `?` after it; the name contains no `/` and no `?` |

## Left out

- The OpenAI client calls (main.py:26-37, main.py:72-78) are left out because they are remote services. The model, size, quality and tool-choice parameters of the requests are not represented. Each attempt's result is an input. The prompt sent to the image service is not recorded, because the image result is an input anyway.
- `json.loads` (main.py:88) is a foreign parser. It is an input with three outcomes. A decoded value that cannot be indexed by "prompt" (a list, a number) also raises an exception without `content_policy_violation`, so it shares `NoPrompt`.
- `requests.get` and `Image.open`/`save`/`show` (main.py:95-98) are network and file I/O. They are one input per attempt: failed with an exception text, or saved under the derived name. A failure in `show()` after the file was written is treated like a failure before the save: the model then reports no saved file.
- `np.random.randint(1000)` (main.py:96) is random. The draw is an input of type `Suffix` (0 to 999).
- The text of an exception, `str(e)`, is an input string. The one exception the code raises itself, `KeyError('prompt')`, has the fixed text `'prompt'`.
- `time.sleep`, `logging` and `print` (main.py:79, 85, 90-91, 111-115, 143) have no effect on the modelled state. `Cli.RunCli`'s `printed` holds the raw reply values (`None` included), without the "Response: " prefix or Python's string formatting of main.py:129.
- Credential loading and `exit(1)` (main.py:17-23), the gradio Blocks wiring and launch (main.py:132-135, 147-150), and the `tools` schema literal (main.py:40-58) are configuration. They are not modelled.
- Cli.RunCli: `main()` loops forever on `input()`. The model reads a finite sequence of inputs and stops at its end. The `EOFError` that `input()` raises at the end of standard input is not modelled.
- Cli.ExitSpellings: Python's `str.lower` is Unicode-aware. The model lowers only the letters A to Z.
- Concurrent calls from the UI and the CLI on the shared buffer are not modelled. Each call is atomic.
