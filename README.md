# Image-editing chat bot: message router and result logging

The bot watches a chat server. A message whose text starts with `!edit`, in any letter
case, and that carries an attachment is an edit request. Whatever follows the token,
with surrounding white space removed, is the prompt.

- At top level, a request with a prompt gets a thread of its own, named after the prompt.
  A request without a prompt gets one notice instead.
- Inside a thread, a request is handled in that thread.

The first image attachment is downloaded and handed to two image-editing services,
Gemini and OpenAI. Their results or errors are posted back. A conversation's log
(`logging/<id>/conversations.jsonl`) receives:

- every non-bot message posted inside a thread, and every edit request that opens a
  thread or is made inside one;
- the bot's "Processing …" notice for a request, and its missing-prompt notice;
- each provider's output file name or error, and the final "Image processing complete".

Not logged: chat at top level, a top-level request without a prompt (only the notice is
logged), "No valid image attachments found.", "Failed to fetch image: HTTP …", and the "Gemini processing complete!" and "OpenAI processing complete!"
notices.

The model follows `editing_bot.py`. It has these modules:

- `Types`: messages, attachments, provider outcomes, log records, and the bot's outbound
  actions.
- `Commands`: the string rules of the command.
  - Python's `str.strip()` over the code points `str.isspace` accepts.
  - The case-insensitive prefix test.
  - `content[5:]` and `prompt[:20]` with Python slice semantics.
  - The thread name.
- `Paths`: `str(n)` for ids, the per-conversation directory, and the output file names.
- `ConversationLog`: the append-only log, a map from conversation id to its records.
- `Handler`: what `process_image` and `on_message` do, as functions of a `World`. A
  `World` holds:
  - the logs;
  - the trace of messages sent and threads created, each with the id the platform issued;
  - the provider calls launched, with their prompts and output names;
  - the URLs of the images downloaded, in order;
  - the id and log-write counters.
- `HandlerProperties`: what those functions guarantee, route by route.
- `EditingBot`: the bot as a class whose methods update its fields step by step.
  - `ProcessImage` scans the attachments in a loop and returns early on the first image.
  - Each method is proved to leave exactly the state the matching `Handler` function
    describes.

Provider results, the download status and the file-name time stamp come in as `Inputs`.
A provider's wait comes to one of three outcomes:

- `Success(path)`: the file was posted.
- `Unsendable(error)`: the provider returned, "… processing complete!" was posted, and
  then posting the file raised. This happens when Gemini returns no file name.
- `Failure(error)`: the call raised, or its wait bound expired. A timeout's message is
  empty.

## Model

| member | source | states |
|---|---|---|
| ConversationLog.Append | editing_bot.py:53-67 | one write adds exactly one record at the end of conversation `id`; the log is created when absent; earlier records and every other conversation are unchanged |
| ConversationLog.LogOfAppend | editing_bot.py:53-67 | seen per conversation, an append adds the record to its own conversation and to no other |
| ConversationLog.AppendExtends | editing_bot.py:53-67 | an append never removes or rewrites a record: the old log is a prefix of the new one |
| ConversationLog.ExtendsTransitive | editing_bot.py:53-67 | "only appended to" is transitive, so any sequence of writes only appends |
| Handler.Save | editing_bot.py:53-67 | reference definition of one `save_conversation` call: `Append` of a record stamped with the write count; `HandlerProperties.SaveGrows` states that it only appends |
| EditingBot.Bot.SaveConversation | editing_bot.py:53-67 | the bot's log field becomes `Append` of the old log with the record stamped with the write count; nothing else changes |
| Paths.ThreadDir | editing_bot.py:55 | the directory is `logging/` followed by a non-empty run of digits that reads back as the id |
| Paths.ThreadDirInjective | editing_bot.py:55 | distinct conversation ids give distinct directories, so keying the log by id loses nothing |
| Paths.Decimal | editing_bot.py:55 | `str(n)` is a non-empty digit string without leading zeros |
| Paths.DecimalRoundTrip | editing_bot.py:55 | reading the digits back gives `n` |
| Paths.GeminiOutput | editing_bot.py:96 | defines the Gemini output base name `<dir>/edited_image_gemini_<stamp>`; `Paths.OutputsInThreadDir` states its properties |
| Paths.OpenAIOutput | editing_bot.py:95 | defines the OpenAI output name `<dir>/edited_image_openai_<stamp>.png`; `Paths.OutputsInThreadDir` states its properties |
| Paths.OutputsInThreadDir | editing_bot.py:95-96 | both output names lie inside the conversation's directory and differ from each other |
| Commands.IsSpace | editing_bot.py:157 | defines `str.isspace` for one code point, the set `strip()` removes; `Commands.Strip`, `Commands.StripUnique`, `Commands.LeadingSpaces` and `Commands.TrailingSpaces` state what follows from it |
| Commands.Strip | editing_bot.py:157 | `strip()` returns the middle part of `s`: only white space is removed before and after it, and it neither starts nor ends with white space |
| Commands.StripUnique | editing_bot.py:157 | any split of a string into white space, a core without white space at either end, and white space has `Strip` returning that core |
| Commands.StripIdempotent | editing_bot.py:157 | stripping a stripped string changes nothing |
| Commands.LeadingSpaces | editing_bot.py:157 | counts exactly the white-space run at the start |
| Commands.TrailingSpaces | editing_bot.py:157 | counts exactly the white-space run at the end |
| Commands.Drop | editing_bot.py:157 | `s[n:]` is empty when `s` is shorter than `n`, otherwise the suffix from `n` |
| Commands.Take | editing_bot.py:180 | `s[:n]` is a prefix of length `min(n, len(s))` |
| Commands.Lower | editing_bot.py:156 | lower-casing keeps the length and maps each character |
| Commands.EditCommandIsLowerPrefix | editing_bot.py:156 | the five-character test holds exactly when the lower-cased content starts with `!edit` (both directions) |
| Commands.IsEditCommand | editing_bot.py:156 | defines the five-character case-insensitive test; `Commands.EditCommandIsLowerPrefix` ties it to `lower().startswith("!edit")` |
| Commands.ExtractPrompt | editing_bot.py:157 | the prompt never starts or ends with white space; it is empty for content of five characters or fewer; otherwise it is the text after the token with only white space trimmed around it |
| Commands.CommandRecognised | editing_bot.py:156 | `!EdIt …` is a command; `!edi` and ` !edit x` are not |
| Commands.PromptExample | editing_bot.py:157 | `!edit make it blue` gives `make it blue` |
| Commands.PromptWithoutSpace | editing_bot.py:157 | `!editfoo` gives the prompt `foo` |
| Commands.BareTokenPrompt | editing_bot.py:157 | `!edit` gives the empty prompt |
| Commands.BlankPrompt | editing_bot.py:157 | `!edit` followed by white space only gives the empty prompt |
| Commands.ThreadName | editing_bot.py:180 | the name is `Image Edit: ` plus the prompt when it has at most 20 characters, otherwise plus its first 20 characters and `...`; so it has at most 35 characters |
| Commands.ThreadNameSame | editing_bot.py:180 | two prompts give the same thread name exactly when their first 20 characters agree and both or neither are cut |
| Handler.IsImage | editing_bot.py:79 | defines "the content type starts with `image/`"; used by `Handler.FirstImage` |
| Handler.FirstImage | editing_bot.py:78-79 | the result is the position of the first attachment whose content type starts with `image/`, or none when no attachment qualifies |
| HandlerProperties.FirstImageAt | editing_bot.py:78-79 | an image attachment with no image attachment before it is exactly the one `FirstImage` returns |
| Handler.Fetch | editing_bot.py:81-82 | defines the download step: the URL is added to the downloads; `HandlerProperties.FetchGrows` and `HandlerProperties.ProcessImageFetchesFirst` state its properties |
| EditingBot.Bot.Download | editing_bot.py:81-82 | the download appends the URL to `fetched` and changes nothing else |
| Handler.ProcessImage | editing_bot.py:70-144 | reference definition of `process_image`; its properties are the `HandlerProperties.ProcessImage…` lemmas below |
| HandlerProperties.ProcessImageFetchesFirst | editing_bot.py:78-141 | exactly one URL is downloaded, that of the first image attachment, whatever the download status; none when there is no image attachment, which is exactly when the result is false |
| HandlerProperties.ProcessImageFetched | editing_bot.py:78-82 | the result is true exactly when there is an image attachment, and then the first one's URL is the one download added |
| EditingBot.Bot.ProcessImage | editing_bot.py:70-144 | the loop over the attachments leaves exactly the state `Handler.ProcessImage` describes and returns whether an image was found |
| HandlerProperties.ProcessImageWithoutImage | editing_bot.py:143-144 | with no image attachment, one notice "No valid image attachments found." is sent, nothing is logged, no provider is called, and the result is false |
| HandlerProperties.ProcessImageFetchFailed | editing_bot.py:83-141 | when an image exists but the download status is not 200, only "Failed to fetch image: HTTP <status>" is sent, nothing is logged, no provider is called, one download is recorded, and the result is still true |
| HandlerProperties.ProcessImageLogsThree | editing_bot.py:78-141 | when the first image attachment was downloaded successfully, both providers are run and reported after that download, and the result is true |
| HandlerProperties.FetchGrows | editing_bot.py:81-82 | a download only appends to the downloads and changes nothing else that was there |
| Handler.Report | editing_bot.py:112-130 | reference definition of one provider's `try`/`except` block; `HandlerProperties.ReportEffect` and `HandlerProperties.ReportLogs` state its properties |
| HandlerProperties.ReportEffect | editing_bot.py:112-130 | awaiting one provider writes exactly one record, whose author and content depend only on that provider's outcome and whose id is that of the last message sent; a provider that returned is announced first, and the announcement is not logged |
| HandlerProperties.ReportLogs | editing_bot.py:112-130 | the same record, seen per conversation: added to the target conversation only; one or two messages are sent |
| Handler.AwaitBoth | editing_bot.py:112-135 | reference definition of the two awaits and the completion notice; `HandlerProperties.AwaitBothLogsThree` states its properties |
| HandlerProperties.AwaitBothLogsThree | editing_bot.py:112-135 | whatever the outcomes, the conversation gains exactly three records in this order: Gemini's, OpenAI's, and the bot's "Image processing complete", each with the id of the message it belongs to; other conversations and the provider calls are unchanged |
| Handler.EditBoth | editing_bot.py:95-111 | reference definition of starting both provider tasks and awaiting them; `HandlerProperties.EditBothCalls` and `HandlerProperties.EditBothLogsThree` state its properties |
| HandlerProperties.EditBothCalls | editing_bot.py:95-111 | the OpenAI task is started before the Gemini one, both with the prompt, and with the output names built from the directory and time stamp |
| HandlerProperties.EditBothLogsThree | editing_bot.py:95-135 | the three records of a successful download, with those output names, seen per conversation |
| EditingBot.Bot.Await | editing_bot.py:112-130 | one `try`/`except` block leaves exactly the state `Handler.Report` describes |
| HandlerProperties.ProcessImageLogsOnly | editing_bot.py:70-144 | `process_image` bound to a conversation logs only there and calls providers only with its prompt |
| Handler.IsEditRequest | editing_bot.py:156-170 | a message is an edit request exactly when its lower-cased content starts with `!edit` and it has an attachment |
| Handler.Classify | editing_bot.py:146-194 | bot messages, and only they, are dropped; messages in threads go to the two thread routes; exactly the edit requests go to the three edit routes, each with the prompt `content[5:].strip()`; a top-level edit goes ahead only with a non-empty prompt, otherwise it is the missing-prompt route |
| Handler.OnMessage | editing_bot.py:146-194 | reference definition of `on_message`, one branch per route of `Handler.Classify`; its properties are the `HandlerProperties` lemmas below |
| HandlerProperties.BotMessageIgnored | editing_bot.py:149-150 | a message from a bot changes no log and sends nothing |
| HandlerProperties.ThreadChatLogged | editing_bot.py:166-167 | in a thread, anything but an edit request is logged once, verbatim, with its author and id, in that thread; nothing is sent and no provider is called |
| HandlerProperties.TopLevelChatIgnored | editing_bot.py:169-170 | a top-level message that is not an edit request is neither logged nor answered |
| HandlerProperties.MissingPromptAnswered | editing_bot.py:173-176 | a top-level request with an empty prompt gets one notice, logged under the channel id; no thread is opened and no provider is called |
| HandlerProperties.TopLevelEditOpensThread | editing_bot.py:178-194 | a valid top-level request first opens a thread named after the prompt, then sends the initial notice in it; the request and that notice are its first two new records; nothing is logged elsewhere; every provider call carries the prompt |
| Handler.OpenThread | editing_bot.py:178-191 | reference definition of creating the thread and logging the request and the first notice in it; `HandlerProperties.OpenThreadEffect` states its properties |
| HandlerProperties.OpenThreadEffect | editing_bot.py:179-191 | opening the thread sends exactly the thread creation and the notice, and logs exactly the request and the notice in the new thread |
| Handler.TopLevelEditRequest | editing_bot.py:178-194 | defines the top-level edit branch: `Handler.OpenThread`, then `Handler.ProcessImage` bound to the new thread; `HandlerProperties.TopLevelEditTrace` and `HandlerProperties.TopLevelEditLogs` state its properties |
| HandlerProperties.TopLevelEditRoute | editing_bot.py:169-194 | a non-bot top-level edit request with a non-empty prompt takes exactly the new-thread branch, with that prompt |
| HandlerProperties.TopLevelEditTrace | editing_bot.py:179-190 | the thread creation and the initial notice are the first two things sent |
| HandlerProperties.TopLevelEditLogs | editing_bot.py:186-194 | the request and the initial notice head the new thread's log; other logs are unchanged; calls carry the prompt |
| Handler.ThreadEditRequest | editing_bot.py:156-165 | defines the thread edit branch: `Handler.Acknowledge`, then `Handler.ProcessImage` bound to the thread; `HandlerProperties.ThreadEditLogged` and `HandlerProperties.ThreadEditWithoutPrompt` state its properties |
| HandlerProperties.ThreadEditRoute | editing_bot.py:146-165 | a non-bot edit request in a thread takes exactly the thread edit branch, with the prompt `content[5:].strip()` |
| HandlerProperties.ThreadEditLogged | editing_bot.py:156-165 | an edit request in a thread logs the request, then the bot's notice, in that thread before anything else; the notice is the first thing sent; other conversations are unchanged |
| Handler.Acknowledge | editing_bot.py:159-162 | reference definition of logging a thread request and acknowledging it; `HandlerProperties.AcknowledgeEffect` states its properties |
| HandlerProperties.AcknowledgeEffect | editing_bot.py:160-162 | the request and the notice are logged in this order, and the notice is the only message sent |
| HandlerProperties.ThreadEditWithoutPrompt | editing_bot.py:156-165 | in a thread there is no empty-prompt check: a bare `!edit` with an image still calls both providers, with the empty prompt |
| Handler.Send | editing_bot.py:114-182 | defines `channel.send(...)` and `message.create_thread(...)`: one event on the trace with the next platform id; `HandlerProperties.SendGrows` states that this id is fresh and that a send only appends |
| HandlerProperties.SendGrows | editing_bot.py:161 | a sent message gets an id no earlier message or thread has |
| HandlerProperties.OnMessageGrows | editing_bot.py:146-194 | handling any message only appends: no record, sent message or provider call is removed or changed, and issued ids stay fresh |
| EditingBot.Bot.OnMessage | editing_bot.py:146-194 | the handler leaves exactly the state `Handler.OnMessage` describes, and that state only grew |
| EditingBot.Bot.ThreadEditRequest | editing_bot.py:156-165 | the thread edit branch leaves exactly the state `Handler.ThreadEditRequest` describes |
| EditingBot.Bot.TopLevelEditRequest | editing_bot.py:178-194 | the top-level edit branch leaves exactly the state `Handler.TopLevelEditRequest` describes |
| EditingBot.Bot.Post | editing_bot.py:161 | a send appends one event with the next id and returns that id |
| Handler.Launch | editing_bot.py:99-111 | defines `asyncio.create_task(...)` for one provider: one call with its prompt and output name; `HandlerProperties.EditBothCalls` states the two calls `process_image` launches, in order |
| EditingBot.Bot.StartTask | editing_bot.py:99-111 | starting a provider task appends one call and changes nothing else |

## Left out

- The two provider tasks run side by side, but `process_image` awaits Gemini first
  (60 s bound) and then OpenAI (300 s bound). So the records always come Gemini, then
  OpenAI, then the completion notice, whichever task finishes first
  (`HandlerProperties.AwaitBothLogsThree`).
- Each call of `on_message` runs to completion in one step of the model. In the program
  every handler is an async task suspended at each `await`, so the records and messages
  of two handlers running at once may interleave in the same log. The "exactly three
  records, in order" and "before anything else" results hold for one handler's own
  records only.
- Concurrency, `create_task`, `run_in_executor` and the `wait_for` bounds are not
  modelled. Each provider comes in as its resolved `Outcome`, and a timeout is a
  `Failure` with an empty message.
- gemini_editor.py and oai_gpt.py are not part of this model. Their results are the
  `Outcome` inputs. The extension that the Gemini editor adds to its output name is
  therefore not modelled.
- The image download, its bytes, PIL decoding, and writing the original image to disk are
  not modelled; the download is reduced to its URL (recorded in `fetched`) and its status.
- An `aiohttp` error raised by `session.get` (editing_bot.py:81-82) is outside both `try`
  blocks. It ends the handler with no notice; that path is not modelled. A decoding or disk failure raises
  out of `process_image`, and that path is not modelled.
- `os.makedirs` and the file system are abstracted into the log map. Every send and log
  write is assumed to go through, except posting a provider's file (the `Unsendable`
  outcome). Inside the two provider `try` blocks (editing_bot.py:112-130) a failure is
  caught by `except Exception`:
  - a send that raises at :114 or :125 sends the error notice and writes a `-error`
    record, which is exactly the `Failure` outcome;
  - a log write that fails at :116 or :127, after the file was posted, gives the file
    message, then an error notice, then a `-error` record. No `Outcome` produces that
    sequence, so it is not modelled.
- A send or log write that raises outside those blocks (editing_bot.py:119-120, 129-130,
  134-135, 138, 143 and 160-191) ends the handler; that path is not modelled.
- `datetime.now()` is replaced by the count of earlier log writes. The file-name time
  stamp is an input string.
- JSON encoding is replaced by the `LogEntry` record.
- A message id issued by the platform is modelled as a fresh number from a counter. The
  thread created for a top-level request gets the next such id. The platform's rule that
  a thread started from a message shares that message's id is not modelled.
- An attachment whose content type is missing makes the source raise `AttributeError`.
  The model gives every attachment a content-type string.
- Commands.Lower: models `str.lower()` on ASCII letters only, not the full Unicode
  mapping. The only other code point whose lower case starts with `e`, `d`, `i` or `t`
  is U+0130, which becomes `i` plus U+0307. U+0307 then stands where `t` is required,
  so the command test is unaffected.
- `on_ready`, the `ping` command, `client.run`, and the earlier `save_conversation`
  definition that the second one shadows are not part of this model.
- The `Handler` functions are the reference definitions of `process_image` and
  `on_message`. The class methods are tied to them by equality of the whole state.
