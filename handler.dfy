/** What the bot's message handler does, as functions of the state it changes:
    the conversation logs, the trace of what it sent or created on the chat surface,
    the provider calls it launched, the image URLs it downloaded, and the platform's id
    and log-write counters. */
module Handler {
  import opened Types
  import opened Commands
  import opened Paths
  import opened ConversationLog

  datatype World = World(
    logs: Logs,
    trace: seq<Event>,
    calls: seq<Call>,
    fetched: seq<string>,   // the URLs of the images downloaded, in order
    nextId: nat,   // the id the platform issues for the next message or thread
    writes: nat)   // the number of log records written so far

  const NoImageNotice: string := "No valid image attachments found."
  const CompleteNotice: string := "Image processing complete"
  const ThreadNotice: string := "Processing your image request..."
  const InitialNotice: string :=
    "Processing your image with both OpenAI and Gemini editors. This may take a moment..."
  const MissingPromptNotice: string := "Please provide editing instructions after the !edit command."
  const ArchiveMinutes: nat := 60
  const StatusOk: nat := 200

  function FetchFailedNotice(status: nat): string {
    "Failed to fetch image: HTTP " + Decimal(status)
  }

  function Title(p: Provider): string {
    match p
    case Gemini => "Gemini"
    case OpenAI => "OpenAI"
  }

  function DoneNotice(p: Provider): string {
    Title(p) + " processing complete!"
  }

  function ErrorNotice(p: Provider, error: string): string {
    "Error with " + Title(p) + " processing: " + error
  }

  function EditingAuthor(p: Provider): string {
    match p
    case Gemini => "gemini-editing"
    case OpenAI => "openai-editing"
  }

  function ErrorAuthor(p: Provider): string {
    match p
    case Gemini => "gemini-error"
    case OpenAI => "openai-error"
  }

  /** `save_conversation(thread, author, content, id)`. */
  function Save(w: World, thread: nat, author: string, content: string, id: Option<nat>): World {
    w.(logs := Append(w.logs, thread, LogEntry(w.writes, author, content, id)), writes := w.writes + 1)
  }

  /** Sending a message or creating a thread in `channel`; what is created gets id `w.nextId`. */
  function Send(w: World, channel: nat, action: Action): World {
    w.(trace := w.trace + [Event(w.nextId, channel, action)], nextId := w.nextId + 1)
  }

  /** Starting one provider's editing task. */
  function Launch(w: World, p: Provider, prompt: string, output: string): World {
    w.(calls := w.calls + [Call(p, prompt, output)])
  }

  /** Downloading the image at `url` (`session.get(attachment.url)`). */
  function Fetch(w: World, url: string): World {
    w.(fetched := w.fetched + [url])
  }

  predicate IsImage(a: Attachment) {
    "image/" <= a.contentType
  }

  /** The position of the first image attachment, if any. */
  function FirstImage(atts: seq<Attachment>): (r: Option<nat>)
    ensures r.Some? ==> r.value < |atts| && IsImage(atts[r.value])
    ensures r.Some? ==> forall j :: 0 <= j < r.value ==> !IsImage(atts[j])
    ensures r.None? ==> forall j :: 0 <= j < |atts| ==> !IsImage(atts[j])
  {
    if atts == [] then None
    else if IsImage(atts[0]) then Some(0)
    else match FirstImage(atts[1..])
         case None => None
         case Some(k) => Some(k + 1)
  }

  /** The author of the record written for a provider's outcome. */
  function EntryAuthor(p: Provider, o: Outcome): string {
    if o.Success? then EditingAuthor(p) else ErrorAuthor(p)
  }

  /** The content of that record: the output name on success, the error text otherwise. */
  function EntryContent(o: Outcome, output: string): string {
    if o.Success? then output else o.error
  }

  /** Waiting for one provider and reporting what it came to (`try`/`except` around
      `wait_for`). A provider that returned is announced first; then the file is sent,
      or, when the call or the sending raised, an error notice. The record names the
      output file or the error, with the id of that last message. */
  function Report(w: World, channel: nat, thread: nat, p: Provider, o: Outcome, output: string): World {
    var w1 := if o.Failure? then w else Send(w, channel, Text(DoneNotice(p)));
    var w2 := Send(w1, channel, if o.Success? then File(o.path) else Text(ErrorNotice(p, o.error)));
    Save(w2, thread, EntryAuthor(p, o), EntryContent(o, output), Some(w1.nextId))
  }

  /** Both providers, once the image was fetched: the OpenAI task is started, then the
      Gemini one, each with the prompt and its output file name. */
  function EditBoth(w: World, botName: string, channel: nat, thread: nat, prompt: string, inp: Inputs): World {
    var gemini, openai := GeminiOutput(thread, inp.stamp), OpenAIOutput(thread, inp.stamp);
    AwaitBoth(Launch(Launch(w, OpenAI, prompt, openai), Gemini, prompt, gemini),
              botName, channel, thread, inp, gemini, openai)
  }

  /** Gemini is awaited and reported first, then OpenAI, whichever finished first;
      then the bot announces (and logs) that processing is complete. */
  function AwaitBoth(w: World, botName: string, channel: nat, thread: nat, inp: Inputs,
                     gemini: string, openai: string): World {
    var w1 := Report(w, channel, thread, Gemini, inp.gemini, gemini);
    var w2 := Report(w1, channel, thread, OpenAI, inp.openai, openai);
    Save(Send(w2, channel, Text(CompleteNotice)), thread, botName, CompleteNotice, Some(w2.nextId))
  }

  /** `process_image`: sends go to `channel`, records to `threadId` (the channel when absent).
      The first image attachment is downloaded; the result says whether there was one. */
  function ProcessImage(w: World, botName: string, atts: seq<Attachment>, channel: nat, prompt: string,
                        threadId: Option<nat>, inp: Inputs): (World, bool)
  {
    var thread := if threadId.Some? then threadId.value else channel;
    match FirstImage(atts)
    case None => (Send(w, channel, Text(NoImageNotice)), false)
    case Some(i) =>
      var w1 := Fetch(w, atts[i].url);
      if inp.status == StatusOk then
        (EditBoth(w1, botName, channel, thread, prompt, inp), true)
      else
        (Send(w1, channel, Text(FetchFailedNotice(inp.status))), true)
  }

  /** The six ways `on_message` can treat a message. */
  datatype Route =
    | FromBot
    | ThreadEdit(prompt: string)
    | ThreadChat
    | MissingPrompt
    | TopEdit(prompt: string)
    | TopChat

  /** `message.content.lower().startswith("!edit") and message.attachments`. */
  predicate IsEditRequest(m: Message)
    ensures IsEditRequest(m) <==> EditToken <= Lower(m.content) && m.attachments != []
  {
    EditCommandIsLowerPrefix(m.content);
    IsEditCommand(m.content) && |m.attachments| > 0
  }

  /** Which branch of `on_message` a message takes. Bot messages are dropped first;
      only edit requests carry a prompt, and a top-level one only when it is non-empty. */
  function Classify(m: Message): (r: Route)
    ensures r.FromBot? <==> m.author.isBot
    ensures (r.ThreadEdit? || r.ThreadChat?) <==> !m.author.isBot && m.channel.isThread
    ensures (r.ThreadEdit? || r.TopEdit? || r.MissingPrompt?) <==> !m.author.isBot && IsEditRequest(m)
    ensures (r.ThreadEdit? || r.TopEdit?) ==> r.prompt == ExtractPrompt(m.content)
    ensures r.TopEdit? ==> r.prompt != []
    ensures r.MissingPrompt? ==> !m.channel.isThread && ExtractPrompt(m.content) == []
  {
    if m.author.isBot then FromBot
    else if m.channel.isThread then
      if IsEditRequest(m) then ThreadEdit(ExtractPrompt(m.content)) else ThreadChat
    else if IsEditRequest(m) then
      if ExtractPrompt(m.content) == [] then MissingPrompt else TopEdit(ExtractPrompt(m.content))
    else TopChat
  }

  /** `on_message`: one branch per route. */
  function OnMessage(w: World, botName: string, m: Message, inp: Inputs): World {
    match Classify(m)
    case FromBot => w
    case ThreadEdit(prompt) => ThreadEditRequest(w, botName, m, prompt, inp)
    case ThreadChat => Save(w, m.channel.id, m.author.name, m.content, Some(m.id))
    case MissingPrompt =>
      Save(Send(w, m.channel.id, Text(MissingPromptNotice)), m.channel.id, botName, MissingPromptNotice, Some(w.nextId))
    case TopEdit(prompt) => TopLevelEditRequest(w, botName, m, prompt, inp)
    case TopChat => w
  }

  /** An edit request inside a thread: logged, acknowledged (and that logged), processed. */
  function ThreadEditRequest(w: World, botName: string, m: Message, prompt: string, inp: Inputs): World {
    var t := m.channel.id;
    ProcessImage(Acknowledge(w, botName, m), botName, m.attachments, t, prompt, Some(t), inp).0
  }

  /** The request is logged in its thread, then the bot's notice is sent there and logged. */
  function Acknowledge(w: World, botName: string, m: Message): World {
    var t := m.channel.id;
    var w1 := Save(w, t, m.author.name, m.content, Some(m.id));
    Save(Send(w1, t, Text(ThreadNotice)), t, botName, ThreadNotice, Some(w1.nextId))
  }

  /** A top-level edit request with a prompt: a thread named after the prompt is opened
      on the message (the platform issues its id), and the request is handled there. */
  function TopLevelEditRequest(w: World, botName: string, m: Message, prompt: string, inp: Inputs): World {
    var t := w.nextId;
    ProcessImage(OpenThread(w, botName, m, prompt), botName, m.attachments, t, prompt, Some(t), inp).0
  }

  /** Opening that thread: it gets id `w.nextId`; the request, then the bot's first
      notice, sent in the thread, are logged under it. */
  function OpenThread(w: World, botName: string, m: Message, prompt: string): World {
    var t := w.nextId;
    var w1 := Send(w, m.channel.id, NewThread(m.id, ThreadName(prompt), ArchiveMinutes));
    var w2 := Save(w1, t, m.author.name, m.content, Some(m.id));
    Save(Send(w2, t, Text(InitialNotice)), t, botName, InitialNotice, Some(w2.nextId))
  }
}
