/** The values the editing bot handles: inbound chat messages, provider outcomes,
    conversation log records and the bot's outbound actions. */
module Types {

  datatype Option<T> = None | Some(value: T)

  /** A file attached to a chat message. */
  datatype Attachment = Attachment(url: string, contentType: string)

  datatype Author = Author(name: string, isBot: bool)

  /** The channel a message was posted in: a thread, or a top-level channel. */
  datatype Channel = Channel(id: nat, isThread: bool)

  /** An inbound chat message. */
  datatype Message = Message(
    id: nat,
    author: Author,
    content: string,
    attachments: seq<Attachment>,
    channel: Channel)

  /** The two image-editing services. */
  datatype Provider = Gemini | OpenAI

  /** What waiting for one provider comes to, as the handler sees it. */
  datatype Outcome =
      /** the call returned `path` and the file was sent to the channel */
    | Success(path: string)
      /** the call returned, but sending what it returned raised `error`
          (Gemini returns no file name when its reply holds no image) */
    | Unsendable(error: string)
      /** the call raised `error`, or its wait bound expired (then `error` is "") */
    | Failure(error: string)

  /** One line of a conversation's log file. `timestamp` is the number of log
      writes made before this one: the wall-clock value is not modelled. */
  datatype LogEntry = LogEntry(timestamp: nat, author: string, content: string, messageId: Option<nat>)

  /** What the bot does on the chat surface. */
  datatype Action =
    | Text(text: string)
    | File(path: string)
    | NewThread(fromMessage: nat, name: string, autoArchiveMinutes: nat)

  /** An action in a channel, with the id the platform issued for what it created. */
  datatype Event = Event(id: nat, channel: nat, action: Action)

  /** A provider call the handler launched: the prompt and the output file name it was given. */
  datatype Call = Call(provider: Provider, prompt: string, output: string)

  /** What the outside world answers while an image is processed: the HTTP status of the
      image download, the time stamp used in file names, and both providers' outcomes. */
  datatype Inputs = Inputs(status: nat, stamp: string, gemini: Outcome, openai: Outcome)
}
