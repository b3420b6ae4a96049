/** The bot as the program runs it: an object whose log, chat trace, task list and downloads its
    handlers update step by step. Each handler is proved to leave exactly the state the
    corresponding function of `Handler` describes, and to only ever append. */
module EditingBot {
  import opened Types
  import opened Commands
  import opened ConversationLog
  import opened Paths
  import opened Handler
  import HandlerProperties

  class Bot {
    /** `client.user.name`, the author of the bot's own log records. */
    const name: string
    var logs: Logs
    var trace: seq<Event>
    var calls: seq<Call>
    var fetched: seq<string>
    var nextId: nat
    var writes: nat

    function State(): World
      reads this
    {
      World(logs, trace, calls, fetched, nextId, writes)
    }

    /** A bot that has logged and sent nothing; the platform's next id is `firstId`. */
    constructor (name: string, firstId: nat)
      ensures this.name == name
      ensures State() == World(map[], [], [], [], firstId, 0)
      ensures HandlerProperties.Issued(State())
    {
      this.name := name;
      logs, trace, calls, fetched := map[], [], [], [];
      nextId, writes := firstId, 0;
    }

    /** `save_conversation`: the conversation's log is created if absent, and one
        record is appended to it. */
    method SaveConversation(threadId: nat, author: string, content: string, messageId: Option<nat>)
      modifies this
      ensures logs == Append(old(logs), threadId, LogEntry(old(writes), author, content, messageId))
      ensures writes == old(writes) + 1
      ensures trace == old(trace) && calls == old(calls) && nextId == old(nextId) && fetched == old(fetched)
      ensures State() == Save(old(State()), threadId, author, content, messageId)
    {
      var log := if threadId in logs then logs[threadId] else [];
      logs := logs[threadId := log + [LogEntry(writes, author, content, messageId)]];
      writes := writes + 1;
    }

    /** `channel.send(...)` and `message.create_thread(...)`: the action goes on the
        trace with a fresh id, which is returned. */
    method Post(channel: nat, action: Action) returns (id: nat)
      modifies this
      ensures id == old(nextId)
      ensures trace == old(trace) + [Event(id, channel, action)] && nextId == id + 1
      ensures logs == old(logs) && calls == old(calls) && writes == old(writes) && fetched == old(fetched)
      ensures State() == Send(old(State()), channel, action)
    {
      id := nextId;
      trace := trace + [Event(id, channel, action)];
      nextId := nextId + 1;
    }

    /** `session.get(url)`: the download is recorded. */
    method Download(url: string)
      modifies this
      ensures fetched == old(fetched) + [url]
      ensures logs == old(logs) && trace == old(trace) && calls == old(calls)
      ensures nextId == old(nextId) && writes == old(writes)
      ensures State() == Fetch(old(State()), url)
    {
      fetched := fetched + [url];
    }

    /** `asyncio.create_task(...)` for one provider. */
    method StartTask(p: Provider, prompt: string, output: string)
      modifies this
      ensures calls == old(calls) + [Call(p, prompt, output)]
      ensures logs == old(logs) && trace == old(trace) && nextId == old(nextId) && writes == old(writes)
      ensures fetched == old(fetched)
      ensures State() == Launch(old(State()), p, prompt, output)
    {
      calls := calls + [Call(p, prompt, output)];
    }

    /** One `try: wait_for(...) ... except` block. */
    method Await(channel: nat, thread: nat, p: Provider, o: Outcome, output: string)
      modifies this
      ensures State() == Report(old(State()), channel, thread, p, o, output)
    {
      if o.Failure? {
        var errorMsg := Post(channel, Text(ErrorNotice(p, o.error)));
        SaveConversation(thread, ErrorAuthor(p), o.error, Some(errorMsg));
      } else {
        var _ := Post(channel, Text(DoneNotice(p)));
        if o.Success? {
          var fileMsg := Post(channel, File(o.path));
          SaveConversation(thread, EditingAuthor(p), output, Some(fileMsg));
        } else {
          var errorMsg := Post(channel, Text(ErrorNotice(p, o.error)));
          SaveConversation(thread, ErrorAuthor(p), o.error, Some(errorMsg));
        }
      }
    }

    /** `process_image`: looks for the first image attachment; on finding one, fetches
        it and, when the download succeeded, runs both providers and reports them. */
    method ProcessImage(atts: seq<Attachment>, channel: nat, prompt: string, threadId: Option<nat>, inp: Inputs)
      returns (found: bool)
      modifies this
      ensures (State(), found) == Handler.ProcessImage(old(State()), name, atts, channel, prompt, threadId, inp)
    {
      var thread := if threadId.None? then channel else threadId.value;
      var i := 0;
      while i < |atts|
        invariant i <= |atts|
        invariant forall j :: 0 <= j < i ==> !IsImage(atts[j])
        invariant State() == old(State())
      {
        if IsImage(atts[i]) {
          assert FirstImage(atts) == Some(i);
          Download(atts[i].url);
          if inp.status == StatusOk {
            var gemini, openai := GeminiOutput(thread, inp.stamp), OpenAIOutput(thread, inp.stamp);
            StartTask(OpenAI, prompt, openai);
            StartTask(Gemini, prompt, gemini);
            ghost var launched := State();
            Await(channel, thread, Gemini, inp.gemini, gemini);
            Await(channel, thread, OpenAI, inp.openai, openai);
            var completeMsg := Post(channel, Text(CompleteNotice));
            SaveConversation(thread, name, CompleteNotice, Some(completeMsg));
            assert State() == AwaitBoth(launched, name, channel, thread, inp, gemini, openai);
          } else {
            var _ := Post(channel, Text(FetchFailedNotice(inp.status)));
          }
          return true;
        }
        i := i + 1;
      }
      var _ := Post(channel, Text(NoImageNotice));
      return false;
    }

    /** The thread branch of `on_message` for an edit request with an attachment. */
    method ThreadEditRequest(m: Message, prompt: string, inp: Inputs)
      modifies this
      ensures State() == Handler.ThreadEditRequest(old(State()), name, m, prompt, inp)
    {
      var t := m.channel.id;
      SaveConversation(t, m.author.name, m.content, Some(m.id));
      var processingMsg := Post(t, Text(ThreadNotice));
      SaveConversation(t, name, ThreadNotice, Some(processingMsg));
      var _ := ProcessImage(m.attachments, t, prompt, Some(t), inp);
    }

    /** The top-level branch of `on_message` for an edit request with a prompt. */
    method TopLevelEditRequest(m: Message, prompt: string, inp: Inputs)
      modifies this
      ensures State() == Handler.TopLevelEditRequest(old(State()), name, m, prompt, inp)
    {
      var t := Post(m.channel.id, NewThread(m.id, ThreadName(prompt), ArchiveMinutes));
      SaveConversation(t, m.author.name, m.content, Some(m.id));
      var initialMsg := Post(t, Text(InitialNotice));
      SaveConversation(t, name, InitialNotice, Some(initialMsg));
      var _ := ProcessImage(m.attachments, t, prompt, Some(t), inp);
    }

    /** `on_message`. */
    method OnMessage(m: Message, inp: Inputs)
      modifies this
      ensures State() == Handler.OnMessage(old(State()), name, m, inp)
      ensures HandlerProperties.Grows(old(State()), State())
    {
      HandlerProperties.OnMessageGrows(State(), name, m, inp);
      if m.author.isBot {
        return;
      }
      if m.channel.isThread {
        if IsEditCommand(m.content) && |m.attachments| > 0 {
          var prompt := ExtractPrompt(m.content);
          HandlerProperties.ThreadEditRoute(State(), name, m, inp);
          ThreadEditRequest(m, prompt, inp);
        } else {
          SaveConversation(m.channel.id, m.author.name, m.content, Some(m.id));
        }
      } else if IsEditCommand(m.content) && |m.attachments| > 0 {
        var prompt := ExtractPrompt(m.content);
        if prompt == [] {
          var responseMsg := Post(m.channel.id, Text(MissingPromptNotice));
          SaveConversation(m.channel.id, name, MissingPromptNotice, Some(responseMsg));
          return;
        }
        HandlerProperties.TopLevelEditRoute(State(), name, m, inp);
        TopLevelEditRequest(m, prompt, inp);
      }
    }
  }
}
