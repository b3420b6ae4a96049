/** What the handler guarantees: each route's effect on the logs, the chat trace, the
    provider calls and the downloads, the fixed order of the result records, and that the state
    only ever grows. */
module HandlerProperties {
  import opened Types
  import opened Commands
  import opened Paths
  import opened ConversationLog
  import opened Handler

  /** Every sent message and thread has an id below `nextId`, and ids increase along the trace. */
  predicate Issued(w: World) {
    && (forall i :: 0 <= i < |w.trace| ==> w.trace[i].id < w.nextId)
    && (forall i, j :: 0 <= i < j < |w.trace| ==> w.trace[i].id < w.trace[j].id)
  }

  /** `after` is reachable from `before` by appending only: logs extended, trace, calls
      and downloads extended, counters not decreased, fresh ids kept fresh. */
  predicate Grows(before: World, after: World) {
    && Extends(before.logs, after.logs)
    && before.trace <= after.trace
    && before.calls <= after.calls
    && before.fetched <= after.fetched
    && before.nextId <= after.nextId
    && before.writes <= after.writes
    && (Issued(before) ==> Issued(after))
  }

  lemma GrowsTransitive(a: World, b: World, c: World)
    requires Grows(a, b) && Grows(b, c)
    ensures Grows(a, c)
  {
    ExtendsTransitive(a.logs, b.logs, c.logs);
  }

  lemma SaveGrows(w: World, thread: nat, author: string, content: string, id: Option<nat>)
    ensures Grows(w, Save(w, thread, author, content, id))
  {
    AppendExtends(w.logs, thread, LogEntry(w.writes, author, content, id));
  }

  /** A send gets an id no earlier message or thread has. */
  lemma SendGrows(w: World, channel: nat, action: Action)
    ensures Grows(w, Send(w, channel, action))
    ensures Issued(w) ==> forall e :: e in w.trace ==> e.id != w.nextId
  {
  }

  lemma FetchGrows(w: World, url: string)
    ensures Grows(w, Fetch(w, url))
  {
  }

  lemma ReportGrows(w: World, channel: nat, thread: nat, p: Provider, o: Outcome, output: string)
    ensures Grows(w, Report(w, channel, thread, p, o, output))
  {
    var w1 := if o.Failure? then w else Send(w, channel, Text(DoneNotice(p)));
    var a := if o.Success? then File(o.path) else Text(ErrorNotice(p, o.error));
    SendGrows(w, channel, Text(DoneNotice(p)));
    SendGrows(w1, channel, a);
    SaveGrows(Send(w1, channel, a), thread, EntryAuthor(p, o), EntryContent(o, output), Some(w1.nextId));
    GrowsTransitive(w, w1, Send(w1, channel, a));
    GrowsTransitive(w, Send(w1, channel, a), Report(w, channel, thread, p, o, output));
  }

  /** The number of messages reporting one outcome sends: the announcement of a
      provider that returned, then the file or the error notice. */
  function Sends(o: Outcome): nat {
    if o.Failure? then 1 else 2
  }

  /** Reporting one provider writes exactly one record, in `thread`, whose author and
      content depend only on that provider's outcome and whose message id is that of
      the last message it sent: the file on success, the error notice otherwise. A
      success or an unsendable result is announced first. */
  lemma ReportEffect(w: World, channel: nat, thread: nat, p: Provider, o: Outcome, output: string)
    ensures var r := Report(w, channel, thread, p, o, output);
      && r.nextId == w.nextId + (if o.Failure? then 1 else 2)
      && r.logs == Append(w.logs, thread, LogEntry(w.writes, EntryAuthor(p, o), EntryContent(o, output), Some(r.nextId - 1)))
      && r.writes == w.writes + 1
      && r.calls == w.calls
      && w.trace <= r.trace && |r.trace| == |w.trace| + (r.nextId - w.nextId)
      && r.trace[|r.trace| - 1] ==
           Event(r.nextId - 1, channel, if o.Success? then File(o.path) else Text(ErrorNotice(p, o.error)))
      && (!o.Failure? ==> r.trace[|w.trace|] == Event(w.nextId, channel, Text(DoneNotice(p))))
  {
  }

  /** The record `Report` writes, seen conversation by conversation. */
  lemma ReportLogs(w: World, channel: nat, thread: nat, p: Provider, o: Outcome, output: string)
    ensures var r := Report(w, channel, thread, p, o, output);
      && r.nextId == w.nextId + Sends(o) && r.writes == w.writes + 1 && r.calls == w.calls
      && (forall other :: LogOf(r.logs, other) ==
            if other == thread then
              LogOf(w.logs, thread) + [LogEntry(w.writes, EntryAuthor(p, o), EntryContent(o, output), Some(w.nextId + Sends(o) - 1))]
            else LogOf(w.logs, other))
  {
    var w1 := if o.Failure? then w else Send(w, channel, Text(DoneNotice(p)));
    var w2 := Send(w1, channel, if o.Success? then File(o.path) else Text(ErrorNotice(p, o.error)));
    assert w2.logs == w.logs && w2.nextId == w.nextId + Sends(o);
    var e := LogEntry(w.writes, EntryAuthor(p, o), EntryContent(o, output), Some(w1.nextId));
    forall other ensures LogOf(Report(w, channel, thread, p, o, output).logs, other) ==
                           if other == thread then LogOf(w.logs, thread) + [e] else LogOf(w.logs, other) {
      LogOfAppend(w.logs, thread, e, other);
    }
  }

  /** With no image attachment nothing is fetched or logged: one notice is sent and the
      result is false. */
  lemma ProcessImageWithoutImage(w: World, botName: string, atts: seq<Attachment>, channel: nat,
                                 prompt: string, threadId: Option<nat>, inp: Inputs)
    requires forall j :: 0 <= j < |atts| ==> !IsImage(atts[j])
    ensures var (r, found) := ProcessImage(w, botName, atts, channel, prompt, threadId, inp);
      && !found
      && r.logs == w.logs && r.calls == w.calls && r.fetched == w.fetched
      && r.trace == w.trace + [Event(w.nextId, channel, Text(NoImageNotice))]
  {
  }

  /** A failed download is reported with its status; no provider is called, nothing is
      logged, and the result is still true. */
  lemma ProcessImageFetchFailed(w: World, botName: string, atts: seq<Attachment>, channel: nat,
                                prompt: string, threadId: Option<nat>, inp: Inputs, j: nat)
    requires j < |atts| && IsImage(atts[j])
    requires inp.status != StatusOk
    ensures var (r, found) := ProcessImage(w, botName, atts, channel, prompt, threadId, inp);
      && found
      && r.logs == w.logs && r.calls == w.calls && |r.fetched| == |w.fetched| + 1
      && r.trace == w.trace + [Event(w.nextId, channel, Text(FetchFailedNotice(inp.status)))]
  {
  }

  /** Once the image is fetched, the conversation gains exactly three records, in this
      order whatever the outcomes: Gemini's, OpenAI's, and the bot's completion notice,
      each carrying the id of the last message sent for it. No other conversation
      changes and no provider is called. */
  lemma {:induction false} AwaitBothLogsThree(w: World, botName: string, channel: nat, thread: nat,
                                              inp: Inputs, gemini: string, openai: string)
    ensures var r := AwaitBoth(w, botName, channel, thread, inp, gemini, openai);
      var n1 := w.nextId + Sends(inp.gemini);
      var n2 := n1 + Sends(inp.openai);
      && r.nextId == n2 + 1 && r.writes == w.writes + 3 && r.calls == w.calls && r.fetched == w.fetched
      && r.trace[|r.trace| - 1] == Event(n2, channel, Text(CompleteNotice))
      && (forall other :: LogOf(r.logs, other) ==
            if other == thread then
              LogOf(w.logs, thread) +
              [LogEntry(w.writes, EntryAuthor(Gemini, inp.gemini), EntryContent(inp.gemini, gemini), Some(n1 - 1)),
               LogEntry(w.writes + 1, EntryAuthor(OpenAI, inp.openai), EntryContent(inp.openai, openai), Some(n2 - 1)),
               LogEntry(w.writes + 2, botName, CompleteNotice, Some(n2))]
            else LogOf(w.logs, other))
  {
    var w1 := Report(w, channel, thread, Gemini, inp.gemini, gemini);
    var w2 := Report(w1, channel, thread, OpenAI, inp.openai, openai);
    var w3 := Send(w2, channel, Text(CompleteNotice));
    ReportLogs(w, channel, thread, Gemini, inp.gemini, gemini);
    ReportLogs(w1, channel, thread, OpenAI, inp.openai, openai);
    var e3 := LogEntry(w.writes + 2, botName, CompleteNotice, Some(w2.nextId));
    forall other ensures LogOf(AwaitBoth(w, botName, channel, thread, inp, gemini, openai).logs, other) ==
                           if other == thread then LogOf(w2.logs, thread) + [e3] else LogOf(w2.logs, other)
    {
      LogOfAppend(w3.logs, thread, e3, other);
    }
  }

  /** Both providers are called with the prompt, the OpenAI task first, each with the
      output name `process_image` chose for it. */
  lemma EditBothCalls(w: World, botName: string, channel: nat, thread: nat, prompt: string, inp: Inputs)
    ensures var r := EditBoth(w, botName, channel, thread, prompt, inp);
      && r.calls == w.calls + [Call(OpenAI, prompt, OpenAIOutput(thread, inp.stamp)),
                               Call(Gemini, prompt, GeminiOutput(thread, inp.stamp))]
      && r.nextId == w.nextId + Sends(inp.gemini) + Sends(inp.openai) + 1
      && r.writes == w.writes + 3 && r.fetched == w.fetched
  {
    var gemini, openai := GeminiOutput(thread, inp.stamp), OpenAIOutput(thread, inp.stamp);
    var w0 := Launch(Launch(w, OpenAI, prompt, openai), Gemini, prompt, gemini);
    assert w0.calls == w.calls + [Call(OpenAI, prompt, openai), Call(Gemini, prompt, gemini)];
    AwaitBothLogsThree(w0, botName, channel, thread, inp, gemini, openai);
  }

  /** The same three records, with those output names, seen from any conversation `other`. */
  lemma EditBothLogsThree(w: World, botName: string, channel: nat, thread: nat, prompt: string, inp: Inputs,
                          other: nat)
    ensures var r := EditBoth(w, botName, channel, thread, prompt, inp);
      var gemini, openai := GeminiOutput(thread, inp.stamp), OpenAIOutput(thread, inp.stamp);
      var n1 := w.nextId + Sends(inp.gemini);
      var n2 := n1 + Sends(inp.openai);
      LogOf(r.logs, other) ==
        if other == thread then
          LogOf(w.logs, thread) +
          [LogEntry(w.writes, EntryAuthor(Gemini, inp.gemini), EntryContent(inp.gemini, gemini), Some(n1 - 1)),
           LogEntry(w.writes + 1, EntryAuthor(OpenAI, inp.openai), EntryContent(inp.openai, openai), Some(n2 - 1)),
           LogEntry(w.writes + 2, botName, CompleteNotice, Some(n2))]
        else LogOf(w.logs, other)
  {
    var gemini, openai := GeminiOutput(thread, inp.stamp), OpenAIOutput(thread, inp.stamp);
    AwaitBothLogsThree(Launch(Launch(w, OpenAI, prompt, openai), Gemini, prompt, gemini),
                       botName, channel, thread, inp, gemini, openai);
  }

  /** `process_image` downloads exactly one attachment, the first image, or none when
      there is no image attachment; the download status does not matter. */
  lemma ProcessImageFetchesFirst(w: World, botName: string, atts: seq<Attachment>, channel: nat,
                                 prompt: string, threadId: Option<nat>, inp: Inputs)
    ensures var (r, found) := ProcessImage(w, botName, atts, channel, prompt, threadId, inp);
      && (!found <==> forall j :: 0 <= j < |atts| ==> !IsImage(atts[j]))
      && (!found ==> r.fetched == w.fetched)
      && (forall j :: 0 <= j < |atts| && IsImage(atts[j]) && (forall k :: 0 <= k < j ==> !IsImage(atts[k])) ==>
            r.fetched == w.fetched + [atts[j].url])
  {
    ProcessImageFetched(w, botName, atts, channel, prompt, threadId, inp);
    forall j | 0 <= j < |atts| && IsImage(atts[j]) && (forall k :: 0 <= k < j ==> !IsImage(atts[k]))
      ensures FirstImage(atts) == Some(j)
    {
      FirstImageAt(atts, j);
    }
  }

  /** The downloads `process_image` adds, in terms of `FirstImage`. */
  lemma ProcessImageFetched(w: World, botName: string, atts: seq<Attachment>, channel: nat,
                            prompt: string, threadId: Option<nat>, inp: Inputs)
    ensures var (r, found) := ProcessImage(w, botName, atts, channel, prompt, threadId, inp);
      && found == FirstImage(atts).Some?
      && r.fetched == if found then w.fetched + [atts[FirstImage(atts).value].url] else w.fetched
  {
    if FirstImage(atts).Some? && inp.status == StatusOk {
      var i := FirstImage(atts).value;
      var thread := if threadId.Some? then threadId.value else channel;
      ProcessImageLogsThree(w, botName, atts, channel, prompt, threadId, inp, i);
      EditBothCalls(Fetch(w, atts[i].url), botName, channel, thread, prompt, inp);
    }
  }

  /** An image attachment with no image before it is the one `FirstImage` finds. */
  lemma FirstImageAt(atts: seq<Attachment>, j: nat)
    requires j < |atts| && IsImage(atts[j]) && forall k :: 0 <= k < j ==> !IsImage(atts[k])
    ensures FirstImage(atts) == Some(j)
  {
  }

  /** After a successful download of the first image attachment, `process_image` reports
      both providers and the completion as above, and returns true. */
  lemma ProcessImageLogsThree(w: World, botName: string, atts: seq<Attachment>, channel: nat,
                              prompt: string, threadId: Option<nat>, inp: Inputs, j: nat)
    requires j < |atts| && IsImage(atts[j]) && forall k :: 0 <= k < j ==> !IsImage(atts[k])
    requires inp.status == StatusOk
    ensures var (r, found) := ProcessImage(w, botName, atts, channel, prompt, threadId, inp);
      var thread := if threadId.Some? then threadId.value else channel;
      found && r == EditBoth(Fetch(w, atts[j].url), botName, channel, thread, prompt, inp)
  {
  }

  lemma {:induction false} AwaitBothGrows(w: World, botName: string, channel: nat, thread: nat, inp: Inputs,
                                          gemini: string, openai: string)
    ensures Grows(w, AwaitBoth(w, botName, channel, thread, inp, gemini, openai))
  {
    var w1 := Report(w, channel, thread, Gemini, inp.gemini, gemini);
    var w2 := Report(w1, channel, thread, OpenAI, inp.openai, openai);
    var w3 := Send(w2, channel, Text(CompleteNotice));
    ReportGrows(w, channel, thread, Gemini, inp.gemini, gemini);
    ReportGrows(w1, channel, thread, OpenAI, inp.openai, openai);
    SendGrows(w2, channel, Text(CompleteNotice));
    SaveGrows(w3, thread, botName, CompleteNotice, Some(w2.nextId));
    GrowsTransitive(w, w1, w2);
    GrowsTransitive(w, w2, w3);
    GrowsTransitive(w, w3, AwaitBoth(w, botName, channel, thread, inp, gemini, openai));
  }

  lemma {:induction false} EditBothGrows(w: World, botName: string, channel: nat, thread: nat, prompt: string, inp: Inputs)
    ensures Grows(w, EditBoth(w, botName, channel, thread, prompt, inp))
  {
    var gemini, openai := GeminiOutput(thread, inp.stamp), OpenAIOutput(thread, inp.stamp);
    var w1 := Launch(Launch(w, OpenAI, prompt, openai), Gemini, prompt, gemini);
    AwaitBothGrows(w1, botName, channel, thread, inp, gemini, openai);
    GrowsTransitive(w, w1, EditBoth(w, botName, channel, thread, prompt, inp));
  }

  lemma ProcessImageGrows(w: World, botName: string, atts: seq<Attachment>, channel: nat,
                          prompt: string, threadId: Option<nat>, inp: Inputs)
    ensures Grows(w, ProcessImage(w, botName, atts, channel, prompt, threadId, inp).0)
  {
    var thread := if threadId.Some? then threadId.value else channel;
    SendGrows(w, channel, Text(NoImageNotice));
    if FirstImage(atts).Some? {
      var w1 := Fetch(w, atts[FirstImage(atts).value].url);
      FetchGrows(w, atts[FirstImage(atts).value].url);
      EditBothGrows(w1, botName, channel, thread, prompt, inp);
      SendGrows(w1, channel, Text(FetchFailedNotice(inp.status)));
      GrowsTransitive(w, w1, ProcessImage(w, botName, atts, channel, prompt, threadId, inp).0);
    }
  }

  /** Handling a message only appends: no record, sent message or provider call is
      ever removed or changed, and every id the platform issues stays fresh. */
  lemma {:induction false} OnMessageGrows(w: World, botName: string, m: Message, inp: Inputs)
    ensures Grows(w, OnMessage(w, botName, m, inp))
  {
    var r := OnMessage(w, botName, m, inp);
    match Classify(m)
    case FromBot =>
    case ThreadEdit(prompt) =>
      var t := m.channel.id;
      var w1 := Save(w, t, m.author.name, m.content, Some(m.id));
      var w2 := Send(w1, t, Text(ThreadNotice));
      var w3 := Save(w2, t, botName, ThreadNotice, Some(w1.nextId));
      assert w3 == Acknowledge(w, botName, m);
      SaveGrows(w, t, m.author.name, m.content, Some(m.id));
      SendGrows(w1, t, Text(ThreadNotice));
      SaveGrows(w2, t, botName, ThreadNotice, Some(w1.nextId));
      ProcessImageGrows(w3, botName, m.attachments, t, prompt, Some(t), inp);
      GrowsTransitive(w, w1, w2);
      GrowsTransitive(w, w2, w3);
      GrowsTransitive(w, w3, r);
    case ThreadChat =>
      SaveGrows(w, m.channel.id, m.author.name, m.content, Some(m.id));
    case MissingPrompt =>
      var w1 := Send(w, m.channel.id, Text(MissingPromptNotice));
      SendGrows(w, m.channel.id, Text(MissingPromptNotice));
      SaveGrows(w1, m.channel.id, botName, MissingPromptNotice, Some(w.nextId));
      GrowsTransitive(w, w1, r);
    case TopEdit(prompt) =>
      var t := w.nextId;
      var w1 := Send(w, m.channel.id, NewThread(m.id, ThreadName(prompt), ArchiveMinutes));
      var w2 := Save(w1, t, m.author.name, m.content, Some(m.id));
      var w3 := Send(w2, t, Text(InitialNotice));
      var w4 := Save(w3, t, botName, InitialNotice, Some(w2.nextId));
      assert w4 == OpenThread(w, botName, m, prompt);
      SendGrows(w, m.channel.id, NewThread(m.id, ThreadName(prompt), ArchiveMinutes));
      SaveGrows(w1, t, m.author.name, m.content, Some(m.id));
      SendGrows(w2, t, Text(InitialNotice));
      SaveGrows(w3, t, botName, InitialNotice, Some(w2.nextId));
      ProcessImageGrows(w4, botName, m.attachments, t, prompt, Some(t), inp);
      GrowsTransitive(w, w1, w2);
      GrowsTransitive(w, w2, w3);
      GrowsTransitive(w, w3, w4);
      GrowsTransitive(w, w4, r);
    case TopChat =>
  }

  /** A message from a bot changes nothing and sends nothing. */
  lemma BotMessageIgnored(w: World, botName: string, m: Message, inp: Inputs)
    requires m.author.isBot
    ensures OnMessage(w, botName, m, inp) == w
  {
  }

  /** A top-level message that is not an edit request is neither logged nor answered. */
  lemma TopLevelChatIgnored(w: World, botName: string, m: Message, inp: Inputs)
    requires !m.author.isBot && !m.channel.isThread && !IsEditRequest(m)
    ensures OnMessage(w, botName, m, inp) == w
  {
  }

  /** In a thread, anything but an edit request is logged verbatim, once, in that
      thread, and nothing is sent. */
  lemma ThreadChatLogged(w: World, botName: string, m: Message, inp: Inputs)
    requires !m.author.isBot && m.channel.isThread && !IsEditRequest(m)
    ensures var r := OnMessage(w, botName, m, inp);
      && r.logs == Append(w.logs, m.channel.id, LogEntry(w.writes, m.author.name, m.content, Some(m.id)))
      && r.trace == w.trace && r.calls == w.calls
  {
  }

  /** A top-level request with nothing after the token gets one notice, logged under
      the channel itself; no thread is opened and no provider is called. */
  lemma MissingPromptAnswered(w: World, botName: string, m: Message, inp: Inputs)
    requires !m.author.isBot && !m.channel.isThread && IsEditRequest(m)
    requires ExtractPrompt(m.content) == []
    ensures var r := OnMessage(w, botName, m, inp);
      && r.trace == w.trace + [Event(w.nextId, m.channel.id, Text(MissingPromptNotice))]
      && r.logs == Append(w.logs, m.channel.id, LogEntry(w.writes, botName, MissingPromptNotice, Some(w.nextId)))
      && r.calls == w.calls
  {
  }

  /** A valid top-level request first opens a thread named after the prompt, then logs
      the request and the bot's notice in that new thread; everything the handler logs
      goes there, and every provider call it makes carries the prompt. */
  lemma {:induction false} TopLevelEditOpensThread(w: World, botName: string, m: Message, inp: Inputs)
    requires !m.author.isBot && !m.channel.isThread && IsEditRequest(m)
    requires ExtractPrompt(m.content) != []
    ensures var r := OnMessage(w, botName, m, inp);
      var t, prompt := w.nextId, ExtractPrompt(m.content);
      var before := LogOf(w.logs, t);
      && |r.trace| > |w.trace| + 1
      && r.trace[|w.trace|] == Event(t, m.channel.id, NewThread(m.id, ThreadName(prompt), ArchiveMinutes))
      && r.trace[|w.trace| + 1] == Event(t + 1, t, Text(InitialNotice))
      && |LogOf(r.logs, t)| >= |before| + 2
      && LogOf(r.logs, t)[..|before| + 2] ==
           before + [LogEntry(w.writes, m.author.name, m.content, Some(m.id)),
                     LogEntry(w.writes + 1, botName, InitialNotice, Some(t + 1))]
      && (forall other :: other != t ==> LogOf(r.logs, other) == LogOf(w.logs, other))
      && w.calls <= r.calls
      && (forall c :: c in r.calls[|w.calls|..] ==> c.prompt == prompt)
  {
    var prompt := ExtractPrompt(m.content);
    TopLevelEditRoute(w, botName, m, inp);
    TopLevelEditTrace(w, botName, m, prompt, inp);
    TopLevelEditLogs(w, botName, m, prompt, inp);
  }

  /** Opening the thread sends the thread creation and then the notice in the new thread,
      and logs exactly the request and the notice there. */
  lemma {:induction false} OpenThreadEffect(w: World, botName: string, m: Message, prompt: string)
    ensures var r, t := OpenThread(w, botName, m, prompt), w.nextId;
      && r.trace == w.trace + [Event(t, m.channel.id, NewThread(m.id, ThreadName(prompt), ArchiveMinutes)),
                               Event(t + 1, t, Text(InitialNotice))]
      && r.nextId == t + 2 && r.calls == w.calls
      && (forall other :: LogOf(r.logs, other) ==
            if other == t then LogOf(w.logs, t) + [LogEntry(w.writes, m.author.name, m.content, Some(m.id)),
                                                   LogEntry(w.writes + 1, botName, InitialNotice, Some(t + 1))]
            else LogOf(w.logs, other))
  {
    var t := w.nextId;
    var e1 := LogEntry(w.writes, m.author.name, m.content, Some(m.id));
    var e2 := LogEntry(w.writes + 1, botName, InitialNotice, Some(t + 1));
    var w1 := Send(w, m.channel.id, NewThread(m.id, ThreadName(prompt), ArchiveMinutes));
    var w3 := Send(Save(w1, t, m.author.name, m.content, Some(m.id)), t, Text(InitialNotice));
    forall other ensures LogOf(OpenThread(w, botName, m, prompt).logs, other) ==
                           if other == t then LogOf(w.logs, t) + [e1, e2] else LogOf(w.logs, other) {
      LogOfAppend(w1.logs, t, e1, other);
      LogOfAppend(w3.logs, t, e2, other);
    }
  }

  lemma {:induction false} TopLevelEditTrace(w: World, botName: string, m: Message, prompt: string, inp: Inputs)
    ensures var r := TopLevelEditRequest(w, botName, m, prompt, inp);
      var t := w.nextId;
      && |r.trace| > |w.trace| + 1
      && r.trace[|w.trace|] == Event(t, m.channel.id, NewThread(m.id, ThreadName(prompt), ArchiveMinutes))
      && r.trace[|w.trace| + 1] == Event(t + 1, t, Text(InitialNotice))
  {
    var w4 := OpenThread(w, botName, m, prompt);
    OpenThreadEffect(w, botName, m, prompt);
    ProcessImageGrows(w4, botName, m.attachments, w.nextId, prompt, Some(w.nextId), inp);
  }

  lemma {:induction false} TopLevelEditLogs(w: World, botName: string, m: Message, prompt: string, inp: Inputs)
    ensures var r := TopLevelEditRequest(w, botName, m, prompt, inp);
      var t := w.nextId;
      var before := LogOf(w.logs, t);
      && |LogOf(r.logs, t)| >= |before| + 2
      && LogOf(r.logs, t)[..|before| + 2] ==
           before + [LogEntry(w.writes, m.author.name, m.content, Some(m.id)),
                     LogEntry(w.writes + 1, botName, InitialNotice, Some(t + 1))]
      && (forall other :: other != t ==> LogOf(r.logs, other) == LogOf(w.logs, other))
      && w.calls <= r.calls
      && (forall c :: c in r.calls[|w.calls|..] ==> c.prompt == prompt)
  {
    var t := w.nextId;
    var w4 := OpenThread(w, botName, m, prompt);
    var r := ProcessImage(w4, botName, m.attachments, t, prompt, Some(t), inp).0;
    OpenThreadEffect(w, botName, m, prompt);
    ProcessImageLogsOnly(w4, botName, m.attachments, t, prompt, inp);
    ProcessImageGrows(w4, botName, m.attachments, t, prompt, Some(t), inp);
    assert LogOf(w4.logs, t) <= LogOf(r.logs, t);
  }

  /** `process_image` bound to a thread logs only there and calls providers only with its prompt. */
  lemma {:induction false} ProcessImageLogsOnly(w: World, botName: string, atts: seq<Attachment>, t: nat,
                                                prompt: string, inp: Inputs)
    ensures var r := ProcessImage(w, botName, atts, t, prompt, Some(t), inp).0;
      && (forall other :: other != t ==> LogOf(r.logs, other) == LogOf(w.logs, other))
      && w.calls <= r.calls
      && (forall c :: c in r.calls[|w.calls|..] ==> c.prompt == prompt)
  {
    if FirstImage(atts).Some? && inp.status == StatusOk {
      var j := FirstImage(atts).value;
      ProcessImageLogsThree(w, botName, atts, t, prompt, Some(t), inp, j);
      var w1 := Fetch(w, atts[j].url);
      var r := EditBoth(w1, botName, t, t, prompt, inp);
      forall other | other != t ensures LogOf(r.logs, other) == LogOf(w.logs, other) {
        EditBothLogsThree(w1, botName, t, t, prompt, inp, other);
      }
      EditBothCalls(w1, botName, t, t, prompt, inp);
      assert r.calls[|w.calls|..] == [Call(OpenAI, prompt, OpenAIOutput(t, inp.stamp)), Call(Gemini, prompt, GeminiOutput(t, inp.stamp))];
    }
  }

  /** Inside a thread there is no empty-prompt check: a bare `!edit` with an image
      still calls both providers, with the empty prompt. */
  lemma {:induction false} ThreadEditWithoutPrompt(w: World, botName: string, m: Message, inp: Inputs, j: nat)
    requires !m.author.isBot && m.channel.isThread && IsEditRequest(m)
    requires ExtractPrompt(m.content) == []
    requires j < |m.attachments| && IsImage(m.attachments[j]) && inp.status == StatusOk
    ensures var r := OnMessage(w, botName, m, inp);
      var t := m.channel.id;
      r.calls == w.calls + [Call(OpenAI, "", OpenAIOutput(t, inp.stamp)), Call(Gemini, "", GeminiOutput(t, inp.stamp))]
  {
    var t := m.channel.id;
    var w3 := Acknowledge(w, botName, m);
    ThreadEditRoute(w, botName, m, inp);
    var i := FirstImage(m.attachments).value;
    ProcessImageLogsThree(w3, botName, m.attachments, t, [], Some(t), inp, i);
    EditBothCalls(Fetch(w3, m.attachments[i].url), botName, t, t, [], inp);
  }

  /** Acknowledging sends one notice and logs exactly the request and that notice in
      the thread. */
  lemma AcknowledgeEffect(w: World, botName: string, m: Message)
    ensures var r, t := Acknowledge(w, botName, m), m.channel.id;
      && r.trace == w.trace + [Event(w.nextId, t, Text(ThreadNotice))]
      && r.nextId == w.nextId + 1 && r.writes == w.writes + 2 && r.calls == w.calls
      && (forall other :: LogOf(r.logs, other) ==
            if other == t then LogOf(w.logs, t) + [LogEntry(w.writes, m.author.name, m.content, Some(m.id)),
                                                   LogEntry(w.writes + 1, botName, ThreadNotice, Some(w.nextId))]
            else LogOf(w.logs, other))
  {
    var t := m.channel.id;
    var e1 := LogEntry(w.writes, m.author.name, m.content, Some(m.id));
    var e2 := LogEntry(w.writes + 1, botName, ThreadNotice, Some(w.nextId));
    var w2 := Send(Save(w, t, m.author.name, m.content, Some(m.id)), t, Text(ThreadNotice));
    forall other ensures LogOf(Acknowledge(w, botName, m).logs, other) ==
                           if other == t then LogOf(w.logs, t) + [e1, e2] else LogOf(w.logs, other) {
      LogOfAppend(w.logs, t, e1, other);
      LogOfAppend(w2.logs, t, e2, other);
    }
  }

  /** An edit request in a thread logs the request and the bot's notice in that thread,
      in this order, before anything the processing adds. */
  lemma {:induction false} ThreadEditLogged(w: World, botName: string, m: Message, inp: Inputs)
    requires !m.author.isBot && m.channel.isThread && IsEditRequest(m)
    ensures var r := OnMessage(w, botName, m, inp);
      var t := m.channel.id;
      var before := LogOf(w.logs, t);
      && |r.trace| > |w.trace| && r.trace[|w.trace|] == Event(w.nextId, t, Text(ThreadNotice))
      && |LogOf(r.logs, t)| >= |before| + 2
      && LogOf(r.logs, t)[..|before| + 2] ==
           before + [LogEntry(w.writes, m.author.name, m.content, Some(m.id)),
                     LogEntry(w.writes + 1, botName, ThreadNotice, Some(w.nextId))]
      && (forall other :: other != t ==> LogOf(r.logs, other) == LogOf(w.logs, other))
  {
    var t := m.channel.id;
    var w3 := Acknowledge(w, botName, m);
    var r := ProcessImage(w3, botName, m.attachments, t, ExtractPrompt(m.content), Some(t), inp).0;
    ThreadEditRoute(w, botName, m, inp);
    AcknowledgeEffect(w, botName, m);
    ProcessImageLogsOnly(w3, botName, m.attachments, t, ExtractPrompt(m.content), inp);
    ProcessImageGrows(w3, botName, m.attachments, t, ExtractPrompt(m.content), Some(t), inp);
    assert LogOf(w3.logs, t) <= LogOf(r.logs, t);
  }

  /** An edit request in a thread takes the thread route. */
  lemma ThreadEditRoute(w: World, botName: string, m: Message, inp: Inputs)
    requires !m.author.isBot && m.channel.isThread && IsEditRequest(m)
    ensures OnMessage(w, botName, m, inp) == ThreadEditRequest(w, botName, m, ExtractPrompt(m.content), inp)
  {
    assert Classify(m) == ThreadEdit(ExtractPrompt(m.content));
  }

  /** A top-level edit request with a prompt takes the new-thread route. */
  lemma TopLevelEditRoute(w: World, botName: string, m: Message, inp: Inputs)
    requires !m.author.isBot && !m.channel.isThread && IsEditRequest(m) && ExtractPrompt(m.content) != []
    ensures OnMessage(w, botName, m, inp) == TopLevelEditRequest(w, botName, m, ExtractPrompt(m.content), inp)
  {
    assert Classify(m) == TopEdit(ExtractPrompt(m.content));
  }
}
