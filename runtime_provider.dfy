/** The runtime adapter between the chat UI and the agent controller: it folds the streamed
    deltas of a run into an ongoing message, appends the finished message to the current
    thread, and turns the UI's new / edit / reload requests into thread updates and agent
    runs. */
module RuntimeProvider {
  import opened Wrappers
  import opened Seqs
  import opened Ailoy
  import opened ThreadStore
  import opened AgentProvider

  /** The foreign operations the adapter calls, as total functions over the UI message type
      `U`: the `ailoy-web` delta operations and image decoder, and the UI message converters. */
  datatype Collaborators<!U> = Collaborators(
    accumulateMessageDelta: (MessageDelta, MessageDelta) -> MessageDelta,
    finishMessageDelta: MessageDelta -> Message,
    imageFromBytes: seq<bv8> -> Part,
    convertMessage: Message -> U,
    convertMessageDelta: MessageDelta -> U,
    restoreMessages: seq<U> -> seq<Message>)

  // ---------------------------------------------------------------------------------------
  // Streaming

  /** The accumulation of a non-empty run of deltas as the handler builds it: the first delta
      as it is, each later one merged into what came before. */
  function Fold(merge: (MessageDelta, MessageDelta) -> MessageDelta, ds: seq<MessageDelta>): MessageDelta
    requires |ds| > 0
    decreases |ds|
  {
    if |ds| == 1 then ds[0] else merge(Fold(merge, ds[..|ds| - 1]), ds[|ds| - 1])
  }

  /** The accumulator slot after the deltas `ds` of the current run: empty (`null`) before the
      first one. */
  function Accumulated(merge: (MessageDelta, MessageDelta) -> MessageDelta, ds: seq<MessageDelta>): Option<MessageDelta> {
    if ds == [] then None else Some(Fold(merge, ds))
  }

  /** A left-to-right fold from a seed, the independent reference for `Fold`. */
  function FoldLeft(merge: (MessageDelta, MessageDelta) -> MessageDelta, seed: MessageDelta, ds: seq<MessageDelta>): MessageDelta
    decreases |ds|
  {
    if ds == [] then seed else FoldLeft(merge, merge(seed, ds[0]), ds[1..])
  }

  lemma {:induction false} FoldLeftSnoc(merge: (MessageDelta, MessageDelta) -> MessageDelta, seed: MessageDelta,
                                        ds: seq<MessageDelta>, d: MessageDelta)
    ensures FoldLeft(merge, seed, ds + [d]) == merge(FoldLeft(merge, seed, ds), d)
    decreases |ds|
  {
    if ds == [] {
      assert (ds + [d])[1..] == [];
    } else {
      assert (ds + [d])[0] == ds[0];
      assert (ds + [d])[1..] == ds[1..] + [d];
      FoldLeftSnoc(merge, merge(seed, ds[0]), ds[1..], d);
    }
  }

  /** The accumulation is `accumulateMessageDelta` applied in arrival order, starting from the
      first delta taken as-is. */
  lemma {:induction false} FoldInArrivalOrder(merge: (MessageDelta, MessageDelta) -> MessageDelta, ds: seq<MessageDelta>)
    requires |ds| > 0
    ensures Fold(merge, ds) == FoldLeft(merge, ds[0], ds[1..])
    decreases |ds|
  {
    if |ds| > 1 {
      var init, last := ds[..|ds| - 1], ds[|ds| - 1];
      FoldInArrivalOrder(merge, init);
      FoldLeftSnoc(merge, init[0], init[1..], last);
      assert init[1..] + [last] == ds[1..];
    }
  }

  /** One more delta: the slot takes it as-is when empty and merges it otherwise. */
  lemma AccumulatedSnoc(merge: (MessageDelta, MessageDelta) -> MessageDelta, ds: seq<MessageDelta>, d: MessageDelta)
    ensures Accumulated(merge, ds + [d]) == Some(if ds == [] then d else merge(Accumulated(merge, ds).value, d))
  {
    assert (ds + [d])[..|ds|] == ds;
  }

  // ---------------------------------------------------------------------------------------
  // Converting the composer's message

  /** The parts of a message the composer hands over. Only the text kind is distinguished. */
  datatype ContentPart = TextContent(text: string) | OtherContent(kind: string)

  datatype AttachmentType = ImageAttachment | DocumentAttachment | FileAttachment

  /** An attachment and its file, which may be missing. */
  datatype Attachment = Attachment(kind: AttachmentType, file: Option<seq<bv8>>)

  /** The composer's message. `parentId` is the parsed id of the message it follows, if any. */
  datatype AppendMessage = AppendMessage(content: seq<ContentPart>, attachments: seq<Attachment>, parentId: Option<nat>)

  /** The errors the adapter's handlers raise. */
  datatype RuntimeError =
    | AgentNotInitialized    // "Agent is not initialized yet"
    | OnlyTextSupported      // "Only text messages are supported"
    | MissingAttachmentFile  // an image attachment whose file is absent

  predicate IsImage(a: Attachment) {
    a.kind == ImageAttachment
  }

  predicate LacksFile(a: Attachment) {
    a.kind == ImageAttachment && a.file.None?
  }

  /** The parts one attachment contributes: one decoded image for an image with a file,
      nothing otherwise. */
  function ImagePartsOf(img: seq<bv8> -> Part): Attachment -> seq<Part> {
    (a: Attachment) => if a.kind == ImageAttachment && a.file.Some? then [img(a.file.value)] else []
  }

  predicate IsTextMessage(content: seq<ContentPart>) {
    |content| > 0 && content[0].TextContent?
  }

  /** What `convertAppendMessage` produces: a missing image file fails first (the attachment
      loop comes first), then a message whose first part is not text; otherwise a user message
      with the image parts followed by the text part. */
  function ConvertedAppendMessage(img: seq<bv8> -> Part, m: AppendMessage): (r: Result<Message, RuntimeError>)
    ensures r.Success? ==> IsTextMessage(m.content) && r.value.role == User
  {
    if exists i :: 0 <= i < |m.attachments| && LacksFile(m.attachments[i]) then Failure(MissingAttachmentFile)
    else if !IsTextMessage(m.content) then Failure(OnlyTextSupported)
    else Success(Message(User, FlatMap(m.attachments, ImagePartsOf(img)) + [TextPart(m.content[0].text)]))
  }

  /** `convertAppendMessage`: collects the image parts in attachment order, then the text. */
  method ConvertAppendMessage(img: seq<bv8> -> Part, message: AppendMessage) returns (r: Result<Message, RuntimeError>)
    ensures r == ConvertedAppendMessage(img, message)
  {
    var contents: seq<Part> := [];
    var atts := message.attachments;
    var i := 0;
    while i < |atts|
      invariant 0 <= i <= |atts|
      invariant forall k :: 0 <= k < i ==> !LacksFile(atts[k])
      invariant contents == FlatMap(atts[..i], ImagePartsOf(img))
    {
      var attach := atts[i];
      if attach.kind == ImageAttachment {
        if attach.file.None? {
          return Failure(MissingAttachmentFile);
        }
        contents := contents + [img(attach.file.value)];
      }
      assert atts[..i + 1] == atts[..i] + [attach];
      FlatMapSnoc(atts[..i], attach, ImagePartsOf(img));
      i := i + 1;
    }
    assert atts[..i] == atts;
    if |message.content| == 0 || !message.content[0].TextContent? {
      return Failure(OnlyTextSupported);
    }
    contents := contents + [TextPart(message.content[0].text)];
    return Success(Message(User, contents));
  }

  /** Elements whose image is empty contribute nothing, so FlatMap may skip them. */
  lemma {:induction false} FlatMapSkips<T, V>(s: seq<T>, f: T -> seq<V>, p: T -> bool)
    requires forall i :: 0 <= i < |s| && !p(s[i]) ==> f(s[i]) == []
    ensures FlatMap(s, f) == FlatMap(Filter(s, p), f)
  {
    if s != [] {
      FlatMapSkips(s[1..], f, p);
      if p(s[0]) {
        assert Filter(s, p) == [s[0]] + Filter(s[1..], p);
        assert Filter(s, p)[1..] == Filter(s[1..], p);
      } else {
        assert Filter(s, p) == Filter(s[1..], p);
        assert FlatMap(s, f) == [] + FlatMap(s[1..], f);
      }
    }
  }

  /** Conversion succeeds iff no image attachment lacks its file and the first content part is
      text. Then the message is a user message of one image part per image attachment, in
      attachment order (the other attachments are dropped), followed by exactly one text part
      holding the first content part's text. */
  lemma ConvertedAppendMessageSpec(img: seq<bv8> -> Part, m: AppendMessage)
    ensures var r := ConvertedAppendMessage(img, m);
      r.Success? <==> (forall i :: 0 <= i < |m.attachments| ==> !LacksFile(m.attachments[i])) && IsTextMessage(m.content)
    ensures var r := ConvertedAppendMessage(img, m);
      r.Success? ==>
        var parts := r.value.contents;
        && r.value.role == User
        && |parts| == Count(m.attachments, IsImage) + 1
        && parts[|parts| - 1] == TextPart(m.content[0].text)
        && parts[..|parts| - 1] == FlatMap(Filter(m.attachments, IsImage), ImagePartsOf(img))
  {
    var r := ConvertedAppendMessage(img, m);
    if r.Success? {
      var f := ImagePartsOf(img);
      FlatMapLength(m.attachments, f, IsImage);
      FlatMapSkips(m.attachments, f, IsImage);
      var parts := r.value.contents;
      assert parts[..|parts| - 1] == FlatMap(m.attachments, f);
    }
  }

  // ---------------------------------------------------------------------------------------
  // Thread edits

  /** The title a thread gets from its first message: the first 30 characters of its text. */
  function TitleOf(m: AppendMessage): (t: string)
    requires IsTextMessage(m.content)
    ensures |t| == Min(30, |m.content[0].text|)
    ensures t == m.content[0].text[..|t|]
  {
    Take(m.content[0].text, 30)
  }

  /** The thread after an edit: the messages before position `parentId` (0 if absent), then
      the edited message. */
  function EditedThread<U>(messages: seq<U>, parentId: Option<nat>, edited: U): (r: seq<U>)
    ensures |r| == Min(parentId.GetOr(0), |messages|) + 1
    ensures r[..|r| - 1] == messages[..|r| - 1]
    ensures r[|r| - 1] == edited
  {
    Take(messages, parentId.GetOr(0)) + [edited]
  }

  /** The thread after a reload: the messages up to and including position `parentId`
      (0 if absent). */
  function ReloadedThread<U>(messages: seq<U>, parentId: Option<nat>): (r: seq<U>)
    ensures |r| == Min(parentId.GetOr(0) + 1, |messages|)
    ensures r == messages[..|r|]
  {
    Take(messages, parentId.GetOr(0) + 1)
  }

  /** An edit leaves a single message, and so renames the thread, exactly when it edits the
      first message or the thread was empty. */
  lemma EditRenamesIff<U>(messages: seq<U>, parentId: Option<nat>, edited: U)
    ensures |EditedThread(messages, parentId, edited)| == 1 <==> parentId.GetOr(0) == 0 || messages == []
  {
  }

  /** The adapter's view: the runtime flags and the rendered messages. */
  datatype RuntimeView<U> = RuntimeView(isDisabled: bool, isRunning: bool, messages: seq<U>)

  class RuntimeAdapter<U> {
    const agent: AgentController
    const ext: Collaborators<U>
    const currentThreadId: string
    var threads: Store<U>
    /** The handler's accumulator (`let accumulated`). */
    var accumulated: Option<MessageDelta>
    /** The ongoing-message slot the view renders. */
    var ongoingMessage: Option<MessageDelta>
    var isAnswering: bool
    /** The deltas received since the last finishing delta. */
    ghost var pending: seq<MessageDelta>

    /** The current thread exists, and both slots hold the fold of the pending deltas. */
    ghost predicate Valid()
      reads this
    {
      && currentThreadId in threads
      && ongoingMessage == accumulated
      && accumulated == Accumulated(ext.accumulateMessageDelta, pending)
    }

    function Messages(): seq<U>
      reads this
      requires currentThreadId in threads
    {
      threads[currentThreadId].messages
    }

    constructor (agent: AgentController, ext: Collaborators<U>, threadId: string, threads: Store<U>)
      requires threadId in threads
      ensures Valid()
      ensures this.agent == agent && this.currentThreadId == threadId && this.threads == threads
      ensures ongoingMessage.None? && !isAnswering && pending == []
    {
      this.agent, this.ext, this.currentThreadId, this.threads := agent, ext, threadId, threads;
      accumulated, ongoingMessage, isAnswering := None, None, false;
      pending := [];
    }

    /** `accumulateAgentStreamDelta`: folds the delta into the slots; on a delta with a finish
        reason the finished message is appended to the thread once and both slots empty. */
    method OnStreamDelta(output: MessageDeltaOutput)
      requires Valid()
      modifies this
      ensures Valid()
      ensures isAnswering == old(isAnswering)
      ensures var ds := old(pending) + [output.delta];
        var whole := Fold(ext.accumulateMessageDelta, ds);
        if output.finishReason.None? then
          && pending == ds && ongoingMessage == Some(whole) && threads == old(threads)
        else
          && pending == [] && ongoingMessage == None
          && threads == Append(old(threads), currentThreadId, ext.convertMessage(ext.finishMessageDelta(whole)))
    {
      AccumulatedSnoc(ext.accumulateMessageDelta, pending, output.delta);
      var acc := if accumulated.None? then output.delta else ext.accumulateMessageDelta(accumulated.value, output.delta);
      accumulated := Some(acc);
      pending := pending + [output.delta];
      ongoingMessage := Some(acc);
      if output.finishReason.Some? {
        var newMessage := ext.finishMessageDelta(acc);
        threads := Append(threads, currentThreadId, ext.convertMessage(newMessage));
        ongoingMessage := None;
        accumulated := None;
        pending := [];
      }
    }

    /** `onAgentStreamFinished`: the only place the answering flag is cleared. */
    method OnStreamFinished()
      requires Valid()
      modifies this
      ensures Valid()
      ensures !isAnswering
      ensures threads == old(threads) && ongoingMessage == old(ongoingMessage) && pending == old(pending)
    {
      isAnswering := false;
    }

    /** `onNew`: fails before the agent is initialised or when the message does not convert.
        Otherwise the thread grows by the converted message at the tail, is titled iff it was
        empty, and the run gets the restored history followed by the new message. */
    method OnNew(message: AppendMessage) returns (r: Outcome<RuntimeError>)
      requires Valid()
      modifies this, agent
      ensures Valid()
      ensures var prior := old(threads[currentThreadId]);
        var conv := ConvertedAppendMessage(ext.imageFromBytes, message);
        if !old(agent.agentInitialized) then
          r == Fail(AgentNotInitialized) && unchanged(this) && agent.State() == old(agent.State())
        else if conv.Failure? then
          r == Fail(conv.error) && unchanged(this) && agent.State() == old(agent.State())
        else
          && r == Pass
          && threads == old(threads)[currentThreadId := Thread(
               if prior.messages == [] then TitleOf(message) else prior.title,
               prior.messages + [ext.convertMessage(conv.value)])]
          && isAnswering
          && ongoingMessage == old(ongoingMessage) && pending == old(pending)
          && agent.State() == AfterRun(old(agent.State()), ext.restoreMessages(prior.messages) + [conv.value])
    {
      if !agent.agentInitialized {
        return Fail(AgentNotInitialized);
      }
      var converted := ConvertAppendMessage(ext.imageFromBytes, message);
      if converted.Failure? {
        return Fail(converted.error);
      }
      var newMessage := converted.value;
      var prior := Messages();
      ghost var before := threads[currentThreadId];
      threads := Append(threads, currentThreadId, ext.convertMessage(newMessage));
      if |prior| == 0 {
        threads := Rename(threads, currentThreadId, TitleOf(message));
      }
      assert threads == old(threads)[currentThreadId := Thread(
        if prior == [] then TitleOf(message) else before.title, prior + [ext.convertMessage(newMessage)])];
      agent.RunAgent(ext.restoreMessages(prior) + [newMessage]);
      isAnswering := true;
      return Pass;
    }

    /** `onEdit`: nothing before the agent is initialised. Otherwise the thread becomes its
        first `parentId` messages and the edited message, is titled iff that leaves one
        message, and the run gets exactly the restored new thread. */
    method OnEdit(message: AppendMessage) returns (r: Outcome<RuntimeError>)
      requires Valid()
      modifies this, agent
      ensures Valid()
      ensures var prior := old(threads[currentThreadId]);
        var conv := ConvertedAppendMessage(ext.imageFromBytes, message);
        if !old(agent.agentInitialized) then
          r == Pass && unchanged(this) && agent.State() == old(agent.State())
        else if conv.Failure? then
          r == Fail(conv.error) && unchanged(this) && agent.State() == old(agent.State())
        else
          var edited := EditedThread(prior.messages, message.parentId, ext.convertMessage(conv.value));
          && r == Pass
          && threads == old(threads)[currentThreadId := Thread(
               if |edited| == 1 then TitleOf(message) else prior.title, edited)]
          && isAnswering
          && ongoingMessage == old(ongoingMessage) && pending == old(pending)
          && agent.State() == AfterRun(old(agent.State()), ext.restoreMessages(edited))
    {
      if !agent.agentInitialized {
        return Pass;
      }
      var parentIdNum := message.parentId.GetOr(0);
      var sliced := Take(Messages(), parentIdNum);
      var converted := ConvertAppendMessage(ext.imageFromBytes, message);
      if converted.Failure? {
        return Fail(converted.error);
      }
      var messages := sliced + [ext.convertMessage(converted.value)];
      ghost var before := threads[currentThreadId];
      threads := SetMessages(threads, currentThreadId, messages);
      if |messages| == 1 {
        threads := Rename(threads, currentThreadId, TitleOf(message));
      }
      assert threads == old(threads)[currentThreadId := Thread(
        if |messages| == 1 then TitleOf(message) else before.title, messages)];
      agent.RunAgent(ext.restoreMessages(messages));
      isAnswering := true;
      return Pass;
    }

    /** `onReload`: nothing before the agent is initialised. Otherwise the thread is cut after
        position `parentId` (0 if absent) and the run gets exactly that prefix, restored. */
    method OnReload(parentId: Option<nat>)
      requires Valid()
      modifies this, agent
      ensures Valid()
      ensures var prior := old(threads[currentThreadId]);
        if !old(agent.agentInitialized) then
          unchanged(this) && agent.State() == old(agent.State())
        else
          var sliced := ReloadedThread(prior.messages, parentId);
          && threads == old(threads)[currentThreadId := Thread(prior.title, sliced)]
          && isAnswering
          && ongoingMessage == old(ongoingMessage) && pending == old(pending)
          && agent.State() == AfterRun(old(agent.State()), ext.restoreMessages(sliced))
    {
      if !agent.agentInitialized {
        return;
      }
      var parentIdNum := parentId.GetOr(0);
      var sliced := Take(Messages(), parentIdNum + 1);
      threads := SetMessages(threads, currentThreadId, sliced);
      agent.RunAgent(ext.restoreMessages(sliced));
      isAnswering := true;
    }

    /** The runtime's inputs: disabled iff the agent is not initialised, running iff an answer
        is under way, and the thread's messages followed by the converted ongoing message iff
        the slot is filled. */
    function View(): (v: RuntimeView<U>)
      reads this, agent
      requires currentThreadId in threads
      ensures v.isDisabled == !agent.agentInitialized
      ensures v.isRunning == isAnswering
      ensures |v.messages| == |Messages()| + (if ongoingMessage.Some? then 1 else 0)
      ensures v.messages[..|Messages()|] == Messages()
      ensures ongoingMessage.Some? ==> v.messages[|Messages()|] == ext.convertMessageDelta(ongoingMessage.value)
    {
      var messages := Messages();
      var rendered := if ongoingMessage.Some? then messages + [ext.convertMessageDelta(ongoingMessage.value)] else messages;
      RuntimeView(!agent.agentInitialized, isAnswering, rendered)
    }
  }
}
