/** The agent controller of `components/ailoy-agent-provider.tsx`: the state the provider keeps
    (partly persisted in local storage), the messages it exchanges with the background agent
    worker, and the handlers and effects that update that state. The worker is modelled by an
    outbox: every `postMessage` appends one `Command` to `outbox`. */
module AgentProvider {
  import opened Wrappers
  import opened Seqs
  import opened Ailoy

  // ---------------------------------------------------------------------------------------
  // Configuration values

  datatype ApiSpec = OpenAI | Gemini | Claude | Grok

  /** The selected language model: one run in the browser, or one reached through an API. */
  datatype LMConfig =
    | LocalLM(modelName: string)
    | ApiLM(spec: ApiSpec, modelName: string)

  /** One optional key per API provider. */
  datatype ApiKeys = ApiKeys(openAI: Option<string>, gemini: Option<string>, claude: Option<string>, grok: Option<string>) {

    function Get(spec: ApiSpec): Option<string> {
      match spec
      case OpenAI => openAI
      case Gemini => gemini
      case Claude => claude
      case Grok => grok
    }

    /** `{ ...keys, [spec]: key }`: the key of `spec` replaced, every other provider's kept. */
    function With(spec: ApiSpec, key: Option<string>): (r: ApiKeys)
      ensures r.Get(spec) == key
      ensures forall other :: other != spec ==> r.Get(other) == Get(other)
    {
      match spec
      case OpenAI => this.(openAI := key)
      case Gemini => this.(gemini := key)
      case Claude => this.(claude := key)
      case Grok => this.(grok := key)
    }
  }

  const EmptyApiKeys := ApiKeys(None, None, None, None)

  datatype BuiltinTool = BuiltinTool(id: string, name: string, description: string, icon: string)

  datatype McpServer = McpServer(url: string)

  datatype ServerStatus = Initializing | Initialized

  /** The two WebGPU adapter limits the models page compares against. */
  datatype GpuLimits = GpuLimits(maxBufferSize: nat, maxStorageBufferBindingSize: nat)

  // ---------------------------------------------------------------------------------------
  // Messages exchanged with the agent worker

  datatype BuiltinToolConfig = BaseUrl(baseUrl: string) | ProxyUrl(proxyUrl: string)

  /** Messages posted to the worker. */
  datatype Command =
    | InitializeLocalAgent(config: LMConfig)
    | InitializeApiAgent(config: LMConfig, apiKey: string)
    | ClearTools
    | AddBuiltinTool(name: string, toolConfig: BuiltinToolConfig)
    | AddMcpServer(url: string)
    | RemoveMcpServer(url: string)
    | AddMcpTool(url: string, name: string)
    | RemoveTool(name: string)
    | RunAgent(messages: seq<Message>, agentRunConfig: AgentConfig)

  /** Messages the worker sends back. */
  datatype Event =
    | WorkerReady
    | LangmodelInitProgress(progress: CacheProgress)
    | AgentReady
    | AgentStreamDelta(output: MessageDeltaOutput)
    | AgentStreamFinished
    | McpServerRegistered(url: string, tools: seq<ToolDesc>)
    | WorkerError(error: string)

  /** What the message handler re-dispatches on the process-wide event targets. */
  datatype Dispatch =
    | NoDispatch
    | StreamDelta(output: MessageDeltaOutput)
    | StreamFinished
    | ServerRegistered(url: string, tools: seq<ToolDesc>)

  const WebSearchToolId := "web_search_duckduckgo"
  const WebFetchToolId := "web_fetch"
  const WebSearchProxyUrl := "https://web-example-proxy.ailoy.co/web-search-duckduckgo"
  const WebFetchProxyUrl := "https://web-example-proxy.ailoy.co/web-fetch"

  // ---------------------------------------------------------------------------------------
  // The controller's state as one value

  datatype AgentState = AgentState(
    isWebGPUSupported: bool,
    webgpuLimits: Option<GpuLimits>,
    downloadedModels: seq<string>,
    selectedModel: Option<LMConfig>,
    apiKeys: ApiKeys,
    selectedBuiltinTools: seq<BuiltinTool>,
    mcpServers: seq<McpServer>,
    mcpServersStatus: map<string, ServerStatus>,
    mcpTools: map<string, seq<ToolDesc>>,
    selectedMcpTools: map<string, seq<string>>,
    agentRunConfig: AgentConfig,
    systemPrompt: string,
    agentInitialized: bool,
    isModelLoading: bool,
    modelLoadingProgress: Option<CacheProgress>,
    agentWorkerReady: bool,
    outbox: seq<Command>)

  /** The values read from local storage when the provider mounts (or their defaults). */
  datatype Stored = Stored(
    downloadedModels: seq<string>,
    selectedModel: Option<LMConfig>,
    apiKeys: ApiKeys,
    selectedBuiltinTools: seq<BuiltinTool>,
    mcpServers: seq<McpServer>,
    mcpTools: map<string, seq<ToolDesc>>,
    selectedMcpTools: map<string, seq<string>>,
    agentRunConfig: AgentConfig,
    systemPrompt: string)

  const DefaultStored := Stored([], None, EmptyApiKeys, [], [], map[], map[], EmptyAgentConfig, "")

  // ---------------------------------------------------------------------------------------
  // Worker events

  /** The state after the message handler has processed one worker event. */
  function AfterEvent(st: AgentState, msg: Event): AgentState
  {
    match msg
    case WorkerReady => st.(agentWorkerReady := true)
    case LangmodelInitProgress(progress) => st.(modelLoadingProgress := Some(progress))
    case AgentReady => st.(modelLoadingProgress := None, isModelLoading := false, agentInitialized := true)
    case AgentStreamDelta(_) => st
    case AgentStreamFinished => st
    case McpServerRegistered(url, tools) =>
      st.(mcpTools := st.mcpTools[url := tools], mcpServersStatus := st.mcpServersStatus[url := Initialized])
    case WorkerError(_) => st
  }

  /** What each worker event changes: the outbox never, the readiness flags on the two ready
      events, the progress on progress reports; the stream events and errors change nothing. */
  lemma AfterEventSpec(st: AgentState, msg: Event)
    ensures AfterEvent(st, msg).outbox == st.outbox
    ensures msg.WorkerReady? ==> AfterEvent(st, msg) == st.(agentWorkerReady := true)
    ensures msg.LangmodelInitProgress? ==> AfterEvent(st, msg) == st.(modelLoadingProgress := Some(msg.progress))
    ensures msg.AgentReady? ==>
      var r := AfterEvent(st, msg);
      && r.agentInitialized && !r.isModelLoading && r.modelLoadingProgress == None
      && r.(agentInitialized := st.agentInitialized, isModelLoading := st.isModelLoading,
            modelLoadingProgress := st.modelLoadingProgress) == st
    ensures msg.AgentStreamDelta? || msg.AgentStreamFinished? || msg.WorkerError? ==> AfterEvent(st, msg) == st
  {
  }

  /** A registered server gets its tool list and the initialized status; every other URL's
      entries and every other field stay as they were. */
  lemma AfterServerRegistered(st: AgentState, url: string, tools: seq<ToolDesc>)
    ensures var r := AfterEvent(st, McpServerRegistered(url, tools));
      && r.mcpTools.Keys == st.mcpTools.Keys + {url}
      && r.mcpTools[url] == tools
      && (forall u :: u in st.mcpTools && u != url ==> r.mcpTools[u] == st.mcpTools[u])
      && r.mcpServersStatus.Keys == st.mcpServersStatus.Keys + {url}
      && r.mcpServersStatus[url] == Initialized
      && (forall u :: u in st.mcpServersStatus && u != url ==> r.mcpServersStatus[u] == st.mcpServersStatus[u])
      && r.(mcpTools := st.mcpTools, mcpServersStatus := st.mcpServersStatus) == st
  {
  }

  /** The event the message handler re-dispatches for one worker event. */
  function DispatchOf(msg: Event): Dispatch {
    match msg
    case AgentStreamDelta(output) => StreamDelta(output)
    case AgentStreamFinished => StreamFinished
    case McpServerRegistered(url, tools) => ServerRegistered(url, tools)
    case WorkerReady => NoDispatch
    case LangmodelInitProgress(_) => NoDispatch
    case AgentReady => NoDispatch
    case WorkerError(_) => NoDispatch
  }

  /** Exactly the stream events and server registrations are re-dispatched, with their
      payloads; the other events dispatch nothing. */
  lemma DispatchOfSpec(msg: Event)
    ensures DispatchOf(msg).StreamDelta? <==> msg.AgentStreamDelta?
    ensures DispatchOf(msg).StreamFinished? <==> msg.AgentStreamFinished?
    ensures DispatchOf(msg).ServerRegistered? <==> msg.McpServerRegistered?
    ensures DispatchOf(msg).NoDispatch? <==> msg.WorkerReady? || msg.LangmodelInitProgress? || msg.AgentReady? || msg.WorkerError?
    ensures msg.AgentStreamDelta? ==> DispatchOf(msg).output == msg.output
    ensures msg.McpServerRegistered? ==> DispatchOf(msg).url == msg.url && DispatchOf(msg).tools == msg.tools
  {
  }

  // ---------------------------------------------------------------------------------------
  // Provisioning

  /** The initialisation message provisioning posts, or None when one of its early returns
      applies: the worker is not ready, no model is selected, a local model is selected without
      WebGPU, or an API model is selected whose provider has no key. */
  function ProvisionCommand(workerReady: bool, webGPUSupported: bool, selected: Option<LMConfig>, keys: ApiKeys): (r: Option<Command>)
    ensures r.Some? <==>
      && workerReady
      && selected.Some?
      && (selected.value.LocalLM? ==> webGPUSupported)
      && (selected.value.ApiLM? ==> keys.Get(selected.value.spec).Some?)
    ensures r.Some? && selected.value.LocalLM? ==> r.value == InitializeLocalAgent(selected.value)
    ensures r.Some? && selected.value.ApiLM? ==>
      r.value == InitializeApiAgent(selected.value, keys.Get(selected.value.spec).value)
  {
    if !workerReady then None
    else match selected
      case None => None
      case Some(config) =>
        match config
        case LocalLM(_) => if webGPUSupported then Some(InitializeLocalAgent(config)) else None
        case ApiLM(spec, _) =>
          match keys.Get(spec)
          case None => None
          case Some(key) => Some(InitializeApiAgent(config, key))
  }

  // ---------------------------------------------------------------------------------------
  // Built-in tool replay

  predicate IsKnownBuiltin(tool: BuiltinTool) {
    tool.id == WebSearchToolId || tool.id == WebFetchToolId
  }

  /** What the replay loop posts for one selected built-in tool. */
  function BuiltinToolCommand(tool: BuiltinTool): seq<Command> {
    if tool.id == WebSearchToolId then [AddBuiltinTool(tool.id, BaseUrl(WebSearchProxyUrl))]
    else if tool.id == WebFetchToolId then [AddBuiltinTool(tool.id, ProxyUrl(WebFetchProxyUrl))]
    else []
  }

  /** What the replay loop posts after `clear-tools` for a selection of built-in tools. */
  function BuiltinToolCommands(tools: seq<BuiltinTool>): seq<Command> {
    FlatMap(tools, BuiltinToolCommand)
  }

  /** The replay posts one `add-builtin-tool` per known selected tool, each carrying that tool's
      fixed proxy URL, and nothing for any other id. */
  lemma BuiltinToolCommandsSpec(tools: seq<BuiltinTool>)
    ensures |BuiltinToolCommands(tools)| == Count(tools, IsKnownBuiltin)
    ensures forall c :: c in BuiltinToolCommands(tools) ==>
      c == AddBuiltinTool(WebSearchToolId, BaseUrl(WebSearchProxyUrl)) ||
      c == AddBuiltinTool(WebFetchToolId, ProxyUrl(WebFetchProxyUrl))
    ensures forall i :: 0 <= i < |tools| && tools[i].id == WebSearchToolId ==>
      AddBuiltinTool(WebSearchToolId, BaseUrl(WebSearchProxyUrl)) in BuiltinToolCommands(tools)
    ensures forall i :: 0 <= i < |tools| && tools[i].id == WebFetchToolId ==>
      AddBuiltinTool(WebFetchToolId, ProxyUrl(WebFetchProxyUrl)) in BuiltinToolCommands(tools)
  {
    FlatMapLength(tools, BuiltinToolCommand, IsKnownBuiltin);
    forall c | c in BuiltinToolCommands(tools)
      ensures c == AddBuiltinTool(WebSearchToolId, BaseUrl(WebSearchProxyUrl)) ||
              c == AddBuiltinTool(WebFetchToolId, ProxyUrl(WebFetchProxyUrl))
    {
      FlatMapMember(tools, BuiltinToolCommand, c);
    }
    forall i | 0 <= i < |tools| && IsKnownBuiltin(tools[i])
      ensures BuiltinToolCommand(tools[i])[0] in BuiltinToolCommands(tools)
    {
      FlatMapMember(tools, BuiltinToolCommand, BuiltinToolCommand(tools[i])[0]);
    }
  }

  /** The replay follows selection order: the commands for `a + b` are those for `a`, then
      those for `b`. */
  lemma BuiltinToolCommandsInOrder(a: seq<BuiltinTool>, b: seq<BuiltinTool>)
    ensures BuiltinToolCommands(a + b) == BuiltinToolCommands(a) + BuiltinToolCommands(b)
  {
    FlatMapConcat(a, b, BuiltinToolCommand);
  }

  // ---------------------------------------------------------------------------------------
  // MCP server initialisation

  /** The URLs the MCP initialisation loop posts `add-mcp-server` for: servers without a status
      entry, in list order, each marked before the loop goes on (so a repeated URL is posted
      once). */
  function NewServerUrls(servers: seq<McpServer>, status: map<string, ServerStatus>): seq<string>
    decreases |servers|
  {
    if servers == [] then []
    else if servers[0].url in status then NewServerUrls(servers[1..], status)
    else [servers[0].url] + NewServerUrls(servers[1..], status[servers[0].url := Initializing])
  }

  predicate Lists(servers: seq<McpServer>, url: string) {
    exists i :: 0 <= i < |servers| && servers[i].url == url
  }

  /** The status map after marking `urls` as initializing. */
  function MarkInitializing(status: map<string, ServerStatus>, urls: seq<string>): map<string, ServerStatus>
    decreases |urls|
  {
    if urls == [] then status
    else MarkInitializing(status, urls[..|urls| - 1])[urls[|urls| - 1] := Initializing]
  }

  /** Marking adds exactly the marked URLs, sets them to initializing and keeps every other
      entry. */
  lemma {:induction false} MarkInitializingSpec(status: map<string, ServerStatus>, urls: seq<string>)
    ensures MarkInitializing(status, urls).Keys == status.Keys + set u | u in urls
    ensures forall u :: u in urls ==>
      u in MarkInitializing(status, urls) && MarkInitializing(status, urls)[u] == Initializing
    ensures forall u :: u in status && u !in urls ==>
      u in MarkInitializing(status, urls) && MarkInitializing(status, urls)[u] == status[u]
    decreases |urls|
  {
    if urls != [] {
      var init, last := urls[..|urls| - 1], urls[|urls| - 1];
      MarkInitializingSpec(status, init);
      assert urls == init + [last];
      forall u ensures u in urls <==> u in init || u == last {
      }
    }
  }

  function AddServerCommand(url: string): seq<Command> {
    [AddMcpServer(url)]
  }

  /** The loop of the MCP server effect, on values: walks the listed servers in order, posting
      `add-mcp-server` for each URL that has no status yet and marking it initializing at once,
      so a URL listed twice is posted once. */
  method ServerRegistrations(servers: seq<McpServer>, status0: map<string, ServerStatus>)
    returns (posts: seq<Command>, status: map<string, ServerStatus>)
    ensures posts == FlatMap(NewServerUrls(servers, status0), AddServerCommand)
    ensures status == MarkInitializing(status0, NewServerUrls(servers, status0))
  {
    status := status0;
    posts := [];
    ghost var posted: seq<string> := [];
    var i := 0;
    while i < |servers|
      invariant 0 <= i <= |servers|
      invariant posted + NewServerUrls(servers[i..], status) == NewServerUrls(servers, status0)
      invariant status == MarkInitializing(status0, posted)
      invariant posts == FlatMap(posted, AddServerCommand)
    {
      var url := servers[i].url;
      NewServerUrlsAt(servers, i, status);
      if url !in status {
        RegistrationStep(status0, posted, url, NewServerUrls(servers[i + 1..], status[url := Initializing]));
        posts := posts + [AddMcpServer(url)];
        posted := posted + [url];
        status := status[url := Initializing];
      }
      i := i + 1;
    }
    assert servers[i..] == [];
    assert NewServerUrls(servers[i..], status) == [];
    assert posted + [] == posted;
  }

  /** The loop invariant carried over a posted URL. */
  lemma RegistrationStep(status0: map<string, ServerStatus>, posted: seq<string>, url: string, rest: seq<string>)
    ensures posted + ([url] + rest) == (posted + [url]) + rest
    ensures FlatMap(posted + [url], AddServerCommand) == FlatMap(posted, AddServerCommand) + [AddMcpServer(url)]
    ensures MarkInitializing(status0, posted + [url]) == MarkInitializing(status0, posted)[url := Initializing]
  {
    FlatMapSnoc(posted, url, AddServerCommand);
    MarkInitializingSnoc(status0, posted, url);
  }

  lemma MarkInitializingSnoc(status: map<string, ServerStatus>, urls: seq<string>, url: string)
    ensures MarkInitializing(status, urls + [url]) == MarkInitializing(status, urls)[url := Initializing]
  {
    assert (urls + [url])[..|urls|] == urls;
  }

  /** Marking a URL first and then a list is marking the list with that URL in front. */
  lemma {:induction false} MarkInitializingCons(status: map<string, ServerStatus>, url: string, urls: seq<string>)
    ensures MarkInitializing(status[url := Initializing], urls) == MarkInitializing(status, [url] + urls)
    decreases |urls|
  {
    if urls == [] {
      assert [url] + urls == [] + [url];
      MarkInitializingSnoc(status, [], url);
    } else {
      var init, last := urls[..|urls| - 1], urls[|urls| - 1];
      MarkInitializingCons(status, url, init);
      assert [url] + urls == ([url] + init) + [last];
      MarkInitializingSnoc(status, [url] + init, last);
    }
  }

  /** The loop works through the list in order: on a list split in two, it posts the URLs of
      the first part, then those of the second part that the first part did not mark. */
  lemma {:induction false} NewServerUrlsConcat(a: seq<McpServer>, b: seq<McpServer>, status: map<string, ServerStatus>)
    ensures NewServerUrls(a + b, status) ==
      NewServerUrls(a, status) + NewServerUrls(b, MarkInitializing(status, NewServerUrls(a, status)))
    decreases |a|
  {
    if a == [] {
      assert a + b == b;
    } else {
      var u := a[0].url;
      assert (a + b)[0] == a[0];
      assert (a + b)[1..] == a[1..] + b;
      if u in status {
        NewServerUrlsConcat(a[1..], b, status);
      } else {
        var st := status[u := Initializing];
        NewServerUrlsConcat(a[1..], b, st);
        MarkInitializingCons(status, u, NewServerUrls(a[1..], st));
      }
    }
  }

  /** One step of the MCP server loop: the server at `i` is posted iff it has no status. */
  lemma NewServerUrlsAt(servers: seq<McpServer>, i: nat, status: map<string, ServerStatus>)
    requires i < |servers|
    ensures var url := servers[i].url;
      NewServerUrls(servers[i..], status) ==
        if url in status then NewServerUrls(servers[i + 1..], status)
        else [url] + NewServerUrls(servers[i + 1..], status[url := Initializing])
  {
    assert servers[i..][0] == servers[i];
    assert servers[i..][1..] == servers[i + 1..];
  }

  /** The loop posts exactly for the listed URLs that have no status entry, each once. */
  lemma {:induction false} NewServerUrlsSpec(servers: seq<McpServer>, status: map<string, ServerStatus>)
    ensures forall u :: u in NewServerUrls(servers, status) <==> u !in status && Lists(servers, u)
    ensures Distinct(NewServerUrls(servers, status))
    decreases |servers|
  {
    if servers != [] {
      var u0 := servers[0].url;
      var rest := servers[1..];
      var st := if u0 in status then status else status[u0 := Initializing];
      NewServerUrlsSpec(rest, st);
      forall u
        ensures u in NewServerUrls(servers, status) <==> u !in status && Lists(servers, u)
      {
        if Lists(rest, u) {
          var i :| 0 <= i < |rest| && rest[i].url == u;
          assert servers[i + 1].url == u;
        }
        if Lists(servers, u) && u != u0 {
          var i :| 0 <= i < |servers| && servers[i].url == u;
          assert rest[i - 1].url == u;
        }
        assert servers[0].url == u0;
      }
      if u0 !in status {
        var r := NewServerUrls(servers, status);
        assert r == [u0] + NewServerUrls(rest, st);
        forall i, j | 0 <= i < j < |r| ensures r[i] != r[j] {
          if i == 0 {
            assert r[j] in NewServerUrls(rest, st);
          } else {
            assert r[i] == NewServerUrls(rest, st)[i - 1] && r[j] == NewServerUrls(rest, st)[j - 1];
          }
        }
      }
    }
  }

  /** Once every listed URL has a status entry, the loop posts nothing. */
  lemma {:induction false} NewServerUrlsIdle(servers: seq<McpServer>, status: map<string, ServerStatus>)
    requires forall i :: 0 <= i < |servers| ==> servers[i].url in status
    ensures NewServerUrls(servers, status) == []
    decreases |servers|
  {
    if servers != [] {
      NewServerUrlsIdle(servers[1..], status);
    }
  }

  /** Running the MCP initialisation a second time with the status it left posts nothing. */
  lemma NewServerUrlsRerun(servers: seq<McpServer>, status: map<string, ServerStatus>)
    ensures NewServerUrls(servers, MarkInitializing(status, NewServerUrls(servers, status))) == []
  {
    var posted := NewServerUrls(servers, status);
    NewServerUrlsSpec(servers, status);
    MarkInitializingSpec(status, posted);
    forall i | 0 <= i < |servers|
      ensures servers[i].url in MarkInitializing(status, posted)
    {
      assert Lists(servers, servers[i].url);
    }
    NewServerUrlsIdle(servers, MarkInitializing(status, posted));
  }

  /** `addMCPServer` posts `add-mcp-server` but does not record a status for the URL, so the MCP
      initialisation loop that runs on the changed server list posts it a second time. */
  lemma AddedServerPostedAgain(servers: seq<McpServer>, status: map<string, ServerStatus>, url: string)
    requires url !in status
    ensures url in NewServerUrls(servers + [McpServer(url)], status)
  {
    var s := servers + [McpServer(url)];
    assert s[|servers|].url == url;
    assert Lists(s, url);
    NewServerUrlsSpec(s, status);
  }

  // ---------------------------------------------------------------------------------------
  // MCP tool replay and bookkeeping

  /** The tools selected for `url`, `selectedMCPTools[url] ?? []`. */
  function SelectedFor(selected: map<string, seq<string>>, url: string): seq<string> {
    if url in selected then selected[url] else []
  }

  function AddToolCommandFor(url: string): string -> seq<Command> {
    (name: string) => [AddMcpTool(url, name)]
  }

  /** What the inner replay loop posts for one server. */
  function ServerToolCommandsFor(selected: map<string, seq<string>>): McpServer -> seq<Command> {
    (server: McpServer) => FlatMap(SelectedFor(selected, server.url), AddToolCommandFor(server.url))
  }

  /** What the two nested replay loops post: per server in list order, its selected tools in
      selection order. */
  function McpToolCommands(servers: seq<McpServer>, selected: map<string, seq<string>>): seq<Command> {
    FlatMap(servers, ServerToolCommandsFor(selected))
  }

  /** The two nested loops of the MCP tool effect, on values. */
  method McpToolPosts(servers: seq<McpServer>, selected: map<string, seq<string>>) returns (posts: seq<Command>)
    ensures posts == McpToolCommands(servers, selected)
  {
    var f := ServerToolCommandsFor(selected);
    posts := [];
    var i := 0;
    while i < |servers|
      invariant 0 <= i <= |servers|
      invariant posts == FlatMap(servers[..i], f)
    {
      var server := servers[i];
      var names := SelectedFor(selected, server.url);
      var g := AddToolCommandFor(server.url);
      ghost var before := posts;
      var j := 0;
      while j < |names|
        invariant 0 <= j <= |names|
        invariant posts == before + FlatMap(names[..j], g)
      {
        posts := posts + [Command.AddMcpTool(server.url, names[j])];
        assert names[..j + 1] == names[..j] + [names[j]];
        FlatMapSnoc(names[..j], names[j], g);
        j := j + 1;
      }
      assert names[..j] == names;
      assert servers[..i + 1] == servers[..i] + [server];
      FlatMapSnoc(servers[..i], server, f);
      i := i + 1;
    }
    assert servers[..i] == servers;
  }

  /** The replay posts `add-mcp-tool(url, name)` exactly when `url` is a listed server and `name`
      is among its selected tools, and posts nothing else. */
  lemma McpToolCommandsSpec(servers: seq<McpServer>, selected: map<string, seq<string>>, c: Command)
    ensures c in McpToolCommands(servers, selected) <==>
      c.AddMcpTool? && Lists(servers, c.url) && c.url in selected && c.name in selected[c.url]
  {
    var f := ServerToolCommandsFor(selected);
    FlatMapMember(servers, f, c);
    if c in McpToolCommands(servers, selected) {
      var i :| 0 <= i < |servers| && c in f(servers[i]);
      var url := servers[i].url;
      FlatMapMember(SelectedFor(selected, url), AddToolCommandFor(url), c);
      var j :| 0 <= j < |SelectedFor(selected, url)| && c in AddToolCommandFor(url)(SelectedFor(selected, url)[j]);
      assert c == AddMcpTool(url, SelectedFor(selected, url)[j]);
    }
    if c.AddMcpTool? && Lists(servers, c.url) && c.url in selected && c.name in selected[c.url] {
      var i :| 0 <= i < |servers| && servers[i].url == c.url;
      var names := SelectedFor(selected, c.url);
      var j :| 0 <= j < |names| && names[j] == c.name;
      assert c in AddToolCommandFor(c.url)(names[j]);
      FlatMapMember(names, AddToolCommandFor(c.url), c);
      assert c in f(servers[i]);
    }
  }

  /** The filter `removeMCPServer` keeps the list with. */
  function OtherServer(url: string): McpServer -> bool {
    (s: McpServer) => s.url != url
  }

  /** After `removeMCPServer(url)` the replay posts no tool of that server, whatever selection
      remains stored for it. */
  lemma RemovedServerNotReplayed(servers: seq<McpServer>, selected: map<string, seq<string>>, url: string, c: Command)
    requires c in McpToolCommands(Filter(servers, OtherServer(url)), selected)
    ensures c.AddMcpTool? && c.url != url
  {
    var kept := Filter(servers, OtherServer(url));
    McpToolCommandsSpec(kept, selected, c);
    var i :| 0 <= i < |kept| && kept[i].url == c.url;
  }

  /** `addMCPTool`: append `name` to the URL's list, creating `[name]` when there is none. */
  function WithToolAdded(selected: map<string, seq<string>>, url: string, name: string): (r: map<string, seq<string>>)
    ensures r.Keys == selected.Keys + {url}
    ensures r[url] == SelectedFor(selected, url) + [name]
    ensures forall u :: u in selected && u != url ==> r[u] == selected[u]
  {
    selected[url := if url in selected then selected[url] + [name] else [name]]
  }

  /** `removeMCPTool`: drop every occurrence of `name` from the URL's list. An absent list
      stays absent (the source stores `undefined`, which every reader treats as absent). */
  function WithToolRemoved(selected: map<string, seq<string>>, url: string, name: string): (r: map<string, seq<string>>)
    ensures r.Keys == selected.Keys
    ensures url in r ==> name !in r[url]
    ensures url in r ==> forall i :: 0 <= i < |selected[url]| && selected[url][i] != name ==> selected[url][i] in r[url]
    ensures url in r ==> forall i :: 0 <= i < |r[url]| ==> r[url][i] in selected[url]
    ensures forall u :: u in selected && u != url ==> r[u] == selected[u]
  {
    if url in selected then selected[url := Filter(selected[url], (t: string) => t != name)] else selected
  }

  /** Removing a tool after adding it to a list that did not hold it restores the list. */
  lemma AddThenRemoveTool(selected: map<string, seq<string>>, url: string, name: string)
    requires url in selected && name !in selected[url]
    ensures WithToolRemoved(WithToolAdded(selected, url, name), url, name) == selected
  {
    var p := (t: string) => t != name;
    FilterSnoc(selected[url], name, p);
    FilterKeepsAll(selected[url], p);
    var r := WithToolRemoved(WithToolAdded(selected, url, name), url, name);
    assert r[url] == selected[url];
  }

  // ---------------------------------------------------------------------------------------
  // Running the agent

  /** The messages `runAgent` sends: the input, behind one system message with the prompt text
      when the prompt is not empty. */
  function WithSystemPrompt(prompt: string, messages: seq<Message>): (r: seq<Message>)
    ensures |r| == |messages| + (if prompt == "" then 0 else 1)
    ensures r[|r| - |messages|..] == messages
    ensures prompt != "" ==> r[0] == Message(System, [TextPart(prompt)])
  {
    if prompt == "" then messages else [Message(System, [TextPart(prompt)])] + messages
  }

  /** The state after `runAgent(messages)`: nothing happens before the agent is initialised;
      afterwards exactly one `run-agent` is posted, carrying the prompt-prefixed messages and
      the current run configuration. */
  function AfterRun(st: AgentState, messages: seq<Message>): AgentState {
    if !st.agentInitialized then st
    else st.(outbox := st.outbox + [Command.RunAgent(WithSystemPrompt(st.systemPrompt, messages), st.agentRunConfig)])
  }

  // ---------------------------------------------------------------------------------------
  // The controller

  class AgentController {
    var isWebGPUSupported: bool
    var webgpuLimits: Option<GpuLimits>
    var downloadedModels: seq<string>
    var selectedModel: Option<LMConfig>
    var apiKeys: ApiKeys
    var selectedBuiltinTools: seq<BuiltinTool>
    var mcpServers: seq<McpServer>
    var mcpServersStatus: map<string, ServerStatus>
    var mcpTools: map<string, seq<ToolDesc>>
    var selectedMcpTools: map<string, seq<string>>
    var agentRunConfig: AgentConfig
    var systemPrompt: string
    var agentInitialized: bool
    var isModelLoading: bool
    var modelLoadingProgress: Option<CacheProgress>
    var agentWorkerReady: bool
    /** Every message posted to the worker, oldest first. */
    var outbox: seq<Command>

    function State(): AgentState
      reads this
    {
      AgentState(isWebGPUSupported, webgpuLimits, downloadedModels, selectedModel, apiKeys,
                 selectedBuiltinTools, mcpServers, mcpServersStatus, mcpTools, selectedMcpTools,
                 agentRunConfig, systemPrompt, agentInitialized, isModelLoading,
                 modelLoadingProgress, agentWorkerReady, outbox)
    }

    /** Mounting the provider: stored values are loaded, every flag starts false, nothing is
        posted yet. */
    constructor (stored: Stored)
      ensures State() == AgentState(false, None, stored.downloadedModels, stored.selectedModel,
        stored.apiKeys, stored.selectedBuiltinTools, stored.mcpServers, map[], stored.mcpTools,
        stored.selectedMcpTools, stored.agentRunConfig, stored.systemPrompt, false, false, None,
        false, [])
    {
      isWebGPUSupported, webgpuLimits := false, None;
      downloadedModels, selectedModel, apiKeys := stored.downloadedModels, stored.selectedModel, stored.apiKeys;
      selectedBuiltinTools, mcpServers, mcpServersStatus := stored.selectedBuiltinTools, stored.mcpServers, map[];
      mcpTools, selectedMcpTools := stored.mcpTools, stored.selectedMcpTools;
      agentRunConfig, systemPrompt := stored.agentRunConfig, stored.systemPrompt;
      agentInitialized, isModelLoading, modelLoadingProgress := false, false, None;
      agentWorkerReady, outbox := false, [];
    }

    /** The WebGPU probe: the limits are only recorded when WebGPU is supported. */
    method OnWebGPUProbed(supported: bool, limits: Option<GpuLimits>)
      modifies this
      ensures State() == old(State()).(isWebGPUSupported := supported,
                                         webgpuLimits := if supported then limits else old(webgpuLimits))
    {
      isWebGPUSupported := supported;
      if supported {
        webgpuLimits := limits;
      }
    }

    /** The worker's `onmessage` handler. */
    method OnMessage(msg: Event) returns (d: Dispatch)
      modifies this
      ensures State() == AfterEvent(old(State()), msg)
      ensures d == DispatchOf(msg)
    {
      d := NoDispatch;
      match msg {
        case WorkerReady =>
          agentWorkerReady := true;
        case LangmodelInitProgress(progress) =>
          modelLoadingProgress := Some(progress);
        case AgentReady =>
          modelLoadingProgress := None;
          isModelLoading := false;
          agentInitialized := true;
        case AgentStreamDelta(output) =>
          d := StreamDelta(output);
        case AgentStreamFinished =>
          d := StreamFinished;
        case McpServerRegistered(url, tools) =>
          mcpTools := mcpTools[url := tools];
          mcpServersStatus := mcpServersStatus[url := Initialized];
          d := ServerRegistered(url, tools);
        case WorkerError(_) =>
      }
    }

    /** The provisioning effect: posts one initialisation message and marks the model loading,
        or returns early and changes nothing. */
    method Provision()
      modifies this
      ensures var c := ProvisionCommand(old(agentWorkerReady), old(isWebGPUSupported), old(selectedModel), old(apiKeys));
        State() == if c.None? then old(State())
                   else old(State()).(agentInitialized := false, isModelLoading := true, outbox := old(outbox) + [c.value])
    {
      if !agentWorkerReady {
        return;
      }
      if selectedModel.None? {
        return;
      }
      var config := selectedModel.value;
      if config.LocalLM? && !isWebGPUSupported {
        return;
      }
      if config.ApiLM? && apiKeys.Get(config.spec).None? {
        return;
      }
      agentInitialized := false;
      isModelLoading := true;
      if config.LocalLM? {
        outbox := outbox + [InitializeLocalAgent(config)];
      } else {
        outbox := outbox + [InitializeApiAgent(config, apiKeys.Get(config.spec).value)];
      }
    }

    /** The built-in tool effect: once the agent is initialised, `clear-tools` and then one
        message per known selected tool. */
    method ReplayBuiltinTools()
      modifies this
      ensures State() == if !old(agentInitialized) then old(State())
        else old(State()).(outbox := old(outbox) + [ClearTools] + BuiltinToolCommands(old(selectedBuiltinTools)))
    {
      if !agentInitialized {
        return;
      }
      var tools := selectedBuiltinTools;
      var posts := [ClearTools];
      var i := 0;
      while i < |tools|
        invariant 0 <= i <= |tools|
        invariant posts == [ClearTools] + BuiltinToolCommands(tools[..i])
        invariant unchanged(this)
      {
        var tool := tools[i];
        if tool.id == WebSearchToolId {
          posts := posts + [AddBuiltinTool(tool.id, BaseUrl(WebSearchProxyUrl))];
        } else if tool.id == WebFetchToolId {
          posts := posts + [AddBuiltinTool(tool.id, ProxyUrl(WebFetchProxyUrl))];
        }
        assert tools[..i + 1] == tools[..i] + [tool];
        FlatMapSnoc(tools[..i], tool, BuiltinToolCommand);
        i := i + 1;
      }
      assert tools[..i] == tools;
      assert outbox + posts == outbox + [ClearTools] + BuiltinToolCommands(tools);
      outbox := outbox + posts;
    }

    /** The MCP server effect: once the worker is ready, `add-mcp-server` for each listed server
        without a status entry, marking each as initializing in place. */
    method InitMcpServers()
      modifies this
      ensures var posted := NewServerUrls(old(mcpServers), old(mcpServersStatus));
        State() == if !old(agentWorkerReady) then old(State())
          else old(State()).(mcpServersStatus := MarkInitializing(old(mcpServersStatus), posted),
                             outbox := old(outbox) + FlatMap(posted, AddServerCommand))
    {
      if !agentWorkerReady {
        return;
      }
      var posts, status := ServerRegistrations(mcpServers, mcpServersStatus);
      outbox := outbox + posts;
      mcpServersStatus := status;
    }

    /** The MCP tool effect: once the agent is initialised, `add-mcp-tool` for every selected
        tool of every listed server. */
    method ReplayMcpTools()
      modifies this
      ensures State() == if !old(agentInitialized) then old(State())
        else old(State()).(outbox := old(outbox) + McpToolCommands(old(mcpServers), old(selectedMcpTools)))
    {
      if !agentInitialized {
        return;
      }
      var posts := McpToolPosts(mcpServers, selectedMcpTools);
      outbox := outbox + posts;
    }

    /** `setApiKey`: only the named provider's key changes. */
    method SetApiKey(provider: ApiSpec, key: Option<string>)
      modifies this
      ensures State() == old(State()).(apiKeys := old(apiKeys).With(provider, key))
    {
      apiKeys := apiKeys.With(provider, key);
    }

    /** `addMCPServer`: post the registration and append the server to the list. */
    method AddMcpServer(url: string)
      modifies this
      ensures State() == old(State()).(outbox := old(outbox) + [Command.AddMcpServer(url)],
                                         mcpServers := old(mcpServers) + [McpServer(url)])
    {
      outbox := outbox + [Command.AddMcpServer(url)];
      mcpServers := mcpServers + [McpServer(url)];
    }

    /** `removeMCPServer`: post the removal, drop the URL from the list (the others keep their
        order) and from the status map. Its tool lists stay stored. */
    method RemoveMcpServer(url: string)
      modifies this
      ensures State() == old(State()).(
        outbox := old(outbox) + [Command.RemoveMcpServer(url)],
        mcpServers := Filter(old(mcpServers), OtherServer(url)),
        mcpServersStatus := old(mcpServersStatus) - {url})
    {
      outbox := outbox + [Command.RemoveMcpServer(url)];
      mcpServers := Filter(mcpServers, OtherServer(url));
      mcpServersStatus := mcpServersStatus - {url};
    }

    /** `addMCPTool`: select the tool and post `add-mcp-tool`. */
    method AddMcpTool(url: string, name: string)
      modifies this
      ensures State() == old(State()).(
        selectedMcpTools := WithToolAdded(old(selectedMcpTools), url, name),
        outbox := old(outbox) + [Command.AddMcpTool(url, name)])
    {
      selectedMcpTools := WithToolAdded(selectedMcpTools, url, name);
      outbox := outbox + [Command.AddMcpTool(url, name)];
    }

    /** `removeMCPTool`: deselect the tool and post `remove-tool`, which carries only the name. */
    method RemoveMcpTool(url: string, name: string)
      modifies this
      ensures State() == old(State()).(
        selectedMcpTools := WithToolRemoved(old(selectedMcpTools), url, name),
        outbox := old(outbox) + [RemoveTool(name)])
    {
      selectedMcpTools := WithToolRemoved(selectedMcpTools, url, name);
      outbox := outbox + [RemoveTool(name)];
    }

    /** `runAgent`: nothing before the agent is initialised; otherwise one `run-agent` with the
        prompt-prefixed messages and the current run configuration. */
    method RunAgent(messages: seq<Message>)
      modifies this
      ensures State() == AfterRun(old(State()), messages)
    {
      if !agentInitialized {
        return;
      }
      var sent := messages;
      if systemPrompt != "" {
        sent := [Message(System, [TextPart(systemPrompt)])] + messages;
      }
      assert sent == WithSystemPrompt(systemPrompt, messages);
      outbox := outbox + [Command.RunAgent(sent, agentRunConfig)];
    }
  }
}
