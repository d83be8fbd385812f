# Ailoy assistant UI example — a Dafny model

The application is a browser chat client for the `ailoy-web` agent library. Its core has
five parts, and the model follows the same layout:

- **Agent provider** (`agent_provider.dfy`, module `AgentProvider`). It holds the
  application state and talks to a background agent worker by posting messages. It reacts to
  the worker's events and replays the tool configuration once the agent is ready:
  - the model selection and API keys;
  - the built-in tools, MCP servers and MCP tools;
  - the run configuration and the system prompt.

  The class `AgentController` has one field per piece of provider state. The worker channel
  is the field `outbox`: every `postMessage` appends one `Command` to it. Each effect and
  handler is a method whose `ensures` gives its whole new state, through `State()`.
- **Runtime provider** (`runtime_provider.dfy`, module `RuntimeProvider`). It adapts the
  chat UI to the agent:
  - it folds streamed deltas into an ongoing message;
  - it appends finished messages to the current thread;
  - it turns the composer's new, edit and reload requests into thread updates and agent
    runs.

  The class is `RuntimeAdapter`. The thread store it writes to is reduced to a map, in
  `thread_store.dfy`.
- **Models page** (`models_page.dfy`, module `ModelsPage`). It covers:
  - the model catalogue and the WebGPU support rule;
  - the per-entry action button, download and removal, selection and API-key saving;
  - the reasoning switch.
- **Tools page** (`tools_page.dfy`, module `ToolsPage`). It is the checkbox list of built-in
  tools. The row's selected flag is modelled as written and corrected (see Findings).
- **CORS proxy** (`proxy.dfy`, module `CorsProxy`). It is the relay worker:
  - it answers preflight requests;
  - it forwards POST bodies to the DuckDuckGo HTML endpoint;
  - it relays the answer without hop-by-hop headers and with the CORS headers set.
  - an upstream status that the `Response` constructor refuses (204, 205 and 304 with a body,
    or one outside 200 to 599) ends, like a failed fetch, in the 500 JSON error.

`ailoy.dfy` holds the shapes of the library's value types. `wrappers.dfy` holds `Option`,
`Result` and `Outcome`. `seqs.dfy` holds the sequence functions the others share, with
their lemmas: filter, flat-map, take, count and distinctness.

Foreign operations are parameters:
- the library's `accumulateMessageDelta`, `finishMessageDelta` and `imageFromBytes`;
- the UI's message converters;
- the proxy's upstream `fetch`.

The model constrains only what the application itself does with their results.

`addMCPServer` posts `add-mcp-server` but records no status for the URL. So when the
initialisation effect runs on the changed server list, it posts the same URL a second time
(`AgentProvider.AddedServerPostedAgain`). The model keeps this behaviour as written.

## Model

| member | source | states |
|---|---|---|
| AgentProvider.ApiKeys.With | components/ailoy-agent-provider.tsx:332-334 | the key of the named provider is replaced and every other provider's key is kept |
| AgentProvider.AgentController.constructor | components/ailoy-agent-provider.tsx:122-172 | the persisted values are loaded; WebGPU support, the flags and the progress start cleared; the status map starts empty and nothing has been posted |
| AgentProvider.AgentController.OnWebGPUProbed | components/ailoy-agent-provider.tsx:175-185 | the support flag is recorded; the limits are recorded only when WebGPU is supported; nothing else changes |
| AgentProvider.AgentController.OnMessage | components/ailoy-agent-provider.tsx:195-233 | the new state is the event's effect on the old state, and the dispatched event is the one the event calls for |
| AgentProvider.AfterEventSpec | components/ailoy-agent-provider.tsx:197-232 | no event posts anything; `worker-ready` sets readiness; progress reports set the progress; `agent-ready` clears progress and loading and sets initialised, changing nothing else; stream events and errors change nothing |
| AgentProvider.AfterServerRegistered | components/ailoy-agent-provider.tsx:215-224 | a registration stores the server's tools and marks it initialized; every other URL's entries and every other field are kept |
| AgentProvider.DispatchOfSpec | components/ailoy-agent-provider.tsx:205-229 | exactly the stream-delta, stream-finished and server-registered events are re-dispatched, with their payloads |
| AgentProvider.ProvisionCommand | components/ailoy-agent-provider.tsx:242-272 | a message is posted iff the worker is ready, a model is selected, a local model has WebGPU and an API model's provider has a key; the message is the local or API initialisation with that config and key |
| AgentProvider.AgentController.Provision | components/ailoy-agent-provider.tsx:242-272 | either nothing changes, or exactly that message is posted, initialised is cleared and loading is set |
| AgentProvider.BuiltinToolCommandsSpec | components/ailoy-agent-provider.tsx:281-300 | one `add-builtin-tool` per known selected tool, each with its fixed proxy URL; nothing else; every selected known tool is present |
| AgentProvider.BuiltinToolCommandsInOrder | components/ailoy-agent-provider.tsx:281-300 | the replay follows selection order: the commands for a concatenation are the concatenated commands |
| AgentProvider.AgentController.ReplayBuiltinTools | components/ailoy-agent-provider.tsx:274-301 | before initialisation nothing changes; afterwards `clear-tools`, then the tool commands, are appended to the outbox and nothing else changes |
| AgentProvider.MarkInitializingSpec | components/ailoy-agent-provider.tsx:306-314 | marking adds exactly the posted URLs, sets them initializing and keeps every other entry |
| AgentProvider.NewServerUrlsSpec | components/ailoy-agent-provider.tsx:306-314 | a URL is posted iff it is listed and has no status, and no URL is posted twice even when listed twice |
| AgentProvider.MarkInitializingCons | components/ailoy-agent-provider.tsx:305-312 | marking one URL and then a list is marking the list with that URL in front |
| AgentProvider.NewServerUrlsConcat | components/ailoy-agent-provider.tsx:305-313 | the loop posts in list order: on a split list, the first part's URLs come first, then the second part's URLs that the first part did not mark |
| AgentProvider.NewServerUrlsIdle | components/ailoy-agent-provider.tsx:306-313 | when every listed URL has a status, nothing is posted |
| AgentProvider.NewServerUrlsRerun | components/ailoy-agent-provider.tsx:304-315 | running the initialisation again on the status it left posts nothing |
| AgentProvider.ServerRegistrations | components/ailoy-agent-provider.tsx:306-314 | the loop posts `add-mcp-server` for exactly the new URLs, in order, and leaves them marked initializing |
| AgentProvider.AgentController.InitMcpServers | components/ailoy-agent-provider.tsx:304-315 | before the worker is ready nothing changes; afterwards those posts are appended and the status map is the marked one |
| AgentProvider.AddedServerPostedAgain | components/ailoy-agent-provider.tsx:336-342 | a server added without a status entry is posted again by the initialisation effect |
| AgentProvider.McpToolPosts | components/ailoy-agent-provider.tsx:321-329 | the nested loops post, per server in list order, one `add-mcp-tool` per selected tool in selection order |
| AgentProvider.McpToolCommandsSpec | components/ailoy-agent-provider.tsx:318-330 | `add-mcp-tool(url, name)` is posted iff the URL is a listed server and the name is among its selected tools; nothing else is posted |
| AgentProvider.AgentController.ReplayMcpTools | components/ailoy-agent-provider.tsx:318-330 | before initialisation nothing changes; afterwards exactly those commands are appended |
| AgentProvider.AgentController.SetApiKey | components/ailoy-agent-provider.tsx:332-334 | only the named provider's key changes |
| AgentProvider.AgentController.AddMcpServer | components/ailoy-agent-provider.tsx:336-342 | `add-mcp-server` is posted and the server is appended to the list; nothing else changes |
| AgentProvider.AgentController.RemoveMcpServer | components/ailoy-agent-provider.tsx:344-354 | `remove-mcp-server` is posted; the URL leaves the list (the others keep their order) and the status map; nothing else changes |
| AgentProvider.RemovedServerNotReplayed | components/ailoy-agent-provider.tsx:344-354 | after the removal, the tool replay posts no tool of that server |
| AgentProvider.WithToolAdded | components/ailoy-agent-provider.tsx:357-363 | the URL's list gains the name at its end (a new list `[name]` if none); other URLs are kept |
| AgentProvider.WithToolRemoved | components/ailoy-agent-provider.tsx:372-375 | the URL's list loses every occurrence of the name and keeps every other name, adding none; other URLs are kept |
| AgentProvider.AddThenRemoveTool | components/ailoy-agent-provider.tsx:356-375 | removing a tool just added to a list that lacked it restores the selection |
| AgentProvider.AgentController.AddMcpTool | components/ailoy-agent-provider.tsx:356-369 | the tool is selected and `add-mcp-tool` is posted |
| AgentProvider.AgentController.RemoveMcpTool | components/ailoy-agent-provider.tsx:371-380 | the tool is deselected and `remove-tool` with only the name is posted |
| AgentProvider.WithSystemPrompt | components/ailoy-agent-provider.tsx:386-391 | the messages are unchanged behind one system message with the prompt text, present iff the prompt is non-empty |
| AgentProvider.AgentController.RunAgent | components/ailoy-agent-provider.tsx:382-400 | before initialisation nothing happens; afterwards exactly one `run-agent` is posted with the prompt-prefixed messages and the run configuration |
| ThreadStore.Append | components/ailoy-runtime-provider.tsx:88 | the message becomes the thread's last message; the title and every other thread are kept |
| ThreadStore.SetMessages | components/ailoy-runtime-provider.tsx:165 | the thread holds exactly the given messages; the title and every other thread are kept |
| ThreadStore.Rename | components/ailoy-runtime-provider.tsx:137-140 | the thread gets the title and keeps its messages; every other thread is kept |
| RuntimeProvider.FoldInArrivalOrder | components/ailoy-runtime-provider.tsx:79-82 | the accumulated message is `accumulateMessageDelta` applied in arrival order, from the first delta taken as-is |
| RuntimeProvider.AccumulatedSnoc | components/ailoy-runtime-provider.tsx:79-82 | one more delta is taken as-is into an empty slot and merged into a filled one |
| RuntimeProvider.ConvertedAppendMessage | components/ailoy-runtime-provider.tsx:98-127 | a successful conversion is a user message and needs a text first part |
| RuntimeProvider.ConvertAppendMessage | components/ailoy-runtime-provider.tsx:98-127 | the loop's result is the conversion: it fails on an image without a file, then on a non-text message, and otherwise collects the image parts and then the text |
| RuntimeProvider.ConvertedAppendMessageSpec | components/ailoy-runtime-provider.tsx:103-124 | success iff no image lacks its file and the first part is text; then one image part per image attachment, in order, followed by exactly the text |
| RuntimeProvider.TitleOf | components/ailoy-runtime-provider.tsx:139 | the title is the text's prefix of length min(30, length) |
| RuntimeProvider.EditedThread | components/ailoy-runtime-provider.tsx:160-164 | the thread becomes its first `parentId` messages (0 if absent), then the edited message |
| RuntimeProvider.ReloadedThread | components/ailoy-runtime-provider.tsx:191-192 | the thread becomes its prefix of length `parentId + 1` (0 if absent), capped by its length |
| RuntimeProvider.EditRenamesIff | components/ailoy-runtime-provider.tsx:164-172 | an edit renames the thread iff it edits the first message or the thread was empty |
| RuntimeProvider.RuntimeAdapter.constructor | components/ailoy-runtime-provider.tsx:35-38 | no ongoing message, not answering, nothing pending |
| RuntimeProvider.RuntimeAdapter.OnStreamDelta | components/ailoy-runtime-provider.tsx:75-92 | the ongoing message is the fold of the run's deltas; on a finishing delta the finished message is appended to the thread once and the slots empty |
| RuntimeProvider.RuntimeAdapter.OnStreamFinished | components/ailoy-runtime-provider.tsx:94-96 | answering is cleared and nothing else changes |
| RuntimeProvider.RuntimeAdapter.OnNew | components/ailoy-runtime-provider.tsx:129-145 | fails without change before initialisation or on a failed conversion; otherwise it appends the converted message, titles the thread iff it was empty, runs the agent on the restored history plus the new message and sets answering |
| RuntimeProvider.RuntimeAdapter.OnEdit | components/ailoy-runtime-provider.tsx:157-176 | nothing before initialisation; fails without change on a failed conversion; otherwise it sets the edited thread, titles it iff it has one message and runs the agent on exactly that thread |
| RuntimeProvider.RuntimeAdapter.OnReload | components/ailoy-runtime-provider.tsx:188-197 | nothing before initialisation; otherwise the thread is cut to the reloaded prefix and the agent runs on exactly that prefix |
| RuntimeProvider.RuntimeAdapter.View | components/ailoy-runtime-provider.tsx:207-223 | disabled iff not initialised; running iff answering; the messages are the thread's, followed by the converted ongoing message iff there is one |
| ModelsPage.CatalogueNamesListed | app/models/page.tsx:291-341 | the selection list is the six local models, then the four API models, with their names |
| ModelsPage.CatalogueNamesDistinct | app/models/page.tsx:291-341 | the catalogue's model names are pairwise distinct |
| ModelsPage.FindModelSpec | app/models/page.tsx:356-358 | the search finds nothing iff no entry has the name, and otherwise the first entry with it |
| ModelsPage.FindModelResolves | app/models/page.tsx:354-360 | with distinct names, each entry is the one its name selects |
| ModelsPage.EveryListedNameResolves | app/models/page.tsx:354-360 | every listed name selects its own catalogue entry |
| ModelsPage.HandleSelectModel | app/models/page.tsx:354-360 | the selection becomes the entry found by name, and nothing else changes |
| ModelsPage.SupportMonotone | app/models/page.tsx:62-68 | support is monotone in the two device limits and needs WebGPU |
| ModelsPage.NoLimitsNoLocalModel | app/models/page.tsx:62-68 | without known limits, no catalogue model is supported |
| ModelsPage.ActionButtonPriority | app/models/page.tsx:141-184 | each button shows exactly under its priority condition; Download is disabled only while downloading; Clear is never disabled |
| ModelsPage.LocalModelListItem.constructor | app/models/page.tsx:59 | a new entry is not downloading |
| ModelsPage.LocalModelListItem.View | app/models/page.tsx:118-198 | the radio is disabled iff not downloaded; the progress bar shows iff downloading or loading; the button follows the chain |
| ModelsPage.LocalModelListItem.HandleDownloadModel | app/models/page.tsx:80-94 | a completed download records and selects the model and clears downloading; an interrupted one leaves only downloading set |
| ModelsPage.LocalModelListItem.HandleRemoveModel | app/models/page.tsx:96-104 | a completed removal is the removal's effect; an interrupted one changes nothing |
| ModelsPage.DownloadSelects | app/models/page.tsx:89-93 | the model is appended behind the kept list and is the selection; its row shows as loading exactly when the agent is already loading |
| ModelsPage.RemoveSpec | app/models/page.tsx:98-103 | the name appears nowhere afterwards; the other names are kept; the selection is cleared iff it named the model |
| ModelsPage.DownloadThenRemove | app/models/page.tsx:80-104 | removing right after downloading leaves every other name and no selection |
| ModelsPage.KeyOf | app/models/page.tsx:212 | the empty input stores no key; any other input is stored as it is |
| ModelsPage.ApiModelListItem.constructor | app/models/page.tsx:206-207 | the dialog starts closed with empty input |
| ModelsPage.ApiModelListItem.HandleSaveApiKey | app/models/page.tsx:211-219 | the new state is the save's effect; the input is emptied and the dialog closed |
| ModelsPage.SaveApiKeySpec | app/models/page.tsx:209-219 | selectable afterwards iff the input was non-empty; other keys are kept; the selection is cleared iff it named this model |
| ModelsPage.ToggleRoundTrip | app/models/page.tsx:362-370 | the switch shows the chosen value; the other options and fields are kept; only the last toggle matters |
| ModelsPage.HandleReasoningToggle | app/models/page.tsx:362-370 | only the run configuration changes, to the toggled one |
| ToolsPage.CatalogueIsWebSearch | app/tools/page.tsx:9-16 | the catalogue is the single web-search tool |
| ToolsPage.IsSelectedAsWrittenSpec | app/tools/page.tsx:20-22 | as written, a row is checked iff some selected tool has a non-empty id, whatever the row's tool |
| ToolsPage.ToggleAsWrittenIgnoresRow | app/tools/page.tsx:20-30 | with only another tool selected, the web-search row shows checked, and toggling it leaves the list unchanged |
| ToolsPage.ToggleFlips | app/tools/page.tsx:24-30 | the corrected toggle flips the row's selection; adding appends behind the unchanged list; removing drops that id and keeps every other tool |
| ToolsPage.ToggleTwiceRestores | app/tools/page.tsx:24-30 | toggling an unselected tool twice restores the list |
| CorsProxy.BuildResponseHeaders | proxy/src/index.ts:56-66 | the two loops build exactly the relayed-then-CORS header map |
| CorsProxy.SetEntries | proxy/src/index.ts:64-66 | setting the entries one by one gives the later-entries-win map |
| CorsProxy.CorsHeadersLowered | proxy/src/index.ts:84-90 | the three CORS headers are stored under distinct lower-case names, none hop-by-hop or `content-type` |
| CorsProxy.ResponseHeadersSpec | proxy/src/index.ts:56-66 | no hop-by-hop header; the three CORS headers carry their fixed values whatever upstream sent; every other relayed header keeps its last value; every key is a CORS name or the lower-cased name of a relayed upstream entry |
| CorsProxy.RelayedLastValue | proxy/src/index.ts:57-61 | a relayed entry not repeated later keeps its value in the relayed map |
| CorsProxy.HandleRequest | proxy/src/index.ts:38-82 | the client's body goes to the fixed target and the answer is the relay outcome of what upstream returns |
| CorsProxy.RelayOutcomeSpec | proxy/src/index.ts:53-81 | the answer is a JSON error exactly when upstream fails or answers a status the `Response` constructor refuses (204, 205, 304, outside 200 to 599), and then it is a 500; otherwise upstream status and body pass through unchanged; every answer carries the CORS headers |
| CorsProxy.Fetch | proxy/src/index.ts:16-35 | OPTIONS gets 200 with the CORS headers and no body; POST gets the relay outcome of the forwarded request; any other method gets 405 with the JSON content type |
| CorsProxy.FixedResponsesHeaders | proxy/src/index.ts:74-80 | the preflight answer has exactly the CORS headers; the error answer has those values plus the JSON content type; the refusal has only the content type |

## Findings

| source | as written | input that shows it | evidently intended | confidence | as-written member | corrected member |
|---|---|---|---|---|---|---|
| app/tools/page.tsx:21 | `isSelected` tests `selectedTools.find((tool) => tool.id)`. The callback's `tool` shadows the row's tool, so the test asks whether any selected tool has a non-empty id | selected tools `[web_fetch]`: the web-search row shows checked, and toggling it filters out nothing, so the list is unchanged | a row is checked iff its own tool's id is selected, and toggling flips that | high (not executed) | ToolsPage.ToggleAsWrittenIgnoresRow | ToolsPage.ToggleFlips |

## Left out

- Progress percentages (`Math.round(current / total * 100)`) and the progress effect of a local entry: these are display-only and use floating point.
- React scheduling. Each handler and effect is one atomic method on the current state, and setter batching is not modelled. The `let accumulated` of the runtime provider is modelled as a field, which is how the listener's captured closure keeps it between deltas.
- Worker internals, the `ailoy-web` operations, image decoding and the UI message converters. They are foreign and appear as function parameters with no assumed properties.
- `console.error` on worker errors, which is I/O.
- The thread list and thread creation. The thread store implementation is not part of this model. `RuntimeProvider.RuntimeAdapter` requires the current thread to be present in the store.
- `Number.parseInt` of `parentId`: an id is taken as already parsed (`Option<nat>`), so non-numeric ids (NaN) are not modelled.
- `RuntimeProvider.TitleOf`: it takes the first 30 characters, whereas `substring` counts UTF-16 code units, so the two differ for characters outside the basic plane.
- `RuntimeProvider.ConvertAppendMessage`: `message.attachments` being `undefined` is modelled as the empty list. A failing `arrayBuffer()` on a present file is not modelled.
- `ModelsPage.LocalModelListItem.HandleDownloadModel`: the awaited library call is reduced to a `completed` flag. When it is false, the modelled state is the one left by a rejected download.
- `ModelsPage.LocalModelListItem.HandleRemoveModel`: the same reduction applies to the removal.
- `ModelsPage.HandleSelectModel` stores the catalogue entry as an `LMConfig` only. The extra catalogue fields that the source object carries into the selection (description, limits) are dropped.
- `AgentProvider.WithToolRemoved`: removing from an absent list leaves it absent. The source stores `undefined` under the key, and every reader treats that as absent.
- The MCP event target's listeners and the stream event target's listener registration: only what is dispatched is modelled.
- `CorsProxy.HandleRequest`: the body is a byte sequence and the JSON error body is the datatype `ErrorJson(message)`, not serialised text. A failing `request.arrayBuffer()` or `response.arrayBuffer()` is folded into the upstream failure. `error instanceof Error ? message : String(error)` is reduced to the message string.
- `CorsProxy.ConstructorError`: the `Response` constructor's refusals follow the Fetch standard (a `RangeError` outside 200 to 599, a `TypeError` for a null-body status given a body, and the response body is always a non-null `ArrayBuffer`); the runtime's own message texts are represented by the constants `StatusRangeError` and `NullBodyStatusError`.
- `CorsProxy.Lower`: only ASCII letters are lowered, which covers header names (ASCII tokens).
- Response header iteration order and the joining of repeated upstream headers by the `Headers` object: the upstream headers are modelled as the entry sequence the loop sees.
- Page markup, styling, dialogs' open and close events, and the system-prompt text area, which is a plain setter.
