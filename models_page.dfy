/** The models page: the model catalogue, the WebGPU support rule for local models, the
    download / remove / select updates of the selection, API-key saving and the reasoning
    switch. Its state lives in the agent controller; the handlers below write it as the
    page's context setters do. */
module ModelsPage {
  import opened Wrappers
  import opened Seqs
  import opened Ailoy
  import opened AgentProvider

  // ---------------------------------------------------------------------------------------
  // Catalogue

  /** `1 << 20` and `1 << 30`. */
  const MB: nat := 0x10_0000
  const GB: nat := 0x4000_0000

  /** A local catalogue entry with the WebGPU limits it needs. */
  datatype LocalModel = LocalModel(modelName: string, description: Option<string>,
                                   bufferSizeLimit: nat, storageBufferBindingSizeLimit: nat)

  const LocalModels: seq<LocalModel> := [
    LocalModel("Qwen/Qwen3-0.6B", None, 2 * GB, 128 * MB),
    LocalModel("Qwen/Qwen3-1.7B", None, 2 * GB, 256 * MB),
    LocalModel("Qwen/Qwen3-4B", None, 4 * GB, 1 * GB),
    LocalModel("Qwen/Qwen3-4B-Instruct-2507", Some("This model does not do reasoning."), 4 * GB, 1 * GB),
    LocalModel("Qwen/Qwen3-4B-Thinking-2507", Some("This model always do reasoning."), 4 * GB, 1 * GB),
    LocalModel("Qwen/Qwen3-8B", None, 4 * GB, 1 * GB)
  ]

  const ApiModels: seq<LMConfig> := [
    ApiLM(OpenAI, "gpt-5.2"),
    ApiLM(Gemini, "gemini-2.5-flash"),
    ApiLM(Claude, "claude-sonnet-4-5"),
    ApiLM(Grok, "grok-4-fast")
  ]

  /** The local entries as the configuration the selection stores. */
  function LocalConfigs(ms: seq<LocalModel>): seq<LMConfig> {
    seq(|ms|, i requires 0 <= i < |ms| => LocalLM(ms[i].modelName))
  }

  /** `[...LOCAL_MODELS, ...API_MODELS]`, the list the selection handler searches. */
  function Catalogue(): seq<LMConfig> {
    LocalConfigs(LocalModels) + ApiModels
  }

  function Names(s: seq<LMConfig>): seq<string> {
    seq(|s|, i requires 0 <= i < |s| => s[i].modelName)
  }

  const CatalogueNames: seq<string> := [
    "Qwen/Qwen3-0.6B", "Qwen/Qwen3-1.7B", "Qwen/Qwen3-4B", "Qwen/Qwen3-4B-Instruct-2507",
    "Qwen/Qwen3-4B-Thinking-2507", "Qwen/Qwen3-8B", "gpt-5.2", "gemini-2.5-flash",
    "claude-sonnet-4-5", "grok-4-fast"]

  /** The page lists ten models: the six local ones, then the four API ones. */
  lemma CatalogueNamesListed()
    ensures Names(Catalogue()) == CatalogueNames
  {
  }

  lemma ListedNamesDistinct()
    ensures Distinct(CatalogueNames)
  {
    var s := CatalogueNames;
    forall i, j | 0 <= i < j < |s|
      ensures s[i] != s[j]
    {
      // equal lengths only occur in pairs that differ at position 11 or 14
      assert |s[i]| != |s[j]| || s[i][11] != s[j][11] || s[i][14] != s[j][14];
    }
  }

  /** The catalogue's names are pairwise distinct. */
  lemma CatalogueNamesDistinct()
    ensures Distinct(Names(Catalogue()))
  {
    CatalogueNamesListed();
    ListedNamesDistinct();
  }

  // ---------------------------------------------------------------------------------------
  // Selecting a model

  /** `find` by model name: the first entry with that name, if any. */
  function FindModel(s: seq<LMConfig>, name: string): Option<LMConfig> {
    if s == [] then None
    else if s[0].modelName == name then Some(s[0])
    else FindModel(s[1..], name)
  }

  /** The search finds nothing iff no entry has the name; otherwise it finds the first entry
      with that name. */
  lemma {:induction false} FindModelSpec(s: seq<LMConfig>, name: string)
    ensures FindModel(s, name).None? <==> forall i :: 0 <= i < |s| ==> s[i].modelName != name
    ensures FindModel(s, name).Some? ==>
      exists i :: 0 <= i < |s| && s[i] == FindModel(s, name).value && s[i].modelName == name
                  && forall j :: 0 <= j < i ==> s[j].modelName != name
  {
    if s != [] && s[0].modelName != name {
      FindModelSpec(s[1..], name);
      if FindModel(s, name).Some? {
        var i :| 0 <= i < |s[1..]| && s[1..][i] == FindModel(s, name).value && s[1..][i].modelName == name
                 && forall j :: 0 <= j < i ==> s[1..][j].modelName != name;
        assert s[i + 1] == s[1..][i];
        forall j | 0 <= j < i + 1
          ensures s[j].modelName != name
        {
          if j > 0 {
            assert s[j] == s[1..][j - 1];
          }
        }
      }
      forall i | 0 <= i < |s| && s[i].modelName == name
        ensures FindModel(s, name).Some?
      {
        assert s[1..][i - 1] == s[i];
      }
    }
  }

  /** With distinct names, every listed entry is the one its name selects. */
  lemma {:induction false} FindModelResolves(s: seq<LMConfig>, k: nat)
    requires Distinct(Names(s))
    requires k < |s|
    ensures FindModel(s, s[k].modelName) == Some(s[k])
  {
    FindModelSpec(s, s[k].modelName);
    var i :| 0 <= i < |s| && s[i] == FindModel(s, s[k].modelName).value && s[i].modelName == s[k].modelName
             && forall j :: 0 <= j < i ==> s[j].modelName != s[k].modelName;
    assert Names(s)[i] == Names(s)[k];
  }

  /** Every name listed on the page resolves to its own catalogue entry. */
  lemma EveryListedNameResolves(k: nat)
    requires k < |Catalogue()|
    ensures FindModel(Catalogue(), Catalogue()[k].modelName) == Some(Catalogue()[k])
  {
    CatalogueNamesDistinct();
    FindModelResolves(Catalogue(), k);
  }

  /** `handleSelectModel`: the selection becomes the catalogue entry with that name. A name
      that is not listed yields `undefined` at run time, so the selection is cleared. */
  method HandleSelectModel(agent: AgentController, modelName: string)
    modifies agent
    ensures agent.State() == old(agent.State()).(selectedModel := FindModel(Catalogue(), modelName))
  {
    agent.selectedModel := FindModel(Catalogue(), modelName);
  }

  // ---------------------------------------------------------------------------------------
  // Local models

  /** `webgpuLimits?.maxBufferSize ?? 0` and its storage-binding counterpart. */
  function MaxBufferSize(limits: Option<GpuLimits>): nat {
    if limits.Some? then limits.value.maxBufferSize else 0
  }

  function MaxStorageBufferBindingSize(limits: Option<GpuLimits>): nat {
    if limits.Some? then limits.value.maxStorageBufferBindingSize else 0
  }

  /** `isModelSupported`: WebGPU is available and both limits reach the model's needs. */
  predicate IsModelSupported(webgpu: bool, limits: Option<GpuLimits>, m: LocalModel) {
    && webgpu
    && MaxBufferSize(limits) >= m.bufferSizeLimit
    && MaxStorageBufferBindingSize(limits) >= m.storageBufferBindingSizeLimit
  }

  /** Support is monotone in the device limits, and needs WebGPU. */
  lemma SupportMonotone(webgpu: bool, small: GpuLimits, large: GpuLimits, m: LocalModel)
    requires small.maxBufferSize <= large.maxBufferSize
    requires small.maxStorageBufferBindingSize <= large.maxStorageBufferBindingSize
    ensures IsModelSupported(webgpu, Some(small), m) ==> IsModelSupported(webgpu, Some(large), m)
    ensures !IsModelSupported(false, Some(large), m)
  {
  }

  /** Without known limits, no catalogue model counts as supported: every one needs more than
      zero. */
  lemma NoLimitsNoLocalModel(webgpu: bool, k: nat)
    requires k < |LocalModels|
    ensures !IsModelSupported(webgpu, None, LocalModels[k])
  {
  }

  /** `isCurrentModelLoading`: the selected model has this name and a model is loading. */
  predicate IsCurrentModelLoading(selected: Option<LMConfig>, isModelLoading: bool, modelName: string) {
    selected.Some? && selected.value.modelName == modelName && isModelLoading
  }

  /** The action button of a local entry, with the flags the markup gives it. */
  datatype ActionButton =
    | UnsupportedDownload             // disabled, with the device-limits popover
    | Download(disabled: bool, busy: bool)
    | LoadingButton                   // disabled spinner
    | Clear(disabled: bool)

  /** What a local entry shows. */
  datatype LocalItemView = LocalItemView(radioDisabled: bool, button: ActionButton, showProgress: bool)

  /** The button chain: unsupported, then not downloaded, then the current model loading,
      then Clear. */
  function ActionButtonFor(supported: bool, downloaded: bool, currentLoading: bool, downloading: bool): ActionButton {
    if !supported then UnsupportedDownload
    else if !downloaded then Download(!supported || downloading, downloading)
    else if currentLoading then LoadingButton
    else Clear(currentLoading)
  }

  /** Each button appears exactly under its priority condition; the Download button is
      disabled only while downloading, and the Clear button is never disabled (its
      `isCurrentModelLoading` guard cannot hold where it is shown). */
  lemma ActionButtonPriority(supported: bool, downloaded: bool, currentLoading: bool, downloading: bool)
    ensures var b := ActionButtonFor(supported, downloaded, currentLoading, downloading);
      && (b.UnsupportedDownload? <==> !supported)
      && (b.Download? <==> supported && !downloaded)
      && (b.LoadingButton? <==> supported && downloaded && currentLoading)
      && (b.Clear? <==> supported && downloaded && !currentLoading)
      && (b.Download? ==> b.disabled == downloading && b.busy == downloading)
      && (b.Clear? ==> !b.disabled)
  {
  }

  /** One local entry with its own `downloading` flag. */
  class LocalModelListItem {
    const model: LocalModel
    var downloading: bool

    constructor (model: LocalModel)
      ensures this.model == model && !downloading
    {
      this.model := model;
      downloading := false;
    }

    /** The entry as rendered: the radio is disabled iff the model is not downloaded, the
        progress bar shows iff it is downloading or being loaded. */
    function View(agent: AgentController): (v: LocalItemView)
      reads this, agent
      ensures v.radioDisabled <==> model.modelName !in agent.downloadedModels
      ensures v.showProgress <==>
        downloading || IsCurrentModelLoading(agent.selectedModel, agent.isModelLoading, model.modelName)
      ensures v.button == ActionButtonFor(
        IsModelSupported(agent.isWebGPUSupported, agent.webgpuLimits, model),
        model.modelName in agent.downloadedModels,
        IsCurrentModelLoading(agent.selectedModel, agent.isModelLoading, model.modelName),
        downloading)
    {
      var downloaded := model.modelName in agent.downloadedModels;
      var currentLoading := IsCurrentModelLoading(agent.selectedModel, agent.isModelLoading, model.modelName);
      var supported := IsModelSupported(agent.isWebGPUSupported, agent.webgpuLimits, model);
      LocalItemView(!downloaded, ActionButtonFor(supported, downloaded, currentLoading, downloading),
                    downloading || currentLoading)
    }

    /** `handleDownloadModel`. When the download completes, the model is recorded as
        downloaded and selected; when it fails, the entry stays marked as downloading and
        nothing else changes. */
    method HandleDownloadModel(agent: AgentController, completed: bool)
      modifies this, agent
      ensures downloading == !completed
      ensures agent.State() == if completed then AfterDownload(old(agent.State()), model.modelName) else old(agent.State())
    {
      downloading := true;
      if !completed {
        return;
      }
      downloading := false;
      agent.downloadedModels := agent.downloadedModels + [model.modelName];
      agent.selectedModel := Some(LocalLM(model.modelName));
    }

    /** `handleRemoveModel`. When the removal completes, the model appears nowhere in the
        downloaded list and the selection is cleared if it named this model. */
    method HandleRemoveModel(agent: AgentController, completed: bool)
      modifies agent
      ensures agent.State() == if completed then AfterRemove(old(agent.State()), model.modelName) else old(agent.State())
    {
      if !completed {
        return;
      }
      var name := model.modelName;
      agent.downloadedModels := Filter(agent.downloadedModels, (n: string) => n != name);
      if agent.selectedModel.Some? && agent.selectedModel.value.modelName == name {
        agent.selectedModel := None;
      }
    }
  }

  /** The state after a completed download of `name`. */
  function AfterDownload(st: AgentState, name: string): AgentState {
    st.(downloadedModels := st.downloadedModels + [name], selectedModel := Some(LocalLM(name)))
  }

  /** The state after a completed removal of `name`. */
  function AfterRemove(st: AgentState, name: string): AgentState {
    st.(downloadedModels := Filter(st.downloadedModels, (n: string) => n != name),
        selectedModel := if st.selectedModel.Some? && st.selectedModel.value.modelName == name then None
                         else st.selectedModel)
  }

  /** A download records the model at the end of the list and selects it; the downloaded
      row then shows as loading exactly when the agent is already loading a model. */
  lemma DownloadSelects(st: AgentState, name: string)
    ensures var r := AfterDownload(st, name);
      && r.downloadedModels[..|st.downloadedModels|] == st.downloadedModels
      && r.downloadedModels[|st.downloadedModels|] == name
      && r.selectedModel == Some(LocalLM(name))
      && (IsCurrentModelLoading(r.selectedModel, r.isModelLoading, name) <==> st.isModelLoading)
  {
  }

  /** A removal deletes every occurrence of the name, keeps the other names in order, and
      clears the selection iff it named the model. */
  lemma RemoveSpec(st: AgentState, name: string)
    ensures var r := AfterRemove(st, name);
      && name !in r.downloadedModels
      && (forall i :: 0 <= i < |st.downloadedModels| && st.downloadedModels[i] != name ==>
            st.downloadedModels[i] in r.downloadedModels)
      && (r.selectedModel.None? <==> st.selectedModel.None? || st.selectedModel.value.modelName == name)
  {
  }

  /** Removing a model right after downloading it leaves the downloaded list as if the
      download had removed every earlier copy, and no selection. */
  lemma {:induction false} DownloadThenRemove(st: AgentState, name: string)
    ensures AfterRemove(AfterDownload(st, name), name) ==
      st.(downloadedModels := Filter(st.downloadedModels, (n: string) => n != name), selectedModel := None)
  {
    var keep := (n: string) => n != name;
    FilterSnoc(st.downloadedModels, name, keep);
  }

  // ---------------------------------------------------------------------------------------
  // API models

  /** `isSelectable`: the entry's provider has a key. */
  predicate IsSelectable(keys: ApiKeys, spec: ApiSpec) {
    keys.Get(spec).Some?
  }

  /** The key stored for an input: `undefined` for the empty input. */
  function KeyOf(input: string): (k: Option<string>)
    ensures k.None? <==> input == ""
    ensures k.Some? ==> k.value == input
  {
    if input != "" then Some(input) else None
  }

  /** One API entry with its dialog state. */
  class ApiModelListItem {
    const config: LMConfig
    var apiKeyInput: string
    var isDialogOpened: bool

    constructor (config: LMConfig)
      requires config.ApiLM?
      ensures this.config == config && apiKeyInput == "" && !isDialogOpened
    {
      this.config := config;
      apiKeyInput, isDialogOpened := "", false;
    }

    /** `handleSaveApiKey`: stores the input as the provider's key, clears the selection iff
        it names this entry's model, and closes the emptied dialog. */
    method HandleSaveApiKey(agent: AgentController)
      requires config.ApiLM?
      modifies this, agent
      ensures agent.State() == AfterSaveApiKey(old(agent.State()), config, old(apiKeyInput))
      ensures apiKeyInput == "" && !isDialogOpened
    {
      agent.SetApiKey(config.spec, KeyOf(apiKeyInput));
      if agent.selectedModel.Some? && agent.selectedModel.value.modelName == config.modelName {
        agent.selectedModel := None;
      }
      apiKeyInput := "";
      isDialogOpened := false;
    }
  }

  /** The state after saving `input` as `config`'s key. */
  function AfterSaveApiKey(st: AgentState, config: LMConfig, input: string): AgentState
    requires config.ApiLM?
  {
    st.(apiKeys := st.apiKeys.With(config.spec, KeyOf(input)),
        selectedModel := if st.selectedModel.Some? && st.selectedModel.value.modelName == config.modelName then None
                         else st.selectedModel)
  }

  /** After saving, the entry is selectable iff the input was non-empty; every other
      provider's key is kept; the selection is cleared iff it named this model, whether the
      key was set or cleared. */
  lemma SaveApiKeySpec(st: AgentState, config: LMConfig, input: string)
    requires config.ApiLM?
    ensures var r := AfterSaveApiKey(st, config, input);
      && (IsSelectable(r.apiKeys, config.spec) <==> input != "")
      && (forall other :: other != config.spec ==> r.apiKeys.Get(other) == st.apiKeys.Get(other))
      && (r.selectedModel == None <==> st.selectedModel == None || st.selectedModel.value.modelName == config.modelName)
      && (r.selectedModel != None ==> r.selectedModel == st.selectedModel)
  {
  }

  // ---------------------------------------------------------------------------------------
  // Reasoning switch

  const Enable := "enable"
  const Disable := "disable"

  /** `handleReasoningToggle`: `inference.thinkEffort` set, every other option and field kept
      (an absent `inference` spreads as empty). */
  function ToggledReasoning(cfg: AgentConfig, reasoning: bool): AgentConfig {
    var others := if cfg.inference.Some? then cfg.inference.value.otherOptions else map[];
    cfg.(inference := Some(InferenceConfig(Some(if reasoning then Enable else Disable), others)))
  }

  /** The switch is checked iff `thinkEffort` is `"enable"`. */
  predicate ReasoningChecked(cfg: AgentConfig) {
    cfg.inference.Some? && cfg.inference.value.thinkEffort == Some(Enable)
  }

  /** The switch then shows what was chosen, the other fields are kept, and only the last
      toggle matters. */
  lemma ToggleRoundTrip(cfg: AgentConfig, reasoning: bool, again: bool)
    ensures ReasoningChecked(ToggledReasoning(cfg, reasoning)) == reasoning
    ensures ToggledReasoning(cfg, reasoning).otherFields == cfg.otherFields
    ensures cfg.inference.Some? ==>
      ToggledReasoning(cfg, reasoning).inference.value.otherOptions == cfg.inference.value.otherOptions
    ensures ToggledReasoning(ToggledReasoning(cfg, reasoning), again) == ToggledReasoning(cfg, again)
  {
  }

  method HandleReasoningToggle(agent: AgentController, reasoning: bool)
    modifies agent
    ensures agent.State() == old(agent.State()).(agentRunConfig := ToggledReasoning(old(agent.agentRunConfig), reasoning))
  {
    agent.agentRunConfig := ToggledReasoning(agent.agentRunConfig, reasoning);
  }
}
