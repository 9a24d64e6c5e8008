/** The agent command builders of `src/agents`: the factory's dispatch on the
    agent name, the base builder that pairs core arguments with environment
    variables, and the five builders whose source is part of this model
    (Claude, Codex, Kimi, Copilot, Vibe). The host environment is a parameter;
    the builders of the other agents are one parameter function. */
module Agents {
  import opened Wrappers
  import opened Strings
  import opened Env
  import opened Types

  /** `AgentConfig`: what every builder is constructed with. */
  datatype AgentConfig = AgentConfig(
    model: string,
    provider: Option<string>,
    containerName: string,
    agentScriptPath: string,
    useDocker: Option<bool>)

  /** One builder class per agent. `Kimi` has a builder the factory never creates. */
  datatype AgentKind =
    | Claude | Goose | Aider | Codex | Copilot | Gemini | OpenCode | Qwen | Cursor | Vibe | Kimi

  datatype Builder = Builder(kind: AgentKind, config: AgentConfig)

  /** The name the factory dispatches on, for each dispatched agent. */
  function KindName(kind: AgentKind): (r: string)
    requires kind != Kimi
  {
    match kind
    case Claude => "claude"
    case Goose => "goose"
    case Aider => "aider"
    case Codex => "codex"
    case Copilot => "copilot"
    case Gemini => "gemini"
    case OpenCode => "opencode"
    case Qwen => "qwen"
    case Cursor => "cursor"
    case Vibe => "vibe"
  }

  /** `AgentFactory.create`: the builder for a known agent name, configured
      from the run configuration; any other name throws. */
  function Create(config: BenchmarkConfig, containerName: string, agentScriptPath: string): (r: Result<Builder>)
    ensures r.Ok? ==> r.value.kind != Kimi && KindName(r.value.kind) == config.agent
    ensures r.Ok? ==> r.value.config == AgentConfig(config.model, config.provider, containerName,
      agentScriptPath, config.useDocker)
    ensures r.Err? ==> r.message == "Unknown agent: " + config.agent
  {
    var agentConfig := AgentConfig(config.model, config.provider, containerName, agentScriptPath, config.useDocker);
    match config.agent
    case "claude" => Ok(Builder(Claude, agentConfig))
    case "goose" => Ok(Builder(Goose, agentConfig))
    case "aider" => Ok(Builder(Aider, agentConfig))
    case "codex" => Ok(Builder(Codex, agentConfig))
    case "copilot" => Ok(Builder(Copilot, agentConfig))
    case "gemini" => Ok(Builder(Gemini, agentConfig))
    case "opencode" => Ok(Builder(OpenCode, agentConfig))
    case "qwen" => Ok(Builder(Qwen, agentConfig))
    case "cursor" => Ok(Builder(Cursor, agentConfig))
    case "vibe" => Ok(Builder(Vibe, agentConfig))
    case _ => Err("Unknown agent: " + config.agent)
  }

  /** Every dispatched agent's name creates its own builder. */
  lemma CreateKnown(config: BenchmarkConfig, containerName: string, agentScriptPath: string, kind: AgentKind)
    requires kind != Kimi && config.agent == KindName(kind)
    ensures Create(config, containerName, agentScriptPath).Ok?
    ensures Create(config, containerName, agentScriptPath).value.kind == kind
  {
  }

  /** `kimi` is not dispatched, although its builder exists. */
  lemma KimiNotDispatched(config: BenchmarkConfig, containerName: string, agentScriptPath: string)
    requires config.agent == "kimi"
    ensures Create(config, containerName, agentScriptPath) == Err("Unknown agent: kimi")
  {
  }

  /** `requireEnv(name, message)` as this model reads it: the variable's value
      when it is set and non-empty, else an error with the message. */
  function RequireEnv(host: Env, name: string, message: string): (r: Result<string>)
    ensures r.Ok? <==> Truthy(Lookup(host, name))
    ensures r.Ok? ==> r.value == Lookup(host, name).value
    ensures r.Err? ==> r.message == message
  {
    if Truthy(Lookup(host, name)) then Ok(Lookup(host, name).value) else Err(message)
  }

  /** `names[i]` is the first name whose variable is set and non-empty, and it holds `value`. */
  predicate FirstTruthyAt(host: Env, names: seq<string>, i: nat, value: string) {
    && i < |names| && Lookup(host, names[i]) == Some(value) && Truthy(Lookup(host, names[i]))
    && forall j :: 0 <= j < i ==> !Truthy(Lookup(host, names[j]))
  }

  /** `requireAnyEnv(names, message).value`: the first set, non-empty variable. */
  function RequireAnyEnv(host: Env, names: seq<string>, message: string): (r: Result<string>)
    ensures r.Ok? <==> exists i :: 0 <= i < |names| && Truthy(Lookup(host, names[i]))
    ensures r.Ok? ==> exists i :: FirstTruthyAt(host, names, i, r.value)
    ensures r.Err? ==> r.message == message
    decreases |names|
  {
    if |names| == 0 then Err(message)
    else if Truthy(Lookup(host, names[0])) then
      assert FirstTruthyAt(host, names, 0, Lookup(host, names[0]).value);
      Ok(Lookup(host, names[0]).value)
    else
      var r := RequireAnyEnv(host, names[1..], message);
      assert forall i :: 1 <= i < |names| ==> names[i] == names[1..][i - 1];
      FirstTruthyStep(host, names, r);
      r
  }

  /** A first truthy name of the tail, behind a falsy head, is the first of the whole list. */
  lemma FirstTruthyStep(host: Env, names: seq<string>, r: Result<string>)
    requires |names| > 0 && !Truthy(Lookup(host, names[0]))
    requires r.Ok? ==> exists i :: FirstTruthyAt(host, names[1..], i, r.value)
    ensures r.Ok? ==> exists i :: FirstTruthyAt(host, names, i, r.value)
  {
    if r.Ok? {
      var i: nat :| FirstTruthyAt(host, names[1..], i, r.value);
      assert forall j :: 1 <= j < i + 1 ==> names[j] == names[1..][j - 1];
      assert names[i + 1] == names[1..][i];
      assert FirstTruthyAt(host, names, i + 1, r.value);
    }
  }

  // ---- Claude ----

  const ClaudeKeyName := "ANTHROPIC_API_KEY"
  const ClaudeTokenName := "ANTHROPIC_AUTH_TOKEN"
  const ClaudeUrlName := "ANTHROPIC_BASE_URL"

  /** The Claude provider's credential, token and endpoint, in that order. */
  function ProxyEnv(key: string, token: string, url: string): (r: Env)
    ensures Lookup(r, ClaudeKeyName) == Some(key) && Lookup(r, ClaudeTokenName) == Some(token)
    ensures Lookup(r, ClaudeUrlName) == Some(url) && |r| == 3
  {
    var r := [(ClaudeKeyName, key), (ClaudeTokenName, token), (ClaudeUrlName, url)];
    assert |ClaudeKeyName| != |ClaudeUrlName| && |ClaudeTokenName| != |ClaudeUrlName|;
    assert Lookup(r[2..], ClaudeUrlName) == Some(url);
    assert Lookup(r[1..], ClaudeUrlName) == Some(url);
    r
  }

  /** The providers whose own key becomes both the API key and the auth token. */
  predicate KeyProvider(provider: string) {
    provider == "dashscope" || provider == "deepseek" || provider == "moonshot" || provider == "zai"
  }

  function ProviderKeyName(provider: string): string
    requires KeyProvider(provider)
  {
    match provider
    case "dashscope" => "DASHSCOPE_API_KEY"
    case "deepseek" => "DEEPSEEK_API_KEY"
    case "moonshot" => "MOONSHOT_API_KEY"
    case _ => "ZAI_API_KEY"
  }

  function ProviderLabel(provider: string): string
    requires KeyProvider(provider)
  {
    match provider
    case "dashscope" => "DashScope"
    case "deepseek" => "DeepSeek"
    case "moonshot" => "Moonshot"
    case _ => "ZAI"
  }

  /** The endpoint of a key provider: DashScope's may be overridden by the host. */
  function ProviderUrl(host: Env, provider: string): string
    requires KeyProvider(provider)
  {
    match provider
    case "dashscope" => GetOr(host, ClaudeUrlName, "https://dashscope-intl.aliyuncs.com/api/v2/apps/claude-code-proxy")
    case "deepseek" => "https://api.deepseek.com/anthropic"
    case "moonshot" => "https://api.moonshot.ai/anthropic"
    case _ => "https://api.z.ai/api/anthropic"
  }

  /** The Claude builder's environment, by provider (default `anthropic`). */
  function ClaudeEnv(config: AgentConfig, host: Env): (r: Result<Env>)
    ensures var p := config.provider.GetOr("anthropic");
      KeyProvider(p) ==>
        (r.Ok? <==> Truthy(Lookup(host, ProviderKeyName(p))))
        && (r.Ok? ==> r.value == ProxyEnv(Lookup(host, ProviderKeyName(p)).value,
                                          Lookup(host, ProviderKeyName(p)).value, ProviderUrl(host, p)))
    ensures var p := config.provider.GetOr("anthropic");
      p == "openrouter" ==>
        (r.Ok? <==> Truthy(Lookup(host, "OPENROUTER_API_KEY")))
        && (r.Ok? ==> r.value == ProxyEnv("", Lookup(host, "OPENROUTER_API_KEY").value,
                                          GetOr(host, ClaudeUrlName, "https://openrouter.ai/api")))
    ensures var p := config.provider.GetOr("anthropic");
      !KeyProvider(p) && p != "openrouter" ==> r.Ok? && DefaultClaudeEnv(host, r.value)
  {
    var p := config.provider.GetOr("anthropic");
    if KeyProvider(p) then
      var value :- RequireEnv(host, ProviderKeyName(p),
        "Missing " + ProviderKeyName(p) + " for Claude (" + ProviderLabel(p) + ") provider");
      Ok(ProxyEnv(value, value, ProviderUrl(host, p)))
    else if p == "openrouter" then
      var value :- RequireEnv(host, "OPENROUTER_API_KEY", "Missing OPENROUTER_API_KEY for Claude (OpenRouter) provider");
      Ok(ProxyEnv("", value, GetOr(host, ClaudeUrlName, "https://openrouter.ai/api")))
    else
      var apiKey := OrElse(Lookup(host, ClaudeKeyName), OrElse(Lookup(host, "DASHSCOPE_API_KEY"), ""));
      Ok(if apiKey != "" then [(ClaudeKeyName, apiKey)] else [])
  }

  /** Without a proxy provider the only variable is `ANTHROPIC_API_KEY`, set
      iff the host has a non-empty `ANTHROPIC_API_KEY` or `DASHSCOPE_API_KEY`,
      the former preferred. */
  predicate DefaultClaudeEnv(host: Env, env: Env) {
    && (Truthy(Lookup(host, ClaudeKeyName)) ==> env == [(ClaudeKeyName, Lookup(host, ClaudeKeyName).value)])
    && (!Truthy(Lookup(host, ClaudeKeyName)) && Truthy(Lookup(host, "DASHSCOPE_API_KEY")) ==>
          env == [(ClaudeKeyName, Lookup(host, "DASHSCOPE_API_KEY").value)])
    && (!Truthy(Lookup(host, ClaudeKeyName)) && !Truthy(Lookup(host, "DASHSCOPE_API_KEY")) ==> env == [])
  }

  function ClaudeArgs(config: AgentConfig, instructions: string): (r: seq<string>)
    ensures |r| == 10 && r[..3] == ["bash", config.agentScriptPath, "claude"]
    ensures r[6] == "--model" && r[7] == config.model && r[8..] == ["-p", instructions]
  {
    ["bash", config.agentScriptPath, "claude", "--debug", "--verbose", "--dangerously-skip-permissions",
     "--model", config.model, "-p", instructions]
  }

  // ---- Codex ----

  /** The Codex builder's environment, by provider (default `openai`). */
  function CodexEnv(config: AgentConfig, host: Env): (r: Result<Env>)
    ensures var p := config.provider.GetOr("openai");
      p == "openrouter" ==>
        (r.Ok? <==> Truthy(Lookup(host, "OPENROUTER_API_KEY")))
        && (r.Ok? ==> r.value == [("OPENROUTER_API_KEY", Lookup(host, "OPENROUTER_API_KEY").value)])
    ensures var p := config.provider.GetOr("openai");
      p == "openai" ==>
        (r.Ok? <==> Truthy(Lookup(host, "CODEX_API_KEY")) || Truthy(Lookup(host, "OPENAI_API_KEY")))
        && (r.Ok? ==> (|r.value| == 1 && r.value[0].0 == "CODEX_API_KEY"))
        && (r.Ok? && Truthy(Lookup(host, "CODEX_API_KEY")) ==> r.value[0].1 == Lookup(host, "CODEX_API_KEY").value)
        && (r.Ok? && !Truthy(Lookup(host, "CODEX_API_KEY")) ==> r.value[0].1 == Lookup(host, "OPENAI_API_KEY").value)
    ensures var p := config.provider.GetOr("openai");
      p != "openrouter" && p != "openai" ==> r == Err("Unsupported provider for Codex: " + p)
  {
    var p := config.provider.GetOr("openai");
    if p == "openrouter" then
      var value :- RequireEnv(host, "OPENROUTER_API_KEY", "Missing OPENROUTER_API_KEY for Codex (OpenRouter) provider");
      Ok([("OPENROUTER_API_KEY", value)])
    else if p == "openai" then
      var names := ["CODEX_API_KEY", "OPENAI_API_KEY"];
      var value :- RequireAnyEnv(host, names, "Missing CODEX_API_KEY or OPENAI_API_KEY for Codex (OpenAI) provider");
      var i: nat :| FirstTruthyAt(host, names, i, value);
      assert i == 0 || names[0] == "CODEX_API_KEY";
      Ok([("CODEX_API_KEY", value)])
    else Err("Unsupported provider for Codex: " + p)
  }

  /** The arguments name the provider with `||`, so an empty provider reads
      as `openai` here although the environment rejects it. */
  function CodexArgs(config: AgentConfig, instructions: string): (r: seq<string>)
    ensures |r| == 13 && r[..4] == ["bash", config.agentScriptPath, "codex", "exec"]
    ensures r[4..8] == ["-c", "model_reasoning_effort=high", "-c", "model_provider=" + OrElse(config.provider, "openai")]
    ensures r[8..12] == ["--yolo", "--skip-git-repo-check", "-m", config.model] && r[12] == instructions
  {
    ["bash", config.agentScriptPath, "codex", "exec",
     "-c", "model_reasoning_effort=high", "-c", "model_provider=" + OrElse(config.provider, "openai"),
     "--yolo", "--skip-git-repo-check", "-m", config.model, instructions]
  }

  /** With an empty provider string the Codex command cannot be built, though
      its arguments would say `openai`. */
  lemma CodexEmptyProvider(config: AgentConfig, host: Env, instructions: string)
    requires config.provider == Some("")
    ensures CodexEnv(config, host) == Err("Unsupported provider for Codex: ")
    ensures CodexArgs(config, instructions)[7] == "model_provider=openai"
  {
  }

  // ---- Kimi ----

  /** The configuration object passed to Kimi as JSON. */
  datatype KimiConfig = KimiConfig(
    defaultModel: string,
    providerType: string,
    baseUrl: string,
    apiKey: string,
    modelProvider: string,
    model: string,
    maxContextSize: nat)

  const KimiMaxContext: nat := 262144

  function KimiEnv(config: AgentConfig, host: Env): (r: Result<Env>)
    ensures config.provider.GetOr("moonshot") != "moonshot" ==>
      r == Err("Unsupported provider for Kimi: " + config.provider.GetOr("moonshot"))
    ensures config.provider.GetOr("moonshot") == "moonshot" ==>
      (r.Ok? <==> Truthy(Lookup(host, "KIMI_API_KEY")))
      && (r.Ok? ==> r.value == [("KIMI_API_KEY", Lookup(host, "KIMI_API_KEY").value)])
  {
    var p := config.provider.GetOr("moonshot");
    if p != "moonshot" then Err("Unsupported provider for Kimi: " + p)
    else
      var key :- RequireEnv(host, "KIMI_API_KEY", "Missing KIMI_API_KEY for Kimi (Moonshot) provider");
      Ok([("KIMI_API_KEY", key)])
  }

  function KimiConfigFor(model: string, host: Env): (r: KimiConfig)
    ensures r.defaultModel == model && r.model == model && r.maxContextSize == KimiMaxContext
    ensures r.baseUrl == GetOr(host, "KIMI_BASE_URL", "https://api.moonshot.ai/v1")
  {
    KimiConfig(model, "kimi", GetOr(host, "KIMI_BASE_URL", "https://api.moonshot.ai/v1"), "env", "moonshot", model,
      KimiMaxContext)
  }

  /** `json` stands for `JSON.stringify`. */
  function KimiArgs(config: AgentConfig, instructions: string, host: Env, json: KimiConfig -> string): (r: seq<string>)
    ensures |r| == 12
    ensures r[..7] == ["bash", config.agentScriptPath, "kimi", "--print", "--output-format", "text", "--config"]
    ensures r[7] == json(KimiConfigFor(config.model, host))
    ensures r[8..] == ["--model", config.model, "-p", instructions]
  {
    ["bash", config.agentScriptPath, "kimi", "--print", "--output-format", "text", "--config",
     json(KimiConfigFor(config.model, host)), "--model", config.model, "-p", instructions]
  }

  // ---- Copilot ----

  /** Never fails: `COPILOT_ALLOW_ALL=1`, and `COPILOT_MODEL` iff a model is set. */
  function CopilotEnv(config: AgentConfig): (r: Env)
    ensures Lookup(r, "COPILOT_ALLOW_ALL") == Some("1")
    ensures Lookup(r, "COPILOT_MODEL").Some? <==> config.model != ""
    ensures config.model != "" ==> Lookup(r, "COPILOT_MODEL") == Some(config.model)
  {
    [("COPILOT_ALLOW_ALL", "1")] + (if config.model != "" then [("COPILOT_MODEL", config.model)] else [])
  }

  function CopilotArgs(config: AgentConfig, instructions: string): (r: seq<string>)
    ensures |r| == 9 && r[..3] == ["bash", config.agentScriptPath, "copilot"] && r[8] == instructions
  {
    ["bash", config.agentScriptPath, "copilot", "--allow-all-tools", "--no-color", "--add-dir", ".", "-p", instructions]
  }

  // ---- Vibe ----

  function VibeEnv(host: Env): (r: Result<Env>)
    ensures r.Ok? <==> Truthy(Lookup(host, "MISTRAL_API_KEY"))
    ensures r.Ok? ==> r.value == [("MISTRAL_API_KEY", Lookup(host, "MISTRAL_API_KEY").value)]
    ensures r.Err? ==> r.message == "MISTRAL_API_KEY is required for Mistral Vibe agent"
  {
    var key :- RequireEnv(host, "MISTRAL_API_KEY", "MISTRAL_API_KEY is required for Mistral Vibe agent");
    Ok([("MISTRAL_API_KEY", key)])
  }

  /** The instructions are the fifth of six arguments; `--auto-approve` is last. */
  function VibeArgs(config: AgentConfig, instructions: string): (r: seq<string>)
    ensures |r| == 6 && r[..3] == ["bash", config.agentScriptPath, "vibe"]
    ensures r[3] == "--prompt" && r[4] == instructions && r[5] == "--auto-approve"
  {
    ["bash", config.agentScriptPath, "vibe", "--prompt", instructions, "--auto-approve"]
  }

  // ---- The base builder ----

  /** The builders whose source is not part of this model. */
  type OtherBuilders = (Builder, string, Option<TaskFiles>, Env) -> Result<Command>

  predicate Shown(kind: AgentKind) {
    kind == Claude || kind == Codex || kind == Kimi || kind == Copilot || kind == Vibe
  }

  /** `getCoreArgs` of a shown builder. */
  function CoreArgs(b: Builder, instructions: string, host: Env, json: KimiConfig -> string): seq<string>
    requires Shown(b.kind)
  {
    match b.kind
    case Claude => ClaudeArgs(b.config, instructions)
    case Codex => CodexArgs(b.config, instructions)
    case Kimi => KimiArgs(b.config, instructions, host, json)
    case Copilot => CopilotArgs(b.config, instructions)
    case Vibe => VibeArgs(b.config, instructions)
  }

  /** `getEnvironmentVariables` of a shown builder. */
  function EnvironmentVariables(b: Builder, host: Env): Result<Env>
    requires Shown(b.kind)
  {
    match b.kind
    case Claude => ClaudeEnv(b.config, host)
    case Codex => CodexEnv(b.config, host)
    case Kimi => KimiEnv(b.config, host)
    case Copilot => Ok(CopilotEnv(b.config))
    case Vibe => VibeEnv(host)
  }

  /** `buildCommand`: the core arguments and the environment, neither merged
      nor filtered; an error from the environment propagates. */
  function BuildCommand(b: Builder, instructions: string, fileList: Option<TaskFiles>, host: Env,
                        json: KimiConfig -> string, others: OtherBuilders): (r: Result<Command>)
    ensures !Shown(b.kind) ==> r == others(b, instructions, fileList, host)
    ensures Shown(b.kind) ==> (r.Ok? <==> EnvironmentVariables(b, host).Ok?)
    ensures Shown(b.kind) && r.Ok? ==>
      r.value.args == CoreArgs(b, instructions, host, json)
      && r.value.env == Some(EnvironmentVariables(b, host).value)
    ensures Shown(b.kind) && r.Err? ==> r.message == EnvironmentVariables(b, host).message
  {
    if !Shown(b.kind) then others(b, instructions, fileList, host)
    else
      var args := CoreArgs(b, instructions, host, json);
      var env :- EnvironmentVariables(b, host);
      Ok(Command(args, Some(env)))
  }

  /** Every shown builder's arguments run the agent script through `bash` and
      carry the instructions. */
  lemma CoreArgsRunScript(b: Builder, instructions: string, host: Env, json: KimiConfig -> string)
    requires Shown(b.kind)
    ensures var args := CoreArgs(b, instructions, host, json);
      |args| >= 6 && args[0] == "bash" && args[1] == b.config.agentScriptPath && instructions in args
  {
    var args := CoreArgs(b, instructions, host, json);
    match b.kind
    case Claude => assert args[9] == instructions;
    case Codex => assert args[12] == instructions;
    case Kimi => assert args[11] == instructions;
    case Copilot => assert args[8] == instructions;
    case Vibe => assert args[4] == instructions;
  }

  /** Every command a shown builder returns runs the agent script through
      `bash` and carries the instructions. */
  lemma ShownBuildersRunScript(b: Builder, instructions: string, fileList: Option<TaskFiles>, host: Env,
                               json: KimiConfig -> string, others: OtherBuilders)
    requires Shown(b.kind)
    requires BuildCommand(b, instructions, fileList, host, json, others).Ok?
    ensures var args := BuildCommand(b, instructions, fileList, host, json, others).value.args;
      |args| >= 6 && args[0] == "bash" && args[1] == b.config.agentScriptPath && instructions in args
  {
    CoreArgsRunScript(b, instructions, host, json);
  }

  /** The Vibe command ignores the configured model. */
  lemma VibeIgnoresModel(b: Builder, model: string, instructions: string, fileList: Option<TaskFiles>, host: Env,
                         json: KimiConfig -> string, others: OtherBuilders)
    requires b.kind == Vibe
    ensures BuildCommand(b, instructions, fileList, host, json, others)
      == BuildCommand(b.(config := b.config.(model := model)), instructions, fileList, host, json, others)
  {
  }
}
