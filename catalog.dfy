/**
 * The static reference data of the relay (app/config.py): the model
 * catalogue, keyed by provider and then by model id, and the role table.
 * Both are Python dicts; their insertion order is kept as sequence order.
 */
module Catalog {
  import opened Common

  datatype ModelInfo = ModelInfo(id: string, displayName: string, costPer1k: real, provider: string)

  /** One provider key of `AI_MODELS` with its models, in dict order. */
  datatype ProviderModels = ProviderModels(provider: string, models: seq<ModelInfo>)

  /** Every entry names the provider that encloses it and has a non-negative price; local models are free. */
  predicate EntriesWellFormed(p: ProviderModels) {
    && (forall k :: 0 <= k < |p.models| ==> p.models[k].provider == p.provider)
    && (forall k :: 0 <= k < |p.models| ==> p.models[k].costPer1k >= 0.0)
    && (p.provider == "ollama" ==> forall k :: 0 <= k < |p.models| ==> p.models[k].costPer1k == 0.0)
  }

  predicate WellFormedCatalog(t: seq<ProviderModels>) {
    forall i :: 0 <= i < |t| ==> EntriesWellFormed(t[i])
  }

  function ProviderNames(t: seq<ProviderModels>): (names: seq<string>)
    ensures |names| == |t|
    ensures forall i :: 0 <= i < |t| ==> names[i] == t[i].provider
  {
    seq(|t|, i requires 0 <= i < |t| => t[i].provider)
  }

  function OpenAiModels(): (m: seq<ModelInfo>)
    ensures EntriesWellFormed(ProviderModels("openai", m))
  {
    [ ModelInfo("gpt-4o", "GPT-4o", 0.005, "openai"),
      ModelInfo("gpt-4o-mini", "GPT-4o Mini", 0.0001, "openai"),
      ModelInfo("gpt-4-turbo", "GPT-4 Turbo", 0.01, "openai"),
      ModelInfo("gpt-3.5-turbo", "GPT-3.5 Turbo", 0.0005, "openai") ]
  }

  function AnthropicModels(): (m: seq<ModelInfo>)
    ensures EntriesWellFormed(ProviderModels("anthropic", m))
  {
    [ ModelInfo("claude-3-5-sonnet-20241022", "Claude 3.5 Sonnet", 0.003, "anthropic"),
      ModelInfo("claude-3-haiku-20240307", "Claude 3 Haiku", 0.00025, "anthropic"),
      ModelInfo("claude-3-opus-20240229", "Claude 3 Opus", 0.015, "anthropic") ]
  }

  function GoogleModels(): (m: seq<ModelInfo>)
    ensures EntriesWellFormed(ProviderModels("google", m))
  {
    [ ModelInfo("gemini-1.5-pro", "Gemini 1.5 Pro", 0.0035, "google"),
      ModelInfo("gemini-1.5-flash", "Gemini 1.5 Flash", 0.0001, "google") ]
  }

  function GroqModels(): (m: seq<ModelInfo>)
    ensures EntriesWellFormed(ProviderModels("groq", m))
  {
    [ ModelInfo("llama-3.1-70b-versatile", "Llama 3.1 70B", 0.0008, "groq"),
      ModelInfo("llama-3.1-8b-instant", "Llama 3.1 8B", 0.0001, "groq"),
      ModelInfo("mixtral-8x7b-32768", "Mixtral 8x7B", 0.0006, "groq") ]
  }

  function OllamaModels(): (m: seq<ModelInfo>)
    ensures EntriesWellFormed(ProviderModels("ollama", m))
  {
    [ ModelInfo("llama3", "Llama 3 (Local)", 0.0, "ollama"),
      ModelInfo("llama3.1", "Llama 3.1 (Local)", 0.0, "ollama"),
      ModelInfo("mistral", "Mistral (Local)", 0.0, "ollama"),
      ModelInfo("codellama", "Code Llama (Local)", 0.0, "ollama") ]
  }

  /** `Config.AI_MODELS`. */
  function AiModels(): (t: seq<ProviderModels>)
    ensures WellFormedCatalog(t)
    ensures ProviderNames(t) == ["openai", "anthropic", "google", "groq", "ollama"]
  {
    [ ProviderModels("openai", OpenAiModels()),
      ProviderModels("anthropic", AnthropicModels()),
      ProviderModels("google", GoogleModels()),
      ProviderModels("groq", GroqModels()),
      ProviderModels("ollama", OllamaModels()) ]
  }

  /** `t.get(provider)`: the first entry with that key. */
  function FindProvider(t: seq<ProviderModels>, provider: string): (r: Option<ProviderModels>)
    ensures r.Some? ==> r.value in t && r.value.provider == provider
    ensures r.None? <==> provider !in ProviderNames(t)
  {
    if t == [] then None
    else if t[0].provider == provider then Some(t[0])
    else FindProvider(t[1..], provider)
  }

  /** `models.get(model_id)`. */
  function FindModel(models: seq<ModelInfo>, id: string): (r: Option<ModelInfo>)
    ensures r.Some? ==> r.value in models && r.value.id == id
    ensures r.None? ==> forall k :: 0 <= k < |models| ==> models[k].id != id
  {
    if models == [] then None
    else if models[0].id == id then Some(models[0])
    else FindModel(models[1..], id)
  }

  /**
   * The service's `Config`: the model catalogue and the role table. The
   * relay reads both through this value; `DefaultConfig` holds the shipped
   * tables.
   */
  datatype Config = Config(aiModels: seq<ProviderModels>, userRoles: seq<RoleInfo>)

  /** The shape every configuration the service ships with has. */
  predicate ValidConfig(cfg: Config) {
    && WellFormedCatalog(cfg.aiModels)
    && (forall i :: 0 <= i < |cfg.userRoles| ==> cfg.userRoles[i].maxBudget >= 0.0)
  }

  /** `provider in AI_MODELS`. */
  predicate IsProvider(cfg: Config, provider: string) {
    provider in ProviderNames(cfg.aiModels)
  }

  /** `AI_MODELS[provider][model]` when both keys exist. */
  function Lookup(cfg: Config, provider: string, model: string): (r: Option<ModelInfo>)
    ensures r.Some? ==> IsProvider(cfg, provider) && r.value.id == model
    ensures r.Some? && ValidConfig(cfg) ==> r.value.provider == provider
    ensures r.None? ==> !IsProvider(cfg, provider) || forall k :: 0 <= k < |FindProvider(cfg.aiModels, provider).value.models| ==>
      FindProvider(cfg.aiModels, provider).value.models[k].id != model
    ensures r.Some? && ValidConfig(cfg) ==> r.value.costPer1k >= 0.0
    ensures r.Some? && ValidConfig(cfg) && provider == "ollama" ==> r.value.costPer1k == 0.0
  {
    match FindProvider(cfg.aiModels, provider)
    case None => None
    case Some(p) =>
      assert ValidConfig(cfg) ==> EntriesWellFormed(p);
      var m := FindModel(p.models, model);
      assert m.Some? && ValidConfig(cfg) ==> m.value.provider == provider;
      m
  }

  /** The price of `tokens` tokens at `costPer1k` per thousand. */
  function Charge(tokens: int, costPer1k: real): (r: real)
    ensures tokens >= 0 && costPer1k >= 0.0 ==> r >= 0.0
    ensures costPer1k == 0.0 ==> r == 0.0
  {
    ProductNonNegative(tokens as real / 1000.0, costPer1k);
    (tokens as real / 1000.0) * costPer1k
  }

  lemma ProductNonNegative(x: real, y: real)
    ensures x >= 0.0 && y >= 0.0 ==> x * y >= 0.0
  {
  }

  /** Charges are additive in the number of tokens. */
  lemma {:induction false} ChargeAdditive(a: int, b: int, c: real)
    ensures Charge(a + b, c) == Charge(a, c) + Charge(b, c)
  {
    var x, y := a as real / 1000.0, b as real / 1000.0;
    assert (a + b) as real / 1000.0 == x + y;
    assert (x + y) * c == x * c + y * c;
  }

  /** More tokens never cost less at a non-negative price. */
  lemma {:induction false} ChargeMonotone(a: int, b: int, c: real)
    requires a <= b && c >= 0.0
    ensures Charge(a, c) <= Charge(b, c)
  {
    ChargeAdditive(a, b - a, c);
    assert a + (b - a) == b;
  }

  /**
   * `AIService.calculate_cost`: `tokens / 1000 * cost_per_1k_tokens` for a
   * catalogued model, and 0 for any provider or model the catalogue lacks.
   */
  function CalculateCost(cfg: Config, model: string, provider: string, tokens: int): (r: real)
    ensures Lookup(cfg, provider, model).None? ==> r == 0.0
    ensures Lookup(cfg, provider, model).Some? ==> r == Charge(tokens, Lookup(cfg, provider, model).value.costPer1k)
    ensures ValidConfig(cfg) && tokens >= 0 ==> r >= 0.0
    ensures ValidConfig(cfg) && provider == "ollama" ==> r == 0.0
  {
    match Lookup(cfg, provider, model)
    case None => 0.0
    case Some(info) => Charge(tokens, info.costPer1k)
  }

  /** The cost of a request is the sum of the costs of its input and output tokens. */
  lemma CostAdditive(cfg: Config, model: string, provider: string, a: int, b: int)
    ensures CalculateCost(cfg, model, provider, a + b) == CalculateCost(cfg, model, provider, a) + CalculateCost(cfg, model, provider, b)
  {
    if Lookup(cfg, provider, model).Some? {
      ChargeAdditive(a, b, Lookup(cfg, provider, model).value.costPer1k);
    }
  }

  /** More tokens never cost less. */
  lemma CostMonotone(cfg: Config, model: string, provider: string, a: int, b: int)
    requires ValidConfig(cfg) && a <= b
    ensures CalculateCost(cfg, model, provider, a) <= CalculateCost(cfg, model, provider, b)
  {
    if Lookup(cfg, provider, model).Some? {
      ChargeMonotone(a, b, Lookup(cfg, provider, model).value.costPer1k);
    }
  }

  /** One entry of `Config.USER_ROLES`. */
  datatype RoleInfo = RoleInfo(
    name: string,
    canManageUsers: bool,
    canViewAllChats: bool,
    canSetBudgets: bool,
    canAccessAdminPanel: bool,
    defaultModels: seq<string>,
    maxBudget: real)

  /**
   * `Config.USER_ROLES`, given the provider keys of `AI_MODELS`: the admin's
   * `default_models` is `list(AI_MODELS.keys())`.
   */
  function UserRoles(providers: seq<string>): (roles: seq<RoleInfo>)
    ensures |roles| == 4
    ensures roles[0].name == "admin" && roles[0].defaultModels == providers
    ensures forall i :: 0 <= i < |roles| ==> roles[i].maxBudget >= 0.0
  {
    [ RoleInfo("admin", true, true, true, true, providers, 1000.0),
      RoleInfo("premium", false, false, false, false, ["openai", "anthropic", "google", "ollama"], 100.0),
      RoleInfo("standard", false, false, false, false, ["openai", "ollama"], 20.0),
      RoleInfo("basic", false, false, false, false, ["ollama"], 0.0)
    ]
  }

  /** The tables of app/config.py; every role's default models are catalogued providers. */
  function DefaultConfig(): (cfg: Config)
    ensures ValidConfig(cfg)
    ensures ProviderNames(cfg.aiModels) == ["openai", "anthropic", "google", "groq", "ollama"]
    ensures forall i :: 0 <= i < |cfg.userRoles| ==>
      forall m :: m in cfg.userRoles[i].defaultModels ==> m in ProviderNames(cfg.aiModels)
  {
    var models := AiModels();
    Config(models, UserRoles(ProviderNames(models)))
  }

  function FindRole(roles: seq<RoleInfo>, name: string): (r: Option<RoleInfo>)
    ensures r.Some? ==> r.value in roles && r.value.name == name
    ensures r.None? ==> forall i :: 0 <= i < |roles| ==> roles[i].name != name
  {
    if roles == [] then None
    else if roles[0].name == name then Some(roles[0])
    else FindRole(roles[1..], name)
  }

  /** `name in USER_ROLES`. */
  predicate IsRole(cfg: Config, name: string) {
    FindRole(cfg.userRoles, name).Some?
  }

  /** `USER_ROLES.get(role, {}).get('max_budget', 1000.0)`. */
  function MaxBudgetFor(cfg: Config, role: string): (b: real)
    ensures ValidConfig(cfg) ==> b >= 0.0
    ensures !IsRole(cfg, role) ==> b == 1000.0
    ensures IsRole(cfg, role) ==> b == FindRole(cfg.userRoles, role).value.maxBudget
  {
    match FindRole(cfg.userRoles, role)
    case None => 1000.0
    case Some(r) =>
      assert r in cfg.userRoles;
      r.maxBudget
  }

  /** The budget ceilings of the four shipped roles, whatever the catalogue holds. */
  lemma RoleBudgets(aiModels: seq<ProviderModels>)
    ensures var cfg := Config(aiModels, UserRoles(ProviderNames(aiModels)));
      && MaxBudgetFor(cfg, "admin") == 1000.0 && MaxBudgetFor(cfg, "premium") == 100.0
      && MaxBudgetFor(cfg, "standard") == 20.0 && MaxBudgetFor(cfg, "basic") == 0.0
      && IsRole(cfg, "admin") && IsRole(cfg, "premium") && IsRole(cfg, "standard") && IsRole(cfg, "basic")
  {
    var cfg := Config(aiModels, UserRoles(ProviderNames(aiModels)));
    RoleAt(cfg, 0);
    RoleAt(cfg, 1);
    RoleAt(cfg, 2);
    RoleAt(cfg, 3);
  }

  /** A role named by no earlier entry is a role, with that entry's ceiling. */
  lemma RoleAt(cfg: Config, k: nat)
    requires k < |cfg.userRoles|
    requires forall j :: 0 <= j < k ==> cfg.userRoles[j].name != cfg.userRoles[k].name
    ensures IsRole(cfg, cfg.userRoles[k].name)
    ensures MaxBudgetFor(cfg, cfg.userRoles[k].name) == cfg.userRoles[k].maxBudget
  {
    FindRoleAt(cfg.userRoles, k);
  }

  /** A lookup by name finds the entry whose name no earlier entry has. */
  lemma {:induction false} FindRoleAt(roles: seq<RoleInfo>, k: nat)
    requires k < |roles|
    requires forall j :: 0 <= j < k ==> roles[j].name != roles[k].name
    ensures FindRole(roles, roles[k].name) == Some(roles[k])
  {
    if k > 0 {
      FindRoleAt(roles[1..], k - 1);
    }
  }

  /** With the shipped tables, a local model is free whatever the token count. */
  lemma OllamaIsFree(model: string, tokens: int)
    ensures CalculateCost(DefaultConfig(), model, "ollama", tokens) == 0.0
  {
  }
}
