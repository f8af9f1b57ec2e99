/**
 * The administrator's update rules (app/controllers/admin.py): bounded
 * field updates of a user, the usage percentage shown beside each user,
 * the page-size cap and the monthly reset of every user's usage. The
 * analytics folds of the same file are in module Tally.
 */
module Admin {
  import opened Common
  import opened Text
  import opened Catalog
  import opened Accounts

  /** `allowed_models` as sent: a JSON list, or any other JSON value. */
  datatype AllowedInput = AList(models: seq<string>) | NotAList

  /** The body of `PUT /admin/api/users/<id>`; absent keys are `None`. */
  datatype UserUpdate = UserUpdate(
    role: Option<string>,
    monthlyBudget: Option<real>,
    isActive: Option<bool>,
    allowedModels: Option<AllowedInput>,
    maxTokensPerRequest: Option<int>,
    systemPrompt: Option<string>,
    guardrailsEnabled: Option<bool>)

  /**
   * The rules of `api_update_user`, in their order: a role is taken only
   * when it is a known role; a budget only when it lies in [0, the cap of
   * the role the user has after that]; then the remaining fields.
   */
  twostate predicate Updated(cfg: Config, user: User, upd: UserUpdate)
    reads user
  {
    && (upd.role.Some? && IsRole(cfg, upd.role.value) ==> user.role == upd.role.value)
    && (!(upd.role.Some? && IsRole(cfg, upd.role.value)) ==> user.role == old(user.role))
    && (upd.monthlyBudget.Some? && 0.0 <= upd.monthlyBudget.value <= MaxBudgetFor(cfg, user.role) ==>
        user.monthlyBudget == upd.monthlyBudget.value)
    && (!(upd.monthlyBudget.Some? && 0.0 <= upd.monthlyBudget.value <= MaxBudgetFor(cfg, user.role)) ==>
        user.monthlyBudget == old(user.monthlyBudget))
    && (user.monthlyBudget != old(user.monthlyBudget) ==> 0.0 <= user.monthlyBudget <= MaxBudgetFor(cfg, user.role))
    && user.isActive == upd.isActive.GetOr(old(user.isActive))
    && (upd.allowedModels.Some? && upd.allowedModels.value.AList? ==>
        user.GetAllowedModels() == upd.allowedModels.value.models)
    && (!(upd.allowedModels.Some? && upd.allowedModels.value.AList?) ==> user.allowedModels == old(user.allowedModels))
    && (upd.maxTokensPerRequest.Some? && 100 <= upd.maxTokensPerRequest.value <= 8000 ==>
        user.maxTokensPerRequest == upd.maxTokensPerRequest.value)
    && (!(upd.maxTokensPerRequest.Some? && 100 <= upd.maxTokensPerRequest.value <= 8000) ==>
        user.maxTokensPerRequest == old(user.maxTokensPerRequest))
    && (upd.systemPrompt.Some? ==>
        && |user.systemPrompt| <= 2000 && |user.systemPrompt| <= |upd.systemPrompt.value|
        && user.systemPrompt == upd.systemPrompt.value[..|user.systemPrompt|]
        && (|upd.systemPrompt.value| <= 2000 ==> user.systemPrompt == upd.systemPrompt.value)
        && (|upd.systemPrompt.value| > 2000 ==> |user.systemPrompt| == 2000))
    && (upd.systemPrompt.None? ==> user.systemPrompt == old(user.systemPrompt))
    && user.guardrailsEnabled == upd.guardrailsEnabled.GetOr(old(user.guardrailsEnabled))
  }

  /** The rules above applied to one user; nothing else of the user changes. */
  method ApplyUserUpdate(cfg: Config, user: User, upd: UserUpdate)
    modifies user`role, user`monthlyBudget, user`isActive, user`allowedModels,
             user`maxTokensPerRequest, user`systemPrompt, user`guardrailsEnabled
    ensures Updated(cfg, user, upd)
  {
    ApplyRoleAndBudget(cfg, user, upd.role, upd.monthlyBudget);
    ApplySettings(user, upd);
  }

  /** The role first, then a budget checked against the cap of the resulting role. */
  method ApplyRoleAndBudget(cfg: Config, user: User, role: Option<string>, budget: Option<real>)
    modifies user`role, user`monthlyBudget
    ensures role.Some? && IsRole(cfg, role.value) ==> user.role == role.value
    ensures !(role.Some? && IsRole(cfg, role.value)) ==> user.role == old(user.role)
    ensures budget.Some? && 0.0 <= budget.value <= MaxBudgetFor(cfg, user.role) ==> user.monthlyBudget == budget.value
    ensures !(budget.Some? && 0.0 <= budget.value <= MaxBudgetFor(cfg, user.role)) ==>
      user.monthlyBudget == old(user.monthlyBudget)
  {
    if role.Some? && IsRole(cfg, role.value) {
      user.role := role.value;
    }
    if budget.Some? {
      var b := budget.value;
      var maxBudget := MaxBudgetFor(cfg, user.role);
      if 0.0 <= b <= maxBudget {
        user.monthlyBudget := b;
      }
    }
  }

  /**
   * The other fields: the active flag as given, an allow-list only when it
   * is a list, a token limit only in [100, 8000], a system prompt cut to
   * 2000 characters, the guardrails flag as given.
   */
  method ApplySettings(user: User, upd: UserUpdate)
    modifies user`isActive, user`allowedModels, user`maxTokensPerRequest, user`systemPrompt, user`guardrailsEnabled
    ensures user.isActive == upd.isActive.GetOr(old(user.isActive))
    ensures upd.allowedModels.Some? && upd.allowedModels.value.AList? ==>
      user.GetAllowedModels() == upd.allowedModels.value.models
    ensures !(upd.allowedModels.Some? && upd.allowedModels.value.AList?) ==> user.allowedModels == old(user.allowedModels)
    ensures upd.maxTokensPerRequest.Some? && 100 <= upd.maxTokensPerRequest.value <= 8000 ==>
      user.maxTokensPerRequest == upd.maxTokensPerRequest.value
    ensures !(upd.maxTokensPerRequest.Some? && 100 <= upd.maxTokensPerRequest.value <= 8000) ==>
      user.maxTokensPerRequest == old(user.maxTokensPerRequest)
    ensures upd.systemPrompt.Some? ==>
      && |user.systemPrompt| <= 2000 && |user.systemPrompt| <= |upd.systemPrompt.value|
      && user.systemPrompt == upd.systemPrompt.value[..|user.systemPrompt|]
      && (|upd.systemPrompt.value| <= 2000 ==> user.systemPrompt == upd.systemPrompt.value)
      && (|upd.systemPrompt.value| > 2000 ==> |user.systemPrompt| == 2000)
    ensures upd.systemPrompt.None? ==> user.systemPrompt == old(user.systemPrompt)
    ensures user.guardrailsEnabled == upd.guardrailsEnabled.GetOr(old(user.guardrailsEnabled))
  {
    if upd.isActive.Some? {
      user.isActive := upd.isActive.value;
    }
    if upd.allowedModels.Some? && upd.allowedModels.value.AList? {
      user.SetAllowedModels(upd.allowedModels.value.models);
    }
    if upd.maxTokensPerRequest.Some? {
      var tokens := upd.maxTokensPerRequest.value;
      if 100 <= tokens <= 8000 {
        user.maxTokensPerRequest := tokens;
      }
    }
    if upd.systemPrompt.Some? {
      user.systemPrompt := Take(upd.systemPrompt.value, 2000);
    }
    if upd.guardrailsEnabled.Some? {
      user.guardrailsEnabled := upd.guardrailsEnabled.value;
    }
  }

  /** `User.query.get(user_id)`. */
  function FindById(users: seq<User>, id: nat): (r: Option<User>)
    ensures r.Some? ==> r.value in users && r.value.id == id
    ensures r.None? <==> forall i :: 0 <= i < |users| ==> users[i].id != id
  {
    if users == [] then None
    else if users[0].id == id then Some(users[0])
    else FindById(users[1..], id)
  }

  /** `api_update_user`: 404 for an unknown id, otherwise the rules above on that user and 200. */
  method UpdateUser(cfg: Config, table: UserTable, userId: nat, upd: UserUpdate) returns (status: nat)
    modifies (set u | u in table.users && u.id == userId)`role, (set u | u in table.users && u.id == userId)`monthlyBudget,
             (set u | u in table.users && u.id == userId)`isActive, (set u | u in table.users && u.id == userId)`allowedModels,
             (set u | u in table.users && u.id == userId)`maxTokensPerRequest,
             (set u | u in table.users && u.id == userId)`systemPrompt,
             (set u | u in table.users && u.id == userId)`guardrailsEnabled
    ensures status == 404 <==> FindById(table.users, userId).None?
    ensures status == 404 || status == 200
    ensures status == 200 ==> Updated(cfg, FindById(table.users, userId).value, upd)
    ensures status == 200 ==> FindById(table.users, userId).value.currentUsage == old(FindById(table.users, userId).value.currentUsage)
  {
    var found := FindById(table.users, userId);
    if found.None? {
      return 404;
    }
    ApplyUserUpdate(cfg, found.value, upd);
    status := 200;
  }

  /** `usage_percentage`: usage over budget in percent, 0 when there is no budget. */
  function UsagePercentage(usage: real, budget: real): (p: real)
    ensures budget > 0.0 ==> p * budget == usage * 100.0
    ensures budget <= 0.0 ==> p == 0.0
  {
    if budget > 0.0 then usage / budget * 100.0 else 0.0
  }

  /**
   * The percentage is the share of the budget used: it scales back to the
   * usage, stays within [0, 100] while the usage is within the budget, and
   * is 0 without a budget.
   */
  lemma UsagePercentageMeaning(usage: real, budget: real)
    ensures budget > 0.0 && 0.0 <= usage <= budget ==> 0.0 <= UsagePercentage(usage, budget) <= 100.0
    ensures budget > 0.0 ==> (UsagePercentage(usage, budget) == 100.0 <==> usage == budget)
  {
    if budget > 0.0 {
      var p := UsagePercentage(usage, budget);
      assert p * budget == usage * 100.0;
      if 0.0 <= usage <= budget {
        assert usage / budget <= 1.0;
      }
    }
  }

  /** `min(per_page, 100)`. */
  function PerPage(requested: int): (n: int)
    ensures n <= 100 && n <= requested
    ensures n == requested || n == 100
  {
    if requested < 100 then requested else 100
  }

  /** The reset loop, over the users read once. */
  method ResetEach(users: seq<User>) returns (count: nat)
    modifies (set u | u in users)`currentUsage
    ensures count == |users|
    ensures forall i :: 0 <= i < |users| ==> users[i].currentUsage == 0.0
  {
    count := 0;
    var i := 0;
    while i < |users|
      invariant 0 <= i <= |users| && count == i
      invariant forall j :: 0 <= j < i ==> users[j].currentUsage == 0.0
    {
      users[i].ResetMonthlyUsage();
      count := count + 1;
      i := i + 1;
    }
  }

  /**
   * `api_reset_all_usage`: every user's usage becomes 0 and the message
   * reports one reset per user.
   */
  method ResetAllUsage(table: UserTable) returns (message: string)
    modifies (set u | u in table.users)`currentUsage
    ensures forall i :: 0 <= i < |table.users| ==> table.users[i].currentUsage == 0.0
    ensures message == "Reset usage for " + NatToString(|table.users|) + " users"
  {
    var count := ResetEach(table.users);
    message := "Reset usage for " + NatToString(count) + " users";
  }
}
