/**
 * The persistent records of the relay (app/models/user.py): a user with a
 * monthly budget, a running usage counter and a provider allow-list; a chat
 * session holding an append-only message list with running totals; and the
 * usage log. The database tables are in-memory sequences of objects.
 */
module Accounts {
  import opened Common

  /** The `allowed_models` column: JSON text that either decodes to a list of provider names or does not. */
  datatype ProviderList = Encoded(names: seq<string>) | Undecodable

  /** A stored password hash; `HashOf(p)` stands for the salted hash of `p`, and only `p` matches it. */
  datatype PasswordHash = HashOf(secret: string)

  /** The result of `json.loads(allowed_models)`, with `['ollama']` when it cannot be decoded. */
  function DecodeProviders(column: ProviderList): (names: seq<string>)
    ensures column.Encoded? ==> names == column.names
    ensures column.Undecodable? ==> names == ["ollama"]
  {
    match column
    case Encoded(ns) => ns
    case Undecodable => ["ollama"]
  }

  /** `p in allowed or 'all' in allowed`. */
  predicate Permits(allowed: seq<string>, provider: string): (ok: bool)
    ensures "all" in allowed ==> ok
    ensures provider in allowed ==> ok
    ensures ok && "all" !in allowed ==> exists i :: 0 <= i < |allowed| && allowed[i] == provider
    ensures (forall i :: 0 <= i < |allowed| ==> allowed[i] != provider && allowed[i] != "all") ==> !ok
  {
    provider in allowed || "all" in allowed
  }

  /** An undecodable allow-list lets the user reach Ollama and nothing else. */
  lemma UndecodableAllowsOnlyOllama(provider: string)
    ensures Permits(DecodeProviders(Undecodable), provider) <==> provider == "ollama"
  {
    var a := DecodeProviders(Undecodable);
    assert a == ["ollama"];
    assert "all" != "ollama";
  }

  /** The `'all'` wildcard admits every provider name. */
  lemma WildcardAllowsEverything(names: seq<string>, provider: string)
    requires "all" in names
    ensures Permits(DecodeProviders(Encoded(names)), provider)
  {
  }

  class User {
    const id: nat
    const username: string
    const email: string
    var passwordHash: PasswordHash
    var role: string
    var monthlyBudget: real
    var currentUsage: real
    var isActive: bool
    var allowedModels: ProviderList
    var defaultModel: string
    var maxTokensPerRequest: int
    var enableStreaming: bool
    var systemPrompt: string
    var guardrailsEnabled: bool

    /** A new row with the column defaults and the hash of `password`. */
    constructor (id: nat, username: string, email: string, password: string)
      ensures this.id == id && this.username == username && this.email == email
      ensures passwordHash == HashOf(password)
      ensures role == "standard" && monthlyBudget == 20.0 && currentUsage == 0.0 && isActive
      ensures allowedModels == Encoded(["ollama"]) && defaultModel == "llama3"
      ensures maxTokensPerRequest == 2000 && enableStreaming
      ensures systemPrompt == "" && !guardrailsEnabled
    {
      this.id := id;
      this.username := username;
      this.email := email;
      passwordHash := HashOf(password);
      role := "standard";
      monthlyBudget := 20.0;
      currentUsage := 0.0;
      isActive := true;
      allowedModels := Encoded(["ollama"]);
      defaultModel := "llama3";
      maxTokensPerRequest := 2000;
      enableStreaming := true;
      systemPrompt := "";
      guardrailsEnabled := false;
    }

    /** `check_password`: the given password is the one that was hashed. */
    predicate CheckPassword(password: string): (ok: bool)
      reads this`passwordHash
      ensures ok <==> passwordHash.secret == password
    {
      passwordHash == HashOf(password)
    }

    /** `get_allowed_models`. */
    function GetAllowedModels(): (names: seq<string>)
      reads this`allowedModels
      ensures allowedModels.Encoded? ==> names == allowedModels.names
      ensures allowedModels.Undecodable? ==> names == ["ollama"]
    {
      DecodeProviders(allowedModels)
    }

    /** `set_allowed_models`: the list is stored so that reading it back gives the same list. */
    method SetAllowedModels(models: seq<string>)
      modifies this`allowedModels
      ensures allowedModels.Encoded?
      ensures GetAllowedModels() == models
      ensures forall p :: CanUseModel(p) <==> p in models || "all" in models
    {
      allowedModels := Encoded(models);
    }

    /** `can_use_model`. */
    predicate CanUseModel(provider: string): (ok: bool)
      reads this`allowedModels
      ensures allowedModels.Undecodable? ==> (ok <==> provider == "ollama")
      ensures allowedModels.Encoded? && "all" in allowedModels.names ==> ok
      ensures allowedModels.Encoded? && provider in allowedModels.names ==> ok
      ensures ok && allowedModels.Encoded? ==> provider in allowedModels.names || "all" in allowedModels.names
    {
      UndecodableAllowsOnlyOllama(provider);
      Permits(GetAllowedModels(), provider)
    }

    /** `has_budget_available(cost=0.0)`. */
    predicate HasBudgetAvailable(cost: real := 0.0): (ok: bool)
      reads this`currentUsage, this`monthlyBudget
      ensures ok <==> cost <= monthlyBudget - currentUsage
      ensures ok && cost >= 0.0 ==> currentUsage <= monthlyBudget
    {
      currentUsage + cost <= monthlyBudget
    }

    /**
     * `add_usage`: the usage grows by exactly `cost` and nothing else changes;
     * a charge the budget check admitted keeps the user within budget.
     */
    method AddUsage(cost: real)
      modifies this`currentUsage
      ensures currentUsage == old(currentUsage) + cost
      ensures old(HasBudgetAvailable(cost)) ==> HasBudgetAvailable()
    {
      currentUsage := currentUsage + cost;
    }

    /** `reset_monthly_usage`: usage is zero afterwards, whatever it was, so a second reset changes nothing. */
    method ResetMonthlyUsage()
      modifies this`currentUsage
      ensures currentUsage == 0.0
      ensures monthlyBudget >= 0.0 ==> HasBudgetAvailable()
    {
      currentUsage := 0.0;
    }
  }

  /** One entry of the `messages` column; the timestamp is left out. */
  datatype Message = Message(role: string, content: string, model: Option<string>, tokens: int, cost: real)

  /** The `messages` column: JSON text that decodes to a list of messages, or does not. */
  datatype MessageColumn = Stored(list: seq<Message>) | Corrupt

  /** Python truthiness of an optional string: `None` and `""` are false. */
  predicate Truthy(o: Option<string>) {
    o.Some? && o.value != ""
  }

  /** `messages[-n:] if len(messages) > n else messages`, with Python's slice rules for every integer n. */
  function ContextWindow(messages: seq<Message>, n: int): (r: seq<Message>)
    ensures n >= 0 ==> |r| <= |messages|
    ensures n > 0 ==> |r| == (if |messages| <= n then |messages| else n)
    ensures n >= 0 ==> forall i :: 0 <= i < |r| ==> r[i] == messages[|messages| - |r| + i]
    ensures n == 0 ==> r == messages
  {
    if |messages| > n then
      (if n > 0 then messages[|messages| - n..]
       else if -n <= |messages| then messages[-n..]
       else [])
    else messages
  }

  /** A window of the default size never holds more than 20 messages and always ends with the newest one. */
  lemma DefaultWindowEndsWithLast(messages: seq<Message>)
    requires messages != []
    ensures var w := ContextWindow(messages, 20);
      1 <= |w| <= 20 && w[|w| - 1] == messages[|messages| - 1]
  {
  }

  class ChatSession {
    const id: nat
    const userId: nat
    var title: string
    var isActive: bool
    var messages: MessageColumn
    var modelUsed: Option<string>
    var totalTokens: int
    var totalCost: real

    /** A new active session with an empty message list and zero totals. */
    constructor (id: nat, userId: nat, title: string)
      ensures this.id == id && this.userId == userId && this.title == title
      ensures isActive && messages == Stored([]) && modelUsed == None
      ensures totalTokens == 0 && totalCost == 0.0
    {
      this.id := id;
      this.userId := userId;
      this.title := title;
      isActive := true;
      messages := Stored([]);
      modelUsed := None;
      totalTokens := 0;
      totalCost := 0.0;
    }

    /** `get_messages`: a column that fails to decode reads as the empty list. */
    function GetMessages(): (r: seq<Message>)
      reads this`messages
      ensures messages.Stored? ==> r == messages.list
      ensures messages.Corrupt? ==> r == []
    {
      if messages.Stored? then messages.list else []
    }

    /** `get_context_messages(max_messages=20)`. */
    function GetContextMessages(maxMessages: int := 20): (r: seq<Message>)
      reads this`messages
      ensures maxMessages >= 0 ==> |r| <= |GetMessages()|
    {
      ContextWindow(GetMessages(), maxMessages)
    }

    /**
     * `add_message`: exactly one message is appended after the decodable
     * history, the totals grow by exactly its tokens and cost, and the model
     * in use changes only when a non-empty model is given.
     */
    method AddMessage(role: string, content: string, model: Option<string> := None, tokens: int := 0, cost: real := 0.0)
      modifies this`messages, this`totalTokens, this`totalCost, this`modelUsed
      ensures messages == Stored(old(GetMessages()) + [Message(role, content, model, tokens, cost)])
      ensures GetMessages()[..|GetMessages()| - 1] == old(GetMessages())
      ensures totalTokens == old(totalTokens) + tokens
      ensures totalCost == old(totalCost) + cost
      ensures modelUsed == if Truthy(model) then model else old(modelUsed)
    {
      var history := if messages.Stored? then messages.list else [];
      messages := Stored(history + [Message(role, content, model, tokens, cost)]);
      totalTokens := totalTokens + tokens;
      totalCost := totalCost + cost;
      if Truthy(model) {
        modelUsed := model;
      }
    }
  }

  /** One row of the usage log. */
  datatype UsageLog = UsageLog(
    userId: nat,
    modelName: string,
    provider: string,
    inputTokens: int,
    outputTokens: int,
    totalTokens: int,
    cost: real,
    responseTime: real,
    status: string,
    errorMessage: Option<string>,
    sessionId: Option<nat>)

  /** The stored total is derived from its parts. */
  predicate Consistent(log: UsageLog) {
    log.totalTokens == log.inputTokens + log.outputTokens
  }

  /** The row built by `UsageLog.log_usage`, with its keyword defaults. */
  function UsageRecord(userId: nat, modelName: string, provider: string,
                       inputTokens: int := 0, outputTokens: int := 0, cost: real := 0.0,
                       responseTime: real := 0.0, status: string := "success",
                       errorMessage: Option<string> := None, sessionId: Option<nat> := None): (r: UsageLog)
    ensures Consistent(r)
    ensures r.inputTokens == inputTokens && r.outputTokens == outputTokens && r.cost == cost
    ensures r.userId == userId && r.modelName == modelName && r.provider == provider
    ensures r.status == status && r.errorMessage == errorMessage && r.sessionId == sessionId
  {
    UsageLog(userId, modelName, provider, inputTokens, outputTokens, inputTokens + outputTokens,
             cost, responseTime, status, errorMessage, sessionId)
  }

  /** The usage-log table. */
  class UsageLedger {
    var entries: seq<UsageLog>

    predicate Valid()
      reads this
    {
      forall i :: 0 <= i < |entries| ==> Consistent(entries[i])
    }

    constructor ()
      ensures entries == [] && Valid()
    {
      entries := [];
    }

    /** `UsageLog.log_usage`: exactly one consistent row is appended and returned. */
    method LogUsage(userId: nat, modelName: string, provider: string,
                    inputTokens: int := 0, outputTokens: int := 0, cost: real := 0.0,
                    responseTime: real := 0.0, status: string := "success",
                    errorMessage: Option<string> := None, sessionId: Option<nat> := None)
      returns (usage: UsageLog)
      requires Valid()
      modifies this
      ensures Valid()
      ensures usage == UsageRecord(userId, modelName, provider, inputTokens, outputTokens, cost,
                                   responseTime, status, errorMessage, sessionId)
      ensures entries == old(entries) + [usage]
    {
      usage := UsageRecord(userId, modelName, provider, inputTokens, outputTokens, cost,
                           responseTime, status, errorMessage, sessionId);
      entries := entries + [usage];
    }

  }

  /** The first user in `users` with that username (`User.query.filter_by(username=...).first()`). */
  function FindByUsername(users: seq<User>, name: string): (r: Option<User>)
    ensures r.Some? ==> r.value in users && r.value.username == name
    ensures r.None? <==> forall i :: 0 <= i < |users| ==> users[i].username != name
  {
    if users == [] then None
    else if users[0].username == name then Some(users[0])
    else FindByUsername(users[1..], name)
  }

  /** The first user in `users` with that email. */
  function FindByEmail(users: seq<User>, email: string): (r: Option<User>)
    ensures r.Some? ==> r.value in users && r.value.email == email
    ensures r.None? <==> forall i :: 0 <= i < |users| ==> users[i].email != email
  {
    if users == [] then None
    else if users[0].email == email then Some(users[0])
    else FindByEmail(users[1..], email)
  }

  /** The `unique=True` constraints on the username and email columns. */
  predicate UniqueUsers(users: seq<User>) {
    forall i, j :: 0 <= i < j < |users| ==>
      users[i].username != users[j].username && users[i].email != users[j].email
  }

  /** Adding a user whose username and email are both new keeps the columns unique. */
  lemma {:induction false} InsertKeepsUnique(users: seq<User>, u: User)
    requires UniqueUsers(users)
    requires FindByUsername(users, u.username).None? && FindByEmail(users, u.email).None?
    ensures UniqueUsers(users + [u])
  {
    var all := users + [u];
    forall i, j | 0 <= i < j < |all|
      ensures all[i].username != all[j].username && all[i].email != all[j].email
    {
      if j == |users| {
        assert all[i] == users[i];
      }
    }
  }

  /** The user table. */
  class UserTable {
    var users: seq<User>
    var nextId: nat

    /** Usernames and emails are unique, and so are the primary keys, all below the next one handed out. */
    predicate Valid()
      reads this
    {
      && UniqueUsers(users)
      && (forall i :: 0 <= i < |users| ==> users[i].id < nextId)
      && (forall i, j :: 0 <= i < j < |users| ==> users[i].id != users[j].id)
    }

    constructor ()
      ensures users == [] && Valid()
    {
      users := [];
      nextId := 1;
    }

    /** `db.session.add(user)`; a user whose username, email and primary key are all new keeps the table valid. */
    method Insert(u: User)
      requires Valid()
      requires FindByUsername(users, u.username).None? && FindByEmail(users, u.email).None?
      requires u.id < nextId && forall i :: 0 <= i < |users| ==> users[i].id != u.id
      modifies this`users
      ensures users == old(users) + [u]
      ensures Valid()
    {
      InsertKeepsUnique(users, u);
      users := users + [u];
    }

    /** `db.session.delete(user)`: the one entry at index k goes; the others keep their order. */
    method RemoveAt(k: nat)
      requires Valid() && k < |users|
      modifies this`users
      ensures users == old(users[..k] + users[k + 1..])
      ensures Valid()
    {
      users := users[..k] + users[k + 1..];
      assert forall i :: 0 <= i < |users| ==> users[i] == old(users)[if i < k then i else i + 1];
    }

    /** Hands out the next primary key. */
    method FreshId() returns (id: nat)
      requires Valid()
      modifies this`nextId
      ensures id == old(nextId) && nextId == id + 1
      ensures Valid()
      ensures forall i :: 0 <= i < |users| ==> users[i].id < id
    {
      id := nextId;
      nextId := nextId + 1;
    }
  }
}
