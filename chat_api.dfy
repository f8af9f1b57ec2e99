/**
 * The chat endpoints (app/controllers/chat.py): the guards and session
 * handling of a single-model chat and the order of the frames it streams,
 * the filtering of a multi-model request, soft deletion of a session and
 * the user's own preferences.
 */
module ChatApi {
  import opened Common
  import opened Text
  import opened Catalog
  import opened Accounts
  import opened Relay

  /** A new session's title: the message itself, or its first 50 characters and `...` when it is longer. */
  function Title(message: string): (t: string)
    ensures |message| <= 50 ==> t == message
    ensures |message| > 50 ==> |t| == 53 && t[..50] == message[..50] && t[50..] == "..."
  {
    if |message| > 50 then message[..50] + "..." else message
  }

  /** The chat-session table. */
  class SessionTable {
    var sessions: seq<ChatSession>
    var nextId: nat

    /** Every key is below the next one to be handed out, so a new session's key is new. */
    predicate Valid()
      reads this
    {
      forall i :: 0 <= i < |sessions| ==> sessions[i].id < nextId
    }

    constructor ()
      ensures sessions == [] && nextId == 1 && Valid()
    {
      sessions := [];
      nextId := 1;
    }

    /** `ChatSession(user_id=..., title=...)` added and committed: a new empty session with the next key. */
    method Create(userId: nat, title: string) returns (s: ChatSession)
      requires Valid()
      modifies this
      ensures fresh(s) && sessions == old(sessions) + [s] && nextId == old(nextId) + 1
      ensures s.id == old(nextId) && s.userId == userId && s.title == title
      ensures s.GetMessages() == [] && s.isActive
      ensures s.totalTokens == 0 && s.totalCost == 0.0 && s.modelUsed == None
      ensures Valid()
    {
      s := new ChatSession(nextId, userId, title);
      sessions := sessions + [s];
      nextId := nextId + 1;
    }
  }

  /** `ChatSession.query.filter_by(id=..., user_id=...).first()`. */
  function FindOwned(sessions: seq<ChatSession>, id: nat, userId: nat): (r: Option<ChatSession>)
    ensures r.Some? ==> r.value in sessions && r.value.id == id && r.value.userId == userId
    ensures r.None? <==> forall i :: 0 <= i < |sessions| ==> !(sessions[i].id == id && sessions[i].userId == userId)
  {
    if sessions == [] then None
    else if sessions[0].id == id && sessions[0].userId == userId then Some(sessions[0])
    else FindOwned(sessions[1..], id, userId)
  }

  /** A session appended under the next key is the one a later lookup of that key by its owner finds. */
  lemma CreatedIsFound(sessions: seq<ChatSession>, s: ChatSession, nextId: nat)
    requires forall i :: 0 <= i < |sessions| ==> sessions[i].id < nextId
    requires s.id == nextId
    ensures FindOwned(sessions + [s], nextId, s.userId) == Some(s)
  {
    assert (sessions + [s])[|sessions|] == s;
  }

  /** The session a request names, if the id is truthy and the session belongs to the user. */
  function Requested(sessions: seq<ChatSession>, sessionId: Option<nat>, userId: nat): Option<ChatSession> {
    if sessionId.Some? && sessionId.value != 0 then FindOwned(sessions, sessionId.value, userId) else None
  }

  /** The "get or create" step: a session of another user is never reused. */
  method OpenSession(table: SessionTable, userId: nat, sessionId: Option<nat>, message: string) returns (session: ChatSession)
    requires table.Valid()
    modifies table
    ensures table.Valid()
    ensures session.userId == userId
    ensures Requested(old(table.sessions), sessionId, userId).Some? ==>
      session == Requested(old(table.sessions), sessionId, userId).value && table.sessions == old(table.sessions)
      && table.nextId == old(table.nextId)
    ensures Requested(old(table.sessions), sessionId, userId).None? ==>
      && fresh(session) && table.sessions == old(table.sessions) + [session]
      && session.id == old(table.nextId) && session.title == Title(message)
      && session.GetMessages() == [] && session.isActive && table.nextId == old(table.nextId) + 1
      && session.totalTokens == 0 && session.totalCost == 0.0 && session.modelUsed == None
  {
    var found := Requested(table.sessions, sessionId, userId);
    if found.Some? {
      session := found.value;
    } else {
      session := table.Create(userId, Title(message));
    }
  }

  /** One server-sent event of the single-model stream. */
  datatype Frame = SessionInfo(sessionId: nat) | Content(text: string) | Complete(fullResponse: string)

  /** The frames for a stream of fragments: the session first, one content frame per fragment, then the whole response. */
  function StreamFrames(sessionId: nat, fragments: seq<string>): seq<Frame> {
    [SessionInfo(sessionId)] + ContentFrames(fragments) + [Complete(Concat(fragments))]
  }

  function ContentFrames(fragments: seq<string>): (fs: seq<Frame>)
    ensures |fs| == |fragments| && forall i :: 0 <= i < |fs| ==> fs[i] == Content(fragments[i])
  {
    seq(|fragments|, i requires 0 <= i < |fragments| => Content(fragments[i]))
  }

  /** The texts of the content frames, joined in order. */
  function ContentText(frames: seq<Frame>): string {
    if frames == [] then ""
    else ContentText(frames[..|frames| - 1]) + (if frames[|frames| - 1].Content? then frames[|frames| - 1].text else "")
  }

  lemma {:induction false} ContentTextAppend(a: seq<Frame>, b: seq<Frame>)
    ensures ContentText(a + b) == ContentText(a) + ContentText(b)
    decreases |b|
  {
    if b == [] {
      AppendNothing(a);
      AppendNothing(ContentText(a));
    } else {
      var init := b[..|b| - 1];
      var last := b[|b| - 1];
      ContentTextAppend(a, init);
      assert b == init + [last];
      AppendAssoc(a, init, [last]);
      assert (a + b)[..|a + b| - 1] == a + init;
      assert (a + b)[|a + b| - 1] == last;
      AppendAssoc(ContentText(a), ContentText(init), if last.Content? then last.text else "");
    }
  }

  lemma {:induction false} ContentFramesText(fragments: seq<string>)
    ensures ContentText(ContentFrames(fragments)) == Concat(fragments)
  {
    if fragments != [] {
      var init := fragments[..|fragments| - 1];
      ContentFramesText(init);
      assert ContentFrames(fragments)[..|fragments| - 1] == ContentFrames(init);
    }
  }

  /**
   * The stream opens with the session, and its closing frame carries
   * exactly the concatenation of the content frames before it.
   */
  lemma CompleteCarriesContent(sessionId: nat, fragments: seq<string>)
    ensures var fs := StreamFrames(sessionId, fragments);
      && |fs| == |fragments| + 2 && fs[0] == SessionInfo(sessionId)
      && fs[|fs| - 1] == Complete(ContentText(fs[..|fs| - 1]))
      && forall i :: 1 <= i < |fs| - 1 ==> fs[i].Content?
  {
    var fs := StreamFrames(sessionId, fragments);
    assert fs[..|fs| - 1] == [SessionInfo(sessionId)] + ContentFrames(fragments);
    ContentTextAppend([SessionInfo(sessionId)], ContentFrames(fragments));
    assert [SessionInfo(sessionId)][..0] == [];
    ContentFramesText(fragments);
  }

  /** The loop of `generate`: one content frame per fragment while `response_buffer` collects them. */
  method EmitFrames(sessionId: nat, fragments: seq<string>) returns (frames: seq<Frame>)
    ensures frames == StreamFrames(sessionId, fragments)
  {
    frames := [SessionInfo(sessionId)];
    var buffer := "";
    var i := 0;
    while i < |fragments|
      invariant 0 <= i <= |fragments|
      invariant frames == [SessionInfo(sessionId)] + ContentFrames(fragments[..i])
      invariant buffer == Concat(fragments[..i])
    {
      assert fragments[..i + 1][..i] == fragments[..i];
      assert ContentFrames(fragments[..i + 1]) == ContentFrames(fragments[..i]) + [Content(fragments[i])];
      buffer := buffer + fragments[i];
      frames := frames + [Content(fragments[i])];
      i := i + 1;
    }
    assert fragments[..i] == fragments;
    frames := frames + [Complete(buffer)];
  }

  /**
   * The user's turn is stored before the messages are prepared; since the
   * newest message of the window is dropped, the history never repeats it:
   * it is the window of 19 over the turns before it.
   */
  lemma TurnNotRepeated(history: seq<Message>, turn: Message)
    ensures HistoryPart(ContextWindow(history + [turn], 20)) == HistoryPart(ContextWindow(history, 19) + [turn])
  {
    var all := history + [turn];
    if |history| > 19 {
      var k := |history| - 19;
      assert ContextWindow(all, 20) == all[k..];
      assert ContextWindow(history, 19) == history[k..];
      assert all[k..] == history[k..] + [turn];
    } else {
      assert ContextWindow(all, 20) == all;
      assert ContextWindow(history, 19) == history;
    }
  }

  /** The user's message as `add_message('user', message)` stores it. */
  function UserTurn(message: string): Message {
    Message("user", message, None, 0, 0.0)
  }

  /**
   * What the relay makes of a turn: the completion for the messages
   * prepared from the session's history with the user's turn appended.
   */
  function TurnOutcome(cfg: Config, acct: Account, sessionId: nat, history: seq<Message>, message: string,
                       model: string, provider: string, systemPrompt: Option<string>, backends: Backends, elapsed: real): Outcome
  {
    Completion(cfg, acct, model, provider, Prepared(message, ContextWindow(history + [UserTurn(message)], 20), systemPrompt),
               Some(sessionId), backends, elapsed)
  }

  /** The user as the relay sees it before the turn. */
  function AccountOf(user: User, usage: real): Account
    reads user`monthlyBudget, user`maxTokensPerRequest
  {
    Account(user.id, usage, user.monthlyBudget, user.maxTokensPerRequest)
  }

  /** The user's message is stored in the session, then the messages for the provider are prepared from it. */
  method StoreTurn(session: ChatSession, message: string, prompt: Option<string>) returns (messages: seq<OutboundMessage>)
    modifies session`messages, session`totalTokens, session`totalCost, session`modelUsed
    ensures session.messages == Stored(old(session.GetMessages()) + [UserTurn(message)])
    ensures messages == Prepared(message, ContextWindow(old(session.GetMessages()) + [UserTurn(message)], 20), prompt)
    ensures session.totalTokens == old(session.totalTokens) && session.totalCost == old(session.totalCost)
    ensures session.modelUsed == old(session.modelUsed)
  {
    session.AddMessage("user", message);
    messages := PrepareMessages(message, session, prompt);
  }

  /**
   * The turn itself: the user's message is stored first, then the messages
   * are prepared from the session (with the user's system prompt only when
   * guardrails are on) and the completion is run. The session ends with the
   * user's turn followed by the relay's reply, if any; the ledger and the
   * user's usage are those of the completion, and the frames carry its
   * fragments between the session id and the whole response.
   */
  method RunTurn(cfg: Config, user: User, session: ChatSession, ledger: UsageLedger, backends: Backends,
                 elapsed: real, message: string, model: string, provider: string)
    returns (frames: seq<Frame>, ghost o: Outcome)
    requires ledger.Valid()
    modifies session, user`currentUsage, ledger
    ensures o == TurnOutcome(cfg, AccountOf(user, old(user.currentUsage)), session.id, old(session.GetMessages()),
                             message, model, provider, SystemPromptOf(user.guardrailsEnabled, user.systemPrompt),
                             backends, elapsed)
    ensures frames == StreamFrames(session.id, o.fragments)
    ensures ledger.Valid() && ledger.entries == old(ledger.entries) + Elems(o.log)
    ensures user.currentUsage == old(user.currentUsage) + o.charge.GetOr(0.0)
    ensures session.messages == Stored(old(session.GetMessages()) + [UserTurn(message)] + Elems(o.reply))
    ensures session.totalTokens == old(session.totalTokens) + (if o.reply.Some? then o.reply.value.tokens else 0)
    ensures session.totalCost == old(session.totalCost) + (if o.reply.Some? then o.reply.value.cost else 0.0)
    ensures session.modelUsed == (if o.reply.Some? then o.reply.value.model else old(session.modelUsed))
    ensures session.title == old(session.title) && session.isActive == old(session.isActive)
  {
    var prompt := SystemPromptOf(user.guardrailsEnabled, user.systemPrompt);
    ghost var turn := old(session.GetMessages()) + [UserTurn(message)];
    var messages := StoreTurn(session, message, prompt);
    var fragments;
    fragments, o := ChatCompletion(cfg, user, model, provider, messages, session, ledger, backends, elapsed);
    if o.reply.None? {
      assert turn + Elems(o.reply) == turn;
    }
    frames := EmitFrames(session.id, fragments);
  }

  /** The body of a `/api/chat/single` request; absent keys are `None`. */
  datatype ChatRequest = ChatRequest(message: Option<string>, model: Option<string>, provider: Option<string>, sessionId: Option<nat>)

  datatype SingleReply = Rejected(status: nat, error: string) | Stream(frames: seq<Frame>)

  /** The system prompt sent: the user's own prompt when guardrails are on, else none. */
  function SystemPromptOf(guardrailsEnabled: bool, systemPrompt: string): Option<string> {
    if guardrailsEnabled then Some(systemPrompt) else None
  }

  /**
   * The state after an accepted single-model request: the session the
   * request names is reused when the user owns it, otherwise a new one is
   * created with the message's title; that session ends with the user's
   * turn and the relay's reply, if any; no other session changes; the
   * ledger and the user's usage are those of the completion; and the frames
   * are the session id, one content frame per fragment, and the whole
   * response.
   */
  twostate predicate Served(cfg: Config, user: User, table: SessionTable, ledger: UsageLedger, backends: Backends,
                            elapsed: real, sessionId: Option<nat>, message: string, model: string, provider: string,
                            frames: seq<Frame>)
    reads *
  {
    var found := Requested(old(table.sessions), sessionId, user.id);
    var acct := AccountOf(user, old(user.currentUsage));
    var prompt := SystemPromptOf(user.guardrailsEnabled, user.systemPrompt);
    var id := if found.Some? then found.value.id else old(table.nextId);
    var history := if found.Some? then old(found.value.GetMessages()) else [];
    var o := TurnOutcome(cfg, acct, id, history, message, model, provider, prompt, backends, elapsed);
    && table.Valid()
    && frames == StreamFrames(id, o.fragments)
    && ledger.Valid() && ledger.entries == old(ledger.entries) + Elems(o.log)
    && user.currentUsage == old(user.currentUsage) + o.charge.GetOr(0.0)
    && (found.Some? ==>
          && table.sessions == old(table.sessions) && table.nextId == old(table.nextId)
          && found.value.GetMessages() == history + [UserTurn(message)] + Elems(o.reply)
          && found.value.totalTokens == old(found.value.totalTokens) + (if o.reply.Some? then o.reply.value.tokens else 0)
          && found.value.totalCost == old(found.value.totalCost) + (if o.reply.Some? then o.reply.value.cost else 0.0)
          && found.value.modelUsed == (if o.reply.Some? then o.reply.value.model else old(found.value.modelUsed))
          && found.value.title == old(found.value.title) && found.value.isActive == old(found.value.isActive))
    && (found.None? ==>
          && |table.sessions| == |old(table.sessions)| + 1 && table.nextId == old(table.nextId) + 1
          && table.sessions[..|old(table.sessions)|] == old(table.sessions)
          && var created := table.sessions[|old(table.sessions)|];
          && created.id == id && created.userId == user.id && created.isActive
          && created.GetMessages() == [UserTurn(message)] + Elems(o.reply)
          && created.title == Title(message)
          && created.totalTokens == (if o.reply.Some? then o.reply.value.tokens else 0)
          && created.totalCost == (if o.reply.Some? then o.reply.value.cost else 0.0)
          && created.modelUsed == (if o.reply.Some? then o.reply.value.model else None))
    && (forall s :: s in old(table.sessions) && (found.None? || s != found.value) ==> unchanged(s))
  }

  /**
   * `chat_single_model`: an empty message is rejected with 400 and a
   * forbidden provider with 403, both before any session work and changing
   * nothing; otherwise the request is served as `Served` states.
   */
  method ChatSingle(cfg: Config, user: User, table: SessionTable, ledger: UsageLedger, backends: Backends,
                    elapsed: real, request: ChatRequest)
    returns (reply: SingleReply)
    requires table.Valid() && ledger.Valid()
    modifies table, table.sessions, user`currentUsage, ledger
    ensures var message := Strip(request.message.GetOr(""));
      var provider := request.provider.GetOr("ollama");
      (message == "" || !user.CanUseModel(provider)) ==>
        && reply == (if message == "" then Rejected(400, "No message provided")
                     else Rejected(403, "Access denied to " + provider + " models"))
        && unchanged(table) && unchanged(ledger) && user.currentUsage == old(user.currentUsage)
        && (forall s :: s in old(table.sessions) ==> unchanged(s))
    ensures var message := Strip(request.message.GetOr(""));
      var provider := request.provider.GetOr("ollama");
      message != "" && user.CanUseModel(provider) ==>
        && reply.Stream?
        && Served(cfg, user, table, ledger, backends, elapsed, request.sessionId, message,
                  request.model.GetOr(user.defaultModel), provider, reply.frames)
  {
    var message := Strip(request.message.GetOr(""));
    var model := request.model.GetOr(user.defaultModel);
    var provider := request.provider.GetOr("ollama");
    if message == "" {
      return Rejected(400, "No message provided");
    }
    if !user.CanUseModel(provider) {
      return Rejected(403, "Access denied to " + provider + " models");
    }
    var frames := ServeTurn(cfg, user, table, ledger, backends, elapsed, request.sessionId, message, model, provider);
    reply := Stream(frames);
  }

  /** The accepted branch of `chat_single_model`: the session is reused or created, the turn is run, and the frames are emitted. */
  method ServeTurn(cfg: Config, user: User, table: SessionTable, ledger: UsageLedger, backends: Backends,
                   elapsed: real, sessionId: Option<nat>, message: string, model: string, provider: string)
    returns (frames: seq<Frame>)
    requires table.Valid() && ledger.Valid()
    modifies table, table.sessions, user`currentUsage, ledger
    ensures Served(cfg, user, table, ledger, backends, elapsed, sessionId, message, model, provider, frames)
  {
    ghost var found := Requested(table.sessions, sessionId, user.id);
    ghost var acct := AccountOf(user, user.currentUsage);
    ghost var prompt := SystemPromptOf(user.guardrailsEnabled, user.systemPrompt);
    ghost var id := if found.Some? then found.value.id else table.nextId;
    ghost var history := if found.Some? then found.value.GetMessages() else [];
    var session := OpenSession(table, user.id, sessionId, message);
    assert session.id == id && session.GetMessages() == history;
    ghost var o;
    frames, o := RunTurn(cfg, user, session, ledger, backends, elapsed, message, model, provider);
    assert AccountOf(user, old(user.currentUsage)) == acct;
    assert SystemPromptOf(user.guardrailsEnabled, user.systemPrompt) == prompt;
    assert o == TurnOutcome(cfg, acct, id, history, message, model, provider, prompt, backends, elapsed);
    assert session.GetMessages() == history + [UserTurn(message)] + Elems(o.reply);
    if found.Some? {
      assert session == found.value && table.sessions == old(table.sessions);
    } else {
      assert session == table.sessions[|old(table.sessions)|] && table.nextId == old(table.nextId) + 1;
    }
  }

  /** `valid_models`: the choices whose provider the user may use, in order. */
  function Accessible(allowed: seq<string>, choices: seq<Choice>): (r: seq<Choice>)
    ensures |r| <= |choices|
    ensures forall i :: 0 <= i < |r| ==> r[i] in choices && Permits(allowed, r[i].provider)
    ensures forall i :: 0 <= i < |choices| && Permits(allowed, choices[i].provider) ==> choices[i] in r
  {
    if choices == [] then []
    else
      var c := choices[|choices| - 1];
      Accessible(allowed, choices[..|choices| - 1]) + (if Permits(allowed, c.provider) then [c] else [])
  }

  /** The loop that builds `valid_models`. */
  method FilterAccessible(allowed: seq<string>, choices: seq<Choice>) returns (valid: seq<Choice>)
    ensures valid == Accessible(allowed, choices)
  {
    valid := [];
    var i := 0;
    while i < |choices|
      invariant 0 <= i <= |choices|
      invariant valid == Accessible(allowed, choices[..i])
    {
      assert choices[..i + 1][..i] == choices[..i];
      if Permits(allowed, choices[i].provider) {
        valid := valid + [choices[i]];
      }
      i := i + 1;
    }
    assert choices[..i] == choices;
  }

  datatype MultiReply = MultiRejected(status: nat, error: string) | Results(prompt: string, results: seq<(string, Comparison)>)

  /**
   * `chat_multi_model`: empty message or empty selection gives 400, no
   * accessible choice gives 403, otherwise the accessible choices are
   * compared, in order.
   */
  method ChatMulti(cfg: Config, user: User, message: Option<string>, choices: seq<Choice>, backends: Backends)
    returns (reply: MultiReply)
    ensures var m := Strip(message.GetOr(""));
      && (m == "" ==> reply == MultiRejected(400, "No message provided"))
      && (m != "" && choices == [] ==> reply == MultiRejected(400, "No models selected"))
      && (m != "" && choices != [] && Accessible(user.GetAllowedModels(), choices) == [] ==>
            reply == MultiRejected(403, "No accessible models selected"))
      && (m != "" && Accessible(user.GetAllowedModels(), choices) != [] ==>
            reply == Results(m, Comparisons(cfg, user.GetAllowedModels(), user.maxTokensPerRequest, m,
                                            Accessible(user.GetAllowedModels(), choices), backends)))
  {
    var m := Strip(message.GetOr(""));
    if m == "" {
      return MultiRejected(400, "No message provided");
    }
    if choices == [] {
      return MultiRejected(400, "No models selected");
    }
    var valid := FilterAccessible(user.GetAllowedModels(), choices);
    if valid == [] {
      return MultiRejected(403, "No accessible models selected");
    }
    var results := CompareModels(cfg, user, m, valid, backends);
    reply := Results(m, results);
  }

  /**
   * `delete_chat_session`: a soft delete. The session the user owns is
   * marked inactive and stays in the table with its title, messages, model
   * and totals; any other id is not found.
   */
  method DeleteSession(table: SessionTable, userId: nat, sessionId: nat) returns (found: bool)
    modifies set s | s in table.sessions && s.id == sessionId && s.userId == userId
    ensures found <==> FindOwned(table.sessions, sessionId, userId).Some?
    ensures found ==>
      var s := FindOwned(table.sessions, sessionId, userId).value;
      && !s.isActive
      && s.title == old(s.title) && s.messages == old(s.messages) && s.modelUsed == old(s.modelUsed)
      && s.totalTokens == old(s.totalTokens) && s.totalCost == old(s.totalCost)
    ensures forall s :: s in table.sessions && (!found || s != FindOwned(table.sessions, sessionId, userId).value) ==> unchanged(s)
  {
    var session := FindOwned(table.sessions, sessionId, userId);
    if session.None? {
      return false;
    }
    session.value.isActive := false;
    found := true;
  }

  /** The body of `/api/user/preferences`; absent keys are `None`. */
  datatype Preferences = Preferences(
    defaultModel: Option<string>,
    maxTokensPerRequest: Option<int>,
    enableStreaming: Option<bool>,
    systemPrompt: Option<string>,
    guardrailsEnabled: Option<bool>)

  /**
   * `update_user_preferences`: each given field is set, except that a
   * token limit outside [100, 4000] is ignored and a system prompt is cut to
   * 1000 characters; the budget, role and allow-list are out of reach.
   */
  method UpdatePreferences(user: User, prefs: Preferences)
    modifies user`defaultModel, user`maxTokensPerRequest, user`enableStreaming, user`systemPrompt, user`guardrailsEnabled
    ensures user.defaultModel == prefs.defaultModel.GetOr(old(user.defaultModel))
    ensures prefs.maxTokensPerRequest.Some? && 100 <= prefs.maxTokensPerRequest.value <= 4000 ==>
      user.maxTokensPerRequest == prefs.maxTokensPerRequest.value
    ensures !(prefs.maxTokensPerRequest.Some? && 100 <= prefs.maxTokensPerRequest.value <= 4000) ==>
      user.maxTokensPerRequest == old(user.maxTokensPerRequest)
    ensures user.enableStreaming == prefs.enableStreaming.GetOr(old(user.enableStreaming))
    ensures prefs.systemPrompt.Some? ==>
      && |user.systemPrompt| <= 1000 && |user.systemPrompt| <= |prefs.systemPrompt.value|
      && user.systemPrompt == prefs.systemPrompt.value[..|user.systemPrompt|]
      && (|prefs.systemPrompt.value| <= 1000 ==> user.systemPrompt == prefs.systemPrompt.value)
      && (|prefs.systemPrompt.value| > 1000 ==> |user.systemPrompt| == 1000)
    ensures prefs.systemPrompt.None? ==> user.systemPrompt == old(user.systemPrompt)
    ensures user.guardrailsEnabled == prefs.guardrailsEnabled.GetOr(old(user.guardrailsEnabled))
  {
    if prefs.defaultModel.Some? {
      user.defaultModel := prefs.defaultModel.value;
    }
    if prefs.maxTokensPerRequest.Some? {
      var tokens := prefs.maxTokensPerRequest.value;
      if 100 <= tokens <= 4000 {
        user.maxTokensPerRequest := tokens;
      }
    }
    if prefs.enableStreaming.Some? {
      user.enableStreaming := prefs.enableStreaming.value;
    }
    if prefs.systemPrompt.Some? {
      user.systemPrompt := Take(prefs.systemPrompt.value, 1000);
    }
    if prefs.guardrailsEnabled.Some? {
      user.guardrailsEnabled := prefs.guardrailsEnabled.value;
    }
  }
}
