/**
 * The request relay (app/services/ai_service.py): the models a user may pick,
 * the outbound message list and its flattening into a single prompt for
 * Ollama, the accounting around one streamed completion, and side-by-side
 * comparison of several models. Providers are oracles: functions from the
 * request they are sent to the reply they give back.
 */
module Relay {
  import opened Common
  import opened Text
  import opened Dict
  import opened Catalog
  import opened Accounts

  datatype OutboundMessage = OutboundMessage(role: string, content: string)

  function Outbound(m: Message): OutboundMessage {
    OutboundMessage(m.role, m.content)
  }

  /** The system message that leads the list when a non-empty system prompt is given. */
  function SystemPart(systemPrompt: Option<string>): seq<OutboundMessage> {
    if Truthy(systemPrompt) then [OutboundMessage("system", systemPrompt.value)] else []
  }

  /** `context_messages[:-1]` as role/content pairs: the window without its newest message. */
  function HistoryPart(window: seq<Message>): (r: seq<OutboundMessage>)
    ensures |r| == if window == [] then 0 else |window| - 1
    ensures forall i :: 0 <= i < |r| ==> r[i] == Outbound(window[i])
  {
    if window == [] then [] else seq(|window| - 1, i requires 0 <= i < |window| - 1 => Outbound(window[i]))
  }

  /** What `prepare_messages` builds. */
  function Prepared(userMessage: string, window: seq<Message>, systemPrompt: Option<string>): seq<OutboundMessage> {
    SystemPart(systemPrompt) + HistoryPart(window) + [OutboundMessage("user", userMessage)]
  }

  /**
   * The system message comes first exactly when a system prompt is set,
   * then the earlier turns of the window in order, and the user's message
   * last.
   */
  lemma PreparedShape(userMessage: string, window: seq<Message>, systemPrompt: Option<string>)
    ensures var r := Prepared(userMessage, window, systemPrompt);
      && |r| == (if Truthy(systemPrompt) then 1 else 0) + |HistoryPart(window)| + 1
      && r[|r| - 1] == OutboundMessage("user", userMessage)
      && (Truthy(systemPrompt) ==> r[0] == OutboundMessage("system", systemPrompt.value) && r[1..|r| - 1] == HistoryPart(window))
      && (!Truthy(systemPrompt) ==>
            r[..|r| - 1] == HistoryPart(window) && forall i :: 0 <= i < |r| ==> r[i].role != "system" || (i < |r| - 1 && window[i].role == "system"))
  {
    var r := Prepared(userMessage, window, systemPrompt);
    if Truthy(systemPrompt) {
      assert r[1..|r| - 1] == HistoryPart(window);
    } else {
      assert r[..|r| - 1] == HistoryPart(window);
    }
  }

  /** `prepare_messages(user_message, chat_session, system_prompt)`; a null session stands for `None`. */
  method PrepareMessages(userMessage: string, session: ChatSession?, systemPrompt: Option<string>)
    returns (messages: seq<OutboundMessage>)
    ensures messages == Prepared(userMessage, if session == null then [] else session.GetContextMessages(20), systemPrompt)
  {
    messages := [];
    if Truthy(systemPrompt) {
      messages := [OutboundMessage("system", systemPrompt.value)];
    }
    var history: seq<OutboundMessage> := [];
    if session != null {
      var context := session.GetContextMessages(20);
      history := EarlierTurns(context);
    }
    messages := messages + history + [OutboundMessage("user", userMessage)];
  }

  /** The loop of `prepare_messages` over `context_messages[:-1]`. */
  method EarlierTurns(context: seq<Message>) returns (history: seq<OutboundMessage>)
    ensures history == HistoryPart(context)
  {
    history := [];
    var i := 0;
    while i < |context| - 1
      invariant 0 <= i <= |HistoryPart(context)|
      invariant |history| == i
      invariant forall k :: 0 <= k < i ==> history[k] == Outbound(context[k])
    {
      history := history + [OutboundMessage(context[i].role, context[i].content)];
      i := i + 1;
    }
  }

  /** The prompt prefix for a role; other roles are dropped from the prompt. */
  function RolePrefix(role: string): Option<string> {
    if role == "system" then Some("System: ")
    else if role == "user" then Some("Human: ")
    else if role == "assistant" then Some("Assistant: ")
    else None
  }

  predicate StartsWithPrefix(part: string) {
    StartsWith(part, "System: ") || StartsWith(part, "Human: ") || StartsWith(part, "Assistant: ")
  }

  function PartOf(m: OutboundMessage): seq<string> {
    match RolePrefix(m.role)
    case Some(p) => [p + m.content]
    case None => []
  }

  /** `prompt_parts` before the closing `Assistant:`: one prefixed part per message with a known role, in order. */
  function PromptParts(ms: seq<OutboundMessage>): seq<string>
  {
    if ms == [] then [] else PromptParts(ms[..|ms| - 1]) + PartOf(ms[|ms| - 1])
  }

  /** The prompt has at most one part per message, each opening with a role prefix. */
  lemma {:induction false} PromptPartsPrefixed(ms: seq<OutboundMessage>)
    ensures |PromptParts(ms)| <= |ms|
    ensures forall i :: 0 <= i < |PromptParts(ms)| ==> StartsWithPrefix(PromptParts(ms)[i])
  {
    if ms != [] {
      var last := ms[|ms| - 1];
      PromptPartsPrefixed(ms[..|ms| - 1]);
      var p := PartOf(last);
      assert p != [] ==> p[0][..|RolePrefix(last.role).value|] == RolePrefix(last.role).value;
    }
  }

  /** With every role known, the prompt has one part per message: its prefix and its content, in order. */
  lemma {:induction false} PromptPartsAllKnown(ms: seq<OutboundMessage>)
    requires forall i :: 0 <= i < |ms| ==> RolePrefix(ms[i].role).Some?
    ensures |PromptParts(ms)| == |ms|
    ensures forall i :: 0 <= i < |ms| ==> PromptParts(ms)[i] == RolePrefix(ms[i].role).value + ms[i].content
  {
    if ms != [] {
      var init := ms[..|ms| - 1];
      var last := ms[|ms| - 1];
      assert forall i :: 0 <= i < |init| ==> init[i] == ms[i];
      PromptPartsAllKnown(init);
      var part := RolePrefix(last.role).value + last.content;
      assert PromptParts(ms) == PromptParts(init) + [part];
      forall i | 0 <= i < |ms|
        ensures PromptParts(ms)[i] == RolePrefix(ms[i].role).value + ms[i].content
      {
        if i < |init| {
          assert PromptParts(ms)[i] == PromptParts(init)[i];
        }
      }
    }
  }

  /** Messages whose roles are all unknown contribute nothing to the prompt. */
  lemma {:induction false} PromptPartsNoneKnown(ms: seq<OutboundMessage>)
    requires forall i :: 0 <= i < |ms| ==> RolePrefix(ms[i].role).None?
    ensures PromptParts(ms) == []
  {
    if ms != [] {
      var init := ms[..|ms| - 1];
      assert forall i :: 0 <= i < |init| ==> init[i] == ms[i];
      PromptPartsNoneKnown(init);
    }
  }

  /** `_messages_to_prompt`: the parts and a closing `Assistant:`, separated by blank lines. */
  function Prompt(ms: seq<OutboundMessage>): string {
    Join(PromptParts(ms) + ["Assistant:"], "\n\n")
  }

  /** Every prompt ends by inviting the assistant to speak. */
  lemma PromptEndsWithCue(ms: seq<OutboundMessage>)
    ensures var p := Prompt(ms); |p| >= 10 && p[|p| - 10..] == "Assistant:"
  {
    JoinEndsWithLast(PromptParts(ms) + ["Assistant:"], "\n\n");
  }

  /** A single user turn becomes `Human: <text>`, a blank line and the cue. */
  lemma {:induction false} SingleTurnPrompt(text: string)
    ensures Prompt([OutboundMessage("user", text)]) == "Human: " + text + "\n\nAssistant:"
  {
    var ms := [OutboundMessage("user", text)];
    assert ms[..0] == [];
    assert RolePrefix("user") == Some("Human: ");
    assert PartOf(ms[0]) == ["Human: " + text];
    assert PromptParts(ms) == PromptParts(ms[..0]) + PartOf(ms[0]);
    assert PromptParts(ms) == ["Human: " + text];
    var parts := ["Human: " + text, "Assistant:"];
    assert PromptParts(ms) + ["Assistant:"] == parts;
    assert parts[..1] == ["Human: " + text];
    assert Join(parts, "\n\n") == Join(parts[..1], "\n\n") + "\n\n" + "Assistant:";
    assert "\n\n" + "Assistant:" == "\n\nAssistant:";
  }

  /** `_messages_to_prompt`. */
  method MessagesToPrompt(messages: seq<OutboundMessage>) returns (prompt: string)
    ensures prompt == Prompt(messages)
  {
    var parts := PartsOf(messages);
    parts := parts + ["Assistant:"];
    prompt := Join(parts, "\n\n");
  }

  /** The loop of `_messages_to_prompt` over the messages. */
  method PartsOf(messages: seq<OutboundMessage>) returns (parts: seq<string>)
    ensures parts == PromptParts(messages)
  {
    parts := [];
    var i := 0;
    while i < |messages|
      invariant 0 <= i <= |messages|
      invariant parts == PromptParts(messages[..i])
    {
      var m := messages[i];
      PromptPartsStep(messages, i);
      if m.role == "system" {
        parts := parts + ["System: " + m.content];
      } else if m.role == "user" {
        parts := parts + ["Human: " + m.content];
      } else if m.role == "assistant" {
        parts := parts + ["Assistant: " + m.content];
      }
      i := i + 1;
    }
    assert messages[..i] == messages;
  }

  lemma PromptPartsStep(ms: seq<OutboundMessage>, i: nat)
    requires i < |ms|
    ensures PromptParts(ms[..i + 1]) == PromptParts(ms[..i]) + PartOf(ms[i])
  {
    assert ms[..i + 1][..i] == ms[..i];
  }

  /** The catalogue entries of one provider as `get_available_models` lists them, tagged with that provider. */
  function Listing(cfg: Config, provider: string): (r: seq<ModelInfo>)
    ensures IsProvider(cfg, provider) && ValidConfig(cfg) ==> r == FindProvider(cfg.aiModels, provider).value.models
    ensures !IsProvider(cfg, provider) ==> r == []
  {
    match FindProvider(cfg.aiModels, provider)
    case None => []
    case Some(p) =>
      assert ValidConfig(cfg) ==> EntriesWellFormed(p);
      seq(|p.models|, k requires 0 <= k < |p.models| =>
        ModelInfo(p.models[k].id, p.models[k].displayName, p.models[k].costPer1k, provider))
  }

  /** The dict `get_available_models` builds from an allow-list, key by key. */
  function AvailableFor(cfg: Config, allowed: seq<string>): seq<(string, seq<ModelInfo>)> {
    if allowed == [] then []
    else
      var prev := AvailableFor(cfg, allowed[..|allowed| - 1]);
      var p := allowed[|allowed| - 1];
      if IsProvider(cfg, p) then Put(prev, p, Listing(cfg, p)) else prev
  }

  /**
   * The result holds exactly the providers that are both allowed and
   * catalogued, each once, with every catalogued model of that provider.
   */
  lemma {:induction false} AvailableForSpec(cfg: Config, allowed: seq<string>, p: string)
    ensures var r := AvailableFor(cfg, allowed);
      && (p in Keys(r) <==> p in allowed && IsProvider(cfg, p))
      && (Get(r, p).Some? ==> Get(r, p).value == Listing(cfg, p))
  {
    if allowed != [] {
      var init := allowed[..|allowed| - 1];
      var prev := AvailableFor(cfg, init);
      var q := allowed[|allowed| - 1];
      AvailableForSpec(cfg, init, p);
      assert allowed == init + [q];
      if IsProvider(cfg, q) {
        if p == q {
          GetPutSame(prev, q, Listing(cfg, q));
        } else {
          GetPutOther(prev, q, Listing(cfg, q), p);
        }
      }
    }
  }

  /** Each provider appears at most once, however often the allow-list names it. */
  lemma {:induction false} AvailableForDistinct(cfg: Config, allowed: seq<string>)
    ensures DistinctKeys(AvailableFor(cfg, allowed))
  {
    if allowed != [] {
      var init := allowed[..|allowed| - 1];
      var q := allowed[|allowed| - 1];
      AvailableForDistinct(cfg, init);
      if IsProvider(cfg, q) {
        PutKeepsDistinct(AvailableFor(cfg, init), q, Listing(cfg, q));
      }
    }
  }

  /** The `'all'` wildcard is not expanded: on its own it makes no model available. */
  lemma WildcardListsNothing(cfg: Config)
    requires "all" !in ProviderNames(cfg.aiModels)
    ensures AvailableFor(cfg, ["all"]) == []
  {
    assert ["all"][..0] == [];
  }

  /** With the shipped tables, `'all'` names no provider. */
  lemma WildcardIsNoProvider()
    ensures "all" !in ProviderNames(DefaultConfig().aiModels)
  {
  }

  /** `get_available_models(user)`. */
  method GetAvailableModels(cfg: Config, user: User) returns (available: seq<(string, seq<ModelInfo>)>)
    ensures available == AvailableFor(cfg, user.GetAllowedModels())
  {
    var allowed := user.GetAllowedModels();
    available := [];
    var i := 0;
    while i < |allowed|
      invariant 0 <= i <= |allowed|
      invariant available == AvailableFor(cfg, allowed[..i])
    {
      var provider := allowed[i];
      assert allowed[..i + 1][..i] == allowed[..i];
      var entry := FindProvider(cfg.aiModels, provider);
      if entry.Some? {
        var listed := ListModels(cfg, provider, entry.value.models);
        available := Put(available, provider, listed);
      }
      i := i + 1;
    }
    assert allowed[..i] == allowed;
  }

  /** The inner loop of `get_available_models`: one record per catalogued model of `provider`. */
  method ListModels(cfg: Config, provider: string, models: seq<ModelInfo>) returns (listed: seq<ModelInfo>)
    requires FindProvider(cfg.aiModels, provider) == Some(ProviderModels(provider, models))
    ensures listed == Listing(cfg, provider)
  {
    listed := [];
    var k := 0;
    while k < |models|
      invariant 0 <= k <= |models|
      invariant |listed| == k
      invariant forall j :: 0 <= j < k ==>
        listed[j] == ModelInfo(models[j].id, models[j].displayName, models[j].costPer1k, provider)
    {
      listed := listed + [ModelInfo(models[k].id, models[k].displayName, models[k].costPer1k, provider)];
      k := k + 1;
    }
  }

  /** One line of Ollama's streamed body: empty, not JSON, or a JSON object carrying some of these keys. */
  datatype Line = Blank | Malformed | Obj(response: Option<string>, done: Option<bool>, error: Option<string>)

  /**
   * What the Ollama endpoint gives back for a streamed request: the lines
   * read before the transfer ended, and the exception that ended it, if any.
   */
  datatype OllamaReply = OllamaReply(lines: seq<Line>, failure: Option<string>)

  /** The text a line contributes: its `response`, when it is an object that has one. */
  function LineText(l: Line): seq<string> {
    if l.Obj? && l.response.Some? then [l.response.value] else []
  }

  /** The responses of the object lines, in order. */
  function StreamTexts(lines: seq<Line>): (r: seq<string>)
    ensures |r| <= |lines|
  {
    if lines == [] then [] else StreamTexts(lines[..|lines| - 1]) + LineText(lines[|lines| - 1])
  }

  lemma {:induction false} StreamTextsAppend(a: seq<Line>, b: seq<Line>)
    ensures StreamTexts(a + b) == StreamTexts(a) + StreamTexts(b)
    decreases |b|
  {
    if b == [] {
      assert a + b == a;
      AppendNothing(StreamTexts(a));
    } else {
      var init := b[..|b| - 1];
      StreamTextsAppend(a, init);
      assert (a + b)[..|a + b| - 1] == a + init;
      assert (a + b)[|a + b| - 1] == b[|b| - 1];
      AppendAssoc(StreamTexts(a), StreamTexts(init), LineText(b[|b| - 1]));
    }
  }

  /** A blank or undecodable line is skipped: it adds nothing wherever it sits in the stream. */
  lemma NoiseIsSkipped(a: seq<Line>, l: Line, b: seq<Line>)
    requires l.Blank? || l.Malformed?
    ensures StreamTexts(a + [l] + b) == StreamTexts(a + b)
  {
    assert StreamTexts([l]) == [] by {
      assert [l][..0] == [];
    }
    assert StreamTexts(a + [l]) == StreamTexts(a) by {
      StreamTextsAppend(a, [l]);
    }
    StreamTextsAppend(a + [l], b);
    StreamTextsAppend(a, b);
  }

  /** `_ollama_completion`'s fragments: the responses, then one `Ollama error:` fragment if the transfer failed. */
  function OllamaFragments(reply: OllamaReply): (r: seq<string>)
    ensures reply.failure.None? ==> r == StreamTexts(reply.lines)
    ensures reply.failure.Some? ==>
      |r| >= 1 && r[|r| - 1] == "Ollama error: " + reply.failure.value && r[..|r| - 1] == StreamTexts(reply.lines)
  {
    StreamTexts(reply.lines) + (if reply.failure.Some? then ["Ollama error: " + reply.failure.value] else [])
  }

  /** `_ollama_completion` with `stream=True`: its loop over the lines of the reply. */
  method OllamaCompletion(ollama: (string, string) -> OllamaReply, model: string, messages: seq<OutboundMessage>)
    returns (fragments: seq<string>)
    ensures fragments == OllamaFragments(ollama(model, Prompt(messages)))
  {
    var prompt := MessagesToPrompt(messages);
    var reply := ollama(model, prompt);
    fragments := [];
    var i := 0;
    while i < |reply.lines|
      invariant 0 <= i <= |reply.lines|
      invariant fragments == StreamTexts(reply.lines[..i])
    {
      var line := reply.lines[i];
      assert reply.lines[..i + 1][..i] == reply.lines[..i];
      if line.Obj? && line.response.Some? {
        fragments := fragments + [line.response.value];
      }
      i := i + 1;
    }
    assert reply.lines[..i] == reply.lines;
    if reply.failure.Some? {
      fragments := fragments + ["Ollama error: " + reply.failure.value];
    }
  }

  /** The `usage` object of a streamed cloud chunk. */
  datatype Usage = Usage(promptTokens: Option<nat>, completionTokens: Option<nat>)

  /** One streamed cloud chunk: `choices[0].delta.content` and `usage`. */
  datatype CloudChunk = CloudChunk(content: Option<string>, usage: Option<Usage>)

  /** The chunks a cloud provider streams before the stream ends, and the exception that ended it, if any. */
  datatype CloudReply = CloudReply(chunks: seq<CloudChunk>, failure: Option<string>)

  /** The contents of the chunks whose content is a non-empty string, in order. */
  function CloudTexts(chunks: seq<CloudChunk>): (r: seq<string>)
    ensures |r| <= |chunks|
  {
    if chunks == [] then []
    else
      var c := chunks[|chunks| - 1];
      CloudTexts(chunks[..|chunks| - 1]) + (if Truthy(c.content) then [c.content.value] else [])
  }

  /** The texts of a stream split in two are those of the first part followed by those of the second. */
  lemma {:induction false} CloudTextsAppend(a: seq<CloudChunk>, b: seq<CloudChunk>)
    ensures CloudTexts(a + b) == CloudTexts(a) + CloudTexts(b)
    decreases |b|
  {
    if b == [] {
      assert a + b == a;
    } else {
      var c := b[|b| - 1];
      var front := b[..|b| - 1];
      assert (a + b)[..|a + b| - 1] == a + front;
      assert (a + b)[|a + b| - 1] == c;
      CloudTextsAppend(a, front);
      var tail := if Truthy(c.content) then [c.content.value] else [];
      AppendAssoc(CloudTexts(a), CloudTexts(front), tail);
    }
  }

  /** A chunk without text, such as a final usage-only chunk, adds nothing wherever it comes in the stream. */
  lemma SilentChunkAddsNothing(a: seq<CloudChunk>, c: CloudChunk, b: seq<CloudChunk>)
    requires !Truthy(c.content)
    ensures CloudTexts(a + [c] + b) == CloudTexts(a + b)
  {
    CloudTextsAppend(a + [c], b);
    CloudTextsAppend(a, [c]);
    CloudTextsAppend(a, b);
    assert [c][..0] == [];
    assert CloudTexts([c]) == [];
    AppendNothing(CloudTexts(a));
  }

  /** The token counts the stream reported: those of the last chunk that carried a usage object, or zero. */
  function TokensAfter(chunks: seq<CloudChunk>): (counts: (nat, nat))
    ensures (forall i :: 0 <= i < |chunks| ==> chunks[i].usage.None?) ==> counts == (0, 0)
    ensures chunks != [] && chunks[|chunks| - 1].usage.Some? ==>
      counts == (chunks[|chunks| - 1].usage.value.promptTokens.GetOr(0), chunks[|chunks| - 1].usage.value.completionTokens.GetOr(0))
  {
    if chunks == [] then (0, 0)
    else
      var c := chunks[|chunks| - 1];
      if c.usage.Some? then (c.usage.value.promptTokens.GetOr(0), c.usage.value.completionTokens.GetOr(0))
      else TokensAfter(chunks[..|chunks| - 1])
  }

  /** The fields of the user that `chat_completion` reads. */
  datatype Account = Account(userId: nat, currentUsage: real, monthlyBudget: real, maxTokens: int)

  /** What a completion request is answered with, by provider, as a function of what is sent. */
  datatype OllamaBody = Body(response: Option<string>) | OllamaFailed(reason: string)
  datatype CloudAnswer = Answered(content: Option<string>) | CloudFailed(reason: string)
  datatype Backends = Backends(
    ollama: (string, string) -> OllamaReply,
    cloud: (string, seq<OutboundMessage>, int) -> CloudReply,
    ollamaWhole: (string, string) -> OllamaBody,
    cloudWhole: (string, seq<OutboundMessage>, int) -> CloudAnswer)

  /** The LiteLLM model name: `provider/model`, except for OpenAI models, which go by their bare name. */
  function ModelIdentifier(provider: string, model: string): string {
    if provider != "openai" then provider + "/" + model else model
  }

  /** OpenAI models go by their bare name; any other model is prefixed by its provider and can be read back. */
  lemma ModelIdentifierShape(provider: string, model: string)
    ensures provider == "openai" ==> ModelIdentifier(provider, model) == model
    ensures provider != "openai" ==>
      var id := ModelIdentifier(provider, model);
      StartsWith(id, provider + "/") && id[|provider| + 1..] == model
  {
  }

  function BudgetText(usage: real, budget: real): string {
    "\U{274C} Budget exceeded! Current usage: $" + Fixed2(usage) + " / $" + Fixed2(budget)
  }

  /** The refusal opens with the budget-exceeded text and closes with the budget. */
  lemma BudgetTextShape(usage: real, budget: real)
    ensures StartsWith(BudgetText(usage, budget), "\U{274C} Budget exceeded! Current usage: $")
    ensures var t := BudgetText(usage, budget); t[|t| - |Fixed2(budget)|..] == Fixed2(budget)
  {
  }

  function ErrorText(provider: string, model: string, reason: string): string {
    "Error with " + provider + "/" + model + ": " + reason
  }

  /** The error text names provider and model, then gives the reason. */
  lemma ErrorTextShape(provider: string, model: string, reason: string)
    ensures StartsWith(ErrorText(provider, model, reason), "Error with " + provider + "/" + model + ": ")
    ensures ErrorText(provider, model, reason)[|provider| + |model| + 14..] == reason
  {
  }

  /** `sum(len(msg['content'].split()) for msg in messages)`. */
  function InputWords(messages: seq<OutboundMessage>): nat {
    if messages == [] then 0 else InputWords(messages[..|messages| - 1]) + WordCount(messages[|messages| - 1].content)
  }

  /** Each message's words are part of the total. */
  lemma {:induction false} InputWordsBound(messages: seq<OutboundMessage>, i: nat)
    requires i < |messages|
    ensures WordCount(messages[i].content) <= InputWords(messages)
  {
    if i < |messages| - 1 {
      var init := messages[..|messages| - 1];
      assert init[i] == messages[i];
      InputWordsBound(init, i);
    }
  }

  /** No input words exactly when every message is blank. */
  lemma {:induction false} InputWordsZero(messages: seq<OutboundMessage>)
    ensures InputWords(messages) == 0 <==> forall i :: 0 <= i < |messages| ==> AllSpace(messages[i].content)
  {
    if messages != [] {
      var init := messages[..|messages| - 1];
      var last := messages[|messages| - 1].content;
      assert InputWords(messages) == 0 <==> InputWords(init) == 0 && WordCount(last) == 0;
      assert InputWords(init) == 0 <==> forall i :: 0 <= i < |init| ==> AllSpace(init[i].content) by {
        InputWordsZero(init);
      }
      assert WordCount(last) == 0 <==> AllSpace(last) by {
        WordCountZero(last);
      }
      BlankSplit(messages, init);
    }
  }

  /** Every message is blank exactly when all but the last are and the last one is. */
  lemma BlankSplit(messages: seq<OutboundMessage>, init: seq<OutboundMessage>)
    requires messages != [] && init == messages[..|messages| - 1]
    ensures (forall i :: 0 <= i < |messages| ==> AllSpace(messages[i].content)) <==>
      (forall i :: 0 <= i < |init| ==> AllSpace(init[i].content)) && AllSpace(messages[|messages| - 1].content)
  {
    assert forall i :: 0 <= i < |init| ==> init[i] == messages[i];
  }

  /** The pre-check: the cost of 1000 tokens must fit in what is left of the budget. */
  predicate BudgetAllows(cfg: Config, acct: Account, model: string, provider: string) {
    acct.currentUsage + CalculateCost(cfg, model, provider, 1000) <= acct.monthlyBudget
  }

  /**
   * The effects of one call of `chat_completion`: the fragments it yields,
   * the usage row it writes, the amount it adds to the user's usage and the
   * assistant message it appends to the session.
   */
  datatype Outcome = Outcome(fragments: seq<string>, log: Option<UsageLog>, charge: Option<real>, reply: Option<Message>)

  /** The accounting after a stream that ended normally. */
  function Settle(cfg: Config, acct: Account, model: string, provider: string, fragments: seq<string>,
                  inputTokens: nat, outputTokens: nat, sessionId: Option<nat>, elapsed: real): (o: Outcome)
    ensures o.fragments == fragments && o.log.Some? && o.log.value.status == "success"
    ensures Consistent(o.log.value) && o.log.value.userId == acct.userId && o.log.value.modelName == model
      && o.log.value.provider == provider && o.log.value.sessionId == sessionId
    ensures o.log.value.inputTokens == inputTokens && o.log.value.outputTokens == outputTokens
    ensures o.log.value.cost == CalculateCost(cfg, model, provider, o.log.value.totalTokens) && o.charge == Some(o.log.value.cost)
    ensures o.reply.Some? <==> sessionId.Some?
    ensures o.reply.Some? ==>
      o.reply.value == Message("assistant", Concat(fragments), Some(provider + "/" + model), o.log.value.totalTokens, o.log.value.cost)
  {
    var total := inputTokens + outputTokens;
    var cost := CalculateCost(cfg, model, provider, total);
    Outcome(fragments,
      Some(UsageRecord(acct.userId, model, provider, inputTokens, outputTokens, cost, elapsed, "success", None, sessionId)),
      Some(cost),
      if sessionId.Some? then Some(Message("assistant", Concat(fragments), Some(provider + "/" + model), total, cost)) else None)
  }

  /** The usage row of a stream that a provider error ended. */
  function ErrorRecord(acct: Account, model: string, provider: string, msg: string, sessionId: Option<nat>, elapsed: real): (log: UsageLog)
    ensures Consistent(log) && log.status == "error" && log.errorMessage == Some(msg)
    ensures log.inputTokens == 0 && log.outputTokens == 0 && log.cost == 0.0
    ensures log.userId == acct.userId && log.modelName == model && log.provider == provider && log.sessionId == sessionId
  {
    UsageRecord(acct.userId, model, provider, 0, 0, 0.0, elapsed, "error", Some(msg), sessionId)
  }

  /** `chat_completion` with `stream=True`, for a user snapshot `acct` and a session with id `sessionId`, if any. */
  function Completion(cfg: Config, acct: Account, model: string, provider: string, messages: seq<OutboundMessage>,
                      sessionId: Option<nat>, backends: Backends, elapsed: real): (o: Outcome)
    // A failed pre-check yields one fragment and has no other effect.
    ensures !BudgetAllows(cfg, acct, model, provider) ==>
      o.fragments == [BudgetText(acct.currentUsage, acct.monthlyBudget)] && o.log.None? && o.charge.None? && o.reply.None?
    // Every request that passes the pre-check is logged exactly once, with a consistent total.
    ensures BudgetAllows(cfg, acct, model, provider) <==> o.log.Some?
    ensures o.log.Some? ==>
      && Consistent(o.log.value) && o.log.value.userId == acct.userId
      && o.log.value.modelName == model && o.log.value.provider == provider && o.log.value.sessionId == sessionId
  {
    if !BudgetAllows(cfg, acct, model, provider) then
      Outcome([BudgetText(acct.currentUsage, acct.monthlyBudget)], None, None, None)
    else if provider == "ollama" then
      var fragments := OllamaFragments(backends.ollama(model, Prompt(messages)));
      Settle(cfg, acct, model, provider, fragments, InputWords(messages), WordCount(Concat(fragments)), sessionId, elapsed)
    else
      var reply := backends.cloud(ModelIdentifier(provider, model), messages, acct.maxTokens);
      var fragments := CloudTexts(reply.chunks);
      if reply.failure.Some? then
        var msg := ErrorText(provider, model, reply.failure.value);
        Outcome(fragments + ["\U{274C} " + msg], Some(ErrorRecord(acct, model, provider, msg, sessionId, elapsed)), None, None)
      else
        var counts := TokensAfter(reply.chunks);
        Settle(cfg, acct, model, provider, fragments, counts.0, counts.1, sessionId, elapsed)
  }

  /**
   * The user is charged exactly when the request succeeded, by the cost of
   * the tokens logged for it, and the session gets the whole response.
   */
  lemma CompletionCharges(cfg: Config, acct: Account, model: string, provider: string, messages: seq<OutboundMessage>,
                          sessionId: Option<nat>, backends: Backends, elapsed: real)
    ensures var o := Completion(cfg, acct, model, provider, messages, sessionId, backends, elapsed);
      && (o.charge.Some? <==> o.log.Some? && o.log.value.status == "success")
      && (o.charge.Some? ==>
            && o.charge == Some(o.log.value.cost)
            && o.log.value.cost == CalculateCost(cfg, model, provider, o.log.value.totalTokens)
            && (o.reply.Some? <==> sessionId.Some?)
            && (o.reply.Some? ==> o.reply.value == Message("assistant", Concat(o.fragments), Some(provider + "/" + model),
                                                           o.log.value.totalTokens, o.log.value.cost)))
      && (o.charge.None? ==> o.reply.None?)
  {
  }

  /**
   * A provider error is logged as an error with no tokens and no cost, is
   * not charged, appends nothing, and is reported as the last fragment.
   */
  lemma CompletionErrors(cfg: Config, acct: Account, model: string, provider: string, messages: seq<OutboundMessage>,
                         sessionId: Option<nat>, backends: Backends, elapsed: real)
    ensures var o := Completion(cfg, acct, model, provider, messages, sessionId, backends, elapsed);
      o.log.Some? && o.log.value.status != "success" ==>
        && o.log.value.status == "error" && o.log.value.totalTokens == 0 && o.log.value.cost == 0.0
        && o.charge.None? && o.reply.None? && o.log.value.errorMessage.Some?
        && o.fragments != [] && o.fragments[|o.fragments| - 1] == "\U{274C} " + o.log.value.errorMessage.value
  {
  }

  /** Ollama's failures arrive as content, so its requests always succeed; its tokens are word counts and it is free. */
  lemma CompletionOllama(cfg: Config, acct: Account, model: string, messages: seq<OutboundMessage>,
                         sessionId: Option<nat>, backends: Backends, elapsed: real)
    ensures var o := Completion(cfg, acct, model, "ollama", messages, sessionId, backends, elapsed);
      && (o.log.Some? ==> o.log.value.status == "success" && o.log.value.inputTokens == InputWords(messages)
                          && o.log.value.outputTokens == WordCount(Concat(o.fragments)))
      && (ValidConfig(cfg) ==> o.charge.None? || o.charge == Some(0.0))
  {
  }

  /** Under a valid configuration a charge is never negative: usage only grows. */
  lemma CompletionChargeNonNegative(cfg: Config, acct: Account, model: string, provider: string, messages: seq<OutboundMessage>,
                                    sessionId: Option<nat>, backends: Backends, elapsed: real)
    requires ValidConfig(cfg)
    ensures var o := Completion(cfg, acct, model, provider, messages, sessionId, backends, elapsed);
      o.charge.Some? ==> o.charge.value >= 0.0
  {
  }

  /**
   * The 1000-token estimate protects the budget for requests of at most
   * 1000 tokens: such a request never takes the user past the budget.
   */
  lemma EstimateCoversSmallRequests(cfg: Config, acct: Account, model: string, provider: string,
                                    messages: seq<OutboundMessage>, sessionId: Option<nat>, backends: Backends, elapsed: real)
    requires ValidConfig(cfg)
    ensures var o := Completion(cfg, acct, model, provider, messages, sessionId, backends, elapsed);
      o.charge.Some? && o.log.value.totalTokens <= 1000 ==> acct.currentUsage + o.charge.value <= acct.monthlyBudget
  {
    var o := Completion(cfg, acct, model, provider, messages, sessionId, backends, elapsed);
    if o.charge.Some? && o.log.value.totalTokens <= 1000 {
      CostMonotone(cfg, model, provider, o.log.value.totalTokens, 1000);
    }
  }

  /** The loop of `chat_completion` that joins Ollama's fragments into `full_response`. */
  method Accumulate(fragments: seq<string>) returns (full: string)
    ensures full == Concat(fragments)
  {
    full := "";
    var i := 0;
    while i < |fragments|
      invariant 0 <= i <= |fragments|
      invariant full == Concat(fragments[..i])
    {
      assert fragments[..i + 1][..i] == fragments[..i];
      full := full + fragments[i];
      i := i + 1;
    }
    assert fragments[..i] == fragments;
  }

  /** The loop of `chat_completion` over a cloud stream: its text, its joined response and its last token counts. */
  method ReadCloudStream(chunks: seq<CloudChunk>)
    returns (fragments: seq<string>, full: string, inputTokens: nat, outputTokens: nat)
    ensures fragments == CloudTexts(chunks) && full == Concat(fragments)
    ensures (inputTokens, outputTokens) == TokensAfter(chunks)
  {
    fragments := [];
    full := "";
    inputTokens, outputTokens := 0, 0;
    var j := 0;
    while j < |chunks|
      invariant 0 <= j <= |chunks|
      invariant fragments == CloudTexts(chunks[..j]) && full == Concat(fragments)
      invariant (inputTokens, outputTokens) == TokensAfter(chunks[..j])
    {
      var chunk := chunks[j];
      CloudStep(chunks, j);
      if Truthy(chunk.content) {
        ConcatSnoc(fragments, chunk.content.value);
        full := full + chunk.content.value;
        fragments := fragments + [chunk.content.value];
      } else {
        AppendNothing(fragments);
      }
      if chunk.usage.Some? {
        inputTokens := chunk.usage.value.promptTokens.GetOr(0);
        outputTokens := chunk.usage.value.completionTokens.GetOr(0);
      }
      j := j + 1;
    }
    assert chunks[..j] == chunks;
  }

  lemma CloudStep(chunks: seq<CloudChunk>, j: nat)
    requires j < |chunks|
    ensures var c := chunks[j];
      && CloudTexts(chunks[..j + 1]) == CloudTexts(chunks[..j]) + (if Truthy(c.content) then [c.content.value] else [])
      && TokensAfter(chunks[..j + 1]) ==
           (if c.usage.Some? then (c.usage.value.promptTokens.GetOr(0), c.usage.value.completionTokens.GetOr(0))
            else TokensAfter(chunks[..j]))
  {
    assert chunks[..j + 1][..j] == chunks[..j];
  }

  /**
   * `chat_completion(user, model, provider, messages, stream=True,
   * chat_session)`: yields the fragments of `Completion`, writes its usage
   * row, charges the user its charge and appends its reply to the session.
   * A null session stands for `None`.
   */
  method ChatCompletion(cfg: Config, user: User, model: string, provider: string, messages: seq<OutboundMessage>,
                        session: ChatSession?, ledger: UsageLedger, backends: Backends, elapsed: real)
    returns (fragments: seq<string>, ghost o: Outcome)
    requires ledger.Valid()
    modifies user`currentUsage, ledger, session
    ensures o == Completion(cfg, Account(user.id, old(user.currentUsage), user.monthlyBudget, user.maxTokensPerRequest),
                            model, provider, messages, if session == null then None else Some(session.id), backends, elapsed)
    ensures fragments == o.fragments
    ensures ledger.Valid() && ledger.entries == old(ledger.entries) + Elems(o.log)
    ensures user.currentUsage == old(user.currentUsage) + o.charge.GetOr(0.0)
    ensures session != null && o.reply.Some? ==>
      && session.messages == Stored(old(session.GetMessages()) + [o.reply.value])
      && session.totalTokens == old(session.totalTokens) + o.reply.value.tokens
      && session.totalCost == old(session.totalCost) + o.reply.value.cost
      && session.modelUsed == o.reply.value.model
    ensures session != null && o.reply.None? ==> unchanged(session)
    ensures session != null ==> session.title == old(session.title) && session.isActive == old(session.isActive)
  {
    var sessionId := if session == null then None else Some(session.id);
    var acct := Account(user.id, user.currentUsage, user.monthlyBudget, user.maxTokensPerRequest);
    var estimate := CalculateCost(cfg, model, provider, 1000);
    if !user.HasBudgetAvailable(estimate) {
      fragments := [BudgetText(user.currentUsage, user.monthlyBudget)];
      o := Outcome(fragments, None, None, None);
      return;
    }
    var outcome := ProviderOutcome(cfg, acct, model, provider, messages, sessionId, backends, elapsed);
    fragments := outcome.fragments;
    o := outcome;
    assert outcome.reply.Some? ==> Truthy(outcome.reply.value.model) by {
      assert |provider + "/" + model| > 0;
    }
    ApplyOutcome(user, session, ledger, outcome);
  }

  /** The request to the provider and the accounting of its reply, once the pre-check has passed. */
  method ProviderOutcome(cfg: Config, acct: Account, model: string, provider: string, messages: seq<OutboundMessage>,
                         sessionId: Option<nat>, backends: Backends, elapsed: real)
    returns (outcome: Outcome)
    requires BudgetAllows(cfg, acct, model, provider)
    ensures outcome == Completion(cfg, acct, model, provider, messages, sessionId, backends, elapsed)
  {
    if provider == "ollama" {
      var fragments := OllamaCompletion(backends.ollama, model, messages);
      var fullResponse := Accumulate(fragments);
      outcome := Settle(cfg, acct, model, provider, fragments, InputWords(messages), WordCount(fullResponse), sessionId, elapsed);
    } else {
      var reply := backends.cloud(ModelIdentifier(provider, model), messages, acct.maxTokens);
      var fragments, fullResponse, inputTokens, outputTokens := ReadCloudStream(reply.chunks);
      if reply.failure.Some? {
        var msg := ErrorText(provider, model, reply.failure.value);
        fragments := fragments + ["\U{274C} " + msg];
        outcome := Outcome(fragments, Some(ErrorRecord(acct, model, provider, msg, sessionId, elapsed)), None, None);
      } else {
        outcome := Settle(cfg, acct, model, provider, fragments, inputTokens, outputTokens, sessionId, elapsed);
      }
    }
  }

  /**
   * The bookkeeping at the end of `chat_completion`, in its order: the
   * usage row, then the user's usage, then the assistant message.
   */
  method ApplyOutcome(user: User, session: ChatSession?, ledger: UsageLedger, o: Outcome)
    requires ledger.Valid()
    requires o.log.Some? ==> Consistent(o.log.value)
    modifies user`currentUsage, ledger, session
    ensures ledger.Valid() && ledger.entries == old(ledger.entries) + Elems(o.log)
    ensures user.currentUsage == old(user.currentUsage) + o.charge.GetOr(0.0)
    ensures session != null && o.reply.Some? ==>
      && session.messages == Stored(old(session.GetMessages()) + [o.reply.value])
      && session.totalTokens == old(session.totalTokens) + o.reply.value.tokens
      && session.totalCost == old(session.totalCost) + o.reply.value.cost
      && session.modelUsed == if Truthy(o.reply.value.model) then o.reply.value.model else old(session.modelUsed)
    ensures session != null && o.reply.None? ==> unchanged(session)
    ensures session != null ==> session.title == old(session.title) && session.isActive == old(session.isActive)
  {
    if o.log.Some? {
      var l := o.log.value;
      var logged := ledger.LogUsage(l.userId, l.modelName, l.provider, l.inputTokens, l.outputTokens, l.cost,
                                    l.responseTime, l.status, l.errorMessage, l.sessionId);
    }
    if o.charge.Some? {
      user.AddUsage(o.charge.value);
    }
    if session != null && o.reply.Some? {
      var m := o.reply.value;
      session.AddMessage(m.role, m.content, m.model, m.tokens, m.cost);
    }
  }

  /** One entry of the `models` list given to `compare_models`. */
  datatype Choice = Choice(model: string, provider: string)

  /** One value of the dict `compare_models` returns; `None` stands for a JSON `null` response. */
  datatype Comparison = Answer(response: Option<string>, displayName: string) | Failure(error: string)

  function ChoiceKey(c: Choice): string {
    c.provider + "/" + c.model
  }

  /** `AI_MODELS.get(provider, {}).get(model, {}).get('display_name', model)`. */
  function DisplayName(cfg: Config, provider: string, model: string): (name: string)
    ensures Lookup(cfg, provider, model).None? ==> name == model
    ensures Lookup(cfg, provider, model).Some? ==> name == Lookup(cfg, provider, model).value.displayName
  {
    match Lookup(cfg, provider, model)
    case Some(info) => info.displayName
    case None => model
  }

  /** The single-message conversation `compare_models` sends. */
  function Question(prompt: string): seq<OutboundMessage> {
    [OutboundMessage("user", prompt)]
  }

  /** The entry `compare_models` records for one choice. */
  function Compared(cfg: Config, allowed: seq<string>, maxTokens: int, prompt: string, c: Choice, backends: Backends): (r: Comparison)
    ensures !Permits(allowed, c.provider) ==> r == Failure("Access denied to this model")
    ensures r.Answer? ==> Permits(allowed, c.provider) && r.displayName == DisplayName(cfg, c.provider, c.model)
  {
    if !Permits(allowed, c.provider) then Failure("Access denied to this model")
    else if c.provider == "ollama" then
      match backends.ollamaWhole(c.model, Prompt(Question(prompt)))
      case Body(text) => Answer(Some(text.GetOr("No response from Ollama")), DisplayName(cfg, c.provider, c.model))
      case OllamaFailed(e) => Failure(e)
    else
      match backends.cloudWhole(ModelIdentifier(c.provider, c.model), Question(prompt), maxTokens)
      case Answered(text) => Answer(text, DisplayName(cfg, c.provider, c.model))
      case CloudFailed(e) => Failure(e)
  }

  /** The dict `compare_models` builds, choice by choice. */
  function Comparisons(cfg: Config, allowed: seq<string>, maxTokens: int, prompt: string,
                       choices: seq<Choice>, backends: Backends): seq<(string, Comparison)>
  {
    if choices == [] then []
    else
      var c := choices[|choices| - 1];
      Put(Comparisons(cfg, allowed, maxTokens, prompt, choices[..|choices| - 1], backends), ChoiceKey(c),
          Compared(cfg, allowed, maxTokens, prompt, c, backends))
  }

  /** The keys of `choices`, in order. */
  function ChoiceKeys(choices: seq<Choice>): (ks: seq<string>)
    ensures |ks| == |choices|
  {
    if choices == [] then [] else ChoiceKeys(choices[..|choices| - 1]) + [ChoiceKey(choices[|choices| - 1])]
  }

  /**
   * Every choice gets an entry, under its `provider/model` key, and nothing
   * else does; a key chosen twice keeps the entry of its last choice.
   */
  lemma {:induction false} ComparisonsKeys(cfg: Config, allowed: seq<string>, maxTokens: int, prompt: string,
                                           choices: seq<Choice>, backends: Backends, k: string)
    ensures var r := Comparisons(cfg, allowed, maxTokens, prompt, choices, backends);
      && (k in Keys(r) <==> k in ChoiceKeys(choices))
      && (choices != [] && ChoiceKey(choices[|choices| - 1]) == k ==>
            Get(r, k) == Some(Compared(cfg, allowed, maxTokens, prompt, choices[|choices| - 1], backends)))
  {
    if choices != [] {
      var init := choices[..|choices| - 1];
      var c := choices[|choices| - 1];
      var prev := Comparisons(cfg, allowed, maxTokens, prompt, init, backends);
      var v := Compared(cfg, allowed, maxTokens, prompt, c, backends);
      ComparisonsKeys(cfg, allowed, maxTokens, prompt, init, backends, k);
      if ChoiceKey(c) == k {
        GetPutSame(prev, k, v);
      } else {
        GetPutOther(prev, ChoiceKey(c), v, k);
      }
    }
  }

  /** Each key appears at most once in the result. */
  lemma {:induction false} ComparisonsDistinct(cfg: Config, allowed: seq<string>, maxTokens: int, prompt: string,
                                               choices: seq<Choice>, backends: Backends)
    ensures DistinctKeys(Comparisons(cfg, allowed, maxTokens, prompt, choices, backends))
  {
    if choices != [] {
      var init := choices[..|choices| - 1];
      var c := choices[|choices| - 1];
      ComparisonsDistinct(cfg, allowed, maxTokens, prompt, init, backends);
      PutKeepsDistinct(Comparisons(cfg, allowed, maxTokens, prompt, init, backends), ChoiceKey(c),
                       Compared(cfg, allowed, maxTokens, prompt, c, backends));
    }
  }

  /**
   * A failure is contained: the entry under a key depends only on how the
   * choices with that key were answered, so one provider failing (or being
   * denied) leaves every other entry as it would otherwise be.
   */
  lemma {:induction false} ComparisonIsolation(cfg: Config, allowed: seq<string>, maxTokens: int, prompt: string,
                                               choices: seq<Choice>, b1: Backends, b2: Backends, k: string)
    requires forall i :: 0 <= i < |choices| && ChoiceKey(choices[i]) == k ==>
      Compared(cfg, allowed, maxTokens, prompt, choices[i], b1) == Compared(cfg, allowed, maxTokens, prompt, choices[i], b2)
    ensures Get(Comparisons(cfg, allowed, maxTokens, prompt, choices, b1), k)
         == Get(Comparisons(cfg, allowed, maxTokens, prompt, choices, b2), k)
  {
    if choices != [] {
      var init := choices[..|choices| - 1];
      var c := choices[|choices| - 1];
      ComparisonIsolation(cfg, allowed, maxTokens, prompt, init, b1, b2, k);
      var v1 := Compared(cfg, allowed, maxTokens, prompt, c, b1);
      var v2 := Compared(cfg, allowed, maxTokens, prompt, c, b2);
      var p1 := Comparisons(cfg, allowed, maxTokens, prompt, init, b1);
      var p2 := Comparisons(cfg, allowed, maxTokens, prompt, init, b2);
      if ChoiceKey(c) == k {
        GetPutSame(p1, k, v1);
        GetPutSame(p2, k, v2);
      } else {
        GetPutOther(p1, ChoiceKey(c), v1, k);
        GetPutOther(p2, ChoiceKey(c), v2, k);
      }
    }
  }

  /** `compare_models(user, prompt, models)`: the user's allow-list and token limit are read once. */
  method CompareModels(cfg: Config, user: User, prompt: string, choices: seq<Choice>, backends: Backends)
    returns (results: seq<(string, Comparison)>)
    ensures results == Comparisons(cfg, user.GetAllowedModels(), user.maxTokensPerRequest, prompt, choices, backends)
  {
    results := CompareAll(cfg, user.GetAllowedModels(), user.maxTokensPerRequest, prompt, choices, backends);
  }

  /** The loop of `compare_models` over the choices. */
  method CompareAll(cfg: Config, allowed: seq<string>, maxTokens: int, prompt: string, choices: seq<Choice>, backends: Backends)
    returns (results: seq<(string, Comparison)>)
    ensures results == Comparisons(cfg, allowed, maxTokens, prompt, choices, backends)
  {
    results := [];
    var i := 0;
    while i < |choices|
      invariant 0 <= i <= |choices|
      invariant results == Comparisons(cfg, allowed, maxTokens, prompt, choices[..i], backends)
    {
      var c := choices[i];
      assert choices[..i + 1][..i] == choices[..i];
      var entry := CompareOne(cfg, allowed, maxTokens, prompt, c, backends);
      results := Put(results, ChoiceKey(c), entry);
      i := i + 1;
    }
    assert choices[..i] == choices;
  }

  /** The body of the loop of `compare_models`: the entry for one choice. */
  method CompareOne(cfg: Config, allowed: seq<string>, maxTokens: int, prompt: string, c: Choice, backends: Backends)
    returns (entry: Comparison)
    ensures entry == Compared(cfg, allowed, maxTokens, prompt, c, backends)
  {
    if !Permits(allowed, c.provider) {
      entry := Failure("Access denied to this model");
    } else if c.provider == "ollama" {
      var question := MessagesToPrompt(Question(prompt));
      var body := backends.ollamaWhole(c.model, question);
      entry := match body
        case Body(text) => Answer(Some(text.GetOr("No response from Ollama")), DisplayName(cfg, c.provider, c.model))
        case OllamaFailed(e) => Failure(e);
    } else {
      var answer := backends.cloudWhole(ModelIdentifier(c.provider, c.model), Question(prompt), maxTokens);
      entry := match answer
        case Answered(text) => Answer(text, DisplayName(cfg, c.provider, c.model))
        case CloudFailed(e) => Failure(e);
    }
  }
}
