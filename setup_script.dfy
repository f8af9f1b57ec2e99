/**
 * The installer's text handling (setup.py): the placeholder each
 * configuration key is written under, the substitution of generated
 * secrets into the configuration template, and the interactive API-key
 * prompts with their prefix check and the configuration update. Random
 * tokens, console input and the files' contents are parameters.
 */
module Setup {
  import opened Common
  import opened Text

  /** A character of a configuration key: upper-case letter, digit or underscore. */
  predicate KeyChar(c: char) {
    ('A' <= c <= 'Z') || ('0' <= c <= '9') || c == '_'
  }

  /** One character of `key.lower().replace("_", "-")` (keys are ASCII). */
  function SlugChar(c: char): char {
    if c == '_' then '-'
    else if 'A' <= c <= 'Z' then (c as int - 'A' as int + 'a' as int) as char
    else c
  }

  /** `key.lower().replace("_", "-")`. */
  function Slug(key: string): (s: string)
    ensures |s| == |key|
    ensures forall i :: 0 <= i < |key| ==> s[i] == SlugChar(key[i])
  {
    seq(|key|, i requires 0 <= i < |key| => SlugChar(key[i]))
  }

  /** The placeholder a key stands under in the template: `your-` and the key's slug. */
  function Placeholder(key: string): (p: string)
    ensures |p| == 5 + |key| && p[..5] == "your-"
    ensures forall i :: 0 <= i < |key| ==> p[5 + i] == SlugChar(key[i])
  {
    "your-" + Slug(key)
  }

  /** A slug has no underscore and no upper-case letter. */
  lemma SlugIsLowerKebab(key: string)
    ensures forall i :: 0 <= i < |Slug(key)| ==> Slug(key)[i] != '_' && !('A' <= Slug(key)[i] <= 'Z')
  {
  }

  /** Distinct keys get distinct placeholders, so no secret lands in another key's place. */
  lemma PlaceholderInjective(a: string, b: string)
    requires forall i :: 0 <= i < |a| ==> KeyChar(a[i])
    requires forall i :: 0 <= i < |b| ==> KeyChar(b[i])
    requires Placeholder(a) == Placeholder(b)
    ensures a == b
  {
    assert |a| == |b|;
    forall i | 0 <= i < |a|
      ensures a[i] == b[i]
    {
      assert Placeholder(a)[5 + i] == Placeholder(b)[5 + i];
      SlugCharInjective(a[i], b[i]);
    }
  }

  lemma SlugCharInjective(c: char, d: char)
    requires KeyChar(c) && KeyChar(d) && SlugChar(c) == SlugChar(d)
    ensures c == d
  {
    if 'A' <= c <= 'Z' && 'A' <= d <= 'Z' {
      assert (c as int - 'A' as int + 'a' as int) == (d as int - 'A' as int + 'a' as int);
    }
  }

  /**
   * `generate_secrets`, given the four random hex tokens: four keys in this
   * order, the two LiteLLM keys prefixed with `sk-`.
   */
  function GenerateSecrets(hex32a: string, hex16a: string, hex16b: string, hex32b: string): (r: seq<(string, string)>)
    ensures |r| == 4
    ensures r[0] == ("SECRET_KEY", hex32a) && r[3] == ("JWT_SECRET_KEY", hex32b)
    ensures r[1].0 == "LITELLM_MASTER_KEY" && StartsWith(r[1].1, "sk-") && r[1].1[3..] == hex16a
    ensures r[2].0 == "LITELLM_SALT_KEY" && StartsWith(r[2].1, "sk-") && r[2].1[3..] == hex16b
  {
    [ ("SECRET_KEY", hex32a),
      ("LITELLM_MASTER_KEY", "sk-" + hex16a),
      ("LITELLM_SALT_KEY", "sk-" + hex16b),
      ("JWT_SECRET_KEY", hex32b) ]
  }

  /** One secret into the template: the `-here` variant of its placeholder first, then the bare one. */
  function FillOne(template: string, key: string, value: string): string {
    var p := Placeholder(key);
    ReplaceAll(ReplaceAll(template, p + "-here", value), p, value)
  }

  /** The template after the secrets from index i on, in dictionary order. */
  function FilledFrom(template: string, secrets: seq<(string, string)>, i: nat): string
    decreases |secrets| - i
  {
    if i >= |secrets| then template
    else FilledFrom(FillOne(template, secrets[i].0, secrets[i].1), secrets, i + 1)
  }

  /** The substitution loop of `setup_environment`. */
  method FillSecrets(template: string, secrets: seq<(string, string)>) returns (filled: string)
    ensures filled == FilledFrom(template, secrets, 0)
  {
    filled := template;
    var i := 0;
    while i < |secrets|
      invariant 0 <= i <= |secrets|
      invariant FilledFrom(filled, secrets, i) == FilledFrom(template, secrets, 0)
    {
      var (key, value) := secrets[i];
      filled := ReplaceAll(filled, Placeholder(key) + "-here", value);
      filled := ReplaceAll(filled, Placeholder(key), value);
      i := i + 1;
    }
  }

  /**
   * Why the `-here` variant goes first: a template holding `your-k-here`
   * receives exactly the secret, while the bare placeholder first would
   * leave a stray `-here` behind it.
   */
  lemma HereVariantFirst(key: string, value: string)
    requires key != [] && !Contains(value, Placeholder(key))
    ensures FillOne(Placeholder(key) + "-here", key, value) == value
    ensures ReplaceAll(Placeholder(key) + "-here", Placeholder(key), value) == value + "-here"
  {
    var p := Placeholder(key);
    ReplaceWhole(p + "-here", value);
    ReplaceAbsent(value, p, value);
    assert (p + "-here")[..|p|] == p;
    assert (p + "-here")[|p|..] == "-here";
    assert ReplaceAll("-here", p, value) == "-here";
  }

  /** The template written when `config.env.example` is missing. */
  function DefaultTemplate(): string {
    "# Database Configuration\nDATABASE_URL=sqlite:///app/data/enhanced_users.db\nSECRET_KEY=your-secret-key-here\n\n# AI Provider API Keys\nOPENAI_API_KEY=your-openai-api-key\nANTHROPIC_API_KEY=your-anthropic-api-key\nGOOGLE_API_KEY=your-google-api-key\nGROQ_API_KEY=your-groq-api-key\n\n# Ollama Configuration\nOLLAMA_BASE_URL=http://localhost:11434\nOLLAMA_DEFAULT_MODEL=llama3\n\n# LiteLLM Configuration\nLITELLM_MASTER_KEY=your-litellm-master-key\nLITELLM_SALT_KEY=your-litellm-salt-key\nLITELLM_PORT=4000\n\n# Redis Configuration\nREDIS_URL=redis://localhost:6379/0\n\n# Application Settings\nFLASK_ENV=development\nFLASK_DEBUG=True\nMAX_CHAT_HISTORY=100\nDEFAULT_USER_BUDGET=20.00\nENABLE_USAGE_TRACKING=True\n\n# Security Settings\nJWT_SECRET_KEY=your-jwt-secret-key\nBCRYPT_LOG_ROUNDS=12\nRATE_LIMIT_STORAGE_URL=redis://localhost:6379/1\n"
  }

  /** The example file's text when it exists, else the built-in template. */
  function Template(example: Option<string>): string {
    match example
    case Some(text) => text
    case None => DefaultTemplate()
  }

  /**
   * `setup_environment`: the example file's text when it exists, else the
   * built-in template, with the generated secrets filled in; the result is
   * what is written to `config.env`.
   */
  method SetupEnvironment(example: Option<string>, hex32a: string, hex16a: string, hex16b: string, hex32b: string)
    returns (config: string)
    ensures config == FilledFrom(Template(example), GenerateSecrets(hex32a, hex16a, hex16b, hex32b), 0)
  {
    var secrets := GenerateSecrets(hex32a, hex16a, hex16b, hex32b);
    config := FillSecrets(Template(example), secrets);
  }

  /** The provider keys `get_api_keys` asks for, in order. */
  function Providers(): seq<string> {
    ["OPENAI_API_KEY", "ANTHROPIC_API_KEY", "GOOGLE_API_KEY", "GROQ_API_KEY"]
  }

  /** The accepted key formats. */
  predicate ValidApiKey(k: string): (b: bool)
    ensures b ==> |k| >= 3 && k[0] in "sgAx"
    ensures b ==> (|k| >= 3 && k[..3] == "sk-") || (|k| >= 4 && (k[..4] == "gsk_" || k[..4] == "AIza" || k[..4] == "xai-"))
    ensures |k| >= 4 && (k[..4] == "gsk_" || k[..4] == "AIza" || k[..4] == "xai-") ==> b
    ensures |k| >= 3 && k[..3] == "sk-" ==> b
  {
    StartsWith(k, "sk-") || StartsWith(k, "gsk_") || StartsWith(k, "AIza") || StartsWith(k, "xai-")
  }

  /** One console answer, stripped: blank, a well-formed key, or anything else. */
  datatype Reply = Blank | WellFormed(key: string) | Malformed

  /** How the prompt reads one line. */
  function ReplyTo(line: string): (r: Reply)
    ensures r.Blank? <==> AllSpace(line)
    ensures r.WellFormed? <==> !AllSpace(line) && ValidApiKey(Strip(line))
    ensures r.WellFormed? ==> r.key == Strip(line)
  {
    var answer := Strip(line);
    StripEmpty(line);
    if answer == [] then Blank
    else if ValidApiKey(answer) then WellFormed(answer)
    else Malformed
  }

  /**
   * How the prompt for one provider ends: skipped on a blank answer,
   * accepted on a well-formed key (both consume the lines before `next`),
   * or out of input, where `input()` raises and the installer stops.
   */
  datatype Answer = Skipped(next: nat) | Accepted(key: string, next: nat) | OutOfInput

  /**
   * The prompt for one provider, reading the console's replies from index
   * i: it ends at the first blank or well-formed reply, malformed keys being
   * asked again.
   */
  function AnswerFrom(replies: seq<Reply>, i: nat): (a: Answer)
    ensures !a.OutOfInput? ==> i < a.next <= |replies|
    ensures a.Skipped? ==> replies[a.next - 1].Blank?
    ensures a.Accepted? ==> replies[a.next - 1] == WellFormed(a.key)
    decreases |replies| - i
  {
    if i >= |replies| then OutOfInput
    else
      match replies[i]
      case Blank => Skipped(i + 1)
      case WellFormed(key) => Accepted(key, i + 1)
      case Malformed => AnswerFrom(replies, i + 1)
  }

  /** Every reply read before the one that ended the prompt was malformed; out of input means all were. */
  lemma {:induction false} AnswerSkipsMalformed(replies: seq<Reply>, i: nat)
    ensures var a := AnswerFrom(replies, i);
      !a.OutOfInput? ==> forall j :: i <= j < a.next - 1 ==> replies[j].Malformed?
    ensures AnswerFrom(replies, i).OutOfInput? ==> forall j :: i <= j < |replies| ==> replies[j].Malformed?
    decreases |replies| - i
  {
    if i < |replies| && replies[i].Malformed? {
      AnswerSkipsMalformed(replies, i + 1);
    }
  }

  /** `input().strip()` read line by line, as the prompt sees each line. */
  function Replies(lines: seq<string>): (rs: seq<Reply>)
    ensures |rs| == |lines|
    ensures forall j :: 0 <= j < |lines| ==> rs[j] == ReplyTo(lines[j])
  {
    seq(|lines|, j requires 0 <= j < |lines| => ReplyTo(lines[j]))
  }

  /** Every well-formed reply carries a key of an accepted format. */
  predicate WellFormedKeysValid(replies: seq<Reply>) {
    forall j :: 0 <= j < |replies| && replies[j].WellFormed? ==> ValidApiKey(replies[j].key)
  }

  lemma RepliesValid(lines: seq<string>)
    ensures WellFormedKeysValid(Replies(lines))
  {
    forall j | 0 <= j < |lines| && Replies(lines)[j].WellFormed?
      ensures ValidApiKey(Replies(lines)[j].key)
    {
      var r := ReplyTo(lines[j]);
      assert r.key == Strip(lines[j]);
    }
  }

  /** `api_keys` with `acc` already collected and `more` still to come (nothing, if the input ran out). */
  function Extend(acc: seq<(string, string)>, more: Option<seq<(string, string)>>): Option<seq<(string, string)>> {
    if more.None? then None else Some(acc + more.value)
  }

  /**
   * The keys collected for the providers from index p on, the replies being
   * read from index i: a skipped provider records nothing, an accepted one
   * records its key; `None` when the input runs out.
   */
  function CollectedFrom(providers: seq<string>, replies: seq<Reply>, p: nat, i: nat): (r: Option<seq<(string, string)>>)
    requires p <= |providers| && i <= |replies|
    ensures r.Some? ==> |r.value| <= |providers| - p
    ensures r.Some? ==> forall e :: e in r.value ==> e.0 in providers[p..] && WellFormed(e.1) in replies[i..]
    decreases |providers| - p
  {
    if p >= |providers| then Some([])
    else
      match AnswerFrom(replies, i)
      case OutOfInput => None
      case Skipped(n) => CollectedFrom(providers, replies, p + 1, n)
      case Accepted(key, n) => Extend([(providers[p], key)], CollectedFrom(providers, replies, p + 1, n))
  }

  /** The inner `while True` of the prompt for one provider. */
  method Ask(replies: seq<Reply>, i: nat) returns (a: Answer)
    ensures a == AnswerFrom(replies, i)
  {
    var j := i;
    while j < |replies|
      invariant i <= j
      invariant AnswerFrom(replies, j) == AnswerFrom(replies, i)
      decreases |replies| - j
    {
      match replies[j]
      case Blank => return Skipped(j + 1);
      case WellFormed(key) => return Accepted(key, j + 1);
      case Malformed => j := j + 1;
    }
    return OutOfInput;
  }

  /** The prompt loop of `get_api_keys` over the providers in order. */
  method CollectKeys(providers: seq<string>, replies: seq<Reply>) returns (apiKeys: Option<seq<(string, string)>>)
    ensures apiKeys == CollectedFrom(providers, replies, 0, 0)
  {
    var acc: seq<(string, string)> := [];
    var p := 0;
    var i := 0;
    assert Extend(acc, CollectedFrom(providers, replies, p, i)) == CollectedFrom(providers, replies, 0, 0) by {
      var r := CollectedFrom(providers, replies, 0, 0);
      if r.Some? {
        assert acc + r.value == r.value;
      }
    }
    while p < |providers|
      invariant p <= |providers| && i <= |replies|
      invariant Extend(acc, CollectedFrom(providers, replies, p, i)) == CollectedFrom(providers, replies, 0, 0)
    {
      var a := Ask(replies, i);
      match a {
        case OutOfInput =>
          return None;
        case Skipped(n) =>
          i := n;
        case Accepted(key, n) =>
          CollectStep(acc, (providers[p], key), CollectedFrom(providers, replies, p + 1, n));
          acc := acc + [(providers[p], key)];
          i := n;
      }
      p := p + 1;
    }
    AppendNothing(acc);
    apiKeys := Some(acc);
  }

  lemma CollectStep(acc: seq<(string, string)>, e: (string, string), more: Option<seq<(string, string)>>)
    ensures Extend(acc, Extend([e], more)) == Extend(acc + [e], more)
  {
    if more.Some? {
      AppendAssoc(acc, [e], more.value);
    }
  }

  /**
   * What `get_api_keys` records: only keys of an accepted format, each
   * under one of the providers asked for.
   */
  lemma {:induction false} CollectedKeysValid(providers: seq<string>, replies: seq<Reply>, p: nat, i: nat)
    requires p <= |providers| && i <= |replies|
    requires WellFormedKeysValid(replies)
    ensures var r := CollectedFrom(providers, replies, p, i);
      r.Some? ==> forall e :: e in r.value ==> ValidApiKey(e.1) && e.0 in providers
    decreases |providers| - p
  {
    var r := CollectedFrom(providers, replies, p, i);
    if r.Some? {
      forall e | e in r.value
        ensures ValidApiKey(e.1) && e.0 in providers
      {
        assert WellFormed(e.1) in replies[i..];
        var j :| i <= j < |replies| && replies[j] == WellFormed(e.1);
        assert e.0 in providers[p..];
      }
    }
  }

  /** The rewritten `config.env` after the keys from index j on: `K=your-k` becomes `K=value`. */
  function UpdatedFrom(config: string, apiKeys: seq<(string, string)>, j: nat): string
    decreases |apiKeys| - j
  {
    if j >= |apiKeys| then config
    else
      var (key, value) := apiKeys[j];
      UpdatedFrom(ReplaceAll(config, key + "=" + Placeholder(key), key + "=" + value), apiKeys, j + 1)
  }

  /** The substitution loop of the configuration update. */
  method UpdateConfig(config: string, apiKeys: seq<(string, string)>) returns (updated: string)
    ensures updated == UpdatedFrom(config, apiKeys, 0)
  {
    updated := config;
    var j := 0;
    while j < |apiKeys|
      invariant j <= |apiKeys|
      invariant UpdatedFrom(updated, apiKeys, j) == UpdatedFrom(config, apiKeys, 0)
    {
      var (key, value) := apiKeys[j];
      updated := ReplaceAll(updated, key + "=" + Placeholder(key), key + "=" + value);
      j := j + 1;
    }
  }

  /** A placeholder line for an accepted key receives exactly that key. */
  lemma UpdateFillsLine(key: string, value: string)
    ensures UpdatedFrom(key + "=" + Placeholder(key), [(key, value)], 0) == key + "=" + value
  {
    ReplaceWhole(key + "=" + Placeholder(key), key + "=" + value);
  }

  /** What `get_api_keys` leaves behind. */
  datatype KeySetup = Aborted | Finished(apiKeys: seq<(string, string)>, written: Option<string>)

  /**
   * `get_api_keys`, given the console lines and the current `config.env`
   * (if the file exists): the installer stops when the input runs out;
   * otherwise the file is rewritten only when some key was accepted and the
   * file exists, with each accepted key in its placeholder's place.
   */
  method GetApiKeys(lines: seq<string>, configFile: Option<string>) returns (r: KeySetup)
    ensures r.Aborted? <==> CollectedFrom(Providers(), Replies(lines), 0, 0).None?
    ensures r.Finished? ==> Some(r.apiKeys) == CollectedFrom(Providers(), Replies(lines), 0, 0)
    ensures r.Finished? ==> forall e :: e in r.apiKeys ==> ValidApiKey(e.1) && e.0 in Providers()
    ensures r.Finished? ==> (r.written.Some? <==> r.apiKeys != [] && configFile.Some?)
    ensures r.Finished? && r.written.Some? ==> r.written.value == UpdatedFrom(configFile.value, r.apiKeys, 0)
  {
    var replies := Replies(lines);
    var collected := CollectKeys(Providers(), replies);
    if collected.None? {
      return Aborted;
    }
    RepliesValid(lines);
    CollectedKeysValid(Providers(), replies, 0, 0);
    var apiKeys := collected.value;
    if apiKeys != [] && configFile.Some? {
      var updated := UpdateConfig(configFile.value, apiKeys);
      r := Finished(apiKeys, Some(updated));
    } else {
      r := Finished(apiKeys, None);
    }
  }
}
