/**
 * The local assistant (app.py): the Ollama client's line stream, the
 * streaming and whole-reply chat loops over it with the in-memory chat
 * history, the choice of available models at start-up, and the exception
 * handler of the chat endpoint.
 */
module LocalApp {
  import opened Common
  import opened Text

  /** A decoded JSON object of the generate stream: `response`, `done` (absent is false) and `error`. */
  datatype Chunk = Chunk(response: Option<string>, done: bool, error: Option<string>)

  /** One line of the HTTP body, and what `json.loads` makes of it (`None` when it fails). */
  datatype RawLine = RawLine(text: string, parsed: Option<Chunk>)

  /** What `session.post(..., stream=True)` gives: the lines read, and the exception that ended the transfer, if any. */
  datatype HttpReply = HttpReply(lines: seq<RawLine>, failure: Option<string>)

  /**
   * A line is passed on when `line.strip()` is not empty, that is when it is
   * not all whitespace (Text.StripEmpty), and it parses.
   */
  predicate Kept(l: RawLine) {
    !AllSpace(l.text) && l.parsed.Some?
  }

  /** The objects of the kept lines, in order. */
  function Decoded(lines: seq<RawLine>): (r: seq<Chunk>)
    ensures |r| <= |lines|
  {
    if lines == [] then []
    else
      var l := lines[|lines| - 1];
      Decoded(lines[..|lines| - 1]) + (if Kept(l) then [l.parsed.value] else [])
  }

  lemma {:induction false} DecodedAppend(a: seq<RawLine>, b: seq<RawLine>)
    ensures Decoded(a + b) == Decoded(a) + Decoded(b)
    decreases |b|
  {
    if b == [] {
      AppendNothing(a);
      AppendNothing(Decoded(a));
    } else {
      var init := b[..|b| - 1];
      var last := b[|b| - 1];
      DecodedAppend(a, init);
      assert b == init + [last];
      AppendAssoc(a, init, [last]);
      assert (a + b)[..|a + b| - 1] == a + init;
      assert (a + b)[|a + b| - 1] == last;
      AppendAssoc(Decoded(a), Decoded(init), if Kept(last) then [last.parsed.value] else []);
    }
  }

  /** A blank or unparsable line anywhere in the body leaves no trace in the stream. */
  lemma SkippedLineVanishes(a: seq<RawLine>, l: RawLine, b: seq<RawLine>)
    requires !Kept(l)
    ensures Decoded(a + [l] + b) == Decoded(a + b)
  {
    calc {
      Decoded(a + [l] + b);
      == { DecodedAppend(a + [l], b); }
      Decoded(a + [l]) + Decoded(b);
      == { DecodedAppend(a, [l]); assert [l][..0] == []; }
      Decoded(a) + Decoded(b);
      == { DecodedAppend(a, b); }
      Decoded(a + b);
    }
  }

  /** The `{"error": str(e)}` object yielded when the transfer fails. */
  function ErrorChunk(message: string): Chunk {
    Chunk(None, false, Some(message))
  }

  /** Everything `generate_stream` yields for a reply. */
  function Streamed(reply: HttpReply): (r: seq<Chunk>)
    ensures reply.failure.None? ==> r == Decoded(reply.lines)
    ensures reply.failure.Some? ==> |r| == |Decoded(reply.lines)| + 1 && r[|r| - 1] == ErrorChunk(reply.failure.value)
  {
    Decoded(reply.lines) + (if reply.failure.Some? then [ErrorChunk(reply.failure.value)] else [])
  }

  /** The Ollama HTTP client. */
  class OllamaClient {
    const host: string

    /** `host.rstrip('/')`: the address loses every trailing slash and nothing else. */
    constructor (host: string)
      ensures this.host == [] || this.host[|this.host| - 1] != '/'
      ensures |this.host| <= |host| && this.host == host[..|this.host|]
      ensures forall i :: |this.host| <= i < |host| ==> host[i] == '/'
    {
      this.host := RStripChar(host, '/');
    }

    /**
     * `generate_stream`: posts to `<host>/api/generate` and yields the
     * objects of the kept lines in order, then one error object if the
     * transfer failed.
     */
    method GenerateStream(post: (string, string, string) -> HttpReply, model: string, prompt: string)
      returns (chunks: seq<Chunk>)
      ensures chunks == Streamed(post(host + "/api/generate", model, prompt))
    {
      var reply := post(host + "/api/generate", model, prompt);
      chunks := DecodeLines(reply.lines);
      if reply.failure.Some? {
        chunks := chunks + [ErrorChunk(reply.failure.value)];
      }
    }
  }

  /** Stripping trailing slashes twice is stripping them once. */
  lemma {:induction false} StripSlashesIdempotent(s: string)
    ensures RStripChar(RStripChar(s, '/'), '/') == RStripChar(s, '/')
  {
  }

  lemma DecodedStep(lines: seq<RawLine>, i: nat)
    requires i < |lines|
    ensures Decoded(lines[..i + 1]) == Decoded(lines[..i]) + (if Kept(lines[i]) then [lines[i].parsed.value] else [])
  {
    assert lines[..i + 1][..i] == lines[..i];
  }

  /** The `iter_lines` loop: skip blank lines and lines that fail to parse. */
  method DecodeLines(lines: seq<RawLine>) returns (chunks: seq<Chunk>)
    ensures chunks == Decoded(lines)
  {
    chunks := [];
    var i := 0;
    while i < |lines|
      invariant 0 <= i <= |lines|
      invariant chunks == Decoded(lines[..i])
    {
      DecodedStep(lines, i);
      if !AllSpace(lines[i].text) {
        match lines[i].parsed {
          case Some(c) => chunks := chunks + [c];
          case None =>
        }
      }
      i := i + 1;
    }
    assert lines[..i] == lines;
  }

  /** How a stream is consumed: the contents emitted, and the error that ended it, if one did. */
  datatype Consumed = Consumed(contents: seq<string>, aborted: Option<string>)

  /**
   * `stream_response`'s loop from position i on: an error object ends the
   * stream at once; otherwise a `response` is emitted, and a `done` object
   * ends the stream after its own content.
   */
  function ConsumeFrom(chunks: seq<Chunk>, i: nat): Consumed
    requires i <= |chunks|
    decreases |chunks| - i
  {
    if i == |chunks| then Consumed([], None)
    else
      var c := chunks[i];
      if c.error.Some? then Consumed([], c.error)
      else
        var rest := if c.done then Consumed([], None) else ConsumeFrom(chunks, i + 1);
        Consumed(Elems(c.response) + rest.contents, rest.aborted)
  }

  function Consume(chunks: seq<Chunk>): Consumed {
    ConsumeFrom(chunks, 0)
  }

  /** Neither an error nor the end. */
  predicate Clean(c: Chunk) {
    c.error.None? && !c.done
  }

  /** The `response` fields present, in order. */
  function Responses(chunks: seq<Chunk>): seq<string> {
    if chunks == [] then [] else Responses(chunks[..|chunks| - 1]) + Elems(chunks[|chunks| - 1].response)
  }

  /** Over a clean prefix of length k the stream emits every response and goes on from k. */
  lemma {:induction false} ConsumeAfterClean(chunks: seq<Chunk>, k: nat)
    requires k <= |chunks|
    requires forall j :: 0 <= j < k ==> Clean(chunks[j])
    ensures Consume(chunks) == Consumed(Responses(chunks[..k]) + ConsumeFrom(chunks, k).contents, ConsumeFrom(chunks, k).aborted)
  {
    if k > 0 {
      ConsumeAfterClean(chunks, k - 1);
      assert chunks[..k][..k - 1] == chunks[..k - 1];
      var rest := ConsumeFrom(chunks, k);
      assert Responses(chunks[..k - 1]) + (Elems(chunks[k - 1].response) + rest.contents)
          == Responses(chunks[..k - 1]) + Elems(chunks[k - 1].response) + rest.contents;
    }
  }

  /** A stream with no error and no `done` is emitted whole. */
  lemma ConsumeClean(chunks: seq<Chunk>)
    requires forall j :: 0 <= j < |chunks| ==> Clean(chunks[j])
    ensures Consume(chunks) == Consumed(Responses(chunks), None)
  {
    ConsumeAfterClean(chunks, |chunks|);
    assert chunks[..|chunks|] == chunks;
  }

  /** The stream stops at the first `done`, after its content; nothing after it is looked at. */
  lemma ConsumeStopsAtDone(a: seq<Chunk>, d: Chunk, b: seq<Chunk>)
    requires forall j :: 0 <= j < |a| ==> Clean(a[j])
    requires d.error.None? && d.done
    ensures Consume(a + [d] + b) == Consumed(Responses(a) + Elems(d.response), None)
  {
    var s := a + [d] + b;
    ConsumeAfterClean(s, |a|);
    assert s[..|a|] == a;
  }

  /** The first error object ends the stream with that error and without its content. */
  lemma ConsumeAbortsAtError(a: seq<Chunk>, e: Chunk, b: seq<Chunk>)
    requires forall j :: 0 <= j < |a| ==> Clean(a[j])
    requires e.error.Some?
    ensures Consume(a + [e] + b) == Consumed(Responses(a), e.error)
  {
    var s := a + [e] + b;
    ConsumeAfterClean(s, |a|);
    assert s[..|a|] == a;
    assert Responses(a) + [] == Responses(a);
  }

  /** One `data:` event of the local stream. */
  datatype Event = ContentEvent(content: string) | ErrorEvent(error: string) | DoneEvent

  function ContentEvents(contents: seq<string>): (es: seq<Event>)
    ensures |es| == |contents| && forall i :: 0 <= i < |es| ==> es[i] == ContentEvent(contents[i])
  {
    seq(|contents|, i requires 0 <= i < |contents| => ContentEvent(contents[i]))
  }

  /** The events of a consumed stream: one per content, then the error or the single `done`. */
  function Events(c: Consumed): seq<Event> {
    ContentEvents(c.contents) + (if c.aborted.Some? then [ErrorEvent(c.aborted.value)] else [DoneEvent])
  }

  lemma ContentEventsSnoc(contents: seq<string>, x: string)
    ensures ContentEvents(contents + [x]) == ContentEvents(contents) + [ContentEvent(x)]
  {
  }

  /** Appending an optional fragment to the text and to the fragments keeps them in step. */
  lemma TextStep(taken: seq<string>, fullResponse: string, response: Option<string>)
    requires fullResponse == Concat(taken)
    ensures fullResponse + (if response.Some? then response.value else "") == Concat(taken + Elems(response))
  {
    if response.Some? {
      ConcatSnoc(taken, response.value);
    } else {
      AppendNothing(taken);
    }
  }

  /** One turn of the streaming loop, as it moves the emitted contents forward. */
  lemma ConsumeMoves(chunks: seq<Chunk>, i: nat, contents: seq<string>)
    requires i < |chunks|
    requires Consume(chunks) == Consumed(contents + ConsumeFrom(chunks, i).contents, ConsumeFrom(chunks, i).aborted)
    ensures chunks[i].error.Some? ==> Consume(chunks) == Consumed(contents, chunks[i].error)
    ensures chunks[i].error.None? && chunks[i].done ==> Consume(chunks) == Consumed(contents + Elems(chunks[i].response), None)
    ensures Clean(chunks[i]) ==>
      Consume(chunks) == Consumed(contents + Elems(chunks[i].response) + ConsumeFrom(chunks, i + 1).contents, ConsumeFrom(chunks, i + 1).aborted)
  {
    var e := Elems(chunks[i].response);
    if chunks[i].error.Some? {
      AppendNothing(contents);
    } else if chunks[i].done {
      AppendNothing(e);
    } else {
      AppendAssoc(contents, e, ConsumeFrom(chunks, i + 1).contents);
    }
  }

  /** The loop of `stream_response`, with `full_response` collected beside the events. */
  method ConsumeStream(chunks: seq<Chunk>) returns (events: seq<Event>, fullResponse: string, aborted: Option<string>)
    ensures events == Events(Consume(chunks))
    ensures aborted == Consume(chunks).aborted
    ensures fullResponse == Concat(Consume(chunks).contents)
  {
    ghost var contents: seq<string> := [];
    events := [];
    fullResponse := "";
    aborted := None;
    var finished := false;
    var i := 0;
    while i < |chunks| && !finished
      invariant 0 <= i <= |chunks|
      invariant events == ContentEvents(contents) && fullResponse == Concat(contents)
      invariant !finished ==> aborted.None? && Consume(chunks) == Consumed(contents + ConsumeFrom(chunks, i).contents, ConsumeFrom(chunks, i).aborted)
      invariant finished ==> Consume(chunks) == Consumed(contents, aborted)
      decreases |chunks| - i
    {
      var c := chunks[i];
      ConsumeMoves(chunks, i, contents);
      if c.error.Some? {
        aborted := c.error;
        finished := true;
      } else {
        TextStep(contents, fullResponse, c.response);
        if c.response.Some? {
          ContentEventsSnoc(contents, c.response.value);
          fullResponse := fullResponse + c.response.value;
          events := events + [ContentEvent(c.response.value)];
        } else {
          AppendNothing(contents);
        }
        contents := contents + Elems(c.response);
        if c.done {
          finished := true;
        }
      }
      i := i + 1;
    }
    if !finished {
      assert contents + [] == contents;
    }
    events := events + (if aborted.Some? then [ErrorEvent(aborted.value)] else [DoneEvent]);
  }

  /** The non-streaming loop from position i on: every `response` up to and including the first `done`; error objects are not looked at. */
  function UntilDoneFrom(chunks: seq<Chunk>, i: nat): seq<string>
    requires i <= |chunks|
    decreases |chunks| - i
  {
    if i == |chunks| then []
    else Elems(chunks[i].response) + (if chunks[i].done then [] else UntilDoneFrom(chunks, i + 1))
  }

  function UntilDone(chunks: seq<Chunk>): seq<string> {
    UntilDoneFrom(chunks, 0)
  }

  lemma {:induction false} ModesAgreeFrom(chunks: seq<Chunk>, i: nat)
    requires i <= |chunks|
    requires forall j :: 0 <= j < |chunks| ==> chunks[j].error.None?
    ensures UntilDoneFrom(chunks, i) == ConsumeFrom(chunks, i).contents
    ensures ConsumeFrom(chunks, i).aborted.None?
    decreases |chunks| - i
  {
    if i < |chunks| && !chunks[i].done {
      ModesAgreeFrom(chunks, i + 1);
    }
  }

  /** Without error objects both chat modes collect the same text, and the stream ends normally. */
  lemma ModesAgree(chunks: seq<Chunk>)
    requires forall j :: 0 <= j < |chunks| ==> chunks[j].error.None?
    ensures UntilDone(chunks) == Consume(chunks).contents
    ensures Consume(chunks).aborted.None?
  {
    ModesAgreeFrom(chunks, 0);
  }

  /** One turn of the non-streaming loop moves one fragment from what is left to what is taken. */
  lemma CollectStep(chunks: seq<Chunk>, i: nat, taken: seq<string>)
    requires i < |chunks|
    requires UntilDone(chunks) == taken + UntilDoneFrom(chunks, i)
    ensures chunks[i].done ==> UntilDone(chunks) == taken + Elems(chunks[i].response)
    ensures !chunks[i].done ==> UntilDone(chunks) == taken + Elems(chunks[i].response) + UntilDoneFrom(chunks, i + 1)
  {
    var e := Elems(chunks[i].response);
    if chunks[i].done {
      AppendNothing(e);
    } else {
      AppendAssoc(taken, e, UntilDoneFrom(chunks, i + 1));
    }
  }

  /** The loop of the non-streaming chat. */
  method CollectUntilDone(chunks: seq<Chunk>) returns (fullResponse: string)
    ensures fullResponse == Concat(UntilDone(chunks))
  {
    fullResponse := "";
    var i := 0;
    var finished := false;
    ghost var taken: seq<string> := [];
    ghost var rest := UntilDone(chunks);
    while i < |chunks| && !finished
      invariant 0 <= i <= |chunks|
      invariant fullResponse == Concat(taken)
      invariant UntilDone(chunks) == taken + rest
      invariant finished ==> rest == []
      invariant !finished ==> rest == UntilDoneFrom(chunks, i)
      decreases |chunks| - i
    {
      var c := chunks[i];
      ghost var next := taken + Elems(c.response);
      assert fullResponse + (if c.response.Some? then c.response.value else "") == Concat(next) by {
        TextStep(taken, fullResponse, c.response);
      }
      if c.response.Some? {
        fullResponse := fullResponse + c.response.value;
      }
      if c.done {
        finished := true;
        rest := [];
        assert UntilDone(chunks) == next + rest by {
          CollectStep(chunks, i, taken);
          AppendNothing(next);
        }
      } else {
        rest := UntilDoneFrom(chunks, i + 1);
        assert UntilDone(chunks) == next + rest by {
          CollectStep(chunks, i, taken);
        }
      }
      taken := next;
      i := i + 1;
    }
    assert rest == [] by {
      if !finished {
        assert i == |chunks|;
      }
    }
    AppendNothing(taken);
  }

  /** An entry of `KNOWN_MODELS`. */
  datatype KnownModel = KnownModel(name: string, display: string, recommended: bool)

  function KnownModels(): (r: seq<KnownModel>)
    ensures |r| == 5
  {
    [ KnownModel("llama3.2:latest", "LLaMA 3.2 (Recomendado)", true),
      KnownModel("phi3:mini", "Phi-3 Mini (Rápido)", true),
      KnownModel("llama3.1:latest", "LLaMA 3.1", true),
      KnownModel("mistral:latest", "Mistral 7B", false),
      KnownModel("codellama:latest", "Code Llama", false) ]
  }

  /** `any(model["name"] in local for local in local_models)`. */
  predicate Installed(localModels: seq<string>, name: string): (b: bool)
    ensures b <==> exists j :: 0 <= j < |localModels| && Contains(localModels[j], name)
    ensures (exists j :: 0 <= j < |localModels| && localModels[j] == name) ==> b
    ensures b ==> exists j :: 0 <= j < |localModels| && |name| <= |localModels[j]|
  {
    if exists j :: 0 <= j < |localModels| && localModels[j] == name then
      var j :| 0 <= j < |localModels| && localModels[j] == name;
      assert OccursAt(localModels[j], name, 0);
      true
    else
      exists j :: 0 <= j < |localModels| && Contains(localModels[j], name)
  }

  /** The known models whose name occurs in some installed model's name, in their own order. */
  function Matching(known: seq<KnownModel>, localModels: seq<string>): (r: seq<KnownModel>)
    ensures |r| <= |known|
    ensures forall i :: 0 <= i < |r| ==> r[i] in known && Installed(localModels, r[i].name)
    ensures forall i :: 0 <= i < |known| && Installed(localModels, known[i].name) ==> known[i] in r
  {
    if known == [] then []
    else
      var k := known[|known| - 1];
      Matching(known[..|known| - 1], localModels) + (if Installed(localModels, k.name) then [k] else [])
  }

  lemma MatchingStep(known: seq<KnownModel>, localModels: seq<string>, i: nat)
    requires i < |known|
    ensures Matching(known[..i + 1], localModels)
      == Matching(known[..i], localModels) + (if Installed(localModels, known[i].name) then [known[i]] else [])
  {
    assert known[..i + 1][..i] == known[..i];
  }

  /** The loop that appends the matching known models. */
  method MatchKnown(available: seq<KnownModel>, known: seq<KnownModel>, localModels: seq<string>) returns (r: seq<KnownModel>)
    ensures r == available + Matching(known, localModels)
  {
    r := available;
    var i := 0;
    while i < |known|
      invariant 0 <= i <= |known|
      invariant r == available + Matching(known[..i], localModels)
    {
      ghost var before := Matching(known[..i], localModels);
      var hit := Installed(localModels, known[i].name);
      assert Matching(known[..i + 1], localModels) == before + (if hit then [known[i]] else []) by {
        MatchingStep(known, localModels, i);
      }
      if hit {
        AppendAssoc(available, before, [known[i]]);
        r := r + [known[i]];
      } else {
        AppendNothing(before);
      }
      i := i + 1;
    }
    assert known[..i] == known;
  }

  /** An entry of the in-memory chat history. */
  datatype Turn = Turn(role: string, content: string)

  /** The prompt both chat modes send. */
  function PromptFor(message: string): (p: string)
    ensures |p| == |message| + 25
    ensures StartsWith(p, "Utilizador: ") && p[12..|p| - 13] == message && p[|p| - 13..] == "\nAssistente: "
  {
    "Utilizador: " + message + "\nAssistente: "
  }

  /** An exception on its way out of an endpoint. */
  datatype Raised = HttpError(status: nat, detail: string) | OtherError(message: string)

  /** `str(e)`: an HTTP exception prints as `<status>: <detail>`. */
  function Describe(e: Raised): string {
    match e
    case HttpError(status, detail) => NatToString(status) + ": " + detail
    case OtherError(message) => message
  }

  /** The chat endpoint's `except Exception` as written: every exception, HTTP ones included, becomes a 500. */
  function HandledAsWritten(e: Raised): (r: Raised)
    ensures r.HttpError? && r.status == 500 && r.detail == Describe(e)
  {
    HttpError(500, Describe(e))
  }

  /** The unavailable-service error of the chat endpoint. */
  function Unavailable(): Raised {
    HttpError(503, "Ollama indisponível - verifique container")
  }

  /** As written, the 503 raised for an unreachable Ollama reaches the client as a 500. */
  lemma UnavailableBecomes500()
    ensures HandledAsWritten(Unavailable()).status == 500
    ensures HandledAsWritten(Unavailable()) != Unavailable()
  {
  }

  /** The handler as intended: HTTP exceptions pass through, anything else becomes a 500. */
  function Handled(e: Raised): (r: Raised)
    ensures e.HttpError? ==> r == e
    ensures e.OtherError? ==> r == HttpError(500, e.message)
  {
    if e.HttpError? then e else HttpError(500, Describe(e))
  }

  /** The reply of the chat endpoint. */
  datatype ChatReply = Failed(error: Raised) | EventStream(events: seq<Event>) | Whole(response: string)

  /** The application object with its mutable state. */
  class LocalAssistant {
    var client: OllamaClient?
    var chatHistory: seq<Turn>
    var availableModels: seq<KnownModel>

    constructor ()
      ensures client == null && chatHistory == [] && availableModels == []
    {
      client := null;
      chatHistory := [];
      availableModels := [];
    }

    /**
     * `initialize_models`: a new client for the host; when Ollama answers,
     * the known models that are installed are appended, and when none are
     * (or Ollama is offline) the first three known models are used.
     */
    method InitializeModels(host: string, connected: bool, localModels: seq<string>)
      modifies this`client, this`availableModels
      ensures client != null && fresh(client) && client.host == RStripChar(host, '/')
      ensures connected && old(availableModels) + Matching(KnownModels(), localModels) != [] ==>
        availableModels == old(availableModels) + Matching(KnownModels(), localModels)
      ensures connected && old(availableModels) + Matching(KnownModels(), localModels) == [] ==>
        availableModels == KnownModels()[..3]
      ensures !connected ==> availableModels == KnownModels()[..3]
      ensures availableModels != []
    {
      client := new OllamaClient(host);
      if connected {
        availableModels := MatchKnown(availableModels, KnownModels(), localModels);
        if availableModels == [] {
          availableModels := KnownModels()[..3];
        }
      } else {
        availableModels := KnownModels()[..3];
      }
    }

    /** `GET /api/models`: the available names, or the default pair when there are none. */
    function ModelNames(): (names: seq<string>)
      reads this
      ensures availableModels != [] ==>
        |names| == |availableModels| && forall i :: 0 <= i < |names| ==> names[i] == availableModels[i].name
      ensures availableModels == [] ==> names == ["llama3.2:latest", "phi3:mini"]
    {
      if availableModels != [] then seq(|availableModels|, i requires 0 <= i < |availableModels| reads this => availableModels[i].name)
      else ["llama3.2:latest", "phi3:mini"]
    }

    /** `POST /api/clear-history`. */
    method ClearHistory()
      modifies this`chatHistory
      ensures chatHistory == []
    {
      chatHistory := [];
    }

    /**
     * `stream_response`: one content event per `response` up to the first
     * `done`; an error object gives one error event and ends the stream with
     * no history entry; otherwise the whole text is added to the history and
     * a single `done` event follows.
     */
    method StreamResponse(message: string, model: string, post: (string, string, string) -> HttpReply)
      returns (events: seq<Event>)
      modifies this`chatHistory
      ensures client == null ==> events == [ErrorEvent("Ollama indisponível")] && chatHistory == old(chatHistory)
      ensures client != null ==>
        var c := Consume(Streamed(post(client.host + "/api/generate", model, PromptFor(message))));
        && events == Events(c)
        && chatHistory == old(chatHistory) + (if c.aborted.None? then [Turn("assistant", Concat(c.contents))] else [])
    {
      if client == null {
        return [ErrorEvent("Ollama indisponível")];
      }
      var chunks := client.GenerateStream(post, model, PromptFor(message));
      var fullResponse, aborted;
      events, fullResponse, aborted := ConsumeStream(chunks);
      if aborted.None? {
        chatHistory := chatHistory + [Turn("assistant", fullResponse)];
      }
    }

    /**
     * `POST /api/chat`: an absent or unreachable Ollama is refused with 503;
     * otherwise the user's turn is recorded and the reply streamed, or
     * collected up to the first `done` and recorded as the assistant's turn.
     */
    method Chat(message: string, model: string, stream: bool, connected: bool, post: (string, string, string) -> HttpReply)
      returns (reply: ChatReply)
      modifies this`chatHistory
      ensures client == null || !connected ==>
        reply == Failed(Handled(Unavailable())) && reply.error.status == 503 && chatHistory == old(chatHistory)
      ensures client != null && connected && stream ==>
        var c := Consume(Streamed(post(client.host + "/api/generate", model, PromptFor(message))));
        && reply == EventStream(Events(c))
        && chatHistory == old(chatHistory) + [Turn("user", message)]
                          + (if c.aborted.None? then [Turn("assistant", Concat(c.contents))] else [])
      ensures client != null && connected && !stream ==>
        var text := Concat(UntilDone(Streamed(post(client.host + "/api/generate", model, PromptFor(message)))));
        && reply == Whole(text)
        && chatHistory == old(chatHistory) + [Turn("user", message), Turn("assistant", text)]
    {
      if client == null || !connected {
        return Failed(Handled(Unavailable()));
      }
      chatHistory := chatHistory + [Turn("user", message)];
      if stream {
        var events := StreamResponse(message, model, post);
        reply := EventStream(events);
      } else {
        var chunks := client.GenerateStream(post, model, PromptFor(message));
        var fullResponse := CollectUntilDone(chunks);
        chatHistory := chatHistory + [Turn("assistant", fullResponse)];
        reply := Whole(fullResponse);
      }
    }
  }
}
