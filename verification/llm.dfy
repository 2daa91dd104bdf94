/** The client of the local model server (rag/llm.py): which listed model
    names count as the configured model, switching models, the RAG prompt,
    and how replies are read. The server is not modelled: each request is
    given to an oracle, a function from the request payload to the reply,
    so every answer is a function of exactly what was sent. */
module Llm {
  import opened Wrappers
  import opened Text

  /** The configured model name (config.py). */
  const DefaultModel: string := "gemma:7b"
  /** Default sampling settings of `generate` and `generate_stream`. */
  const DefaultTemperature: real := 0.7
  const DefaultMaxTokens: nat := 500

  /** One entry of the `models` list of `GET /api/tags`; its `name` may be absent. */
  datatype ModelEntry = ModelEntry(name: Option<string>)

  /** The outcome of `GET /api/tags`: a transport failure, or a status code
      with the listed models (an absent `models` key is the empty list). */
  datatype TagsReply =
    | TagsFailed
    | TagsResponse(status: int, models: seq<ModelEntry>)

  /** The JSON body posted to `/api/generate`. */
  datatype Payload = Payload(model: string, prompt: string, stream: bool,
                             temperature: real, numPredict: nat)

  /** The outcome of a non-streaming request: a transport or HTTP-status
      failure with its message, or the decoded body's `response` field. */
  datatype GenerateReply =
    | GenerateFailed(message: string)
    | GenerateOk(response: Option<string>)

  /** One line of a streamed reply: an empty line, or a JSON object with an
      optional `response` text and a `done` flag (absent means false). */
  datatype StreamLine =
    | BlankLine
    | JsonLine(response: Option<string>, done: bool)

  /** A streamed reply: the lines received, then, if the connection failed
      after them (or before any of them), the failure message. */
  datatype StreamReply = StreamReply(lines: seq<StreamLine>, failure: Option<string>)

  // ------------------------------------------------------- model matching

  /** A model's family: its name before the first ':' (`model.split(":")[0]`). */
  function Family(model: string): (f: string)
    ensures f <= model && ':' !in f
  {
    BeforeFirst(model, ':')
  }

  /** The test of rag/llm.py:32 and :60: a listed `name` stands for `model`
      when it is the same name or starts with the model's family. */
  predicate Matches(name: string, model: string)
  {
    name == model || Family(model) <= name
  }

  /** Another tag of the same family matches. */
  lemma SameFamilyMatches(name: string, model: string)
    requires Family(name) == Family(model)
    ensures Matches(name, model)
  {
  }

  /** The match is a prefix test, not a family test: a name of another
      family that extends the model's family name (such as "gemma2:9b" for
      "gemma:7b") matches as well. */
  lemma LongerFamilyMatches(model: string, rest: string)
    requires rest != [] && rest[0] != ':'
    ensures Matches(Family(model) + rest, model)
    ensures Family(Family(model) + rest) != Family(model)
  {
    var f := Family(model);
    var name := f + rest;
    assert name[|f|] == rest[0];
  }

  /** `[m.get("name", "") for m in models]`. */
  function ListedNames(models: seq<ModelEntry>): seq<string>
  {
    seq(|models|, i requires 0 <= i < |models| => models[i].name.GetOr(""))
  }

  /** `get_available_models`: the listed names when the server answered 200,
      otherwise (another status or a transport failure) no names. */
  function AvailableModels(reply: TagsReply): (names: seq<string>)
    ensures reply.TagsResponse? && reply.status == 200 ==> |names| == |reply.models|
    ensures !(reply.TagsResponse? && reply.status == 200) ==> names == []
  {
    if reply.TagsResponse? && reply.status == 200 then ListedNames(reply.models) else []
  }

  /** What `is_available` reports for `model`: status 200 and some listed
      name that matches. */
  predicate Available(model: string, reply: TagsReply)
  {
    && reply.TagsResponse?
    && reply.status == 200
    && exists i :: 0 <= i < |reply.models| && Matches(reply.models[i].name.GetOr(""), model)
  }

  /** `is_available` and `set_model` consult the same listing: a model is
      available exactly when one of the names `get_available_models` returns
      matches it. */
  lemma AvailableIffListed(model: string, reply: TagsReply)
    ensures Available(model, reply) <==>
            exists j :: 0 <= j < |AvailableModels(reply)| && Matches(AvailableModels(reply)[j], model)
  {
    if Available(model, reply) {
      var i :| 0 <= i < |reply.models| && Matches(reply.models[i].name.GetOr(""), model);
      assert AvailableModels(reply)[i] == reply.models[i].name.GetOr("");
    }
  }

  // --------------------------------------------------------------- prompt

  /** The fixed text of `_build_rag_prompt` before the context. */
  const RagPreamble: string :=
    "You are a friendly and helpful tourist guide for Częstochowa, Poland.\n\n"
    + "INSTRUCTIONS:\n"
    + "1. Answer the question using ONLY the information from the Context below.\n"
    + "2. If the context contains relevant information, provide a helpful answer with specific details (names, addresses, ratings).\n"
    + "3. If the context contains RELATED information (e.g., user asks about \"Jasna Góra\" and context mentions \"Wieża Jasnogórska\" or related sites), use that information and explain the connection.\n"
    + "4. Be conversational and helpful. Recommend the best options based on ratings.\n"
    + "5. If you truly cannot find relevant information, politely say so and suggest what IS available.\n\n"
    + ContextHeader
  /** The last line of the preamble, after which the context follows. */
  const ContextHeader: string := "Context:\n"
  /** The text between the context and the question. */
  const QuestionTag: string := "\n\nQuestion: "
  /** The text after the question. */
  const AnswerTag: string := "\n\nAnswer:"

  /** The layout of `_build_rag_prompt` for given instructions `preamble`:
      the instructions, then the context verbatim, then the question verbatim
      after "Question: ", then "Answer:" at the very end. */
  function PromptLayout(preamble: string, question: string, context: string): (p: string)
    ensures |p| == |preamble| + |context| + |QuestionTag| + |question| + |AnswerTag|
    ensures preamble <= p
    ensures p[|preamble|..][..|context|] == context
    ensures p[|preamble| + |context|..][..|QuestionTag|] == QuestionTag
    ensures p[|preamble| + |context| + |QuestionTag|..][..|question|] == question
    ensures p[|p| - 7..] == "Answer:"
  {
    preamble + context + QuestionTag + question + AnswerTag
  }

  /** `_build_rag_prompt(question, context)`; the preamble ends with
      `ContextHeader`, so the context follows "Context:\n". */
  function RagPrompt(question: string, context: string): string
  {
    PromptLayout(RagPreamble, question, context)
  }

  /** Given the context's length, the prompt determines both the context and
      the question: nothing is lost in building it. */
  lemma RagPromptInjective(preamble: string, q1: string, c1: string, q2: string, c2: string)
    requires |c1| == |c2| && PromptLayout(preamble, q1, c1) == PromptLayout(preamble, q2, c2)
    ensures q1 == q2 && c1 == c2
  {
    var p := PromptLayout(preamble, q1, c1);
    assert c1 == p[|preamble|..][..|c1|] == c2;
    assert |q1| == |q2|;
    assert q1 == p[|preamble| + |c1| + |QuestionTag|..][..|q1|] == q2;
  }

  /** Prompt selection in `generate` and `generate_stream`: an empty context
      sends the prompt unchanged, any other context is wrapped. */
  function PromptFor(prompt: string, context: string): (p: string)
    ensures context == "" ==> p == prompt
    ensures context != "" ==> p == RagPrompt(prompt, context)
  {
    if context != "" then RagPrompt(prompt, context) else prompt
  }

  // ------------------------------------------------------- reading replies

  /** The prefix of the text `generate` returns when the request fails. */
  const GenerateErrorPrefix: string := "Error communicating with Ollama: "

  /** How `generate` turns the server's reply into its answer. */
  function ReadReply(reply: GenerateReply): (answer: string)
    ensures reply.GenerateFailed? ==> GenerateErrorPrefix <= answer
    ensures reply.GenerateOk? && reply.response.None? ==> answer == ""
    ensures reply.GenerateOk? ==> answer == [] || (!IsSpace(answer[0]) && !IsSpace(answer[|answer| - 1]))
  {
    match reply
    case GenerateFailed(message) => GenerateErrorPrefix + message
    case GenerateOk(response) =>
      Strip(response.GetOr(""))
  }

  /** The chunks `generate_stream` yields for the lines of a streamed reply:
      the `response` of each non-blank line in order, stopping after the first
      line marked done; if the lines run out and the connection failed, one
      final "Error: ..." chunk. */
  function StreamChunks(lines: seq<StreamLine>, failure: Option<string>): seq<string>
  {
    if lines == [] then
      (if failure.Some? then ["Error: " + failure.value] else [])
    else
      Emitted(lines[0]) + (if Ends(lines[0]) then [] else StreamChunks(lines[1..], failure))
  }

  /** The text a line yields: its `response`, if it has one. */
  function Emitted(line: StreamLine): seq<string>
  {
    if line.JsonLine? && line.response.Some? then [line.response.value] else []
  }

  /** Whether a line ends the stream: a JSON line marked done. */
  predicate Ends(line: StreamLine)
  {
    line.JsonLine? && line.done
  }

  predicate HasDone(lines: seq<StreamLine>)
  {
    exists k :: 0 <= k < |lines| && lines[k].JsonLine? && lines[k].done
  }

  /** Nothing after a line marked done is read: once such a line has
      arrived, later lines and a later failure change nothing. */
  lemma {:induction false} StreamStopsAtDone(pre: seq<StreamLine>, rest: seq<StreamLine>, failure: Option<string>)
    requires HasDone(pre)
    ensures StreamChunks(pre + rest, failure) == StreamChunks(pre, None)
  {
    assert (pre + rest)[0] == pre[0];
    assert (pre + rest)[1..] == pre[1..] + rest;
    if !(pre[0].JsonLine? && pre[0].done) {
      var k :| 0 <= k < |pre| && pre[k].JsonLine? && pre[k].done;
      assert pre[1..][k - 1] == pre[k];
      StreamStopsAtDone(pre[1..], rest, failure);
    }
  }

  /** At most one chunk per line, plus the error chunk. */
  lemma {:induction false} StreamChunksBound(lines: seq<StreamLine>, failure: Option<string>)
    ensures |StreamChunks(lines, failure)| <= |lines| + 1
    ensures failure.None? ==> |StreamChunks(lines, failure)| <= |lines|
  {
    if lines != [] {
      StreamChunksBound(lines[1..], failure);
    }
  }

  /** A request that fails before any line arrives yields exactly one chunk,
      the error text. */
  lemma StreamFailureAlone(message: string)
    ensures StreamChunks([], Some(message)) == ["Error: " + message]
  {
  }

  /** One line of the stream: a blank line yields nothing; a JSON line
      yields its `response`, if any, and stops the loop when marked done. */
  method ReadLine(line: StreamLine) returns (text: seq<string>, stop: bool)
    ensures text == Emitted(line) && stop == Ends(line)
  {
    text, stop := [], false;
    match line {
      case BlankLine =>
      case JsonLine(response, done) =>
        if response.Some? {
          text := [response.value];
        }
        stop := done;
    }
  }

  /** One step of the loop over the lines: what line `i` yields, then, unless
      it ends the stream, what the lines after it yield. */
  lemma StreamStep(lines: seq<StreamLine>, i: nat, failure: Option<string>, before: seq<string>)
    requires i < |lines|
    requires before + StreamChunks(lines[i..], failure) == StreamChunks(lines, failure)
    ensures Ends(lines[i]) ==> before + Emitted(lines[i]) == StreamChunks(lines, failure)
    ensures !Ends(lines[i]) ==>
      (before + Emitted(lines[i])) + StreamChunks(lines[i + 1..], failure) == StreamChunks(lines, failure)
  {
    assert lines[i..][1..] == lines[i + 1..];
    assert lines[i..][0] == lines[i];
    if Ends(lines[i]) {
      assert StreamChunks(lines[i..], failure) == Emitted(lines[i]) + [];
      assert Emitted(lines[i]) + [] == Emitted(lines[i]);
    }
  }

  /** The loop of `generate_stream` over the received lines: blank lines are
      skipped, each `response` is yielded in order, the first line marked
      done ends the loop, and a failure after the last line adds one
      "Error: ..." chunk. */
  method ReadStream(lines: seq<StreamLine>, failure: Option<string>) returns (chunks: seq<string>)
    ensures chunks == StreamChunks(lines, failure)
  {
    chunks := [];
    var i := 0;
    while i < |lines|
      invariant 0 <= i <= |lines|
      invariant chunks + StreamChunks(lines[i..], failure) == StreamChunks(lines, failure)
    {
      StreamStep(lines, i, failure, chunks);
      var text, stop := ReadLine(lines[i]);
      chunks := chunks + text;
      if stop {
        return;
      }
      i := i + 1;
    }
    if failure.Some? {
      chunks := chunks + ["Error: " + failure.value];
    }
  }

  // ------------------------------------------------------------ the client

  /** `LLM`: the model name is the only state its methods change. */
  class Client {
    var model: string
    const baseUrl: string

    constructor (baseUrl: string, model: string := DefaultModel)
      ensures this.model == model && this.baseUrl == baseUrl
    {
      this.model := model;
      this.baseUrl := baseUrl;
    }

    /** `get_current_model`. */
    function CurrentModel(): (m: string)
      reads this
      ensures m == model
    {
      model
    }

    /** `is_available`, with the reply of `GET /api/tags` as input: false on a
        transport failure or a status other than 200, otherwise whether some
        listed name matches the current model. */
    method IsAvailable(reply: TagsReply) returns (ok: bool)
      ensures ok == Available(model, reply)
    {
      if !reply.TagsResponse? || reply.status != 200 {
        return false;
      }
      var names := ListedNames(reply.models);
      var i := 0;
      while i < |names|
        invariant 0 <= i <= |names|
        invariant forall j :: 0 <= j < i ==> !Matches(reply.models[j].name.GetOr(""), model)
      {
        if names[i] == model || Family(model) <= names[i] {
          return true;
        }
        i := i + 1;
      }
      return false;
    }

    /** `set_model`: switches to `modelName` exactly when some name the
        server lists matches it, and then the new model is available by the
        same listing; otherwise the model is unchanged. */
    method SetModel(modelName: string, reply: TagsReply) returns (ok: bool)
      modifies this
      ensures ok <==> exists j :: 0 <= j < |AvailableModels(reply)| && Matches(AvailableModels(reply)[j], modelName)
      ensures model == if ok then modelName else old(model)
      ensures ok ==> Available(model, reply)
    {
      var available := AvailableModels(reply);
      for i := 0 to |available|
        invariant forall j :: 0 <= j < i ==> !Matches(available[j], modelName)
      {
        if available[i] == modelName || Family(modelName) <= available[i] {
          model := modelName;
          AvailableIffListed(model, reply);
          return true;
        }
      }
      return false;
    }

    /** The payload `generate` (stream false) or `generate_stream` (stream
        true) posts. */
    function RequestPayload(prompt: string, context: string, stream: bool,
                            temperature: real, maxTokens: nat): (p: Payload)
      reads this
      ensures p.model == model && p.stream == stream
      ensures p.prompt == PromptFor(prompt, context)
    {
      Payload(model, PromptFor(prompt, context), stream, temperature, maxTokens)
    }

    /** `generate`: the server's reply to the payload, read by `ReadReply`;
        a failed request becomes an error text instead of an exception. */
    function Generate(prompt: string, context: string, temperature: real, maxTokens: nat,
                      server: Payload -> GenerateReply): (answer: string)
      reads this
      ensures server(RequestPayload(prompt, context, false, temperature, maxTokens)).GenerateFailed?
              ==> GenerateErrorPrefix <= answer
    {
      ReadReply(server(RequestPayload(prompt, context, false, temperature, maxTokens)))
    }

    /** `generate_stream`: reads the streamed lines in order, skipping blank
        ones, yielding each `response` and stopping after the first line
        marked done; a failure adds one "Error: ..." chunk. */
    method GenerateStream(prompt: string, context: string, temperature: real, maxTokens: nat,
                          server: Payload -> StreamReply) returns (chunks: seq<string>)
      ensures var reply := server(RequestPayload(prompt, context, true, temperature, maxTokens));
              chunks == StreamChunks(reply.lines, reply.failure)
    {
      var reply := server(RequestPayload(prompt, context, true, temperature, maxTokens));
      chunks := ReadStream(reply.lines, reply.failure);
    }
  }
}
