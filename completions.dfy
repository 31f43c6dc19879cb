/** The completions endpoint: its descriptor, its request body and the three
    request initialisers, which differ only in how they take the prompt. */
module Completions {
  import opened Wrappers
  import opened Http
  import opened Endpoint
  import opened Client
  import opened Prompt

  /** The completion models; each is sent as its raw value. */
  datatype Model = Davinci | Curie | Babbage | Ada

  function ModelRawValue(m: Model): string
  {
    match m
    case Davinci => "text-davinci-003"
    case Curie => "text-curie-001"
    case Babbage => "text-babbage-001"
    case Ada => "text-ada-001"
  }

  /** A Swift `Double`, carried as its 64 bits and never computed with. */
  datatype Double = Double(bits: bv64)

  /** The request body. */
  datatype Request = Request(
    model: Model,
    prompt: Option<seq<string>>,
    suffix: Option<string>,
    maxTokens: Option<int>,
    temperature: Option<Double>,
    topP: Option<Double>,
    n: Option<int>,
    stream: Option<bool>,
    logprobs: Option<int>,
    echo: Option<bool>,
    stop: Option<seq<string>>,
    presencePenalty: Option<Double>,
    frequencyPenalty: Option<Double>,
    bestOf: Option<int>,
    logitBias: Option<map<string, int>>,
    user: Option<string>)

  /** The memberwise initialiser taking the prompt as an optional array:
      every argument is stored as given, and omitted ones are nil. */
  function RequestWithPrompts(
    model: Model, prompt: Option<seq<string>>, suffix: Option<string> := None, maxTokens: Option<int> := None,
    temperature: Option<Double> := None, topP: Option<Double> := None, n: Option<int> := None,
    stream: Option<bool> := None, logprobs: Option<int> := None, echo: Option<bool> := None,
    stop: Option<seq<string>> := None, presencePenalty: Option<Double> := None,
    frequencyPenalty: Option<Double> := None, bestOf: Option<int> := None,
    logitBias: Option<map<string, int>> := None, user: Option<string> := None): (r: Request)
    ensures r.model == model && r.prompt == prompt && r.suffix == suffix && r.maxTokens == maxTokens
    ensures r.temperature == temperature && r.topP == topP && r.n == n && r.stream == stream
    ensures r.logprobs == logprobs && r.echo == echo && r.stop == stop && r.presencePenalty == presencePenalty
    ensures r.frequencyPenalty == frequencyPenalty && r.bestOf == bestOf && r.logitBias == logitBias && r.user == user
  {
    Request(model, prompt, suffix, maxTokens, temperature, topP, n, stream, logprobs, echo, stop,
            presencePenalty, frequencyPenalty, bestOf, logitBias, user)
  }

  /** `[prompt].compactMap { $0 }`: nil becomes the empty array. */
  function Compacted(prompt: Option<string>): (r: seq<string>)
    ensures prompt.None? <==> r == []
    ensures prompt.Some? ==> r == [prompt.value]
  {
    if prompt.Some? then [prompt.value] else []
  }

  /** The initialiser taking the prompt as an optional string. */
  function RequestWithText(
    model: Model, prompt: Option<string>, suffix: Option<string> := None, maxTokens: Option<int> := None,
    temperature: Option<Double> := None, topP: Option<Double> := None, n: Option<int> := None,
    stream: Option<bool> := None, logprobs: Option<int> := None, echo: Option<bool> := None,
    stop: Option<seq<string>> := None, presencePenalty: Option<Double> := None,
    frequencyPenalty: Option<Double> := None, bestOf: Option<int> := None,
    logitBias: Option<map<string, int>> := None, user: Option<string> := None): (r: Request)
    ensures r.prompt.Some? && |r.prompt.value| <= 1
    ensures prompt.None? ==> r.prompt == Some([])
    ensures prompt.Some? ==> r.prompt == Some([prompt.value])
    ensures r.(prompt := None) == RequestWithPrompts(model, None, suffix, maxTokens, temperature, topP, n, stream,
                                                     logprobs, echo, stop, presencePenalty, frequencyPenalty,
                                                     bestOf, logitBias, user)
  {
    RequestWithPrompts(model, Some(Compacted(prompt)), suffix, maxTokens, temperature, topP, n, stream, logprobs,
                       echo, stop, presencePenalty, frequencyPenalty, bestOf, logitBias, user)
  }

  /** The initialiser taking a `Prompt`: it is rendered to its string. */
  function RequestWithPrompt(
    model: Model, prompt: Option<Prompt>, suffix: Option<string> := None, maxTokens: Option<int> := None,
    temperature: Option<Double> := None, topP: Option<Double> := None, n: Option<int> := None,
    stream: Option<bool> := None, logprobs: Option<int> := None, echo: Option<bool> := None,
    stop: Option<seq<string>> := None, presencePenalty: Option<Double> := None,
    frequencyPenalty: Option<Double> := None, bestOf: Option<int> := None,
    logitBias: Option<map<string, int>> := None, user: Option<string> := None): (r: Request)
    ensures prompt.None? ==> r.prompt == Some([])
    ensures prompt.Some? ==> r.prompt == Some([PromptString(prompt.value)])
    ensures r.(prompt := None) == RequestWithPrompts(model, None, suffix, maxTokens, temperature, topP, n, stream,
                                                     logprobs, echo, stop, presencePenalty, frequencyPenalty,
                                                     bestOf, logitBias, user)
  {
    var text := if prompt.Some? then Some(PromptString(prompt.value)) else None;
    RequestWithText(model, text, suffix, maxTokens, temperature, topP, n, stream, logprobs, echo, stop,
                    presencePenalty, frequencyPenalty, bestOf, logitBias, user)
  }

  /** The optional string stored by `RequestWithText`, read back. */
  function StoredText(prompts: seq<string>): Option<string>
  {
    if |prompts| == 0 then None else Some(prompts[0])
  }

  /** The string initialiser loses nothing: the optional prompt can be read
      back from the stored array, so distinct prompts give distinct requests. */
  lemma TextPromptRoundTrip(
    model: Model, prompt: Option<string>, suffix: Option<string>, maxTokens: Option<int>,
    temperature: Option<Double>, topP: Option<Double>, n: Option<int>, stream: Option<bool>,
    logprobs: Option<int>, echo: Option<bool>, stop: Option<seq<string>>, presencePenalty: Option<Double>,
    frequencyPenalty: Option<Double>, bestOf: Option<int>, logitBias: Option<map<string, int>>, user: Option<string>)
    ensures var r := RequestWithText(model, prompt, suffix, maxTokens, temperature, topP, n, stream, logprobs,
                                     echo, stop, presencePenalty, frequencyPenalty, bestOf, logitBias, user);
      StoredText(r.prompt.value) == prompt
  {
  }

  /** With every optional argument omitted, the memberwise initialiser
      leaves all of them nil. */
  lemma OmittedArgumentsAreNil(model: Model, prompt: Option<seq<string>>)
    ensures var r := RequestWithPrompts(model, prompt);
      && r.model == model && r.prompt == prompt
      && r.suffix.None? && r.maxTokens.None? && r.temperature.None? && r.topP.None? && r.n.None?
      && r.stream.None? && r.logprobs.None? && r.echo.None? && r.stop.None? && r.presencePenalty.None?
      && r.frequencyPenalty.None? && r.bestOf.None? && r.logitBias.None? && r.user.None?
  {
  }

  /** `Completions(request:)`: POST to /v1/completions with the request as body. */
  function CompletionsEndpoint(request: Request): (e: EndpointDescriptor<Request>)
    ensures e.path == "/v1/completions" && e.httpMethod == POST
    ensures e.body == Some(request)
    ensures e.scheme == DefaultScheme && e.host == DefaultHost && e.header.None?
    ensures e.responseType == CompletionsResponse
  {
    Defaulted("/v1/completions", POST, CompletionsResponse).(body := Some(request))
  }

  /** A compiled completions request carries the encoded request as its body,
      and fails as a whole when the request cannot be encoded. */
  lemma CompletionsBodyIsEncoded(urlOf: UrlBuilder, encode: Encoder<Request>, request: Request,
                                 configuration: Configuration)
    ensures encode(request).None? ==> RequestFor(urlOf, encode, CompletionsEndpoint(request), configuration).None?
    ensures RequestFor(urlOf, encode, CompletionsEndpoint(request), configuration).Some? ==>
              RequestFor(urlOf, encode, CompletionsEndpoint(request), configuration).value.httpBody == encode(request)
              && RequestFor(urlOf, encode, CompletionsEndpoint(request), configuration).value.httpMethod == "POST"
  {
  }

  /** One choice of a completions response. */
  datatype Choice = Choice(text: string, index: int, logprobs: Option<int>, finishReason: string)

  /** `description`: the type name, then the text quoted in parentheses. */
  function ChoiceDescription(c: Choice): (r: string)
    ensures "Choice(\"" <= r
    ensures |r| == 8 + |c.text| + 2 && r[8..|r| - 2] == c.text && r[|r| - 2..] == "\")"
  {
    "Choice(\"" + c.text + "\")"
  }
}
