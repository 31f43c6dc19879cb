/** The OpenAI client: endpoint defaults, the configuration (API key and
    organisation), the standard headers every request carries, and the two
    forms of `execute`. */
module Client {
  import opened Wrappers
  import opened Foundation
  import opened Http
  import opened Endpoint

  const DefaultScheme := "https"
  const DefaultHost := "api.openai.com"

  /** An endpoint that overrides only its path, method and response type:
      the protocol extension supplies scheme, host, header and body. */
  function Defaulted<B>(path: string, httpMethod: HTTPMethod, responseType: ResponseType): (e: EndpointDescriptor<B>)
    ensures e.scheme == "https" && e.host == "api.openai.com"
    ensures e.header.None? && e.body.None?
    ensures e.path == path && e.httpMethod == httpMethod && e.responseType == responseType
  {
    EndpointDescriptor(DefaultScheme, DefaultHost, path, httpMethod, None, None, responseType)
  }

  datatype Configuration = Configuration(apiKey: string, organization: Option<string> := None)

  const ApiKeyVariable := "OPENAI_API_KEY"
  const OrganizationVariable := "OPENAI_ORGANIZATION"

  /** `explicit ?? environment[name]`. */
  function OrEnvironment(explicit: Option<string>, environment: map<string, string>, name: string): (r: Option<string>)
    ensures explicit.Some? ==> r == explicit
    ensures explicit.None? ==> (r.Some? <==> name in environment)
    ensures explicit.None? && r.Some? ==> r.value == environment[name]
  {
    if explicit.Some? then explicit
    else if name in environment then Some(environment[name])
    else None
  }

  /** `Configuration.init?(apiKey:organization:)`: an explicit argument wins
      over the environment, and without a key from either there is no
      configuration. The process environment is passed in as a map. */
  function ResolveConfiguration(apiKey: Option<string>, organization: Option<string>,
                                environment: map<string, string>): (r: Option<Configuration>)
    ensures r.Some? <==> apiKey.Some? || ApiKeyVariable in environment
    ensures r.Some? && apiKey.Some? ==> r.value.apiKey == apiKey.value
    ensures r.Some? && apiKey.None? ==> r.value.apiKey == environment[ApiKeyVariable]
    ensures r.Some? && organization.Some? ==> r.value.organization == organization
    ensures r.Some? && organization.None? ==>
              r.value.organization == (if OrganizationVariable in environment then Some(environment[OrganizationVariable]) else None)
  {
    var key := OrEnvironment(apiKey, environment, ApiKeyVariable);
    var org := OrEnvironment(organization, environment, OrganizationVariable);
    if key.None? then None else Some(Configuration(key.value, org))
  }

  /** The header dictionary every request is compiled with. */
  function StandardHeaders(configuration: Configuration): (r: map<string, Option<string>>)
    ensures r.Keys == {"Content-Type", "Authorization", "OpenAI-Organization"}
    ensures r["Content-Type"] == Some("application/json")
    ensures r["Authorization"] == Some("Bearer " + configuration.apiKey)
    ensures r["OpenAI-Organization"] == configuration.organization
  {
    map["Content-Type" := Some("application/json"),
        "Authorization" := Some("Bearer " + configuration.apiKey),
        "OpenAI-Organization" := configuration.organization]
  }

  /** `URLRequest.init?(_:endpoint:configuration:)`: the endpoint compiled
      with the standard fields. A request exists exactly when its URL can be
      formed and its body (if any) encoded, and then it carries the JSON
      content type, bearer authorisation, and the organisation field if and
      only if the configuration has one. */
  function RequestFor<B>(urlOf: UrlBuilder, encode: Encoder<B>, endpoint: EndpointDescriptor<B>,
                         configuration: Configuration): (r: Option<URLRequest>)
    ensures r.None? <==> urlOf(endpoint.scheme, endpoint.host, endpoint.path).None?
                         || (endpoint.body.Some? && encode(endpoint.body.value).None?)
    ensures r.Some? ==> r.value.url == urlOf(endpoint.scheme, endpoint.host, endpoint.path).value
                        && r.value.httpMethod == RawValue(endpoint.httpMethod)
                        && r.value.httpBody == (if endpoint.body.Some? then encode(endpoint.body.value) else None)
    ensures r.Some? ==>
              var h := r.value.headers;
              && h.Keys == {"Content-Type", "Authorization"} + (if configuration.organization.Some? then {"OpenAI-Organization"} else {})
              && h["Content-Type"] == "application/json"
              && h["Authorization"] == "Bearer " + configuration.apiKey
              && (configuration.organization.Some? ==> h["OpenAI-Organization"] == configuration.organization.value)
  {
    Compiled(urlOf, encode, endpoint, StandardHeaders(configuration))
  }

  datatype OpenAIError = InvalidURL | HTTP(error: HTTPError)

  class Client {
    const httpClient: HTTPClient
    const configuration: Configuration

    /** A missing configuration is a fatal error, so one is required. */
    constructor (config: Option<Configuration>)
      requires config.Some?
      ensures configuration == config.value
      ensures fresh(httpClient) && httpClient.Valid()
      ensures httpClient.activeTasks == map[] && httpClient.failedTasks == map[]
    {
      configuration := config.value;
      httpClient := new HTTPClient();
    }

    /** `Client()`: the default argument is `Configuration.init?()`, which
        reads both variables from the process environment, so the client can
        be made exactly when `OPENAI_API_KEY` is set. */
    constructor FromEnvironment(environment: map<string, string>)
      requires ResolveConfiguration(None, None, environment).Some?
      ensures ApiKeyVariable in environment
      ensures configuration.apiKey == environment[ApiKeyVariable]
      ensures configuration.organization ==
                (if OrganizationVariable in environment then Some(environment[OrganizationVariable]) else None)
      ensures fresh(httpClient) && httpClient.Valid()
      ensures httpClient.activeTasks == map[] && httpClient.failedTasks == map[]
    {
      configuration := ResolveConfiguration(None, None, environment).value;
      httpClient := new HTTPClient();
    }

    /** `execute(_:)` up to the point where it awaits its task: a request
        that cannot be compiled is `invalidURL` and the HTTP client is not
        called; otherwise the call joins or starts the task for its id. */
    method Execute<B>(endpoint: EndpointDescriptor<B>, urlOf: UrlBuilder, encode: Encoder<B>,
                      describe: URLRequest -> string) returns (r: Result<Task, OpenAIError>, joined: bool)
      requires httpClient.Valid()
      modifies httpClient
      ensures httpClient.Valid()
      ensures r.Failure? <==> RequestFor(urlOf, encode, endpoint, configuration).None?
      ensures r.Failure? ==> r.error == InvalidURL && !joined && unchanged(httpClient)
      ensures r.Success? ==>
                var id := describe(RequestFor(urlOf, encode, endpoint, configuration).value);
                && (joined <==> id in old(httpClient.activeTasks))
                && (joined ==> r.value == old(httpClient.activeTasks)[id] && httpClient.activeTasks == old(httpClient.activeTasks))
                && (!joined ==> fresh(r.value) && r.value.id == id && r.value.responseType == endpoint.responseType
                                && r.value.result == None
                                && httpClient.activeTasks == old(httpClient.activeTasks)[id := r.value])
      ensures httpClient.failedTasks == old(httpClient.failedTasks)
    {
      var request := Compile(urlOf, encode, endpoint, StandardHeaders(configuration));
      if request.None? {
        return Failure(InvalidURL), false;
      }
      var task;
      task, joined := httpClient.Execute(request.value, describe, endpoint.responseType);
      r := Success(task);
    }
  }

  /** What a caller of `execute(_:)` expecting `expected` ends with, once its
      task (if any) has ended. */
  function Awaited(r: Result<Task, OpenAIError>, expected: ResponseType): (v: Result<Value, OpenAIError>)
    reads if r.Success? then {r.value} else {}
    requires r.Success? ==> r.value.result.Some?
    ensures r.Failure? ==> v == Failure(r.error)
    ensures r.Success? ==> (v.Success? <==> r.value.Await(expected).Success?)
    ensures r.Success? && v.Success? ==> v.value == r.value.Await(expected).value
    ensures r.Success? && v.Failure? ==> v.error == HTTP(r.value.Await(expected).error)
  {
    match r
    case Failure(e) => Failure(e)
    case Success(task) =>
      match task.Await(expected)
      case Success(value) => Success(value)
      case Failure(e) => Failure(HTTP(e))
  }

  /** The argument `execute(_:completion:)` hands to `completion`, which it
      calls exactly once: the response on success, nil on any error, which
      it never rethrows. */
  function CompletionArgument(outcome: Result<Value, OpenAIError>): (r: Option<Value>)
    ensures r.Some? <==> outcome.Success?
    ensures r.Some? ==> r.value == outcome.value
  {
    match outcome
    case Success(value) => Some(value)
    case Failure(_) => None
  }
}
