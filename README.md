# CoolOpenAIKit request core, modelled in Dafny

CoolOpenAIKit is a Swift client for the OpenAI HTTP API. This project models the part of it that has behaviour:

- **The request compiler.** The failable `URLRequest` initialiser turns an endpoint descriptor and a header dictionary into a request. The client fills that dictionary from its configuration.
- **The HTTP client actor.** It keeps two dictionaries of tasks keyed by request id. A second call with the same id while the first is running joins that task instead of starting another. Every way a task ends clears its slot.
- **Prompt rendering.** A chatbot prompt becomes the bot's instructions, the conversation as `Q:`/`A:` lines, the new question and an empty answer, joined with newlines.
- **The endpoint descriptors.** These are completions, retrieve-model and create-image, with the completions request initialisers.

Modules, one per source file:

| file | module | source |
|---|---|---|
| `wrappers.dfy` | `Wrappers` | Swift optionals and thrown errors |
| `foundation.dfy` | `Foundation` | the `URLRequest` value |
| `http_client.dfy` | `Http` | `Networking/HTTPClient.swift` |
| `endpoint.dfy` | `Endpoint` | `Networking/Endpoint.swift` |
| `client.dfy` | `Client` | `Client.swift` |
| `prompt.dfy` | `Prompt` | `Endpoints/Completions/Prompt.swift` |
| `completions.dfy` | `Completions` | `Endpoints/Completions/Endpoints/Completions.swift` |
| `retrieve_model.dfy` | `RetrieveModel` | `Endpoints/Models/Endpoints/RetrieveModel.swift` |
| `create_image.dfy` | `CreateImage` | `Endpoints/Images/Endpoints/CreateImage.swift` and the `Image.Size` enum |

### How the model is shaped

- **The compiler.** `URLRequest` is a Swift struct, so it is a datatype here. `Endpoint.Compile` builds it step by step, as the initialiser does: the URL, then the method, then a loop over the header dictionary, then the body. It is proved equal to the function `Endpoint.Compiled`, and the properties are proved about that function.
- **The actor.** Each actor method runs on its own, so `Http.HTTPClient` is a class holding the two maps, with one method per operation that changes them.
  - `Execute` does the check-and-register step.
  - `Complete` runs the body of a task once the network has produced an `Event`: cancelled, transport failure, or a response with a status and bytes.
  - A `Task` object is the shared future. Every caller that joins holds the same object, so every caller sees the same `result`.
- **Parameters for what Foundation decides.**
  - Whether scheme, host and path form a URL (`UrlBuilder`).
  - Whether a body encodes (`Encoder`).
  - Whether response bytes decode as a type (`decodes`).
  - A request's textual description (`describe`).
  - The process environment (a map).

### Where the code and its documentation disagree (the model follows the code)

- **Empty header values.** The initialiser's doc comment says entries with empty or nil values are skipped, but the loop skips only nil. An empty string is sent as an empty header field (`Endpoint.EmptyHeaderValueKept`).
- **Body encoding failure.** There is no separate serialisation error. The whole initialiser returns nil, and the client reports `invalidURL` for that too.
- **Bad status.** A bad status is not reported as `badResponse`. The `badResponse` thrown inside the task is caught by the task's own catch block and reaches callers wrapped in `requestFailed`.
- **Request identity.** The identity of a request is its textual description, not a canonical form of method, URL, headers and body.

## Model

| member | source | states |
|---|---|---|
| `Http.ParseMethod` | Sources/CoolOpenAIKit/Networking/HTTPClient.swift:10-16 | Parsing a string gives a method exactly when the string is that method's raw value (its case name), so raw values are distinct and round-trip |
| `Http.RawValue` | Sources/CoolOpenAIKit/Networking/HTTPClient.swift:10-16 | Each raw value is the case name: three to six upper-case letters |
| `Http.Classify` | Sources/CoolOpenAIKit/Networking/HTTPClient.swift:60-65 | A `DecodingError` becomes `failedDecoding`; anything else, including the bad-status error, becomes `requestFailed` wrapping it |
| `Http.Outcome` | Sources/CoolOpenAIKit/Networking/HTTPClient.swift:40-66 | A task succeeds exactly when status is 200 and the bytes decode, with the decoded value; status 200 with undecodable bytes is `failedDecoding`; any other status, cancellation and transport errors are `requestFailed` with that cause |
| `Http.StatusOtherThan200NeverDecodes` | Sources/CoolOpenAIKit/Networking/HTTPClient.swift:46-51 | For a status other than 200 the outcome is a failure and does not depend on the decoder at all |
| `Http.Task.Await` | Sources/CoolOpenAIKit/Networking/HTTPClient.swift:33-37 | Awaiting a task rethrows its error; a value of the expected type is returned; a value of another type is `typeCastFailed` |
| `Http.HTTPClient.AddActiveTask` | Sources/CoolOpenAIKit/Networking/HTTPClient.swift:86-88 | Stores the task under the id, nothing else changes |
| `Http.HTTPClient.RemoveActiveTask` | Sources/CoolOpenAIKit/Networking/HTTPClient.swift:90-94 | Returns the prior entry (or nil), deletes only that key, leaves `failedTasks` alone |
| `Http.HTTPClient.AddFailedTask` | Sources/CoolOpenAIKit/Networking/HTTPClient.swift:96-98 | Stores the task under the id, or deletes the key when given nil |
| `Http.HTTPClient.RemoveFailedTask` | Sources/CoolOpenAIKit/Networking/HTTPClient.swift:100-104 | Returns the prior entry (or nil), deletes only that key, leaves `activeTasks` alone |
| `Http.HTTPClient.Execute` | Sources/CoolOpenAIKit/Networking/HTTPClient.swift:32-40 | Joins exactly when the id is active, returning that task and registering nothing; otherwise exactly one fresh running task is stored under the id; the registry invariant (each active task sits under its own id and is still running) is kept |
| `Http.HTTPClient.Complete` | Sources/CoolOpenAIKit/Networking/HTTPClient.swift:40-66 | The task ends with `Outcome`; every path removes its id from `activeTasks` and nothing else; success leaves `failedTasks` alone, decode and transport failures move the task into `failedTasks[id]`, a bad status clears `failedTasks[id]` |
| `Http.SameDescriptionJoins` | Sources/CoolOpenAIKit/Networking/HTTPClient.swift:126-128 | The id of a request is its description: from any valid registry, a second request with the same description joins the first one's task, still running, whatever else differs between the two requests |
| `Http.CoalescedCalls` | Sources/CoolOpenAIKit/Networking/HTTPClient.swift:32-76 | From any valid registry, two calls with one id start one task exactly when none was in flight for it, and then both see its outcome; both always get the same result; after it ends (success or failure) a third call starts a new task; no other id changes whether it is in flight |
| `Endpoint.PresentHeaders` | Sources/CoolOpenAIKit/Networking/Endpoint.swift:41-43 | A header field is set exactly when its value is not nil, with that value |
| `Endpoint.Compiled` | Sources/CoolOpenAIKit/Networking/Endpoint.swift:27-53 | No request exactly when the URL cannot be formed or a present body fails to encode; otherwise the URL, method raw value, the non-nil headers, and a body exactly when the endpoint has one, equal to its encoding |
| `Endpoint.Compile` | Sources/CoolOpenAIKit/Networking/Endpoint.swift:27-53 | The step-by-step initialiser (URL, method, header loop, body) produces exactly `Compiled` |
| `Endpoint.EndpointHeaderIgnored` | Sources/CoolOpenAIKit/Networking/Endpoint.swift:17-53 | The endpoint's own `header` property has no effect on the request |
| `Endpoint.EmptyHeaderValueKept` | Sources/CoolOpenAIKit/Networking/Endpoint.swift:24-43 | An empty-string header value is sent as an empty field, contrary to the doc comment |
| `Client.Defaulted` | Sources/CoolOpenAIKit/Client.swift:10-18 | Endpoints that do not override them get scheme https, host api.openai.com, no header and no body |
| `Client.OrEnvironment` | Sources/CoolOpenAIKit/Client.swift:90-91 | An explicit value wins; otherwise the environment variable is used when set |
| `Client.ResolveConfiguration` | Sources/CoolOpenAIKit/Client.swift:89-97 | A configuration exists exactly when a key is given or set in the environment; the key and organisation come from the argument first, the environment second |
| `Client.StandardHeaders` | Sources/CoolOpenAIKit/Client.swift:108-114 | The dictionary has exactly the content-type, authorisation and organisation keys, with JSON, `Bearer <key>` and the optional organisation |
| `Client.RequestFor` | Sources/CoolOpenAIKit/Client.swift:108-114 | A request exists exactly when the URL forms and the body (if any) encodes; it has the endpoint's URL, method and encoded body, and its fields are exactly content type JSON, `Bearer <key>`, plus `OpenAI-Organization` if and only if the organisation is not nil |
| `Client.Client.constructor` | Sources/CoolOpenAIKit/Client.swift:39-53 | Needs a configuration (nil is fatal) and starts with an empty registry |
| `Client.Client.FromEnvironment` | Sources/CoolOpenAIKit/Client.swift:39-43 | `Client()` with the default `Configuration.init?()`: possible exactly when `OPENAI_API_KEY` is set, whose value becomes the key, with the organisation from `OPENAI_ORGANIZATION` when set, and an empty registry |
| `Client.Client.Execute` | Sources/CoolOpenAIKit/Client.swift:55-60 | Fails with `invalidURL` exactly when compilation yields nothing, and then the HTTP client is untouched; otherwise joins or starts the task for the request's id |
| `Client.Awaited` | Sources/CoolOpenAIKit/Client.swift:55-60 | The caller gets `invalidURL`, or its task's awaited value or error |
| `Client.CompletionArgument` | Sources/CoolOpenAIKit/Client.swift:62-72 | The completion receives the value exactly on success and nil on any error |
| `Prompt.JoinedEnds` | Sources/CoolOpenAIKit/Endpoints/Completions/Prompt.swift:51-53 | A non-empty join starts with the first part and ends with the last |
| `Prompt.JoinedAppend` | Sources/CoolOpenAIKit/Endpoints/Completions/Prompt.swift:51-53 | Joining with one more part appends the separator and that part: the order of parts is kept |
| `Prompt.JoinedFour` | Sources/CoolOpenAIKit/Endpoints/Completions/Prompt.swift:21-30 | Four parts join as a + sep + b + sep + c + sep + d |
| `Prompt.ParseChatbot` | Sources/CoolOpenAIKit/Endpoints/Completions/Prompt.swift:48-49 | A string names the support bot exactly when it is that bot's instructions, which are its raw value |
| `Prompt.Question` | Sources/CoolOpenAIKit/Endpoints/Completions/Prompt.swift:55-57 | A question line is `Q: ` followed by the question unchanged |
| `Prompt.Answer` | Sources/CoolOpenAIKit/Endpoints/Completions/Prompt.swift:59-61 | An answer line is `A: ` followed by the answer unchanged |
| `Prompt.Entry` | Sources/CoolOpenAIKit/Endpoints/Completions/Prompt.swift:63-75 | An entry starts with `A: ` if and only if the sender id is the chatbot's raw value 0, otherwise `Q: `; the rest is the text, the URL string, or "Sent an image" |
| `Prompt.EntryLines` | Sources/CoolOpenAIKit/Endpoints/Completions/Prompt.swift:52 | One entry per message, in the same order |
| `Prompt.Entries` | Sources/CoolOpenAIKit/Endpoints/Completions/Prompt.swift:51-53 | No messages give the empty string; otherwise the history starts with the first message's entry and ends with the last one's |
| `Prompt.EntriesAppend` | Sources/CoolOpenAIKit/Endpoints/Completions/Prompt.swift:51-53 | Appending a message appends its entry on a new line (alone if the history was empty) |
| `Prompt.PromptString` | Sources/CoolOpenAIKit/Endpoints/Completions/Prompt.swift:16-32 | A basic prompt is its text unchanged; a chatbot prompt is instructions, entries, `Q: message` and `A: ` separated by newlines |
| `Prompt.ChatbotPromptEndsWithAnswer` | Sources/CoolOpenAIKit/Endpoints/Completions/Prompt.swift:20-30 | A chatbot prompt always ends with a new line holding just `A: ` |
| `Prompt.EmptyConversation` | Sources/CoolOpenAIKit/Endpoints/Completions/Prompt.swift:21-30 | With no history an empty line follows the instructions |
| `Prompt.Description` | Sources/CoolOpenAIKit/Endpoints/Completions/Prompt.swift:34-41 | The description is `Prompt.basic("` or `Prompt.chatbot("` by case, then the prompt string, then `")` |
| `Completions.Compacted` | Sources/CoolOpenAIKit/Endpoints/Completions/Endpoints/Completions.swift:168 | nil becomes the empty array, a string the one-element array |
| `Completions.RequestWithPrompts` | Sources/CoolOpenAIKit/Endpoints/Completions/Endpoints/Completions.swift:147-164 | Every one of the sixteen arguments is stored unchanged in its field |
| `Completions.RequestWithText` | Sources/CoolOpenAIKit/Endpoints/Completions/Endpoints/Completions.swift:166-170 | The prompt is stored as `[]` for nil and `[s]` for s, and every other field as given |
| `Completions.RequestWithPrompt` | Sources/CoolOpenAIKit/Endpoints/Completions/Endpoints/Completions.swift:172-176 | The prompt is stored as `[p.string]`, or `[]` for nil, and every other field as given |
| `Completions.TextPromptRoundTrip` | Sources/CoolOpenAIKit/Endpoints/Completions/Endpoints/Completions.swift:168 | Whatever the other arguments, the optional string can be read back from the stored array |
| `Completions.OmittedArgumentsAreNil` | Sources/CoolOpenAIKit/Endpoints/Completions/Endpoints/Completions.swift:147-164 | The memberwise initialiser stores model and prompt and leaves every omitted optional nil |
| `Completions.CompletionsEndpoint` | Sources/CoolOpenAIKit/Endpoints/Completions/Endpoints/Completions.swift:11-23 | POST to `/v1/completions` on the default scheme and host, with the request itself as the body |
| `Completions.CompletionsBodyIsEncoded` | Sources/CoolOpenAIKit/Endpoints/Completions/Endpoints/Completions.swift:15-21 | A compiled completions request is a POST whose body is the request's encoding; if it cannot be encoded there is no request |
| `Completions.ChoiceDescription` | Sources/CoolOpenAIKit/Endpoints/Completions/Endpoints/Completions.swift:209-211 | `Choice("` then the text then `")` |
| `RetrieveModel.Path` | Sources/CoolOpenAIKit/Endpoints/Models/Endpoints/RetrieveModel.swift:18 | The path is `/v1/models/` followed by the model name |
| `RetrieveModel.PathInjective` | Sources/CoolOpenAIKit/Endpoints/Models/Endpoints/RetrieveModel.swift:18 | Distinct model names give distinct paths |
| `RetrieveModel.Descriptor` | Sources/CoolOpenAIKit/Endpoints/Models/Endpoints/RetrieveModel.swift:13-24 | GET on that path, decoding a `Model`, with no header and no body |
| `RetrieveModel.CompiledHasNoBody` | Sources/CoolOpenAIKit/Endpoints/Models/Endpoints/RetrieveModel.swift:13-24 | The compiled request is a GET without a body and fails only when the URL cannot be formed |
| `CreateImage.ParseSize` | Sources/CoolOpenAIKit/Endpoints/Images/Image.swift:18-22 | Sizes are `256x256`, `512x512`, `1024x1024`, distinct and round-tripping |
| `CreateImage.ParseFormat` | Sources/CoolOpenAIKit/Endpoints/Images/Endpoints/CreateImage.swift:27-30 | Formats are `url` and `b64_json`, distinct and round-tripping |
| `CreateImage.MakeCreateImage` | Sources/CoolOpenAIKit/Endpoints/Images/Endpoints/CreateImage.swift:46-52 | Prompt, n and user stored unchanged; size and format stored as raw values that parse back to the arguments, nil staying nil |
| `CreateImage.Descriptor` | Sources/CoolOpenAIKit/Endpoints/Images/Endpoints/CreateImage.swift:17-36 | POST to `/v1/images/generations` on the default scheme and host, with no body |
| `CreateImage.ParametersNeverReachRequest` | Sources/CoolOpenAIKit/Endpoints/Images/Endpoints/CreateImage.swift:17-54 | Any two image endpoints compile to the same request, which has no body: the parameters are never sent |

## Left out

- Network I/O and concurrency. The `URLSession` call, `Task` creation, `Task.checkCancellation`, `[weak self]` and actor isolation are not modelled. The network's answer is the `Event` input of `Complete`, and cancellation is one such event.
- Http.HTTPClient.Complete: runs the task body as one atomic step. In the source the body awaits between the removal on a bad status and the removal in the catch block. A call for the same id that registers a new task in that window would have its task removed by the catch and moved into `failedTasks`. That interleaving is not modelled. `Complete` also requires its task to be the one registered under its id. Every sequential run guarantees this, because only `Execute` registers tasks and only a task's own completion removes it.
- Http.CoalescedCalls: shows coalescing for two calls in one sequential order only, not for every concurrent schedule. When a task for the id was already in flight, it states only that both callers get the same result, because that task may have been started for another response type.
- Client.Client.constructor: a nil configuration is a fatal error in the source; the model makes a configuration a precondition instead. The no-argument form is `Client.Client.FromEnvironment`.
- JSON. `JSONEncoder`/`JSONDecoder`, snake-case key conversion and millisecond dates are foreign library behaviour. Encoding is the `Encoder` parameter and decoding is the `decodes` parameter. A decoded value is the response type together with the bytes it was decoded from.
- URL construction. `URLComponents` and URL validity are the `UrlBuilder` parameter.
- Request identity. `URLRequest.description` is the `describe` parameter. Foundation decides which requests share a description, and the model does not assume anything about it. If the description shows only the URL, two completions requests with different bodies would join one task.
- Header field names. `URLRequest.setValue` treats names case-insensitively. The model keys headers by exact string.
- Runtime type recovery. The `as? T` casts are modelled by tagging each task with a `ResponseType`. The generic `T?` results are always non-nil here.
- `HTTPError.invalidURL`. It is declared but never thrown; the client throws its own `invalidURL`, `Client.OpenAIError.InvalidURL`.
- The process environment. It is passed in as a map, and `debugPrint` diagnostics are left out.
- The encoder and decoder strategies set in `Client.init`. They belong to JSON coding, which is out of scope.
- The lazily created provider properties of `Client`, and the provider files `CompletionsProvider.swift`, `ModelsProvider.swift` and `ImagesProvider.swift`. They are thin glue that calls `execute`.
- `Image.uiImage`. It is UIKit plus a download.
- `Model.swift`, `Models.swift` beyond the model raw values, `ListModels.swift` and the response records. They are plain Codable data with no behaviour.
- Floating-point request fields. They are carried as opaque 64-bit values.
- `UUID` and `Date` in messages. They are carried as a string and an integer.
- The tests, which call the live API, and `Package.swift`.
