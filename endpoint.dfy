/** Endpoint descriptors and the request compiler: the failable `URLRequest`
    initialiser that turns an endpoint and a header dictionary into a request,
    or into nothing when the URL cannot be formed or the body cannot be encoded. */
module Endpoint {
  import opened Wrappers
  import opened Foundation
  import opened Http

  /** The `Endpoint` protocol: where a request goes, how, with what body,
      and which response type it decodes into. `B` is the body's type. */
  datatype EndpointDescriptor<B> = EndpointDescriptor(
    scheme: string,
    host: string,
    path: string,
    httpMethod: HTTPMethod,
    header: Option<map<string, string>>,
    body: Option<B>,
    responseType: ResponseType)

  /** `URLComponents` with scheme, host and path set, read through its `url`
      property: None when the three do not form a URL, else its text. */
  type UrlBuilder = (string, string, string) -> Option<string>

  /** `JSONEncoder.encode` for bodies of type `B`: None when it throws. */
  type Encoder<!B> = B -> Option<Bytes>

  /** The header fields that reach the request: exactly the entries whose
      value is not nil, with that value. An empty string is not nil. */
  function PresentHeaders(headers: map<string, Option<string>>): (r: map<string, string>)
    ensures forall field :: field in r <==> field in headers && headers[field].Some?
    ensures forall field :: field in r ==> r[field] == headers[field].value
  {
    map field | field in headers && headers[field].Some? :: headers[field].value
  }

  /** What the compiler produces, as a function of its inputs. */
  function Compiled<B>(urlOf: UrlBuilder, encode: Encoder<B>, endpoint: EndpointDescriptor<B>,
                       headers: map<string, Option<string>>): (r: Option<URLRequest>)
    ensures r.None? <==> urlOf(endpoint.scheme, endpoint.host, endpoint.path).None?
                         || (endpoint.body.Some? && encode(endpoint.body.value).None?)
    ensures r.Some? ==> r.value.url == urlOf(endpoint.scheme, endpoint.host, endpoint.path).value
    ensures r.Some? ==> r.value.httpMethod == RawValue(endpoint.httpMethod)
    ensures r.Some? ==> r.value.headers == PresentHeaders(headers)
    ensures r.Some? ==> (r.value.httpBody.Some? <==> endpoint.body.Some?)
    ensures r.Some? && endpoint.body.Some? ==> r.value.httpBody == encode(endpoint.body.value)
  {
    match urlOf(endpoint.scheme, endpoint.host, endpoint.path)
    case None => None
    case Some(url) =>
      var request := URLRequest(url, RawValue(endpoint.httpMethod), PresentHeaders(headers), None);
      match endpoint.body
      case None => Some(request)
      case Some(body) =>
        match encode(body)
        case None => None
        case Some(bytes) => Some(request.(httpBody := Some(bytes)))
  }

  /** `URLRequest.init?(_:endpoint:headers:)`: build the URL, set the method,
      set each header whose value is not nil, then encode the body. */
  method Compile<B>(urlOf: UrlBuilder, encode: Encoder<B>, endpoint: EndpointDescriptor<B>,
                    headers: map<string, Option<string>>) returns (r: Option<URLRequest>)
    ensures r == Compiled(urlOf, encode, endpoint, headers)
  {
    var url := urlOf(endpoint.scheme, endpoint.host, endpoint.path);
    if url.None? {
      return None;
    }
    var request := URLRequest(url.value);
    request := request.(httpMethod := RawValue(endpoint.httpMethod));
    var pending := headers.Keys;
    while pending != {}
      invariant pending <= headers.Keys
      invariant request.url == url.value && request.httpMethod == RawValue(endpoint.httpMethod) && request.httpBody == None
      invariant forall field :: field in request.headers <==> field in headers && field !in pending && headers[field].Some?
      invariant forall field :: field in request.headers ==> request.headers[field] == headers[field].value
      decreases pending
    {
      var field :| field in pending;
      if headers[field].Some? {
        request := request.(headers := request.headers[field := headers[field].value]);
      }
      pending := pending - {field};
    }
    assert request.headers == PresentHeaders(headers);
    if endpoint.body.Some? {
      var encoded := encode(endpoint.body.value);
      if encoded.None? {
        return None;
      }
      request := request.(httpBody := encoded);
    }
    return Some(request);
  }

  /** The endpoint's own `header` property never reaches the request: only
      the dictionary passed to the compiler does. */
  lemma EndpointHeaderIgnored<B>(urlOf: UrlBuilder, encode: Encoder<B>, endpoint: EndpointDescriptor<B>,
                                 header: Option<map<string, string>>, headers: map<string, Option<string>>)
    ensures Compiled(urlOf, encode, endpoint, headers) == Compiled(urlOf, encode, endpoint.(header := header), headers)
  {
  }

  /** A header whose value is the empty string is sent as an empty field;
      only nil values are skipped. */
  lemma EmptyHeaderValueKept<B>(urlOf: UrlBuilder, encode: Encoder<B>, endpoint: EndpointDescriptor<B>,
                                headers: map<string, Option<string>>, field: string)
    requires field in headers && headers[field] == Some("")
    requires Compiled(urlOf, encode, endpoint, headers).Some?
    ensures field in Compiled(urlOf, encode, endpoint, headers).value.headers
    ensures Compiled(urlOf, encode, endpoint, headers).value.headers[field] == ""
  {
  }
}
