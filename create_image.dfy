/** The endpoint that generates images from a prompt. */
module CreateImage {
  import opened Wrappers
  import opened Http
  import opened Endpoint
  import opened Client

  /** `Image.Size`: the three resolutions, sent as their raw values. */
  datatype Size = Res256 | Res512 | Res1024

  function SizeRawValue(s: Size): string
  {
    match s
    case Res256 => "256x256"
    case Res512 => "512x512"
    case Res1024 => "1024x1024"
  }

  /** `Image.Size(rawValue:)`. */
  function ParseSize(s: string): (r: Option<Size>)
    ensures forall size :: r == Some(size) <==> SizeRawValue(size) == s
  {
    if s == "256x256" then Some(Res256)
    else if s == "512x512" then Some(Res512)
    else if s == "1024x1024" then Some(Res1024)
    else None
  }

  /** `CreateImage.Format`: a URL or base64-encoded JSON. */
  datatype Format = UrlFormat | Base64

  function FormatRawValue(f: Format): string
  {
    match f
    case UrlFormat => "url"
    case Base64 => "b64_json"
  }

  /** `CreateImage.Format(rawValue:)`. */
  function ParseFormat(s: string): (r: Option<Format>)
    ensures forall format :: r == Some(format) <==> FormatRawValue(format) == s
  {
    if s == "url" then Some(UrlFormat)
    else if s == "b64_json" then Some(Base64)
    else None
  }

  /** The endpoint's stored parameters: size and format as raw strings. */
  datatype CreateImage = CreateImage(
    prompt: string,
    n: Option<int>,
    size: Option<string>,
    responseFormat: Option<string>,
    user: Option<string>)

  /** `CreateImage.init`: size and format are stored as their raw values,
      nil stays nil, and the rest is stored unchanged. */
  function MakeCreateImage(prompt: string, n: Option<int> := None, size: Option<Size> := None,
                           responseFormat: Option<Format> := None, user: Option<string> := None): (r: CreateImage)
    ensures r.prompt == prompt && r.n == n && r.user == user
    ensures r.size.Some? <==> size.Some?
    ensures r.size.Some? ==> ParseSize(r.size.value) == size
    ensures r.responseFormat.Some? <==> responseFormat.Some?
    ensures r.responseFormat.Some? ==> ParseFormat(r.responseFormat.value) == responseFormat
  {
    CreateImage(prompt, n,
                if size.Some? then Some(SizeRawValue(size.value)) else None,
                if responseFormat.Some? then Some(FormatRawValue(responseFormat.value)) else None,
                user)
  }

  const GenerationsPath := "/v1/images/generations"

  /** A POST to the generations path; it does not override `body`, so its
      body is nil whatever its parameters are. */
  function Descriptor<B>(c: CreateImage): (e: EndpointDescriptor<B>)
    ensures e.path == GenerationsPath && e.httpMethod == POST && e.responseType == CreateImageResponse
    ensures e.scheme == DefaultScheme && e.host == DefaultHost && e.header.None? && e.body.None?
  {
    Defaulted(GenerationsPath, POST, CreateImageResponse)
  }

  /** None of the parameters reach the compiled request: any two image
      requests compile to the same thing, and that has no body. */
  lemma ParametersNeverReachRequest<B>(urlOf: UrlBuilder, encode: Encoder<B>, a: CreateImage, b: CreateImage,
                                       configuration: Configuration)
    ensures RequestFor(urlOf, encode, Descriptor(a), configuration) == RequestFor(urlOf, encode, Descriptor(b), configuration)
    ensures RequestFor(urlOf, encode, Descriptor(a), configuration).Some? ==>
              RequestFor(urlOf, encode, Descriptor(a), configuration).value.httpBody.None?
  {
  }
}
