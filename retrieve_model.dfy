/** The endpoint that retrieves one model by name. */
module RetrieveModel {
  import opened Wrappers
  import opened Http
  import opened Endpoint
  import opened Client

  datatype RetrieveModel = RetrieveModel(model: string)

  const ModelsPrefix := "/v1/models/"

  /** The path names the model after a fixed prefix. */
  function Path(r: RetrieveModel): (path: string)
    ensures |path| == |ModelsPrefix| + |r.model|
    ensures path[..|ModelsPrefix|] == ModelsPrefix && path[|ModelsPrefix|..] == r.model
  {
    ModelsPrefix + r.model
  }

  /** Distinct model names give distinct paths. */
  lemma PathInjective(a: RetrieveModel, b: RetrieveModel)
    requires a.model != b.model
    ensures Path(a) != Path(b)
  {
  }

  /** A GET on the model's path that decodes a `Model`; it overrides
      neither header nor body, so `B` is free. */
  function Descriptor<B>(r: RetrieveModel): (e: EndpointDescriptor<B>)
    ensures e.path == Path(r) && e.httpMethod == GET && e.responseType == ModelResponse
    ensures e.scheme == DefaultScheme && e.host == DefaultHost && e.header.None? && e.body.None?
  {
    Defaulted(Path(r), GET, ModelResponse)
  }

  /** A compiled model request is a GET without a body, and it never fails
      for want of an encoding. */
  lemma CompiledHasNoBody<B>(urlOf: UrlBuilder, encode: Encoder<B>, r: RetrieveModel, configuration: Configuration)
    ensures RequestFor(urlOf, encode, Descriptor(r), configuration).None? <==> urlOf(DefaultScheme, DefaultHost, Path(r)).None?
    ensures RequestFor(urlOf, encode, Descriptor(r), configuration).Some? ==>
              RequestFor(urlOf, encode, Descriptor(r), configuration).value.httpBody.None?
              && RequestFor(urlOf, encode, Descriptor(r), configuration).value.httpMethod == "GET"
  {
  }
}
