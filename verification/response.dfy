/** The request handler of `imageTransformMiddleware`: validate the query, run
    the planned transform on the engine, and map the result to response
    headers (src/img.resource.ts). */
module ImageResponse {
  import opened Wrappers
  import opened ImageOptions
  import opened TransformPlan

  newtype byte = x: int | 0 <= x < 256

  /** One year, in seconds. */
  const CacheControl := "max-age=31536000"

  /** The renames applied to engine format names before they become a
      content type. */
  const FormatAliases: map<string, string> := map["heif" := "avif"]

  /** What the engine reports about the encoded image; only the format is read. */
  datatype OutputInfo = OutputInfo(format: string, width: int, height: int, size: int)

  /** Failures of the fetch-and-transform work, which the model does not perform. */
  datatype EngineError = FetchFailed | DecodeFailed

  /** The fetch and the engine together: given the source image URL and the
      planned stages, the encoded bytes and their info, or an error. */
  type ImageEngine = (string, seq<Stage>) -> Result<(seq<byte>, OutputInfo), EngineError>

  datatype Response = Response(cacheControl: string, contentType: string, body: seq<byte>)

  /** Errors passed on to the shared error handler. */
  datatype HandlerError = Invalid(validation: ValidationError) | Engine(engine: EngineError)

  /** `image/${map[info.format] || info.format || 'jpeg'}`. */
  function ContentType(reported: string): (ct: string)
    ensures |ct| > 6 && ct[..6] == "image/"
    ensures reported == "heif" ==> ct == "image/avif"
    ensures reported != "heif" && reported != "" ==> ct == "image/" + reported
    ensures reported == "" ==> ct == "image/jpeg"
  {
    var subtype := if reported in FormatAliases then FormatAliases[reported]
                   else if reported != "" then reported
                   else "jpeg";
    "image/" + subtype
  }

  /** Two reported formats share a content type only when they are equal, or
      are `heif` and `avif`, or are the empty name and `jpeg`. */
  lemma ContentTypeInjective(a: string, b: string)
    requires ContentType(a) == ContentType(b)
    ensures || a == b
            || ({a, b} == {"heif", "avif"})
            || ({a, b} == {"", "jpeg"})
  {
    var ca, cb := ContentType(a), ContentType(b);
    assert ca[6..] == cb[6..];
    if a != "heif" && a != "" {
      assert ca[6..] == a;
    }
    if b != "heif" && b != "" {
      assert cb[6..] == b;
    }
    if a == "heif" {
      assert ca[6..] == "avif";
    }
    if b == "heif" {
      assert cb[6..] == "avif";
    }
    if a == "" {
      assert ca[6..] == "jpeg";
    }
    if b == "" {
      assert cb[6..] == "jpeg";
    }
  }

  /** The handler: a schema failure is raised before the engine runs, an engine
      failure is raised with no partial body, and a success is sent with the
      one-year cache header and the content type of the reported format.  A
      missing Accept header negotiates as the empty string. */
  function HandleRequest(query: QueryOptions, accept: Option<string>, engine: ImageEngine): (r: Result<Response, HandlerError>)
    ensures Validate(query).Failure? ==> r == Failure(Invalid(Validate(query).error))
    ensures r.Success? ==>
      && Validate(query).Success?
      && r.value.cacheControl == CacheControl
      && var opt := Validate(query).value;
         var out := engine(opt.sourceImageUrl, Plan(opt, accept.GetOr("")));
         && out.Success?
         && r.value.body == out.value.0
         && r.value.contentType == ContentType(out.value.1.format)
    ensures r.Failure? && Validate(query).Success? ==>
      var opt := Validate(query).value;
      var out := engine(opt.sourceImageUrl, Plan(opt, accept.GetOr("")));
      out.Failure? && r.error == Engine(out.error)
  {
    match Validate(query)
    case Failure(e) => Failure(Invalid(e))
    case Success(opt) =>
      match engine(opt.sourceImageUrl, Plan(opt, accept.GetOr("")))
      case Failure(e) => Failure(Engine(e))
      case Success((buf, info)) => Success(Response(CacheControl, ContentType(info.format), buf))
  }

  /** Sending no Accept header is the same as sending an empty one. */
  lemma MissingAcceptIsEmpty(query: QueryOptions, engine: ImageEngine)
    ensures HandleRequest(query, None, engine) == HandleRequest(query, Some(""), engine)
  {
  }
}
