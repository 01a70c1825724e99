/** The deterministic part of `generateImage` in index.ts: the API-key check,
    the defaults, the range checks, the dimension and size-token step, the
    request body, and the check of the API's reply. The HTTP call itself is
    not modelled: its reply is a parameter. */
module Generation {
  import opened Wrappers
  import opened DimensionResolver
  import SizeToken

  /** The tool arguments; `None` is an absent (undefined) property. */
  datatype GenerateImageArgs = GenerateImageArgs(
    prompt: string,
    aspectRatio: Option<string>,
    size: Option<string>,
    width: Option<int>,
    height: Option<int>,
    guidanceScale: Option<real>,
    seed: Option<int>,
    numImages: Option<int>)

  /** The JSON body posted to `/images/generations`; `n` and `seed` are the
      properties added only in some cases. */
  datatype Request = Request(
    model: string,
    prompt: string,
    size: string,
    sequentialImageGeneration: string,
    stream: bool,
    responseFormat: string,
    watermark: bool,
    n: Option<int>,
    seed: Option<int>)

  datatype ImageData = ImageData(url: string, b64Json: Option<string>, revisedPrompt: Option<string>)

  datatype ApiError = ApiError(message: string, kind: string)

  /** The body of the API's reply. */
  datatype Response = Response(data: Option<seq<ImageData>>, error: Option<ApiError>)

  /** What `generateImage` throws. */
  datatype GenerateError =
    | MissingApiKey                            // InvalidRequest, before anything else
    | GuidanceScaleOutOfRange                  // InvalidParams
    | NumImagesOutOfRange                      // InvalidParams
    | InvalidDimensions(cause: DimensionError) // getDimensions' own error, thrown as is
    | GenerationFailed(message: string)        // InternalError, "Failed to generate image: ..."

  const ModelName := "doubao-seedream-4-0-250828"
  const DefaultAspectRatio := "16:9"
  const DefaultSize := "regular"
  const DefaultGuidanceScale: real := 2.5
  const DefaultNumImages := 1
  const MinGuidanceScale: real := 1.0
  const MaxGuidanceScale: real := 10.0
  const MinNumImages := 1
  const MaxNumImages := 4
  const FallbackFailureMessage := "Image generation failed"
  const FailurePrefix := "Failed to generate image: "

  /** The key is truthy: present and not the empty string. */
  predicate ApiKeySet(apiKey: Option<string>) {
    apiKey.Some? && apiKey.value != ""
  }

  function Guidance(args: GenerateImageArgs): real {
    args.guidanceScale.GetOr(DefaultGuidanceScale)
  }

  function NumImages(args: GenerateImageArgs): int {
    args.numImages.GetOr(DefaultNumImages)
  }

  predicate GuidanceOk(args: GenerateImageArgs) {
    MinGuidanceScale <= Guidance(args) <= MaxGuidanceScale
  }

  predicate NumImagesOk(args: GenerateImageArgs) {
    MinNumImages <= NumImages(args) <= MaxNumImages
  }

  /** The dimensions the arguments ask for, defaults applied. */
  function ResolveDimensions(args: GenerateImageArgs): Result<Dimensions, DimensionError> {
    GetDimensions(args.aspectRatio.GetOr(DefaultAspectRatio), args.size.GetOr(DefaultSize), args.width, args.height)
  }

  /** The request body: fixed model and options, the size token of the
      dimensions, `n` only for more than one image, `seed` whenever given. */
  function BuildRequest(prompt: string, dims: Dimensions, numImages: int, seed: Option<int>): (r: Request)
    ensures SizeToken.Parse(r.size) == Some(dims)
    ensures r.n.Some? <==> numImages > 1
    ensures r.n.Some? ==> r.n.value == numImages
    ensures r.seed == seed
    ensures r.prompt == prompt && r.model == ModelName
    ensures r.sequentialImageGeneration == "disabled" && !r.stream && r.responseFormat == "url" && r.watermark
  {
    Request(
      model := ModelName,
      prompt := prompt,
      size := SizeToken.Format(dims),
      sequentialImageGeneration := "disabled",
      stream := false,
      responseFormat := "url",
      watermark := true,
      n := if numImages > 1 then Some(numImages) else None,
      seed := seed)
  }

  /** Everything `generateImage` does before the HTTP call, in its order: key,
      guidance scale, image count, dimensions, request body. */
  function PrepareRequest(apiKey: Option<string>, args: GenerateImageArgs): (r: Result<Request, GenerateError>)
    ensures r == Failure(MissingApiKey) <==> !ApiKeySet(apiKey)
    ensures ApiKeySet(apiKey) ==> (r == Failure(GuidanceScaleOutOfRange) <==> !GuidanceOk(args))
    ensures ApiKeySet(apiKey) && GuidanceOk(args) ==> (r == Failure(NumImagesOutOfRange) <==> !NumImagesOk(args))
    ensures ApiKeySet(apiKey) && GuidanceOk(args) && NumImagesOk(args) ==>
      ResolveDimensions(args).Failure? ==> r == Failure(InvalidDimensions(ResolveDimensions(args).error))
    ensures r.Success? <==>
      ApiKeySet(apiKey) && GuidanceOk(args) && NumImagesOk(args) && ResolveDimensions(args).Success?
    ensures r.Success? ==>
      SizeToken.Parse(r.value.size) == Some(ResolveDimensions(args).value)
      && r.value.prompt == args.prompt
      && (r.value.n.Some? <==> NumImages(args) > 1)
      && (r.value.n.Some? ==> r.value.n.value == NumImages(args))
      && r.value.seed == args.seed
    ensures r.Success? ==> r.value == BuildRequest(args.prompt, ResolveDimensions(args).value, NumImages(args), args.seed)
  {
    if !ApiKeySet(apiKey) then
      Failure(MissingApiKey)
    else if Guidance(args) < MinGuidanceScale || Guidance(args) > MaxGuidanceScale then
      Failure(GuidanceScaleOutOfRange)
    else if NumImages(args) < MinNumImages || NumImages(args) > MaxNumImages then
      Failure(NumImagesOutOfRange)
    else
      match ResolveDimensions(args)
      case Failure(e) => Failure(InvalidDimensions(e))
      case Success(dims) => Success(BuildRequest(args.prompt, dims, NumImages(args), args.seed))
  }

  /** The reply check: an error object, or no `data`, is a failure whose
      message is the API's (when non-empty) or a fixed fallback; an empty
      `data` list is a success. */
  function CheckResponse(reply: Response): (r: Result<seq<ImageData>, string>)
    ensures r.Success? <==> reply.error.None? && reply.data.Some?
    ensures r.Success? ==> r.value == reply.data.value
    ensures r.Failure? ==> r.error != ""
    ensures r.Failure? && reply.error.Some? && reply.error.value.message != "" ==> r.error == reply.error.value.message
    ensures r.Failure? && (reply.error.None? || reply.error.value.message == "") ==> r.error == FallbackFailureMessage
  {
    if reply.error.Some? || reply.data.None? then
      Failure(if reply.error.Some? && reply.error.value.message != "" then reply.error.value.message
              else FallbackFailureMessage)
    else
      Success(reply.data.value)
  }

  /** `generateImage` up to its report: the request is prepared and, only if
      that succeeds, the reply to it is checked. */
  function GenerateImage(apiKey: Option<string>, args: GenerateImageArgs, reply: Response)
    : (r: Result<seq<ImageData>, GenerateError>)
    ensures PrepareRequest(apiKey, args).Failure? ==> r == Failure(PrepareRequest(apiKey, args).error)
    ensures r.Success? <==> PrepareRequest(apiKey, args).Success? && reply.error.None? && reply.data.Some?
    ensures r.Success? ==> r.value == reply.data.value
    ensures PrepareRequest(apiKey, args).Success? && r.Failure? ==>
      r.error.GenerationFailed? && |r.error.message| > |FailurePrefix| && r.error.message[..|FailurePrefix|] == FailurePrefix
    ensures PrepareRequest(apiKey, args).Success? && CheckResponse(reply).Failure? ==>
      r == Failure(GenerationFailed(FailurePrefix + CheckResponse(reply).error))
  {
    match PrepareRequest(apiKey, args)
    case Failure(e) => Failure(e)
    case Success(_) =>
      match CheckResponse(reply)
      case Failure(msg) => Failure(GenerationFailed(FailurePrefix + msg))
      case Success(images) => Success(images)
  }

  /** With only a prompt, the request is a single 16:9 one-megapixel image with
      neither `n` nor `seed`. */
  lemma DefaultRequest(apiKey: Option<string>, prompt: string)
    requires ApiKeySet(apiKey)
    ensures PrepareRequest(apiKey, GenerateImageArgs(prompt, None, None, None, None, None, None, None))
         == Success(Request(ModelName, prompt, "1365x768", "disabled", false, "url", true, None, None))
  {
    var args := GenerateImageArgs(prompt, None, None, None, None, None, None, None);
    DefaultDimensions(args);
    assert PrepareRequest(apiKey, args) == Success(BuildRequest(prompt, Dimensions(1365, 768), 1, None));
    DefaultSizeToken();
  }

  /** Without aspect ratio, size or custom sides the dimensions are 16:9 at one megapixel. */
  lemma DefaultDimensions(args: GenerateImageArgs)
    requires args.aspectRatio.None? && args.size.None? && args.width.None? && args.height.None?
    ensures ResolveDimensions(args) == Success(Dimensions(1365, 768))
  {
    RegularExamples();
  }

  lemma DefaultSizeToken()
    ensures SizeToken.Format(Dimensions(1365, 768)) == "1365x768"
  {
  }

  /** The guidance scale is only checked: any accepted value yields the same request. */
  lemma GuidanceScaleNotSent(apiKey: Option<string>, args: GenerateImageArgs, g: real)
    requires MinGuidanceScale <= g <= MaxGuidanceScale && GuidanceOk(args)
    ensures PrepareRequest(apiKey, args.(guidanceScale := Some(g))) == PrepareRequest(apiKey, args)
  {
  }
}
