/**
 * The remove-background endpoint as one pure function: the request fields and
 * the outcomes of the foreign calls it makes go in; the stages that ran and
 * the reply come out. The `try` body and the `except` clauses are kept apart,
 * as in the handler itself.
 */
module Handler {
  import opened Optional
  import opened PyStr
  import opened Imaging
  import opened Errors

  /** The multipart form: the upload's declared content type and the three form fields. */
  datatype Request = Request(contentType: Option<string>, format: string, quality: int, apiKey: Option<string>)

  /** What `Image.open` on the uploaded bytes does. */
  datatype OpenOutcome = Opened(image: Image) | OpenFailed(message: string)

  /** What the selected provider's `remove_background` does. */
  datatype RemoveOutcome = Removed(result: Image) | RemoveFailed(error: Exception)

  /**
   * The outcomes of the foreign calls of one request; `saveError` is set when
   * PIL's `save` raises. `headerMessage` is the string form of the
   * UnicodeEncodeError that building the `Response` raises when a header value
   * does not encode as latin-1; whether it is raised is decided by the header itself.
   */
  datatype Collaborators = Collaborators(open: OpenOutcome, remove: RemoveOutcome, saveError: Option<string>,
                                         headerMessage: string)

  /** The provider of one request: a remote client built from the key, or the model loaded at startup. */
  datatype Provider = Remote(apiKey: string) | Local

  /** The stages of the handler, in the order they run; `Infer` records the call into a provider. */
  datatype Stage = Validate | Decode | Infer(provider: Provider, input: Image) | Encode

  /** The successful response: the encoded body, its media type and its Content-Disposition header. */
  datatype Response = Response(body: Encoding, mediaType: string, contentDisposition: string)

  datatype Reply = Ok(response: Response) | Err(status: nat, detail: string)

  /** One request: the stages entered, in order, and the reply the client gets. */
  datatype Run = Run(stages: seq<Stage>, reply: Reply)

  /** How the `try` body ends: it returns a response or raises. */
  datatype TryOutcome = Returned(response: Response) | Raised(error: Exception)

  const NotAnImage := "File must be an image"
  const NotLoaded := "Models not loaded. Server may still be starting up."
  const DispositionPrefix := "attachment; filename=withoutbg."

  /** The content-type test: present, non-empty and starting with "image/" (case-sensitive). */
  predicate IsImageUpload(contentType: Option<string>)
  {
    Truthy(contentType) && "image/" <= contentType.value
  }

  /** The provider chosen by the truthiness of `api_key`. */
  function SelectProvider(apiKey: Option<string>): (p: Provider)
    ensures p.Remote? <==> Truthy(apiKey)
    ensures p.Remote? ==> apiKey == Some(p.apiKey)
  {
    if Truthy(apiKey) then Remote(apiKey.value) else Local
  }

  /** The position each stage takes in the fixed order validate, decode, dispatch, encode. */
  function StageIndex(s: Stage): nat
  {
    match s
    case Validate => 0
    case Decode => 1
    case Infer(_, _) => 2
    case Encode => 3
  }

  /** The stages ran in order, none skipped and none repeated: a prefix of validate, decode, dispatch, encode. */
  predicate InPipelineOrder(stages: seq<Stage>)
  {
    1 <= |stages| <= 4 && forall i :: 0 <= i < |stages| ==> StageIndex(stages[i]) == i
  }

  /** The `try` block of the handler, stage by stage; `modelLoaded` is `_model is not None`. */
  function TryBody(req: Request, env: Collaborators, modelLoaded: bool): (seq<Stage>, TryOutcome)
  {
    if !IsImageUpload(req.contentType) then
      ([Validate], Raised(HttpException(400, NotAnImage)))
    else
      match env.open
      case OpenFailed(message) => ([Validate, Decode], Raised(OtherError(message)))
      case Opened(input) =>
        if !Truthy(req.apiKey) && !modelLoaded then
          ([Validate, Decode], Raised(HttpException(503, NotLoaded)))
        else
          var called := [Validate, Decode, Infer(SelectProvider(req.apiKey), input)];
          match env.remove
          case RemoveFailed(e) => (called, Raised(e))
          case Removed(result) =>
            var f := ResolveFormat(req.format);
            var body := PrepareSave(result, f, req.quality);
            var disposition := DispositionPrefix + req.format;
            if env.saveError.Some? then
              (called + [Encode], Raised(OtherError(env.saveError.value)))
            else if !IsLatin1(disposition) then
              (called + [Encode], Raised(OtherError(env.headerMessage)))
            else
              (called + [Encode], Returned(Response(body, MediaType(f), disposition)))
  }

  /** The whole endpoint: the `try` body followed by its two `except` clauses. */
  function Handle(req: Request, env: Collaborators, modelLoaded: bool): (run: Run)
    ensures InPipelineOrder(run.stages)
    ensures run.reply.Err? ==> run.reply.status == 500
    ensures run.reply.Ok? ==> |run.stages| == 4
  {
    var (stages, outcome) := TryBody(req, env, modelLoaded);
    match outcome
    case Returned(response) => Run(stages, Ok(response))
    case Raised(e) =>
      var err := Except(e);
      Run(stages, Err(err.status, err.detail))
  }

  /** A missing, empty or non-"image/" content type is refused before anything is read, decoded or dispatched. */
  lemma NonImageRejectedFirst(req: Request, env: Collaborators, modelLoaded: bool)
    requires !IsImageUpload(req.contentType)
    ensures Handle(req, env, modelLoaded) == Run([Validate], Err(500, ProcessingFailed + "400: " + NotAnImage))
  {
    InnerHttpExceptionBecomes500(NotAnImage);
  }

  /** Decoding is attempted exactly when the content type passes. */
  lemma DecodeOnlyAfterValidation(req: Request, env: Collaborators, modelLoaded: bool)
    ensures |Handle(req, env, modelLoaded).stages| >= 2 <==> IsImageUpload(req.contentType)
  {
  }

  /** A failed decode is a 500 "Processing failed" and no provider is called. */
  lemma DecodeFailureStops(req: Request, env: Collaborators, modelLoaded: bool)
    requires IsImageUpload(req.contentType) && env.open.OpenFailed?
    ensures Handle(req, env, modelLoaded) == Run([Validate, Decode], Err(500, ProcessingFailed + env.open.message))
  {
  }

  /** A truthy key takes the remote path with that key, and readiness of the local model plays no part. */
  lemma RemoteIgnoresReadiness(req: Request, env: Collaborators)
    requires Truthy(req.apiKey)
    ensures Handle(req, env, false) == Handle(req, env, true)
    ensures IsImageUpload(req.contentType) && env.open.Opened? ==>
              Handle(req, env, false).stages[2] == Infer(Remote(req.apiKey.value), env.open.image)
  {
  }

  /** With no key (or an empty one) and no model loaded, the 503 is raised, swallowed into a 500, and no provider runs. */
  lemma LocalNotLoaded(req: Request, env: Collaborators)
    requires !Truthy(req.apiKey) && IsImageUpload(req.contentType) && env.open.Opened?
    ensures Handle(req, env, false) == Run([Validate, Decode], Err(500, ProcessingFailed + "503: " + NotLoaded))
  {
    InnerHttpExceptionBecomes500(NotLoaded);
  }

  /** With no key (or an empty one) and the model loaded, the local model receives the decoded image. */
  lemma LocalLoaded(req: Request, env: Collaborators)
    requires !Truthy(req.apiKey) && IsImageUpload(req.contentType) && env.open.Opened?
    ensures Handle(req, env, true).stages[2] == Infer(Local, env.open.image)
  {
  }

  /** A provider failure ends the request at dispatch; a WithoutBGError's message passes through unwrapped. */
  lemma ProviderFailureMapping(req: Request, env: Collaborators, modelLoaded: bool)
    requires |Handle(req, env, modelLoaded).stages| >= 3 && env.remove.RemoveFailed?
    ensures |Handle(req, env, modelLoaded).stages| == 3
    ensures env.remove.error.WithoutBGError? ==>
              Handle(req, env, modelLoaded).reply == Err(500, env.remove.error.message)
    ensures !env.remove.error.WithoutBGError? ==>
              Handle(req, env, modelLoaded).reply == Err(500, ProcessingFailed + Str(env.remove.error))
  {
  }

  /** A failing `save` is a 500 "Processing failed"; no body is returned. */
  lemma EncodeFailureMapping(req: Request, env: Collaborators, modelLoaded: bool)
    requires |Handle(req, env, modelLoaded).stages| == 4 && env.saveError.Some?
    ensures Handle(req, env, modelLoaded).reply == Err(500, ProcessingFailed + env.saveError.value)
  {
  }

  /**
   * A body is produced exactly when every stage ran, the final `save` succeeded
   * and the requested format string can go into a latin-1 header.
   */
  lemma OkIffAllStagesSucceed(req: Request, env: Collaborators, modelLoaded: bool)
    ensures Handle(req, env, modelLoaded).reply.Ok? <==>
              IsImageUpload(req.contentType) && env.open.Opened? && (Truthy(req.apiKey) || modelLoaded)
              && env.remove.Removed? && env.saveError.None? && IsLatin1(req.format)
  {
    assert IsLatin1(DispositionPrefix);
    assert IsLatin1(DispositionPrefix + req.format) <==> IsLatin1(req.format) by {
      var d := DispositionPrefix + req.format;
      assert forall i :: 0 <= i < |req.format| ==> d[|DispositionPrefix| + i] == req.format[i];
    }
  }

  /**
   * The response is built inside the `try`: a format string with a character
   * outside latin-1 makes the Content-Disposition header fail to encode after
   * `save` succeeded, and that too becomes a 500 "Processing failed".
   */
  lemma HeaderEncodingFailure(req: Request, env: Collaborators, modelLoaded: bool)
    requires |Handle(req, env, modelLoaded).stages| == 4 && env.saveError.None? && !IsLatin1(req.format)
    ensures Handle(req, env, modelLoaded).reply == Err(500, ProcessingFailed + env.headerMessage)
  {
    var d := DispositionPrefix + req.format;
    var i :| 0 <= i < |req.format| && req.format[i] as int >= 256;
    assert d[|DispositionPrefix| + i] == req.format[i];
  }

  /**
   * On success the media type follows the resolved format, quality goes to JPEG
   * and WEBP only, JPEG output is flattened onto white exactly when the result is
   * RGBA, and the filename carries the requested format string unchanged.
   */
  lemma SuccessResponse(req: Request, env: Collaborators, modelLoaded: bool)
    requires Handle(req, env, modelLoaded).reply.Ok?
    ensures var r := Handle(req, env, modelLoaded).reply.response;
            var f := ResolveFormat(req.format);
            && r.mediaType == MediaType(f)
            && r.contentDisposition == DispositionPrefix + req.format
            && r.body == PrepareSave(env.remove.result, f, req.quality)
            && r.body.pilFormat == PilFormat(f)
            && r.body.quality == (if f == Png then None else Some(req.quality))
            && (r.body.picture.Flattened? <==> f == Jpeg && env.remove.result.mode == "RGBA")
            && PictureSize(r.body.picture) == (env.remove.result.width, env.remove.result.height)
  {
  }

  /** "bmp" is not refused: the body is PNG while the filename still says ".bmp". */
  lemma UnknownFormatKeepsLiteralName(req: Request, env: Collaborators, modelLoaded: bool)
    requires req.format == "bmp" && Handle(req, env, modelLoaded).reply.Ok?
    ensures Handle(req, env, modelLoaded).reply.response.mediaType == "image/png"
    ensures Handle(req, env, modelLoaded).reply.response.contentDisposition == "attachment; filename=withoutbg.bmp"
  {
    ResolveFormatExamples();
  }
}
