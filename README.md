# withoutbg backend: the remove-background decision procedure

A Dafny model of the request-handling logic of the withoutbg web backend
(`apps/web/backend/app/main.py`): the `/api/remove-background` endpoint, which
validates an upload, decodes it, hands it to either a remote API client (when a
non-empty `api_key` is given) or the model loaded at startup, re-encodes the
result as PNG, JPEG or WEBP and returns it; and the process-wide `_model`
that the startup hook writes once and the `/api/health` probe reports.

Images are abstract (a PIL mode and a size). The foreign calls the handler
makes — `Image.open`, the provider's `remove_background`, PIL's `save` — are
inputs to the model (`Handler.Collaborators`): each is given as the outcome it
had, success with a value or the exception it raised. The handler is a pure
function returning the stages that ran (validate, decode, dispatch to a
provider, encode) and the reply.

The handler is modelled as written. The two `HTTPException`s raised inside its
`try` block (400 for a bad content type, 503 for a model that is not loaded
yet) are not `WithoutBGError`s, so the catch-all `except Exception` catches
them and re-raises a 500 whose detail is `"Processing failed: " + str(e)`, and
`str` of an `HTTPException` is `"<status>: <detail>"`. So a bad content type
yields 500 "Processing failed: 400: File must be an image", and no status
other than 500 ever leaves the handler. The code raises 400 and 503 for these
cases, but its own catch-all turns both into 500.

The `Response` is also built inside the `try`, and building it encodes the
Content-Disposition header as latin-1. A `format` string with a character
outside latin-1 therefore fails after `save` has succeeded, and that failure
too becomes a 500 "Processing failed".

Modules: `Optional` (the `Option` type), `PyStr` (Python truthiness,
`str.lower()`, the latin-1 test of a header value, decimal rendering), `Imaging` (format resolution and the `save`
call), `Errors` (the exceptions and the two `except` clauses), `Handler` (the
endpoint), `Lifecycle` (the `_model` global as a class, the health probe, and
the readiness history).

## Model

| member | source | states |
|---|---|---|
| `PyStr.Truthy` | apps/web/backend/app/main.py:78-86 | no contract of its own: `if api_key:` and `not file.content_type`, where None and "" are false; its behaviour is stated by `Handler.SelectProvider` and `Handler.DecodeOnlyAfterValidation` |
| `PyStr.IsLatin1` | apps/web/backend/app/main.py:121-126 | no contract of its own: whether a header value encodes as latin-1; its use is stated by `Handler.OkIffAllStagesSucceed` and `Handler.HeaderEncodingFailure` |
| `PyStr.Lower` | apps/web/backend/app/main.py:103-112 | ASCII lowering keeps the length and lowers every character in place |
| `PyStr.LowerIsLowerCase` | apps/web/backend/app/main.py:103-112 | a lowered string has no upper-case letter, and lowering is idempotent |
| `PyStr.LowerEqualsLiteral` | apps/web/backend/app/main.py:103-112 | comparing `format.lower()` with a lower-case literal is exactly a case-insensitive character-by-character comparison, both directions |
| `PyStr.EqualsIgnoringCaseLower` | apps/web/backend/app/main.py:103-112 | spellings equal up to case lower to the same string |
| `PyStr.Decimal` | apps/web/backend/app/main.py:131-132 | the status code inside `str(e)` of an HTTPException is a non-empty run of decimal digits without a leading zero |
| `PyStr.DecimalRoundTrip` | apps/web/backend/app/main.py:131-132 | that rendering is lossless: parsing the digits gives the status back |
| `Imaging.ResolveFormat` | apps/web/backend/app/main.py:103-117 | no contract of its own; its behaviour is stated by `Imaging.ResolveFormatIgnoresCase`, `Imaging.ResolveFormatCaseInsensitive` and `Imaging.ResolveFormatExamples` |
| `Imaging.MediaType` | apps/web/backend/app/main.py:108-117 | no contract of its own: "image/jpeg", "image/webp" or "image/png" per branch; used in `Handler.SuccessResponse` |
| `Imaging.PilFormat` | apps/web/backend/app/main.py:108-116 | no contract of its own: "JPEG", "WEBP" or "PNG" as passed to `save`; used in the contract of `Imaging.PrepareSave` |
| `Imaging.PrepareSave` | apps/web/backend/app/main.py:99-117 | the `save` call: PIL format per resolved format, quality passed for JPEG and WEBP only, JPEG output flattened onto a white RGB canvas of the same size exactly when the result is RGBA, any other picture saved unchanged, JPEG never receives an RGBA picture |
| `Imaging.ResolveFormatIgnoresCase` | apps/web/backend/app/main.py:103-117 | JPEG iff the format equals "jpg" or "jpeg" ignoring case, WEBP iff it equals "webp" ignoring case, PNG iff neither |
| `Imaging.ResolveFormatCaseInsensitive` | apps/web/backend/app/main.py:103-117 | two format strings equal up to case resolve to the same output format |
| `Imaging.ResolveFormatExamples` | apps/web/backend/app/main.py:103-117 | "bmp", "" and "PNG" fall back to PNG without error; "JPG", "Jpeg" give JPEG; "WebP" gives WEBP |
| `Errors.Str` | apps/web/backend/app/main.py:130-132 | no contract of its own: `str(e)`, the message itself except for an HTTPException, which renders as "<status>: <detail>"; stated by `Errors.ExceptMapsTo500` |
| `Errors.Except` | apps/web/backend/app/main.py:129-132 | no contract of its own: the two `except` clauses in order; its behaviour is stated by `Errors.ExceptMapsTo500` and `Errors.InnerHttpExceptionBecomes500` |
| `Errors.ExceptMapsTo500` | apps/web/backend/app/main.py:129-132 | every caught exception becomes status 500; a WithoutBGError keeps its message unprefixed, every other exception gets "Processing failed: " before its string form |
| `Errors.InnerHttpExceptionBecomes500` | apps/web/backend/app/main.py:76-132 | an HTTPException 400 or 503 raised inside the `try` comes out as 500 "Processing failed: 400: …" or "Processing failed: 503: …" |
| `Handler.IsImageUpload` | apps/web/backend/app/main.py:78 | no contract of its own: the content type is present, non-empty and starts with "image/"; stated by `Handler.NonImageRejectedFirst` and `Handler.DecodeOnlyAfterValidation` |
| `Handler.TryBody` | apps/web/backend/app/main.py:76-127 | no contract of its own: the `try` body, stage by stage; its behaviour is stated through `Handler.Handle` and the `Handler` lemmas below |
| `Handler.SelectProvider` | apps/web/backend/app/main.py:86-97 | the remote provider is chosen iff `api_key` is truthy (neither None nor ""), and then with that very key |
| `Handler.Handle` | apps/web/backend/app/main.py:57-132 | the stages run in the fixed order validate, decode, dispatch, encode, each at most once, starting with validation; every error reply has status 500; a body is returned only after all four stages ran |
| `Handler.NonImageRejectedFirst` | apps/web/backend/app/main.py:76-132 | a missing, empty or non-"image/" content type stops the request after validation, whatever the body and the providers would do, with 500 "Processing failed: 400: File must be an image" |
| `Handler.DecodeOnlyAfterValidation` | apps/web/backend/app/main.py:78-83 | decoding is attempted iff the content type passes |
| `Handler.DecodeFailureStops` | apps/web/backend/app/main.py:82-132 | a failed `Image.open` yields 500 "Processing failed: " + its message and calls no provider |
| `Handler.RemoteIgnoresReadiness` | apps/web/backend/app/main.py:86-89 | with a truthy key the outcome does not depend on whether `_model` is set, and the remote provider gets that key and the decoded image |
| `Handler.LocalNotLoaded` | apps/web/backend/app/main.py:90-96 | with no key or an empty key and `_model` unset, no provider runs and the reply is 500 "Processing failed: 503: Models not loaded. Server may still be starting up." |
| `Handler.LocalLoaded` | apps/web/backend/app/main.py:90-97 | with no key or an empty key and `_model` set, the local model gets the decoded image |
| `Handler.ProviderFailureMapping` | apps/web/backend/app/main.py:86-132 | a provider failure ends the request at dispatch; a WithoutBGError's message is the detail as is, any other exception is wrapped in "Processing failed: " |
| `Handler.EncodeFailureMapping` | apps/web/backend/app/main.py:99-132 | a failing `save` yields 500 "Processing failed: " + its message and no body |
| `Handler.OkIffAllStagesSucceed` | apps/web/backend/app/main.py:76-127 | a body is returned iff validation passes, the image opens, a provider is available, the provider succeeds, `save` succeeds and the format string is latin-1 |
| `Handler.HeaderEncodingFailure` | apps/web/backend/app/main.py:121-132 | after a successful `save`, a format string with a character outside latin-1 makes building the response fail, and the reply is 500 "Processing failed: " + the encoding error's message |
| `Handler.SuccessResponse` | apps/web/backend/app/main.py:99-127 | on success the body is exactly the `save` call `PrepareSave` describes for the provider's result (the result unchanged, or flattened onto a white RGB canvas), the media type follows the resolved format, Content-Disposition is "attachment; filename=withoutbg." + the literal format string, quality is forwarded for JPEG and WEBP only, flattening happens iff JPEG and RGBA, and the size is the provider result's |
| `Handler.UnknownFormatKeepsLiteralName` | apps/web/backend/app/main.py:112-126 | format "bmp" yields a PNG body named "withoutbg.bmp" |
| `Lifecycle.Backend.constructor` | apps/web/backend/app/main.py:34 | `_model` starts as None, so the process starts not ready |
| `Lifecycle.Backend.StartupEvent` | apps/web/backend/app/main.py:37-43 | the startup hook stores the loaded model; the process is ready afterwards |
| `Lifecycle.Backend.ModelsLoaded` | apps/web/backend/app/main.py:53 | no contract of its own: `_model is not None`; used in the contracts of `Lifecycle.Backend.constructor`, `Lifecycle.Backend.StartupEvent` and `Lifecycle.Backend.RemoveBackground` |
| `Lifecycle.Backend.HealthCheck` | apps/web/backend/app/main.py:46-54 | the probe always reports status "healthy", service "withoutbg-api" and the package version, and `models_loaded` iff `_model is not None` |
| `Lifecycle.Backend.RemoveBackground` | apps/web/backend/app/main.py:57-97 | the endpoint reads `_model` only as the readiness flag and changes no state; while not ready, only the remote path can produce a body |
| `Lifecycle.ReadyAfter` | apps/web/backend/app/main.py:34-54 | no contract of its own: readiness after a history, which is the starting readiness or a startup having run; tied to the class by `Lifecycle.Replay` |
| `Lifecycle.Probes` | apps/web/backend/app/main.py:34-54 | no contract of its own: what each health probe of a history reports; tied to the class by `Lifecycle.Replay` and described by the `Lifecycle.Probes…` lemmas and `Lifecycle.ReadinessNeverReverts` |
| `Lifecycle.Replay` | apps/web/backend/app/main.py:34-54 | replaying a history of startups and health probes on a backend, the probes report exactly what `Probes` predicts and the backend ends ready iff it started ready or a startup occurred |
| `Lifecycle.ProbesAppend` | apps/web/backend/app/main.py:34-54 | probes over two stretches of events: the second stretch starts from the readiness the first left |
| `Lifecycle.ProbesWhenReady` | apps/web/backend/app/main.py:34-54 | once the model is loaded every probe reports it loaded |
| `Lifecycle.ProbesBeforeStartup` | apps/web/backend/app/main.py:34-54 | without a startup every probe of a fresh process reports not loaded |
| `Lifecycle.ReadinessNeverReverts` | apps/web/backend/app/main.py:34-54 | readiness never reverts: a probe seeing true is followed only by probes seeing true |
| `Lifecycle.ProbesAroundStartup` | apps/web/backend/app/main.py:34-54 | for a history with one startup, probes before it report false and probes after it report true, so readiness flips exactly once |

## Left out

- FastAPI routing, multipart parsing, the CORS middleware and the `uvicorn.run`/`PORT` entry point (main.py:18-31, 154-156): framework and I/O plumbing. This includes the form defaults `format="png"` and `quality=95` (main.py:60-61), and FastAPI's replacing an empty form value with its default; `Handler.Request` holds the values the handler receives after that.
- The text of the UnicodeEncodeError raised when the Content-Disposition header is not latin-1 is an input (`Collaborators.headerMessage`); whether it is raised is modelled.
- The `/api/usage` endpoint (main.py:135-151): a remote call whose only logic is the "Failed to fetch usage: " prefix on errors.
- PIL decoding, encoding and compositing: images are a mode and a size; the paste onto the white canvas is recorded, not computed; `Image.open` is one outcome given as input (PIL's lazy decoding, which can defer a decode error to a later stage, is not modelled), and any exception from `Image.new`, `paste` or `save` is one `saveError` given as input.
- `WithoutBG.opensource()`, `WithoutBG.api(key)` and their `remove_background`: an external package; the provider's behaviour is one outcome given as input (a result image, a WithoutBGError or another exception). An exception from constructing the remote client is covered by that same outcome.
- `await file.read()` is not a separate stage: reading the upload is folded into decoding.
- Lifecycle.Backend.StartupEvent: only a successful `WithoutBG.opensource()` is modelled; if loading raises, `_model` stays None and the exception aborts startup, so no probe or request is served afterwards.
- The startup hook's two `print` calls, and asynchronous or concurrent startup: startup is one sequential `StartupEvent`.
- `__version__` is given to `HealthCheck` as a parameter; it comes from the external package.
- `PyStr.Lower`: lowers ASCII letters only, where Python's `str.lower()` follows Unicode; only characters outside ASCII differ, because no non-ASCII character lowers to one of the letters of "jpg", "jpeg" or "webp".
- `Errors.Str`: the string form of an `HTTPException` ("<status>: <detail>") is the framework's, whose source is not part of this model.
