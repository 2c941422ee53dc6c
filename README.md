# AOCR serving layer in Dafny

A verified model of the serving layer of the AOCR Android app. The app is an on-device OCR server
that accepts images over HTTP and over a WebSocket, runs them through ML Kit or Tesseract, and
answers with the recognised text as JSON. The model covers the decisions and the state updates of
that layer:

- the authentication gate;
- HTTP routing, the handlers, the order in which an image is looked for, and the status codes;
- the bounded request log and its counter;
- the WebSocket hub's connection set and the frames it sends for each event;
- the image helpers' header stripping and resize rule;
- the engine's choice of recogniser and its once-only Tesseract initialisation;
- address selection over the network interfaces;
- the lifecycle service with its running flag and listener lists.

The libraries behind the app enter the model as values:

- Recognisers, language identification, Tesseract, Base64 and bitmap decoding, and scaling are
  fields of the `Backend` and `Decoders` records.
- The HTTP session (headers, body parser, temporary files, JSON body) is a `Session` record.
- Parsed WebSocket messages are `Incoming` values; outgoing frames and JSON bodies are datatypes.
- Clock readings and the time-zone offset are parameters.
- Whether a throwing library call (server start and stop, each engine's close, socket send) throws is
  a boolean input. Scaling gives a `Result` that carries the message of the exception it throws.

Objects whose fields the source updates in place are classes:

- the gate's configuration (`Auth.AuthMiddleware`);
- the language holder;
- the engine's Tesseract handle;
- the HTTP server's log and counter;
- the hub's connection set, and each connection's delivered frames;
- the service's servers, flag, ports and listener lists.

The request handlers and the listener methods are proved equal to a pure specification function
of the old state, and the properties are proved about those functions. This covers recognition
(`RecognizeSpec`), the HTTP handlers (`ProcessOcrSpec`, `OcrRequestSpec`, `ServeSpec`), logging
(`Appended`), the WebSocket handlers (`ProcessFrames`, `OcrFrames`, `MessageSpec`) and the
listeners (`RemoveFirst`, `CallsInOrder`). The other state-changing methods state their new state
field by field. These are the service's start, stop, command and destroy handlers, the two
servers' `Stop`, and the engine's `InitTesseract` and `Close`. The gate's setters do the same, and
so does each connection's send.

Modules, in dependency order:

- `Wrappers` (Option, Result) and `Text` (Kotlin's `trim`, `removePrefix`, `contains`,
  `toString`, `toIntOrNull`) support the rest.
- `OcrResults`, `Languages`, `LanguageManager`, `Auth`, `ImageUtils` and `RequestLogs` follow one
  source file each.
- `Engine`, `ResultJson`, `HttpServer`, `WebSocketServer`, `NetworkUtils` and `ServerService`
  follow the engine, the result JSON, the two servers, the network helper and the service.

Two behaviours of the source are kept as written and proved:

- `GET /status` asks the gate about an empty header map. With a token configured it is therefore
  always 401, even for a request carrying the right token (`HttpServer.StatusIgnoresHeaders`).
- When the WebSocket server fails to start after the HTTP server started, the HTTP server stays
  assigned while the service counts as stopped. A later stop returns at its guard and never stops
  it (`ServerService.FailedStartLeavesHttpServer`).

Where the written code and its documentation differ, the model follows the code. Two examples:

- OCR requests over the WebSocket are not gated by authentication; an `auth` message only answers
  whether its token would pass (`WebSocketServer.OcrIgnoresAuth`).
- The counter `requestCount` is a Kotlin `Int` and wraps at its maximum (`HttpServer.Int32Increment`).

## Model

| member | source | states |
|---|---|---|
| Text.RemovePrefix | app/src/main/java/com/example/ocrserver/auth/AuthMiddleware.kt:47 | one leading `"Bearer "` is removed when present, otherwise the value is unchanged |
| Text.TrimCharacterisation | app/src/main/java/com/example/ocrserver/auth/AuthMiddleware.kt:47 | `trim()` yields `t` exactly when `t` has no surrounding whitespace and the input is `t` padded with whitespace |
| Text.Contains | app/src/main/java/com/example/ocrserver/server/OcrHttpServer.kt:125 | `contains` holds exactly when the substring occurs at some index |
| Text.ParseIntOrNull | app/src/main/java/com/example/ocrserver/server/OcrHttpServer.kt:126 | `toIntOrNull` gives only values inside the 32-bit range and `null` for the empty string |
| Text.ParseIntRoundTrip | app/src/main/java/com/example/ocrserver/server/OcrHttpServer.kt:126 | `toIntOrNull` reads back the decimal rendering of every `Int` |
| Languages.Find | app/src/main/java/com/example/ocrserver/ocr/OcrLanguage.kt:14 | `find` returns a listed language with the code, or `null` when no listed language has it |
| Languages.FromCode | app/src/main/java/com/example/ocrserver/ocr/OcrLanguage.kt:13-15 | `fromCode` returns the language whose code is exactly the argument, and AUTO when there is none |
| Languages.ValuesAreComplete | app/src/main/java/com/example/ocrserver/ocr/OcrLanguage.kt:3-10 | `values()` lists all seven constants |
| Languages.CodesDistinct | app/src/main/java/com/example/ocrserver/ocr/OcrLanguage.kt:4-10 | the seven codes are pairwise distinct |
| Languages.FromCodeRoundTrip | app/src/main/java/com/example/ocrserver/ocr/OcrLanguage.kt:13-15 | looking a language up by its own code gives it back |
| Languages.FromCodeIsExact | app/src/main/java/com/example/ocrserver/ocr/OcrLanguage.kt:14 | any string that is not exactly one of the codes (such as `"ENG"`) gives AUTO |
| Languages.TesseractLanguages | app/src/main/java/com/example/ocrserver/ocr/OcrLanguage.kt:4-10 | only ENGLISH and RUSSIAN have a Tesseract code, and theirs equals their own code |
| LanguageManager.OcrLanguageManager.constructor | app/src/main/java/com/example/ocrserver/ocr/OcrLanguageManager.kt:4 | the holder starts at ENGLISH |
| LanguageManager.OcrLanguageManager.SetCurrentLanguage | app/src/main/java/com/example/ocrserver/ocr/OcrLanguageManager.kt:6-8 | the holder afterwards holds the argument |
| LanguageManager.OcrLanguageManager.GetCurrentLanguage | app/src/main/java/com/example/ocrserver/ocr/OcrLanguageManager.kt:10-12 | returns the held language and changes nothing |
| LanguageManager.LastWriteWins | app/src/main/java/com/example/ocrserver/ocr/OcrLanguageManager.kt:6-12 | after any series of writes the holder answers the last one |
| LanguageManager.SetIsIdempotent | app/src/main/java/com/example/ocrserver/ocr/OcrLanguageManager.kt:6-8 | setting a language twice has the same effect as setting it once |
| LanguageManager.HolderScenario | app/src/main/java/com/example/ocrserver/ocr/OcrLanguageManager.kt:3-13 | a fresh holder answers ENGLISH, then the value of the last write |
| Auth.AuthMiddleware.constructor | app/src/main/java/com/example/ocrserver/auth/AuthMiddleware.kt:9-10 | the gate starts disabled with no token |
| Auth.AuthMiddleware.SetAuthEnabled | app/src/main/java/com/example/ocrserver/auth/AuthMiddleware.kt:12-15 | only the enabled flag changes |
| Auth.AuthMiddleware.SetAuthToken | app/src/main/java/com/example/ocrserver/auth/AuthMiddleware.kt:17-20 | only the token changes; `null` clears it |
| Auth.LookupAuthorization | app/src/main/java/com/example/ocrserver/auth/AuthMiddleware.kt:32 | the value comes from exactly `"Authorization"`, else from exactly `"authorization"`, else is absent |
| Auth.ValidateTokenIff | app/src/main/java/com/example/ocrserver/auth/AuthMiddleware.kt:44-50 | with no expected token every value passes; with one, a value passes iff after one optional `"Bearer "` it is the token padded with whitespace |
| Auth.IsAuthenticated | app/src/main/java/com/example/ocrserver/auth/AuthMiddleware.kt:22-42 | true when disabled, true when enabled with no token (fail-open), false when a token is set and neither header spelling is present |
| Auth.AuthenticatedIff | app/src/main/java/com/example/ocrserver/auth/AuthMiddleware.kt:22-50 | with a token set, a request is accepted iff its header value, after one optional `"Bearer "`, is the token padded with whitespace |
| Auth.BearerTokenAccepted | app/src/main/java/com/example/ocrserver/auth/AuthMiddleware.kt:44-50 | `"Bearer " + t` is accepted for every token `t` without surrounding whitespace |
| Auth.BearerOnceAccepted | app/src/main/java/com/example/ocrserver/auth/AuthMiddleware.kt:44-50 | for token `T`, `"Bearer T"` is accepted |
| Auth.BearerTwiceRejected | app/src/main/java/com/example/ocrserver/auth/AuthMiddleware.kt:47 | for token `T`, `"Bearer Bearer T"` is refused: only one prefix is removed |
| Auth.LeadingSpaceBeforeBearerRejected | app/src/main/java/com/example/ocrserver/auth/AuthMiddleware.kt:47 | for token `T`, `"  Bearer T"` is refused: the prefix is removed before trimming |
| Auth.HeaderNameIsExact | app/src/main/java/com/example/ocrserver/auth/AuthMiddleware.kt:32-37 | `"AUTHORIZATION"` counts as absent, and an absent header is refused when a token is set |
| Auth.EmptyTokenIsNotFailOpen | app/src/main/java/com/example/ocrserver/auth/AuthMiddleware.kt:27-49 | an empty token is compared like any other: `"Bearer "` passes and a missing header fails |
| Auth.UnauthorizedResponse | app/src/main/java/com/example/ocrserver/auth/AuthMiddleware.kt:52-57 | always `authorized = false` with the fixed message |
| ImageUtils.MatchLength | app/src/main/java/com/example/ocrserver/utils/ImageUtils.kt:16 | a match found at the start of the string is in the language of `data:image/[^;]+;base64,` |
| ImageUtils.MatchLengthExact | app/src/main/java/com/example/ocrserver/utils/ImageUtils.kt:16 | a header of length `n` begins the string iff the leftmost match there has length `n` |
| ImageUtils.StripDataUris | app/src/main/java/com/example/ocrserver/utils/ImageUtils.kt:16 | the regex replacement never lengthens the string |
| ImageUtils.StripWithoutHeader | app/src/main/java/com/example/ocrserver/utils/ImageUtils.kt:16 | a string in which `data:image/` does not occur is unchanged |
| ImageUtils.StripLeadingHeader | app/src/main/java/com/example/ocrserver/utils/ImageUtils.kt:16 | a header at the start is removed whatever its media type, and the scan resumes right after it |
| ImageUtils.StripEveryHeader | app/src/main/java/com/example/ocrserver/utils/ImageUtils.kt:16 | two consecutive headers are both removed, not just a fixed-length prefix |
| ImageUtils.Base64ToBitmap | app/src/main/java/com/example/ocrserver/utils/ImageUtils.kt:14-23 | a bitmap is produced only when the stripped text Base64-decodes; a failed decode gives `null` |
| ImageUtils.DataUriDecodesLikePayload | app/src/main/java/com/example/ocrserver/utils/ImageUtils.kt:14-23 | a data URI decodes to the same bitmap as its bare payload |
| ImageUtils.ByteArrayToBitmap | app/src/main/java/com/example/ocrserver/utils/ImageUtils.kt:25-32 | the result is the library decode of the bytes, `null` meaning the decode failed or threw |
| ImageUtils.ScaledSide | app/src/main/java/com/example/ocrserver/utils/ImageUtils.kt:49-56 | a side no longer than the larger side scales to at most 2048, and the larger side to exactly 2048 |
| ImageUtils.TargetSize | app/src/main/java/com/example/ocrserver/utils/ImageUtils.kt:41-61 | both sides at most 2048: unchanged when both fit, otherwise the larger side becomes 2048 |
| ImageUtils.TargetSizeTruncates | app/src/main/java/com/example/ocrserver/utils/ImageUtils.kt:49-56 | each new side is the exact scaled side rounded down |
| ImageUtils.TargetSizeExamples | app/src/main/java/com/example/ocrserver/utils/ImageUtils.kt:49-56 | 4000x2000 becomes 2048x1024, 800x600 is kept, 3000x3000 becomes 2048x2048, 1000x5000 becomes 409x2048 |
| ImageUtils.ResizeBitmapIfNeeded | app/src/main/java/com/example/ocrserver/utils/ImageUtils.kt:41-61 | the same bitmap when both sides fit; a failure with the exception's message when a target side truncates to 0; otherwise the library's scaled copy at the target size |
| ImageUtils.ResizedFitsWithinMax | app/src/main/java/com/example/ocrserver/utils/ImageUtils.kt:41-61 | for any bitmap, when the library scales to the size it is asked for, a resized bitmap is at most 2048 on each side, and one that had to shrink has a side of exactly 2048 |
| ImageUtils.ThinBitmapFailsToResize | app/src/main/java/com/example/ocrserver/utils/ImageUtils.kt:49-60 | a 5000x1 bitmap asks for 2048x0, so the resize fails whatever the library does |
| ImageUtils.ValidateImageData | app/src/main/java/com/example/ocrserver/utils/ImageUtils.kt:63-79 | false for empty data; true exactly when the bounds-only decode reports positive width and height |
| RequestLogs.NewRequestLog | app/src/main/java/com/example/ocrserver/server/RequestLog.kt:7-15 | the six given fields are stored and `responseSize` defaults to 0 |
| RequestLogs.TwoDigits | app/src/main/java/com/example/ocrserver/server/RequestLog.kt:17 | a number below 100 is written with exactly two digits that read back as it |
| RequestLogs.SecondOfDay | app/src/main/java/com/example/ocrserver/server/RequestLog.kt:16-19 | the local second of the day lies in 0..86399 |
| RequestLogs.FormattedTimestamp | app/src/main/java/com/example/ocrserver/server/RequestLog.kt:16-19 | eight characters `dd:dd:dd` |
| RequestLogs.FormattedTimestampReadsBack | app/src/main/java/com/example/ocrserver/server/RequestLog.kt:16-19 | the fields read back as hours 00..23 and minutes and seconds 00..59 that add up to the local second of the day |
| RequestLogs.LogLineParts | app/src/main/java/com/example/ocrserver/server/RequestLog.kt:21-23 | the line is made of ten pieces |
| RequestLogs.FormattedLog | app/src/main/java/com/example/ocrserver/server/RequestLog.kt:21-23 | the line ends with `"ms)"` |
| RequestLogs.FormattedLogFields | app/src/main/java/com/example/ocrserver/server/RequestLog.kt:21-23 | each piece (timestamp, `" - "`, method, `" "`, path, `" - "`, status, `" ("`, ms, `"ms)"`) is found back in order at its offset |
| RequestLogs.FormattedLogStartsWithTimestamp | app/src/main/java/com/example/ocrserver/server/RequestLog.kt:21-23 | the line starts with the eight-character timestamp followed by `" - "` |
| RequestLogs.Appended | app/src/main/java/com/example/ocrserver/server/OcrHttpServer.kt:237-240 | the new entry is last; a log of at most 100 entries stays within 100; below 100 nothing is evicted |
| RequestLogs.LastN | app/src/main/java/com/example/ocrserver/server/OcrHttpServer.kt:237-240 | the window holds `min(n, size)` entries |
| RequestLogs.AppendedIsLastN | app/src/main/java/com/example/ocrserver/server/OcrHttpServer.kt:237-240 | one append-and-evict equals keeping the last 100 of the list plus the entry |
| RequestLogs.AppendAllKeepsLast | app/src/main/java/com/example/ocrserver/server/OcrHttpServer.kt:237-240 | after any series of appends the log is the last (at most) 100 entries in their original order |
| RequestLogs.FreshLogKeepsLast | app/src/main/java/com/example/ocrserver/server/OcrHttpServer.kt:237-240 | from an empty log, `n` requests leave the last `min(n, 100)` of them, oldest first |
| Engine.RecognizerFor | app/src/main/java/com/example/ocrserver/ocr/OcrEngine.kt:192-200 | AUTO, ENGLISH and RUSSIAN map to the Latin client, each other language to its own client |
| Engine.DetectLanguage | app/src/main/java/com/example/ocrserver/ocr/OcrEngine.kt:80-91 | `und` and a failed identification give `unknown`; any other code passes through |
| Engine.EmptyResult | app/src/main/java/com/example/ocrserver/ocr/OcrEngine.kt:129-137 | empty text, confidence 0, language `unknown`, no blocks |
| Engine.LineElementCountPositive | app/src/main/java/com/example/ocrserver/ocr/OcrEngine.kt:97-104 | the element count of a list of lines is positive iff some line has an element |
| Engine.ElementCountPositive | app/src/main/java/com/example/ocrserver/ocr/OcrEngine.kt:93-110 | the element count of a list of blocks is positive iff some line of some block has an element |
| Engine.AverageConfidence | app/src/main/java/com/example/ocrserver/ocr/OcrEngine.kt:93-110 | 1 iff some line of some block has an element, else 0 |
| Engine.ConvertBox | app/src/main/java/com/example/ocrserver/ocr/OcrEngine.kt:114-117 | a missing box stays missing; a present box keeps its four edges |
| Engine.ConvertToBlocks | app/src/main/java/com/example/ocrserver/ocr/OcrEngine.kt:112-127 | blocks and their lines keep their order, texts and boxes |
| Engine.RecognizeWithMlKit | app/src/main/java/com/example/ocrserver/ocr/OcrEngine.kt:49-72 | it fails iff the recogniser fails, with the prefixed message; the text is ML Kit's and the time is the elapsed one; empty text gives language `unknown` and no blocks, confidence 0; otherwise one block per ML Kit block, confidence 1 iff some line has an element, and never `und` |
| Engine.TesseractRun | app/src/main/java/com/example/ocrserver/ocr/OcrEngine.kt:139-162 | it fails iff Tesseract fails, with both prefixes; the text is Tesseract's with surrounding whitespace removed (empty when it has none), the confidence times 100 is the mean confidence, the language is the requested code and there are no blocks |
| Engine.RecognizeFailuresArePrefixed | app/src/main/java/com/example/ocrserver/ocr/OcrEngine.kt:73-76 | every failure of `recognizeText` starts with `"Failed to recognize text: "` |
| Engine.TesseractPathIgnoresMlKit | app/src/main/java/com/example/ocrserver/ocr/OcrEngine.kt:45-47 | ENGLISH and RUSSIAN never reach ML Kit: the outcome depends only on Tesseract |
| Engine.HandleIsSticky | app/src/main/java/com/example/ocrserver/ocr/OcrEngine.kt:41-47 | ML Kit languages never touch the Tesseract handle, and an initialised handle is never dropped by recognition |
| Engine.InitialisedHandleIsReused | app/src/main/java/com/example/ocrserver/ocr/OcrEngine.kt:139-157 | once initialised, the handle is reused for any language; the result has the trimmed text, confidence / 100, the requested code and no blocks |
| Engine.FirstTesseractCallInitialises | app/src/main/java/com/example/ocrserver/ocr/OcrEngine.kt:141-143 | the first Tesseract call initialises for the requested language; a failed initialisation leaves the engine uninitialised |
| Engine.EmptyTextGivesEmptyResult | app/src/main/java/com/example/ocrserver/ocr/OcrEngine.kt:53-56 | an empty ML Kit text gives the empty result |
| Engine.OcrEngine.constructor | app/src/main/java/com/example/ocrserver/ocr/OcrEngine.kt:32-33 | a new engine holds no Tesseract handle |
| Engine.OcrEngine.InitTesseract | app/src/main/java/com/example/ocrserver/ocr/OcrEngine.kt:164-190 | success sets the handle and the flag; failure changes nothing and reports `"Tesseract initialization failed: "` + message |
| Engine.OcrEngine.CalculateAverageConfidence | app/src/main/java/com/example/ocrserver/ocr/OcrEngine.kt:93-110 | the triple loop yields `AverageConfidence`: 1 with any element, else 0 |
| Engine.OcrEngine.RecognizeText | app/src/main/java/com/example/ocrserver/ocr/OcrEngine.kt:41-77 | the new handle and the result are those of `RecognizeSpec` on the old handle |
| Engine.OcrEngine.Close | app/src/main/java/com/example/ocrserver/ocr/OcrEngine.kt:202-216 | a clean close clears the handle and the flag; a throwing close leaves both |
| Engine.CloseThenRecognize | app/src/main/java/com/example/ocrserver/ocr/OcrEngine.kt:202-216 | after a clean close a Tesseract request initialises for its own language |
| ResultJson.BlocksJson | app/src/main/java/com/example/ocrserver/server/OcrHttpServer.kt:165-180 | one entry per block, in order, with its text and its box exactly when it has one |
| ResultJson.RecognitionToJson | app/src/main/java/com/example/ocrserver/server/OcrHttpServer.kt:159-180 | the result object carries the result's text, confidence, language, time and blocks array |
| ResultJson.BuildBlocksArray | app/src/main/java/com/example/ocrserver/server/OcrHttpServer.kt:165-180 | the loop builds exactly `BlocksJson` of the blocks |
| ResultJson.BuildResultJson | app/src/main/java/com/example/ocrserver/server/OcrHttpServer.kt:159-180 | the object built field by field is `RecognitionToJson` of the result |
| ResultJson.BlocksJsonFollowsVision | app/src/main/java/com/example/ocrserver/server/OcrHttpServer.kt:165-180 | for an ML Kit result, entries follow ML Kit's blocks in order, with a box exactly when ML Kit gave one, with the same edges |
| HttpServer.RouteOf | app/src/main/java/com/example/ocrserver/server/OcrHttpServer.kt:43-48 | exactly `GET /status`, `POST /ocr` and `GET /health` are routed, case-sensitively |
| HttpServer.ErrorResponse | app/src/main/java/com/example/ocrserver/server/OcrHttpServer.kt:203-210 | the given status with the `{success: false, error}` body |
| HttpServer.UnauthorizedHttpResponse | app/src/main/java/com/example/ocrserver/server/OcrHttpServer.kt:212-224 | 401 with the gate's fixed message |
| HttpServer.StatusResponse | app/src/main/java/com/example/ocrserver/server/OcrHttpServer.kt:60-80 | 401 iff the gate is enabled with a token (it is asked about an empty header map); otherwise 200 `running` |
| HttpServer.BodyLength | app/src/main/java/com/example/ocrserver/server/OcrHttpServer.kt:126 | the parsed `content-length`, 0 when it is missing or does not parse |
| HttpServer.ProcessOcrSpec | app/src/main/java/com/example/ocrserver/server/OcrHttpServer.kt:146-201 | the response is 200 with the result or 500 with an error envelope, for a failed resize as well as a failed recognition |
| HttpServer.OcrRequestSpec | app/src/main/java/com/example/ocrserver/server/OcrHttpServer.kt:95-113 | every response of the handler has one of the five codes and an error envelope exactly when it is not 200 |
| HttpServer.Answer | app/src/main/java/com/example/ocrserver/server/OcrHttpServer.kt:49-52 | an escaped exception becomes 500 `"Internal server error: "` + message; a response passes through |
| HttpServer.ClientIp | app/src/main/java/com/example/ocrserver/server/OcrHttpServer.kt:38 | the remote address, or `unknown` |
| HttpServer.Int32Increment | app/src/main/java/com/example/ocrserver/server/OcrHttpServer.kt:227 | `requestCount++` on an `Int`: one more, wrapping from the largest value to the smallest |
| HttpServer.ServeResponses | app/src/main/java/com/example/ocrserver/server/OcrHttpServer.kt:34-58 | every response of `serve` has one of five codes and an error envelope exactly when it is not 200 |
| HttpServer.OnlyOcrTouchesEngine | app/src/main/java/com/example/ocrserver/server/OcrHttpServer.kt:43-48 | only `POST /ocr` can change the engine's handle |
| HttpServer.UnroutedIsNotFound | app/src/main/java/com/example/ocrserver/server/OcrHttpServer.kt:42-52 | every other pair is answered 404 `"Endpoint not found"` |
| HttpServer.StatusIgnoresHeaders | app/src/main/java/com/example/ocrserver/server/OcrHttpServer.kt:60-65 | `GET /status` is 401 iff the gate is enabled with a token, whatever headers the request carried |
| HttpServer.OcrAuthComesFirst | app/src/main/java/com/example/ocrserver/server/OcrHttpServer.kt:96-98 | a rejected `POST /ocr` is 401 whatever its body, and the engine is not touched |
| HttpServer.ParseFailureIsBadRequest | app/src/main/java/com/example/ocrserver/server/OcrHttpServer.kt:100-107 | a body parse failure is 400 `"Failed to parse request body"` |
| HttpServer.MissingImageIsBadRequest | app/src/main/java/com/example/ocrserver/server/OcrHttpServer.kt:109-110 | no image found is 400 `"No valid image provided"` |
| HttpServer.ExtractImage | app/src/main/java/com/example/ocrserver/server/OcrHttpServer.kt:115-144 | it fails iff the upload cannot be read, or, with no upload, a JSON request has a negative length; an image found is the decoded upload or, with no upload, the base64-decoded `image` field of a JSON body |
| HttpServer.MultipartIsFinal | app/src/main/java/com/example/ocrserver/server/OcrHttpServer.kt:116-121 | a multipart `image` upload decides the outcome; JSON is not tried |
| HttpServer.JsonNeedsContentType | app/src/main/java/com/example/ocrserver/server/OcrHttpServer.kt:124-143 | without an upload, the JSON `image` is used only when the content type contains `application/json` |
| HttpServer.NegativeLengthIsInternalError | app/src/main/java/com/example/ocrserver/server/OcrHttpServer.kt:126-127 | a negative `content-length` on a JSON request escapes the extractor and is answered 500 |
| HttpServer.RecognitionFailureIsInternalError | app/src/main/java/com/example/ocrserver/server/OcrHttpServer.kt:146-201 | a failed resize is 500 `"OCR processing failed: "` plus its message, with the engine untouched; a recognition failure is 500 `"OCR processing failed: Failed to recognize text: ..."`; a success is 200 with the result object |
| HttpServer.ThinImageIsInternalError | app/src/main/java/com/example/ocrserver/server/OcrHttpServer.kt:146-201 | a 5000x1 image is answered 500 with the resize's message, and the engine is not used |
| HttpServer.OcrHttpServer.constructor | app/src/main/java/com/example/ocrserver/server/OcrHttpServer.kt:18-27 | a new server has a fresh engine, an empty log and a zero counter |
| HttpServer.OcrHttpServer.ProcessOcr | app/src/main/java/com/example/ocrserver/server/OcrHttpServer.kt:146-201 | the engine's new handle and the response follow `ProcessOcrSpec` |
| HttpServer.OcrHttpServer.HandleOcrRequest | app/src/main/java/com/example/ocrserver/server/OcrHttpServer.kt:95-113 | the engine's new handle and the outcome follow `OcrRequestSpec` |
| HttpServer.OcrHttpServer.LogRequest | app/src/main/java/com/example/ocrserver/server/OcrHttpServer.kt:226-244 | the counter goes up by one as an `Int`, and the entry (response size 0) is appended with the oldest evicted past 100 |
| HttpServer.OcrHttpServer.Serve | app/src/main/java/com/example/ocrserver/server/OcrHttpServer.kt:34-58 | the response follows `ServeSpec`; exactly one entry with the final status is logged and the counter goes up by one |
| HttpServer.OcrHttpServer.GetRequestLogs | app/src/main/java/com/example/ocrserver/server/OcrHttpServer.kt:246-248 | returns the current log |
| HttpServer.OcrHttpServer.ClearLogs | app/src/main/java/com/example/ocrserver/server/OcrHttpServer.kt:250-252 | the log is emptied and the counter is kept |
| HttpServer.OcrHttpServer.Stop | app/src/main/java/com/example/ocrserver/server/OcrHttpServer.kt:254-258 | on a clean close the engine loses its handle and flag; a close that throws leaves both as they were |
| HttpServer.CopyIsDetached | app/src/main/java/com/example/ocrserver/server/OcrHttpServer.kt:246-248 | a copy taken before a request is not changed by it; the log becomes the copy plus the new entry |
| WebSocketServer.MessageType | app/src/main/java/com/example/ocrserver/server/OcrWebSocketServer.kt:59 | `type` defaults to `ocr` |
| WebSocketServer.TokenOf | app/src/main/java/com/example/ocrserver/server/OcrWebSocketServer.kt:85 | `token` defaults to the empty string |
| WebSocketServer.AuthFrames | app/src/main/java/com/example/ocrserver/server/OcrWebSocketServer.kt:84-95 | an `auth` message is answered with exactly one frame |
| WebSocketServer.MissingTypeIsOcr | app/src/main/java/com/example/ocrserver/server/OcrWebSocketServer.kt:59-64 | a message without `type` is handled as an OCR request |
| WebSocketServer.OtherMessagesGetOneError | app/src/main/java/com/example/ocrserver/server/OcrWebSocketServer.kt:57-70 | an unknown type gets one `"Unknown message type: X"` error; unparseable text one `"Invalid message format: ..."` error |
| WebSocketServer.PingGetsOnePong | app/src/main/java/com/example/ocrserver/server/OcrWebSocketServer.kt:97-103 | a `ping` gets exactly one `pong` |
| WebSocketServer.AuthMessageDecision | app/src/main/java/com/example/ocrserver/server/OcrWebSocketServer.kt:84-95 | accepted iff the gate is off, has no token, or the sent token trims to it; one frame either way, engine untouched |
| WebSocketServer.OcrFrameSequence | app/src/main/java/com/example/ocrserver/server/OcrWebSocketServer.kt:105-180 | no `image` gives one error, an undecodable image another; otherwise `processing`, then either the failed resize's error with the engine untouched, or `progress` 50 and one result or error |
| WebSocketServer.ThinImageGetsNoProgress | app/src/main/java/com/example/ocrserver/server/OcrWebSocketServer.kt:124-178 | a 5000x1 image gets `processing` and the resize's error, and no progress frame |
| WebSocketServer.OcrIgnoresAuth | app/src/main/java/com/example/ocrserver/server/OcrWebSocketServer.kt:54-71 | OCR over the socket does not depend on the authentication configuration |
| WebSocketServer.Delivered | app/src/main/java/com/example/ocrserver/server/OcrWebSocketServer.kt:191-199 | everything reaches an open connection whose sends succeed; nothing reaches any other |
| WebSocketServer.AddedCount | app/src/main/java/com/example/ocrserver/server/OcrWebSocketServer.kt:36-38 | adding a connection grows the set by one iff it was not a member |
| WebSocketServer.RemovedCount | app/src/main/java/com/example/ocrserver/server/OcrWebSocketServer.kt:46-48 | removing a connection shrinks the set by one iff it was a member |
| WebSocketServer.OcrWebSocketServer.constructor | app/src/main/java/com/example/ocrserver/server/OcrWebSocketServer.kt:19-27 | a new hub has a fresh engine and no connections |
| WebSocketServer.OcrWebSocketServer.SendMessage | app/src/main/java/com/example/ocrserver/server/OcrWebSocketServer.kt:191-199 | the frame is appended only on an open connection whose send succeeds; the failure is swallowed |
| WebSocketServer.OcrWebSocketServer.OnOpen | app/src/main/java/com/example/ocrserver/server/OcrWebSocketServer.kt:36-44 | the connection joins the set, is sent `connected`, and the reported count is the new size |
| WebSocketServer.OcrWebSocketServer.OnClose | app/src/main/java/com/example/ocrserver/server/OcrWebSocketServer.kt:46-52 | the connection leaves the set and the reported count is the new size, unchanged for a non-member |
| WebSocketServer.OcrWebSocketServer.SendError | app/src/main/java/com/example/ocrserver/server/OcrWebSocketServer.kt:201-208 | one `error` frame through `SendMessage` |
| WebSocketServer.OcrWebSocketServer.ProcessOcr | app/src/main/java/com/example/ocrserver/server/OcrWebSocketServer.kt:126-180 | the frames delivered and the engine's new handle follow `ProcessFrames`: only the error when the resize throws, else `progress` 50 then the result or `"OCR processing failed: "` error |
| WebSocketServer.OcrWebSocketServer.HandleOcrMessage | app/src/main/java/com/example/ocrserver/server/OcrWebSocketServer.kt:105-124 | the frames delivered and the engine's new handle follow `OcrFrames` |
| WebSocketServer.OcrWebSocketServer.OnMessage | app/src/main/java/com/example/ocrserver/server/OcrWebSocketServer.kt:54-71 | the frames delivered and the engine's new handle follow `MessageSpec`; the set is not touched |
| WebSocketServer.OcrWebSocketServer.OnError | app/src/main/java/com/example/ocrserver/server/OcrWebSocketServer.kt:73-78 | a named connection gets one `"Server error: "` frame through `SendMessage`, so a closed connection gets nothing; whether it is open and whether its sends fail are unchanged |
| WebSocketServer.OcrWebSocketServer.GetActiveConnectionsCount | app/src/main/java/com/example/ocrserver/server/OcrWebSocketServer.kt:210-212 | the size of the set |
| WebSocketServer.OcrWebSocketServer.BroadcastMessage | app/src/main/java/com/example/ocrserver/server/OcrWebSocketServer.kt:214-226 | every open connection listed gets one `broadcast` frame; the others are unchanged |
| WebSocketServer.OcrWebSocketServer.Stop | app/src/main/java/com/example/ocrserver/server/OcrWebSocketServer.kt:228-233 | the set is emptied; on a clean close the engine loses its handle and flag, and a close that throws leaves both as they were |
| NetworkUtils.FirstAddress | app/src/main/java/com/example/ocrserver/utils/NetworkUtils.kt:25-33 | the first usable address at or after a position, and none before it |
| NetworkUtils.FirstCandidate | app/src/main/java/com/example/ocrserver/utils/NetworkUtils.kt:19-34 | the first usable address of a usable interface, in loop order, with no candidate before it |
| NetworkUtils.LocalIpAddress | app/src/main/java/com/example/ocrserver/utils/NetworkUtils.kt:16-39 | `null` when enumeration throws; otherwise `null` iff no interface has a candidate address |
| NetworkUtils.LocalIpIsFirstCandidate | app/src/main/java/com/example/ocrserver/utils/NetworkUtils.kt:18-33 | the chosen address is a candidate's and no candidate comes before it |
| NetworkUtils.UnusableInterfaceIsIgnored | app/src/main/java/com/example/ocrserver/utils/NetworkUtils.kt:20-22 | replacing a down or loopback interface by another such interface does not change the selection |
| NetworkUtils.UnusableInterfaceChoice | app/src/main/java/com/example/ocrserver/utils/NetworkUtils.kt:20-22 | a down or loopback interface contributes nothing, whatever addresses it holds |
| NetworkUtils.GetLocalIpAddress | app/src/main/java/com/example/ocrserver/utils/NetworkUtils.kt:16-39 | the nested loops return exactly `LocalIpAddress` |
| NetworkUtils.ServerAddress | app/src/main/java/com/example/ocrserver/utils/NetworkUtils.kt:41-48 | the sentinel `"No network connection"` iff there is no address |
| NetworkUtils.WebSocketAddress | app/src/main/java/com/example/ocrserver/utils/NetworkUtils.kt:50-57 | the sentinel iff there is no address |
| NetworkUtils.ServerAddressReadsBack | app/src/main/java/com/example/ocrserver/utils/NetworkUtils.kt:44 | the URL reads back as `http://`, the address, `:` and a decimal that parses to the port |
| NetworkUtils.WebSocketAddressReadsBack | app/src/main/java/com/example/ocrserver/utils/NetworkUtils.kt:53 | the URL reads back as `ws://`, the address, `:`, the port and `/ws` |
| NetworkUtils.GetServerAddress | app/src/main/java/com/example/ocrserver/utils/NetworkUtils.kt:41-48 | returns `ServerAddress` of the selected address |
| NetworkUtils.GetWebSocketAddress | app/src/main/java/com/example/ocrserver/utils/NetworkUtils.kt:50-57 | returns `WebSocketAddress` of the selected address |
| ServerService.IntExtra | app/src/main/java/com/example/ocrserver/service/OcrServerService.kt:70-71 | the extra when present, else the default |
| ServerService.FirstIndex | app/src/main/java/com/example/ocrserver/service/OcrServerService.kt:160 | the first index holding the listener |
| ServerService.RemoveFirst | app/src/main/java/com/example/ocrserver/service/OcrServerService.kt:159-161 | `remove` drops the first occurrence and keeps everything else in order; an absent listener changes nothing |
| ServerService.RemoveFirstCount | app/src/main/java/com/example/ocrserver/service/OcrServerService.kt:159-161 | removing takes away exactly one copy of the listener |
| ServerService.CallsInOrder | app/src/main/java/com/example/ocrserver/service/OcrServerService.kt:171-179 | each registered listener is called once, in registration order, with the argument |
| ServerService.AddThenRemoveRestores | app/src/main/java/com/example/ocrserver/service/OcrServerService.kt:155-169 | adding then removing a listener restores the registrations as a multiset, and restores their order only when the listener was not already registered; otherwise the earlier copy goes and the new one stays last |
| ServerService.OcrServerService.constructor | app/src/main/java/com/example/ocrserver/service/OcrServerService.kt:26-36 | no servers, not running, ports 8080 and 8081, no listeners |
| ServerService.OcrServerService.StartServer | app/src/main/java/com/example/ocrserver/service/OcrServerService.kt:82-115 | nothing happens while running; the ports are stored first; it runs iff every step succeeds; an HTTP server that started is kept when the WebSocket start fails; each new server has its port, an empty log and zero counter or an empty connection set, and a fresh engine without a Tesseract handle |
| ServerService.OcrServerService.StopServer | app/src/main/java/com/example/ocrserver/service/OcrServerService.kt:117-135 | nothing changes when not running. Otherwise the HTTP server is stopped, which closes its engine, and dropped; then the WebSocket server is stopped, which empties its set and closes its engine, and dropped. Each engine's close succeeds or throws on its own. A throwing HTTP stop leaves both servers and engines as they were, and a throwing stop leaves running true. The ports and the listener lists are kept |
| ServerService.OcrServerService.OnStartCommand | app/src/main/java/com/example/ocrserver/service/OcrServerService.kt:67-80 | START has every effect of `StartServer` for the port extras (8080/8081 by default). While running nothing changes. Otherwise the ports are stored, each server is kept only once it has started, with its port, an empty log, a zero counter, an empty set and an engine without a Tesseract handle, and the service runs iff every step succeeds; the old server objects are untouched. STOP has every effect of `StopServer`. Anything else changes neither the service nor the old server objects. The answer is always START_STICKY |
| ServerService.OcrServerService.IsRunning | app/src/main/java/com/example/ocrserver/service/OcrServerService.kt:137 | the running flag |
| ServerService.OcrServerService.GetServerAddress | app/src/main/java/com/example/ocrserver/service/OcrServerService.kt:139 | the HTTP URL for the stored HTTP port |
| ServerService.OcrServerService.GetWebSocketAddress | app/src/main/java/com/example/ocrserver/service/OcrServerService.kt:141 | the WebSocket URL for the stored WebSocket port |
| ServerService.OcrServerService.GetActiveWebSocketConnections | app/src/main/java/com/example/ocrserver/service/OcrServerService.kt:143-145 | the hub's count, 0 without a hub |
| ServerService.OcrServerService.GetRequestLogs | app/src/main/java/com/example/ocrserver/service/OcrServerService.kt:147-149 | the HTTP server's log, empty without a server |
| ServerService.OcrServerService.ClearRequestLogs | app/src/main/java/com/example/ocrserver/service/OcrServerService.kt:151-153 | clears the log of a present HTTP server and keeps its counter |
| ServerService.OcrServerService.AddRequestLogListener | app/src/main/java/com/example/ocrserver/service/OcrServerService.kt:155-157 | appends the listener, duplicates allowed |
| ServerService.OcrServerService.RemoveRequestLogListener | app/src/main/java/com/example/ocrserver/service/OcrServerService.kt:159-161 | removes the first occurrence |
| ServerService.OcrServerService.AddConnectionChangeListener | app/src/main/java/com/example/ocrserver/service/OcrServerService.kt:163-165 | appends the listener, duplicates allowed |
| ServerService.OcrServerService.RemoveConnectionChangeListener | app/src/main/java/com/example/ocrserver/service/OcrServerService.kt:167-169 | removes the first occurrence |
| ServerService.OcrServerService.NotifyRequestLogged | app/src/main/java/com/example/ocrserver/service/OcrServerService.kt:171-174 | the loop calls every request-log listener once, in order |
| ServerService.OcrServerService.NotifyConnectionChange | app/src/main/java/com/example/ocrserver/service/OcrServerService.kt:176-179 | the loop calls every connection listener once, in order |
| ServerService.OcrServerService.OnDestroy | app/src/main/java/com/example/ocrserver/service/OcrServerService.kt:266-273 | has every effect of `StopServer` on the flag, the ports, the servers and their engines, then clears both listener lists |
| ServerService.FailedStartLeavesHttpServer | app/src/main/java/com/example/ocrserver/service/OcrServerService.kt:91-134 | after a failed WebSocket start the started HTTP server stays assigned, and a later stop does not reach it |

## Left out

- Concurrency: NanoHTTPD's thread per connection, the coroutine that runs WebSocket recognition, and the unsynchronised shared log and connection set. Each event handler is one atomic step, and a WebSocket OCR request runs to completion within its `onMessage`.
- WebSocketServer.OcrWebSocketServer.OnMessage: it does not model a connection that closes between the immediate frames and the recognition.
- Text formats: `org.json` parsing and serialisation, JSON text, and the HTTP library's framing. Messages arrive parsed into string fields and responses are records.
- Text.ParseIntOrNull: it accepts only ASCII digits. Kotlin also accepts the other Unicode decimal digits.
- HttpServer.ExtractImage: it takes the multipart body parser's effect on the input stream as given. `readJson` is whatever the stream yields after `parseBody`, so whether the JSON body is still readable is not decided here.
- HttpServer.NegativeLengthIsInternalError: the message of the exception a negative array size throws is taken to be the decimal of the size.
- Engine.RecognizeSpec: `confidence` is an exact real, and Tesseract's mean confidence divided by 100 is not rounded to a `Float`.
- ImageUtils.TargetSize: the resize scale is computed in exact rational arithmetic. With the source's `Float` scale and `toInt()` truncation the shorter side can differ by one pixel either way, and the longer side can lose one. For 10239x10234 the `Float` product gives 2047 on the shorter side, where the exact one gives 2046.
- RequestLogs.FormattedTimestamp: the default time zone enters as the offset at that instant, and the locale is assumed to use ASCII digits.
- Wall-clock times (`System.currentTimeMillis`, uptime, processing times) are parameters (the `Clock` record, `now`, `elapsed`). `Long` fields are unbounded integers.
- Foreign calls: ML Kit recognition and language identification, Tesseract (its `init` return value is not checked by the source), `BitmapFactory`, `Base64`, `createScaledBitmap`, bitmap recycling, temporary-file reads and network-interface enumeration.
- NetworkUtils.LocalIpAddress: the interface enumeration is one value, and a `Failure` stands for an exception anywhere in the loops.
- `bitmapToBase64` in `ImageUtils.kt` is a compression call that the serving layer never uses.
- Android mechanics: notifications and `updateNotification`, the wake lock, `startForeground`'s effect (only whether it throws is modelled), `stopSelf`, binding, and `isNetworkAvailable`/`isWifiConnected`.
- The UI (`MainActivity.kt`, `RequestLogAdapter.kt`), the test clients and the build script are not part of this model.
- ServerService.OcrServerService.StartServer: the listener lambdas that the service hands to the two servers are not wired to the servers' callbacks. `Serve` returns the logged entry and `OnOpen`/`OnClose` return the count, and `NotifyRequestLogged`/`NotifyConnectionChange` take those values.
- ImageUtils.ResizeBitmapIfNeeded: the message of the exception for a zero-sized target is taken to be Android's `"width and height must be > 0"`. The library's own code is not part of this model. The bound of 2048 per side holds only when the library's `createScaledBitmap` returns the size it is asked for (`ImageUtils.ScalesToRequestedSize`).
- ServerService.OcrServerService.StopServer: a throwing HTTP stop is modelled as throwing before its engine is closed. A throwing WebSocket stop is modelled as throwing after its set is cleared and its engine closed, which is where the library call sits in each `stop`.
