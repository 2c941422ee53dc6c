/**
 * The HTTP front (`OcrHttpServer.kt`): routing on exact `(uri, method)` pairs, the three
 * handlers, the order in which the image is looked for, the JSON envelopes with their status
 * codes, and the bounded request log with its counter. The HTTP library's session, the body
 * parser, file reads and JSON parsing enter the model as the fields of a `Session`.
 */
module HttpServer {
  import opened Wrappers
  import opened Text
  import opened Auth
  import opened Languages
  import opened LanguageManager
  import opened OcrResults
  import opened ImageUtils
  import opened Engine
  import opened RequestLogs
  import opened ResultJson

  const StatusOk: int := 200
  const StatusBadRequest: int := 400
  const StatusUnauthorized: int := 401
  const StatusNotFound: int := 404
  const StatusInternalError: int := 500

  const NotFoundMessage: string := "Endpoint not found"
  const ParseFailedMessage: string := "Failed to parse request body"
  const NoImageMessage: string := "No valid image provided"
  const InternalErrorPrefix: string := "Internal server error: "
  const OcrFailedPrefix: string := "OCR processing failed: "
  const EngineName: string := "Google ML Kit"
  const UnknownClient: string := "unknown"
  const DefaultHttpPort: int := 8080

  const ImageField: string := "image"
  const ContentTypeHeader: string := "content-type"
  const ContentLengthHeader: string := "content-length"
  const JsonMediaType: string := "application/json"

  /** The JSON bodies the server writes. */
  datatype Body =
    | ErrorBody(error: string)  // `{success: false, error}`
    | RunningBody(uptime: int, requestCount: int, port: int, ocrEngine: string)  // `{status: "running", ...}`
    | HealthyBody(timestamp: int)  // `{status: "healthy", timestamp}`
    | RecognizedBody(result: RecognitionJson)  // `{success: true, ...}`

  /** A fixed-length `application/json` response. */
  datatype Response = Response(status: int, body: Body)

  /**
   * One request as the handlers see it. `parsedFiles` is what `parseBody` leaves in the files map
   * (a `Failure` when it throws); `readFile` reads a temporary upload; `readJson(n)` reads `n` body
   * bytes and parses them as a JSON object, whose fields it gives as the strings `getString`
   * returns, `None` when reading or parsing throws.
   */
  datatype Session = Session(
    httpMethod: string,
    uri: string,
    remoteIpAddress: Option<string>,
    headers: map<string, string>,
    parsedFiles: Result<map<string, string>>,
    readFile: string -> Result<seq<byte>>,
    readJson: int -> Option<map<string, string>>)

  /**
   * The clock readings of one `serve` call: on entry, inside the status or health handler, the
   * engine's own processing time, on exit, and when the log entry is constructed.
   */
  datatype Clock = Clock(start: int, handler: int, recognition: int, end: int, logged: int)

  /** A response `serve` can give: one of five codes, and an error envelope exactly when it is not 200. */
  predicate ProperResponse(r: Response) {
    && (r.status == StatusOk || r.status == StatusBadRequest || r.status == StatusUnauthorized
        || r.status == StatusNotFound || r.status == StatusInternalError)
    && (r.status == StatusOk <==> !r.body.ErrorBody?)
  }

  datatype Route = StatusRoute | OcrRoute | HealthRoute | NoRoute

  /** The `when` in `serve`: exact, case-sensitive `(uri, method)` pairs. */
  function RouteOf(uri: string, httpMethod: string): (r: Route)
    ensures r == StatusRoute <==> uri == "/status" && httpMethod == "GET"
    ensures r == OcrRoute <==> uri == "/ocr" && httpMethod == "POST"
    ensures r == HealthRoute <==> uri == "/health" && httpMethod == "GET"
  {
    if uri == "/status" && httpMethod == "GET" then StatusRoute
    else if uri == "/ocr" && httpMethod == "POST" then OcrRoute
    else if uri == "/health" && httpMethod == "GET" then HealthRoute
    else NoRoute
  }

  /** `createErrorResponse`. */
  function ErrorResponse(status: int, message: string): (r: Response)
    ensures r.status == status && r.body == ErrorBody(message)
  {
    Response(status, ErrorBody(message))
  }

  /** `createUnauthorizedResponse`: 401 with the gate's fixed message. */
  function UnauthorizedHttpResponse(): (r: Response)
    ensures r.status == StatusUnauthorized && r.body == ErrorBody(UnauthorizedMessage)
  {
    Response(StatusUnauthorized, ErrorBody(UnauthorizedResponse().message))
  }

  /** `handleStatus`: the gate is asked about an empty header map, whatever the request carried. */
  function StatusResponse(cfg: AuthConfig, uptime: int, requestCount: int, port: int): (r: Response)
    ensures r.status == StatusUnauthorized <==> cfg.enabled && cfg.token.Some?
    ensures r.status != StatusUnauthorized ==> r == Response(StatusOk, RunningBody(uptime, requestCount, port, EngineName))
  {
    if !IsAuthenticated(cfg, map[]) then UnauthorizedHttpResponse()
    else Response(StatusOk, RunningBody(uptime, requestCount, port, EngineName))
  }

  /** `session.headers["content-length"]?.toIntOrNull() ?: 0`. */
  function BodyLength(headers: map<string, string>): (r: int)
    ensures ContentLengthHeader !in headers ==> r == 0
    ensures ContentLengthHeader in headers && ParseIntOrNull(headers[ContentLengthHeader]).Some? ==>
              r == ParseIntOrNull(headers[ContentLengthHeader]).value
    ensures ContentLengthHeader in headers && ParseIntOrNull(headers[ContentLengthHeader]).None? ==> r == 0
  {
    if ContentLengthHeader in headers then ParseIntOrNull(headers[ContentLengthHeader]).GetOr(0) else 0
  }

  /** `session.headers["content-type"] ?: ""`. */
  function ContentType(headers: map<string, string>): string {
    if ContentTypeHeader in headers then headers[ContentTypeHeader] else ""
  }

  /**
   * `extractImageFromRequest`: `Success(None)` is the `null` it returns, `Failure(m)` an exception
   * it lets escape. A multipart `image` upload is read and decoded and its outcome is final. Else
   * the JSON body is tried, only when the content type mentions `application/json`; a negative
   * length is refused by the array allocation before the guarded block, and any exception inside
   * that block gives `null`.
   */
  function ExtractImage(session: Session, files: map<string, string>, dec: Decoders): (r: Result<Option<Bitmap>>)
    ensures r.Failure? <==>
              if ImageField in files then session.readFile(files[ImageField]).Failure?
              else Contains(ContentType(session.headers), JsonMediaType) && BodyLength(session.headers) < 0
    ensures r.Success? && r.value.Some? ==>
              if ImageField in files then
                session.readFile(files[ImageField]).Success? && dec.bitmap(session.readFile(files[ImageField]).value) == r.value
              else
                var json := session.readJson(BodyLength(session.headers));
                && Contains(ContentType(session.headers), JsonMediaType) && BodyLength(session.headers) >= 0
                && json.Some? && ImageField in json.value
                && dec.base64(StripDataUris(json.value[ImageField])).Some?
                && Base64ToBitmap(json.value[ImageField], dec) == r.value
  {
    if ImageField in files then
      match session.readFile(files[ImageField])
      case Failure(m) => Failure(m)
      case Success(bytes) => Success(ByteArrayToBitmap(bytes, dec))
    else if !Contains(ContentType(session.headers), JsonMediaType) then Success(None)
    else
      var length := BodyLength(session.headers);
      if length < 0 then Failure(IntToString(length))
      else
        match session.readJson(length)
        case None => Success(None)
        case Some(json) => if ImageField in json then Success(Base64ToBitmap(json[ImageField], dec)) else Success(None)
  }

  /**
   * `processOcrAsync` as a function of the engine's Tesseract handle: resize, recognise with the
   * current language, and answer 200 with the result or 500 with the message of the resize's or
   * the engine's exception.
   */
  function ProcessOcrSpec(handle: Option<string>, bitmap: Bitmap, language: OcrLanguage, backend: Backend,
                          dec: Decoders, elapsed: int): (r: (Option<string>, Response))
    ensures ProperResponse(r.1) && (r.1.status == StatusOk || r.1.status == StatusInternalError)
  {
    match ResizeBitmapIfNeeded(bitmap, dec)
    case Failure(m) => (handle, ErrorResponse(StatusInternalError, OcrFailedPrefix + m))
    case Success(resized) =>
      var (next, recognized) := RecognizeSpec(handle, resized, language, backend, elapsed);
      match recognized
      case Failure(m) => (next, ErrorResponse(StatusInternalError, OcrFailedPrefix + m))
      case Success(result) => (next, Response(StatusOk, RecognizedBody(RecognitionToJson(result))))
  }

  /** `handleOcrRequest`: the gate, then the body parser, then the image, then recognition. */
  function OcrRequestSpec(handle: Option<string>, cfg: AuthConfig, language: OcrLanguage, session: Session,
                          backend: Backend, dec: Decoders, elapsed: int): (r: (Option<string>, Result<Response>))
    ensures r.1.Success? ==> ProperResponse(r.1.value)
  {
    if !IsAuthenticated(cfg, session.headers) then (handle, Success(UnauthorizedHttpResponse()))
    else
      match session.parsedFiles
      case Failure(_) => (handle, Success(ErrorResponse(StatusBadRequest, ParseFailedMessage)))
      case Success(files) =>
        match ExtractImage(session, files, dec)
        case Failure(m) => (handle, Failure(m))
        case Success(None) => (handle, Success(ErrorResponse(StatusBadRequest, NoImageMessage)))
        case Success(Some(bitmap)) =>
          var (next, response) := ProcessOcrSpec(handle, bitmap, language, backend, dec, elapsed);
          (next, Success(response))
  }

  /** The response `serve` answers a handler outcome with: an escaped exception becomes a 500. */
  function Answer(outcome: Result<Response>): (r: Response)
    ensures outcome.Success? ==> r == outcome.value
    ensures outcome.Failure? ==> r == ErrorResponse(StatusInternalError, InternalErrorPrefix + outcome.error)
  {
    match outcome
    case Success(response) => response
    case Failure(m) => ErrorResponse(StatusInternalError, InternalErrorPrefix + m)
  }

  /**
   * `serve` as a function of the engine's Tesseract handle, the gate's configuration, the current
   * language, the counter before the call, the port, the start time and the clock: the new handle
   * and the response.
   */
  function ServeSpec(handle: Option<string>, cfg: AuthConfig, language: OcrLanguage, requestCount: int, port: int,
                     serverStartTime: int, session: Session, backend: Backend, dec: Decoders, clock: Clock)
    : (r: (Option<string>, Response))
  {
    match RouteOf(session.uri, session.httpMethod)
    case StatusRoute => (handle, StatusResponse(cfg, clock.handler - serverStartTime, requestCount, port))
    case OcrRoute =>
      var (next, outcome) := OcrRequestSpec(handle, cfg, language, session, backend, dec, clock.recognition);
      (next, Answer(outcome))
    case HealthRoute => (handle, Response(StatusOk, HealthyBody(clock.handler)))
    case NoRoute => (handle, ErrorResponse(StatusNotFound, NotFoundMessage))
  }

  /** `session.remoteIpAddress ?: "unknown"`. */
  function ClientIp(session: Session): (r: string)
    ensures session.remoteIpAddress.Some? ==> r == session.remoteIpAddress.value
    ensures session.remoteIpAddress.None? ==> r == UnknownClient
  {
    session.remoteIpAddress.GetOr(UnknownClient)
  }

  /** Kotlin's `Int` increment, which wraps from the largest value to the smallest. */
  function Int32Increment(n: int): (r: int)
    requires InInt32(n)
    ensures InInt32(r)
    ensures n < IntMax ==> r == n + 1
    ensures n == IntMax ==> r == IntMin
  {
    if n == IntMax then IntMin else n + 1
  }

  /** Every outcome of `serve` is one of five status codes, and every non-200 carries an error envelope. */
  lemma ServeResponses(handle: Option<string>, cfg: AuthConfig, language: OcrLanguage, requestCount: int, port: int,
                       serverStartTime: int, session: Session, backend: Backend, dec: Decoders, clock: Clock)
    ensures ProperResponse(ServeSpec(handle, cfg, language, requestCount, port, serverStartTime, session, backend, dec, clock).1)
  {
    if RouteOf(session.uri, session.httpMethod) == OcrRoute {
      var outcome := OcrRequestSpec(handle, cfg, language, session, backend, dec, clock.recognition).1;
      assert ProperResponse(Answer(outcome));
    }
  }

  /** Only `POST /ocr` can change the engine's handle. */
  lemma OnlyOcrTouchesEngine(handle: Option<string>, cfg: AuthConfig, language: OcrLanguage, requestCount: int, port: int,
                             serverStartTime: int, session: Session, backend: Backend, dec: Decoders, clock: Clock)
    requires RouteOf(session.uri, session.httpMethod) != OcrRoute
    ensures ServeSpec(handle, cfg, language, requestCount, port, serverStartTime, session, backend, dec, clock).0 == handle
  {
  }

  /** Every pair other than `GET /status`, `POST /ocr` and `GET /health` is answered 404 `"Endpoint not found"`. */
  lemma UnroutedIsNotFound(handle: Option<string>, cfg: AuthConfig, language: OcrLanguage, requestCount: int, port: int,
                           serverStartTime: int, session: Session, backend: Backend, dec: Decoders, clock: Clock)
    requires !(session.uri == "/status" && session.httpMethod == "GET")
    requires !(session.uri == "/ocr" && session.httpMethod == "POST")
    requires !(session.uri == "/health" && session.httpMethod == "GET")
    ensures ServeSpec(handle, cfg, language, requestCount, port, serverStartTime, session, backend, dec, clock) ==
              (handle, Response(StatusNotFound, ErrorBody(NotFoundMessage)))
  {
  }

  /**
   * `GET /status` ignores the request's headers: it is 401 exactly when the gate is enabled with a
   * token, even when the request carries that very token.
   */
  lemma StatusIgnoresHeaders(handle: Option<string>, cfg: AuthConfig, language: OcrLanguage, requestCount: int, port: int,
                             serverStartTime: int, session: Session, backend: Backend, dec: Decoders, clock: Clock)
    requires session.uri == "/status" && session.httpMethod == "GET"
    ensures var r := ServeSpec(handle, cfg, language, requestCount, port, serverStartTime, session, backend, dec, clock).1;
            && (r.status == StatusUnauthorized <==> cfg.enabled && cfg.token.Some?)
            && (r.status != StatusUnauthorized ==> r.body == RunningBody(clock.handler - serverStartTime, requestCount, port, EngineName))
  {
  }

  /** The gate on `POST /ocr` comes first: a rejected request is 401 whatever its body, and recognition is not reached. */
  lemma OcrAuthComesFirst(handle: Option<string>, cfg: AuthConfig, language: OcrLanguage, requestCount: int, port: int,
                          serverStartTime: int, session: Session, backend: Backend, dec: Decoders, clock: Clock)
    requires session.uri == "/ocr" && session.httpMethod == "POST"
    requires !IsAuthenticated(cfg, session.headers)
    ensures ServeSpec(handle, cfg, language, requestCount, port, serverStartTime, session, backend, dec, clock) ==
              (handle, Response(StatusUnauthorized, ErrorBody(UnauthorizedMessage)))
  {
  }

  /** An authenticated `POST /ocr` whose body cannot be parsed is 400 `"Failed to parse request body"`. */
  lemma ParseFailureIsBadRequest(handle: Option<string>, cfg: AuthConfig, language: OcrLanguage, requestCount: int, port: int,
                                 serverStartTime: int, session: Session, backend: Backend, dec: Decoders, clock: Clock)
    requires session.uri == "/ocr" && session.httpMethod == "POST"
    requires IsAuthenticated(cfg, session.headers) && session.parsedFiles.Failure?
    ensures ServeSpec(handle, cfg, language, requestCount, port, serverStartTime, session, backend, dec, clock) ==
              (handle, Response(StatusBadRequest, ErrorBody(ParseFailedMessage)))
  {
  }

  /** An authenticated, parsed `POST /ocr` in which no image is found is 400 `"No valid image provided"`. */
  lemma MissingImageIsBadRequest(handle: Option<string>, cfg: AuthConfig, language: OcrLanguage, requestCount: int, port: int,
                                 serverStartTime: int, session: Session, backend: Backend, dec: Decoders, clock: Clock)
    requires session.uri == "/ocr" && session.httpMethod == "POST"
    requires IsAuthenticated(cfg, session.headers) && session.parsedFiles.Success?
    requires ExtractImage(session, session.parsedFiles.value, dec) == Success(None)
    ensures ServeSpec(handle, cfg, language, requestCount, port, serverStartTime, session, backend, dec, clock) ==
              (handle, Response(StatusBadRequest, ErrorBody(NoImageMessage)))
  {
  }

  /**
   * A multipart `image` upload is final: its decode outcome does not depend on the headers or the
   * JSON body, and an undecodable upload is not retried as JSON.
   */
  lemma MultipartIsFinal(s1: Session, s2: Session, files: map<string, string>, dec: Decoders)
    requires ImageField in files && s1.readFile == s2.readFile
    ensures ExtractImage(s1, files, dec) == ExtractImage(s2, files, dec)
    ensures s1.readFile(files[ImageField]).Success? ==>
              ExtractImage(s1, files, dec) == Success(dec.bitmap(s1.readFile(files[ImageField]).value))
  {
  }

  /** Without an upload, the JSON body is read only when the content type contains `"application/json"`. */
  lemma JsonNeedsContentType(session: Session, files: map<string, string>, dec: Decoders)
    requires ImageField !in files
    ensures !Contains(ContentType(session.headers), JsonMediaType) ==> ExtractImage(session, files, dec) == Success(None)
    ensures Contains(ContentType(session.headers), JsonMediaType) && BodyLength(session.headers) >= 0 ==>
              var json := session.readJson(BodyLength(session.headers));
              ExtractImage(session, files, dec) ==
                if json.Some? && ImageField in json.value then Success(Base64ToBitmap(json.value[ImageField], dec))
                else Success(None)
  {
  }

  /** A negative `content-length` on a JSON request escapes the extractor and is answered 500. */
  lemma NegativeLengthIsInternalError(handle: Option<string>, cfg: AuthConfig, language: OcrLanguage, requestCount: int, port: int,
                                      serverStartTime: int, session: Session, backend: Backend, dec: Decoders, clock: Clock)
    requires session.uri == "/ocr" && session.httpMethod == "POST"
    requires IsAuthenticated(cfg, session.headers) && session.parsedFiles.Success?
    requires ImageField !in session.parsedFiles.value
    requires Contains(ContentType(session.headers), JsonMediaType) && BodyLength(session.headers) < 0
    ensures var r := ServeSpec(handle, cfg, language, requestCount, port, serverStartTime, session, backend, dec, clock).1;
            && r.status == StatusInternalError
            && r.body == ErrorBody(InternalErrorPrefix + IntToString(BodyLength(session.headers)))
  {
  }

  /**
   * A failed resize is a 500 carrying the resize's message and leaves the engine alone; a recognition
   * failure is a 500 whose message is the engine's, behind `"OCR processing failed: "`.
   */
  lemma RecognitionFailureIsInternalError(handle: Option<string>, bitmap: Bitmap, language: OcrLanguage, backend: Backend,
                                          dec: Decoders, elapsed: int)
    ensures var resized := ResizeBitmapIfNeeded(bitmap, dec);
            var r := ProcessOcrSpec(handle, bitmap, language, backend, dec, elapsed);
            && (resized.Failure? ==> r == (handle, ErrorResponse(StatusInternalError, OcrFailedPrefix + resized.error)))
            && (resized.Success? ==>
                  var (_, recognized) := RecognizeSpec(handle, resized.value, language, backend, elapsed);
                  && (recognized.Failure? ==>
                        && r.1.status == StatusInternalError
                        && r.1.body.ErrorBody?
                        && StartsWith(r.1.body.error, OcrFailedPrefix + RecognizeFailedPrefix))
                  && (recognized.Success? ==> r.1 == Response(StatusOk, RecognizedBody(RecognitionToJson(recognized.value)))))
  {
    var resized := ResizeBitmapIfNeeded(bitmap, dec);
    if resized.Success? {
      var (_, recognized) := RecognizeSpec(handle, resized.value, language, backend, elapsed);
      RecognizeFailuresArePrefixed(handle, resized.value, language, backend, elapsed);
      if recognized.Failure? {
        var m := recognized.error;
        assert m[..|RecognizeFailedPrefix|] == RecognizeFailedPrefix;
        var e := OcrFailedPrefix + m;
        assert e[..|OcrFailedPrefix + RecognizeFailedPrefix|] == OcrFailedPrefix + RecognizeFailedPrefix;
      }
    }
  }

  /** A 5000x1 image cannot be scaled to 2048x0: the answer is 500 with the resize's message, and the engine is not used. */
  lemma ThinImageIsInternalError(handle: Option<string>, id: nat, language: OcrLanguage, backend: Backend,
                                  dec: Decoders, elapsed: int)
    ensures ProcessOcrSpec(handle, Bitmap(5000, 1, id), language, backend, dec, elapsed) ==
              (handle, ErrorResponse(StatusInternalError, OcrFailedPrefix + EmptySideMessage))
  {
    ThinBitmapFailsToResize(id, dec);
  }

  /** The server object: the port, the start time, its own engine, the log and the counter. */
  class OcrHttpServer {
    const port: int
    const serverStartTime: int
    const engine: OcrEngine
    var requestLogs: seq<RequestLog>
    var requestCount: int

    /** The engine's flag matches its handle, the log holds at most 100 entries, the counter is an `Int`. */
    predicate Valid()
      reads this, engine
    {
      engine.Valid() && |requestLogs| <= MaxLogs && InInt32(requestCount)
    }

    /** A new server with an uninitialised engine, an empty log and a zero counter. */
    constructor (port: int, startTime: int)
      ensures Valid() && fresh(engine) && engine.tesseract == None
      ensures this.port == port && serverStartTime == startTime
      ensures requestLogs == [] && requestCount == 0
    {
      this.port := port;
      serverStartTime := startTime;
      engine := new OcrEngine();
      requestLogs := [];
      requestCount := 0;
    }

    /** `processOcrAsync`: the engine's handle and the response follow `ProcessOcrSpec`. */
    method ProcessOcr(bitmap: Bitmap, languages: OcrLanguageManager, backend: Backend, dec: Decoders, elapsed: int)
      returns (response: Response)
      requires engine.Valid()
      modifies engine
      ensures engine.Valid()
      ensures (engine.tesseract, response) ==
                ProcessOcrSpec(old(engine.tesseract), bitmap, languages.currentLanguage, backend, dec, elapsed)
    {
      var resized := ResizeBitmapIfNeeded(bitmap, dec);
      if resized.Failure? {
        return ErrorResponse(StatusInternalError, OcrFailedPrefix + resized.error);
      }
      var language := languages.GetCurrentLanguage();
      var recognized := engine.RecognizeText(resized.value, language, backend, elapsed);
      if recognized.Failure? {
        return ErrorResponse(StatusInternalError, OcrFailedPrefix + recognized.error);
      }
      var json := BuildResultJson(recognized.value);
      response := Response(StatusOk, RecognizedBody(json));
    }

    /** `handleOcrRequest`, with an escaping exception as a `Failure`. */
    method HandleOcrRequest(session: Session, cfg: AuthConfig, languages: OcrLanguageManager, backend: Backend,
                            dec: Decoders, elapsed: int) returns (outcome: Result<Response>)
      requires engine.Valid()
      modifies engine
      ensures engine.Valid()
      ensures (engine.tesseract, outcome) ==
                OcrRequestSpec(old(engine.tesseract), cfg, languages.currentLanguage, session, backend, dec, elapsed)
    {
      if !IsAuthenticated(cfg, session.headers) {
        return Success(UnauthorizedHttpResponse());
      }
      if session.parsedFiles.Failure? {
        return Success(ErrorResponse(StatusBadRequest, ParseFailedMessage));
      }
      var image := ExtractImage(session, session.parsedFiles.value, dec);
      if image.Failure? {
        return Failure(image.error);
      }
      if image.value.None? {
        return Success(ErrorResponse(StatusBadRequest, NoImageMessage));
      }
      var response := ProcessOcr(image.value.value, languages, backend, dec, elapsed);
      outcome := Success(response);
    }

    /**
     * `logRequest`: the counter goes up by one (wrapping as an `Int`) and the entry is appended,
     * the oldest entry being dropped once the log is over 100.
     */
    method LogRequest(httpMethod: string, path: string, statusCode: int, processingTime: int, clientIp: string, now: int)
      returns (entry: RequestLog)
      requires Valid()
      modifies this
      ensures Valid()
      ensures entry == NewRequestLog(now, httpMethod, path, statusCode, processingTime, clientIp)
      ensures requestCount == Int32Increment(old(requestCount))
      ensures requestLogs == Appended(old(requestLogs), entry)
    {
      requestCount := Int32Increment(requestCount);
      entry := NewRequestLog(now, httpMethod, path, statusCode, processingTime, clientIp);
      requestLogs := requestLogs + [entry];
      if |requestLogs| > MaxLogs {
        requestLogs := requestLogs[1..];
      }
    }

    /**
     * `serve`: the response and the engine's new handle follow `ServeSpec`, and exactly one entry,
     * carrying the final status, is logged (and handed to the listener).
     */
    method Serve(session: Session, auth: AuthMiddleware, languages: OcrLanguageManager, backend: Backend,
                 dec: Decoders, clock: Clock) returns (response: Response, logged: RequestLog)
      requires Valid()
      modifies this, engine
      ensures Valid()
      ensures (engine.tesseract, response) ==
                ServeSpec(old(engine.tesseract), auth.Config(), languages.currentLanguage, old(requestCount), port,
                          serverStartTime, session, backend, dec, clock)
      ensures logged == NewRequestLog(clock.logged, session.httpMethod, session.uri, response.status,
                                      clock.end - clock.start, ClientIp(session))
      ensures requestCount == Int32Increment(old(requestCount))
      ensures requestLogs == Appended(old(requestLogs), logged)
    {
      var clientIp := ClientIp(session);
      var cfg := auth.Config();
      var route := RouteOf(session.uri, session.httpMethod);
      match route {
        case StatusRoute =>
          response := StatusResponse(cfg, clock.handler - serverStartTime, requestCount, port);
        case OcrRoute =>
          var outcome := HandleOcrRequest(session, cfg, languages, backend, dec, clock.recognition);
          response := Answer(outcome);
        case HealthRoute =>
          response := Response(StatusOk, HealthyBody(clock.handler));
        case NoRoute =>
          response := ErrorResponse(StatusNotFound, NotFoundMessage);
      }
      logged := LogRequest(session.httpMethod, session.uri, response.status, clock.end - clock.start, clientIp, clock.logged);
    }

    /** `getRequestLogs`: a copy of the log. */
    method GetRequestLogs() returns (logs: seq<RequestLog>)
      ensures logs == requestLogs
    {
      logs := requestLogs;
    }

    /** `clearLogs`: the log is emptied; the counter is kept. */
    method ClearLogs()
      requires Valid()
      modifies this
      ensures Valid()
      ensures requestLogs == [] && requestCount == old(requestCount)
    {
      requestLogs := [];
    }

    /** `stop`: the engine is closed; a close that throws is swallowed and leaves the engine as it was. */
    method Stop(closesCleanly: bool)
      requires Valid()
      modifies engine
      ensures Valid()
      ensures closesCleanly ==> engine.tesseract == None && !engine.isTesseractInitialized
      ensures !closesCleanly ==>
                engine.tesseract == old(engine.tesseract) && engine.isTesseractInitialized == old(engine.isTesseractInitialized)
    {
      engine.Close(closesCleanly);
    }
  }

  /** A copy taken from `getRequestLogs` is not changed by requests served afterwards. */
  method CopyIsDetached(server: OcrHttpServer, session: Session, auth: AuthMiddleware, languages: OcrLanguageManager,
                        backend: Backend, dec: Decoders, clock: Clock) returns (copy: seq<RequestLog>, logged: RequestLog)
    requires server.Valid()
    modifies server, server.engine
    ensures copy == old(server.requestLogs)
    ensures server.requestLogs == Appended(copy, logged)
  {
    copy := server.GetRequestLogs();
    var _, entry := server.Serve(session, auth, languages, backend, dec, clock);
    logged := entry;
  }
}
