/**
 * The WebSocket hub (`OcrWebSocketServer.kt`): the set of active connections with the counts it
 * reports, the dispatch of incoming messages on their `type`, and the frames each event sends.
 * An OCR request, including the recognition the source launches in a coroutine, is one atomic
 * step here. Incoming messages arrive already parsed and outgoing frames are records.
 */
module WebSocketServer {
  import opened Wrappers
  import opened Text
  import opened Auth
  import opened Languages
  import opened LanguageManager
  import opened ImageUtils
  import opened Engine
  import opened ResultJson

  const TypeField: string := "type"
  const TokenField: string := "token"
  const ImageField: string := "image"
  const TypeOcr: string := "ocr"
  const TypePing: string := "ping"
  const TypeAuth: string := "auth"

  const MissingImageMessage: string := "Missing 'image' field in request"
  const InvalidImageMessage: string := "Invalid image data"
  const AuthFailedMessage: string := "Authentication failed"
  const OcrFailedPrefix: string := "OCR processing failed: "
  const UnknownTypePrefix: string := "Unknown message type: "
  const InvalidFormatPrefix: string := "Invalid message format: "
  const ServerErrorPrefix: string := "Server error: "
  const RecognizingProgress: int := 50

  /** The JSON frames the hub sends, by their `type`. */
  datatype Frame =
    | StatusFrame(status: string, message: string, timestamp: int)  // `type: "status"`
    | ErrorFrame(error: string, timestamp: int)  // `type: "error"`
    | PongFrame(timestamp: int)  // `type: "pong"`
    | ProgressFrame(status: string, progress: int)  // `type: "progress"`
    | ResultFrame(result: RecognitionJson)  // `type: "result", success: true`
    | BroadcastFrame(message: string, timestamp: int)  // `type: "broadcast"`

  /**
   * A text message: either it does not parse as a JSON object (with the parser's message), or its
   * fields as the strings `optString`/`getString` return for them.
   */
  datatype Incoming = Malformed(reason: string) | Message(fields: map<string, string>)

  /** `json.optString("type", "ocr")`. */
  function MessageType(fields: map<string, string>): (r: string)
    ensures TypeField !in fields ==> r == TypeOcr
    ensures TypeField in fields ==> r == fields[TypeField]
  {
    if TypeField in fields then fields[TypeField] else TypeOcr
  }

  /** `json.optString("token", "")`. */
  function TokenOf(fields: map<string, string>): (r: string)
    ensures TokenField !in fields ==> r == []
    ensures TokenField in fields ==> r == fields[TokenField]
  {
    if TokenField in fields then fields[TokenField] else ""
  }

  /** `handleAuthMessage`: the gate is asked about `{"Authorization": "Bearer " + token}`. */
  function AuthFrames(cfg: AuthConfig, token: string, now: int): (r: seq<Frame>)
    ensures |r| == 1
  {
    if IsAuthenticated(cfg, map[AuthHeader := BearerPrefix + token]) then
      [StatusFrame("authenticated", "Authentication successful", now)]
    else [ErrorFrame(AuthFailedMessage, now)]
  }

  /**
   * `processOcr` as a function of the engine's Tesseract handle: a resize that throws sends only the
   * error; otherwise the progress frame, then the result or the recognition's error.
   */
  function ProcessFrames(handle: Option<string>, bitmap: Bitmap, language: OcrLanguage, backend: Backend,
                         dec: Decoders, now: int, elapsed: int): (r: (Option<string>, seq<Frame>))
  {
    match ResizeBitmapIfNeeded(bitmap, dec)
    case Failure(m) => (handle, [ErrorFrame(OcrFailedPrefix + m, now)])
    case Success(resized) =>
      var (next, recognized) := RecognizeSpec(handle, resized, language, backend, elapsed);
      var last := match recognized
        case Failure(m) => ErrorFrame(OcrFailedPrefix + m, now)
        case Success(result) => ResultFrame(RecognitionToJson(result));
      (next, [ProgressFrame("recognizing", RecognizingProgress), last])
  }

  /**
   * `handleOcrMessage` followed by `processOcr`, as a function of the engine's Tesseract handle:
   * the new handle and the frames sent.
   */
  function OcrFrames(handle: Option<string>, language: OcrLanguage, fields: map<string, string>, backend: Backend,
                     dec: Decoders, now: int, elapsed: int): (r: (Option<string>, seq<Frame>))
  {
    if ImageField !in fields then (handle, [ErrorFrame(MissingImageMessage, now)])
    else
      match Base64ToBitmap(fields[ImageField], dec)
      case None => (handle, [ErrorFrame(InvalidImageMessage, now)])
      case Some(bitmap) =>
        var (next, frames) := ProcessFrames(handle, bitmap, language, backend, dec, now, elapsed);
        (next, [StatusFrame("processing", "Processing image...", now)] + frames)
  }

  /** `onMessage` as a function of the engine's handle: the new handle and the frames for the sender. */
  function MessageSpec(handle: Option<string>, cfg: AuthConfig, language: OcrLanguage, message: Incoming,
                       backend: Backend, dec: Decoders, now: int, elapsed: int): (r: (Option<string>, seq<Frame>))
  {
    match message
    case Malformed(reason) => (handle, [ErrorFrame(InvalidFormatPrefix + reason, now)])
    case Message(fields) =>
      var kind := MessageType(fields);
      if kind == TypeAuth then (handle, AuthFrames(cfg, TokenOf(fields), now))
      else if kind == TypePing then (handle, [PongFrame(now)])
      else if kind == TypeOcr then OcrFrames(handle, language, fields, backend, dec, now, elapsed)
      else (handle, [ErrorFrame(UnknownTypePrefix + kind, now)])
  }

  /** A message without `type` is handled as an OCR request. */
  lemma MissingTypeIsOcr(handle: Option<string>, cfg: AuthConfig, language: OcrLanguage, fields: map<string, string>,
                         backend: Backend, dec: Decoders, now: int, elapsed: int)
    requires TypeField !in fields
    ensures MessageSpec(handle, cfg, language, Message(fields), backend, dec, now, elapsed) ==
              OcrFrames(handle, language, fields, backend, dec, now, elapsed)
  {
  }

  /** Any other type gets one error naming it; unparseable text gets one error with the parser's message. */
  lemma OtherMessagesGetOneError(handle: Option<string>, cfg: AuthConfig, language: OcrLanguage, message: Incoming,
                                 backend: Backend, dec: Decoders, now: int, elapsed: int)
    ensures message.Malformed? ==>
              MessageSpec(handle, cfg, language, message, backend, dec, now, elapsed) ==
                (handle, [ErrorFrame(InvalidFormatPrefix + message.reason, now)])
    ensures message.Message? && TypeField in message.fields &&
            message.fields[TypeField] != TypeAuth && message.fields[TypeField] != TypePing && message.fields[TypeField] != TypeOcr ==>
              MessageSpec(handle, cfg, language, message, backend, dec, now, elapsed) ==
                (handle, [ErrorFrame(UnknownTypePrefix + message.fields[TypeField], now)])
  {
  }

  /** A `ping` gets exactly one `pong`. */
  lemma PingGetsOnePong(handle: Option<string>, cfg: AuthConfig, language: OcrLanguage, fields: map<string, string>,
                        backend: Backend, dec: Decoders, now: int, elapsed: int)
    requires TypeField in fields && fields[TypeField] == TypePing
    ensures MessageSpec(handle, cfg, language, Message(fields), backend, dec, now, elapsed) == (handle, [PongFrame(now)])
  {
  }

  /**
   * An `auth` message is accepted exactly when the gate is off, has no token, or the token sent
   * trims to the expected one; either way one frame is sent and the engine is untouched.
   */
  lemma AuthMessageDecision(handle: Option<string>, cfg: AuthConfig, language: OcrLanguage, fields: map<string, string>,
                            backend: Backend, dec: Decoders, now: int, elapsed: int)
    requires TypeField in fields && fields[TypeField] == TypeAuth
    ensures var r := MessageSpec(handle, cfg, language, Message(fields), backend, dec, now, elapsed);
            && r.0 == handle && |r.1| == 1
            && (r.1[0].StatusFrame? <==> !cfg.enabled || cfg.token.None? || Trim(TokenOf(fields)) == cfg.token.value)
            && (!r.1[0].StatusFrame? ==> r.1[0] == ErrorFrame(AuthFailedMessage, now))
  {
    var header := BearerPrefix + TokenOf(fields);
    assert header[..|BearerPrefix|] == BearerPrefix;
    assert RemovePrefix(header, BearerPrefix) == TokenOf(fields);
  }

  /**
   * An `ocr` message without `image` gets one error, an undecodable image one other error, and a
   * decodable one the `processing` status, then either the error of a resize that throws, with the
   * engine untouched, or the `recognizing` 50 progress and one result or error.
   */
  lemma OcrFrameSequence(handle: Option<string>, language: OcrLanguage, fields: map<string, string>, backend: Backend,
                         dec: Decoders, now: int, elapsed: int)
    ensures var r := OcrFrames(handle, language, fields, backend, dec, now, elapsed);
            && (ImageField !in fields ==> r == (handle, [ErrorFrame(MissingImageMessage, now)]))
            && (ImageField in fields && Base64ToBitmap(fields[ImageField], dec).None? ==>
                  r == (handle, [ErrorFrame(InvalidImageMessage, now)]))
            && (ImageField in fields && Base64ToBitmap(fields[ImageField], dec).Some? ==>
                  var resized := ResizeBitmapIfNeeded(Base64ToBitmap(fields[ImageField], dec).value, dec);
                  && (resized.Failure? ==>
                        r == (handle, [StatusFrame("processing", "Processing image...", now),
                                       ErrorFrame(OcrFailedPrefix + resized.error, now)]))
                  && (resized.Success? ==>
                        && |r.1| == 3
                        && r.1[0] == StatusFrame("processing", "Processing image...", now)
                        && r.1[1] == ProgressFrame("recognizing", RecognizingProgress)
                        && (r.1[2].ResultFrame? ||
                            (r.1[2].ErrorFrame? && StartsWith(r.1[2].error, OcrFailedPrefix + RecognizeFailedPrefix)))))
  {
    if ImageField in fields && Base64ToBitmap(fields[ImageField], dec).Some? {
      var resized := ResizeBitmapIfNeeded(Base64ToBitmap(fields[ImageField], dec).value, dec);
      if resized.Failure? {
        assert [StatusFrame("processing", "Processing image...", now)] + [ErrorFrame(OcrFailedPrefix + resized.error, now)] ==
               [StatusFrame("processing", "Processing image...", now), ErrorFrame(OcrFailedPrefix + resized.error, now)];
      } else {
        RecognizeFailuresArePrefixed(handle, resized.value, language, backend, elapsed);
        var recognized := RecognizeSpec(handle, resized.value, language, backend, elapsed).1;
        if recognized.Failure? {
          var e := OcrFailedPrefix + recognized.error;
          assert recognized.error[..|RecognizeFailedPrefix|] == RecognizeFailedPrefix;
          assert e[..|OcrFailedPrefix + RecognizeFailedPrefix|] == OcrFailedPrefix + RecognizeFailedPrefix;
        }
      }
    }
  }

  /** A 5000x1 image cannot be scaled to 2048x0: the sender gets the `processing` status and the error, and no progress. */
  lemma ThinImageGetsNoProgress(handle: Option<string>, language: OcrLanguage, fields: map<string, string>, id: nat,
                                backend: Backend, dec: Decoders, now: int, elapsed: int)
    requires ImageField in fields && Base64ToBitmap(fields[ImageField], dec) == Some(Bitmap(5000, 1, id))
    ensures OcrFrames(handle, language, fields, backend, dec, now, elapsed) ==
              (handle, [StatusFrame("processing", "Processing image...", now), ErrorFrame(OcrFailedPrefix + EmptySideMessage, now)])
  {
    ThinBitmapFailsToResize(id, dec);
    assert [StatusFrame("processing", "Processing image...", now)] + [ErrorFrame(OcrFailedPrefix + EmptySideMessage, now)] ==
           [StatusFrame("processing", "Processing image...", now), ErrorFrame(OcrFailedPrefix + EmptySideMessage, now)];
  }

  /** OCR over the socket is not behind the gate: its frames do not depend on the authentication configuration. */
  lemma OcrIgnoresAuth(handle: Option<string>, cfg1: AuthConfig, cfg2: AuthConfig, language: OcrLanguage,
                       fields: map<string, string>, backend: Backend, dec: Decoders, now: int, elapsed: int)
    requires MessageType(fields) == TypeOcr
    ensures MessageSpec(handle, cfg1, language, Message(fields), backend, dec, now, elapsed) ==
              MessageSpec(handle, cfg2, language, Message(fields), backend, dec, now, elapsed)
  {
  }

  /** A client socket: whether it is open, whether `send` throws on it, and the frames it has been sent. */
  class Connection {
    var isOpen: bool
    var sendFails: bool
    var sent: seq<Frame>

    constructor (isOpen: bool, sendFails: bool)
      ensures this.isOpen == isOpen && this.sendFails == sendFails && sent == []
    {
      this.isOpen := isOpen;
      this.sendFails := sendFails;
      sent := [];
    }
  }

  /** What of `frames` reaches `connection`: everything when it is open and sends succeed, else nothing. */
  function Delivered(connection: Connection, frames: seq<Frame>): (r: seq<Frame>)
    reads connection
    ensures connection.isOpen && !connection.sendFails ==> r == frames
    ensures !connection.isOpen || connection.sendFails ==> r == []
  {
    if connection.isOpen && !connection.sendFails then frames else []
  }

  /** Adding a connection grows the set by one exactly when it was not a member. */
  lemma AddedCount(s: set<Connection>, c: Connection)
    ensures |s + {c}| == if c in s then |s| else |s| + 1
  {
    if c in s {
      assert s + {c} == s;
    }
  }

  /** Removing a connection shrinks the set by one exactly when it was a member. */
  lemma RemovedCount(s: set<Connection>, c: Connection)
    ensures |s - {c}| == if c in s then |s| - 1 else |s|
  {
    if c in s {
      assert s == (s - {c}) + {c};
    } else {
      assert s - {c} == s;
    }
  }

  /** The hub: its port, its own engine and the connections it counts. */
  class OcrWebSocketServer {
    const port: int
    const engine: OcrEngine
    var activeConnections: set<Connection>

    predicate Valid()
      reads this, engine
    {
      engine.Valid()
    }

    constructor (port: int)
      ensures Valid() && fresh(engine) && engine.tesseract == None
      ensures this.port == port && activeConnections == {}
    {
      this.port := port;
      engine := new OcrEngine();
      activeConnections := {};
    }

    /** `sendMessage`: sent only on an open connection; a failing send is swallowed. */
    static method SendMessage(connection: Connection, frame: Frame)
      modifies connection
      ensures connection.isOpen == old(connection.isOpen) && connection.sendFails == old(connection.sendFails)
      ensures connection.sent == old(connection.sent) + Delivered(connection, [frame])
    {
      if connection.isOpen && !connection.sendFails {
        connection.sent := connection.sent + [frame];
      }
    }

    /** `onOpen`: the connection joins the set, is greeted, and the new size is reported. */
    method OnOpen(connection: Connection, now: int) returns (count: nat)
      modifies this, connection
      ensures activeConnections == old(activeConnections) + {connection}
      ensures count == |activeConnections|
      ensures count == if connection in old(activeConnections) then |old(activeConnections)| else |old(activeConnections)| + 1
      ensures connection.isOpen == old(connection.isOpen) && connection.sendFails == old(connection.sendFails)
      ensures connection.sent == old(connection.sent) + Delivered(connection, [StatusFrame("connected", "Connection established", now)])
    {
      AddedCount(activeConnections, connection);
      activeConnections := activeConnections + {connection};
      count := |activeConnections|;
      SendMessage(connection, StatusFrame("connected", "Connection established", now));
    }

    /** `onClose`: the connection leaves the set and the new size is reported. */
    method OnClose(connection: Connection) returns (count: nat)
      modifies this
      ensures activeConnections == old(activeConnections) - {connection}
      ensures count == |activeConnections|
      ensures count == if connection in old(activeConnections) then |old(activeConnections)| - 1 else |old(activeConnections)|
    {
      RemovedCount(activeConnections, connection);
      activeConnections := activeConnections - {connection};
      count := |activeConnections|;
    }

    /** `sendError`. */
    static method SendError(connection: Connection, message: string, now: int)
      modifies connection
      ensures connection.isOpen == old(connection.isOpen) && connection.sendFails == old(connection.sendFails)
      ensures connection.sent == old(connection.sent) + Delivered(connection, [ErrorFrame(message, now)])
    {
      SendMessage(connection, ErrorFrame(message, now));
    }

    /** `processOcr`: progress, recognition with the current language, then the result or the error. */
    method ProcessOcr(connection: Connection, bitmap: Bitmap, languages: OcrLanguageManager, backend: Backend,
                      dec: Decoders, now: int, elapsed: int)
      requires Valid()
      modifies connection, engine
      ensures Valid()
      ensures connection.isOpen == old(connection.isOpen) && connection.sendFails == old(connection.sendFails)
      ensures var (next, frames) := ProcessFrames(old(engine.tesseract), bitmap, languages.currentLanguage, backend, dec, now, elapsed);
              engine.tesseract == next && connection.sent == old(connection.sent) + Delivered(connection, frames)
    {
      var resized := ResizeBitmapIfNeeded(bitmap, dec);
      if resized.Failure? {
        SendError(connection, OcrFailedPrefix + resized.error, now);
        return;
      }
      SendMessage(connection, ProgressFrame("recognizing", RecognizingProgress));
      var language := languages.GetCurrentLanguage();
      var recognized := engine.RecognizeText(resized.value, language, backend, elapsed);
      if recognized.Failure? {
        SendError(connection, OcrFailedPrefix + recognized.error, now);
      } else {
        var json := BuildResultJson(recognized.value);
        SendMessage(connection, ResultFrame(json));
      }
    }

    /** `handleOcrMessage` with the launched `processOcr` run to completion. */
    method HandleOcrMessage(connection: Connection, fields: map<string, string>, languages: OcrLanguageManager,
                            backend: Backend, dec: Decoders, now: int, elapsed: int)
      requires Valid()
      modifies connection, engine
      ensures Valid()
      ensures connection.isOpen == old(connection.isOpen) && connection.sendFails == old(connection.sendFails)
      ensures var (next, frames) := OcrFrames(old(engine.tesseract), languages.currentLanguage, fields, backend, dec, now, elapsed);
              engine.tesseract == next && connection.sent == old(connection.sent) + Delivered(connection, frames)
    {
      if ImageField !in fields {
        SendError(connection, MissingImageMessage, now);
        return;
      }
      var bitmap := Base64ToBitmap(fields[ImageField], dec);
      if bitmap.None? {
        SendError(connection, InvalidImageMessage, now);
        return;
      }
      SendMessage(connection, StatusFrame("processing", "Processing image...", now));
      ProcessOcr(connection, bitmap.value, languages, backend, dec, now, elapsed);
    }

    /** `onMessage`: the frames of `MessageSpec` reach the sender; the connection set is not touched. */
    method OnMessage(connection: Connection, message: Incoming, auth: AuthMiddleware, languages: OcrLanguageManager,
                     backend: Backend, dec: Decoders, now: int, elapsed: int)
      requires Valid()
      modifies connection, engine
      ensures Valid()
      ensures connection.isOpen == old(connection.isOpen) && connection.sendFails == old(connection.sendFails)
      ensures var (next, frames) := MessageSpec(old(engine.tesseract), auth.Config(), languages.currentLanguage,
                                                message, backend, dec, now, elapsed);
              engine.tesseract == next && connection.sent == old(connection.sent) + Delivered(connection, frames)
    {
      if message.Malformed? {
        SendError(connection, InvalidFormatPrefix + message.reason, now);
        return;
      }
      var kind := MessageType(message.fields);
      if kind == TypeAuth {
        var frames := AuthFrames(auth.Config(), TokenOf(message.fields), now);
        SendMessage(connection, frames[0]);
      } else if kind == TypePing {
        SendMessage(connection, PongFrame(now));
      } else if kind == TypeOcr {
        HandleOcrMessage(connection, message.fields, languages, backend, dec, now, elapsed);
      } else {
        SendError(connection, UnknownTypePrefix + kind, now);
      }
    }

    /** `onError`: an error frame when the library names a connection. */
    static method OnError(connection: Connection?, message: string, now: int)
      modifies connection
      ensures connection != null ==> connection.isOpen == old(connection.isOpen) && connection.sendFails == old(connection.sendFails)
      ensures connection != null ==> connection.sent == old(connection.sent) + Delivered(connection, [ErrorFrame(ServerErrorPrefix + message, now)])
    {
      if connection != null {
        SendError(connection, ServerErrorPrefix + message, now);
      }
    }

    method GetActiveConnectionsCount() returns (count: nat)
      ensures count == |activeConnections|
    {
      count := |activeConnections|;
    }

    /**
     * `broadcastMessage`: one `broadcast` frame to every open connection the library lists, which
     * need not be the counted set.
     */
    static method BroadcastMessage(message: string, connections: seq<Connection>, now: int)
      requires forall i, j :: 0 <= i < j < |connections| ==> connections[i] != connections[j]
      modifies connections
      ensures forall k :: 0 <= k < |connections| ==>
                && connections[k].isOpen == old(connections[k].isOpen)
                && connections[k].sendFails == old(connections[k].sendFails)
                && connections[k].sent == old(connections[k].sent) + Delivered(connections[k], [BroadcastFrame(message, now)])
    {
      var frame := BroadcastFrame(message, now);
      var i := 0;
      while i < |connections|
        invariant 0 <= i <= |connections|
        invariant forall k :: 0 <= k < |connections| ==>
                    && connections[k].isOpen == old(connections[k].isOpen)
                    && connections[k].sendFails == old(connections[k].sendFails)
        invariant forall k :: 0 <= k < i ==> connections[k].sent == old(connections[k].sent) + Delivered(connections[k], [frame])
        invariant forall k :: i <= k < |connections| ==> connections[k].sent == old(connections[k].sent)
      {
        var connection := connections[i];
        if connection.isOpen {
          SendMessage(connection, frame);
        } else {
          assert Delivered(connection, [frame]) == [];
        }
        i := i + 1;
      }
    }

    /** `stop`: the set is emptied and the engine closed; a close that throws leaves the engine as it was. */
    method Stop(closesCleanly: bool)
      requires Valid()
      modifies this, engine
      ensures Valid()
      ensures activeConnections == {}
      ensures closesCleanly ==> engine.tesseract == None && !engine.isTesseractInitialized
      ensures !closesCleanly ==>
                engine.tesseract == old(engine.tesseract) && engine.isTesseractInitialized == old(engine.isTesseractInitialized)
    {
      activeConnections := {};
      engine.Close(closesCleanly);
    }
  }
}
