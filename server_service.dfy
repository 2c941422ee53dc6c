/**
 * The lifecycle manager (`OcrServerService.kt`): the running flag with its guarded start and
 * stop, the two servers it owns, the ports, the getters that default when a server is absent,
 * and the two listener lists. Whether a library call throws is an input of the operation.
 */
module ServerService {
  import opened Wrappers
  import opened RequestLogs
  import opened HttpServer
  import opened WebSocketServer
  import opened NetworkUtils
  import opened Engine

  const ActionStart: string := "com.example.ocrserver.START"
  const ActionStop: string := "com.example.ocrserver.STOP"
  const ExtraHttpPort: string := "http_port"
  const ExtraWsPort: string := "ws_port"
  const DefaultServicePort: int := 8080
  const DefaultWsPort: int := 8081
  /** Android's `Service.START_STICKY`. */
  const StartSticky: int := 1

  /** A listener, by identity: Kotlin compares the registered lambdas by reference. */
  datatype Listener = Listener(id: nat)

  /** One call of a listener with its argument, as `notify*` makes it. */
  datatype Call<T> = Call(listener: Listener, argument: T)

  /** The parts of an `Intent` that `onStartCommand` reads: the action and the integer extras. */
  datatype Intent = Intent(action: Option<string>, extras: map<string, int>)

  /** Which of the throwing calls in `startServer` succeed: the HTTP start, the WebSocket start, `startForeground`. */
  datatype StartOutcome = StartOutcome(httpStarts: bool, wsStarts: bool, foregroundStarts: bool)

  /**
   * Which of the calls in `stopServer` return normally: the HTTP server's `stop` (which otherwise
   * throws before its engine is closed) and the WebSocket server's (which otherwise throws after
   * clearing its set and closing its engine); `httpEngineClosesCleanly` and `wsEngineClosesCleanly`
   * say whether each server's own engine closes without throwing.
   */
  datatype StopOutcome = StopOutcome(httpStops: bool, wsStops: bool, httpEngineClosesCleanly: bool, wsEngineClosesCleanly: bool)

  /** The HTTP server's `stop` throws: there is a server and its stop does not return normally. */
  predicate HttpStopThrows(outcome: StopOutcome, hasHttp: bool) {
    hasHttp && !outcome.httpStops
  }

  /** Every present server stops without throwing, so `stopServer` reaches its end. */
  predicate StopCompletes(outcome: StopOutcome, hasHttp: bool, hasWs: bool) {
    (hasHttp ==> outcome.httpStops) && (hasWs ==> outcome.wsStops)
  }

  /**
   * An engine after its `close`: without a handle after a clean close, and with the handle and flag
   * it had before (`tesseract0`, `initialized0`) when the close throws and the exception is swallowed.
   */
  predicate ClosedFrom(engine: OcrEngine, cleanly: bool, tesseract0: Option<string>, initialized0: bool)
    reads engine
  {
    if cleanly then engine.tesseract == None && !engine.isTesseractInitialized
    else engine.tesseract == tesseract0 && engine.isTesseractInitialized == initialized0
  }

  /** `intent.getIntExtra(name, default)`. */
  function IntExtra(intent: Intent, name: string, default: int): (r: int)
    ensures name in intent.extras ==> r == intent.extras[name]
    ensures name !in intent.extras ==> r == default
  {
    if name in intent.extras then intent.extras[name] else default
  }

  /** The first index of `x` in `s`. */
  function FirstIndex(s: seq<Listener>, x: Listener): (r: nat)
    requires x in s
    ensures r < |s| && s[r] == x
    ensures forall k :: 0 <= k < r ==> s[k] != x
  {
    if s[0] == x then 0 else 1 + FirstIndex(s[1..], x)
  }

  /** `MutableList.remove(element)`: the first occurrence, if any, is removed. */
  function RemoveFirst(s: seq<Listener>, x: Listener): (r: seq<Listener>)
    ensures x !in s ==> r == s
    ensures x in s ==> r == s[..FirstIndex(s, x)] + s[FirstIndex(s, x) + 1..]
  {
    if s == [] then []
    else if s[0] == x then s[1..]
    else
      var rest := RemoveFirst(s[1..], x);
      assert x in s ==> [s[0]] + s[1..][..FirstIndex(s[1..], x)] == s[..FirstIndex(s, x)];
      [s[0]] + rest
  }

  /** Removing takes away exactly one copy of a registered listener and keeps the other copies. */
  lemma {:induction false} RemoveFirstCount(s: seq<Listener>, x: Listener)
    ensures multiset(RemoveFirst(s, x)) == multiset(s) - multiset{x}
  {
    if s != [] {
      assert s == [s[0]] + s[1..];
      if s[0] != x {
        RemoveFirstCount(s[1..], x);
      }
    }
  }

  /** The calls `forEach { it(argument) }` makes: each listener once, in registration order. */
  function CallsInOrder<T>(listeners: seq<Listener>, argument: T): (r: seq<Call<T>>)
    ensures |r| == |listeners|
    ensures forall i :: 0 <= i < |r| ==> r[i] == Call(listeners[i], argument)
  {
    seq(|listeners|, i requires 0 <= i < |listeners| => Call(listeners[i], argument))
  }

  /**
   * Adding a listener and removing it again restores the registrations as a multiset; the order is
   * restored only when it was not registered before, since the earlier copy is the one removed.
   */
  lemma {:induction false} AddThenRemoveRestores(s: seq<Listener>, l: Listener)
    ensures multiset(RemoveFirst(s + [l], l)) == multiset(s)
    ensures l !in s ==> RemoveFirst(s + [l], l) == s
    ensures l in s ==> RemoveFirst(s + [l], l) == s[..FirstIndex(s, l)] + s[FirstIndex(s, l) + 1..] + [l]
  {
    RemoveFirstCount(s + [l], l);
    assert multiset(s + [l]) == multiset(s) + multiset{l};
    if l !in s {
      AppendedIsFirst(s, l);
    } else {
      FirstIndexOfPrefix(s, [l], l);
      RemovedBeforeEnd(s, [l], FirstIndex(s, l));
    }
  }

  /** An appended listener that was not registered is first found at the end. */
  lemma AppendedIsFirst(s: seq<Listener>, l: Listener)
    requires l !in s
    ensures FirstIndex(s + [l], l) == |s|
    ensures (s + [l])[..|s|] == s
  {
    assert (s + [l])[|s|] == l;
  }

  /** The first occurrence in `s` is the first occurrence in `s + t`. */
  lemma FirstIndexOfPrefix(s: seq<Listener>, t: seq<Listener>, x: Listener)
    requires x in s
    ensures FirstIndex(s + t, x) == FirstIndex(s, x)
  {
    assert (s + t)[FirstIndex(s, x)] == x;
  }

  /** Cutting out an element of `s` from `s + t` keeps `t` at the end. */
  lemma RemovedBeforeEnd(s: seq<Listener>, t: seq<Listener>, k: nat)
    requires k < |s|
    ensures (s + t)[..k] + (s + t)[k + 1..] == s[..k] + s[k + 1..] + t
  {
    assert (s + t)[..k] == s[..k];
    assert (s + t)[k + 1..] == s[k + 1..] + t;
  }

  class OcrServerService {
    var httpServer: OcrHttpServer?
    var webSocketServer: OcrWebSocketServer?
    var isServerRunning: bool
    var httpPort: int
    var wsPort: int
    var requestLogListeners: seq<Listener>
    var connectionChangeListeners: seq<Listener>

    /** The servers and their engines. */
    function Servers(): set<object>
      reads this
    {
      (if httpServer != null then {httpServer as object, httpServer.engine} else {}) +
      (if webSocketServer != null then {webSocketServer as object, webSocketServer.engine} else {})
    }

    /** Each present server is valid, and the two servers have engines of their own. */
    predicate Valid()
      reads this, Servers()
    {
      && (httpServer != null ==> httpServer.Valid())
      && (webSocketServer != null ==> webSocketServer.Valid())
      && (httpServer != null && webSocketServer != null ==> httpServer.engine != webSocketServer.engine)
    }

    /** A created service: no servers, not running, the default ports, no listeners. */
    constructor ()
      ensures Valid()
      ensures httpServer == null && webSocketServer == null && !isServerRunning
      ensures httpPort == DefaultServicePort && wsPort == DefaultWsPort
      ensures requestLogListeners == [] && connectionChangeListeners == []
    {
      httpServer := null;
      webSocketServer := null;
      isServerRunning := false;
      httpPort := DefaultServicePort;
      wsPort := DefaultWsPort;
      requestLogListeners := [];
      connectionChangeListeners := [];
    }

    /**
     * `startServer`: nothing while running. Otherwise the ports are stored first, each server is
     * kept only once it has started, and the service runs exactly when every step succeeds. A
     * failure after the HTTP server started leaves that server in place, not stopped.
     */
    method StartServer(hPort: int, wPort: int, outcome: StartOutcome, now: int)
      requires Valid()
      modifies this
      ensures Valid()
      ensures requestLogListeners == old(requestLogListeners) && connectionChangeListeners == old(connectionChangeListeners)
      ensures old(isServerRunning) ==>
                && isServerRunning && httpServer == old(httpServer) && webSocketServer == old(webSocketServer)
                && httpPort == old(httpPort) && wsPort == old(wsPort)
      ensures !old(isServerRunning) ==> httpPort == hPort && wsPort == wPort
      ensures !old(isServerRunning) ==>
                (isServerRunning <==> outcome.httpStarts && outcome.wsStarts && outcome.foregroundStarts)
      ensures !old(isServerRunning) && !outcome.httpStarts ==>
                httpServer == old(httpServer) && webSocketServer == old(webSocketServer)
      ensures !old(isServerRunning) && outcome.httpStarts ==>
                && httpServer != null && fresh(httpServer) && fresh(httpServer.engine) && httpServer.port == hPort
                && httpServer.requestLogs == [] && httpServer.requestCount == 0 && httpServer.engine.tesseract == None
      ensures !old(isServerRunning) && outcome.httpStarts && !outcome.wsStarts ==> webSocketServer == old(webSocketServer)
      ensures !old(isServerRunning) && outcome.httpStarts && outcome.wsStarts ==>
                && webSocketServer != null && fresh(webSocketServer) && fresh(webSocketServer.engine)
                && webSocketServer.port == wPort
                && webSocketServer.activeConnections == {} && webSocketServer.engine.tesseract == None
    {
      if isServerRunning {
        return;
      }
      httpPort := hPort;
      wsPort := wPort;
      var http := new OcrHttpServer(httpPort, now);
      if !outcome.httpStarts {
        isServerRunning := false;
        return;
      }
      httpServer := http;
      var ws := new OcrWebSocketServer(wsPort);
      if !outcome.wsStarts {
        isServerRunning := false;
        return;
      }
      webSocketServer := ws;
      isServerRunning := true;
      if !outcome.foregroundStarts {
        isServerRunning := false;
      }
    }

    /**
     * `stopServer`: nothing when not running. Otherwise each server is stopped, which closes its
     * engine, and dropped in turn, and the flag cleared; a stop that throws ends the attempt there,
     * with the flag still set: the HTTP server's before its engine is closed, so the WebSocket
     * server is not reached, and the WebSocket server's after its set is cleared and engine closed.
     */
    method StopServer(outcome: StopOutcome)
      requires Valid()
      modifies this, Servers()
      ensures Valid()
      ensures requestLogListeners == old(requestLogListeners) && connectionChangeListeners == old(connectionChangeListeners)
      ensures httpPort == old(httpPort) && wsPort == old(wsPort)
      ensures !old(isServerRunning) ==>
                !isServerRunning && httpServer == old(httpServer) && webSocketServer == old(webSocketServer)
      ensures old(isServerRunning) ==>
                (isServerRunning <==> !StopCompletes(outcome, old(httpServer) != null, old(webSocketServer) != null))
      ensures old(isServerRunning) && HttpStopThrows(outcome, old(httpServer) != null) ==>
                httpServer == old(httpServer) && webSocketServer == old(webSocketServer)
      ensures old(isServerRunning) && !HttpStopThrows(outcome, old(httpServer) != null) ==> httpServer == null
      ensures old(isServerRunning) && !HttpStopThrows(outcome, old(httpServer) != null) && old(webSocketServer) != null ==>
                && old(webSocketServer).activeConnections == {}
                && (outcome.wsStops <==> webSocketServer == null)
      ensures old(isServerRunning) && StopCompletes(outcome, old(httpServer) != null, old(webSocketServer) != null) ==>
                webSocketServer == null
      ensures !old(isServerRunning) ==> unchanged(Servers())
      ensures old(isServerRunning) && old(httpServer) != null ==>
                && unchanged(old(httpServer))
                && (if outcome.httpStops
                    then ClosedFrom(old(httpServer).engine, outcome.httpEngineClosesCleanly,
                                    old(httpServer.engine.tesseract), old(httpServer.engine.isTesseractInitialized))
                    else unchanged(old(httpServer).engine))
      ensures old(isServerRunning) && old(webSocketServer) != null && HttpStopThrows(outcome, old(httpServer) != null) ==>
                unchanged(old(webSocketServer), old(webSocketServer).engine)
      ensures old(isServerRunning) && old(webSocketServer) != null && !HttpStopThrows(outcome, old(httpServer) != null) ==>
                ClosedFrom(old(webSocketServer).engine, outcome.wsEngineClosesCleanly,
                           old(webSocketServer.engine.tesseract), old(webSocketServer.engine.isTesseractInitialized))
    {
      if !isServerRunning {
        return;
      }
      if httpServer != null {
        if !outcome.httpStops {
          return;
        }
        httpServer.Stop(outcome.httpEngineClosesCleanly);
      }
      httpServer := null;
      if webSocketServer != null {
        webSocketServer.Stop(outcome.wsEngineClosesCleanly);
        if !outcome.wsStops {
          return;
        }
      }
      webSocketServer := null;
      isServerRunning := false;
    }

    /**
     * `onStartCommand`: ACTION_START starts with the port extras (8080 and 8081 by default),
     * ACTION_STOP stops, anything else does nothing; the answer is always START_STICKY.
     */
    method OnStartCommand(intent: Option<Intent>, start: StartOutcome, stop: StopOutcome, now: int) returns (result: int)
      requires Valid()
      modifies this, Servers()
      ensures Valid()
      ensures result == StartSticky
      ensures requestLogListeners == old(requestLogListeners) && connectionChangeListeners == old(connectionChangeListeners)
      ensures intent.Some? && intent.value.action == Some(ActionStart) && old(isServerRunning) ==>
                && isServerRunning && httpServer == old(httpServer) && webSocketServer == old(webSocketServer)
                && httpPort == old(httpPort) && wsPort == old(wsPort)
      ensures intent.Some? && intent.value.action == Some(ActionStart) && !old(isServerRunning) ==>
                httpPort == IntExtra(intent.value, ExtraHttpPort, DefaultServicePort) && wsPort == IntExtra(intent.value, ExtraWsPort, DefaultWsPort)
      ensures intent.Some? && intent.value.action == Some(ActionStart) && !old(isServerRunning) ==>
                (isServerRunning <==> start.httpStarts && start.wsStarts && start.foregroundStarts)
      ensures intent.Some? && intent.value.action == Some(ActionStart) && !old(isServerRunning) && !start.httpStarts ==>
                httpServer == old(httpServer) && webSocketServer == old(webSocketServer)
      ensures intent.Some? && intent.value.action == Some(ActionStart) && !old(isServerRunning) && start.httpStarts ==>
                && httpServer != null && fresh(httpServer) && fresh(httpServer.engine)
                && httpServer.port == IntExtra(intent.value, ExtraHttpPort, DefaultServicePort)
                && httpServer.requestLogs == [] && httpServer.requestCount == 0 && httpServer.engine.tesseract == None
      ensures intent.Some? && intent.value.action == Some(ActionStart) && !old(isServerRunning) && start.httpStarts && !start.wsStarts ==>
                webSocketServer == old(webSocketServer)
      ensures intent.Some? && intent.value.action == Some(ActionStart) && !old(isServerRunning) && start.httpStarts && start.wsStarts ==>
                && webSocketServer != null && fresh(webSocketServer) && fresh(webSocketServer.engine)
                && webSocketServer.port == IntExtra(intent.value, ExtraWsPort, DefaultWsPort)
                && webSocketServer.activeConnections == {} && webSocketServer.engine.tesseract == None
      ensures intent.Some? && intent.value.action == Some(ActionStart) ==> unchanged(old(Servers()))
      ensures intent.Some? && intent.value.action == Some(ActionStop) ==>
                httpPort == old(httpPort) && wsPort == old(wsPort)
      ensures intent.Some? && intent.value.action == Some(ActionStop) && !old(isServerRunning) ==>
                !isServerRunning && httpServer == old(httpServer) && webSocketServer == old(webSocketServer)
      ensures intent.Some? && intent.value.action == Some(ActionStop) && old(isServerRunning) ==>
                (isServerRunning <==> !StopCompletes(stop, old(httpServer) != null, old(webSocketServer) != null))
      ensures intent.Some? && intent.value.action == Some(ActionStop) && old(isServerRunning) && HttpStopThrows(stop, old(httpServer) != null) ==>
                httpServer == old(httpServer) && webSocketServer == old(webSocketServer)
      ensures intent.Some? && intent.value.action == Some(ActionStop) && old(isServerRunning) && !HttpStopThrows(stop, old(httpServer) != null) ==> httpServer == null
      ensures intent.Some? && intent.value.action == Some(ActionStop) && old(isServerRunning) && !HttpStopThrows(stop, old(httpServer) != null) && old(webSocketServer) != null ==>
                && old(webSocketServer).activeConnections == {}
                && (stop.wsStops <==> webSocketServer == null)
      ensures intent.Some? && intent.value.action == Some(ActionStop) && old(isServerRunning) && StopCompletes(stop, old(httpServer) != null, old(webSocketServer) != null) ==>
                webSocketServer == null
      ensures intent.Some? && intent.value.action == Some(ActionStop) && !old(isServerRunning) ==> unchanged(Servers())
      ensures intent.Some? && intent.value.action == Some(ActionStop) && old(isServerRunning) && old(httpServer) != null ==>
                && unchanged(old(httpServer))
                && (if stop.httpStops
                    then ClosedFrom(old(httpServer).engine, stop.httpEngineClosesCleanly,
                                    old(httpServer.engine.tesseract), old(httpServer.engine.isTesseractInitialized))
                    else unchanged(old(httpServer).engine))
      ensures intent.Some? && intent.value.action == Some(ActionStop) && old(isServerRunning) && old(webSocketServer) != null && HttpStopThrows(stop, old(httpServer) != null) ==>
                unchanged(old(webSocketServer), old(webSocketServer).engine)
      ensures intent.Some? && intent.value.action == Some(ActionStop) && old(isServerRunning) && old(webSocketServer) != null && !HttpStopThrows(stop, old(httpServer) != null) ==>
                ClosedFrom(old(webSocketServer).engine, stop.wsEngineClosesCleanly,
                           old(webSocketServer.engine.tesseract), old(webSocketServer.engine.isTesseractInitialized))
      ensures intent.None? || (intent.value.action != Some(ActionStart) && intent.value.action != Some(ActionStop)) ==>
                && isServerRunning == old(isServerRunning) && httpServer == old(httpServer)
                && webSocketServer == old(webSocketServer) && httpPort == old(httpPort) && wsPort == old(wsPort)
                && unchanged(old(Servers()))
    {
      if intent.Some? && intent.value.action == Some(ActionStart) {
        var hPort := IntExtra(intent.value, ExtraHttpPort, DefaultServicePort);
        var wPort := IntExtra(intent.value, ExtraWsPort, DefaultWsPort);
        StartServer(hPort, wPort, start, now);
      } else if intent.Some? && intent.value.action == Some(ActionStop) {
        StopServer(stop);
      }
      result := StartSticky;
    }

    method IsRunning() returns (running: bool)
      ensures running == isServerRunning
    {
      running := isServerRunning;
    }

    /** `getServerAddress`: the HTTP URL for the stored HTTP port. */
    method GetServerAddress(enumeration: Result<seq<NetworkInterface>>) returns (address: string)
      ensures address == ServerAddress(LocalIpAddress(enumeration), httpPort)
    {
      address := NetworkUtils.GetServerAddress(enumeration, httpPort);
    }

    /** `getWebSocketAddress`: the WebSocket URL for the stored WebSocket port. */
    method GetWebSocketAddress(enumeration: Result<seq<NetworkInterface>>) returns (address: string)
      ensures address == WebSocketAddress(LocalIpAddress(enumeration), wsPort)
    {
      address := NetworkUtils.GetWebSocketAddress(enumeration, wsPort);
    }

    /** `getActiveWebSocketConnections`: the hub's count, 0 without a hub. */
    method GetActiveWebSocketConnections() returns (count: nat)
      ensures webSocketServer == null ==> count == 0
      ensures webSocketServer != null ==> count == |webSocketServer.activeConnections|
    {
      if webSocketServer == null {
        count := 0;
      } else {
        count := webSocketServer.GetActiveConnectionsCount();
      }
    }

    /** `getRequestLogs`: the HTTP server's log, empty without a server. */
    method GetRequestLogs() returns (logs: seq<RequestLog>)
      ensures httpServer == null ==> logs == []
      ensures httpServer != null ==> logs == httpServer.requestLogs
    {
      if httpServer == null {
        logs := [];
      } else {
        logs := httpServer.GetRequestLogs();
      }
    }

    /** `clearRequestLogs`: clears the HTTP server's log when there is one. */
    method ClearRequestLogs()
      requires Valid()
      modifies httpServer
      ensures Valid()
      ensures httpServer != null ==> httpServer.requestLogs == [] && httpServer.requestCount == old(httpServer.requestCount)
    {
      if httpServer != null {
        httpServer.ClearLogs();
      }
    }

    method AddRequestLogListener(listener: Listener)
      modifies this
      ensures requestLogListeners == old(requestLogListeners) + [listener]
      ensures connectionChangeListeners == old(connectionChangeListeners)
      ensures httpServer == old(httpServer) && webSocketServer == old(webSocketServer)
    {
      requestLogListeners := requestLogListeners + [listener];
    }

    method RemoveRequestLogListener(listener: Listener)
      modifies this
      ensures requestLogListeners == RemoveFirst(old(requestLogListeners), listener)
      ensures connectionChangeListeners == old(connectionChangeListeners)
      ensures httpServer == old(httpServer) && webSocketServer == old(webSocketServer)
    {
      requestLogListeners := RemoveFirst(requestLogListeners, listener);
    }

    method AddConnectionChangeListener(listener: Listener)
      modifies this
      ensures connectionChangeListeners == old(connectionChangeListeners) + [listener]
      ensures requestLogListeners == old(requestLogListeners)
      ensures httpServer == old(httpServer) && webSocketServer == old(webSocketServer)
    {
      connectionChangeListeners := connectionChangeListeners + [listener];
    }

    method RemoveConnectionChangeListener(listener: Listener)
      modifies this
      ensures connectionChangeListeners == RemoveFirst(old(connectionChangeListeners), listener)
      ensures requestLogListeners == old(requestLogListeners)
      ensures httpServer == old(httpServer) && webSocketServer == old(webSocketServer)
    {
      connectionChangeListeners := RemoveFirst(connectionChangeListeners, listener);
    }

    /** `notifyRequestLogged`: every request-log listener is called once with the entry, in registration order. */
    method NotifyRequestLogged(log: RequestLog) returns (calls: seq<Call<RequestLog>>)
      ensures calls == CallsInOrder(requestLogListeners, log)
    {
      calls := [];
      var i := 0;
      while i < |requestLogListeners|
        invariant 0 <= i <= |requestLogListeners|
        invariant calls == CallsInOrder(requestLogListeners[..i], log)
      {
        calls := calls + [Call(requestLogListeners[i], log)];
        i := i + 1;
      }
      assert requestLogListeners[..i] == requestLogListeners;
    }

    /** `notifyConnectionChange`: every connection listener is called once with the count, in registration order. */
    method NotifyConnectionChange(count: int) returns (calls: seq<Call<int>>)
      ensures calls == CallsInOrder(connectionChangeListeners, count)
    {
      calls := [];
      var i := 0;
      while i < |connectionChangeListeners|
        invariant 0 <= i <= |connectionChangeListeners|
        invariant calls == CallsInOrder(connectionChangeListeners[..i], count)
      {
        calls := calls + [Call(connectionChangeListeners[i], count)];
        i := i + 1;
      }
      assert connectionChangeListeners[..i] == connectionChangeListeners;
    }

    /** `onDestroy`: stop as `stopServer` does, then forget every listener. */
    method OnDestroy(stop: StopOutcome)
      requires Valid()
      modifies this, Servers()
      ensures Valid()
      ensures requestLogListeners == [] && connectionChangeListeners == []
      ensures httpPort == old(httpPort) && wsPort == old(wsPort)
      ensures !old(isServerRunning) ==>
                !isServerRunning && httpServer == old(httpServer) && webSocketServer == old(webSocketServer)
      ensures old(isServerRunning) ==>
                (isServerRunning <==> !StopCompletes(stop, old(httpServer) != null, old(webSocketServer) != null))
      ensures old(isServerRunning) && HttpStopThrows(stop, old(httpServer) != null) ==>
                httpServer == old(httpServer) && webSocketServer == old(webSocketServer)
      ensures old(isServerRunning) && !HttpStopThrows(stop, old(httpServer) != null) ==> httpServer == null
      ensures old(isServerRunning) && !HttpStopThrows(stop, old(httpServer) != null) && old(webSocketServer) != null ==>
                && old(webSocketServer).activeConnections == {}
                && (stop.wsStops <==> webSocketServer == null)
      ensures old(isServerRunning) && StopCompletes(stop, old(httpServer) != null, old(webSocketServer) != null) ==>
                webSocketServer == null
      ensures !old(isServerRunning) ==> unchanged(Servers())
      ensures old(isServerRunning) && old(httpServer) != null ==>
                && unchanged(old(httpServer))
                && (if stop.httpStops
                    then ClosedFrom(old(httpServer).engine, stop.httpEngineClosesCleanly,
                                    old(httpServer.engine.tesseract), old(httpServer.engine.isTesseractInitialized))
                    else unchanged(old(httpServer).engine))
      ensures old(isServerRunning) && old(webSocketServer) != null && HttpStopThrows(stop, old(httpServer) != null) ==>
                unchanged(old(webSocketServer), old(webSocketServer).engine)
      ensures old(isServerRunning) && old(webSocketServer) != null && !HttpStopThrows(stop, old(httpServer) != null) ==>
                ClosedFrom(old(webSocketServer).engine, stop.wsEngineClosesCleanly,
                           old(webSocketServer.engine.tesseract), old(webSocketServer.engine.isTesseractInitialized))
    {
      StopServer(stop);
      requestLogListeners := [];
      connectionChangeListeners := [];
    }
  }

  /**
   * When the WebSocket server fails to start, the HTTP server that started stays assigned while
   * the service is not running, so a later `stopServer` returns at its guard and leaves it running.
   */
  method FailedStartLeavesHttpServer(service: OcrServerService, now: int)
    requires service.Valid() && !service.isServerRunning
    modifies service, service.Servers()
    ensures !service.isServerRunning && service.httpServer != null && fresh(service.httpServer)
  {
    service.StartServer(DefaultServicePort, DefaultWsPort, StartOutcome(true, false, true), now);
    service.StopServer(StopOutcome(true, true, true, true));
  }
}
