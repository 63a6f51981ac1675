/**
 * `AsyncWebSocketClient` of `websocket_client.py`: the classifier for inbound text frames, the
 * router of `451-[...]` events, the region label of an endpoint URL, and the client object whose
 * socket, connection record, reconnect counter and handler lists change as frames and
 * transport outcomes arrive. The websockets library is an oracle: whether a socket opens and
 * whether each send goes out are parameters, and every frame that goes out is appended to `sent`.
 */
module WebSocket {
  import opened Wrappers
  import opened Logs
  import opened Text
  import opened Json
  import opened Handlers
  import opened Models

  // ---------------------------------------------------------------------------------------------
  // Inbound frames
  // ---------------------------------------------------------------------------------------------

  /**
   * What `_process_message` makes of a frame. The prefixes are those of Engine.IO protocol v4
   * (`0` open, `2` ping) and Socket.IO protocol v5 (`40` CONNECT, `42` EVENT, `451-` BINARY_EVENT
   * with one attachment); the client only prefix-matches them.
   */
  datatype Frame =
    | OpenHandshake
    | Heartbeat
    | UpgradeAck
    | BinaryEvent(jsonPart: string)
    | AuthRejected
    | Unrecognised

  predicate IsOpenHandshake(m: string) { StartsWith(m, "0") && Contains(m, "sid") }
  predicate IsUpgradeAck(m: string) { StartsWith(m, "40") && Contains(m, "sid") }
  predicate IsBinaryEvent(m: string) { StartsWith(m, "451-[") }
  predicate IsAuthRejection(m: string) { StartsWith(m, "42") && Contains(m, "NotAuthorized") }

  /**
   * The `if`/`elif` chain of `_process_message`, first match winning. The guards cannot
   * overlap (they differ in the first or second character), so each kind is recognised
   * exactly by its own guard, whatever the order of the chain. The text of a binary event is
   * everything after its first `-`, which is everything after `451-`.
   */
  function Classify(m: string): (f: Frame)
    ensures f == OpenHandshake <==> IsOpenHandshake(m)
    ensures f == Heartbeat <==> m == "2"
    ensures f == UpgradeAck <==> IsUpgradeAck(m)
    ensures f.BinaryEvent? <==> IsBinaryEvent(m)
    ensures f.BinaryEvent? ==> m == "451-" + f.jsonPart
    ensures f == AuthRejected <==> IsAuthRejection(m)
    ensures f == Unrecognised <==>
      !IsOpenHandshake(m) && m != "2" && !IsUpgradeAck(m) && !IsBinaryEvent(m) && !IsAuthRejection(m)
  {
    GuardsDisjoint(m);
    if IsOpenHandshake(m) then OpenHandshake
    else if m == "2" then Heartbeat
    else if IsUpgradeAck(m) then UpgradeAck
    else if IsBinaryEvent(m) then
      var rest := m[4..];
      assert m == "451" + "-" + rest by { assert m[..4] == "451-"; }
      IndexOfAfter("451", "-", rest);
      BinaryEvent(SplitOnce(m, "-").value.1)
    else if IsAuthRejection(m) then AuthRejected
    else Unrecognised
  }

  /** The five guards of `_process_message` exclude each other. */
  lemma GuardsDisjoint(m: string)
    ensures IsOpenHandshake(m) ==> m != "2" && !IsUpgradeAck(m) && !IsBinaryEvent(m) && !IsAuthRejection(m)
    ensures m == "2" ==> !IsUpgradeAck(m) && !IsBinaryEvent(m) && !IsAuthRejection(m)
    ensures IsUpgradeAck(m) ==> !IsBinaryEvent(m) && !IsAuthRejection(m)
    ensures IsBinaryEvent(m) ==> !IsAuthRejection(m)
  {
    if StartsWith(m, "0") { assert m[0] == '0'; }
    if StartsWith(m, "40") { assert m[0] == '4' && m[1] == '0'; }
    if StartsWith(m, "451-[") { assert m[0] == '4' && m[1] == '5'; }
    if StartsWith(m, "42") { assert m[0] == '4' && m[1] == '2'; }
  }

  /** What handling one frame amounts to: a frame sent back, an event emitted, or nothing. */
  datatype Reaction = Reply(frame: string) | Publish(event: string, payload: JsonValue) | NoAction

  /** The server event names `_handle_json_message` recognises, with the internal event each becomes. */
  const EVENT_TABLE: seq<(string, string)> := [
    ("successauth", "authenticated"),
    ("successupdateBalance", "balance_updated"),
    ("successopenOrder", "order_opened"),
    ("successcloseOrder", "order_closed"),
    ("updateStream", "stream_update"),
    ("loadHistoryPeriod", "candles_received"),
    ("updateHistoryNew", "history_update")
  ]

  /** The value of the first entry whose key is `key`. */
  function Lookup(table: seq<(string, string)>, key: string): (r: Option<string>)
    ensures r.None? <==> forall i :: 0 <= i < |table| ==> table[i].0 != key
    ensures r.Some? ==> exists i :: 0 <= i < |table| && table[i] == (key, r.value)
  {
    if |table| == 0 then None
    else if table[0].0 == key then Some(table[0].1)
    else
      var r := Lookup(table[1..], key);
      assert forall i :: 1 <= i < |table| ==> table[i] == table[1..][i - 1];
      r
  }

  /** `event_type == "successauth"`, ... in turn: only a string equal to a table key matches. */
  function InternalEventName(name: JsonValue): Option<string> {
    if name.JStr? then Lookup(EVENT_TABLE, name.s) else None
  }

  /** The keys of the event table are distinct, and so are its internal names. */
  lemma EventTableDistinct()
    ensures forall i, j :: 0 <= i < j < |EVENT_TABLE| ==> EVENT_TABLE[i].0 != EVENT_TABLE[j].0
    ensures forall i, j :: 0 <= i < j < |EVENT_TABLE| ==> EVENT_TABLE[i].1 != EVENT_TABLE[j].1
    ensures forall i :: 0 <= i < |EVENT_TABLE| ==> EVENT_TABLE[i].1 != "unknown_event"
  {
  }

  /** Each of the seven server names becomes its own internal event name. */
  lemma {:induction false} KnownEventName(i: nat)
    requires i < |EVENT_TABLE|
    ensures InternalEventName(JStr(EVENT_TABLE[i].0)) == Some(EVENT_TABLE[i].1)
  {
    EventTableDistinct();
    var r := Lookup(EVENT_TABLE, EVENT_TABLE[i].0);
    assert r.Some?;
    var k :| 0 <= k < |EVENT_TABLE| && EVENT_TABLE[k] == (EVENT_TABLE[i].0, r.value);
    assert k == i;
  }

  /** The mapping is one-to-one: two names routed to the same internal event are the same name. */
  lemma {:induction false} InternalEventNameInjective(a: JsonValue, b: JsonValue)
    requires InternalEventName(a).Some? && InternalEventName(a) == InternalEventName(b)
    ensures a == b
  {
    EventTableDistinct();
    var e := InternalEventName(a).value;
    var i :| 0 <= i < |EVENT_TABLE| && EVENT_TABLE[i] == (a.s, e);
    var j :| 0 <= j < |EVENT_TABLE| && EVENT_TABLE[j] == (b.s, e);
    assert i == j;
  }

  /** The payload of an event array: its second element, or `{}` when it has only a name. */
  function EventPayload(data: seq<JsonValue>): JsonValue {
    if |data| > 1 then data[1] else EMPTY_OBJECT
  }

  /** `_handle_json_message`: the event an inbound array is emitted as. */
  function RouteEvent(data: seq<JsonValue>): (r: Reaction)
    ensures r == NoAction <==> |data| == 0
    ensures r.Reply? == false
  {
    if |data| == 0 then NoAction
    else
      match InternalEventName(data[0])
      case Some(e) => Publish(e, EventPayload(data))
      case None => Publish("unknown_event", JObj(map["type" := data[0], "data" := EventPayload(data)]))
  }

  /** A recognised server event is emitted under its internal name with the array's payload. */
  lemma {:induction false} RouteKnownEvent(data: seq<JsonValue>, i: nat)
    requires i < |EVENT_TABLE| && |data| > 0 && data[0] == JStr(EVENT_TABLE[i].0)
    ensures RouteEvent(data) == Publish(EVENT_TABLE[i].1, if |data| > 1 then data[1] else EMPTY_OBJECT)
  {
    KnownEventName(i);
  }

  /** Any other first element, string or not, is emitted as `unknown_event` wrapping name and payload. */
  lemma {:induction false} RouteUnknownEvent(data: seq<JsonValue>)
    requires |data| > 0 && forall i :: 0 <= i < |EVENT_TABLE| ==> data[0] != JStr(EVENT_TABLE[i].0)
    ensures RouteEvent(data) ==
      Publish("unknown_event", JObj(map["type" := data[0], "data" := if |data| > 1 then data[1] else EMPTY_OBJECT]))
  {
    if data[0].JStr? {
      assert forall i :: 0 <= i < |EVENT_TABLE| ==> EVENT_TABLE[i].0 != data[0].s by {
        forall i | 0 <= i < |EVENT_TABLE| ensures EVENT_TABLE[i].0 != data[0].s {
          assert data[0] != JStr(EVENT_TABLE[i].0);
        }
      }
    }
  }

  /**
   * `_process_message` on one frame. `parseArray` is `json.loads` on the text after `451-`
   * (that text starts with `[`, so a value it yields is an array); `None` is the exception it
   * raises, which the handler's `except` swallows.
   */
  function React(m: string, parseArray: string -> Option<seq<JsonValue>>): (r: Reaction)
    ensures r.Reply? <==> IsOpenHandshake(m) || m == "2"
    ensures r.Reply? ==> r.frame == (if m == "2" then "3" else "40")
    ensures IsUpgradeAck(m) ==> r == Publish("connected", EMPTY_OBJECT)
    ensures IsAuthRejection(m) && !IsBinaryEvent(m) ==>
      r == Publish("auth_error", JObj(map["message" := JStr("Invalid SSID")]))
    ensures IsBinaryEvent(m) ==>
      r == match parseArray(m[4..]) case None => NoAction case Some(data) => RouteEvent(data)
    ensures Classify(m) == Unrecognised ==> r == NoAction
  {
    match Classify(m)
    case OpenHandshake => Reply("40")
    case Heartbeat => Reply("3")
    case UpgradeAck => Publish("connected", EMPTY_OBJECT)
    case BinaryEvent(jsonPart) =>
      (match parseArray(jsonPart) case None => NoAction case Some(data) => RouteEvent(data))
    case AuthRejected => Publish("auth_error", JObj(map["message" := JStr("Invalid SSID")]))
    case Unrecognised => NoAction
  }

  // ---------------------------------------------------------------------------------------------
  // Region label of an endpoint URL
  // ---------------------------------------------------------------------------------------------

  /**
   * `url.split('//')[1].split('.')[0]`, or `None` where the index raises: exactly when the URL
   * has no `//`. A label never holds a dot.
   */
  function HostLabel(url: string): (r: Option<string>)
    ensures r.None? <==> !Contains(url, "//")
    ensures r.Some? ==> !Contains(r.value, ".")
  {
    var parts := Split(url, "//");
    assert |parts| >= 2 <==> Contains(url, "//") by {
      if IndexOf(url, "//").Some? {
        SplitSecond(url, "//", IndexOf(url, "//").value);
      }
    }
    if |parts| < 2 then None
    else
      assert !Contains(Split(parts[1], ".")[0], ".") by { FirstPieceAvoids(parts[1], "."); }
      Some(Split(parts[1], ".")[0])
  }

  /**
   * `_extract_region_from_url`; the bare `except` turns the missing `//` into `UNKNOWN`. The
   * region is always upper-case; any region other than `DEMO` or `UNKNOWN` comes from an
   * `api-` label, and a label without `api-` is `DEMO` exactly when it mentions `demo`.
   */
  function ExtractRegion(url: string): (r: string)
    ensures forall i :: 0 <= i < |r| ==> !('a' <= r[i] <= 'z')
    ensures !Contains(url, "//") ==> r == "UNKNOWN"
    ensures r == "DEMO" || r == "UNKNOWN" || (HostLabel(url).Some? && Contains(HostLabel(url).value, "api-"))
    ensures HostLabel(url).Some? && !Contains(HostLabel(url).value, "api-") ==>
      (r == "DEMO" <==> Contains(HostLabel(url).value, "demo"))
  {
    match HostLabel(url)
    case None => "UNKNOWN"
    case Some(host) =>
      if Contains(host, "api-") then Upper(ReplaceAll(host, "api-", ""))
      else if Contains(host, "demo") then "DEMO"
      else "UNKNOWN"
  }

  /** A URL without `//` has region `UNKNOWN`. */
  lemma RegionWithoutScheme(url: string)
    requires !Contains(url, "//")
    ensures ExtractRegion(url) == "UNKNOWN"
  {
  }

  /** The first occurrence of `sep` cannot start inside a prefix that lacks its first character. */
  lemma IndexOfNotBefore(p: string, q: string, sep: string)
    requires |sep| > 0 && Avoids(p, sep[0])
    ensures IndexOf(p + q, sep).None? || IndexOf(p + q, sep).value >= |p|
  {
    var r := IndexOf(p + q, sep);
    assert r.Some? ==> (p + q)[r.value] == (p + q)[r.value..r.value + |sep|][0];
    assert forall k :: 0 <= k < |p| ==> (p + q)[k] == p[k];
  }

  /** The second piece of `scheme//after` split on `//` is the first piece of `after`. */
  lemma SecondPiece(scheme: string, after: string)
    requires Avoids(scheme, '/')
    ensures |Split(scheme + "//" + after, "//")| >= 2
    ensures Split(scheme + "//" + after, "//")[1] == Split(after, "//")[0]
  {
    var url := scheme + "//" + after;
    IndexOfAfter(scheme, "//", after);
    SplitSecond(url, "//", |scheme|);
    assert url[|scheme| + 2..] == after;
  }

  /** Splitting on `//` cannot cut into a prefix that has no `/`. */
  lemma FirstPieceKeeps(p: string, rest: string) returns (tail: string)
    requires Avoids(p, '/')
    ensures Split(p + rest, "//")[0] == p + tail
  {
    var after := p + rest;
    SplitHead(after, "//");
    IndexOfNotBefore(p, rest, "//");
    match IndexOf(after, "//")
    case None =>
      tail := rest;
    case Some(k) =>
      tail := after[|p|..k];
      assert after[..k] == p + tail;
  }

  /** The first piece of `host.tail` split on `.` is `host`. */
  lemma FirstDotPiece(host: string, tail: string)
    requires Avoids(host, '.')
    ensures Split(host + "." + tail, ".")[0] == host
  {
    IndexOfAfter(host, ".", tail);
    SplitHead(host + "." + tail, ".");
    assert (host + "." + tail)[..|host|] == host;
  }

  /** The label of `scheme//host.rest` is `host` when neither part can be cut short. */
  lemma {:induction false} HostLabelOf(scheme: string, host: string, rest: string)
    requires Avoids(scheme, '/') && Avoids(host, '/') && Avoids(host, '.')
    ensures HostLabel(scheme + "//" + host + "." + rest) == Some(host)
  {
    var after := host + "." + rest;
    assert scheme + "//" + host + "." + rest == scheme + "//" + after;
    SecondPiece(scheme, after);
    var p := host + ".";
    assert after == p + rest;
    var tail := FirstPieceKeeps(p, rest);
    assert p + tail == host + "." + tail;
    FirstDotPiece(host, tail);
  }

  /** `wss://api-eu.po.market/...` has region `EU`: the label with `api-` removed, upper-cased. */
  lemma {:induction false} RegionOfApiUrl(scheme: string, name: string, rest: string)
    requires Avoids(scheme, '/') && Avoids(name, '/') && Avoids(name, '.') && !Contains(name, "api-")
    ensures ExtractRegion(scheme + "//api-" + name + "." + rest) == Upper(name)
  {
    var host := "api-" + name;
    assert scheme + "//api-" + name + "." + rest == scheme + "//" + host + "." + rest;
    HostLabelOf(scheme, host, rest);
    assert StartsWith(host, "api-");
    assert host[|"api-"|..] == name;
    ReplaceAbsent(name, "api-", "");
  }

  /** A label with `demo` and without `api-` has region `DEMO`. */
  lemma {:induction false} RegionOfDemoUrl(scheme: string, host: string, rest: string)
    requires Avoids(scheme, '/') && Avoids(host, '/') && Avoids(host, '.')
    requires Contains(host, "demo") && !Contains(host, "api-")
    ensures ExtractRegion(scheme + "//" + host + "." + rest) == "DEMO"
  {
    HostLabelOf(scheme, host, rest);
  }

  /** A label with neither `api-` nor `demo` has region `UNKNOWN`. */
  lemma {:induction false} RegionOfOtherUrl(scheme: string, host: string, rest: string)
    requires Avoids(scheme, '/') && Avoids(host, '/') && Avoids(host, '.')
    requires !Contains(host, "demo") && !Contains(host, "api-")
    ensures ExtractRegion(scheme + "//" + host + "." + rest) == "UNKNOWN"
  {
    HostLabelOf(scheme, host, rest);
  }

  // ---------------------------------------------------------------------------------------------
  // The client object
  // ---------------------------------------------------------------------------------------------

  /** `self.websocket`: absent, or a protocol object whose `closed` flag the transport sets. */
  datatype Socket = NoSocket | Live(closed: bool)

  /** The exceptions the client raises: `WebSocketError` from a send, `ConnectionError` from `connect`. */
  datatype WsError = NotConnected | SendFailed | NoEndpoint

  /**
   * What the transport does on one attempt of `connect`: the socket does not open, or it opens
   * and each of the two handshake sends goes out or raises.
   */
  datatype Attempt = Refused | Opened(handshakeDelivered: bool, ssidDelivered: bool) {
    /** The attempt ends in `return True`. */
    predicate Succeeds() { Opened? && handshakeDelivered && ssidDelivered }
  }

  /** The index of the first attempt, among the first `n`, that succeeds. */
  function FirstSuccess(outcome: nat -> Attempt, n: nat): (r: Option<nat>)
    ensures r.Some? ==> r.value < n && outcome(r.value).Succeeds()
    ensures r.Some? ==> forall j :: 0 <= j < r.value ==> !outcome(j).Succeeds()
    ensures r.None? <==> forall j :: 0 <= j < n ==> !outcome(j).Succeeds()
  {
    if n == 0 then None
    else
      match FirstSuccess(outcome, n - 1)
      case Some(i) => Some(i)
      case None => if outcome(n - 1).Succeeds() then Some(n - 1) else None
  }

  /** The first success is the succeeding attempt that every earlier attempt failed before. */
  lemma FirstSuccessIs(outcome: nat -> Attempt, n: nat, i: nat)
    requires i < n && outcome(i).Succeeds()
    requires forall j :: 0 <= j < i ==> !outcome(j).Succeeds()
    ensures FirstSuccess(outcome, n) == Some(i)
  {
    var r := FirstSuccess(outcome, n);
    assert r.Some?;
  }

  /** The frames one attempt puts on the wire: `40`, then the SSID, stopping at the first failed send. */
  function HandshakeSent(a: Attempt, ssid: string): seq<string> {
    match a
    case Refused => []
    case Opened(first, second) => if !first then [] else if !second then ["40"] else ["40", ssid]
  }

  /** The frames the first `n` attempts put on the wire, in order. */
  function SentDuring(outcome: nat -> Attempt, ssid: string, n: nat): seq<string> {
    if n == 0 then [] else SentDuring(outcome, ssid, n - 1) + HandshakeSent(outcome(n - 1), ssid)
  }

  /** The record `connect` stores as soon as a socket to `url` opens. */
  function OpenedInfo(url: string, now: Time, attempts: int): ConnectionInfo {
    ConnectionInfo(url, ExtractRegion(url), Connected, Some(now), None, attempts)
  }

  /** `connection_info` after the first `n` attempts: the record of the last one that opened. */
  function InfoDuring(urls: seq<string>, outcome: nat -> Attempt, now: Time, attempts: int, n: nat,
                      init: Option<ConnectionInfo>): Option<ConnectionInfo>
    requires n <= |urls|
  {
    if n == 0 then init
    else if outcome(n - 1).Opened? then Some(OpenedInfo(urls[n - 1], now, attempts))
    else InfoDuring(urls, outcome, now, attempts, n - 1, init)
  }

  /** Some attempt among the first `n` opened a socket. */
  predicate OpenedAmong(outcome: nat -> Attempt, n: nat) {
    exists j :: 0 <= j < n && outcome(j).Opened?
  }

  /** What attempt `i` adds to the record of the first `i` attempts. */
  lemma AttemptStep(urls: seq<string>, outcome: nat -> Attempt, ssid: string, now: Time, attempts: int,
                    init: Option<ConnectionInfo>, i: nat)
    requires i < |urls| && FirstSuccess(outcome, i).None?
    ensures SentDuring(outcome, ssid, i + 1) == SentDuring(outcome, ssid, i) + HandshakeSent(outcome(i), ssid)
    ensures InfoDuring(urls, outcome, now, attempts, i + 1, init) ==
      if outcome(i).Opened? then Some(OpenedInfo(urls[i], now, attempts)) else InfoDuring(urls, outcome, now, attempts, i, init)
    ensures OpenedAmong(outcome, i + 1) == (OpenedAmong(outcome, i) || outcome(i).Opened?)
    ensures FirstSuccess(outcome, i + 1).None? == !outcome(i).Succeeds()
  {
    assert OpenedAmong(outcome, i + 1) ==> OpenedAmong(outcome, i) || outcome(i).Opened?;
  }

  /** `is_connected`: a socket that is present and not closed, and a record whose status is CONNECTED. */
  predicate ConnectedState(socket: Socket, info: Option<ConnectionInfo>) {
    socket.Live? && !socket.closed && info.Some? && info.value.status == Connected
  }

  /** The frame `_ping_loop` sends. */
  const PING_FRAME: string := "42[\"ps\"]"

  class AsyncWebSocketClient {
    var socket: Socket
    var connectionInfo: Option<ConnectionInfo>
    var running: bool
    var reconnectAttempts: nat
    const maxReconnectAttempts: nat
    var handlers: Table
    /** Every frame that went out, in order. */
    var sent: seq<string>
    /** Every `_emit_event` call, in order, with the handlers it called. */
    var emitted: seq<Emission<JsonValue>>

    /** The reconnect counter never passes its maximum. */
    predicate Valid()
      reads this
    {
      reconnectAttempts <= maxReconnectAttempts
    }

    /** `is_connected`: an open socket whose record says CONNECTED. */
    predicate IsConnected()
      reads this
      ensures IsConnected() <==>
        socket == Live(false) && connectionInfo.Some? && connectionInfo.value.status == Connected
    {
      ConnectedState(socket, connectionInfo)
    }

    /** `__init__`; the maximum is `CONNECTION_SETTINGS['max_reconnect_attempts']`. */
    constructor (maxReconnectAttempts: nat)
      ensures Valid() && !IsConnected()
      ensures socket == NoSocket && connectionInfo == None && !running && reconnectAttempts == 0
      ensures this.maxReconnectAttempts == maxReconnectAttempts
      ensures handlers == map[] && sent == [] && emitted == []
    {
      socket := NoSocket;
      connectionInfo := None;
      running := false;
      reconnectAttempts := 0;
      this.maxReconnectAttempts := maxReconnectAttempts;
      handlers := map[];
      sent := [];
      emitted := [];
    }

    /** `send_message`: refused without an open socket; otherwise `delivered` says whether `send` raised. */
    method SendMessage(message: string, delivered: bool) returns (r: Outcome<WsError>)
      modifies this
      ensures r.Pass? <==> old(socket).Live? && !old(socket).closed && delivered
      ensures r == Fail(NotConnected) <==> !(old(socket).Live? && !old(socket).closed)
      ensures sent == if r.Pass? then old(sent) + [message] else old(sent)
      ensures socket == old(socket) && connectionInfo == old(connectionInfo) && running == old(running)
      ensures reconnectAttempts == old(reconnectAttempts) && handlers == old(handlers) && emitted == old(emitted)
    {
      if !(socket.Live? && !socket.closed) {
        return Fail(NotConnected);
      }
      if !delivered {
        return Fail(SendFailed);
      }
      sent := sent + [message];
      return Pass;
    }

    /**
     * The body of the `try` in `connect` for one URL, up to the counter reset: the socket opens
     * (or not), the record is replaced, and the handshake is sent. On any failure the socket
     * is closed and dropped.
     */
    method TryEndpoint(url: string, ssid: string, now: Time, a: Attempt) returns (ok: bool)
      modifies this
      ensures ok == a.Succeeds()
      ensures socket == if ok then Live(false) else NoSocket
      ensures connectionInfo == if a.Opened? then Some(OpenedInfo(url, now, old(reconnectAttempts))) else old(connectionInfo)
      ensures running == (old(running) || a.Opened?)
      ensures sent == old(sent) + HandshakeSent(a, ssid)
      ensures reconnectAttempts == old(reconnectAttempts) && handlers == old(handlers) && emitted == old(emitted)
    {
      if a.Opened? {
        socket := Live(false);
        connectionInfo := Some(OpenedInfo(url, now, reconnectAttempts));
        running := true;
        var first := SendMessage("40", a.handshakeDelivered);
        if first.Pass? {
          var second := SendMessage(ssid, a.ssidDelivered);
          if second.Pass? {
            return true;
          }
        }
      }
      socket := NoSocket;
      return false;
    }

    /**
     * The `for` loop of `connect`: the URLs are tried in order until an attempt succeeds.
     * `k` is the index of that attempt.
     */
    method TryInOrder(urls: seq<string>, ssid: string, now: Time, outcome: nat -> Attempt) returns (found: bool, k: nat)
      modifies this
      ensures found <==> FirstSuccess(outcome, |urls|).Some?
      ensures found ==>
        && k == FirstSuccess(outcome, |urls|).value
        && socket == Live(false) && running
        && connectionInfo == Some(OpenedInfo(urls[k], now, old(reconnectAttempts)))
        && sent == old(sent) + SentDuring(outcome, ssid, k + 1)
      ensures !found ==>
        && socket == (if |urls| == 0 then old(socket) else NoSocket)
        && connectionInfo == InfoDuring(urls, outcome, now, old(reconnectAttempts), |urls|, old(connectionInfo))
        && running == (old(running) || OpenedAmong(outcome, |urls|))
        && sent == old(sent) + SentDuring(outcome, ssid, |urls|)
      ensures reconnectAttempts == old(reconnectAttempts) && handlers == old(handlers) && emitted == old(emitted)
    {
      var i := 0;
      while i < |urls|
        invariant 0 <= i <= |urls|
        invariant FirstSuccess(outcome, i).None?
        invariant socket == if i == 0 then old(socket) else NoSocket
        invariant reconnectAttempts == old(reconnectAttempts)
        invariant connectionInfo == InfoDuring(urls, outcome, now, old(reconnectAttempts), i, old(connectionInfo))
        invariant running == (old(running) || OpenedAmong(outcome, i))
        invariant sent == old(sent) + SentDuring(outcome, ssid, i)
        invariant handlers == old(handlers) && emitted == old(emitted)
      {
        ghost var before := sent;
        var ok := TryEndpoint(urls[i], ssid, now, outcome(i));
        AttemptStep(urls, outcome, ssid, now, old(reconnectAttempts), old(connectionInfo), i);
        assert sent == old(sent) + SentDuring(outcome, ssid, i + 1) by {
          assert sent == before + HandshakeSent(outcome(i), ssid);
          AppendAssociative(old(sent), SentDuring(outcome, ssid, i), HandshakeSent(outcome(i), ssid));
        }
        if ok {
          FirstSuccessIs(outcome, |urls|, i);
          return true, i;
        }
        i := i + 1;
      }
      return false, 0;
    }

    /**
     * `connect`: the URLs are tried in order. Attempt `i` is `outcome(i)`; every clock reading
     * is `now`. A socket that opens is recorded as CONNECTED with its URL and region and the
     * current counter, after which the handshake is sent; the first attempt whose two sends
     * both go out resets the counter and ends the call. A failed attempt closes and drops the
     * socket. No success at all is the `ConnectionError`.
     */
    method Connect(urls: seq<string>, ssid: string, now: Time, outcome: nat -> Attempt) returns (r: Outcome<WsError>)
      requires Valid()
      modifies this
      ensures Valid()
      ensures r.Pass? <==> FirstSuccess(outcome, |urls|).Some?
      ensures r.Fail? ==> r.error == NoEndpoint
      ensures r.Pass? ==>
        var k := FirstSuccess(outcome, |urls|).value;
        && socket == Live(false) && running && reconnectAttempts == 0
        && connectionInfo == Some(OpenedInfo(urls[k], now, old(reconnectAttempts)))
        && sent == old(sent) + SentDuring(outcome, ssid, k + 1)
      ensures r.Pass? ==> IsConnected()
      ensures r.Fail? ==>
        && socket == (if |urls| == 0 then old(socket) else NoSocket)
        && reconnectAttempts == old(reconnectAttempts)
        && connectionInfo == InfoDuring(urls, outcome, now, old(reconnectAttempts), |urls|, old(connectionInfo))
        && running == (old(running) || OpenedAmong(outcome, |urls|))
        && sent == old(sent) + SentDuring(outcome, ssid, |urls|)
      ensures handlers == old(handlers) && emitted == old(emitted)
    {
      var found, k := TryInOrder(urls, ssid, now, outcome);
      if found {
        reconnectAttempts := 0;
        return Pass;
      }
      return Fail(NoEndpoint);
    }

    /**
     * `disconnect`: the loops stop, the socket is closed and dropped, and the record is replaced
     * by one with status DISCONNECTED. The replacement does not pass `last_ping` on, so it
     * returns to its default.
     */
    method Disconnect()
      modifies this
      ensures !running && socket == NoSocket
      ensures connectionInfo == match old(connectionInfo)
        case None => None
        case Some(c) => Some(c.(status := Disconnected, lastPing := None))
      ensures !IsConnected()
      ensures reconnectAttempts == old(reconnectAttempts) && handlers == old(handlers)
      ensures sent == old(sent) && emitted == old(emitted)
    {
      running := false;
      socket := NoSocket;
      if connectionInfo.Some? {
        var c := connectionInfo.value;
        connectionInfo := Some(ConnectionInfo(c.url, c.region, Disconnected, c.connectedAt, None, c.reconnectAttempts));
      }
    }

    /** `add_event_handler` */
    method AddEventHandler(event: string, h: HandlerId)
      modifies this
      ensures handlers == Added(old(handlers), event, h)
      ensures socket == old(socket) && connectionInfo == old(connectionInfo) && running == old(running)
      ensures reconnectAttempts == old(reconnectAttempts) && sent == old(sent) && emitted == old(emitted)
    {
      handlers := Added(handlers, event, h);
    }

    /** `remove_event_handler` */
    method RemoveEventHandler(event: string, h: HandlerId)
      modifies this
      ensures handlers == Removed(old(handlers), event, h)
      ensures socket == old(socket) && connectionInfo == old(connectionInfo) && running == old(running)
      ensures reconnectAttempts == old(reconnectAttempts) && sent == old(sent) && emitted == old(emitted)
    {
      handlers := Removed(handlers, event, h);
    }

    /** `_emit_event`: every handler registered for `event` is called in order; a raise is logged and skipped. */
    method EmitEvent(event: string, payload: JsonValue, fails: HandlerId -> bool)
      modifies this
      ensures emitted == old(emitted) +
        [Emission(event, payload, HandlersFor(handlers, event), Failing(HandlersFor(handlers, event), fails))]
      ensures socket == old(socket) && connectionInfo == old(connectionInfo) && running == old(running)
      ensures reconnectAttempts == old(reconnectAttempts) && handlers == old(handlers) && sent == old(sent)
    {
      var invoked, failed := Dispatch(HandlersFor(handlers, event), fails);
      emitted := emitted + [Emission(event, payload, invoked, failed)];
    }

    /**
     * `_process_message`: the reply goes out through `send_message` (its exception is
     * swallowed), the event is emitted, or nothing happens.
     */
    method ProcessMessage(m: string, parseArray: string -> Option<seq<JsonValue>>, delivered: bool,
                          fails: HandlerId -> bool)
      modifies this
      ensures match React(m, parseArray)
        case Reply(f) =>
          && sent == (if old(socket).Live? && !old(socket).closed && delivered then old(sent) + [f] else old(sent))
          && emitted == old(emitted)
        case Publish(e, p) =>
          && emitted == old(emitted) + [Emission(e, p, HandlersFor(handlers, e), Failing(HandlersFor(handlers, e), fails))]
          && sent == old(sent)
        case NoAction => sent == old(sent) && emitted == old(emitted)
      ensures m == "2" && IsConnected() && delivered ==> sent == old(sent) + ["3"] && emitted == old(emitted)
      ensures socket == old(socket) && connectionInfo == old(connectionInfo) && running == old(running)
      ensures reconnectAttempts == old(reconnectAttempts) && handlers == old(handlers)
    {
      match React(m, parseArray)
      case Reply(f) =>
        var _ := SendMessage(f, delivered);
      case Publish(e, p) =>
        EmitEvent(e, p, fails);
      case NoAction =>
    }

    /**
     * `_handle_disconnect`: the record gets status DISCONNECTED and keeps every other field,
     * `disconnected` is emitted, and the counter goes up only while it is below the maximum.
     */
    method HandleDisconnect(fails: HandlerId -> bool)
      requires Valid()
      modifies this
      ensures Valid()
      ensures connectionInfo == match old(connectionInfo)
        case None => None
        case Some(c) => Some(c.(status := Disconnected))
      ensures reconnectAttempts ==
        if old(reconnectAttempts) < maxReconnectAttempts then old(reconnectAttempts) + 1 else old(reconnectAttempts)
      ensures emitted == old(emitted) +
        [Emission("disconnected", EMPTY_OBJECT, HandlersFor(handlers, "disconnected"),
                  Failing(HandlersFor(handlers, "disconnected"), fails))]
      ensures !IsConnected()
      ensures socket == old(socket) && running == old(running) && handlers == old(handlers) && sent == old(sent)
    {
      if connectionInfo.Some? {
        var c := connectionInfo.value;
        connectionInfo := Some(ConnectionInfo(c.url, c.region, Disconnected, c.connectedAt, c.lastPing, c.reconnectAttempts));
      }
      EmitEvent("disconnected", EMPTY_OBJECT, fails);
      if reconnectAttempts < maxReconnectAttempts {
        reconnectAttempts := reconnectAttempts + 1;
      }
    }

    /**
     * One pass of `_ping_loop` after its sleep; the answer is whether the loop goes on. The
     * loop runs while the client is running and has a socket; an open socket gets the ping
     * frame, and a ping that went out stamps `last_ping` and changes nothing else of the record.
     * A send that raises ends the loop.
     */
    method PingTick(now: Time, delivered: bool) returns (continues: bool)
      modifies this
      ensures continues <==> old(running) && old(socket).Live? && (old(socket).closed || delivered)
      ensures sent == if old(running) && old(socket).Live? && !old(socket).closed && delivered
                      then old(sent) + [PING_FRAME] else old(sent)
      ensures connectionInfo ==
        if sent != old(sent) && old(connectionInfo).Some?
        then Some(old(connectionInfo).value.(lastPing := Some(now)))
        else old(connectionInfo)
      ensures IsConnected() == old(IsConnected())
      ensures socket == old(socket) && running == old(running)
      ensures reconnectAttempts == old(reconnectAttempts) && handlers == old(handlers) && emitted == old(emitted)
    {
      if !(running && socket.Live?) {
        return false;
      }
      if socket.closed {
        return true;
      }
      var r := SendMessage(PING_FRAME, delivered);
      if r.Fail? {
        return false;
      }
      if connectionInfo.Some? {
        var c := connectionInfo.value;
        connectionInfo := Some(ConnectionInfo(c.url, c.region, c.status, c.connectedAt, Some(now), c.reconnectAttempts));
      }
      return true;
    }
  }
}
