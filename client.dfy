/**
 * `AsyncPocketOptionClient` of `client.py`: how the constructor reads an SSID, the auth frame
 * it sends on connect, the URLs it tries, the order validator, and the order tracker and
 * callback registry it keeps. The WebSocket client below it is an oracle (whether it reports
 * itself connected, whether a send goes out); every frame that goes out is appended to `sent`.
 */
module Client {
  import opened Wrappers
  import opened Text
  import opened Json
  import opened Handlers
  import opened Constants
  import opened Models

  // ---------------------------------------------------------------------------------------------
  // Session descriptor
  // ---------------------------------------------------------------------------------------------

  /**
   * `_complete_ssid`: never assigned (a prefixed SSID without the closing `]`), assigned `None`,
   * or holding the complete auth frame.
   */
  datatype SsidSlot = Unset | NoSsid | Complete(frame: string)

  /**
   * The session fields `__init__` leaves on the client. `sessionId` is `None` while still
   * unassigned; `uid`, `platform` and `isFastHistory` hold whatever the auth frame's JSON had.
   */
  datatype Identity = Identity(
    rawSsid: string,
    sessionId: Option<JsonValue>,
    isDemo: bool,
    uid: JsonValue,
    platform: JsonValue,
    isFastHistory: JsonValue,
    completeSsid: SsidSlot)

  /**
   * What escapes `__init__` from `_parse_complete_ssid`: `auth_data.get` on a JSON value that
   * is not an object (AttributeError), and the log line slicing a session that is neither a
   * string nor a list (TypeError). Neither is among the exceptions it catches.
   */
  datatype SsidError = NotAnObject | SessionNotSliceable

  /** The JSON text between the prefix and the final `]`: `ssid[10:-1]`. */
  function AuthPayload(ssid: string): string
    requires StartsWith(ssid, AUTH_PREFIX) && EndsWith(ssid, "]")
  {
    assert |ssid| > |AUTH_PREFIX| by {
      assert ssid[|AUTH_PREFIX| - 1] == AUTH_PREFIX[|AUTH_PREFIX| - 1] == ',';
      assert ssid[|ssid| - 1] == ']';
    }
    ssid[|AUTH_PREFIX|..|ssid| - 1]
  }

  /**
   * `_parse_complete_ssid(ssid)` applied to the fields `id` has so far; `parse` is `json.loads`,
   * `None` standing for its `JSONDecodeError`. A frame that parses to an object sets the
   * session fields from it, each with its default, and keeps the frame; one that does not
   * parse falls back to the raw session; one that is not a complete frame sets nothing.
   */
  function ParseCompleteSsid(ssid: string, id: Identity, parse: string -> Option<JsonValue>): (r: Result<Identity, SsidError>)
    ensures !(StartsWith(ssid, AUTH_PREFIX) && EndsWith(ssid, "]")) ==> r == Success(id)
    ensures r.Success? ==> r.value.rawSsid == id.rawSsid
    ensures StartsWith(ssid, AUTH_PREFIX) && EndsWith(ssid, "]") ==>
      (r.Success? <==> IsCompleteFrame(ssid, parse) || parse(AuthPayload(ssid)).None?)
    ensures IsCompleteFrame(ssid, parse) ==> r.Success? && r.value.completeSsid == Complete(ssid)
    ensures r == Failure(NotAnObject) <==>
      StartsWith(ssid, AUTH_PREFIX) && EndsWith(ssid, "]") &&
      parse(AuthPayload(ssid)).Some? && !parse(AuthPayload(ssid)).value.JObj?
  {
    if !(StartsWith(ssid, AUTH_PREFIX) && EndsWith(ssid, "]")) then Success(id)
    else
      match parse(AuthPayload(ssid))
      case None => Success(id.(sessionId := Some(JStr(ssid)), completeSsid := NoSsid))
      case Some(j) =>
        if !j.JObj? then Failure(NotAnObject)
        else
          var session := Get(j.fields, "session", JStr(""));
          if !(session.JStr? || session.JArr?) then Failure(SessionNotSliceable)
          else
            Success(id.(
              sessionId := Some(session),
              isDemo := Truthy(Get(j.fields, "isDemo", JNum(1.0))),
              uid := Get(j.fields, "uid", JNum(0.0)),
              platform := Get(j.fields, "platform", JNum(1.0)),
              isFastHistory := Get(j.fields, "isFastHistory", JBool(true)),
              completeSsid := Complete(ssid)))
  }

  /**
   * The SSID branch of `__init__`: the keyword arguments are stored, then a prefixed SSID is
   * parsed and any other is the raw session.
   */
  function InitIdentity(ssid: string, isDemo: bool, uid: int, platform: int, isFastHistory: bool,
                        parse: string -> Option<JsonValue>): (r: Result<Identity, SsidError>)
    ensures r.Failure? ==> StartsWith(ssid, AUTH_PREFIX) && EndsWith(ssid, "]")
    ensures r.Success? ==> r.value.rawSsid == ssid
    ensures r.Success? ==> (r.value.sessionId.None? <==> r.value.completeSsid == Unset)
    ensures r.Success? && r.value.completeSsid == Unset <==> StartsWith(ssid, AUTH_PREFIX) && !EndsWith(ssid, "]")
  {
    var stored := Identity(ssid, None, isDemo, JNum(uid as real), JNum(platform as real), JBool(isFastHistory), Unset);
    if StartsWith(ssid, AUTH_PREFIX) then ParseCompleteSsid(ssid, stored, parse)
    else Success(stored.(sessionId := Some(JStr(ssid)), completeSsid := NoSsid))
  }

  /** `auth_data["isFastHistory"] = True` on the raw SSID, a `str`: the TypeError it raises. */
  datatype FormatError = StringItemAssignment

  /**
   * `_format_session_message`; `dumps` is `json.dumps`. A kept complete frame is returned as it
   * is. Otherwise the raw SSID string is indexed as if it were a dict, which raises whenever
   * `is_fast_history` is truthy.
   */
  function FormatSessionMessage(id: Identity, dumps: JsonValue -> string): (r: Result<string, FormatError>)
    ensures r.Success? <==> (id.completeSsid.Complete? && id.completeSsid.frame != "") || !Truthy(id.isFastHistory)
    ensures id.completeSsid.Complete? && id.completeSsid.frame != "" ==> r == Success(id.completeSsid.frame)
    ensures r.Success? && !(id.completeSsid.Complete? && id.completeSsid.frame != "") ==>
      StartsWith(r.value, AUTH_PREFIX) && EndsWith(r.value, "]")
  {
    if id.completeSsid.Complete? && id.completeSsid.frame != "" then Success(id.completeSsid.frame)
    else if Truthy(id.isFastHistory) then Failure(StringItemAssignment)
    else Success(AUTH_PREFIX + dumps(JStr(id.rawSsid)) + "]")
  }

  /** A complete auth frame whose JSON is an object with a sliceable session. */
  predicate IsCompleteFrame(ssid: string, parse: string -> Option<JsonValue>) {
    && StartsWith(ssid, AUTH_PREFIX) && EndsWith(ssid, "]")
    && parse(AuthPayload(ssid)).Some? && parse(AuthPayload(ssid)).value.JObj?
    && var session := Get(parse(AuthPayload(ssid)).value.fields, "session", JStr(""));
       session.JStr? || session.JArr?
  }

  /**
   * Re-authentication is byte-identical: a complete auth frame given to the constructor is
   * kept, and the frame sent on connect is exactly that string, whatever the other arguments.
   */
  lemma {:induction false} CompleteFrameReplayed(ssid: string, isDemo: bool, uid: int, platform: int, isFastHistory: bool,
                                                 parse: string -> Option<JsonValue>, dumps: JsonValue -> string)
    requires IsCompleteFrame(ssid, parse)
    ensures InitIdentity(ssid, isDemo, uid, platform, isFastHistory, parse).Success?
    ensures InitIdentity(ssid, isDemo, uid, platform, isFastHistory, parse).value.completeSsid == Complete(ssid)
    ensures FormatSessionMessage(InitIdentity(ssid, isDemo, uid, platform, isFastHistory, parse).value, dumps) == Success(ssid)
  {
    assert ssid != "" by { assert |ssid| >= |AUTH_PREFIX|; }
  }

  /**
   * The session fields of a complete frame come from its JSON object, each key on its own: a
   * key that is present gives its value, an absent one its default. The keyword arguments of
   * the constructor are overridden either way.
   */
  lemma {:induction false} ParsedDefaults(ssid: string, isDemo: bool, uid: int, platform: int, isFastHistory: bool,
                                          parse: string -> Option<JsonValue>, f: map<string, JsonValue>)
    requires StartsWith(ssid, AUTH_PREFIX) && EndsWith(ssid, "]")
    requires parse(AuthPayload(ssid)) == Some(JObj(f))
    requires "session" !in f || f["session"].JStr? || f["session"].JArr?
    ensures InitIdentity(ssid, isDemo, uid, platform, isFastHistory, parse).Success?
    ensures var id := InitIdentity(ssid, isDemo, uid, platform, isFastHistory, parse).value;
      && id.rawSsid == ssid
      && id.completeSsid == Complete(ssid)
      && id.sessionId == Some(if "session" in f then f["session"] else JStr(""))
      && id.isDemo == ("isDemo" !in f || Truthy(f["isDemo"]))
      && id.uid == (if "uid" in f then f["uid"] else JNum(0.0))
      && id.platform == (if "platform" in f then f["platform"] else JNum(1.0))
      && id.isFastHistory == (if "isFastHistory" in f then f["isFastHistory"] else JBool(true))
  {
  }

  /**
   * An SSID without the prefix, or a complete frame whose JSON does not parse, is the raw
   * session: the session is the whole string and no complete frame is kept.
   */
  lemma {:induction false} RawSessionFallback(ssid: string, isDemo: bool, uid: int, platform: int, isFastHistory: bool,
                                              parse: string -> Option<JsonValue>)
    requires !StartsWith(ssid, AUTH_PREFIX) || (EndsWith(ssid, "]") && parse(AuthPayload(ssid)).None?)
    ensures InitIdentity(ssid, isDemo, uid, platform, isFastHistory, parse) ==
      Success(Identity(ssid, Some(JStr(ssid)), isDemo, JNum(uid as real), JNum(platform as real), JBool(isFastHistory), NoSsid))
  {
  }

  /** With the default `is_fast_history=True`, a raw session cannot be formatted: the raw branch always raises. */
  lemma {:induction false} RawSessionNotFormattable(ssid: string, isDemo: bool, uid: int, platform: int,
                                                    parse: string -> Option<JsonValue>, dumps: JsonValue -> string)
    requires !StartsWith(ssid, AUTH_PREFIX)
    ensures FormatSessionMessage(InitIdentity(ssid, isDemo, uid, platform, true, parse).value, dumps) ==
      Failure(StringItemAssignment)
  {
  }

  // ---------------------------------------------------------------------------------------------
  // Connection URLs
  // ---------------------------------------------------------------------------------------------

  /** `[REGIONS.get_region(r) for r in regions if REGIONS.get_region(r)]` */
  function NamedUrls(names: seq<string>, table: RegionTable): (urls: seq<string>)
    ensures |urls| <= |names|
  {
    if |names| == 0 then []
    else
      NamedUrls(names[..|names| - 1], table)
        + (if HasUrl(table, names[|names| - 1]) then [table.getRegion(names[|names| - 1]).value] else [])
  }

  /**
   * The selection keeps the order of the names: the URLs of a concatenation of name lists are
   * the URLs of the first list followed by those of the second.
   */
  lemma {:induction false} NamedUrlsAppend(a: seq<string>, b: seq<string>, table: RegionTable)
    ensures NamedUrls(a + b, table) == NamedUrls(a, table) + NamedUrls(b, table)
    decreases |b|
  {
    if |b| == 0 {
      assert a + b == a;
    } else {
      var init := b[..|b| - 1];
      assert (a + b)[..|a + b| - 1] == a + init;
      assert (a + b)[|a + b| - 1] == b[|b| - 1];
      NamedUrlsAppend(a, init, table);
    }
  }

  /** A URL is selected exactly when it is the non-empty URL of one of the named regions. */
  lemma {:induction false} NamedUrlsMembers(names: seq<string>, table: RegionTable, u: string)
    ensures u in NamedUrls(names, table) <==>
      exists i :: 0 <= i < |names| && HasUrl(table, names[i]) && table.getRegion(names[i]).value == u
  {
    if |names| > 0 {
      var init := names[..|names| - 1];
      NamedUrlsMembers(init, table, u);
      assert forall i :: 0 <= i < |init| ==> init[i] == names[i];
    }
  }

  /** Every selected URL comes from a named region that has one. */
  lemma NamedUrlsSound(names: seq<string>, table: RegionTable)
    ensures forall u :: u in NamedUrls(names, table) ==>
      exists i :: 0 <= i < |names| && HasUrl(table, names[i]) && table.getRegion(names[i]).value == u
  {
    forall u | u in NamedUrls(names, table)
      ensures exists i :: 0 <= i < |names| && HasUrl(table, names[i]) && table.getRegion(names[i]).value == u
    {
      NamedUrlsMembers(names, table, u);
    }
  }

  /** A region list with no URL at all raises `ConnectionError("No valid WebSocket URLs available")`. */
  datatype UrlError = NoValidUrls

  /** The URL selection of `_start_regular_connection`: the named regions, or the account's default list. */
  function RegularConnectionUrls(regions: seq<string>, isDemo: bool, table: RegionTable): (r: Result<seq<string>, UrlError>)
    ensures r.Success? ==> r.value != []
    ensures regions == [] ==> (r.Success? <==> (if isDemo then table.demoUrls else table.allUrls) != [])
    ensures regions == [] && r.Success? ==> r.value == if isDemo then table.demoUrls else table.allUrls
    ensures regions != [] ==> (r.Success? <==> NamedUrls(regions, table) != [])
    ensures regions != [] && r.Success? ==> r.value == NamedUrls(regions, table)
    ensures regions != [] && r.Success? ==> forall u :: u in r.value ==>
      exists i :: 0 <= i < |regions| && HasUrl(table, regions[i]) && table.getRegion(regions[i]).value == u
  {
    var urls := if regions != [] then NamedUrls(regions, table) else if isDemo then table.demoUrls else table.allUrls;
    NamedUrlsSound(regions, table);
    if urls == [] then Failure(NoValidUrls) else Success(urls)
  }

  // ---------------------------------------------------------------------------------------------
  // Orders
  // ---------------------------------------------------------------------------------------------

  /** The three checks of `_validate_order_parameters`, each raising `InvalidParameterError`. */
  datatype ParamError = InvalidAsset | AmountOutOfRange | DurationOutOfRange

  /**
   * `_validate_order_parameters`; `assets` is the key set of `ASSETS` and `limits` is
   * `API_LIMITS`. The bounds are inclusive and the checks run in the order asset, amount,
   * duration, the first failure raising. The direction is not checked.
   */
  function ValidateOrderParameters(asset: string, amount: real, direction: OrderDirection, duration: int,
                                   assets: set<string>, limits: ApiLimits): (r: Outcome<ParamError>)
    ensures r.Pass? <==>
      && asset in assets
      && limits.minOrderAmount <= amount <= limits.maxOrderAmount
      && limits.minDuration <= duration <= limits.maxDuration
    ensures r == Fail(InvalidAsset) <==> asset !in assets
    ensures r == Fail(AmountOutOfRange) <==>
      asset in assets && !(limits.minOrderAmount <= amount <= limits.maxOrderAmount)
    ensures r == Fail(DurationOutOfRange) <==>
      && asset in assets && limits.minOrderAmount <= amount <= limits.maxOrderAmount
      && !(limits.minDuration <= duration <= limits.maxDuration)
  {
    if asset !in assets then Fail(InvalidAsset)
    else if amount < limits.minOrderAmount || amount > limits.maxOrderAmount then Fail(AmountOutOfRange)
    else if duration < limits.minDuration || duration > limits.maxDuration then Fail(DurationOutOfRange)
    else Pass
  }

  /**
   * Once the validator has passed, building the `Order` cannot fail either, as long as the
   * limits themselves respect the model's own bounds.
   */
  lemma ValidatedOrderBuilds(asset: string, amount: real, direction: OrderDirection, duration: int,
                             assets: set<string>, limits: ApiLimits, freshId: string)
    requires limits.minOrderAmount > 0.0 && limits.minDuration >= MIN_ORDER_DURATION
    requires ValidateOrderParameters(asset, amount, direction, duration, assets, limits).Pass?
    ensures MakeOrder(asset, amount, direction, duration, freshId) ==
      Success(Order(asset, amount, direction, duration, Some(freshId)))
  {
  }

  /** The `order_data` dict of `_send_order`. */
  function OrderData(order: Order, isDemo: bool): JsonValue {
    JObj(map[
      "asset" := JStr(order.asset),
      "amount" := JNum(order.amount),
      "action" := JStr(order.direction.Value()),
      "isDemo" := JNum(if isDemo then 1.0 else 0.0),
      "requestId" := (match order.requestId case Some(id) => JStr(id) case None => JNull),
      "optionType" := JNum(100.0),
      "time" := JNum(order.duration as real)
    ])
  }

  /** The text before the order's JSON in an `openOrder` frame. */
  const OPEN_ORDER_PREFIX: string := "42[\"openOrder\","

  /** The frame `_send_order` sends: the order's JSON wrapped as an `openOrder` event. */
  function OrderMessage(order: Order, isDemo: bool, dumps: JsonValue -> string): (m: string)
    ensures StartsWith(m, OPEN_ORDER_PREFIX) && EndsWith(m, "]")
    ensures |OPEN_ORDER_PREFIX| < |m| && m[|OPEN_ORDER_PREFIX|..|m| - 1] == dumps(OrderData(order, isDemo))
  {
    OPEN_ORDER_PREFIX + dumps(OrderData(order, isDemo)) + "]"
  }

  /** What `place_order` raises. */
  datatype PlaceError =
    | InvalidParameter(param: ParamError)   // from the validator
    | NotConnected                           // `ConnectionError`
    | InvalidOrder(errors: seq<OrderError>)  // the `Order` model's ValidationError
    | OrderFailed                            // `OrderError`: the send raised or no result arrived

  /** `float(x)` on the JSON values the result model accepts for a number. */
  function AsReal(j: JsonValue): Option<real> {
    match j
    case JNum(n) => Some(n)
    case JBool(b) => Some(if b then 1.0 else 0.0)
    case _ => None
  }

  /** What `_on_order_closed` raises: `profit > 0` on a non-number, or a payout the result model rejects. */
  datatype CloseError = ProfitNotComparable | PayoutNotNumeric

  /** `data.get('profit', 0)` as the number the `> 0` test compares. */
  function ReadProfit(data: map<string, JsonValue>): (r: Result<real, CloseError>)
    ensures "profit" !in data ==> r == Success(0.0)
    ensures "profit" in data ==> (r.Success? <==> AsReal(data["profit"]).Some?)
  {
    match AsReal(Get(data, "profit", JNum(0.0)))
    case Some(p) => Success(p)
    case None => Failure(ProfitNotComparable)
  }

  /** `data.get('payout')` as the optional number the result model stores. */
  function ReadPayout(data: map<string, JsonValue>): (r: Result<Option<real>, CloseError>)
    ensures "payout" !in data || data["payout"] == JNull ==> r == Success(None)
    ensures "payout" in data && data["payout"] != JNull ==>
      (r.Success? <==> AsReal(data["payout"]).Some?) && (r.Success? ==> r.value == AsReal(data["payout"]))
  {
    if "payout" !in data || data["payout"] == JNull then Success(None)
    else
      match AsReal(data["payout"])
      case Some(p) => Success(Some(p))
      case None => Failure(PayoutNotNumeric)
  }

  /**
   * The result `_on_order_closed` records: the active record's identity and terms, WIN exactly
   * when the profit is positive and LOSE otherwise, with the profit and payout of the event.
   */
  function ClosedResult(active: OrderResult, profit: real, payout: Option<real>): (r: OrderResult)
    ensures r.status == Win <==> profit > 0.0
    ensures r.status == Lose <==> profit <= 0.0
    ensures r.orderId == active.orderId && r.asset == active.asset && r.amount == active.amount
    ensures r.direction == active.direction && r.duration == active.duration
    ensures r.placedAt == active.placedAt && r.expiresAt == active.expiresAt
    ensures r.profit == Some(profit) && r.payout == payout && r.errorMessage == None
  {
    OrderResult(active.orderId, active.asset, active.amount, active.direction, active.duration,
                if profit > 0.0 then Win else Lose, active.placedAt, active.expiresAt,
                Some(profit), payout, None)
  }

  /** A payload of `_emit_event`: event data as received, or the result of a closed order. */
  datatype Payload = Data(json: JsonValue) | ClosedOrder(result: OrderResult)

  class AsyncPocketOptionClient {
    const identity: Identity
    /** `_orders`: created by `__init__` and never used. */
    var orders: map<string, OrderResult>
    /** `_active_orders`, by order id. */
    var activeOrders: map<string, OrderResult>
    /** `_order_results`, by the key it was stored under. */
    var orderResults: map<string, OrderResult>
    var callbacks: Table
    /** Every `_emit_event` call, in order. */
    var emitted: seq<Emission<Payload>>
    /** Every frame that went out, in order. */
    var sent: seq<string>

    /**
     * What holds in every state the client's own operations reach: results are only ever
     * recorded as WIN or LOSE, so `place_order` never finds an ACTIVE one to track, and the
     * active map stays empty.
     */
    predicate Reachable()
      reads this
    {
      && activeOrders == map[]
      && forall k :: k in orderResults ==> orderResults[k].status == Win || orderResults[k].status == Lose
    }

    /**
     * The rest of `__init__`, for the identity `InitIdentity` gave. The active and result maps,
     * which the constructor never creates, start empty.
     */
    constructor (identity: Identity)
      ensures this.identity == identity
      ensures orders == map[] && activeOrders == map[] && orderResults == map[]
      ensures callbacks == map[] && emitted == [] && sent == []
      ensures Reachable()
    {
      this.identity := identity;
      orders := map[];
      activeOrders := map[];
      orderResults := map[];
      callbacks := map[];
      emitted := [];
      sent := [];
    }

    /** `add_event_callback` */
    method AddEventCallback(event: string, h: HandlerId)
      modifies this
      ensures callbacks == Added(old(callbacks), event, h)
      ensures orders == old(orders) && activeOrders == old(activeOrders) && orderResults == old(orderResults)
      ensures emitted == old(emitted) && sent == old(sent)
    {
      callbacks := Added(callbacks, event, h);
    }

    /** `remove_event_callback` */
    method RemoveEventCallback(event: string, h: HandlerId)
      modifies this
      ensures callbacks == Removed(old(callbacks), event, h)
      ensures orders == old(orders) && activeOrders == old(activeOrders) && orderResults == old(orderResults)
      ensures emitted == old(emitted) && sent == old(sent)
    {
      callbacks := Removed(callbacks, event, h);
    }

    /** `_emit_event`: the callbacks of `event` in registration order, each raise logged and skipped. */
    method EmitEvent(event: string, payload: Payload, fails: HandlerId -> bool)
      modifies this
      ensures emitted == old(emitted) +
        [Emission(event, payload, HandlersFor(callbacks, event), Failing(HandlersFor(callbacks, event), fails))]
      ensures orders == old(orders) && activeOrders == old(activeOrders) && orderResults == old(orderResults)
      ensures callbacks == old(callbacks) && sent == old(sent)
    {
      var invoked, failed := Dispatch(HandlersFor(callbacks, event), fails);
      emitted := emitted + [Emission(event, payload, invoked, failed)];
    }

    /** `check_order_result`: a lookup in the result map only. */
    function CheckOrderResult(orderId: string): (r: Option<OrderResult>)
      reads this
      ensures r.Some? <==> orderId in orderResults
      ensures r.Some? ==> r.value == orderResults[orderId]
    {
      if orderId in orderResults then Some(orderResults[orderId]) else None
    }

    /**
     * `get_active_orders`: every active record, each once. `keys` is the order the dict
     * happens to list them in.
     */
    method GetActiveOrders() returns (r: seq<OrderResult>, ghost keys: seq<string>)
      ensures |r| == |keys| == |activeOrders|
      ensures forall i :: 0 <= i < |keys| ==> keys[i] in activeOrders && r[i] == activeOrders[keys[i]]
      ensures forall k :: k in activeOrders ==> k in keys
      ensures forall i, j :: 0 <= i < j < |keys| ==> keys[i] != keys[j]
    {
      r, keys := [], [];
      var rest := activeOrders.Keys;
      while rest != {}
        invariant rest <= activeOrders.Keys
        invariant |r| == |keys| && |keys| + |rest| == |activeOrders|
        invariant forall i :: 0 <= i < |keys| ==> keys[i] in activeOrders && keys[i] !in rest && r[i] == activeOrders[keys[i]]
        invariant forall k :: k in activeOrders ==> k in keys || k in rest
        invariant forall i, j :: 0 <= i < j < |keys| ==> keys[i] != keys[j]
        decreases |rest|
      {
        var k :| k in rest;
        r, keys := r + [activeOrders[k]], keys + [k];
        rest := rest - {k};
      }
    }

    /**
     * `place_order`. `connected` is `is_connected`, `freshId` the uuid the `Order` gets,
     * `delivered` whether the WebSocket send went out, and `dumps` is `json.dumps`. The
     * result wait is one lookup of the request id in the result map.
     */
    method PlaceOrder(asset: string, amount: real, direction: OrderDirection, duration: int,
                      assets: set<string>, limits: ApiLimits, connected: bool, freshId: string,
                      delivered: bool, dumps: JsonValue -> string)
      returns (r: Result<OrderResult, PlaceError>)
      modifies this
      ensures
        var check := ValidateOrderParameters(asset, amount, direction, duration, assets, limits);
        var order := MakeOrder(asset, amount, direction, duration, freshId);
        && (check.Fail? ==> r == Failure(InvalidParameter(check.error)) && sent == old(sent))
        && (check.Pass? && !connected ==> r == Failure(NotConnected) && sent == old(sent))
        && (check.Pass? && connected && order.Failure? ==> r == Failure(InvalidOrder(order.error)) && sent == old(sent))
        && (check.Pass? && connected && order.Success? ==>
              && sent == (if delivered then old(sent) + [OrderMessage(order.value, identity.isDemo, dumps)] else old(sent))
              && r == (if delivered && freshId in orderResults then Success(orderResults[freshId]) else Failure(OrderFailed)))
      ensures sent != old(sent) ==>
        ValidateOrderParameters(asset, amount, direction, duration, assets, limits).Pass? && connected
      ensures activeOrders == if r.Success? && r.value.status == Active
                              then old(activeOrders)[r.value.orderId := r.value] else old(activeOrders)
      ensures old(Reachable()) ==> Reachable()
      ensures orders == old(orders) && orderResults == old(orderResults)
      ensures callbacks == old(callbacks) && emitted == old(emitted)
    {
      var check := ValidateOrderParameters(asset, amount, direction, duration, assets, limits);
      if check.Fail? {
        return Failure(InvalidParameter(check.error));
      }
      if !connected {
        return Failure(NotConnected);
      }
      var order := MakeOrder(asset, amount, direction, duration, freshId);
      if order.Failure? {
        return Failure(InvalidOrder(order.error));
      }
      if !delivered {
        return Failure(OrderFailed);
      }
      sent := sent + [OrderMessage(order.value, identity.isDemo, dumps)];
      if freshId !in orderResults {
        return Failure(OrderFailed);
      }
      var result := orderResults[freshId];
      if result.status == Active {
        activeOrders := activeOrders[result.orderId := result];
      }
      return Success(result);
    }

    /**
     * `_on_order_closed`; `toStr` is `str()` on the event's `id`. An id that names an active
     * record moves it to the result map under that key, with the outcome the profit decides,
     * and emits `order_closed`. Anything else leaves both maps and the event log alone.
     */
    method OnOrderClosed(data: map<string, JsonValue>, toStr: JsonValue -> string, fails: HandlerId -> bool)
      returns (r: Outcome<CloseError>)
      modifies this
      ensures !("id" in data && toStr(data["id"]) in old(activeOrders)) ==>
        && r == Pass && activeOrders == old(activeOrders) && orderResults == old(orderResults) && emitted == old(emitted)
      ensures "id" in data && toStr(data["id"]) in old(activeOrders) ==>
        var key := toStr(data["id"]);
        var profit, payout := ReadProfit(data), ReadPayout(data);
        if profit.Failure? || payout.Failure? then
          && r == Fail(if profit.Failure? then profit.error else payout.error)
          && activeOrders == old(activeOrders) && orderResults == old(orderResults) && emitted == old(emitted)
        else
          var result := ClosedResult(old(activeOrders)[key], profit.value, payout.value);
          && r == Pass
          && orderResults == old(orderResults)[key := result]
          && activeOrders == old(activeOrders) - {key}
          && emitted == old(emitted) +
               [Emission("order_closed", ClosedOrder(result), HandlersFor(callbacks, "order_closed"),
                         Failing(HandlersFor(callbacks, "order_closed"), fails))]
      ensures old(Reachable()) ==> activeOrders == old(activeOrders) && orderResults == old(orderResults) && Reachable()
      ensures orders == old(orders) && callbacks == old(callbacks) && sent == old(sent)
    {
      if "id" !in data {
        return Pass;
      }
      var key := toStr(data["id"]);
      if key !in activeOrders {
        return Pass;
      }
      var active := activeOrders[key];
      var profit := ReadProfit(data);
      if profit.Failure? {
        return Fail(profit.error);
      }
      var payout := ReadPayout(data);
      if payout.Failure? {
        return Fail(payout.error);
      }
      var result := ClosedResult(active, profit.value, payout.value);
      orderResults := orderResults[key := result];
      activeOrders := activeOrders - {key};
      EmitEvent("order_closed", ClosedOrder(result), fails);
      return Pass;
    }
  }

  /** `check_order_result` does not see an order that is still active and has no result. */
  lemma ActiveOrderNotChecked(c: AsyncPocketOptionClient, orderId: string)
    requires orderId in c.activeOrders && orderId !in c.orderResults
    ensures c.CheckOrderResult(orderId) == None
  {
  }
}
