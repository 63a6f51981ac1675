# PocketOption async client: a Dafny model of its protocol bookkeeping

This project models the client-side bookkeeping of the `pocketoptionapi_async` package, a Python
client for the PocketOption trading WebSocket API, and proves properties of that model. Four parts
are modelled:

- **`AsyncWebSocketClient`** (module `WebSocket`). This covers:
  - the classifier that sorts inbound text frames by prefix: Engine.IO v4 open `0`, ping `2` and
    pong `3`, plus Socket.IO v5 `40` CONNECT, `42` EVENT and `451-` BINARY_EVENT;
  - the lookup table that routes server event names to internal events;
  - the region label taken from an endpoint URL;
  - the endpoint-fallback loop of `connect`;
  - the `ConnectionInfo` replacements made by `disconnect`, `_handle_disconnect` and the ping loop;
  - the reconnect counter, capped at its maximum.
- **`ConnectionKeepAlive`** (module `KeepAlive`). This covers:
  - its auth-frame template;
  - its demo and live region filters;
  - its region loop;
  - one tick of the reconnection monitor and one tick of the ping loop;
  - its message counters and its handler registry.
- **`AsyncPocketOptionClient`** (module `Client`). This covers:
  - how the constructor reads an SSID, and how the auth frame is formatted from it;
  - the URL choice of a regular connection;
  - the order-parameter validator;
  - `place_order`'s order of checks;
  - the order tracker (`_on_order_closed`, `check_order_result`, `get_active_orders`);
  - its callback registry.
- **The pydantic models** (module `Models`): the enums and the validated records.

Shared helpers:
- `Handlers`: the handler-list pattern that all three classes repeat.
- `Text`: Python's `startswith`, `in`, `split`, `replace` and `upper` on strings.
- `Json`: JSON values, Python truthiness and `dict.get`.
- `Constants`: the injected `REGIONS`, `ASSETS` and `API_LIMITS` tables.
- `Wrappers`: `Option`, `Result` and `Outcome`.
- `Logs`: the one sequence fact the operation logs need.

Anything outside the model is a parameter of the operation that needs it:
- The transport: whether a socket opens, whether each send goes out, and whether the WebSocket
  client reports itself connected.
- The clock.
- `uuid4`.
- `json.loads` and `json.dumps`.
- Whether a registered handler raises.

Each class keeps every frame it sends (`sent`) and every event it emits (`emitted`/`triggered`) as
a log. The contracts are stated over these logs.

Where the code does something its names or docstrings do not lead one to expect, the model follows
the code:

- The docstring of `check_order_result` (`pocketoptionapi_async/client.py:432-440`) promises the result of a specific
  order. The code consults only `_order_results`, so an order that is still open is reported as not
  found; `ActiveOrderNotChecked` states this.
- `_active_orders` and `_order_results` are never created by `__init__`, which creates an unused
  `_orders` map. The model gives the client both maps, starting empty.
- `_wait_for_order_result` looks results up by the order's request id. `_on_order_closed` stores
  them under the server's order id.
- Results are only ever stored as WIN or LOSE. So `place_order` never finds an ACTIVE result to
  track, and the active map stays empty in every state the client's own operations reach.
  `AsyncPocketOptionClient.Reachable` is this invariant: the constructor establishes it, and
  `PlaceOrder` and `OnOrderClosed` preserve it.
- The live-account region filter of the keep-alive manager tests the region NAME for `DEMO`. The
  demo filter tests URL membership in the demo list.
- The raw-session branch of `_format_session_message` assigns an item on a `str`. It raises
  whenever `is_fast_history` is truthy, which is the default (`RawSessionNotFormattable`).

## Model

| member | source | states |
|---|---|---|
| Models.ParseOrderDirection | pocketoptionapi_async/models.py:11-14 | `OrderDirection(v)` yields exactly the member whose value is `v`, and nothing for any other string |
| Models.ParseOrderStatus | pocketoptionapi_async/models.py:15-21 | `OrderStatus(v)` yields exactly the member whose value is `v`, and nothing for any other string |
| Models.OrderDirectionMembers | pocketoptionapi_async/models.py:11-14 | OrderDirection has exactly two members, valued "call" and "put" |
| Models.OrderStatusMembers | pocketoptionapi_async/models.py:15-21 | OrderStatus has exactly six members, with pairwise distinct values |
| Models.NewBalance | pocketoptionapi_async/models.py:40-48 | a Balance built from an amount has currency "USD", is_demo true and the current time |
| Models.MakeCandle | pocketoptionapi_async/models.py:50-74 | construction fails exactly when high < low, and then with the `low` validator's error only (the `high` validator never sees `low`); otherwise the record holds the given fields |
| Models.MakeOrder | pocketoptionapi_async/models.py:76-94 | construction fails exactly when amount <= 0 or duration < 5, reporting each failed check and no other; a valid order carries the fresh request id and the given fields |
| Models.NewConnectionInfo | pocketoptionapi_async/models.py:123-133 | connected_at and last_ping default to None and reconnect_attempts to 0 |
| Handlers.Added | pocketoptionapi_async/client.py:452-462 | appending adds `h` at the end of the event's list, duplicates included, and leaves every other event's list alone |
| Handlers.Removed | pocketoptionapi_async/client.py:464-476 | removal takes out the first equal entry of that event's list only, and nothing when absent; no event is added or dropped |
| Handlers.RemoveFirst | pocketoptionapi_async/client.py:472-476 | `list.remove` drops exactly the entry at the first index holding `h`, and is the identity when `h` is absent |
| Handlers.RemoveFirstCount | pocketoptionapi_async/client.py:472-476 | removal takes exactly one copy of the handler out of the list's multiset, or none if it is absent |
| Handlers.AddThenRemove | pocketoptionapi_async/client.py:452-476 | adding a handler that was not registered and then removing it restores the list |
| Handlers.FailingExactly | pocketoptionapi_async/client.py:712-722 | the handlers reported as failed are exactly the called handlers that raise |
| Handlers.Dispatch | pocketoptionapi_async/client.py:712-722 | every handler is called in registration order, whether or not an earlier one raised, and the logged failures are exactly the ones that raised |
| WebSocket.Classify | pocketoptionapi_async/websocket_client.py:254-272 | each frame kind is chosen exactly when its own test holds, since the tests cannot overlap and the order of the chain cannot matter; a binary event's JSON is the text after `451-`; a frame matching no test is unrecognised |
| WebSocket.GuardsDisjoint | pocketoptionapi_async/websocket_client.py:254-270 | the five tests exclude each other: no frame passes two of them |
| WebSocket.React | pocketoptionapi_async/websocket_client.py:243-275 | the reply is `40` to an open handshake and `3` to `2`, and none otherwise; an upgrade ack publishes `connected` with `{}`; an auth rejection publishes `auth_error` with "Invalid SSID"; a binary event's array is routed, and an unparseable one is ignored; a frame that matches no test has no effect |
| WebSocket.Lookup | pocketoptionapi_async/websocket_client.py:291-310 | the lookup finds a name exactly when the table holds an entry for it, and returns that entry's internal name |
| WebSocket.EventTableDistinct | pocketoptionapi_async/websocket_client.py:291-310 | the seven server names are distinct, and so are the seven internal names |
| WebSocket.KnownEventName | pocketoptionapi_async/websocket_client.py:291-310 | each of the seven server names maps to its own internal event |
| WebSocket.InternalEventNameInjective | pocketoptionapi_async/websocket_client.py:291-310 | distinct known server names map to distinct internal events |
| WebSocket.RouteEvent | pocketoptionapi_async/websocket_client.py:284-313 | an empty array has no effect and any other publishes an event; nothing is ever sent back |
| WebSocket.RouteKnownEvent | pocketoptionapi_async/websocket_client.py:287-310 | a known name publishes its internal event with `data[1]`, or `{}` when absent |
| WebSocket.RouteUnknownEvent | pocketoptionapi_async/websocket_client.py:312-313 | any other name publishes `unknown_event` with `{'type': name, 'data': payload}` |
| WebSocket.RegionWithoutScheme | pocketoptionapi_async/websocket_client.py:354-366 | a URL without `//` has region UNKNOWN |
| WebSocket.HostLabelOf | pocketoptionapi_async/websocket_client.py:357-358 | the label of `scheme//host.rest` is `host` when neither part contains a separator |
| WebSocket.RegionOfApiUrl | pocketoptionapi_async/websocket_client.py:359-360 | `scheme//api-NAME.rest` has region NAME upper-cased (`wss://api-eu…` gives EU) |
| WebSocket.RegionOfDemoUrl | pocketoptionapi_async/websocket_client.py:361-362 | a label containing `demo` and not `api-` has region DEMO |
| WebSocket.RegionOfOtherUrl | pocketoptionapi_async/websocket_client.py:363-366 | a label containing neither `api-` nor `demo` has region UNKNOWN |
| WebSocket.HostLabel | pocketoptionapi_async/websocket_client.py:357-358 | the label exists exactly when the URL contains `//`, and it never holds a dot |
| WebSocket.ExtractRegion | pocketoptionapi_async/websocket_client.py:354-367 | the region is always upper-case; a URL without `//` is UNKNOWN; any region other than DEMO and UNKNOWN comes from an `api-` label; a label without `api-` is DEMO exactly when it contains `demo` |
| WebSocket.AsyncWebSocketClient.IsConnected | pocketoptionapi_async/websocket_client.py:369-374 | connected exactly when a socket is present and not closed and the connection record says CONNECTED |
| WebSocket.FirstSuccess | pocketoptionapi_async/websocket_client.py:47-98 | the attempt the loop stops at is the least index whose attempt succeeds, and there is none exactly when all fail |
| WebSocket.FirstSuccessIs | pocketoptionapi_async/websocket_client.py:47-98 | a succeeding attempt with only failures before it is the one the loop stops at |
| WebSocket.AsyncWebSocketClient.constructor | pocketoptionapi_async/websocket_client.py:25-34 | the client starts with no socket, no connection info, nothing running and a zero counter |
| WebSocket.AsyncWebSocketClient.SendMessage | pocketoptionapi_async/websocket_client.py:131-146 | without an open socket the send raises "not connected" and nothing is sent; otherwise the message is logged exactly when it goes out |
| WebSocket.AsyncWebSocketClient.TryEndpoint | pocketoptionapi_async/websocket_client.py:49-97 | one attempt: the connection info changes only when the socket opened; the socket survives only when both handshake frames went out |
| WebSocket.AttemptStep | pocketoptionapi_async/websocket_client.py:47-98 | while no attempt has succeeded, attempt `i` adds exactly its own handshake frames, record and opened socket to those of the attempts before it |
| WebSocket.AsyncWebSocketClient.TryInOrder | pocketoptionapi_async/websocket_client.py:47-98 | the loop stops exactly at the first succeeding URL, if any, with its socket open and its record stored; otherwise it leaves the record of the last socket that opened; the frames sent are those of the attempts made |
| WebSocket.AsyncWebSocketClient.Connect | pocketoptionapi_async/websocket_client.py:36-100 | URLs are tried in order and the first success wins: its URL and region are recorded as CONNECTED, the counter is reset to 0 and the client is connected; if every URL fails it raises; the frames sent are exactly the handshakes of the attempts made |
| WebSocket.AsyncWebSocketClient.Disconnect | pocketoptionapi_async/websocket_client.py:102-129 | status becomes DISCONNECTED with url, region, connected_at and attempts kept and last_ping dropped; the socket is gone and the client is not connected |
| WebSocket.AsyncWebSocketClient.AddEventHandler | pocketoptionapi_async/websocket_client.py:173-183 | the handler is appended to its event's list and nothing else changes |
| WebSocket.AsyncWebSocketClient.RemoveEventHandler | pocketoptionapi_async/websocket_client.py:185-197 | the first equal handler is removed, or nothing when absent, and nothing else changes |
| WebSocket.AsyncWebSocketClient.EmitEvent | pocketoptionapi_async/websocket_client.py:315-331 | one emission, calling the event's handlers in order with each failure isolated |
| WebSocket.AsyncWebSocketClient.ProcessMessage | pocketoptionapi_async/websocket_client.py:243-275 | the state changes as the classification says; on a live socket, the heartbeat `2` sends exactly one `3` and emits nothing |
| WebSocket.AsyncWebSocketClient.HandleDisconnect | pocketoptionapi_async/websocket_client.py:333-352 | status becomes DISCONNECTED with every other field kept; the counter grows by one only while it is below the maximum, so it never exceeds it; `disconnected` is emitted |
| WebSocket.AsyncWebSocketClient.PingTick | pocketoptionapi_async/websocket_client.py:219-241 | one ping: when it goes out only last_ping changes, and whether the client is connected is unchanged |
| KeepAlive.AuthMessage | pocketoptionapi_async/connection_keep_alive.py:136-141 | a prefixed SSID is used verbatim; any other becomes exactly `42["auth", {"ssid": "<ssid>", "is_demo": true\|false}]` |
| KeepAlive.AuthMessageIdempotent | pocketoptionapi_async/connection_keep_alive.py:136-141 | formatting an auth frame a second time changes nothing |
| KeepAlive.AuthMessageInjective | pocketoptionapi_async/connection_keep_alive.py:139-141 | distinct raw sessions give distinct auth frames |
| KeepAlive.DemoRegionNames | pocketoptionapi_async/connection_keep_alive.py:147-153 | the demo default has at most one name per region of the table |
| KeepAlive.LiveRegionNames | pocketoptionapi_async/connection_keep_alive.py:155-157 | the live default has at most one name per region of the table |
| KeepAlive.RegionsToTry | pocketoptionapi_async/connection_keep_alive.py:145-157 | a given region list is used as it is; with none given, every name tried belongs to a region the account's default filter admits (a demo URL for demo, no DEMO in the name for live) |
| KeepAlive.ConnectCalls | pocketoptionapi_async/connection_keep_alive.py:160-175 | at most one `connect` call per region considered |
| KeepAlive.ConnectCallsCarryAuth | pocketoptionapi_async/connection_keep_alive.py:160-170 | every `connect` call goes to the URL of a region tried, and all carry the same auth frame |
| KeepAlive.DemoRegionNamesMembers | pocketoptionapi_async/connection_keep_alive.py:147-153 | the default demo list holds exactly the names whose URL is a demo URL |
| KeepAlive.DemoRegionNamesAppend | pocketoptionapi_async/connection_keep_alive.py:151-153 | the demo filter keeps the region table's order |
| KeepAlive.LiveRegionNamesMembers | pocketoptionapi_async/connection_keep_alive.py:155-157 | the default live list holds exactly the names whose upper-case form lacks DEMO |
| KeepAlive.LiveRegionNamesAppend | pocketoptionapi_async/connection_keep_alive.py:157 | the live filter keeps the region table's order |
| KeepAlive.FirstReachable | pocketoptionapi_async/connection_keep_alive.py:160-183 | the region the loop stops at is the least one that has a URL and connects, and there is none exactly when no region qualifies |
| KeepAlive.FirstReachableIs | pocketoptionapi_async/connection_keep_alive.py:160-183 | a qualifying region with none before it is the one the loop stops at |
| KeepAlive.ConnectionKeepAlive.constructor | pocketoptionapi_async/connection_keep_alive.py:17-37 | the manager starts disconnected, without tasks or socket, and with zeroed statistics |
| KeepAlive.ConnectionKeepAlive.AddEventHandler | pocketoptionapi_async/connection_keep_alive.py:47-49 | the handler is appended to its event's list and nothing else changes |
| KeepAlive.ConnectionKeepAlive.TriggerEvent | pocketoptionapi_async/connection_keep_alive.py:51-62 | one emission, calling the event's handlers in order with each failure isolated |
| KeepAlive.RegionStep | pocketoptionapi_async/connection_keep_alive.py:160-181 | while no earlier region has connected, region `i` adds exactly its own `connect` call (none without a URL), and the search goes on exactly when it has no URL or fails |
| KeepAlive.ConnectionKeepAlive.TryRegions | pocketoptionapi_async/connection_keep_alive.py:159-183 | the loop stops exactly at the first region that has a URL and connects, if any; names without a URL are skipped and a failure does not stop it, so `connect` is called once per URL up to that region |
| KeepAlive.ConnectionKeepAlive.ConnectWithKeepAlive | pocketoptionapi_async/connection_keep_alive.py:113-183 | it succeeds exactly when some region has a URL and connects; names without a URL are skipped and a failure does not stop the loop, so connect is called once per URL up to the first success; success sets the connected flag, starts the tasks and fires `connected`; failure returns false and changes neither |
| KeepAlive.ConnectionKeepAlive.Reconnect | pocketoptionapi_async/connection_keep_alive.py:220-229 | the flag is cleared and the default regions are tried; the connect calls are those of the region loop; on success the tasks run, total_reconnections grows by one and exactly `connected` then `reconnected` fire; on failure nothing is fired and the tasks are as before |
| KeepAlive.ConnectionKeepAlive.MonitorTick | pocketoptionapi_async/connection_keep_alive.py:216-229 | on a live connection nothing changes; otherwise the reconnect branch runs once, with its connect calls, task flag, statistics and the two emissions stated in full |
| KeepAlive.ConnectionKeepAlive.PingTick | pocketoptionapi_async/connection_keep_alive.py:199-209 | one ping while connected: a delivered ping records the time and counts one sent message; a failed one clears the connected flag |
| KeepAlive.ConnectionKeepAlive.Disconnect | pocketoptionapi_async/connection_keep_alive.py:231-247 | it always ends disconnected with the tasks stopped, and fires `disconnected` |
| KeepAlive.ConnectionKeepAlive.SendMessage | pocketoptionapi_async/connection_keep_alive.py:249-255 | when not connected it raises "Not connected"; messages_sent grows by exactly 1 on a send that goes out, and not otherwise |
| KeepAlive.ConnectionKeepAlive.OnMessage | pocketoptionapi_async/connection_keep_alive.py:257-260 | messages_received grows by exactly 1 and `message_received` fires with the message |
| Client.ParseCompleteSsid | pocketoptionapi_async/client.py:562-585 | a string that is not a complete frame changes nothing; on a complete frame it succeeds exactly when the JSON is an object with a sliceable session or does not parse, and keeps the frame in the first case; a non-object JSON raises AttributeError; the raw SSID is never changed |
| Client.InitIdentity | pocketoptionapi_async/client.py:49-64 | the raw SSID is stored; only a complete frame can raise; the session is left unassigned exactly when the SSID has the prefix but no closing `]`, which is also exactly when `_complete_ssid` is never assigned |
| Client.FormatSessionMessage | pocketoptionapi_async/client.py:543-560 | a kept non-empty complete frame is returned unchanged; otherwise it raises exactly when is_fast_history is truthy, and any frame it builds is wrapped in the auth prefix and `]` |
| Client.CompleteFrameReplayed | pocketoptionapi_async/client.py:58-60 | a complete `42["auth",{…}]` frame whose JSON is an object is kept, and the auth frame later sent is byte-identical to it |
| Client.ParsedDefaults | pocketoptionapi_async/client.py:566-578 | for any JSON object in a complete frame, each session field is taken from its key when present and defaults on its own when absent (session "", demo true, uid 0, platform 1, fast history true), whatever the keyword arguments were |
| Client.RawSessionFallback | pocketoptionapi_async/client.py:61-64 | an SSID without the prefix, or a complete frame whose JSON does not parse, is the raw session, with no complete frame kept |
| Client.RawSessionNotFormattable | pocketoptionapi_async/client.py:547-556 | with is_fast_history true, formatting a raw session always raises |
| Client.NamedUrls | pocketoptionapi_async/client.py:163-165 | the named-region comprehension yields at most one URL per name |
| Client.NamedUrlsAppend | pocketoptionapi_async/client.py:163-165 | the selection keeps the order of the names: the URLs of a concatenation are those of each part, in order |
| Client.NamedUrlsMembers | pocketoptionapi_async/client.py:163-165 | a URL is selected exactly when it is the non-empty URL of some named region |
| Client.RegularConnectionUrls | pocketoptionapi_async/client.py:161-170 | with no regions named, the account's list is used (demo or all); with regions named, the result is exactly the named-region selection, and it fails exactly when that selection is empty; an empty choice raises |
| Client.ValidateOrderParameters | pocketoptionapi_async/client.py:647-661 | validation passes exactly when the asset is known, min <= amount <= max and min <= duration <= max; checks run in that order and each error is reported exactly when the earlier checks pass and its own fails |
| Client.ValidatedOrderBuilds | pocketoptionapi_async/client.py:316-328 | when the limits respect the model's own bounds, a validated order always builds |
| Client.ReadProfit | pocketoptionapi_async/client.py:757 | the profit defaults to 0 when absent, and a non-numeric profit is an error |
| Client.ReadPayout | pocketoptionapi_async/client.py:769 | an absent or null payout is None, a numeric one is kept, and any other is an error |
| Client.ClosedResult | pocketoptionapi_async/client.py:759-770 | the closed result is WIN exactly when the profit is positive and LOSE otherwise, with identity, terms and times copied from the active record |
| Client.AsyncPocketOptionClient.constructor | pocketoptionapi_async/client.py:66-71 | the client starts with empty order maps, no callbacks and empty logs, in a reachable state |
| Client.AsyncPocketOptionClient.AddEventCallback | pocketoptionapi_async/client.py:452-462 | the callback is appended to its event's list and nothing else changes |
| Client.AsyncPocketOptionClient.RemoveEventCallback | pocketoptionapi_async/client.py:464-476 | the first equal callback is removed, or nothing when absent, and nothing else changes |
| Client.AsyncPocketOptionClient.EmitEvent | pocketoptionapi_async/client.py:712-722 | one emission, calling the event's callbacks in order with each failure isolated |
| Client.AsyncPocketOptionClient.CheckOrderResult | pocketoptionapi_async/client.py:431-441 | a result is returned exactly when one is stored under that id |
| Client.ActiveOrderNotChecked | pocketoptionapi_async/client.py:441 | an order that is active but has no stored result is not found |
| Client.AsyncPocketOptionClient.GetActiveOrders | pocketoptionapi_async/client.py:443-450 | the list holds each active record exactly once |
| Client.OrderMessage | pocketoptionapi_async/client.py:663-677 | the frame is an `openOrder` event whose text between the prefix and the final `]` is exactly the dumped order data |
| Client.AsyncPocketOptionClient.PlaceOrder | pocketoptionapi_async/client.py:302-346 | validation comes first, then the connection check, then the Order model, then the send; each error before the send leaves the sent log as it was; nothing is sent unless validation passes and the client is connected; the result is the one stored under the request id, and it is tracked as active only when its status is ACTIVE; reachability is preserved |
| Client.AsyncPocketOptionClient.OnOrderClosed | pocketoptionapi_async/client.py:747-775 | an id naming an active order moves the record to the results map under that id, WIN or LOSE by the profit's sign, leaves every other entry alone and emits `order_closed`; a missing or unknown id changes neither map and emits nothing; reachability is preserved |

## Left out

- asyncio is not modelled: tasks, `sleep`/`wait_for`, the 10, 20 and 30 second cadences and cancellation. The ping loops and the reconnection monitor are modelled as one tick each, and `_wait_for_order_result` as one lookup, because the rest is wall-clock time and concurrency.
- The websockets library, SSL and real send/receive are not modelled: the transport is an oracle and each class keeps a log of what it sent. The receive loop `receive_messages` and the ping tasks' start/stop are not modelled either.
- json.loads and json.dumps are oracles (`parse`, `parseArray`, `dumps`), so float formatting and the exact text of the `openOrder` payload are not modelled.
- `constants.py`, `exceptions.py` and `monitoring.py` are not part of this model: REGIONS, ASSETS and API_LIMITS are parameters, the exceptions are error constructors, and the error monitor and health checks are omitted.
- The client's connection statistics, its own `send_message`, `_wait_for_authentication`, `get_balance`, `_on_stream_update`, `_setup_time_sync`, `get_candles`, `_request_candles` and `get_candles_dataframe` are left out: they are float and datetime arithmetic, timeouts or pandas.
- The recursive reconnect chains (`_reconnect`, `_handle_disconnection`, `_on_disconnected`) are left out: each re-enters `connect` through the event loop.
- `_start_persistent_connection` is left out because it can never succeed. It can fail at the import of `connection_keep_alive` (`pocketoptionapi_async/client.py:132`) or at the constructor (`pocketoptionapi_async/client.py:136`). If neither fails, `pocketoptionapi_async/client.py:139` reads `self._on_keep_alive_connected`, which is never defined, and neither are the three handlers read at `pocketoptionapi_async/client.py:140-142`; that read raises AttributeError. `connect` turns whichever error comes first into `ConnectionError`.
- The event-forwarding methods, and their registration on the underlying WebSocket client, are left out; they only re-emit events under other names.
- Client.ParseCompleteSsid: the field assignments are modelled as one value-level update of the client's identity rather than as statements, because any exception they raise escapes `__init__` and no client is constructed.
- Client.ParseCompleteSsid: a session that is itself a JSON object counts as unsliceable (TypeError). It does not model Python 3.12+, where slicing a dict raises KeyError and the raw fallback is taken instead.
- KeepAlive.ConnectionKeepAlive.Reconnect: the contract assumes that no `connected` or `reconnected` handler suspends. On success, `_start_keep_alive_tasks` (`pocketoptionapi_async/connection_keep_alive.py:195-197`) cancels `_reconnect_task`, and that task is the monitor that is running. A handler that awaits therefore receives CancelledError. `except Exception` at `pocketoptionapi_async/connection_keep_alive.py:60` does not catch it. The task then ends, so `total_reconnections` is not incremented and `reconnected` is not fired, or its later handlers are skipped.
- Amounts, profits and payouts are `real`, so float NaN and infinity are not modelled. A NaN amount passes `_validate_order_parameters` and the Order validator in the source, because every comparison with NaN is false. Client.ValidateOrderParameters and Models.MakeOrder cannot express that case.
- Client.ReadPayout: pydantic's coercion of numeric strings to floats is not modelled; such a payout is an error here.
- Text.Upper: upper-casing is ASCII-only, because Unicode case mapping is not modelled.
