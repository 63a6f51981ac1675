/**
 * `ConnectionKeepAlive` of `connection_keep_alive.py`: the auth frame it builds from an SSID,
 * the regions it tries when it is given none, its loop over regions, and the connection flag,
 * counters and handler lists it keeps. The `AsyncWebSocketClient` it drives is an oracle: for
 * each region tried, whether `connect` returned `True` or raised; for each frame, whether the
 * send went out; and whether the client reports itself connected.
 */
module KeepAlive {
  import opened Wrappers
  import opened Logs
  import opened Text
  import opened Handlers
  import opened Constants
  import opened Models

  // ---------------------------------------------------------------------------------------------
  // Auth frame
  // ---------------------------------------------------------------------------------------------

  /** The text of the auth template up to the SSID. */
  const AUTH_HEAD: string := "42[\"auth\", {\"ssid\": \""

  /** The text of the auth template after the SSID, for each value of `is_demo`. */
  function AuthTail(isDemo: bool): string {
    "\", \"is_demo\": " + (if isDemo then "true" else "false") + "}]"
  }

  /**
   * The auth frame of `connect_with_keep_alive`: an SSID that already is an auth frame is sent
   * as it is; any other is put into the template, with `is_demo` written as JSON.
   */
  function AuthMessage(ssid: string, isDemo: bool): (r: string)
    ensures StartsWith(r, AUTH_PREFIX)
    ensures StartsWith(ssid, AUTH_PREFIX) ==> r == ssid
    ensures !StartsWith(ssid, AUTH_PREFIX) ==>
      && |r| == |AUTH_HEAD| + |ssid| + |AuthTail(isDemo)|
      && r[..|AUTH_HEAD|] == AUTH_HEAD
      && r[|AUTH_HEAD|..|AUTH_HEAD| + |ssid|] == ssid
      && r[|AUTH_HEAD| + |ssid|..] == AuthTail(isDemo)
  {
    if StartsWith(ssid, AUTH_PREFIX) then ssid
    else
      var r := AUTH_HEAD + ssid + AuthTail(isDemo);
      assert r[..|AUTH_PREFIX|] == AUTH_HEAD[..|AUTH_PREFIX|];
      r
  }

  /** Building the frame again from a built frame gives the same frame, whatever `is_demo` says. */
  lemma AuthMessageIdempotent(ssid: string, isDemo: bool, isDemo': bool)
    ensures AuthMessage(AuthMessage(ssid, isDemo), isDemo') == AuthMessage(ssid, isDemo)
  {
  }

  /** Raw SSIDs that differ give frames that differ: the template loses nothing. */
  lemma {:induction false} AuthMessageInjective(a: string, b: string, isDemo: bool)
    requires !StartsWith(a, AUTH_PREFIX) && !StartsWith(b, AUTH_PREFIX)
    requires AuthMessage(a, isDemo) == AuthMessage(b, isDemo)
    ensures a == b
  {
    var r := AuthMessage(a, isDemo);
    assert |a| == |b|;
    assert a == r[|AUTH_HEAD|..|AUTH_HEAD| + |a|];
  }

  // ---------------------------------------------------------------------------------------------
  // Default regions
  // ---------------------------------------------------------------------------------------------

  /** The demo default: names of `all_regions` whose URL is a demo URL, in `all_regions` order. */
  function DemoRegionNames(regions: seq<Region>, demoUrls: seq<string>): (names: seq<string>)
    ensures |names| <= |regions|
  {
    if |regions| == 0 then []
    else
      DemoRegionNames(regions[..|regions| - 1], demoUrls)
        + (if regions[|regions| - 1].url in demoUrls then [regions[|regions| - 1].name] else [])
  }

  /** The live default: names whose upper-case form does not contain `DEMO`, in order. */
  function LiveRegionNames(regions: seq<Region>): (names: seq<string>)
    ensures |names| <= |regions|
  {
    if |regions| == 0 then []
    else
      LiveRegionNames(regions[..|regions| - 1])
        + (if !Contains(Upper(regions[|regions| - 1].name), "DEMO") then [regions[|regions| - 1].name] else [])
  }

  /** A name is in the demo default exactly when some region of that name has a demo URL. */
  lemma {:induction false} DemoRegionNamesMembers(regions: seq<Region>, demoUrls: seq<string>, n: string)
    ensures n in DemoRegionNames(regions, demoUrls) <==>
      exists i :: 0 <= i < |regions| && regions[i].name == n && regions[i].url in demoUrls
  {
    if |regions| > 0 {
      var init := regions[..|regions| - 1];
      DemoRegionNamesMembers(init, demoUrls, n);
      assert forall i :: 0 <= i < |init| ==> init[i] == regions[i];
    }
  }

  /** A name is in the live default exactly when some region of that name lacks `DEMO` in capitals. */
  lemma {:induction false} LiveRegionNamesMembers(regions: seq<Region>, n: string)
    ensures n in LiveRegionNames(regions) <==>
      exists i :: 0 <= i < |regions| && regions[i].name == n && !Contains(Upper(regions[i].name), "DEMO")
  {
    if |regions| > 0 {
      var init := regions[..|regions| - 1];
      LiveRegionNamesMembers(init, n);
      assert forall i :: 0 <= i < |init| ==> init[i] == regions[i];
    }
  }

  /** The demo filter keeps order: filtering a concatenation concatenates the filtered parts. */
  lemma {:induction false} DemoRegionNamesAppend(a: seq<Region>, b: seq<Region>, demoUrls: seq<string>)
    ensures DemoRegionNames(a + b, demoUrls) == DemoRegionNames(a, demoUrls) + DemoRegionNames(b, demoUrls)
    decreases |b|
  {
    if |b| == 0 {
      assert a + b == a;
    } else {
      var last := b[|b| - 1];
      var init := b[..|b| - 1];
      assert (a + b)[..|a + b| - 1] == a + init;
      DemoRegionNamesAppend(a, init, demoUrls);
    }
  }

  /** The live filter keeps order: filtering a concatenation concatenates the filtered parts. */
  lemma {:induction false} LiveRegionNamesAppend(a: seq<Region>, b: seq<Region>)
    ensures LiveRegionNames(a + b) == LiveRegionNames(a) + LiveRegionNames(b)
    decreases |b|
  {
    if |b| == 0 {
      assert a + b == a;
    } else {
      var init := b[..|b| - 1];
      assert (a + b)[..|a + b| - 1] == a + init;
      LiveRegionNamesAppend(a, init);
    }
  }

  /** `if not regions:` picks the demo or live default; a given list is used as it is. */
  function RegionsToTry(regions: seq<string>, isDemo: bool, table: RegionTable): (names: seq<string>)
    ensures regions != [] ==> names == regions
    ensures regions == [] ==> forall n :: n in names ==> DefaultRegion(table, isDemo, n)
  {
    if regions != [] then regions
    else
      var names := if isDemo then DemoRegionNames(table.regions, table.demoUrls) else LiveRegionNames(table.regions);
      assert forall n :: n in names ==> DefaultRegion(table, isDemo, n) by {
        forall n | n in names ensures DefaultRegion(table, isDemo, n) {
          if isDemo {
            DemoRegionNamesMembers(table.regions, table.demoUrls, n);
          } else {
            LiveRegionNamesMembers(table.regions, n);
          }
        }
      }
      names
  }

  /** `n` names a region of the table that the account's default filter admits. */
  predicate DefaultRegion(table: RegionTable, isDemo: bool, n: string) {
    exists i :: 0 <= i < |table.regions| && table.regions[i].name == n &&
      (if isDemo then table.regions[i].url in table.demoUrls else !Contains(Upper(n), "DEMO"))
  }

  // ---------------------------------------------------------------------------------------------
  // The region loop
  // ---------------------------------------------------------------------------------------------

  /** The index of the first region, among the first `n`, that has a URL and whose `connect` returned `True`. */
  function FirstReachable(names: seq<string>, table: RegionTable, outcome: nat -> bool, n: nat): (r: Option<nat>)
    requires n <= |names|
    ensures r.Some? ==> r.value < n && HasUrl(table, names[r.value]) && outcome(r.value)
    ensures r.Some? ==> forall j :: 0 <= j < r.value ==> !(HasUrl(table, names[j]) && outcome(j))
    ensures r.None? <==> forall j :: 0 <= j < n ==> !(HasUrl(table, names[j]) && outcome(j))
  {
    if n == 0 then None
    else
      match FirstReachable(names, table, outcome, n - 1)
      case Some(i) => Some(i)
      case None => if HasUrl(table, names[n - 1]) && outcome(n - 1) then Some(n - 1) else None
  }

  /** The first reachable region is the reachable one that every earlier region failed before. */
  lemma FirstReachableIs(names: seq<string>, table: RegionTable, outcome: nat -> bool, n: nat, i: nat)
    requires i < n <= |names| && HasUrl(table, names[i]) && outcome(i)
    requires forall j :: 0 <= j < i ==> !(HasUrl(table, names[j]) && outcome(j))
    ensures FirstReachable(names, table, outcome, n) == Some(i)
  {
    assert FirstReachable(names, table, outcome, n).Some?;
  }

  /** The `connect(urls, ssid_message)` calls the first `n` regions lead to: one per region with a URL. */
  function ConnectCalls(names: seq<string>, table: RegionTable, auth: string, n: nat): (calls: seq<(string, string)>)
    requires n <= |names|
    ensures |calls| <= n
  {
    if n == 0 then []
    else
      ConnectCalls(names, table, auth, n - 1)
        + (if HasUrl(table, names[n - 1]) then [(table.getRegion(names[n - 1]).value, auth)] else [])
  }

  /** One region of the loop: the calls and the search after it, from those before it. */
  lemma {:induction false} RegionStep(names: seq<string>, table: RegionTable, auth: string, outcome: nat -> bool, i: nat)
    requires i < |names| && FirstReachable(names, table, outcome, i).None?
    ensures ConnectCalls(names, table, auth, i + 1) == ConnectCalls(names, table, auth, i) +
      (if HasUrl(table, names[i]) then [(table.getRegion(names[i]).value, auth)] else [])
    ensures FirstReachable(names, table, outcome, i + 1).None? <==> !(HasUrl(table, names[i]) && outcome(i))
  {
  }

  /** Every `connect` call of the region loop carries the same auth frame, to a URL of a region tried. */
  lemma {:induction false} ConnectCallsCarryAuth(names: seq<string>, table: RegionTable, auth: string, n: nat, k: nat)
    requires n <= |names| && k < |ConnectCalls(names, table, auth, n)|
    ensures ConnectCalls(names, table, auth, n)[k].1 == auth
    ensures exists i ::
      0 <= i < n && HasUrl(table, names[i]) && ConnectCalls(names, table, auth, n)[k].0 == table.getRegion(names[i]).value
  {
    var prev := ConnectCalls(names, table, auth, n - 1);
    if k < |prev| {
      ConnectCallsCarryAuth(names, table, auth, n - 1, k);
    }
  }

  /** `_connection_stats` */
  datatype Stats = Stats(lastPingTime: Option<Time>, totalReconnections: nat, messagesSent: nat, messagesReceived: nat)

  /** The payload of a keep-alive event: the one positional argument, when there is one. */
  type Arg = Option<string>

  class ConnectionKeepAlive {
    const ssid: string
    const isDemo: bool
    var isConnected: bool
    /** `self._websocket` has been created. */
    var hasWebsocket: bool
    /** The ping task and the reconnection monitor are running. */
    var keepAliveTasks: bool
    var stats: Stats
    var handlers: Table
    /** Every `_trigger_event_async` call, in order. */
    var triggered: seq<Emission<Arg>>
    /** Every `connect(urls, ssid_message)` call on the WebSocket client, as its URL and auth frame. */
    var connectCalls: seq<(string, string)>
    /** Every frame handed to the WebSocket client's `send_message` that went out. */
    var sent: seq<string>

    /** `__init__` */
    constructor (ssid: string, isDemo: bool)
      ensures this.ssid == ssid && this.isDemo == isDemo
      ensures !isConnected && !hasWebsocket && !keepAliveTasks
      ensures stats == Stats(None, 0, 0, 0)
      ensures handlers == map[] && triggered == [] && connectCalls == [] && sent == []
    {
      this.ssid := ssid;
      this.isDemo := isDemo;
      isConnected := false;
      hasWebsocket := false;
      keepAliveTasks := false;
      stats := Stats(None, 0, 0, 0);
      handlers := map[];
      triggered := [];
      connectCalls := [];
      sent := [];
    }

    /** `add_event_handler`: the `defaultdict` creates the list on first use. */
    method AddEventHandler(event: string, h: HandlerId)
      modifies this
      ensures handlers == Added(old(handlers), event, h)
      ensures isConnected == old(isConnected) && hasWebsocket == old(hasWebsocket) && keepAliveTasks == old(keepAliveTasks)
      ensures stats == old(stats) && triggered == old(triggered) && connectCalls == old(connectCalls) && sent == old(sent)
    {
      handlers := Added(handlers, event, h);
    }

    /** `_trigger_event_async`: the handlers of `event` in registration order, each raise logged and skipped. */
    method TriggerEvent(event: string, arg: Arg, fails: HandlerId -> bool)
      modifies this
      ensures triggered == old(triggered) +
        [Emission(event, arg, HandlersFor(handlers, event), Failing(HandlersFor(handlers, event), fails))]
      ensures isConnected == old(isConnected) && hasWebsocket == old(hasWebsocket) && keepAliveTasks == old(keepAliveTasks)
      ensures stats == old(stats) && handlers == old(handlers) && connectCalls == old(connectCalls) && sent == old(sent)
    {
      var invoked, failed := Dispatch(HandlersFor(handlers, event), fails);
      triggered := triggered + [Emission(event, arg, invoked, failed)];
    }

    /**
     * The region loop of `connect_with_keep_alive`, up to the first success: a region without a
     * URL is skipped, and every other one gets one `connect` call with `auth`. `k` is the
     * region that connected.
     */
    method TryRegions(names: seq<string>, table: RegionTable, auth: string, outcome: nat -> bool)
      returns (found: bool, k: nat)
      modifies this
      ensures found <==> FirstReachable(names, table, outcome, |names|).Some?
      ensures found ==> k == FirstReachable(names, table, outcome, |names|).value
      ensures connectCalls == old(connectCalls) + ConnectCalls(names, table, auth, if found then k + 1 else |names|)
      ensures isConnected == old(isConnected) && hasWebsocket == old(hasWebsocket) && keepAliveTasks == old(keepAliveTasks)
      ensures stats == old(stats) && handlers == old(handlers) && triggered == old(triggered) && sent == old(sent)
    {
      var i := 0;
      while i < |names|
        invariant 0 <= i <= |names|
        invariant FirstReachable(names, table, outcome, i).None?
        invariant connectCalls == old(connectCalls) + ConnectCalls(names, table, auth, i)
        invariant isConnected == old(isConnected) && hasWebsocket == old(hasWebsocket) && keepAliveTasks == old(keepAliveTasks)
        invariant stats == old(stats) && handlers == old(handlers) && triggered == old(triggered) && sent == old(sent)
      {
        RegionStep(names, table, auth, outcome, i);
        var url := table.getRegion(names[i]);
        if url.Some? && url.value != "" {
          connectCalls := connectCalls + [(url.value, auth)];
          AppendAssociative(old(connectCalls), ConnectCalls(names, table, auth, i), [(url.value, auth)]);
          if outcome(i) {
            FirstReachableIs(names, table, outcome, |names|, i);
            return true, i;
          }
        }
        i := i + 1;
      }
      return false, 0;
    }

    /**
     * `connect_with_keep_alive`. The regions tried are `regions`, or the default for the
     * account when it is empty or `None`; `REGIONS` is `table`. A region without a URL is
     * skipped; for the `i`-th region tried, `outcome(i)` says whether `connect` returned `True`
     * (`False` stands for the exception, which is logged and skipped). The first success sets
     * the flag, starts the keep-alive tasks and fires `connected`.
     */
    method ConnectWithKeepAlive(regions: seq<string>, table: RegionTable, outcome: nat -> bool,
                                fails: HandlerId -> bool) returns (ok: bool)
      modifies this
      ensures hasWebsocket
      ensures
        var names := RegionsToTry(regions, isDemo, table);
        && (ok <==> FirstReachable(names, table, outcome, |names|).Some?)
        && connectCalls == old(connectCalls) + ConnectCalls(names, table, AuthMessage(ssid, isDemo),
             if ok then FirstReachable(names, table, outcome, |names|).value + 1 else |names|)
      ensures ok ==> isConnected && keepAliveTasks
      ensures ok ==> (triggered == old(triggered) +
        [Emission("connected", None, HandlersFor(handlers, "connected"), Failing(HandlersFor(handlers, "connected"), fails))])
      ensures !ok ==> isConnected == old(isConnected) && keepAliveTasks == old(keepAliveTasks) && triggered == old(triggered)
      ensures stats == old(stats) && handlers == old(handlers) && sent == old(sent)
    {
      hasWebsocket := true;
      var auth := AuthMessage(ssid, isDemo);
      var names := RegionsToTry(regions, isDemo, table);
      var k;
      ok, k := TryRegions(names, table, auth, outcome);
      if ok {
        isConnected := true;
        keepAliveTasks := true;
        TriggerEvent("connected", None, fails);
      }
    }

    /**
     * The reconnect branch of `_reconnection_monitor`: the flag is cleared and the default
     * regions are tried again; a success counts as a reconnection and fires `reconnected`
     * after the `connected` that the connect itself fires.
     */
    method Reconnect(table: RegionTable, outcome: nat -> bool, fails: HandlerId -> bool) returns (reconnected: bool)
      modifies this
      ensures hasWebsocket && isConnected == reconnected
      ensures var names := RegionsToTry([], isDemo, table);
        && (reconnected <==> FirstReachable(names, table, outcome, |names|).Some?)
        && connectCalls == old(connectCalls) + ConnectCalls(names, table, AuthMessage(ssid, isDemo),
             if reconnected then FirstReachable(names, table, outcome, |names|).value + 1 else |names|)
      ensures stats == old(stats).(totalReconnections := old(stats).totalReconnections + if reconnected then 1 else 0)
      ensures keepAliveTasks == (reconnected || old(keepAliveTasks))
      ensures triggered == old(triggered) + (if reconnected then
          [Emission("connected", None, HandlersFor(handlers, "connected"), Failing(HandlersFor(handlers, "connected"), fails)),
           Emission("reconnected", None, HandlersFor(handlers, "reconnected"), Failing(HandlersFor(handlers, "reconnected"), fails))]
        else [])
      ensures handlers == old(handlers) && sent == old(sent)
    {
      ghost var before := triggered;
      isConnected := false;
      reconnected := ConnectWithKeepAlive([], table, outcome, fails);
      if reconnected {
        ghost var afterConnect := triggered;
        stats := stats.(totalReconnections := stats.totalReconnections + 1);
        TriggerEvent("reconnected", None, fails);
        assert triggered == before + afterConnect[|before|..] + triggered[|afterConnect|..] by {
          AppendAssociative(before, afterConnect[|before|..], triggered[|afterConnect|..]);
        }
      }
    }

    /**
     * One pass of `_reconnection_monitor` after its sleep. `wsConnected` is the WebSocket
     * client's `is_connected`. A link that everything reports up is left alone; otherwise the
     * monitor reconnects as `Reconnect` states.
     */
    method MonitorTick(wsConnected: bool, table: RegionTable, outcome: nat -> bool, fails: HandlerId -> bool)
      returns (reconnected: bool)
      modifies this
      ensures old(isConnected) && old(hasWebsocket) && wsConnected ==>
        && !reconnected && isConnected && hasWebsocket == old(hasWebsocket) && keepAliveTasks == old(keepAliveTasks)
        && stats == old(stats) && triggered == old(triggered) && connectCalls == old(connectCalls)
      ensures !(old(isConnected) && old(hasWebsocket) && wsConnected) ==>
        && hasWebsocket
        && isConnected == reconnected
        && (reconnected <==> FirstReachable(RegionsToTry([], isDemo, table), table, outcome,
                                            |RegionsToTry([], isDemo, table)|).Some?)
        && stats == old(stats).(totalReconnections := old(stats).totalReconnections + if reconnected then 1 else 0)
        && keepAliveTasks == (reconnected || old(keepAliveTasks))
      ensures !(old(isConnected) && old(hasWebsocket) && wsConnected) ==>
        var names := RegionsToTry([], isDemo, table);
        connectCalls == old(connectCalls) + ConnectCalls(names, table, AuthMessage(ssid, isDemo),
          if reconnected then FirstReachable(names, table, outcome, |names|).value + 1 else |names|)
      ensures !(old(isConnected) && old(hasWebsocket) && wsConnected) ==>
        triggered == old(triggered) + (if reconnected then
          [Emission("connected", None, HandlersFor(handlers, "connected"), Failing(HandlersFor(handlers, "connected"), fails)),
           Emission("reconnected", None, HandlersFor(handlers, "reconnected"), Failing(HandlersFor(handlers, "reconnected"), fails))]
        else [])
      ensures handlers == old(handlers) && sent == old(sent)
    {
      reconnected := false;
      if !isConnected || !hasWebsocket || !wsConnected {
        reconnected := Reconnect(table, outcome, fails);
      }
    }

    /**
     * One pass of `_ping_loop`: while connected, the ping frame is handed to the WebSocket
     * client; one that goes out stamps the ping time and counts as sent, one that raises
     * clears the flag.
     */
    method PingTick(now: Time, delivered: bool)
      modifies this
      ensures old(isConnected) && old(hasWebsocket) && delivered ==>
        && sent == old(sent) + ["42[\"ps\"]"] && isConnected
        && stats == old(stats).(lastPingTime := Some(now), messagesSent := old(stats).messagesSent + 1)
      ensures old(isConnected) && old(hasWebsocket) && !delivered ==>
        sent == old(sent) && stats == old(stats) && !isConnected
      ensures !(old(isConnected) && old(hasWebsocket)) ==>
        sent == old(sent) && stats == old(stats) && isConnected == old(isConnected)
      ensures hasWebsocket == old(hasWebsocket) && keepAliveTasks == old(keepAliveTasks)
      ensures handlers == old(handlers) && triggered == old(triggered) && connectCalls == old(connectCalls)
    {
      if isConnected && hasWebsocket {
        if delivered {
          sent := sent + ["42[\"ps\"]"];
          stats := stats.(lastPingTime := Some(now), messagesSent := stats.messagesSent + 1);
        } else {
          isConnected := false;
        }
      }
    }

    /** `disconnect`: the tasks are cancelled, the WebSocket client disconnected, and `disconnected` fired. */
    method Disconnect(fails: HandlerId -> bool)
      modifies this
      ensures !isConnected && !keepAliveTasks
      ensures triggered == old(triggered) +
        [Emission("disconnected", None, HandlersFor(handlers, "disconnected"), Failing(HandlersFor(handlers, "disconnected"), fails))]
      ensures hasWebsocket == old(hasWebsocket) && stats == old(stats) && handlers == old(handlers)
      ensures connectCalls == old(connectCalls) && sent == old(sent)
    {
      keepAliveTasks := false;
      isConnected := false;
      TriggerEvent("disconnected", None, fails);
    }

    /**
     * `send_message`: refused unless connected, otherwise handed to the WebSocket client; only
     * a send that went out (`delivered`) is counted.
     */
    method SendMessage(message: string, delivered: bool) returns (r: Outcome<string>)
      modifies this
      ensures r.Pass? <==> old(isConnected) && old(hasWebsocket) && delivered
      ensures !(old(isConnected) && old(hasWebsocket)) ==> r == Fail("Not connected")
      ensures stats == old(stats).(messagesSent := old(stats).messagesSent + if r.Pass? then 1 else 0)
      ensures sent == if r.Pass? then old(sent) + [message] else old(sent)
      ensures isConnected == old(isConnected) && hasWebsocket == old(hasWebsocket) && keepAliveTasks == old(keepAliveTasks)
      ensures handlers == old(handlers) && triggered == old(triggered) && connectCalls == old(connectCalls)
    {
      if !isConnected || !hasWebsocket {
        return Fail("Not connected");
      }
      if !delivered {
        return Fail("WebSocket send failed");
      }
      sent := sent + [message];
      stats := stats.(messagesSent := stats.messagesSent + 1);
      return Pass;
    }

    /** `on_message`: counts the message and fires `message_received` with it. */
    method OnMessage(message: string, fails: HandlerId -> bool)
      modifies this
      ensures stats == old(stats).(messagesReceived := old(stats).messagesReceived + 1)
      ensures triggered == old(triggered) +
        [Emission("message_received", Some(message), HandlersFor(handlers, "message_received"),
                  Failing(HandlersFor(handlers, "message_received"), fails))]
      ensures isConnected == old(isConnected) && hasWebsocket == old(hasWebsocket) && keepAliveTasks == old(keepAliveTasks)
      ensures handlers == old(handlers) && connectCalls == old(connectCalls) && sent == old(sent)
    {
      stats := stats.(messagesReceived := stats.messagesReceived + 1);
      TriggerEvent("message_received", Some(message), fails);
    }
  }
}
