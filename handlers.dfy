/**
 * The event-handler registry that the client, the WebSocket client and the keep-alive manager
 * each keep: a dict from event name to a list of callables, appended to, pruned of the first
 * equal entry, and called in order with every call's exception caught and logged.
 */
module Handlers {

  /** A registered callable; Python compares them with `==`, so an identity is all the model needs. */
  type HandlerId = nat

  /** The `Dict[str, List[Callable]]` of registered handlers. */
  type Table = map<string, seq<HandlerId>>

  /** One emitted event: its name, its payload, and the handlers called (and of those, the ones that raised). */
  datatype Emission<P> = Emission(event: string, payload: P, invoked: seq<HandlerId>, failed: seq<HandlerId>)

  /** The list an emission walks: the registered list, or none when the event was never registered. */
  function HandlersFor(t: Table, event: string): seq<HandlerId> {
    if event in t then t[event] else []
  }

  /** `handlers[event].append(h)`, creating the list on first use. */
  function Added(t: Table, event: string, h: HandlerId): (r: Table)
    ensures event in r
    ensures HandlersFor(r, event) == HandlersFor(t, event) + [h]
    ensures forall e :: e != event ==> HandlersFor(r, e) == HandlersFor(t, e)
  {
    t[event := HandlersFor(t, event) + [h]]
  }

  /** The position of the first entry equal to `h`. */
  function FirstIndex(s: seq<HandlerId>, h: HandlerId): (i: nat)
    requires h in s
    ensures i < |s| && s[i] == h && h !in s[..i]
  {
    if s[0] == h then 0
    else
      var i := FirstIndex(s[1..], h);
      assert s[..i + 1] == [s[0]] + s[1..][..i];
      i + 1
  }

  /** `list.remove(h)` with its `ValueError` swallowed: drops the first equal entry, if any. */
  function RemoveFirst(s: seq<HandlerId>, h: HandlerId): (r: seq<HandlerId>)
    ensures h !in s ==> r == s
    ensures h in s ==> r == s[..FirstIndex(s, h)] + s[FirstIndex(s, h) + 1..]
  {
    if s == [] then []
    else if s[0] == h then
      assert s == [s[0]] + s[1..];
      s[1..]
    else
      var rest := RemoveFirst(s[1..], h);
      assert s == [s[0]] + s[1..];
      RemoveFirstShape(s, h, rest);
      [s[0]] + rest
  }

  /** How the recursive case of RemoveFirst rebuilds the prefix before the removed entry. */
  lemma RemoveFirstShape(s: seq<HandlerId>, h: HandlerId, rest: seq<HandlerId>)
    requires s != [] && s[0] != h
    requires h in s[1..] ==> rest == s[1..][..FirstIndex(s[1..], h)] + s[1..][FirstIndex(s[1..], h) + 1..]
    ensures h in s ==> [s[0]] + rest == s[..FirstIndex(s, h)] + s[FirstIndex(s, h) + 1..]
  {
    if h in s {
      assert h in s[1..];
      var i := FirstIndex(s[1..], h);
      assert FirstIndex(s, h) == i + 1;
      assert s[..i + 1] == [s[0]] + s[1..][..i];
      assert s[i + 2..] == s[1..][i + 1..];
    }
  }

  /** `handlers[event].remove(h)` guarded by `event in handlers` and `except ValueError: pass`. */
  function Removed(t: Table, event: string, h: HandlerId): (r: Table)
    ensures r.Keys == t.Keys
    ensures HandlersFor(r, event) == RemoveFirst(HandlersFor(t, event), h)
    ensures forall e :: e != event ==> HandlersFor(r, e) == HandlersFor(t, e)
  {
    if event in t then t[event := RemoveFirst(t[event], h)] else t
  }

  /** The handlers among `hs` whose call raises, in calling order. */
  function Failing(hs: seq<HandlerId>, fails: HandlerId -> bool): seq<HandlerId> {
    if hs == [] then []
    else Failing(hs[..|hs| - 1], fails) + (if fails(hs[|hs| - 1]) then [hs[|hs| - 1]] else [])
  }

  /** Of the handlers called, exactly those that raise are reported as failed. */
  lemma {:induction false} FailingExactly(hs: seq<HandlerId>, fails: HandlerId -> bool, h: HandlerId)
    ensures h in Failing(hs, fails) <==> h in hs && fails(h)
  {
    if hs != [] {
      var init := hs[..|hs| - 1];
      FailingExactly(init, fails, h);
      assert hs == init + [hs[|hs| - 1]];
    }
  }

  /**
   * The loop of `_emit_event` / `_trigger_event_async`: every handler is called, in registration
   * order, whether or not an earlier one raised; the ones that raised are logged.
   */
  method Dispatch(hs: seq<HandlerId>, fails: HandlerId -> bool) returns (invoked: seq<HandlerId>, failed: seq<HandlerId>)
    ensures invoked == hs
    ensures failed == Failing(hs, fails)
  {
    invoked, failed := [], [];
    for i := 0 to |hs|
      invariant invoked == hs[..i]
      invariant failed == Failing(hs[..i], fails)
    {
      assert hs[..i + 1][..i] == hs[..i];
      if fails(hs[i]) {
        failed := failed + [hs[i]];
      }
      invoked := invoked + [hs[i]];
    }
    assert hs[..|hs|] == hs;
  }

  /** Adding a handler and then removing it gives back the list it was added to, when it was not there before. */
  lemma AddThenRemove(t: Table, event: string, h: HandlerId)
    requires h !in HandlersFor(t, event)
    ensures HandlersFor(Removed(Added(t, event, h), event, h), event) == HandlersFor(t, event)
  {
    var s := HandlersFor(t, event);
    assert FirstIndex(s + [h], h) == |s| by {
      assert (s + [h])[|s|] == h;
      FirstIndexIsFirst(s + [h], h, |s|);
    }
    assert (s + [h])[..|s|] == s;
  }

  /** The first index is the only index with no earlier occurrence. */
  lemma FirstIndexIsFirst(s: seq<HandlerId>, h: HandlerId, i: nat)
    requires i < |s| && s[i] == h && h !in s[..i]
    ensures FirstIndex(s, h) == i
  {
  }

  /** Removing takes exactly one copy of the handler out of the registered ones, or none if it is absent. */
  lemma {:induction false} RemoveFirstCount(s: seq<HandlerId>, h: HandlerId)
    ensures multiset(RemoveFirst(s, h)) == multiset(s) - multiset{h}
  {
    if h in s {
      var i := FirstIndex(s, h);
      var before, after := s[..i], s[i + 1..];
      assert s == before + [h] + after;
      assert multiset(s) == multiset(before) + multiset{h} + multiset(after);
      assert RemoveFirst(s, h) == before + after;
      assert multiset(RemoveFirst(s, h)) == multiset(before) + multiset(after);
    } else {
      assert multiset(s)[h] == 0;
    }
  }
}
