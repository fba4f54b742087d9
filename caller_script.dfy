/** The driver (`class CallerScript`): its configuration, the process-wide
    request-id counter, and the single pending-timer handle that
    `scheduleNextCall`, `stop` and `updateConfig` maintain. Timers are
    handles, not time: arming one draws a fresh handle, and the ghost set
    `live` holds the handles of timers that are armed and have neither fired
    nor been cleared. */
module Caller {
  import opened Common
  import opened Json
  import opened Settings
  import opened Interval
  import opened Requests

  /** A `setTimeout` handle together with the delay it was armed with. */
  datatype Timer = Timer(handle: nat, delayMs: real)

  function Handles(t: Option<Timer>): set<nat>
  {
    if t.Some? then {t.value.handle} else {}
  }

  /** Each id is smaller than the next one. */
  ghost predicate Increasing(s: seq<int>)
  {
    forall i :: 0 <= i < |s| - 1 ==> s[i] < s[i + 1]
  }

  /** Ids that increase step by step increase overall, so none repeats. */
  lemma {:induction false} IncreasingIsUnique(s: seq<int>)
    requires Increasing(s)
    ensures forall i, j :: 0 <= i < j < |s| ==> s[i] < s[j]
    ensures forall i, j :: 0 <= i < |s| && 0 <= j < |s| && i != j ==> s[i] != s[j]
    decreases |s|
  {
    if |s| > 1 {
      IncreasingIsUnique(s[1..]);
      assert forall j :: 1 <= j < |s| ==> s[j] == s[1..][j - 1];
      assert forall j :: 1 < j < |s| ==> s[1] < s[j];
    }
  }

  class CallerScript {
    var config: Config
    var intervalId: Option<Timer>
    var requestId: int
    var nextHandle: nat      // the handle the next setTimeout returns
    ghost var live: set<nat>
    ghost var issued: seq<int>  // every request id handed out, in order

    ghost predicate Valid()
      reads this
    {
      && 1 <= requestId
      && Increasing(issued)
      && (forall i :: 0 <= i < |issued| ==> 1 <= issued[i] < requestId)
      && live <= Handles(intervalId)
      && (intervalId.Some? ==> intervalId.value.handle < nextHandle)
    }

    /** At most one timer is ever pending, and it is the one `intervalId`
        names. */
    lemma AtMostOneTimer()
      requires Valid()
      ensures |live| <= 1
      ensures forall h :: h in live ==> intervalId.Some? && h == intervalId.value.handle
    {
      if intervalId.Some? {
        assert live <= {intervalId.value.handle};
        if live != {} {
          assert live == {intervalId.value.handle};
        }
      }
    }

    /** Every id issued so far is unique, and the next id is new. */
    lemma IdsAreUnique()
      requires Valid()
      ensures forall i, j :: 0 <= i < j < |issued| ==> issued[i] < issued[j]
      ensures forall i :: 0 <= i < |issued| ==> issued[i] != requestId
    {
      IncreasingIsUnique(issued);
    }

    constructor (port: Option<string>)
      ensures Valid()
      ensures config == DefaultConfig(port)
      ensures intervalId == None && live == {}
      ensures requestId == 1 && issued == []
    {
      config := DefaultConfig(port);
      intervalId := None;
      requestId := 1;
      nextHandle := 0;
      live := {};
      issued := [];
    }

    /** `this.requestId++` */
    method NextRequestId() returns (id: int)
      requires Valid()
      modifies this`requestId, this`issued
      ensures Valid()
      ensures id == old(requestId) && requestId == old(requestId) + 1
      ensures issued == old(issued) + [id]
    {
      id := requestId;
      requestId := requestId + 1;
      issued := issued + [id];
    }

    /** The request `testConnection` builds, and the transport
        `sendMcpRequest` then picks for it with `Math.random()` = rTransport. */
    method InitializeRequest(rTransport: Unit) returns (req: Request, useSse: bool)
      requires Valid()
      modifies this`requestId, this`issued
      ensures Valid()
      ensures req == Request(old(requestId), "initialize", InitializeParams())
      ensures requestId == old(requestId) + 1 && issued == old(issued) + [req.id]
      ensures useSse == ShouldUseSse(rTransport, config.sseUsagePercent)
    {
      var id := NextRequestId();
      req := Request(id, "initialize", InitializeParams());
      useSse := ShouldUseSse(rTransport, config.sseUsagePercent);
    }

    /** The request `executeRandomCall` builds for `item`. The method is
        looked up before the id is taken, so an unknown kind fails without
        using up an id. */
    method CallRequest(item: Item) returns (req: Result<Request, Failure>)
      requires Valid()
      modifies this`requestId, this`issued
      ensures Valid()
      ensures req.Err? <==> !IsKnownKind(item.kind)
      ensures req.Err? ==> req.error == UnknownType(item.kind) &&
                           requestId == old(requestId) && issued == old(issued)
      ensures req.Ok? ==> req.value == Request(old(requestId), MethodForType(item.kind).value, ParamsFor(item)) &&
                          requestId == old(requestId) + 1 && issued == old(issued) + [old(requestId)]
    {
      var m := MethodForType(item.kind);
      if m.Err? {
        req := Err(m.error);
        return;
      }
      var id := NextRequestId();
      req := Ok(Request(id, m.value, ParamsFor(item)));
    }

    /** `executeRandomCall` up to the transport call: draw an item
        (`Math.random()` = rItem), then a transport (= rTransport), then
        build the request. What the transport answers is only logged. */
    method ExecuteRandomCall(rItem: Unit, rTransport: Unit) returns (req: Request, useSse: bool)
      requires Valid()
      modifies this`requestId, this`issued
      ensures Valid()
      ensures var item := RandomItem(rItem);
              req == Request(old(requestId), MethodForType(item.kind).value, ParamsFor(item))
      ensures useSse == ShouldUseSse(rTransport, config.sseUsagePercent)
      ensures requestId == old(requestId) + 1 && issued == old(issued) + [req.id]
    {
      var item := RandomItem(rItem);
      useSse := ShouldUseSse(rTransport, config.sseUsagePercent);
      var built := CallRequest(item);
      req := built.value;
    }

    /** `scheduleNextCall()` at the given hour and day with `Math.random()`
        = r: clear the pending timer, then arm a new one. */
    method ScheduleNextCall(hour: int, day: int, r: Unit)
      requires Valid()
      modifies this`intervalId, this`nextHandle, this`live
      ensures Valid()
      ensures intervalId == Some(Timer(old(nextHandle), NextInterval(config.baseIntervalMs, config.jitterPercent, hour, day, r)))
      ensures live == {old(nextHandle)}
      ensures old(intervalId).Some? ==> old(intervalId).value.handle != intervalId.value.handle
      ensures nextHandle == old(nextHandle) + 1
    {
      if intervalId.Some? {
        live := live - {intervalId.value.handle};  // clearTimeout(this.intervalId)
      }
      var nextInterval := NextInterval(config.baseIntervalMs, config.jitterPercent, hour, day, r);
      intervalId := Some(Timer(nextHandle, nextInterval));
      live := live + {nextHandle};
      nextHandle := nextHandle + 1;
    }

    /** `stop()`: afterwards no timer is pending and `intervalId` is null,
        whatever the state before, so a second call changes nothing. */
    method Stop()
      requires Valid()
      modifies this`intervalId, this`live
      ensures Valid()
      ensures intervalId == None && live == {}
    {
      if intervalId.Some? {
        live := live - {intervalId.value.handle};  // clearTimeout(this.intervalId)
        intervalId := None;
      }
    }

    /** The pending timer fires. Its callback starts, and `intervalId` keeps
        naming the timer that has just fired. */
    method TimerFires()
      requires Valid() && live != {}
      modifies this`live
      ensures Valid()
      ensures live == {}
    {
      live := {};
    }

    /** The timer callback: `await this.executeRandomCall();
        this.scheduleNextCall();` */
    method RunTimerCallback(rItem: Unit, rTransport: Unit, hour: int, day: int, r: Unit)
      returns (req: Request, useSse: bool)
      requires Valid() && live != {}
      modifies this`requestId, this`issued, this`intervalId, this`nextHandle, this`live
      ensures Valid()
      ensures var item := RandomItem(rItem);
              req == Request(old(requestId), MethodForType(item.kind).value, ParamsFor(item))
      ensures useSse == ShouldUseSse(rTransport, config.sseUsagePercent)
      ensures requestId == old(requestId) + 1 && issued == old(issued) + [req.id]
      ensures intervalId == Some(Timer(old(nextHandle), NextInterval(config.baseIntervalMs, config.jitterPercent, hour, day, r)))
      ensures live == {old(nextHandle)} && nextHandle == old(nextHandle) + 1
    {
      TimerFires();
      req, useSse := ExecuteRandomCall(rItem, rTransport);
      ScheduleNextCall(hour, day, r);
    }

    /** `updateConfig(patch)`: merge, then re-arm only if `intervalId` is
        set and the patch supplies a truthy `baseIntervalMs`. */
    method UpdateConfig(patch: ConfigPatch, hour: int, day: int, r: Unit)
      requires Valid()
      modifies this`config, this`intervalId, this`nextHandle, this`live
      ensures Valid()
      ensures config == Merge(old(config), patch)
      ensures old(intervalId).Some? && SuppliesBaseInterval(patch) ==>
                intervalId == Some(Timer(old(nextHandle), NextInterval(config.baseIntervalMs, config.jitterPercent, hour, day, r))) &&
                live == {old(nextHandle)} && old(intervalId).value.handle !in live
      ensures !(old(intervalId).Some? && SuppliesBaseInterval(patch)) ==>
                intervalId == old(intervalId) && live == old(live) && nextHandle == old(nextHandle)
    {
      config := Merge(config, patch);
      if intervalId.Some? && SuppliesBaseInterval(patch) {
        ScheduleNextCall(hour, day, r);
      }
    }

    /** `start()`: the handshake, whose reply (from whichever transport was
        drawn) is `handshake`; then, if it connected, one call at once and
        the first timer. A failed handshake stops start-up before any call. */
    method Start(rInit: Unit, handshake: Result<Json, Failure>, rItem: Unit, rTransport: Unit,
                 hour: int, day: int, r: Unit)
      returns (started: Result<Json, Failure>, init: Request, first: Option<Request>)
      requires Valid()
      modifies this`requestId, this`issued, this`intervalId, this`nextHandle, this`live
      ensures Valid()
      ensures init == Request(old(requestId), "initialize", InitializeParams())
      ensures started == (if handshake.Err? then handshake else CheckInitializeReply(handshake.value))
      ensures started.Err? ==>
                && first == None
                && requestId == old(requestId) + 1 && issued == old(issued) + [old(requestId)]
                && intervalId == old(intervalId) && live == old(live) && nextHandle == old(nextHandle)
      ensures started.Ok? ==>
                && (var item := RandomItem(rItem);
                    first == Some(Request(old(requestId) + 1, MethodForType(item.kind).value, ParamsFor(item))))
                && requestId == old(requestId) + 2 && issued == old(issued) + [old(requestId), old(requestId) + 1]
                && intervalId == Some(Timer(old(nextHandle), NextInterval(config.baseIntervalMs, config.jitterPercent, hour, day, r)))
                && live == {old(nextHandle)}
    {
      first := None;
      var initUsesSse;
      init, initUsesSse := InitializeRequest(rInit);
      if handshake.Err? {
        started := handshake;
        return;
      }
      started := CheckInitializeReply(handshake.value);
      if started.Err? {
        return;
      }
      var call, _ := ExecuteRandomCall(rItem, rTransport);
      first := Some(call);
      ScheduleNextCall(hour, day, r);
    }
  }

  /** `stop()` while a fired timer's call is still in flight does not end the
      loop: the callback re-arms when the call completes. */
  method StopDuringInFlightCall(c: CallerScript, rItem: Unit, rTransport: Unit, hour: int, day: int, r: Unit)
    requires c.Valid() && c.live != {}
    modifies c
    ensures c.Valid() && c.intervalId.Some? && |c.live| == 1
  {
    c.TimerFires();
    var req, _ := c.ExecuteRandomCall(rItem, rTransport);
    c.Stop();
    c.ScheduleNextCall(hour, day, r);
  }
}
