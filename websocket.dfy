/** The connection manager of src/utils/websocket.ts: one socket slot, the
    reconnect counter and its guard flag, exponential backoff with a ceiling,
    an ordered callback registry and a single heartbeat timer.

    The browser is represented by fields the manager's methods write and by
    method parameters: the interval timers alive in the page
    (`liveIntervals`), the reconnect timeouts waiting to fire
    (`pendingConnects`, one delay per timeout), the frames written to the
    socket (`sent`) and the number of failure toasts shown
    (`failureNotices`). Socket events and timer expiries are calls of the
    handler methods. */
module WebSocket {
  import opened Common

  const MaxReconnectAttempts: nat := 5
  const ReconnectInterval: nat := 1000
  const MaxReconnectDelay: nat := 30000

  /** `WebSocket.readyState`, owned by the browser. */
  datatype ReadyState = Connecting | Open | Closing | Closed

  /** A socket object; only the address it was opened on is kept. */
  datatype Socket = Socket(address: string)

  /** The identity of a registered callback function. */
  type Callback = nat

  /** What `send` is given: text, or any other value. */
  datatype Outbound = Text(text: string) | Value(value: JsValue)

  /** A frame written to the socket. `Stringified(v)` is the text
      `JSON.stringify(v)`; `Ping(u)` is the heartbeat probe
      `{type: 'ping', userId: u?.toString()}`. */
  datatype Frame = Raw(text: string) | Stringified(value: JsValue) | Ping(userId: Option<int>)

  /** The fields of a parsed inbound object; None is `undefined`. */
  datatype Fields = Fields(
    id: Option<JsValue>,
    sendUserId: Option<JsValue>,
    receiveUserId: Option<JsValue>,
    content: Option<JsValue>,
    isRead: Option<JsValue>,
    isAi: Option<JsValue>,
    createTime: Option<JsValue>,
    unreadCount: Option<JsValue>)

  /** What `JSON.parse` made of the text `event.data`: a non-null object
      (arrays included), any other value, or an exception. */
  datatype Decoded = Parsed(obj: Fields) | NotObject(v: JsValue) | ParseError

  /** The normalised MessageInfo record handed to callbacks. */
  datatype Normalized = Normalized(
    id: Option<JsValue>,
    sendUserId: Num,
    receiveUserId: Num,
    content: Option<JsValue>,
    isRead: Option<JsValue>,
    isAi: Option<JsValue>,
    createTime: JsValue,
    unreadCount: Option<JsValue>)

  /** The argument one callback receives for one inbound frame. */
  datatype Delivery = Record(msg: Normalized) | PlainValue(v: JsValue) | RawData(raw: string)

  /** One call `callback(arg)`. */
  datatype Invocation = Invocation(callback: Callback, arg: Delivery)

  function Pow2(k: nat): (r: nat)
    ensures r >= 1
  {
    if k == 0 then 1 else 2 * Pow2(k - 1)
  }

  lemma {:induction false} Pow2Monotone(j: nat, k: nat)
    requires j <= k
    ensures Pow2(j) <= Pow2(k)
  {
    if j < k {
      Pow2Monotone(j, k - 1);
    }
  }

  /** `Math.min(reconnectInterval * 2 ** attempts, 30000)`. */
  function BackoffDelay(attempts: nat): (d: nat)
    ensures d <= MaxReconnectDelay
    ensures d == MaxReconnectDelay || d == ReconnectInterval * Pow2(attempts)
    ensures d <= ReconnectInterval * Pow2(attempts)
  {
    var raw := ReconnectInterval * Pow2(attempts);
    if raw < MaxReconnectDelay then raw else MaxReconnectDelay
  }

  /** Every delay actually scheduled (attempts below the ceiling) is the
      uncapped exponential one: 1, 2, 4, 8 and 16 seconds. */
  lemma ScheduledDelayUncapped(attempts: nat)
    requires attempts < MaxReconnectAttempts
    ensures BackoffDelay(attempts) == ReconnectInterval * Pow2(attempts)
    ensures BackoffDelay(attempts) <= 16000
  {
    Pow2Monotone(attempts, 4);
  }

  /** From the ceiling on, the delay is the 30-second cap. */
  lemma {:induction false} DelayCappedFromCeiling(attempts: nat)
    requires attempts >= MaxReconnectAttempts
    ensures BackoffDelay(attempts) == MaxReconnectDelay
  {
    Pow2Monotone(5, attempts);
  }

  /** The delay never decreases as the attempt counter grows. */
  lemma {:induction false} BackoffMonotone(j: nat, k: nat)
    requires j <= k
    ensures BackoffDelay(j) <= BackoffDelay(k)
  {
    Pow2Monotone(j, k);
  }

  /** The frame `send` writes for a payload. */
  function Encode(data: Outbound): (f: Frame)
    ensures data.Text? ==> f == Raw(data.text)
    ensures data.Value? ==> f == Stringified(data.value)
  {
    match data
    case Text(t) => Raw(t)
    case Value(v) => Stringified(v)
  }

  /** The record built from a parsed object: ids through `Number()`, a falsy
      `createTime` replaced by `now`, everything else passed through. */
  function Normalize(f: Fields, now: string, parseNumeric: string -> Num): (r: Normalized)
    ensures r.sendUserId == ToNumber(f.sendUserId, parseNumeric)
    ensures r.receiveUserId == ToNumber(f.receiveUserId, parseNumeric)
    ensures TruthyOpt(f.createTime) ==> r.createTime == f.createTime.value
    ensures !TruthyOpt(f.createTime) ==> r.createTime == JsString(now)
    ensures now != "" ==> Truthy(r.createTime)
    ensures r.unreadCount.None? <==> f.unreadCount.None?
    ensures r.unreadCount == f.unreadCount
    ensures r.id == f.id && r.content == f.content && r.isRead == f.isRead && r.isAi == f.isAi
  {
    Normalized(
      f.id,
      ToNumber(f.sendUserId, parseNumeric),
      ToNumber(f.receiveUserId, parseNumeric),
      f.content,
      f.isRead,
      f.isAi,
      if TruthyOpt(f.createTime) then f.createTime.value else JsString(now),
      f.unreadCount)
  }

  /** What every callback receives first for a frame with text `raw`. */
  function DeliveryFor(d: Decoded, raw: string, now: string, parseNumeric: string -> Num): (r: Delivery)
    ensures d.ParseError? ==> r == RawData(raw)
    ensures d.NotObject? ==> r == PlainValue(d.v)
    ensures d.Parsed? ==> r == Record(Normalize(d.obj, now, parseNumeric))
  {
    match d
    case Parsed(obj) => Record(Normalize(obj, now, parseNumeric))
    case NotObject(v) => PlainValue(v)
    case ParseError => RawData(raw)
  }

  /** A `forEach` over `n` callbacks is cut short when the callback at
      position `stop` throws. */
  predicate Throws(n: nat, stop: Option<nat>)
  {
    stop.Some? && stop.value < n
  }

  /** The calls one `forEach` makes: each callback in order with `arg`, up
      to and including the one that throws. */
  function Dispatch(cbs: seq<Callback>, arg: Delivery, stop: Option<nat>): (r: seq<Invocation>)
    ensures Throws(|cbs|, stop) ==> |r| == stop.value + 1
    ensures !Throws(|cbs|, stop) ==> |r| == |cbs|
    ensures forall i :: 0 <= i < |r| ==> r[i] == Invocation(cbs[i], arg)
  {
    var n := if Throws(|cbs|, stop) then stop.value + 1 else |cbs|;
    seq(n, i requires 0 <= i < n => Invocation(cbs[i], arg))
  }

  /** When a callback throws on the decoded value and none throws on the
      text, the callbacks up to the throwing one see the value, and then
      every callback, the throwing one included, sees the text once more. */
  lemma RecoveryRedelivers(cbs: seq<Callback>, first: Delivery, raw: string, k: nat, catchThrow: Option<nat>)
    requires k < |cbs| && !Throws(|cbs|, catchThrow)
    ensures var c := Dispatch(cbs, first, Some(k)) + Dispatch(cbs, RawData(raw), catchThrow);
            && |c| == k + 1 + |cbs|
            && (forall i :: 0 <= i <= k ==> c[i] == Invocation(cbs[i], first))
            && (forall i :: 0 <= i < |cbs| ==> c[k + 1 + i] == Invocation(cbs[i], RawData(raw)))
  {
  }

  /** Callbacks 0 and 1, the frame text "null", and callback 0 throwing on
      `null`: 0 gets `null`, then 0 and 1 get the text. */
  lemma ThrowOnNullExample()
    ensures Dispatch([0, 1], PlainValue(JsNull), Some(0)) + Dispatch([0, 1], RawData("null"), None)
            == [Invocation(0, PlainValue(JsNull)), Invocation(0, RawData("null")), Invocation(1, RawData("null"))]
  {
    var a := Dispatch([0, 1], PlainValue(JsNull), Some(0));
    var b := Dispatch([0, 1], RawData("null"), None);
    assert a == [Invocation(0, PlainValue(JsNull))];
    assert b == [Invocation(0, RawData("null")), Invocation(1, RawData("null"))];
  }

  /** Index of the first occurrence of `x` in `s`, or -1 (`indexOf`). */
  function IndexOf(s: seq<Callback>, x: Callback): (r: int)
    ensures -1 <= r < |s|
    ensures r == -1 <==> x !in s
    ensures r >= 0 ==> s[r] == x && x !in s[..r]
  {
    if |s| == 0 then -1
    else if s[0] == x then 0
    else
      var k := IndexOf(s[1..], x);
      assert s[1..][..if k < 0 then 0 else k] == s[1..if k < 0 then 1 else k + 1];
      if k == -1 then -1 else k + 1
  }

  /** `s` without its first occurrence of `x` (`indexOf` then `splice`). */
  function RemoveFirst(s: seq<Callback>, x: Callback): (r: seq<Callback>)
    ensures x !in s ==> r == s
    ensures x in s ==> |r| == |s| - 1
  {
    var i := IndexOf(s, x);
    if i == -1 then s else s[..i] + s[i + 1..]
  }

  /** Removing a present callback drops exactly one occurrence of it and
      keeps the others in their order: the result is the list with the
      first `x` cut out. */
  lemma RemovePresent(s: seq<Callback>, x: Callback)
    requires x in s
    ensures |RemoveFirst(s, x)| == |s| - 1
    ensures multiset(RemoveFirst(s, x)) == multiset(s) - multiset{x}
    ensures exists i :: 0 <= i < |s| && s[i] == x && x !in s[..i] && RemoveFirst(s, x) == s[..i] + s[i + 1..]
  {
    var i := IndexOf(s, x);
    assert s == s[..i] + [s[i]] + s[i + 1..];
    assert multiset(s) == multiset(s[..i]) + multiset{x} + multiset(s[i + 1..]);
  }

  /** After the removal a callback is still registered exactly when it was
      registered more than once. */
  lemma {:induction false} RemoveFirstMembership(s: seq<Callback>, x: Callback)
    ensures x in RemoveFirst(s, x) <==> multiset(s)[x] >= 2
  {
    if x in s {
      RemovePresent(s, x);
      assert multiset(RemoveFirst(s, x))[x] == multiset(s)[x] - 1;
    } else {
      assert multiset(s)[x] == 0;
    }
  }

  /** Registering a new callback and then removing it restores the list. */
  lemma RegisterThenRemove(s: seq<Callback>, x: Callback)
    requires x !in s
    ensures RemoveFirst(s + [x], x) == s
  {
  }

  class WebSocketManager {
    var ws: Option<Socket>
    const url: string
    var reconnectAttempts: nat
    var messageCallbacks: seq<Callback>
    var heartbeatTimer: Option<nat>
    var isReconnecting: bool

    // The page around the manager.
    var liveIntervals: set<nat>
    var nextTimerId: nat
    var pendingConnects: seq<nat>
    var sent: seq<Frame>
    var failureNotices: nat

    /** The heartbeat slot holds the only live interval timer; timer ids are
        positive, as the browser hands them out, so a held id is truthy. */
    ghost predicate Valid()
      reads this
    {
      && reconnectAttempts <= MaxReconnectAttempts
      && nextTimerId >= 1
      && (heartbeatTimer.None? ==> liveIntervals == {})
      && (heartbeatTimer.Some? ==>
            && liveIntervals == {heartbeatTimer.value}
            && 0 < heartbeatTimer.value < nextTimerId)
    }

    /** What the event handlers keep, as written: when no reconnect is in
        progress the counter is 0, and it never passes 1. So once a retry
        has been scheduled the flag stays set, and the failure branch of
        `reconnect` is reached only by calling it directly. */
    ghost predicate EventDriven()
      reads this
    {
      && (!isReconnecting ==> reconnectAttempts == 0)
      && reconnectAttempts <= 1
    }

    /** The reconnect that `onclose` and `send` ask for, guarded by the
        flag: nothing while one is in progress, else `reconnect`. */
    twostate predicate GuardedReconnect()
      reads this
    {
      && (old(isReconnecting) ==>
            && reconnectAttempts == old(reconnectAttempts)
            && isReconnecting
            && pendingConnects == old(pendingConnects)
            && failureNotices == old(failureNotices))
      && (!old(isReconnecting) && old(reconnectAttempts) < MaxReconnectAttempts ==>
            && reconnectAttempts == old(reconnectAttempts) + 1
            && isReconnecting
            && pendingConnects == old(pendingConnects) + [BackoffDelay(old(reconnectAttempts))]
            && failureNotices == old(failureNotices))
      && (!old(isReconnecting) && old(reconnectAttempts) >= MaxReconnectAttempts ==>
            && reconnectAttempts == old(reconnectAttempts)
            && !isReconnecting
            && pendingConnects == old(pendingConnects)
            && failureNotices == old(failureNotices) + 1)
    }

    /** What `send` does to the manager: one frame on an open socket and
        nothing else; otherwise no frame, the payload dropped, and a
        guarded reconnect. The socket slot, callbacks and heartbeat stay. */
    twostate predicate SendEffect(data: Outbound, readyState: ReadyState)
      reads this
    {
      && ws == old(ws) && messageCallbacks == old(messageCallbacks)
      && heartbeatTimer == old(heartbeatTimer) && liveIntervals == old(liveIntervals)
      && nextTimerId == old(nextTimerId)
      && (old(ws).Some? && readyState == Open ==>
            && sent == old(sent) + [Encode(data)]
            && reconnectAttempts == old(reconnectAttempts)
            && isReconnecting == old(isReconnecting)
            && pendingConnects == old(pendingConnects)
            && failureNotices == old(failureNotices))
      && (!(old(ws).Some? && readyState == Open) ==> sent == old(sent) && GuardedReconnect())
    }

    constructor (url: string)
      ensures Valid() && EventDriven()
      ensures this.url == url && ws.None? && reconnectAttempts == 0 && !isReconnecting
      ensures messageCallbacks == [] && heartbeatTimer.None? && liveIntervals == {}
      ensures pendingConnects == [] && sent == [] && failureNotices == 0
    {
      this.url := url;
      ws := None;
      reconnectAttempts := 0;
      messageCallbacks := [];
      heartbeatTimer := None;
      isReconnecting := false;
      liveIntervals := {};
      nextTimerId := 1;
      pendingConnects := [];
      sent := [];
      failureNotices := 0;
    }

    /** `connect`: without a signed-in user nothing happens; otherwise a new
        socket on `url/<id>` replaces the slot (the old one is not closed). */
    method Connect(userId: Option<int>)
      requires Valid()
      modifies this
      ensures Valid()
      ensures LoggedInId(userId).None? ==> ws == old(ws)
      ensures LoggedInId(userId).Some? ==> ws == Some(Socket(url + "/" + IntToString(userId.value)))
      ensures reconnectAttempts == old(reconnectAttempts) && isReconnecting == old(isReconnecting)
      ensures messageCallbacks == old(messageCallbacks) && heartbeatTimer == old(heartbeatTimer)
      ensures liveIntervals == old(liveIntervals) && nextTimerId == old(nextTimerId)
      ensures pendingConnects == old(pendingConnects) && sent == old(sent)
      ensures failureNotices == old(failureNotices)
      ensures old(EventDriven()) ==> EventDriven()
    {
      var id := LoggedInId(userId);
      if id.None? {
        return;
      }
      ws := Some(Socket(url + "/" + IntToString(id.value)));
    }

    /** `clearHeartbeat`: cancel the held interval, if any. */
    method ClearHeartbeat()
      requires Valid()
      modifies this
      ensures Valid()
      ensures heartbeatTimer.None? && liveIntervals == {}
      ensures ws == old(ws) && reconnectAttempts == old(reconnectAttempts)
      ensures isReconnecting == old(isReconnecting) && messageCallbacks == old(messageCallbacks)
      ensures nextTimerId == old(nextTimerId) && pendingConnects == old(pendingConnects)
      ensures sent == old(sent) && failureNotices == old(failureNotices)
    {
      if heartbeatTimer.Some? {
        liveIntervals := liveIntervals - {heartbeatTimer.value};
        heartbeatTimer := None;
      }
    }

    /** `startHeartbeat`: clear first, then start one new interval, so at
        most one heartbeat timer is ever alive. */
    method StartHeartbeat()
      requires Valid()
      modifies this
      ensures Valid()
      ensures heartbeatTimer == Some(old(nextTimerId)) && liveIntervals == {old(nextTimerId)}
      ensures old(heartbeatTimer).Some? ==> old(heartbeatTimer.value) !in liveIntervals
      ensures nextTimerId == old(nextTimerId) + 1
      ensures ws == old(ws) && reconnectAttempts == old(reconnectAttempts)
      ensures isReconnecting == old(isReconnecting) && messageCallbacks == old(messageCallbacks)
      ensures pendingConnects == old(pendingConnects)
      ensures sent == old(sent) && failureNotices == old(failureNotices)
    {
      ClearHeartbeat();
      var id := nextTimerId;
      nextTimerId := nextTimerId + 1;
      liveIntervals := liveIntervals + {id};
      heartbeatTimer := Some(id);
    }

    /** `onopen`: the counter goes back to 0 and the heartbeat starts; the
        reconnecting flag is left as it was. */
    method OnOpen()
      requires Valid()
      modifies this
      ensures Valid()
      ensures reconnectAttempts == 0
      ensures isReconnecting == old(isReconnecting)
      ensures heartbeatTimer == Some(old(nextTimerId)) && liveIntervals == {old(nextTimerId)}
      ensures nextTimerId == old(nextTimerId) + 1
      ensures ws == old(ws) && messageCallbacks == old(messageCallbacks)
      ensures pendingConnects == old(pendingConnects)
      ensures sent == old(sent) && failureNotices == old(failureNotices)
      ensures old(EventDriven()) ==> EventDriven()
    {
      reconnectAttempts := 0;
      StartHeartbeat();
    }

    /** `onmessage` for a frame with text `raw`, decoded as `d`. The
        callbacks' own effects are not part of the manager, only whether
        one throws: `tryThrow` is the position of the callback that throws
        on the first delivery, `catchThrow` that of the one that throws on
        the text in the `catch` block (None: none does). A throw in the
        first pass, or a parse error, sends every callback the text;
        `escaped` tells whether a throw there leaves the handler. */
    method OnMessage(d: Decoded, raw: string, now: string, parseNumeric: string -> Num,
                     tryThrow: Option<nat>, catchThrow: Option<nat>)
      returns (calls: seq<Invocation>, escaped: bool)
      ensures d.ParseError? ==>
                && calls == Dispatch(messageCallbacks, RawData(raw), catchThrow)
                && escaped == Throws(|messageCallbacks|, catchThrow)
      ensures !d.ParseError? && !Throws(|messageCallbacks|, tryThrow) ==>
                && calls == Dispatch(messageCallbacks, DeliveryFor(d, raw, now, parseNumeric), tryThrow)
                && |calls| == |messageCallbacks|
                && !escaped
      ensures !d.ParseError? && Throws(|messageCallbacks|, tryThrow) ==>
                && calls == Dispatch(messageCallbacks, DeliveryFor(d, raw, now, parseNumeric), tryThrow)
                            + Dispatch(messageCallbacks, RawData(raw), catchThrow)
                && escaped == Throws(|messageCallbacks|, catchThrow)
    {
      var threw: bool;
      match d {
        case ParseError =>
          calls, escaped := ForEach(RawData(raw), catchThrow);
          return;
        case Parsed(obj) =>
          calls, threw := ForEach(Record(Normalize(obj, now, parseNumeric)), tryThrow);
        case NotObject(v) =>
          calls, threw := ForEach(PlainValue(v), tryThrow);
      }
      escaped := false;
      if threw {
        var again;
        again, escaped := ForEach(RawData(raw), catchThrow);
        calls := calls + again;
      }
    }

    /** `messageCallbacks.forEach(callback => callback(arg))`, where the
        callback at `stop`, if any, throws. */
    method ForEach(arg: Delivery, stop: Option<nat>) returns (calls: seq<Invocation>, threw: bool)
      ensures calls == Dispatch(messageCallbacks, arg, stop)
      ensures threw == Throws(|messageCallbacks|, stop)
    {
      calls := [];
      threw := false;
      var i := 0;
      while i < |messageCallbacks| && !threw
        invariant 0 <= i <= |messageCallbacks|
        invariant |calls| == i
        invariant forall j :: 0 <= j < i ==> calls[j] == Invocation(messageCallbacks[j], arg)
        invariant threw <==> stop == Some(i - 1)
        invariant !threw ==> !(stop.Some? && stop.value < i)
      {
        calls := calls + [Invocation(messageCallbacks[i], arg)];
        threw := stop == Some(i);
        i := i + 1;
      }
      assert |calls| == |Dispatch(messageCallbacks, arg, stop)|;
    }

    /** `reconnect`: mark the sequence in progress, compute the delay from
        the counter as it stands, then either count one more attempt and
        schedule one `connect`, or give up: clear the flag and show one
        failure notice. */
    method Reconnect()
      requires Valid()
      modifies this
      ensures Valid()
      ensures old(reconnectAttempts) < MaxReconnectAttempts ==>
                && reconnectAttempts == old(reconnectAttempts) + 1
                && isReconnecting
                && pendingConnects == old(pendingConnects) + [BackoffDelay(old(reconnectAttempts))]
                && failureNotices == old(failureNotices)
      ensures old(reconnectAttempts) >= MaxReconnectAttempts ==>
                && reconnectAttempts == old(reconnectAttempts)
                && !isReconnecting
                && pendingConnects == old(pendingConnects)
                && failureNotices == old(failureNotices) + 1
      ensures ws == old(ws) && messageCallbacks == old(messageCallbacks)
      ensures heartbeatTimer == old(heartbeatTimer) && liveIntervals == old(liveIntervals)
      ensures nextTimerId == old(nextTimerId) && sent == old(sent)
    {
      isReconnecting := true;
      var delay := BackoffDelay(reconnectAttempts);
      if reconnectAttempts < MaxReconnectAttempts {
        reconnectAttempts := reconnectAttempts + 1;
        pendingConnects := pendingConnects + [delay];
      } else {
        isReconnecting := false;
        failureNotices := failureNotices + 1;
      }
    }

    /** `onclose`: the heartbeat always stops; a reconnect starts only when
        none is in progress. */
    method OnClose()
      requires Valid()
      modifies this
      ensures Valid()
      ensures heartbeatTimer.None? && liveIntervals == {}
      ensures GuardedReconnect()
      ensures ws == old(ws) && messageCallbacks == old(messageCallbacks)
      ensures nextTimerId == old(nextTimerId) && sent == old(sent)
      ensures old(EventDriven()) ==> EventDriven()
      ensures old(EventDriven()) ==> failureNotices == old(failureNotices) && (old(isReconnecting) ==> isReconnecting)
    {
      ClearHeartbeat();
      if !isReconnecting {
        Reconnect();
      }
    }

    /** `onerror` only logs: nothing changes. */
    method OnError()
    {
    }

    /** A reconnect timeout fires: it leaves the pending list and runs
        `connect`. */
    method ReconnectTimerFired(i: nat, userId: Option<int>)
      requires Valid()
      requires i < |pendingConnects|
      modifies this
      ensures Valid()
      ensures pendingConnects == old(pendingConnects[..i] + pendingConnects[i + 1..])
      ensures LoggedInId(userId).None? ==> ws == old(ws)
      ensures LoggedInId(userId).Some? ==> ws == Some(Socket(url + "/" + IntToString(userId.value)))
      ensures reconnectAttempts == old(reconnectAttempts) && isReconnecting == old(isReconnecting)
      ensures messageCallbacks == old(messageCallbacks) && heartbeatTimer == old(heartbeatTimer)
      ensures liveIntervals == old(liveIntervals) && nextTimerId == old(nextTimerId)
      ensures sent == old(sent) && failureNotices == old(failureNotices)
      ensures old(EventDriven()) ==> EventDriven()
    {
      pendingConnects := pendingConnects[..i] + pendingConnects[i + 1..];
      Connect(userId);
    }

    /** `send`: one frame when the socket is open (`readyState` is the
        browser's state of the socket in the slot); otherwise a reconnect
        unless one is in progress. The payload is never kept for later. */
    method Send(data: Outbound, readyState: ReadyState)
      requires Valid()
      modifies this
      ensures Valid()
      ensures SendEffect(data, readyState)
      ensures old(EventDriven()) ==> EventDriven()
      ensures old(EventDriven()) ==> failureNotices == old(failureNotices) && (old(isReconnecting) ==> isReconnecting)
    {
      if ws.Some? && readyState == Open {
        sent := sent + [Encode(data)];
      } else if !isReconnecting {
        Reconnect();
      }
    }

    /** The heartbeat interval fires: a ping when the socket is open, nothing
        otherwise. Only a live timer fires. */
    method HeartbeatTick(readyState: ReadyState, userId: Option<int>)
      requires Valid()
      requires heartbeatTimer.Some?
      modifies this`sent
      ensures ws.Some? && readyState == Open ==> sent == old(sent) + [Ping(userId)]
      ensures !(ws.Some? && readyState == Open) ==> sent == old(sent)
      ensures old(EventDriven()) ==> EventDriven()
    {
      if ws.Some? && readyState == Open {
        sent := sent + [Ping(userId)];
      }
    }

    /** `registerCallback`: append, duplicates included. */
    method RegisterCallback(callback: Callback)
      modifies this`messageCallbacks
      ensures messageCallbacks == old(messageCallbacks) + [callback]
      ensures old(EventDriven()) ==> EventDriven()
    {
      messageCallbacks := messageCallbacks + [callback];
    }

    /** `unregisterCallback`: remove the first occurrence, if any. */
    method UnregisterCallback(callback: Callback)
      modifies this`messageCallbacks
      ensures messageCallbacks == RemoveFirst(old(messageCallbacks), callback)
      ensures callback !in old(messageCallbacks) ==> messageCallbacks == old(messageCallbacks)
      ensures callback in old(messageCallbacks) ==> |messageCallbacks| == |old(messageCallbacks)| - 1
      ensures old(EventDriven()) ==> EventDriven()
    {
      var index := IndexOf(messageCallbacks, callback);
      if index != -1 {
        messageCallbacks := messageCallbacks[..index] + messageCallbacks[index + 1..];
      }
    }

    /** `disconnect`: stop the heartbeat and empty the socket slot (after
        asking the socket to close); callbacks stay registered. */
    method Disconnect()
      requires Valid()
      modifies this
      ensures Valid()
      ensures ws.None? && heartbeatTimer.None? && liveIntervals == {}
      ensures messageCallbacks == old(messageCallbacks)
      ensures reconnectAttempts == old(reconnectAttempts) && isReconnecting == old(isReconnecting)
      ensures nextTimerId == old(nextTimerId) && pendingConnects == old(pendingConnects)
      ensures sent == old(sent) && failureNotices == old(failureNotices)
      ensures old(EventDriven()) ==> EventDriven()
    {
      ClearHeartbeat();
      if ws.Some? {
        ws := None;
      }
    }
  }

  /** As written, `onOpen` never clears `isReconnecting`: after one
      automatic retry has been scheduled, a later close of the reopened
      socket schedules nothing (for every sequence of events this follows
      from `EventDriven`, which every handler preserves). */
  method RetryHappensOnce(url: string, user: int)
    requires user != 0
  {
    var m := new WebSocketManager(url);
    m.Connect(Some(user));
    m.OnOpen();
    m.OnClose();
    assert m.pendingConnects == [ReconnectInterval] && m.reconnectAttempts == 1 && m.isReconnecting;
    m.ReconnectTimerFired(0, Some(user));
    m.OnOpen();
    assert m.reconnectAttempts == 0 && m.isReconnecting;
    m.OnClose();
    assert m.pendingConnects == [] && m.reconnectAttempts == 0 && m.failureNotices == 0;
    m.Send(Text("hello"), Closed);
    assert m.pendingConnects == [] && m.sent == [];
  }
}
