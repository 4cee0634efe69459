/** One feed's WebSocket connection (createConnection): the socket it holds,
    the reconnect timer, the liveness watchdog and the handlers that move
    characters from the feed into its side's intake queue. The host's event
    loop is the caller: each event handler is a method it may invoke when
    the event can occur, and the current time and document.hidden are
    parameters. */
module Feeds {
  import opened BodyList
  import opened Intake
  import opened Wrappers

  /** How long a connection may go without data before the watchdog replaces it. */
  const StaleAfter: nat := 5000

  /** WebSocket.readyState. */
  datatype ReadyState = Connecting | Open | Closing | Closed

  /** The status dot: connected or disconnected. */
  datatype Status = Disconnected | Connected

  /** A socket that still may open or deliver data. */
  predicate Live(st: ReadyState) {
    st == Connecting || st == Open
  }

  /** WebSocket.close(): a connecting or open socket starts closing; one that
      is already closing or closed is left as it is. */
  function AfterClose(st: ReadyState): (r: ReadyState)
    ensures !Live(r)
    ensures !Live(st) ==> r == st
  {
    if Live(st) then Closing else st
  }

  /** The sockets after connect(): the current one is closed if it is still
      live, and a new connecting socket becomes the current one. */
  function Reconnected(sockets: seq<ReadyState>): (r: seq<ReadyState>)
    requires |sockets| > 0
    ensures |r| == |sockets| + 1 && r[|sockets|] == Connecting
    ensures forall i :: 0 <= i < |sockets| - 1 ==> r[i] == sockets[i]
    ensures !Live(r[|sockets| - 1])
  {
    sockets[|sockets| - 1 := AfterClose(sockets[|sockets| - 1])] + [Connecting]
  }

  /** Only the newest socket may be live. */
  predicate OnlyNewestLive(sockets: seq<ReadyState>) {
    forall i :: 0 <= i < |sockets| - 1 ==> !Live(sockets[i])
  }

  /** connect() keeps at most one live socket per connection: whatever the
      old socket was doing, after connect() only the new one is live. */
  lemma {:induction false} ReconnectedOnlyNewestLive(sockets: seq<ReadyState>)
    requires |sockets| > 0 && OnlyNewestLive(sockets)
    ensures OnlyNewestLive(Reconnected(sockets))
    ensures forall i :: 0 <= i < |sockets| ==> !Live(Reconnected(sockets)[i])
  {
    var r := Reconnected(sockets);
    forall i | 0 <= i < |sockets| ensures !Live(r[i]) {
      if i < |sockets| - 1 {
        assert r[i] == sockets[i];
      }
    }
  }

  /** The watchdog's condition: data has been seen since the watchdog last
      fired, and none for more than StaleAfter milliseconds. */
  predicate Stale(lastData: int, now: int) {
    lastData != 0 && now - lastData > StaleAfter
  }

  class Connection {
    const side: Side
    const queue: DigitQueue
    /** Every socket this connection has created, oldest first; the newest is
        conn.ws. A socket is known by its position here. */
    var sockets: seq<ReadyState>
    /** The sockets whose onclose and onerror connect() has cleared. */
    var detached: set<nat>
    /** conn.reconnectTimer: the handle of the pending reconnect timer. */
    var reconnectTimer: Option<nat>
    /** The reconnect timers the host has pending for this connection. */
    var armed: set<nat>
    /** The handle setTimeout returns next; handles are positive. */
    var nextTimer: nat
    /** conn.lastData: when data or the open event last arrived; 0 for none. */
    var lastData: int
    var status: Status

    function Current(): nat
      reads this
      requires |sockets| > 0
    {
      |sockets| - 1
    }

    /** Only conn.ws may be live; cleared handlers belong to older sockets;
        at most one reconnect timer is pending, and it is the one recorded. */
    ghost predicate Valid()
      reads this
    {
      |sockets| > 0 && OnlyNewestLive(sockets) &&
      (forall d :: d in detached ==> d < |sockets| - 1) &&
      armed == (if reconnectTimer.Some? then {reconnectTimer.value} else {}) &&
      nextTimer > 0 && (forall t :: t in armed ==> 0 < t < nextTimer)
    }

    /** createConnection: the status starts disconnected, no data has been
        seen, no timer is pending, and connect() (with no socket to close yet)
        creates the first socket. */
    constructor (side: Side, queue: DigitQueue)
      ensures Valid() && this.side == side && this.queue == queue
      ensures sockets == [Connecting] && detached == {}
      ensures reconnectTimer == None && armed == {}
      ensures lastData == 0 && status == Disconnected
    {
      this.side, this.queue := side, queue;
      sockets, detached := [Connecting], {};
      reconnectTimer, armed, nextTimer := None, {}, 1;
      lastData, status := 0, Disconnected;
    }

    /** connect(): if conn.ws is connecting or open, clear its onclose and
        onerror and close it; then create a new socket and make it conn.ws. */
    method Connect()
      requires Valid()
      modifies this`sockets, this`detached
      ensures Valid()
      ensures sockets == Reconnected(old(sockets))
      ensures Live(old(sockets)[old(Current())]) ==> detached == old(detached) + {old(Current())}
      ensures !Live(old(sockets)[old(Current())]) ==> detached == old(detached)
    {
      var ws := Current();
      if Live(sockets[ws]) {
        detached := detached + {ws};
        sockets := sockets[ws := AfterClose(sockets[ws])];
      }
      sockets := sockets + [Connecting];
      ReconnectedOnlyNewestLive(old(sockets));
    }

    /** scheduleReconnect(): a no-op while a reconnect timer is pending;
        otherwise arm one, so there is never more than one. */
    method ScheduleReconnect()
      requires Valid()
      modifies this`reconnectTimer, this`armed, this`nextTimer
      ensures Valid() && reconnectTimer.Some? && armed == {reconnectTimer.value}
      ensures old(reconnectTimer).Some? ==>
        reconnectTimer == old(reconnectTimer) && armed == old(armed) && nextTimer == old(nextTimer)
      ensures old(reconnectTimer).None? ==>
        reconnectTimer == Some(old(nextTimer)) && nextTimer == old(nextTimer) + 1
    {
      if reconnectTimer.Some? {
        return;
      }
      reconnectTimer := Some(nextTimer);
      armed := armed + {nextTimer};
      nextTimer := nextTimer + 1;
    }

    /** The reconnect timer fires (2000 ms after it was armed; the host
        decides when): clear conn.reconnectTimer, then connect(). */
    method ReconnectTimerFires(t: nat)
      requires Valid() && t in armed
      modifies this`reconnectTimer, this`armed, this`sockets, this`detached
      ensures Valid() && reconnectTimer == None && armed == {}
      ensures sockets == Reconnected(old(sockets))
      ensures Live(old(sockets)[old(Current())]) ==> detached == old(detached) + {old(Current())}
      ensures !Live(old(sockets)[old(Current())]) ==> detached == old(detached)
    {
      armed := armed - {t};
      reconnectTimer := None;
      Connect();
    }

    /** onopen: only conn.ws can still be connecting, so this is the current
        socket; the status turns connected and the data clock restarts. */
    method OnOpen(s: nat, now: int)
      requires Valid() && s < |sockets| && sockets[s] == Connecting
      modifies this`sockets, this`status, this`lastData
      ensures Valid() && s == Current()
      ensures sockets == old(sockets)[s := Open]
      ensures status == Connected && lastData == now
    {
      sockets := sockets[s := Open];
      status := Connected;
      lastData := now;
    }

    /** onmessage: while the page is hidden the data is dropped; otherwise
        every character joins the end of this feed's side of the queue, in
        order, and the data clock restarts. */
    method OnMessage(s: nat, data: seq<char>, hidden: bool, now: int)
      requires Valid() && s < |sockets| && sockets[s] == Open
      modifies this`lastData, queue
      ensures s == Current()
      ensures hidden ==> queue.Of(side) == old(queue.Of(side)) && lastData == old(lastData)
      ensures !hidden ==> queue.Of(side) == old(queue.Of(side)) + data && lastData == now
      ensures queue.Of(Other(side)) == old(queue.Of(Other(side)))
    {
      if hidden {
        return;
      }
      for i := 0 to |data|
        invariant queue.Of(side) == old(queue.Of(side)) + data[..i]
        invariant queue.Of(Other(side)) == old(queue.Of(Other(side)))
      {
        queue.Push(side, data[i]);
      }
      assert data[..|data|] == data;
      lastData := now;
    }

    /** The task the host runs once the connection behind socket s has
        closed (section "The WebSocket connection is closed" of the WHATWG
        WebSockets Standard): readyState becomes CLOSED, then the error event
        fires if the connection failed, then the close event, with no other
        callback in between. */
    method ConnectionClosed(s: nat, failed: bool)
      requires Valid() && s < |sockets| && sockets[s] != Closed
      modifies this`sockets, this`status, this`reconnectTimer, this`armed, this`nextTimer
      ensures Valid()
      ensures sockets == old(sockets)[s := Closed]
      ensures s in detached || s != Current() ==>
        status == old(status) && reconnectTimer == old(reconnectTimer) &&
        armed == old(armed) && nextTimer == old(nextTimer)
      ensures s !in detached && s == Current() ==>
        status == Disconnected && reconnectTimer.Some? && armed == {reconnectTimer.value} &&
        (old(reconnectTimer).Some? ==> reconnectTimer == old(reconnectTimer))
    {
      sockets := sockets[s := Closed];
      if failed {
        OnError(s);
      }
      OnClose(s);
    }

    /** onclose: a socket whose handler connect() cleared, or that is no
        longer conn.ws, changes nothing; for conn.ws the status turns
        disconnected and a reconnect is scheduled. */
    method OnClose(s: nat)
      requires Valid() && s < |sockets| && sockets[s] == Closed
      modifies this`status, this`reconnectTimer, this`armed, this`nextTimer
      ensures Valid()
      ensures s in detached || s != Current() ==>
        status == old(status) && reconnectTimer == old(reconnectTimer) &&
        armed == old(armed) && nextTimer == old(nextTimer)
      ensures s !in detached && s == Current() ==>
        status == Disconnected && reconnectTimer.Some? && armed == {reconnectTimer.value} &&
        (old(reconnectTimer).Some? ==> reconnectTimer == old(reconnectTimer))
    {
      if s in detached {
        return;
      }
      if s != Current() {
        return;
      }
      status := Disconnected;
      ScheduleReconnect();
    }

    /** onerror: a socket whose handler connect() cleared, or that is no
        longer conn.ws, is ignored; conn.ws has close() called on it, which
        does nothing because the socket is already closed when the error
        event fires. */
    method OnError(s: nat)
      requires Valid() && s < |sockets| && sockets[s] == Closed
      modifies this`sockets
      ensures Valid() && sockets == old(sockets)
    {
      if s in detached {
        return;
      }
      if s != Current() {
        return;
      }
      sockets := sockets[s := AfterClose(sockets[s])];
    }

    /** The liveness watchdog's tick, which the host runs every 2000 ms: when
        data has been seen but none for more than StaleAfter milliseconds,
        forget it and connect() again. */
    method LivenessTick(now: int)
      requires Valid()
      modifies this`lastData, this`sockets, this`detached
      ensures Valid()
      ensures Stale(old(lastData), now) ==> lastData == 0 && sockets == Reconnected(old(sockets))
      ensures Stale(old(lastData), now) && Live(old(sockets)[old(Current())]) ==>
        detached == old(detached) + {old(Current())}
      ensures Stale(old(lastData), now) && !Live(old(sockets)[old(Current())]) ==>
        detached == old(detached)
      ensures !Stale(old(lastData), now) ==>
        lastData == old(lastData) && sockets == old(sockets) && detached == old(detached)
    {
      if lastData != 0 && now - lastData > StaleAfter {
        lastData := 0;
        Connect();
      }
    }
  }
}
