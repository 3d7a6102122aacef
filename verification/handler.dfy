/**
  The broadcast handler's bookkeeping without its lock, goroutines and HTTP:
  subscriber channels with bounded buffers, the set of registered channels,
  the replay window of recently sent events, and the closed flag; with the
  transitions Register, Send, Dequeue, Disconnect and Close, and the replay
  selection a resuming client gets.
 */
module Handler {
  import opened Wrappers
  import opened Events

  /** The handler's configuration: replay window length and per-subscriber buffer capacity. */
  datatype Config = Config(numEventsToKeep: int, channelBufferSize: int)

  /** The configuration used when none is given. */
  const DefaultConfig: Config := Config(10, 4)

  /** HTTP status of a connection refused after Close. */
  const StatusServiceUnavailable: int := 503

  /** A subscriber channel: the events buffered in it and whether it has been closed. */
  datatype Channel = Channel(buffer: seq<Event>, closed: bool)

  /**
    The handler. `chans` holds every channel some connection may still read,
    keyed by an id standing for the channel's identity; `registered` is the
    set of channels the handler sends to (the keys of its channel map). A
    channel evicted by Send leaves `registered` but stays in `chans`, since
    its connection still drains what was buffered before the close.
   */
  datatype State = State(
    cfg: Config,
    chans: map<nat, Channel>,
    registered: set<nat>,
    window: seq<Event>,
    isClosed: bool,
    nextId: nat)

  function Max0(n: int): nat {
    if n < 0 then 0 else n
  }

  /** The invariant every reachable handler state keeps. */
  predicate Valid(h: State) {
    && 1 <= h.cfg.channelBufferSize
    && h.registered <= h.chans.Keys
    && (forall id :: id in h.chans ==> id < h.nextId)
    && (forall id :: id in h.chans ==> |h.chans[id].buffer| <= h.cfg.channelBufferSize)
    && (forall id :: id in h.registered ==> h.chans[id].closed == h.isClosed)
    && |h.window| <= Max0(h.cfg.numEventsToKeep)
  }

  /** A new handler, with the default configuration when none is given. */
  function NewHandler(cfg: Option<Config>): (h: State)
    requires cfg.Some? ==> 1 <= cfg.value.channelBufferSize
    ensures Valid(h)
    ensures h.registered == {} && h.window == [] && !h.isClosed
    ensures h.cfg == if cfg.Some? then cfg.value else DefaultConfig
  {
    State(if cfg.Some? then cfg.value else DefaultConfig, map[], {}, [], false, 0)
  }

  // ---------------------------------------------------------------- Register

  /** Outcome of a connection's registration. */
  datatype Registration = Unavailable(status: int) | Registered(id: nat, h: State)

  /**
    Registration: refused with 503 once the handler is closed; otherwise one
    new, open, empty channel joins the registered set.
   */
  function Register(h: State): (r: Registration)
    ensures r.Unavailable? <==> h.isClosed
    ensures r.Unavailable? ==> r.status == StatusServiceUnavailable
    ensures r.Registered? ==>
      && r.h.registered == h.registered + {r.id}
      && r.h.chans == h.chans[r.id := Channel([], false)]
      && r.h.window == h.window && r.h.cfg == h.cfg && !r.h.isClosed
    ensures r.Registered? && Valid(h) ==> r.id !in h.chans && Valid(r.h)
  {
    if h.isClosed then Unavailable(StatusServiceUnavailable)
    else
      var id := h.nextId;
      Registered(id, h.(chans := h.chans[id := Channel([], false)],
                        registered := h.registered + {id},
                        nextId := id + 1))
  }

  // -------------------------------------------------------------------- Send

  /** Sending panics on a closed channel; Send may run only when no registered channel is closed. */
  predicate SendAllowed(h: State) {
    h.registered <= h.chans.Keys && forall id :: id in h.registered ==> !h.chans[id].closed
  }

  /** The last `n` elements of `s` (all of them when there are fewer). */
  function Last(s: seq<Event>, n: nat): (r: seq<Event>)
    ensures |r| == if |s| <= n then |s| else n
    ensures r == s[|s| - |r|..]
  {
    if |s| <= n then s else s[|s| - n..]
  }

  /** A registered channel whose buffer is full when `e` is sent. */
  predicate IsFull(h: State, id: nat)
    requires id in h.chans
  {
    |h.chans[id].buffer| >= h.cfg.channelBufferSize
  }

  /** One channel's share of a Send: `e` is buffered when there is room; a full channel is closed instead. */
  function Offer(c: Channel, cap: int, e: Event): (c': Channel)
    ensures |c.buffer| < cap ==> c' == Channel(c.buffer + [e], c.closed)
    ensures |c.buffer| >= cap ==> c' == Channel(c.buffer, true)
  {
    if |c.buffer| < cap then c.(buffer := c.buffer + [e]) else c.(closed := true)
  }

  /**
    The replay window after `e` is sent: `e` joins at the back and the
    oldest entry is dropped when the window would exceed `keep` entries.
   */
  function PushWindow(w: seq<Event>, e: Event, keep: int): (w': seq<Event>)
    ensures |w'| <= |w| + 1
    ensures w' == (w + [e])[|w + [e]| - |w'|..]
    ensures 0 < |w'| ==> w'[|w'| - 1] == e
    ensures |w| <= Max0(keep) ==> w' == Last(w + [e], Max0(keep))
  {
    var queue := w + [e];
    if |queue| > keep then queue[1..] else queue
  }

  /**
    Send: every registered channel with room gets `e` at the back of its
    buffer; every registered channel that is full is closed and dropped from
    the registered set. Then `e` joins the replay window. Send never waits:
    the only test per channel is its buffer's length against the capacity.
   */
  function Send(h: State, e: Event): (h': State)
    requires SendAllowed(h)
    ensures h'.registered <= h.registered
    ensures forall id :: id in h.registered ==> (id in h'.registered <==> !IsFull(h, id))
    ensures h'.chans.Keys == h.chans.Keys
    ensures forall id :: id in h'.registered ==> h'.chans[id] == Channel(h.chans[id].buffer + [e], false)
    ensures forall id :: id in h.registered && id !in h'.registered ==>
      h'.chans[id] == Channel(h.chans[id].buffer, true)
    ensures forall id :: id in h.chans && id !in h.registered ==> h'.chans[id] == h.chans[id]
    ensures h'.window == PushWindow(h.window, e, h.cfg.numEventsToKeep)
    ensures h'.cfg == h.cfg && h'.isClosed == h.isClosed && h'.nextId == h.nextId
  {
    var cap := h.cfg.channelBufferSize;
    var chans := map id | id in h.chans ::
      if id in h.registered then Offer(h.chans[id], cap, e) else h.chans[id];
    var kept := set id | id in h.registered && |h.chans[id].buffer| < cap;
    h.(chans := chans, registered := kept, window := PushWindow(h.window, e, h.cfg.numEventsToKeep))
  }

  /** What Send does to one channel: it offers `e` to a registered channel and leaves the others alone. */
  lemma SendChannel(h: State, e: Event, id: nat)
    requires SendAllowed(h) && id in h.chans
    ensures id in Send(h, e).chans
    ensures Send(h, e).chans[id] ==
      if id in h.registered then Offer(h.chans[id], h.cfg.channelBufferSize, e) else h.chans[id]
    ensures id in Send(h, e).registered <==> id in h.registered && !IsFull(h, id)
  {
  }

  /** Send keeps the invariant. */
  lemma SendValid(h: State, e: Event)
    requires Valid(h) && !h.isClosed
    ensures SendAllowed(h) && Valid(Send(h, e))
  {
    var h' := Send(h, e);
    var cap := h.cfg.channelBufferSize;
    assert SendAllowed(h);
    forall id | id in h'.chans
      ensures id < h'.nextId && |h'.chans[id].buffer| <= cap
    {
      SendChannel(h, e, id);
    }
    forall id | id in h'.registered
      ensures id in h'.chans && h'.chans[id].closed == h'.isClosed
    {
      SendChannel(h, e, id);
    }
    assert |h'.window| <= Max0(h.cfg.numEventsToKeep);
  }

  // ---------------------------------------------------------------- Dequeue

  /** What a connection's receive on its channel gives. */
  datatype Receive = Received(e: Event, h: State) | ChannelClosed | WouldBlock

  /**
    A receive on channel `id`: the oldest buffered event, even from a closed
    channel; `ChannelClosed` once a closed channel is drained; `WouldBlock`
    when an open channel is empty. A receive changes nothing but that
    channel's buffer.
   */
  function Dequeue(h: State, id: nat): (r: Receive)
    requires id in h.chans
    ensures r.ChannelClosed? <==> h.chans[id].closed && h.chans[id].buffer == []
    ensures r.WouldBlock? <==> !h.chans[id].closed && h.chans[id].buffer == []
    ensures r.Received? ==>
      && id in r.h.chans
      && [r.e] + r.h.chans[id].buffer == h.chans[id].buffer
      && r.h == h.(chans := h.chans[id := r.h.chans[id]])
      && r.h.chans[id].closed == h.chans[id].closed
  {
    var c := h.chans[id];
    if |c.buffer| == 0 then
      if c.closed then ChannelClosed else WouldBlock
    else
      assert c.buffer == [c.buffer[0]] + c.buffer[1..];
      Received(c.buffer[0], h.(chans := h.chans[id := c.(buffer := c.buffer[1..])]))
  }

  /** A receive keeps the invariant. */
  lemma DequeueValid(h: State, id: nat)
    requires Valid(h) && id in h.chans && Dequeue(h, id).Received?
    ensures Valid(Dequeue(h, id).h)
  {
  }

  // ------------------------------------------------------------- Disconnect

  /** A peer's disconnect: its channel leaves the registered set and nothing else changes. */
  function Disconnect(h: State, id: nat): (h': State)
    ensures h'.registered == h.registered - {id}
    ensures h' == h.(registered := h'.registered)
  {
    h.(registered := h.registered - {id})
  }

  // ------------------------------------------------------------------ Close

  /** Closing an already closed channel panics; Close may run only when no registered channel is closed. */
  predicate CloseAllowed(h: State) {
    SendAllowed(h)
  }

  /**
    Close: the handler is marked closed and every registered channel is
    closed, keeping its buffered events; registrations and the window stay.
   */
  function Close(h: State): (h': State)
    requires CloseAllowed(h)
    ensures h'.isClosed
    ensures h'.chans.Keys == h.chans.Keys && h'.registered == h.registered
    ensures forall id :: id in h.registered ==> h'.chans[id] == Channel(h.chans[id].buffer, true)
    ensures forall id :: id in h.chans && id !in h.registered ==> h'.chans[id] == h.chans[id]
    ensures h'.window == h.window && h'.cfg == h.cfg && h'.nextId == h.nextId
    ensures Register(h').Unavailable?
  {
    var chans := map id | id in h.chans ::
      if id in h.registered then h.chans[id].(closed := true) else h.chans[id];
    h.(chans := chans, isClosed := true)
  }

  /** Close keeps the invariant. */
  lemma CloseValid(h: State)
    requires Valid(h) && !h.isClosed
    ensures CloseAllowed(h) && Valid(Close(h))
  {
  }

  /**
    The events a connection receives from a closed channel before its serve
    loop ends: exactly what was buffered, in order, after which the channel
    reads as closed.
   */
  function Drain(h: State, id: nat): (es: seq<Event>)
    requires id in h.chans && h.chans[id].closed
    ensures es == h.chans[id].buffer
    decreases |h.chans[id].buffer|
  {
    match Dequeue(h, id)
    case Received(e, h') => [e] + Drain(h', id)
    case ChannelClosed => []
  }

  // ----------------------------------------------------------------- Replay

  /** Index of the last window entry with the given id, or -1 when none has it. */
  function LastIndexOfId(w: seq<Event>, id: string): (i: int)
    ensures -1 <= i < |w|
    ensures i == -1 <==> forall k :: 0 <= k < |w| ==> w[k].id != id
    ensures 0 <= i ==> w[i].id == id && forall k :: i < k < |w| ==> w[k].id != id
  {
    if |w| == 0 then -1
    else if w[|w| - 1].id == id then |w| - 1
    else LastIndexOfId(w[..|w| - 1], id)
  }

  /**
    The events replayed to a client resuming after `lastEventId`: nothing
    for an empty id; otherwise the entries after the last one carrying that
    id, or the whole window when none does.
   */
  function Replay(w: seq<Event>, lastEventId: string): (r: seq<Event>)
    ensures lastEventId == "" ==> r == []
    ensures |r| <= |w|
    ensures r == w[|w| - |r|..]
    ensures forall k :: 0 <= k < |r| ==> r[k].id != lastEventId
    ensures lastEventId != "" && (exists k :: 0 <= k < |w| && w[k].id == lastEventId) ==>
      |r| < |w| && w[|w| - |r| - 1].id == lastEventId
    ensures lastEventId != "" && (forall k :: 0 <= k < |w| ==> w[k].id != lastEventId) ==> r == w
  {
    if lastEventId == "" then [] else w[LastIndexOfId(w, lastEventId) + 1..]
  }

  /** The replay selection loop as the handler runs it, over the window. */
  method SelectReplay(w: seq<Event>, lastEventId: string) returns (events: seq<Event>)
    ensures events == Replay(w, lastEventId)
  {
    events := [];
    if lastEventId != "" {
      var lastEventIdx := -1;
      var i := 0;
      while i < |w|
        invariant 0 <= i <= |w|
        invariant -1 <= lastEventIdx < i
        invariant lastEventIdx == LastIndexOfId(w[..i], lastEventId)
      {
        assert w[..i + 1][..i] == w[..i];
        if lastEventId == w[i].id {
          lastEventIdx := i;
        }
        i := i + 1;
      }
      assert w[..|w|] == w;
      events := events + w[lastEventIdx + 1..];
    }
  }

  // --------------------------------------------------------- Connections

  /**
    The optional hooks of one connection: the events to send right after
    registration (from the connection's value) and the per-event filter.
   */
  datatype Hooks<!C> = Hooks(init: Option<C -> seq<Event>>, filter: Option<(C, Event) -> bool>)

  /** Whether an event is written to a connection with value `v`: no filter, or the filter accepts it. */
  predicate Passes<C>(hooks: Hooks<C>, v: C, e: Event) {
    hooks.filter.None? || hooks.filter.value(v, e)
  }

  /** The events of `es` that pass the filter, in order. */
  function Filtered<C>(hooks: Hooks<C>, v: C, es: seq<Event>): (r: seq<Event>)
    ensures |r| <= |es|
    ensures forall k :: 0 <= k < |r| ==> r[k] in es && Passes(hooks, v, r[k])
    ensures forall k :: 0 <= k < |es| && Passes(hooks, v, es[k]) ==> es[k] in r
    ensures hooks.filter.None? ==> r == es
  {
    if |es| == 0 then []
    else
      var r := (if Passes(hooks, v, es[0]) then [es[0]] else []) + Filtered(hooks, v, es[1..]);
      assert forall k :: 1 <= k < |es| ==> es[k] == es[1..][k - 1];
      r
  }

  /** One event is kept exactly when it passes the filter. */
  lemma FilteredOne<C>(hooks: Hooks<C>, v: C, e: Event)
    ensures Filtered(hooks, v, [e]) == if Passes(hooks, v, e) then [e] else []
  {
    assert [e][1..] == [];
  }

  /**
    Filtering keeps the order of the events it keeps: the events of `a`
    that pass come before those of `b`.
   */
  lemma {:induction false} FilteredAppend<C>(hooks: Hooks<C>, v: C, a: seq<Event>, b: seq<Event>)
    ensures Filtered(hooks, v, a + b) == Filtered(hooks, v, a) + Filtered(hooks, v, b)
    decreases |a|
  {
    if |a| == 0 {
      assert a + b == b;
    } else {
      assert (a + b)[0] == a[0];
      assert (a + b)[1..] == a[1..] + b;
      FilteredAppend(hooks, v, a[1..], b);
    }
  }

  /** The events the init hook supplies, or none. */
  function InitEvents<C>(hooks: Hooks<C>, v: C): seq<Event> {
    if hooks.init.Some? then hooks.init.value(v) else []
  }

  /** One connection's serve loop: its channel, what it has written, and whether it has returned. */
  datatype Conn = Conn(id: nat, output: seq<Event>, done: bool)

  /** Outcome of accepting a connection. */
  datatype Accept = Rejected(status: int) | Accepted(h: State, conn: Conn)

  /**
    A connection arrives: it is registered, then (after the lock is
    released and taken again) the replay for its Last-Event-ID is read from
    the window, filtered and written, then the init hook's events are
    written unfiltered. `window` is the window as the replay reads it.
   */
  function AcceptConnection<C>(h: State, hooks: Hooks<C>, v: C, lastEventId: string, window: seq<Event>): (a: Accept)
    ensures a.Rejected? <==> h.isClosed
    ensures a.Rejected? ==> a.status == StatusServiceUnavailable
    ensures a.Accepted? ==>
      && Register(h).Registered? && a.h == Register(h).h && a.conn.id == Register(h).id
      && a.conn.output == Filtered(hooks, v, Replay(window, lastEventId)) + InitEvents(hooks, v)
      && !a.conn.done
      && a.conn.id in a.h.registered
      && a.conn.id in a.h.chans
      && a.h.chans[a.conn.id] == Channel([], false)
  {
    match Register(h)
    case Unavailable(status) => Rejected(status)
    case Registered(id, h') =>
      Accepted(h', Conn(id, Filtered(hooks, v, Replay(window, lastEventId)) + InitEvents(hooks, v), false))
  }

  /**
    The serve loop's receive branch: a dequeued event is written when it
    passes the filter; a closed, drained channel ends the loop without
    touching the handler; an empty open channel leaves everything as is.
   */
  function ServeReceive<C>(h: State, c: Conn, hooks: Hooks<C>, v: C): (hc: (State, Conn))
    requires c.id in h.chans && !c.done
    ensures hc.1.id == c.id
    ensures c.output <= hc.1.output
    ensures hc.0.registered == h.registered
    ensures hc.1.done <==> h.chans[c.id].closed && h.chans[c.id].buffer == []
    ensures h.chans[c.id].buffer == [] ==> hc.0 == h && hc.1.output == c.output
    ensures h.chans[c.id].buffer != [] ==>
      && hc.0 == h.(chans := h.chans[c.id := Channel(h.chans[c.id].buffer[1..], h.chans[c.id].closed)])
      && hc.1.output == c.output + (if Passes(hooks, v, h.chans[c.id].buffer[0]) then [h.chans[c.id].buffer[0]] else [])
  {
    match Dequeue(h, c.id)
    case Received(e, h') =>
      (h', c.(output := c.output + (if Passes(hooks, v, e) then [e] else [])))
    case ChannelClosed => (h, c.(done := true))
    case WouldBlock => (h, c)
  }

  /** The serve loop's disconnect branch: the channel is deregistered and the loop ends. */
  function ServeDisconnect(h: State, c: Conn): (hc: (State, Conn))
    ensures hc.0.registered == h.registered - {c.id}
    ensures hc.0 == h.(registered := hc.0.registered)
    ensures hc.1.id == c.id && hc.1.output == c.output && hc.1.done
  {
    (Disconnect(h, c.id), c.(done := true))
  }
}
