/**
  The handler scenarios of the repository's handler tests, stated on the
  model: propagation, client and server disconnect, replay after a missed
  event, and the connection hooks.
 */
module HandlerExamples {
  import opened Wrappers
  import opened Events
  import opened Handler

  /** An event with every field empty. */
  const Blank: Event := Event("", "", "")

  /** A sent event reaches a registered connection. */
  lemma BasicPropagation(e: Event)
    ensures var r := Register(NewHandler(None));
      && r.Registered?
      && r.id in Send(r.h, e).chans
      && Dequeue(Send(r.h, e), r.id) == Received(e, Send(r.h, e).(chans := Send(r.h, e).chans[r.id := Channel([], false)]))
  {
    var r := Register(NewHandler(None));
    SentThenReceived(r.h, r.id, e);
  }

  /** Lemma: an event sent while a registered channel is empty is what that channel's receive gives next. */
  lemma SentThenReceived(h: State, id: nat, e: Event)
    requires Valid(h) && !h.isClosed && id in h.registered && h.chans[id] == Channel([], false)
    ensures id in Send(h, e).chans
    ensures Dequeue(Send(h, e), id) == Received(e, Send(h, e).(chans := Send(h, e).chans[id := Channel([], false)]))
  {
    SendValid(h, e);
    SendChannel(h, e, id);
    ReceiveOnly(Send(h, e), id, e);
  }

  /** Lemma: a channel holding one event gives it and is left empty. */
  lemma ReceiveOnly(h: State, id: nat, e: Event)
    requires id in h.chans && h.chans[id] == Channel([e], false)
    ensures Dequeue(h, id) == Received(e, h.(chans := h.chans[id := Channel([], false)]))
  {
    assert [e][1..] == [];
  }

  /** A client that goes away leaves no registered channel behind. */
  lemma ClientDisconnect<C>(hooks: Hooks<C>, v: C, lastEventId: string)
    ensures var a := AcceptConnection(NewHandler(None), hooks, v, lastEventId, []);
      && a.Accepted?
      && ServeDisconnect(a.h, a.conn).0.registered == {}
      && ServeDisconnect(a.h, a.conn).1.done
  {
  }

  /**
    After Close, a waiting connection's loop ends and a new connection is
    refused with 503.
   */
  lemma ServerDisconnect<C>(hooks: Hooks<C>, v: C)
    ensures var a := AcceptConnection(NewHandler(None), hooks, v, "", []);
      && a.Accepted?
      && CloseAllowed(a.h)
      && var h := Close(a.h);
      && a.conn.id in h.chans
      && ServeReceive(h, a.conn, hooks, v).1.done
      && AcceptConnection(h, hooks, v, "", h.window) == Rejected(503)
  {
    var a := AcceptConnection(NewHandler(None), hooks, v, "", []);
    var h := Close(a.h);
    assert h.chans[a.conn.id] == Channel([], true);
  }

  /** Two sends into an empty window of capacity at least two leave both events in it, in order. */
  lemma WindowAfterTwoSends(h: State, e1: Event, e2: Event)
    requires Valid(h) && !h.isClosed && h.window == [] && 2 <= h.cfg.numEventsToKeep
    ensures SendAllowed(Send(h, e1))
    ensures Send(Send(h, e1), e2).window == [e1, e2]
  {
    var h1 := Send(h, e1);
    assert h1.window == PushWindow([], e1, h.cfg.numEventsToKeep);
    assert [] + [e1] == [e1];
    assert h1.window == [e1];
    assert [e1] + [e2] == [e1, e2];
  }

  /** A client resuming after the first of two events gets the second. */
  lemma ReplayAfterFirst(e1: Event, e2: Event)
    requires e1.id == "1" && e2.id != "1"
    ensures Replay([e1, e2], "1") == [e2]
  {
    var w := [e1, e2];
    assert w[..1] == [e1];
    assert LastIndexOfId([e1], "1") == 0;
    assert LastIndexOfId(w, "1") == LastIndexOfId(w[..1], "1") == 0;
    assert w[1..] == [e2];
  }

  /**
    A client that saw the event with id "1", lost its channel, and missed
    the next event gets that next event replayed when it reconnects.
   */
  lemma SendLastEvents<C>(h: State, hooks: Hooks<C>, v: C, e1: Event)
    requires Valid(h) && !h.isClosed && h.window == []
    requires 2 <= h.cfg.numEventsToKeep
    requires e1.id == "1" && hooks.init.None? && hooks.filter.None?
    ensures SendAllowed(Send(h, e1))
    ensures var h2 := Send(Send(h, e1), Blank);
      && h2.window == [e1, Blank]
      && AcceptConnection(h2, hooks, v, "1", h2.window).Accepted?
      && AcceptConnection(h2, hooks, v, "1", h2.window).conn.output == [Blank]
  {
    WindowAfterTwoSends(h, e1, Blank);
    SendValid(h, e1);
    ResumeAfterFirst(Send(Send(h, e1), Blank), hooks, v, e1);
  }

  /** Lemma: without hooks, a connection resuming after id "1" from the window `[e1, Blank]` is sent `Blank` alone. */
  lemma ResumeAfterFirst<C>(h: State, hooks: Hooks<C>, v: C, e1: Event)
    requires !h.isClosed && h.window == [e1, Blank] && e1.id == "1"
    requires hooks.init.None? && hooks.filter.None?
    ensures AcceptConnection(h, hooks, v, "1", h.window).Accepted?
    ensures AcceptConnection(h, hooks, v, "1", h.window).conn.output == [Blank]
  {
    ReplayAfterFirst(e1, Blank);
    assert InitEvents(hooks, v) == [];
    assert [Blank] + [] == [Blank];
  }

  /** The hooks of the callback test: one blank init event, and a filter that admits the value "1". */
  function CallbackHooks(): (hooks: Hooks<string>)
    ensures InitEvents(hooks, "1") == [Blank]
    ensures forall e :: Passes(hooks, "1", e)
    ensures forall e :: !Passes(hooks, "2", e)
  {
    Hooks(Some((v: string) => [Blank]), Some((v: string, e: Event) => v == "1"))
  }

  /** With the callback hooks and connection value "1", a new connection first gets the init event. */
  lemma CallbackInit(h: State)
    requires !h.isClosed
    ensures var a := AcceptConnection(h, CallbackHooks(), "1", "", []);
      && a.Accepted?
      && a.conn.output == [Blank]
  {
    var hooks := CallbackHooks();
    var none: seq<Event> := [];
    assert Replay(none, "") == none;
    assert Filtered(hooks, "1", none) == none;
    assert InitEvents(hooks, "1") == [Blank];
    assert none + [Blank] == [Blank];
  }

  /**
    With the callback hooks and connection value "1", a sent event is then
    written after the init event: two events.
   */
  lemma CallbackReceive(h: State, c: Conn)
    requires Valid(h) && !h.isClosed && c.id in h.registered && h.chans[c.id] == Channel([], false)
    requires c.output == [Blank] && !c.done
    ensures SendAllowed(h) && c.id in Send(h, Blank).chans
    ensures ServeReceive(Send(h, Blank), c, CallbackHooks(), "1").1.output == [Blank, Blank]
  {
    var h1 := Send(h, Blank);
    assert h1.chans[c.id] == Channel([Blank], false);
  }
}
