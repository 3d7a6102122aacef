/**
  Properties of interleavings of handler transitions while the handler is
  open: per-subscriber delivery order, and the replay window as the last
  events sent.
 */
module HandlerTraces {
  import opened Events
  import opened Handler

  /** One transition of an open handler. */
  datatype Op = SendOp(e: Event) | RegisterOp | DequeueOp(id: nat) | DisconnectOp(id: nat)

  /** The handler after one transition; a receive that finds nothing changes nothing. */
  function Apply(h: State, op: Op): (h': State)
    requires Valid(h) && !h.isClosed
    ensures Valid(h') && !h'.isClosed
    ensures h'.cfg == h.cfg
    ensures h.chans.Keys <= h'.chans.Keys
  {
    match op
    case SendOp(e) =>
      SendValid(h, e);
      Send(h, e)
    case RegisterOp =>
      (match Register(h)
       case Registered(_, h') => h'
       case Unavailable(_) => h)
    case DequeueOp(id) =>
      if id in h.chans then
        match Dequeue(h, id)
        case Received(_, h') =>
          DequeueValid(h, id);
          h'
        case _ => h
      else h
    case DisconnectOp(id) => Disconnect(h, id)
  }

  /** The handler after a sequence of transitions. */
  function RunOps(h: State, ops: seq<Op>): (h': State)
    requires Valid(h) && !h.isClosed
    ensures Valid(h') && !h'.isClosed
    ensures h'.cfg == h.cfg
    ensures h.chans.Keys <= h'.chans.Keys
    decreases |ops|
  {
    if |ops| == 0 then h else RunOps(Apply(h, ops[0]), ops[1..])
  }

  /** The events sent by a sequence of transitions, in order. */
  function SentAll(ops: seq<Op>): seq<Event> {
    if |ops| == 0 then []
    else (if ops[0].SendOp? then [ops[0].e] else []) + SentAll(ops[1..])
  }

  /** The event channel `x` hands to its connection in one transition, if any. */
  function Taken(h: State, op: Op, x: nat): seq<Event>
    requires x in h.chans
  {
    if op == DequeueOp(x) && |h.chans[x].buffer| > 0 then [h.chans[x].buffer[0]] else []
  }

  /** The events channel `x` hands to its connection over a sequence of transitions. */
  function TakenAll(h: State, ops: seq<Op>, x: nat): seq<Event>
    requires Valid(h) && !h.isClosed && x in h.chans
    decreases |ops|
  {
    if |ops| == 0 then []
    else Taken(h, ops[0], x) + TakenAll(Apply(h, ops[0]), ops[1..], x)
  }

  /** A channel that has left the registered set never re-enters it. */
  lemma StaysDeregistered(h: State, op: Op, x: nat)
    requires Valid(h) && !h.isClosed && x in h.chans && x !in h.registered
    ensures x !in Apply(h, op).registered
  {
  }

  /**
    A send, seen from channel `x`: the buffer grows by `e` while `x` stays
    registered, and is otherwise left as it was, a prefix of that.
   */
  lemma SendKeepsOrder(h: State, e: Event, x: nat)
    requires SendAllowed(h) && x in h.chans
    ensures x in Send(h, e).chans
    ensures Send(h, e).chans[x].buffer <= h.chans[x].buffer + [e]
    ensures x in Send(h, e).registered ==> Send(h, e).chans[x].buffer == h.chans[x].buffer + [e]
  {
    SendChannel(h, e, x);
    assert h.chans[x].buffer <= h.chans[x].buffer + [e];
  }

  /**
    One transition, seen from channel `x`: what it hands out followed by
    what stays buffered is what was buffered followed by what it sends,
    while `x` stays registered; once `x` is dropped, a prefix of it.
   */
  lemma FifoStep(h: State, op: Op, x: nat)
    requires Valid(h) && !h.isClosed && x in h.chans
    ensures var h' := Apply(h, op);
      var sent := if op.SendOp? then [op.e] else [];
      && x in h'.chans
      && Taken(h, op, x) + h'.chans[x].buffer <= h.chans[x].buffer + sent
      && (x in h'.registered ==> Taken(h, op, x) + h'.chans[x].buffer == h.chans[x].buffer + sent)
  {
    match op {
      case SendOp(e) =>
        SendValid(h, e);
        SendKeepsOrder(h, e, x);
        assert Taken(h, op, x) == [];
      case RegisterOp =>
      case DequeueOp(id) =>
        if id == x && |h.chans[x].buffer| > 0 {
          var r := Dequeue(h, x);
          assert r.Received?;
        }
      case DisconnectOp(id) =>
    }
  }

  /**
    Per-subscriber delivery order: over any interleaving of sends,
    registrations, receives and disconnects, what channel `x` has handed to
    its connection followed by what it still buffers is a prefix of what it
    buffered at the start followed by every event sent; and all of it while
    `x` is still registered at the end. No event is reordered or
    duplicated, and none is lost except by eviction.
   */
  lemma {:induction false} Fifo(h: State, ops: seq<Op>, x: nat)
    requires Valid(h) && !h.isClosed && x in h.chans
    ensures var h' := RunOps(h, ops);
      && x in h'.chans
      && TakenAll(h, ops, x) + h'.chans[x].buffer <= h.chans[x].buffer + SentAll(ops)
      && (x in h'.registered ==> TakenAll(h, ops, x) + h'.chans[x].buffer == h.chans[x].buffer + SentAll(ops))
    decreases |ops|
  {
    if |ops| > 0 {
      var h1 := Apply(h, ops[0]);
      var sent := if ops[0].SendOp? then [ops[0].e] else [];
      Unroll(h, ops, x);
      FifoStep(h, ops[0], x);
      Fifo(h1, ops[1..], x);
      var t, b1, rest := Taken(h, ops[0], x), h1.chans[x].buffer, TakenAll(h1, ops[1..], x);
      var hEnd := RunOps(h1, ops[1..]);
      if x in h1.registered {
        FifoCompose(t, b1, rest, hEnd.chans[x].buffer, h.chans[x].buffer, sent, SentAll(ops[1..]));
      } else {
        StaysDeregisteredAll(h1, ops[1..], x);
        DeregisteredShrinks(h1, ops[1..], x);
        DroppedCompose(t, b1, rest, hEnd.chans[x].buffer, h.chans[x].buffer, sent, SentAll(ops[1..]));
      }
    }
  }

  /** The first step of a sequence of transitions, split off. */
  lemma Unroll(h: State, ops: seq<Op>, x: nat)
    requires Valid(h) && !h.isClosed && x in h.chans && |ops| > 0
    ensures RunOps(h, ops) == RunOps(Apply(h, ops[0]), ops[1..])
    ensures TakenAll(h, ops, x) == Taken(h, ops[0], x) + TakenAll(Apply(h, ops[0]), ops[1..], x)
    ensures SentAll(ops) == (if ops[0].SendOp? then [ops[0].e] else []) + SentAll(ops[1..])
  {
  }

  /** Chaining one step's buffer accounting with the rest's. */
  lemma FifoCompose(t: seq<Event>, b1: seq<Event>, rest: seq<Event>, bEnd: seq<Event>,
                    b0: seq<Event>, sent: seq<Event>, more: seq<Event>)
    requires t + b1 == b0 + sent
    requires rest + bEnd <= b1 + more
    ensures t + rest + bEnd <= b0 + (sent + more)
    ensures rest + bEnd == b1 + more ==> t + rest + bEnd == b0 + (sent + more)
  {
    PrefixPrepend(t, rest + bEnd, b1 + more);
    assert t + rest + bEnd == t + (rest + bEnd);
    assert t + (b1 + more) == (t + b1) + more;
    assert (b0 + sent) + more == b0 + (sent + more);
  }

  /** Chaining one step's accounting with a channel that receives nothing more. */
  lemma DroppedCompose(t: seq<Event>, b1: seq<Event>, rest: seq<Event>, bEnd: seq<Event>,
                       b0: seq<Event>, sent: seq<Event>, more: seq<Event>)
    requires t + b1 <= b0 + sent
    requires rest + bEnd == b1
    ensures t + rest + bEnd <= b0 + (sent + more)
  {
    assert t + rest + bEnd == t + b1;
    PrefixAppend(t + b1, b0 + sent, more);
    assert (b0 + sent) + more == b0 + (sent + more);
  }

  lemma PrefixPrepend(t: seq<Event>, a: seq<Event>, b: seq<Event>)
    requires a <= b
    ensures t + a <= t + b
  {
    assert (t + b)[..|t + a|] == t + b[..|a|];
  }

  lemma PrefixAppend(a: seq<Event>, b: seq<Event>, c: seq<Event>)
    requires a <= b
    ensures a <= b + c
  {
    assert (b + c)[..|a|] == b[..|a|];
  }

  /** Once dropped from the registered set, a channel stays out of it over any sequence of transitions. */
  lemma {:induction false} StaysDeregisteredAll(h: State, ops: seq<Op>, x: nat)
    requires Valid(h) && !h.isClosed && x in h.chans && x !in h.registered
    ensures x !in RunOps(h, ops).registered
    decreases |ops|
  {
    if |ops| > 0 {
      StaysDeregistered(h, ops[0], x);
      StaysDeregisteredAll(Apply(h, ops[0]), ops[1..], x);
    }
  }

  /** A channel outside the registered set receives nothing more: what it hands out plus what it keeps is what it had. */
  lemma {:induction false} DeregisteredShrinks(h: State, ops: seq<Op>, x: nat)
    requires Valid(h) && !h.isClosed && x in h.chans && x !in h.registered
    ensures TakenAll(h, ops, x) + RunOps(h, ops).chans[x].buffer == h.chans[x].buffer
    decreases |ops|
  {
    if |ops| > 0 {
      var h1 := Apply(h, ops[0]);
      Unroll(h, ops, x);
      DeregisteredStep(h, ops[0], x);
      StaysDeregistered(h, ops[0], x);
      DeregisteredShrinks(h1, ops[1..], x);
      ShrinkCompose(Taken(h, ops[0], x), TakenAll(h1, ops[1..], x),
        RunOps(h1, ops[1..]).chans[x].buffer, h1.chans[x].buffer, h.chans[x].buffer);
    }
  }

  lemma ShrinkCompose(t: seq<Event>, rest: seq<Event>, bEnd: seq<Event>, b1: seq<Event>, b0: seq<Event>)
    requires t + b1 == b0 && rest + bEnd == b1
    ensures t + rest + bEnd == b0
  {
    assert t + rest + bEnd == t + (rest + bEnd);
  }

  /** One transition on a channel outside the registered set. */
  lemma DeregisteredStep(h: State, op: Op, x: nat)
    requires Valid(h) && !h.isClosed && x in h.chans && x !in h.registered
    ensures x in Apply(h, op).chans
    ensures Taken(h, op, x) + Apply(h, op).chans[x].buffer == h.chans[x].buffer
  {
    if op.SendOp? {
      assert Apply(h, op).chans[x] == h.chans[x];
    } else {
      DequeueExact(h, op, x);
    }
  }

  /** A transition other than a send splits a channel's buffer into what it hands out and what it keeps. */
  lemma DequeueExact(h: State, op: Op, x: nat)
    requires Valid(h) && !h.isClosed && x in h.chans && !op.SendOp?
    ensures x in Apply(h, op).chans
    ensures Taken(h, op, x) + Apply(h, op).chans[x].buffer == h.chans[x].buffer
  {
    if op.DequeueOp? && op.id == x && |h.chans[x].buffer| > 0 {
      var r := Dequeue(h, x);
      assert r.Received?;
    }
  }

  // ------------------------------------------------------ one connection's output

  /**
    One connection's serve loop running alongside a sequence of transitions:
    each receive on its channel goes through the loop's receive branch, and
    once the loop has ended its output no longer changes.
   */
  function ServeAll<C>(h: State, c: Conn, hooks: Hooks<C>, v: C, ops: seq<Op>): (c': Conn)
    requires Valid(h) && !h.isClosed && c.id in h.chans
    ensures c'.id == c.id
    ensures c.output <= c'.output
    decreases |ops|
  {
    if |ops| == 0 then c
    else ServeAll(Apply(h, ops[0]), ServeOne(h, c, hooks, v, ops[0]), hooks, v, ops[1..])
  }

  /** The connection after one transition: only a receive on its channel, while its loop runs, moves it. */
  function ServeOne<C>(h: State, c: Conn, hooks: Hooks<C>, v: C, op: Op): (c': Conn)
    requires c.id in h.chans
    ensures c'.id == c.id
    ensures c.output <= c'.output
  {
    if op == DequeueOp(c.id) && !c.done then ServeReceive(h, c, hooks, v).1 else c
  }

  /** A closed, drained channel of an open handler stays closed and drained. */
  lemma DrainedStays(h: State, op: Op, x: nat)
    requires Valid(h) && !h.isClosed && x in h.chans && h.chans[x].closed && h.chans[x].buffer == []
    ensures x in Apply(h, op).chans && Apply(h, op).chans[x].closed && Apply(h, op).chans[x].buffer == []
    ensures Taken(h, op, x) == []
  {
    assert x !in h.registered;
    DeregisteredStep(h, op, x);
    if op.DequeueOp? && op.id == x {
      assert Dequeue(h, x).ChannelClosed?;
    }
  }

  /** One transition, seen from a connection: what it writes is the filtered event its channel hands out. */
  lemma ServeStep<C>(h: State, c: Conn, hooks: Hooks<C>, v: C, op: Op)
    requires Valid(h) && !h.isClosed && c.id in h.chans
    requires c.done ==> h.chans[c.id].closed && h.chans[c.id].buffer == []
    ensures var x, h1, c1 := c.id, Apply(h, op), ServeOne(h, c, hooks, v, op);
      && x in h1.chans
      && c1.output == c.output + Filtered(hooks, v, Taken(h, op, x))
      && (c1.done ==> h1.chans[x].closed && h1.chans[x].buffer == [])
  {
    var x, h1 := c.id, Apply(h, op);
    var b := h.chans[x].buffer;
    if c.done {
      DrainedStays(h, op, x);
      assert c.output + [] == c.output;
    } else if op == DequeueOp(x) {
      if b == [] {
        assert c.output + [] == c.output;
      } else {
        FilteredOne(hooks, v, b[0]);
      }
    } else {
      assert c.output + [] == c.output;
    }
  }

  /**
    A connection writes, in order, exactly the events its channel hands it
    that pass its filter: over any interleaving of transitions, its output
    grows by the filtered sequence of what its channel handed out.
   */
  lemma {:induction false} ServeOutput<C>(h: State, c: Conn, hooks: Hooks<C>, v: C, ops: seq<Op>)
    requires Valid(h) && !h.isClosed && c.id in h.chans
    requires c.done ==> h.chans[c.id].closed && h.chans[c.id].buffer == []
    ensures ServeAll(h, c, hooks, v, ops).output == c.output + Filtered(hooks, v, TakenAll(h, ops, c.id))
    decreases |ops|
  {
    var x := c.id;
    if |ops| == 0 {
      assert c.output + [] == c.output;
    } else {
      var h1 := Apply(h, ops[0]);
      var c1 := ServeOne(h, c, hooks, v, ops[0]);
      var t, rest := Taken(h, ops[0], x), TakenAll(h1, ops[1..], x);
      Unroll(h, ops, x);
      ServeStep(h, c, hooks, v, ops[0]);
      ServeOutput(h1, c1, hooks, v, ops[1..]);
      FilteredAppend(hooks, v, t, rest);
      OutputCompose(c.output, c1.output, ServeAll(h1, c1, hooks, v, ops[1..]).output,
        Filtered(hooks, v, t), Filtered(hooks, v, rest), Filtered(hooks, v, t + rest));
    }
  }

  /**
    End to end: while a connection's channel stays registered, what the
    connection has written followed by what passes its filter among the
    events still buffered is what passes among the events buffered at the
    start and every event sent, in order.
   */
  lemma ServeDeliversSent<C>(h: State, c: Conn, hooks: Hooks<C>, v: C, ops: seq<Op>)
    requires Valid(h) && !h.isClosed && c.id in h.chans && !c.done
    ensures var h', c' := RunOps(h, ops), ServeAll(h, c, hooks, v, ops);
      && c.id in h'.chans
      && (c.id in h'.registered ==>
            c'.output + Filtered(hooks, v, h'.chans[c.id].buffer)
            == c.output + Filtered(hooks, v, h.chans[c.id].buffer + SentAll(ops)))
  {
    var x, h' := c.id, RunOps(h, ops);
    var taken := TakenAll(h, ops, x);
    ServeOutput(h, c, hooks, v, ops);
    Fifo(h, ops, x);
    if x in h'.registered {
      FilteredAppend(hooks, v, taken, h'.chans[x].buffer);
      OutputCompose(c.output, ServeAll(h, c, hooks, v, ops).output,
        ServeAll(h, c, hooks, v, ops).output + Filtered(hooks, v, h'.chans[x].buffer),
        Filtered(hooks, v, taken), Filtered(hooks, v, h'.chans[x].buffer),
        Filtered(hooks, v, taken + h'.chans[x].buffer));
    }
  }

  /** Chaining one step's output with the rest's. */
  lemma OutputCompose(o0: seq<Event>, o1: seq<Event>, oEnd: seq<Event>, f: seq<Event>, g: seq<Event>, fg: seq<Event>)
    requires o1 == o0 + f && oEnd == o1 + g && fg == f + g
    ensures oEnd == o0 + fg
  {
  }

  /**
    The replay window is always the last `numEventsToKeep` events of what
    it held followed by everything sent since.
   */
  lemma {:induction false} WindowIsLastSent(h: State, ops: seq<Op>)
    requires Valid(h) && !h.isClosed
    ensures RunOps(h, ops).window == Last(h.window + SentAll(ops), Max0(h.cfg.numEventsToKeep))
    decreases |ops|
  {
    var n := Max0(h.cfg.numEventsToKeep);
    if |ops| == 0 {
      assert h.window + SentAll(ops) == h.window;
    } else {
      var h1 := Apply(h, ops[0]);
      var sent := if ops[0].SendOp? then [ops[0].e] else [];
      UnrollWindow(h, ops);
      WindowStep(h, ops[0]);
      WindowIsLastSent(h1, ops[1..]);
      WindowCompose(h.window, sent, SentAll(ops[1..]), h1.window, RunOps(h1, ops[1..]).window, n);
    }
  }

  /** Chaining one step's window with the rest's. */
  lemma WindowCompose(w0: seq<Event>, sent: seq<Event>, more: seq<Event>, w1: seq<Event>, wEnd: seq<Event>, n: nat)
    requires w1 == Last(w0 + sent, n) && wEnd == Last(w1 + more, n)
    ensures wEnd == Last(w0 + (sent + more), n)
  {
    LastOfLast(w0 + sent, more, n);
    assert w0 + sent + more == w0 + (sent + more);
  }

  /** The first step of a sequence of transitions, split off, for the window. */
  lemma UnrollWindow(h: State, ops: seq<Op>)
    requires Valid(h) && !h.isClosed && |ops| > 0
    ensures RunOps(h, ops) == RunOps(Apply(h, ops[0]), ops[1..])
    ensures SentAll(ops) == (if ops[0].SendOp? then [ops[0].e] else []) + SentAll(ops[1..])
  {
  }

  /** Only a send moves the window, and it keeps the last `numEventsToKeep` events. */
  lemma WindowStep(h: State, op: Op)
    requires Valid(h) && !h.isClosed
    ensures Apply(h, op).window == Last(h.window + (if op.SendOp? then [op.e] else []), Max0(h.cfg.numEventsToKeep))
  {
    if !op.SendOp? {
      assert h.window + [] == h.window;
    }
  }

  /** Keeping the last `n` twice is keeping the last `n` once. */
  lemma LastOfLast(a: seq<Event>, b: seq<Event>, n: nat)
    ensures Last(Last(a, n) + b, n) == Last(a + b, n)
  {
    var la := Last(a, n);
    var k := |a| - |la|;
    assert a == a[..k] + la;
    assert a + b == a[..k] + (la + b);
  }
}
