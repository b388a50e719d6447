/**
 The manager object: the list of connections and the table of their senders,
 updated in place, and proved to take exactly the steps of the FanOut hub.
 */
module ConnectionManagers {
  import opened Wrappers
  import opened DeliveryLog
  import opened ClientSenders
  import opened FanOut

  const COALESCED_TYPES: set<string> := {"playback", "spotify", "dsp", "output_state", "playback_peak_warning",
                                         "source"}

  /** Only repeated state snapshots share a queue place, each type its own. */
  function CoalesceKey(messageType: Option<string>): (key: Option<string>)
    ensures key.Some? ==> key == messageType
    ensures key.None? <==> messageType.None? || messageType.value !in
                             ["playback", "spotify", "dsp", "output_state", "playback_peak_warning", "source"]
  {
    if messageType.Some? && messageType.value in COALESCED_TYPES then messageType else None
  }

  datatype SendResult = Queued | Gone | QueueFull

  /** What a broadcast does to one client, and whether that client stays registered. */
  ghost function AfterBroadcast(c: Client, connected: bool, item: Item): (Client, bool) {
    if !connected then (Drained(Cancelled(c)), false)
    else if !c.ready || c.failed then (c, true)
    else if Refused(c.log, item, c.max) then (Drained(Cancelled(c)), false)
    else (Enqueued(c, item), true)
  }

  /** Each table entry is the sender of that socket, sound, and in the state the hub gives its client. */
  ghost predicate Mirrors(clients: map<Socket, ClientSender>, states: map<Socket, Client>, repr: set<ClientSender>)
    reads repr
  {
    && clients.Keys == states.Keys
    && forall s | s in clients :: clients[s] in repr && IsSenderOf(clients[s], s, states[s])
  }

  ghost predicate IsSenderOf(sender: ClientSender, s: Socket, c: Client)
    reads sender
  {
    sender.websocket == s && sender.Valid() && sender.View() == c
  }

  lemma MirrorsWithout(clients: map<Socket, ClientSender>, states: map<Socket, Client>, repr: set<ClientSender>,
                       s: Socket)
    requires Mirrors(clients, states, repr)
    ensures Mirrors(clients - {s}, states - {s}, repr)
  {
    hide IsSenderOf;
  }

  lemma MirrorsWith(clients: map<Socket, ClientSender>, states: map<Socket, Client>, repr: set<ClientSender>,
                    s: Socket, sender: ClientSender, c: Client)
    requires Mirrors(clients, states, repr) && IsSenderOf(sender, s, c)
    ensures Mirrors(clients[s := sender], states[s := c], repr + {sender})
  {
    hide IsSenderOf;
  }

  lemma IsOne(sender: ClientSender, s: Socket, c: Client)
    requires sender.websocket == s && sender.Valid() && sender.View() == c
    ensures IsSenderOf(sender, s, c)
  {
  }

  lemma MirrorsAmong(clients: map<Socket, ClientSender>, states: map<Socket, Client>, repr: set<ClientSender>,
                     more: set<ClientSender>)
    requires Mirrors(clients, states, repr) && repr <= more
    ensures Mirrors(clients, states, more)
  {
    hide IsSenderOf;
  }

  lemma SenderIn(clients: map<Socket, ClientSender>, states: map<Socket, Client>, repr: set<ClientSender>, s: Socket)
    requires Mirrors(clients, states, repr) && s in clients
    ensures s in states && clients[s] in repr && IsSenderOf(clients[s], s, states[s])
    ensures clients[s].websocket == s && clients[s].Valid() && clients[s].View() == states[s]
  {
    hide ClientSender.Valid;
  }

  lemma PartsOf(sender: ClientSender)
    requires sender.Valid()
    ensures Sound(sender.View()) && InRange(sender.log.accepted, sender.log.pending)
    ensures Represents(sender.queue, sender.coalesced, sender.log)
  {
  }

  lemma ValidFromParts(sender: ClientSender)
    requires Sound(sender.View()) && InRange(sender.log.accepted, sender.log.pending)
    requires Represents(sender.queue, sender.coalesced, sender.log)
    ensures sender.Valid()
  {
  }

  class ConnectionManager {
    const maxPending: nat
    var activeConnections: seq<Socket>
    var senders: map<Socket, ClientSender>
    // Senders already unregistered, in the hands of the disconnects that popped them; the sockets whose transport
    // those still have to close, and the closes handed to background tasks.
    var detached: map<Socket, ClientSender>
    var closing: set<Socket>
    var closed: seq<Socket>
    // How far each socket's endpoint has come.
    var endpoints: map<Socket, Phase>
    ghost var repr: set<ClientSender>

    /** This object is in hub state h. */
    ghost predicate InState(h: Hub)
      reads this, repr
    {
      && h.max == maxPending && h.active == activeConnections
      && h.closing == closing && h.closed == closed && h.phase == endpoints
      && Mirrors(senders, h.senders, repr) && Mirrors(detached, h.detached, repr)
    }

    constructor (maxPendingSends: int)
      ensures maxPending == if maxPendingSends < 1 then 1 else maxPendingSends
      ensures InState(EmptyHub(maxPending)) && repr == {}
    {
      maxPending := if maxPendingSends < 1 then 1 else maxPendingSends;
      activeConnections, senders := [], map[];
      detached, closing, closed, endpoints, repr := map[], {}, [], map[], {};
    }

    /** Registration, after the transport was accepted; the worker starts waiting on the empty queue. */
    method Connect(s: Socket, ghost h: Hub)
      requires InState(h) && maxPending >= 1 && s !in endpoints
      modifies this
      ensures InState(Next(h, FanOut.Action.Connect(s))) && fresh(repr - old(repr))
    {
      hide Mirrors, IsSenderOf, ClientSender.Valid, NewClient;
      var sender := new ClientSender(s, maxPending);
      IsOne(sender, s, NewClient(maxPending));
      activeConnections := activeConnections + [s];
      endpoints := endpoints[s := Connected];
      senders := senders[s := sender];
      MirrorsWith(old(senders), h.senders, repr, s, sender, NewClient(maxPending));
      MirrorsAmong(detached, h.detached, repr, repr + {sender});
      repr := repr + {sender};
    }

    method Unregister(s: Socket, ghost h: Hub) returns (sender: ClientSender?)
      requires InState(h)
      modifies this
      ensures sender != null <==> s in old(senders)
      ensures sender != null ==> sender in repr && s in detached && detached[s] == sender
      ensures InState(Next(h, FanOut.Action.Unregister(s))) && repr == old(repr)
    {
      hide Mirrors, IsSenderOf, ClientSender.Valid, NoDuplicates, Without;
      SameKeys(h);
      if s !in senders {
        return null;
      }
      sender := senders[s];
      SenderIn(senders, h.senders, repr, s);
      MirrorsWithout(senders, h.senders, repr, s);
      MirrorsWith(detached, h.detached, repr, s, sender, h.senders[s]);
      assert repr + {sender} == repr;
      senders := senders - {s};
      activeConnections := Without(activeConnections, s);
      detached := detached[s := sender];
      closing := closing + {s};
    }

    /** send_to_client up to its verdict; a full queue makes the caller disconnect the client. */
    method SendToClient(s: Socket, data: string, coalesceKey: Option<string>, ghost h: Hub) returns (r: SendResult)
      requires InState(h) && h.senders.Keys !! h.detached.Keys
      modifies repr
      ensures r == Gone <==> s !in senders || h.senders[s].failed
      ensures s in senders ==>
                InState(WithClient(h, s, Offered(h.senders[s], Item(coalesceKey, data))))
      ensures s !in senders ==> InState(h)
      ensures r == QueueFull ==> s in senders && Refused(h.senders[s].log, Item(coalesceKey, data), h.senders[s].max)
      ensures r == Queued ==> s in senders && !Refused(h.senders[s].log, Item(coalesceKey, data), h.senders[s].max)
    {
      hide ClientSender.Valid, Enqueued, Refused;
      SameKeys(h);
      if s !in senders {
        return Gone;
      }
      var sender := senders[s];
      SenderIn(senders, h.senders, repr, s);
      if sender.failed {
        assert h.senders[s := h.senders[s]] == h.senders;
        return Gone;
      }
      var ok := sender.Enqueue(data, coalesceKey);
      r := if ok then Queued else QueueFull;
      ghost var c := Enqueued(h.senders[s], Item(coalesceKey, data));
      IsOne(sender, s, c);
      assert Mirrors(senders, h.senders[s := c], repr);
      assert Mirrors(detached, h.detached, repr);
    }

    /** Unlock normal broadcasts for a client whose init is queued first. */
    method MarkReady(s: Socket, ghost h: Hub) returns (known: bool)
      requires InState(h) && h.senders.Keys !! h.detached.Keys
      modifies repr
      ensures known <==> s in senders
      ensures known ==> InState(WithClient(h, s, h.senders[s].(ready := true)))
      ensures !known ==> InState(h)
    {
      hide ClientSender.Valid, Sound, Represents;
      SameKeys(h);
      if s !in senders {
        return false;
      }
      var sender := senders[s];
      ghost var c := h.senders[s].(ready := true);
      SenderIn(senders, h.senders, repr, s);
      PartsOf(sender);
      ReadySound(sender.View());
      sender.ready := true;
      ValidFromParts(sender);
      IsOne(sender, s, c);
      assert Mirrors(senders, h.senders[s := c], repr);
      assert Mirrors(detached, h.detached, repr);
      return true;
    }

    // ---------- what the other tasks do ----------

    /** The endpoint offers the init payload, once, and only after that anything else of its own. */
    method OfferInit(s: Socket, data: string, ghost h: Hub)
      requires InState(h) && Bookkeeping(h)
      modifies this`endpoints, repr
      ensures InState(Next(h, FanOut.Action.OfferInit(s, data)))
    {
      hide Mirrors, IsSenderOf, Offered;
      SameKeys(h);
      if s !in endpoints || endpoints[s] != Connected { return; }
      ghost var g := h.(phase := h.phase[s := InitOffered(Item(None, data))]);
      endpoints := endpoints[s := InitOffered(Item(None, data))];
      if s in senders {
        var r := SendToClient(s, data, None, g);
      }
    }

    /** The endpoint answers its peer, or unlocks broadcasts, once init has been offered. */
    method Answer(s: Socket, reply: Option<string>, ghost h: Hub)
      requires InState(h) && Bookkeeping(h)
      modifies repr
      ensures InState(Next(h, if reply.Some? then FanOut.Action.Reply(s, reply.value) else FanOut.Action.MarkReady(s)))
    {
      hide Mirrors, IsSenderOf, Offered;
      SameKeys(h);
      if s !in endpoints || endpoints[s] == Connected || s !in senders { return; }
      if reply.Some? {
        var r := SendToClient(s, reply.value, None, h);
      } else {
        var known := MarkReady(s, h);
      }
    }

    /** One turn's offer to a ready client. */
    method OfferBroadcast(s: Socket, item: Item, ghost h: Hub)
      requires InState(h) && Bookkeeping(h)
      modifies repr
      ensures InState(Next(h, FanOut.Action.Broadcast(s, item)))
    {
      hide Mirrors, IsSenderOf, Offered;
      SameKeys(h);
      if s !in senders { return; }
      SenderIn(senders, h.senders, repr, s);
      if !senders[s].ready { return; }
      var r := SendToClient(s, item.data, item.key, h);
    }

    /** A disconnect cancels the worker of the sender it popped. */
    method CancelWorker(s: Socket, ghost h: Hub)
      requires InState(h) && Bookkeeping(h)
      modifies repr
      ensures InState(Next(h, FanOut.Action.CancelWorker(s)))
    {
      hide ClientSender.Valid, Cancelled;
      SameKeys(h);
      if s !in closing || s !in detached { return; }
      detached[s].CancelWorker();
      assert Mirrors(senders, h.senders, repr);
      assert Mirrors(detached, h.detached[s := Cancelled(h.detached[s])], repr);
    }

    /** And drains its queue once that has stopped. */
    method DrainQueue(s: Socket, ghost h: Hub)
      requires InState(h) && Bookkeeping(h)
      modifies repr
      ensures InState(Next(h, FanOut.Action.DrainQueue(s)))
    {
      hide ClientSender.Valid, Drained;
      SameKeys(h);
      if s !in closing || s !in detached { return; }
      SenderIn(detached, h.detached, repr, s);
      if detached[s].worker != Stopped { return; }
      detached[s].DrainQueue();
      assert Mirrors(senders, h.senders, repr);
      assert Mirrors(detached, h.detached[s := Drained(h.detached[s])], repr);
    }

    /** And hands the transport to a closing task. */
    method ScheduleClose(s: Socket, ghost h: Hub)
      requires InState(h)
      modifies this`closing, this`closed
      ensures InState(Next(h, FanOut.Action.ScheduleClose(s)))
    {
      if s in closing { closing, closed := closing - {s}, closed + [s]; }
    }

    /** The worker of a registered client takes the head of its queue. */
    method TakeNextOfRegistered(s: Socket, connected: bool, ghost h: Hub)
      requires InState(h) && Bookkeeping(h) && s in senders
      modifies repr
      ensures InState(Next(h, FanOut.Action.TakeNext(s, connected)))
    {
      hide ClientSender.Valid, Taken;
      SameKeys(h);
      SenderIn(senders, h.senders, repr, s);
      QueueIsPending(senders[s]);
      if senders[s].worker != Waiting || senders[s].queue == [] { return; }
      var data := senders[s].TakeNext(connected);
      assert Mirrors(senders, h.senders[s := Taken(h.senders[s], connected)], repr);
      assert Mirrors(detached, h.detached, repr);
    }

    /** The worker of a detached client takes the head of its queue. */
    method TakeNextOfDetached(s: Socket, connected: bool, ghost h: Hub)
      requires InState(h) && Bookkeeping(h) && s in detached
      modifies repr
      ensures InState(Next(h, FanOut.Action.TakeNext(s, connected)))
    {
      hide ClientSender.Valid, Taken;
      SameKeys(h);
      SenderIn(detached, h.detached, repr, s);
      QueueIsPending(detached[s]);
      if detached[s].worker != Waiting || detached[s].queue == [] { return; }
      var data := detached[s].TakeNext(connected);
      assert Mirrors(senders, h.senders, repr);
      assert Mirrors(detached, h.detached[s := Taken(h.detached[s], connected)], repr);
    }

    /** The send of a registered client ends. */
    method FinishSendOfRegistered(s: Socket, ok: bool, ghost h: Hub)
      requires InState(h) && Bookkeeping(h) && s in senders
      modifies repr
      ensures InState(Next(h, FanOut.Action.FinishSend(s, ok)))
    {
      hide ClientSender.Valid, SendDone;
      SameKeys(h);
      SenderIn(senders, h.senders, repr, s);
      QueueIsPending(senders[s]);
      if senders[s].worker != Sending { return; }
      senders[s].FinishSend(ok);
      assert Mirrors(senders, h.senders[s := SendDone(h.senders[s], ok)], repr);
      assert Mirrors(detached, h.detached, repr);
    }

    /** The send of a detached client ends. */
    method FinishSendOfDetached(s: Socket, ok: bool, ghost h: Hub)
      requires InState(h) && Bookkeeping(h) && s in detached
      modifies repr
      ensures InState(Next(h, FanOut.Action.FinishSend(s, ok)))
    {
      hide ClientSender.Valid, SendDone;
      SameKeys(h);
      SenderIn(detached, h.detached, repr, s);
      QueueIsPending(detached[s]);
      if detached[s].worker != Sending { return; }
      detached[s].FinishSend(ok);
      assert Mirrors(senders, h.senders, repr);
      assert Mirrors(detached, h.detached[s := SendDone(h.detached[s], ok)], repr);
    }

    /** One stretch of some task: the object takes the hub's step. */
    method Perform(a: Action, ghost h: Hub)
      requires InState(h) && Inv(h)
      modifies this, repr
      ensures InState(Next(h, a)) && Inv(Next(h, a)) && fresh(repr - old(repr))
    {
      NextKeepsInv(h, a);
      BookkeepingOf(h);
      KnownMax(h);
      hide Inv, Bookkeeping, Next, Mirrors;
      SameKeys(h);
      match a {
        case Connect(s) => if s !in endpoints { Connect(s, h); } else { NothingHappens(h, a); }
        case OfferInit(s, data) => OfferInit(s, data, h);
        case MarkReady(s) => Answer(s, None, h);
        case Reply(s, data) => Answer(s, Some(data), h);
        case Broadcast(s, item) => OfferBroadcast(s, item, h);
        case Unregister(s) => var sender := Unregister(s, h);
        case CancelWorker(s) => CancelWorker(s, h);
        case DrainQueue(s) => DrainQueue(s, h);
        case ScheduleClose(s) => ScheduleClose(s, h);
        case TakeNext(s, connected) => WorkerStep(a, h);
        case FinishSend(s, ok) => WorkerStep(a, h);
      }
    }

    /** A worker's stretch, wherever its sender is kept. */
    method WorkerStep(a: Action, ghost h: Hub)
      requires InState(h) && Bookkeeping(h) && (a.TakeNext? || a.FinishSend?)
      modifies repr
      ensures InState(Next(h, a))
    {
      hide Bookkeeping, Next, Mirrors;
      SameKeys(h);
      if a.s in senders {
        if a.TakeNext? { TakeNextOfRegistered(a.s, a.connected, h); } else { FinishSendOfRegistered(a.s, a.ok, h); }
      } else if a.s in detached {
        if a.TakeNext? { TakeNextOfDetached(a.s, a.connected, h); } else { FinishSendOfDetached(a.s, a.ok, h); }
      } else {
        NothingHappens(h, a);
      }
    }

    lemma KnownMax(h: Hub)
      requires InState(h) && Inv(h)
      ensures maxPending >= 1
    {
    }

    lemma NothingHappens(h: Hub, a: Action)
      requires InState(h)
      requires match a
               case Connect(s) => s in endpoints
               case TakeNext(s, _) => s !in senders && s !in detached
               case FinishSend(s, _) => s !in senders && s !in detached
               case _ => false
      ensures Next(h, a) == h
    {
    }

    /** Whatever other tasks do at an await, step by step. */
    method Others(actions: seq<Action>, ghost h: Hub)
      requires InState(h) && Inv(h)
      modifies this, repr
      ensures InState(Run(h, actions)) && Inv(Run(h, actions)) && fresh(repr - old(repr))
    {
      hide Inv, Next, Mirrors;
      assert actions[..0] == [];
      for i := 0 to |actions|
        invariant InState(Run(h, actions[..i])) && Inv(Run(h, actions[..i])) && fresh(repr - old(repr))
      {
        assert actions[..i + 1][..i] == actions[..i];
        Perform(actions[i], Run(h, actions[..i]));
      }
      assert actions[..|actions|] == actions;
    }

    // ---------- disconnect and broadcast, with other tasks in between ----------

    /** disconnect: unregister, cancel the worker, drain, schedule the close, with any actions of other tasks before
        each of these. False exactly when the client was gone by then. */
    method Disconnect(s: Socket, between: Pauses, ghost h: Hub) returns (removed: bool)
      requires InState(h) && Inv(h)
      modifies this, repr
      ensures InState(Run(h, Disconnecting(h, s, between))) && Inv(Run(h, Disconnecting(h, s, between)))
      ensures removed <==> s in Run(h, between.lock).senders
      ensures fresh(repr - old(repr))
    {
      hide Inv, Next, Mirrors, Run;
      Others(between.lock, h);
      ghost var g := Run(h, between.lock);
      SameKeys(g);
      if s !in senders { return false; }
      Perform(FanOut.Action.Unregister(s), g);
      ghost var done := between.lock + [FanOut.Action.Unregister(s)];
      RunOneMore(h, between.lock, FanOut.Action.Unregister(s));
      done := Stretch(between.close, FanOut.Action.CancelWorker(s), h, done);
      done := Stretch(between.cancelled, FanOut.Action.DrainQueue(s), h, done);
      done := Stretch(between.drained, FanOut.Action.ScheduleClose(s), h, done);
      return true;
    }

    /** An await, and then the next stretch of this task. */
    method Stretch(others: seq<Action>, a: Action, ghost h: Hub, ghost done: seq<Action>)
      returns (ghost after: seq<Action>)
      requires InState(Run(h, done)) && Inv(Run(h, done))
      modifies this, repr
      ensures after == done + others + [a]
      ensures InState(Run(h, after)) && Inv(Run(h, after)) && fresh(repr - old(repr))
    {
      hide Inv, Next, Mirrors, Run;
      Others(others, Run(h, done));
      RunTwice(h, done, others);
      Perform(a, Run(h, done + others));
      RunOneMore(h, done + others, a);
      after := done + others + [a];
    }

    /** One turn of the broadcast loop; `connected` is what the transport says at that moment. */
    method BroadcastTo(connection: Socket, connected: bool, data: string, coalesceKey: Option<string>, between: Pauses,
                       ghost h: Hub)
      requires InState(h) && Inv(h)
      modifies this, repr
      ensures InState(Run(h, Turn(h, connection, connected, Item(coalesceKey, data), between)))
      ensures Inv(Run(h, Turn(h, connection, connected, Item(coalesceKey, data), between)))
      ensures fresh(repr - old(repr))
    {
      hide Inv, Next, Mirrors, Refused;
      if !connected {
        var _ := Disconnect(connection, between, h);
        return;
      }
      SameKeys(h);
      ClientsDisjoint(h);
      if connection !in senders { return; }
      SenderIn(senders, h.senders, repr, connection);
      if !senders[connection].ready { return; }
      ghost var item := Item(coalesceKey, data);
      ghost var a := FanOut.Action.Broadcast(connection, item);
      BroadcastIsOffer(h, connection, item);
      NextKeepsInv(h, a);
      var sent := SendToClient(connection, data, coalesceKey, h);
      RunOneMore(h, [], a);
      if sent == QueueFull {
        var _ := Disconnect(connection, between, Next(h, a));
        RunTwice(h, [a], Disconnecting(Next(h, a), connection, between));
      }
    }

    /** broadcast: over a copy of the connection list, one turn for each connection, with any actions of other tasks at
        the awaits. `up` says whether a transport is connected when its turn comes. */
    method Broadcast(messageType: Option<string>, data: string, up: nat -> bool, between: nat -> Pauses, ghost h: Hub)
      requires InState(h) && Inv(h)
      modifies this, repr
      ensures var turns := Turns(h, h.active, |h.active|, up, Item(CoalesceKey(messageType), data), between);
              InState(Run(h, turns)) && Inv(Run(h, turns))
    {
      hide Mirrors, Inv, Next, Turn, Run;
      var coalesceKey := CoalesceKey(messageType);
      ghost var item := Item(coalesceKey, data);
      var connections := activeConnections;
      StartOfRun(h);
      for i := 0 to |connections|
        invariant fresh(repr - old(repr))
        invariant var turns := Turns(h, connections, i, up, item, between); InState(Run(h, turns)) && Inv(Run(h, turns))
      {
        ghost var turns := Turns(h, connections, i, up, item, between);
        ghost var g := Run(h, turns);
        BroadcastTo(connections[i], up(i), data, coalesceKey, between(i), g);
        RunTwice(h, turns, Turn(g, connections[i], up(i), item, between(i)));
      }
    }

    lemma SameKeys(h: Hub)
      requires InState(h)
      ensures senders.Keys == h.senders.Keys && detached.Keys == h.detached.Keys
    {
    }
  }

  // ---------- runs of one task among others ----------

  /** What other tasks do at the awaits of a disconnect: before it holds the list lock, before the worker is
      cancelled, before the queue is drained, and before the close is scheduled. */
  datatype Pauses = Pauses(lock: seq<Action>, close: seq<Action>, cancelled: seq<Action>, drained: seq<Action>)

  /** All that happens from the start of a disconnect to its end. */
  ghost function Disconnecting(h: Hub, s: Socket, p: Pauses): seq<Action> {
    if s !in Run(h, p.lock).senders then p.lock
    else
      p.lock + [Action.Unregister(s)] + p.close + [Action.CancelWorker(s)] + p.cancelled + [Action.DrainQueue(s)]
      + p.drained + [Action.ScheduleClose(s)]
  }

  /** All that happens in one turn of a broadcast. */
  ghost function Turn(h: Hub, s: Socket, connected: bool, item: Item, p: Pauses): seq<Action> {
    if !connected then Disconnecting(h, s, p)
    else if s !in h.senders || !h.senders[s].ready then []
    else
      [Action.Broadcast(s, item)]
      + if !h.senders[s].failed && Refused(h.senders[s].log, item, h.senders[s].max)
        then Disconnecting(Next(h, Action.Broadcast(s, item)), s, p) else []
  }

  /** And in the first n turns. */
  ghost function Turns(h: Hub, connections: seq<Socket>, n: nat, up: nat -> bool, item: Item,
                       between: nat -> Pauses): seq<Action>
    requires n <= |connections|
  {
    if n == 0 then []
    else
      var before := Turns(h, connections, n - 1, up, item, between);
      before + Turn(Run(h, before), connections[n - 1], up(n - 1), item, between(n - 1))
  }

  lemma ClientsDisjoint(h: Hub)
    requires Inv(h)
    ensures h.senders.Keys !! h.detached.Keys
  {
  }

  lemma TurnsGoOn(h: Hub, connections: seq<Socket>, n: nat, m: nat, up: nat -> bool, item: Item, between: nat -> Pauses)
    requires n <= m <= |connections|
    ensures Turns(h, connections, n, up, item, between) <= Turns(h, connections, m, up, item, between)
    decreases m
  {
    hide Run, Turn;
    if n < m { TurnsGoOn(h, connections, n, m - 1, up, item, between); }
  }

  /** A disconnected client is out of the registry for good. */
  lemma DisconnectingRemoves(h: Hub, s: Socket, p: Pauses)
    requires Inv(h) && s in h.phase
    ensures s !in Run(h, Disconnecting(h, s, p)).senders
  {
    hide Inv, Next, Run;
    RunExtends(h, p.lock, s);
    RunKeepsInv(h, p.lock);
    if s in Run(h, p.lock).senders {
      var rest :=
        p.close + [Action.CancelWorker(s)] + p.cancelled + [Action.DrainQueue(s)] + p.drained
        + [Action.ScheduleClose(s)];
      var gone := p.lock + [Action.Unregister(s)];
      assert Disconnecting(h, s, p) == gone + rest;
      RunOneMore(h, p.lock, Action.Unregister(s));
      UnregisterRemoves(Run(h, p.lock), s);
      RunKeepsInv(h, gone);
      RunTwice(h, gone, rest);
      RunExtends(Run(h, gone), rest, s);
    }
  }

  lemma UnregisterRemoves(h: Hub, s: Socket)
    requires Inv(h) && s in h.phase
    ensures s in Next(h, Action.Unregister(s)).phase && s !in Next(h, Action.Unregister(s)).senders
  {
  }

  /** How one connection fares in its turn. */
  lemma TurnFate(h: Hub, s: Socket, connected: bool, item: Item, p: Pauses)
    requires Inv(h)
    ensures var after := Run(h, Turn(h, s, connected, item, p));
            && Inv(after)
            && (s in h.senders && connected && h.senders[s].ready && !h.senders[s].failed ==>
                  if Refused(h.senders[s].log, item, h.senders[s].max) then s in after.phase && s !in after.senders
                  else AcceptedOf(after, s) == AcceptedOf(h, s) + [item])
            && (s in h.senders && !connected ==> s in after.phase && s !in after.senders)
            && (connected && (s !in h.senders || !h.senders[s].ready || h.senders[s].failed) ==> after == h)
  {
    hide Inv, Run, Refused;
    RunKeepsInv(h, Turn(h, s, connected, item, p));
    if s in h.senders { Known(h, s); }
    if !connected {
      if s in h.senders {
        DisconnectingRemoves(h, s, p);
        RunExtends(h, Disconnecting(h, s, p), s);
      }
    } else {
      StartOfRun(h);
      if s in h.senders && h.senders[s].ready {
        var a := Action.Broadcast(s, item);
        RunOneMore(h, [], a);
        assert [] + [a] == [a];
        BroadcastTurn(h, s, item);
        if !h.senders[s].failed && Refused(h.senders[s].log, item, h.senders[s].max) {
          NextKeepsInv(h, a);
          DisconnectingRemoves(Next(h, a), s, p);
          RunTwice(h, [a], Disconnecting(Next(h, a), s, p));
          RunExtends(Next(h, a), Disconnecting(Next(h, a), s, p), s);
        } else {
          assert Turn(h, s, connected, item, p) == [a];
        }
      }
    }
  }

  lemma Known(h: Hub, s: Socket)
    requires Inv(h) && s in h.senders
    ensures s in h.phase
  {
  }

  lemma BroadcastTurn(h: Hub, s: Socket, item: Item)
    requires Inv(h) && s in h.senders && h.senders[s].ready
    ensures var after := Next(h, Action.Broadcast(s, item)); var c := h.senders[s];
            && s in after.phase
            && (c.failed || Refused(c.log, item, c.max) ==> after == h)
            && (!c.failed && !Refused(c.log, item, c.max) ==> AcceptedOf(after, s) == AcceptedOf(h, s) + [item])
  {
    assert h.senders[s := h.senders[s]] == h.senders;
    OfferTakes(h.senders[s], item);
    hide Inv, Enqueued, Refused;
    if !h.senders[s].failed && Refused(h.senders[s].log, item, h.senders[s].max) {
      RefusedUnchanged(h.senders[s], item);
    }
  }

  /** Whatever other tasks do in between: in its turn a connected, ready client with room takes the message, for good,
      and one that is gone or full is out of the registry for good; one that is not ready or has failed is passed
      over. What one client does costs no other client the message. */
  lemma BroadcastReachesEachClient(h: Hub, up: nat -> bool, item: Item, between: nat -> Pauses, i: nat)
    requires Inv(h) && i < |h.active|
    ensures var s := h.active[i];
            var before := Run(h, Turns(h, h.active, i, up, item, between));
            var after := Run(h, Turns(h, h.active, |h.active|, up, item, between));
            && Inv(before) && Inv(after)
            && (s in before.senders && up(i) && before.senders[s].ready && !before.senders[s].failed ==>
                  if Refused(before.senders[s].log, item, before.senders[s].max) then s !in after.senders
                  else AcceptedOf(before, s) + [item] <= AcceptedOf(after, s))
            && (s in before.senders && !up(i) ==> s !in after.senders)
            && (up(i) && (s !in before.senders || !before.senders[s].ready || before.senders[s].failed) ==>
                  Run(h, Turns(h, h.active, i + 1, up, item, between)) == before)
  {
    hide Inv, Run, Turn, Next, Refused;
    var s := h.active[i];
    var early, turn := Turns(h, h.active, i, up, item, between), Turns(h, h.active, i + 1, up, item, between);
    var all := Turns(h, h.active, |h.active|, up, item, between);
    RunKeepsInv(h, early);
    RunKeepsInv(h, turn);
    RunKeepsInv(h, all);
    TurnFate(Run(h, early), s, up(i), item, between(i));
    RunTwice(h, early, Turn(Run(h, early), s, up(i), item, between(i)));
    TurnsGoOn(h, h.active, i + 1, |h.active|, up, item, between);
    assert all == turn + all[|turn|..];
    RunTwice(h, turn, all[|turn|..]);
    RunExtends(Run(h, turn), all[|turn|..], s);
  }

  lemma QueueIsPending(sender: ClientSender)
    requires sender.Valid()
    ensures |sender.queue| == |sender.log.pending|
  {
  }

  // ---------- a broadcast that nothing interleaves with ----------

  /** The hub after a disconnect that nothing interleaved with. */
  ghost function Disconnected(h: Hub, s: Socket): Hub {
    Run(h, [Action.Unregister(s), Action.CancelWorker(s), Action.DrainQueue(s), Action.ScheduleClose(s)])
  }

  lemma RunFour(h: Hub, a: Action, b: Action, c: Action, d: Action)
    ensures Run(h, [a, b, c, d]) == Next(Next(Next(Next(h, a), b), c), d)
  {
    hide Next;
    assert [a, b, c, d][..3] == [a, b, c] && [a, b, c][..2] == [a, b] && [a, b][..1] == [a] && [a][..0] == [];
    assert Run(h, [a]) == Next(Run(h, []), a);
    assert Run(h, [a, b]) == Next(Run(h, [a]), b);
    assert Run(h, [a, b, c]) == Next(Run(h, [a, b]), c);
  }

  lemma DisconnectedState(h: Hub, s: Socket)
    requires s in h.senders && s !in h.detached
    ensures var h1 := Next(h, Action.Unregister(s));
            Disconnected(h, s) == h1.(detached := h1.detached[s := Drained(Cancelled(h.senders[s]))],
                                       closing := h1.closing - {s}, closed := h1.closed + [s])
  {
    hide Drained, Without, NoDuplicates, Run;
    RunFour(h, Action.Unregister(s), Action.CancelWorker(s), Action.DrainQueue(s), Action.ScheduleClose(s));
  }

  lemma RefusedUnchanged(c: Client, item: Item)
    requires Refused(c.log, item, c.max)
    ensures Enqueued(c, item) == c
  {
  }

  // ---------- one broadcast ----------

  ghost function BroadcastStep(h: Hub, s: Socket, up: set<Socket>, item: Item): Hub {
    if s !in h.senders then h
    else if s !in up then Disconnected(h, s)
    else
      var c := h.senders[s];
      if !c.ready || c.failed then h
      else if Refused(c.log, item, c.max) then Disconnected(h, s)
      else WithClient(h, s, Enqueued(c, item))
  }

  ghost function BroadcastAll(h: Hub, connections: seq<Socket>, up: set<Socket>, item: Item): Hub {
    if connections == [] then h
    else
      var before := BroadcastAll(h, connections[..|connections| - 1], up, item);
      BroadcastStep(before, connections[|connections| - 1], up, item)
  }

  lemma BroadcastStepInv(h: Hub, s: Socket, up: set<Socket>, item: Item)
    requires Inv(h)
    ensures Inv(BroadcastStep(h, s, up, item))
  {
    hide Inv, Enqueued, Refused, Run, Next;
    RunKeepsInv(h, [Action.Unregister(s), Action.CancelWorker(s), Action.DrainQueue(s), Action.ScheduleClose(s)]);
    if s in h.senders && h.senders[s].ready {
      NextKeepsInv(h, Action.Broadcast(s, item));
      BroadcastIsOffer(h, s, item);
    }
  }

  lemma BroadcastIsOffer(h: Hub, s: Socket, item: Item)
    requires s in h.senders && h.senders[s].ready
    ensures Next(h, Action.Broadcast(s, item)) == WithClient(h, s, Offered(h.senders[s], item))
  {
  }

  lemma {:induction false} BroadcastAllInv(h: Hub, connections: seq<Socket>, up: set<Socket>, item: Item)
    requires Inv(h)
    ensures Inv(BroadcastAll(h, connections, up, item))
  {
    hide Inv, BroadcastStep;
    if connections != [] {
      BroadcastAllInv(h, connections[..|connections| - 1], up, item);
      var before := BroadcastAll(h, connections[..|connections| - 1], up, item);
      BroadcastStepInv(before, connections[|connections| - 1], up, item);
    }
  }

  const NO_PAUSE := Pauses([], [], [], [])

  lemma UndisturbedTurn(h: Hub, s: Socket, up: set<Socket>, item: Item)
    requires Inv(h)
    ensures Run(h, Turn(h, s, s in up, item, NO_PAUSE)) == BroadcastStep(h, s, up, item)
  {
    hide Inv, Next, Refused, Enqueued, Run;
    StartOfRun(h);
    UndisturbedDisconnect(h, s);
    if s in up && s in h.senders && h.senders[s].ready {
      var a := Action.Broadcast(s, item);
      BroadcastIsOffer(h, s, item);
      BroadcastTurn(h, s, item);
      RunOneMore(h, [], a);
      assert [] + [a] == [a];
      if !h.senders[s].failed && Refused(h.senders[s].log, item, h.senders[s].max) {
        RunTwice(h, [a], Disconnecting(h, s, NO_PAUSE));
      } else {
        assert Turn(h, s, s in up, item, NO_PAUSE) == [a];
      }
    }
  }

  lemma UndisturbedDisconnect(h: Hub, s: Socket)
    ensures Run(h, Disconnecting(h, s, NO_PAUSE)) == if s in h.senders then Disconnected(h, s) else h
  {
    StartOfRun(h);
    hide Run, Next;
    if s in h.senders {
      assert Disconnecting(h, s, NO_PAUSE)
             == [Action.Unregister(s), Action.CancelWorker(s), Action.DrainQueue(s), Action.ScheduleClose(s)];
    }
  }

  /** With nothing in between, the run of a broadcast is the plain loop. */
  lemma {:induction false} UndisturbedTurns(h: Hub, connections: seq<Socket>, n: nat, up: set<Socket>, item: Item,
                                            connected: nat -> bool, between: nat -> Pauses)
    requires Inv(h) && n <= |connections|
    requires forall i: nat | i < n :: (connected(i) <==> connections[i] in up) && between(i) == NO_PAUSE
    ensures Run(h, Turns(h, connections, n, connected, item, between)) == BroadcastAll(h, connections[..n], up, item)
  {
    hide Inv, Next, Turn, Run, BroadcastStep;
    StartOfRun(h);
    if n > 0 {
      UndisturbedTurns(h, connections, n - 1, up, item, connected, between);
      var before := Turns(h, connections, n - 1, connected, item, between);
      assert connections[..n][..n - 1] == connections[..n - 1];
      BroadcastAllInv(h, connections[..n - 1], up, item);
      UndisturbedTurn(Run(h, before), connections[n - 1], up, item);
      RunTwice(h, before, Turn(Run(h, before), connections[n - 1], connected(n - 1), item, NO_PAUSE));
    }
  }

  lemma BroadcastStepFate(h: Hub, s: Socket, up: set<Socket>, item: Item, t: Socket)
    requires h.senders.Keys !! h.detached.Keys
    ensures s != t || t !in h.senders ==>
                       ClientOf(BroadcastStep(h, s, up, item), t) == ClientOf(h, t)
                       && (t in BroadcastStep(h, s, up, item).senders <==> t in h.senders)
    ensures s == t && t in h.senders ==>
              var (c, keep) := AfterBroadcast(h.senders[t], t in up, item);
              ClientOf(BroadcastStep(h, s, up, item), t) == Some(c)
              && (t in BroadcastStep(h, s, up, item).senders <==> keep)
  {
    hide Drained, Cancelled, Enqueued, Refused, Run, NoDuplicates;
    if s in h.senders {
      DisconnectedState(h, s);
    }
  }

  /** Such a broadcast reaches each registered client according to that client alone: ready clients with room
      get it, unready and failed ones are passed over, and a client that is gone or full is dropped
      without costing any other client the message. */
  lemma UndisturbedBroadcast(h: Hub, up: set<Socket>, item: Item, t: Socket)
    requires Inv(h)
    ensures var g := BroadcastAll(h, h.active, up, item);
            && Inv(g)
            && (t in h.senders ==>
                  var (c, keep) := AfterBroadcast(h.senders[t], t in up, item);
                  ClientOf(g, t) == Some(c) && (t in g.senders <==> keep))
            && (t !in h.senders ==> ClientOf(g, t) == ClientOf(h, t) && t !in g.senders)
  {
    BroadcastAllInv(h, h.active, up, item);
    BroadcastPrefixFate(h, h.active, up, item, t);
  }

  lemma {:induction false} BroadcastPrefixFate(h: Hub, connections: seq<Socket>, up: set<Socket>, item: Item, t: Socket)
    requires Inv(h) && NoDuplicates(connections)
    ensures var g := BroadcastAll(h, connections, up, item);
            && (t in connections && t in h.senders ==>
                  var (c, keep) := AfterBroadcast(h.senders[t], t in up, item);
                  ClientOf(g, t) == Some(c) && (t in g.senders <==> keep))
            && (t !in connections || t !in h.senders ==>
                  ClientOf(g, t) == ClientOf(h, t) && (t in g.senders <==> t in h.senders))
  {
    hide AfterBroadcast, BroadcastStep, Sound, ClientsSound;
    if connections != [] {
      var front, s := connections[..|connections| - 1], connections[|connections| - 1];
      assert connections == front + [s];
      BroadcastPrefixFate(h, front, up, item, t);
      BroadcastAllInv(h, front, up, item);
      BroadcastStepFate(BroadcastAll(h, front, up, item), s, up, item, t);
      assert s !in front;
    }
  }
}
