/**
 The fan-out hub as a state machine: every stretch of connection_manager.py that
 runs without yielding to the event loop is one action, and a run is any sequence
 of actions, so every interleaving of producers, workers and closers is a run.
 */
module FanOut {
  import opened Wrappers
  import opened DeliveryLog
  import opened ClientSenders

  /** How far the endpoint of a socket got: accepted, then its init payload offered. */
  datatype Phase = Connected | InitOffered(init: Item)

  datatype Hub = Hub(
    max: nat,
    active: seq<Socket>,
    senders: map<Socket, Client>,
    // Unregistered clients: the closer still cancels and drains, then schedules the transport close.
    detached: map<Socket, Client>,
    closing: set<Socket>,
    closed: seq<Socket>,
    phase: map<Socket, Phase>)

  datatype Action =
    | Connect(s: Socket)
    | OfferInit(s: Socket, data: string)
    | MarkReady(s: Socket)
    | Reply(s: Socket, data: string)
    | Broadcast(s: Socket, item: Item)
    | Unregister(s: Socket)
    | CancelWorker(s: Socket)
    | DrainQueue(s: Socket)
    | ScheduleClose(s: Socket)
    | TakeNext(s: Socket, connected: bool)
    | FinishSend(s: Socket, ok: bool)

  function EmptyHub(max: nat): Hub { Hub(max, [], map[], map[], {}, [], map[]) }

  /** send_to_client up to its verdict: a failed worker takes nothing more. */
  ghost function Offered(c: Client, item: Item): Client {
    if c.failed then c else Enqueued(c, item)
  }

  /** list.remove: the first occurrence goes. */
  function Without(list: seq<Socket>, s: Socket): (r: seq<Socket>)
    ensures forall x :: x in r ==> x in list
    ensures NoDuplicates(list) ==> NoDuplicates(r) && (forall x :: x in r <==> x in list && x != s)
  {
    if list == [] then []
    else
      assert list == [list[0]] + list[1..];
      assert NoDuplicates(list) ==> NoDuplicates(list[1..]) && list[0] !in list[1..];
      if list[0] == s then list[1..] else [list[0]] + Without(list[1..], s)
  }

  ghost predicate NoDuplicates(list: seq<Socket>) {
    forall i, j | 0 <= i < j < |list| :: list[i] != list[j]
  }

  ghost function ClientOf(h: Hub, s: Socket): Option<Client> {
    if s in h.senders then Some(h.senders[s])
    else if s in h.detached then Some(h.detached[s])
    else None
  }

  ghost function WithClient(h: Hub, s: Socket, c: Client): Hub {
    if s in h.senders then h.(senders := h.senders[s := c])
    else h.(detached := h.detached[s := c])
  }

  /** One action; an action that is not enabled changes nothing. */
  ghost function Next(h: Hub, a: Action): Hub {
    match a
    case Connect(s) =>
      // A WebSocket object is accepted once, by its own endpoint.
      if s in h.phase then h
      else h.(active := h.active + [s], senders := h.senders[s := NewClient(h.max)], phase := h.phase[s := Connected])
    case OfferInit(s, data) =>
      if s !in h.phase || h.phase[s] != Connected then h
      else
        var h' := h.(phase := h.phase[s := InitOffered(Item(None, data))]);
        if s in h.senders then WithClient(h', s, Offered(h.senders[s], Item(None, data))) else h'
    case MarkReady(s) =>
      if s !in h.phase || h.phase[s] == Connected || s !in h.senders then h
      else WithClient(h, s, h.senders[s].(ready := true))
    case Reply(s, data) =>
      if s !in h.phase || h.phase[s] == Connected || s !in h.senders then h
      else WithClient(h, s, Offered(h.senders[s], Item(None, data)))
    case Broadcast(s, item) =>
      if s !in h.senders || !h.senders[s].ready then h
      else WithClient(h, s, Offered(h.senders[s], item))
    case Unregister(s) =>
      if s !in h.senders then h
      else h.(active := Without(h.active, s), senders := h.senders - {s},
              detached := h.detached[s := h.senders[s]], closing := h.closing + {s})
    case CancelWorker(s) =>
      if s !in h.closing || s !in h.detached then h
      else WithClient(h, s, Cancelled(h.detached[s]))
    case DrainQueue(s) =>
      if s !in h.closing || s !in h.detached || h.detached[s].worker != Stopped then h
      else WithClient(h, s, Drained(h.detached[s]))
    case ScheduleClose(s) =>
      if s !in h.closing then h
      else h.(closing := h.closing - {s}, closed := h.closed + [s])
    case TakeNext(s, connected) =>
      if ClientOf(h, s).None? then h
      else
        var c := ClientOf(h, s).value;
        if c.worker != Waiting || c.log.pending == [] then h else WithClient(h, s, Taken(c, connected))
    case FinishSend(s, ok) =>
      if ClientOf(h, s).None? || ClientOf(h, s).value.worker != Sending then h
      else WithClient(h, s, SendDone(ClientOf(h, s).value, ok))
  }

  ghost function Run(h: Hub, actions: seq<Action>): Hub {
    if actions == [] then h else Next(Run(h, actions[..|actions| - 1]), actions[|actions| - 1])
  }

  // ---------- the invariant ----------

  /** Nothing was taken before init; what was taken first is init; only then is the client ready. */
  ghost predicate InitFirst(c: Client, p: Phase, registered: bool) {
    match p
    case Connected => c.log.accepted == [] && !c.ready
    case InitOffered(init) =>
      && init.key.None?
      && (c.log.accepted != [] ==> c.log.accepted[0] == init)
      && (registered ==> c.log.accepted != [])
  }

  ghost predicate ClientsSound(clients: map<Socket, Client>, phase: map<Socket, Phase>, max: nat, registered: bool) {
    forall s | s in clients ::
      s in phase && Sound(clients[s]) && clients[s].max == max && InitFirst(clients[s], phase[s], registered)
  }

  ghost predicate Bookkeeping(h: Hub) {
    && NoDuplicates(h.active) && (forall s :: s in h.active <==> s in h.senders)
    && h.phase.Keys == h.senders.Keys + h.detached.Keys
    && h.senders.Keys !! h.detached.Keys
    && NoDuplicates(h.closed)
    && (forall s :: s in h.detached <==> s in h.closing || s in h.closed)
    && (forall s | s in h.closed :: s !in h.closing)
  }

  ghost predicate Inv(h: Hub) {
    && h.max >= 1
    && Bookkeeping(h)
    && ClientsSound(h.senders, h.phase, h.max, true)
    && ClientsSound(h.detached, h.phase, h.max, false)
  }

  lemma OfferedSound(c: Client, item: Item)
    requires Sound(c)
    ensures Sound(Offered(c, item)) && Offered(c, item).max == c.max && Offered(c, item).ready == c.ready
    ensures c.log.accepted <= Offered(c, item).log.accepted
    ensures c.log.accepted == [] ==> Offered(c, item).log.accepted == [item]
  {
    EnqueuedSound(c, item);
    assert c.log.pending == [] || c.log.pending[0] < |c.log.accepted|;
  }

  lemma OneClientSound(clients: map<Socket, Client>, phase: map<Socket, Phase>, max: nat, registered: bool,
                       s: Socket, c: Client)
    requires ClientsSound(clients, phase, max, registered)
    requires s in phase && Sound(c) && c.max == max && InitFirst(c, phase[s], registered)
    ensures ClientsSound(clients[s := c], phase, max, registered)
  {
    hide Sound;
  }

  /** What one action on a known client does to that client. */
  lemma ClientStep(h: Hub, s: Socket, c: Client, c': Client)
    requires Inv(h) && ClientOf(h, s) == Some(c)
    requires Sound(c') && c'.max == c.max && c.log.accepted <= c'.log.accepted
    requires s in h.senders || c'.log.accepted == c.log.accepted
    requires h.phase[s] == Connected ==> c'.log.accepted == [] && !c'.ready
    ensures Inv(WithClient(h, s, c'))
  {
    hide Sound;
    var h' := WithClient(h, s, c');
    assert InitFirst(c, h.phase[s], s in h.senders);
    assert InitFirst(c', h.phase[s], s in h.senders);
    if s in h.senders {
      OneClientSound(h.senders, h.phase, h.max, true, s, c');
      assert h'.senders.Keys == h.senders.Keys;
    } else {
      OneClientSound(h.detached, h.phase, h.max, false, s, c');
      assert h'.detached.Keys == h.detached.Keys;
    }
    assert Bookkeeping(h');
  }

  lemma ConnectStep(h: Hub, s: Socket)
    requires Inv(h) && s !in h.phase
    ensures Inv(Next(h, Connect(s)))
  {
    hide Faithful;
    var h' := Next(h, Connect(s));
    EmptySound(h.max);
    assert h'.senders.Keys == h.senders.Keys + {s};
    assert Bookkeeping(h');
    assert ClientsSound(h.senders, h'.phase, h.max, true);
    assert InitFirst(NewClient(h.max), Connected, true);
    OneClientSound(h.senders, h'.phase, h.max, true, s, NewClient(h.max));
  }

  lemma UnregisterStep(h: Hub, s: Socket)
    requires Inv(h) && s in h.senders
    ensures Inv(Next(h, Unregister(s)))
  {
    var h' := Next(h, Unregister(s));
    RegisteredClient(h, s);
    BookkeepingOf(h);
    UnregisterBookkeeping(h, s);
    hide Sound, InitFirst, Bookkeeping, NoDuplicates, Without;
    WithoutOneSound(h.senders, h.phase, h.max, s);
    OneClientSound(h.detached, h.phase, h.max, false, s, h.senders[s]);
  }

  lemma UnregisterBookkeeping(h: Hub, s: Socket)
    requires Bookkeeping(h) && s in h.senders
    ensures Bookkeeping(Next(h, Unregister(s)))
  {
    hide Without;
    var h' := Next(h, Unregister(s));
    assert s !in h.closed && s !in h.closing;
    assert h'.senders.Keys == h.senders.Keys - {s} && h'.detached.Keys == h.detached.Keys + {s};
  }

  lemma ScheduleStep(h: Hub, s: Socket)
    requires Inv(h) && s in h.closing
    ensures Inv(Next(h, ScheduleClose(s)))
  {
    hide Sound;
    var h' := Next(h, ScheduleClose(s));
    assert s !in h.closed;
    assert Bookkeeping(h');
  }

  lemma EmptySound(max: nat)
    requires max >= 1
    ensures Sound(NewClient(max))
  {
  }

  lemma ProducerStep(h: Hub, a: Action)
    requires Inv(h) && (a.OfferInit? || a.MarkReady? || a.Reply? || a.Broadcast?)
    ensures Inv(Next(h, a))
  {
    hide Sound;
    match a
    case OfferInit(s, data) =>
      if s in h.phase && h.phase[s] == Connected {
        OfferInitStep(h, s, data);
      }
    case MarkReady(s) =>
      if s in h.phase && h.phase[s] != Connected && s in h.senders {
        assert Sound(h.senders[s].(ready := true)) by { ReadySound(h.senders[s]); }
        ClientStep(h, s, h.senders[s], h.senders[s].(ready := true));
      }
    case Reply(s, data) =>
      if s in h.phase && h.phase[s] != Connected && s in h.senders {
        OfferedSound(h.senders[s], Item(None, data));
        ClientStep(h, s, h.senders[s], Offered(h.senders[s], Item(None, data)));
      }
    case Broadcast(s, item) =>
      if s in h.senders && h.senders[s].ready {
        OfferedSound(h.senders[s], item);
        assert InitFirst(h.senders[s], h.phase[s], true);
        ClientStep(h, s, h.senders[s], Offered(h.senders[s], item));
      }
  }

  lemma ReadySound(c: Client)
    requires Sound(c)
    ensures Sound(c.(ready := true))
  {
  }

  lemma RephaseSound(clients: map<Socket, Client>, phase: map<Socket, Phase>, max: nat, registered: bool,
                     s: Socket, init: Item)
    requires ClientsSound(clients, phase, max, registered) && init.key.None?
    requires s in phase && phase[s] == Connected && (s in clients ==> !registered)
    ensures ClientsSound(clients, phase[s := InitOffered(init)], max, registered)
  {
    hide Sound;
    assert s in clients ==> InitFirst(clients[s], Connected, registered);
  }

  lemma OfferInitStep(h: Hub, s: Socket, data: string)
    requires Inv(h) && s in h.phase && h.phase[s] == Connected
    ensures Inv(Next(h, OfferInit(s, data)))
  {
    hide Sound, Offered, InitFirst, ClientsSound;
    var init := Item(None, data);
    var h' := Next(h, OfferInit(s, data));
    RephaseSound(h.detached, h.phase, h.max, false, s, init);
    if s in h.senders {
      var c := Offered(h.senders[s], init);
      RegisteredClient(h, s);
      OfferedSound(h.senders[s], init);
      WithoutOneSound(h.senders, h.phase, h.max, s);
      assert InitFirst(c, InitOffered(init), true) by { InitTaken(h.senders[s], init); }
      RephaseSound(h.senders - {s}, h.phase, h.max, true, s, init);
      OneClientSound(h.senders - {s}, h'.phase, h.max, true, s, c);
      assert h'.senders == (h.senders - {s})[s := c];
    } else {
      RephaseSound(h.senders, h.phase, h.max, true, s, init);
    }
    assert Bookkeeping(h');
  }

  lemma RegisteredClient(h: Hub, s: Socket)
    requires Inv(h) && s in h.senders
    ensures Sound(h.senders[s]) && h.senders[s].max == h.max && InitFirst(h.senders[s], h.phase[s], true)
  {
    hide Sound;
  }

  lemma InitTaken(c: Client, init: Item)
    requires Sound(c) && InitFirst(c, Connected, true) && init.key.None?
    ensures InitFirst(Offered(c, init), InitOffered(init), true)
  {
    OfferedSound(c, init);
  }

  lemma WithoutOneSound(clients: map<Socket, Client>, phase: map<Socket, Phase>, max: nat, s: Socket)
    requires ClientsSound(clients, phase, max, true)
    ensures ClientsSound(clients - {s}, phase, max, true)
  {
    hide Sound;
  }

  lemma WorkerStep(h: Hub, a: Action)
    requires Inv(h) && (a.CancelWorker? || a.DrainQueue? || a.TakeNext? || a.FinishSend?)
    ensures Inv(Next(h, a))
  {
    if ClientOf(h, a.s).Some? && Next(h, a) != h {
      var c := ClientOf(h, a.s).value;
      assert InitFirst(c, h.phase[a.s], a.s in h.senders);
      var c' := WorkerClientStep(c, a, a.s in h.senders);
      ClientStep(h, a.s, c, c');
    }
  }

  lemma WorkerClientStep(c: Client, a: Action, registered: bool) returns (c': Client)
    requires Sound(c)
    requires a.CancelWorker? || (a.DrainQueue? && c.worker == Stopped)
             || (a.TakeNext? && c.worker == Waiting && c.log.pending != []) || (a.FinishSend? && c.worker == Sending)
    ensures Sound(c') && c'.max == c.max && c'.log.accepted == c.log.accepted && c'.ready == c.ready
    ensures c' == match a
                  case CancelWorker(_) => Cancelled(c)
                  case DrainQueue(_) => Drained(c)
                  case TakeNext(_, connected) => if c.log.pending != [] then Taken(c, connected) else c
                  case FinishSend(_, ok) => SendDone(c, ok)
                  case _ => c
  {
    match a
    case CancelWorker(_) => c' := Cancelled(c);
    case DrainQueue(_) => DrainedSound(c); c' := Drained(c);
    case TakeNext(_, connected) => TakenSound(c, connected); c' := Taken(c, connected);
    case FinishSend(_, ok) => SendDoneSound(c, ok); c' := SendDone(c, ok);
  }

  lemma RegistrationStep(h: Hub, a: Action)
    requires Inv(h) && (a.Connect? || a.Unregister? || a.ScheduleClose?)
    ensures Inv(Next(h, a))
  {
    hide Inv;
    match a
    case Connect(s) => if s !in h.phase { ConnectStep(h, s); }
    case Unregister(s) => if s in h.senders { UnregisterStep(h, s); }
    case ScheduleClose(s) => if s in h.closing { ScheduleStep(h, s); }
  }

  lemma NextKeepsInv(h: Hub, a: Action)
    requires Inv(h)
    ensures Inv(Next(h, a))
  {
    hide *;
    if a.Connect? || a.Unregister? || a.ScheduleClose? {
      RegistrationStep(h, a);
    } else if a.OfferInit? || a.MarkReady? || a.Reply? || a.Broadcast? {
      ProducerStep(h, a);
    } else {
      WorkerStep(h, a);
    }
  }

  lemma {:induction false} RunKeepsInv(h: Hub, actions: seq<Action>)
    requires Inv(h)
    ensures Inv(Run(h, actions))
  {
    if actions != [] {
      RunKeepsInv(h, actions[..|actions| - 1]);
      NextKeepsInv(Run(h, actions[..|actions| - 1]), actions[|actions| - 1]);
    }
  }

  lemma EmptyHubInv(max: nat)
    requires max >= 1
    ensures Inv(EmptyHub(max))
  {
  }

  // ---------- what holds in every run ----------

  /** Whatever the interleaving: the events a client was sent are the accepted ones in order, each once,
      up to those dropped at its end and those still queued; snapshots of one type keep their order; and
      nothing reaches the socket before the init payload. */
  lemma EveryRunDeliversFaithfully(max: nat, actions: seq<Action>, s: Socket)
    requires max >= 1
    ensures var h := Run(EmptyHub(max), actions);
            ClientOf(h, s).Some? ==>
              var c := ClientOf(h, s).value;
              var l := c.log;
              && |l.pending| <= max
              && InRange(l.accepted, l.attempted) && InRange(l.accepted, l.lost) && InRange(l.accepted, l.pending)
              && AcceptedLane(l.accepted, None)
                 == Lane(l.accepted, l.attempted, None) + Lane(l.accepted, l.lost, None)
                    + Lane(l.accepted, l.pending, None)
              && (l.lost != [] ==> c.worker == Stopped)
              && (forall key :: Increasing(Lane(l.accepted, l.attempted, key)))
              && (l.attempted != [] ==>
                    && s in h.phase && h.phase[s].InitOffered?
                    && l.attempted[0] == 0 && l.accepted[0] == h.phase[s].init)
  {
    var h := Run(EmptyHub(max), actions);
    EmptyHubInv(max);
    RunKeepsInv(EmptyHub(max), actions);
    if ClientOf(h, s).Some? {
      var c := ClientOf(h, s).value;
      KnownClient(h, s);
      EventsInOrderExactlyOnce(c.log);
      forall key ensures Increasing(Lane(c.log.accepted, c.log.attempted, key)) {
        SnapshotsInOrder(c.log, key);
      }
      FirstAttempt(c, h.phase[s], s in h.senders);
      RunKeepsMax(EmptyHub(max), actions);
    }
  }

  lemma {:induction false} RunKeepsMax(h: Hub, actions: seq<Action>)
    ensures Run(h, actions).max == h.max
  {
    if actions != [] {
      RunKeepsMax(h, actions[..|actions| - 1]);
      NextKeepsMax(Run(h, actions[..|actions| - 1]), actions[|actions| - 1]);
      hide Next;
    }
  }

  lemma NextKeepsMax(h: Hub, a: Action)
    ensures Next(h, a).max == h.max
  {
    hide Offered, Taken, SendDone, Cancelled, Drained, Without, NewClient;
  }

  lemma KnownClient(h: Hub, s: Socket)
    requires Inv(h) && ClientOf(h, s).Some?
    ensures s in h.phase && Sound(ClientOf(h, s).value) && ClientOf(h, s).value.max == h.max
    ensures InitFirst(ClientOf(h, s).value, h.phase[s], s in h.senders)
  {
    hide Sound;
  }

  lemma FirstAttempt(c: Client, p: Phase, registered: bool)
    requires Sound(c) && InitFirst(c, p, registered)
    ensures c.log.attempted != [] ==>
              c.log.accepted != [] && p.InitOffered? && c.log.attempted[0] == 0 && c.log.accepted[0] == p.init
  {
    assert c.log.attempted == [] || c.log.Flow()[0] == c.log.attempted[0];
    assert c.log.attempted == [] || c.log.Flow()[0] < |c.log.accepted|;
  }

  /** A client whose queue is empty and whose worker is idle has completely received the newest
      snapshot of every type. */
  lemma IdleClientIsUpToDate(max: nat, actions: seq<Action>, s: Socket, key: Option<string>)
    requires max >= 1
    requires var h := Run(EmptyHub(max), actions);
             && ClientOf(h, s).Some?
             && ClientOf(h, s).value.worker == Waiting && ClientOf(h, s).value.log.pending == []
             && AcceptedLane(ClientOf(h, s).value.log.accepted, key) != []
    ensures var c := ClientOf(Run(EmptyHub(max), actions), s).value;
            && c.sent == |c.log.attempted|
            && InRange(c.log.accepted, c.log.attempted)
            && var got, all := Lane(c.log.accepted, c.log.attempted, key), AcceptedLane(c.log.accepted, key);
               got != [] && got[|got| - 1] == all[|all| - 1]
  {
    EmptyHubInv(max);
    RunKeepsInv(EmptyHub(max), actions);
    KnownClient(Run(EmptyHub(max), actions), s);
    LatestSnapshotDelivered(ClientOf(Run(EmptyHub(max), actions), s).value.log, key);
  }

  // ---------- what was offered, and what of it was taken ----------

  ghost function Admitted(c: Client, item: Item): Option<Item> {
    if c.failed || Refused(c.log, item, c.max) then None else Some(item)
  }

  /** The payload this action adds to what s has accepted, if any: an offer to a registered client whose
      endpoint is far enough, whose worker has not failed, and whose queue has room or a place of that type. */
  ghost function TakenBy(h: Hub, a: Action, s: Socket): Option<Item>
    requires Bookkeeping(h)
  {
    if a.s != s || s !in h.senders then None
    else
      assert s in h.phase;
      match a
      case OfferInit(_, data) => if h.phase[s] == Connected then Admitted(h.senders[s], Item(None, data)) else None
      case Reply(_, data) => if h.phase[s] != Connected then Admitted(h.senders[s], Item(None, data)) else None
      case Broadcast(_, item) => if h.senders[s].ready then Admitted(h.senders[s], item) else None
      case _ => None
  }

  lemma RunBookkeeping(max: nat, actions: seq<Action>)
    requires max >= 1
    ensures Inv(Run(EmptyHub(max), actions)) && Bookkeeping(Run(EmptyHub(max), actions))
  {
    EmptyHubInv(max);
    RunKeepsInv(EmptyHub(max), actions);
  }

  function AsSeq(item: Option<Item>): seq<Item> { if item.Some? then [item.value] else [] }

  ghost function AllTaken(max: nat, actions: seq<Action>, s: Socket): seq<Item>
    requires max >= 1
  {
    if actions == [] then []
    else
      var before := actions[..|actions| - 1];
      RunBookkeeping(max, before);
      AllTaken(max, before, s) + AsSeq(TakenBy(Run(EmptyHub(max), before), actions[|actions| - 1], s))
  }

  ghost function AcceptedOf(h: Hub, s: Socket): seq<Item> {
    if ClientOf(h, s).Some? then ClientOf(h, s).value.log.accepted else []
  }

  lemma OfferTakes(c: Client, item: Item)
    ensures Offered(c, item).log.accepted == c.log.accepted + AsSeq(Admitted(c, item))
  {
  }

  lemma OneActionTakes(h: Hub, a: Action, s: Socket)
    requires Bookkeeping(h)
    ensures AcceptedOf(Next(h, a), s) == AcceptedOf(h, s) + AsSeq(TakenBy(h, a, s))
  {
    if a.s != s {
      OtherClientsUntouched(h, a, s);
    } else if s in h.senders && (a.OfferInit? || a.Reply? || a.Broadcast?) {
      OneOfferTakes(h, a);
    } else {
      OtherActionTakes(h, a);
    }
    hide Next, TakenBy, AsSeq;
  }

  lemma OneOfferTakes(h: Hub, a: Action)
    requires Bookkeeping(h) && a.s in h.senders && (a.OfferInit? || a.Reply? || a.Broadcast?)
    ensures AcceptedOf(Next(h, a), a.s) == AcceptedOf(h, a.s) + AsSeq(TakenBy(h, a, a.s))
  {
    hide Offered, Admitted, NoDuplicates;
    OfferTakes(h.senders[a.s], if a.Broadcast? then a.item else Item(None, a.data));
  }

  lemma OtherActionTakes(h: Hub, a: Action)
    requires Bookkeeping(h) && (a.s !in h.senders || !(a.OfferInit? || a.Reply? || a.Broadcast?))
    ensures AcceptedOf(Next(h, a), a.s) == AcceptedOf(h, a.s) && TakenBy(h, a, a.s) == None
  {
    hide Offered, Admitted, Without, NoDuplicates;
  }

  /** Over any interleaving a client has accepted exactly the offers it took, in that order: each turn of a
      broadcast counts for its client by that client's state at that turn, whatever came between the turns. */
  lemma {:induction false} AcceptedIsWhatWasTaken(max: nat, actions: seq<Action>, s: Socket)
    requires max >= 1
    ensures AcceptedOf(Run(EmptyHub(max), actions), s) == AllTaken(max, actions, s)
  {
    if actions != [] {
      var before := actions[..|actions| - 1];
      AcceptedIsWhatWasTaken(max, before, s);
      RunBookkeeping(max, before);
      hide Next, TakenBy, AcceptedOf;
      OneActionTakes(Run(EmptyHub(max), before), actions[|actions| - 1], s);
    }
  }

  // ---------- what a worker's steps come to ----------

  /** The steps that say how a client fares: a payload handed over, a transport found gone, a send that returned or
      failed, the worker cancelled, broadcasts unlocked. */
  datatype Deed = HandedOver | FoundGone | SendReturned | SendFailed | WorkerCancelled | Unlocked

  ghost predicate Did(h: Hub, a: Action, s: Socket, deed: Deed) {
    && a.s == s && ClientOf(h, s).Some?
    && var c := ClientOf(h, s).value;
       match deed
       case HandedOver => a.TakeNext? && a.connected && c.worker == Waiting && c.log.pending != []
       case FoundGone => a.TakeNext? && !a.connected && c.worker == Waiting && c.log.pending != []
       case SendReturned => a.FinishSend? && a.ok && c.worker == Sending
       case SendFailed => a.FinishSend? && !a.ok && c.worker == Sending
       case WorkerCancelled => a.CancelWorker? && s in h.closing && s in h.detached
       case Unlocked => a.MarkReady? && s in h.senders && s in h.phase && h.phase[s].InitOffered?
  }

  ghost function HowOften(max: nat, actions: seq<Action>, s: Socket, deed: Deed): nat {
    if actions == [] then 0
    else
      var before := actions[..|actions| - 1];
      HowOften(max, before, s, deed) + if Did(Run(EmptyHub(max), before), actions[|actions| - 1], s, deed) then 1 else 0
  }

  /** What one action changes in how a client fares. */
  ghost predicate Fares(c: Client, c': Client, h: Hub, a: Action, s: Socket) {
    && c'.sent == c.sent + (if Did(h, a, s, SendReturned) then 1 else 0)
    && |c'.log.attempted| == |c.log.attempted| + (if Did(h, a, s, HandedOver) then 1 else 0)
    && (c'.failed <==> c.failed || Did(h, a, s, SendFailed) || Did(h, a, s, FoundGone))
    && (c'.worker == Stopped <==>
          c.worker == Stopped || Did(h, a, s, SendFailed) || Did(h, a, s, FoundGone) || Did(h, a, s, WorkerCancelled))
    && (c'.ready <==> c.ready || Did(h, a, s, Unlocked))
  }

  lemma OfferKeeps(c: Client, item: Item)
    ensures var r := Offered(c, item);
            && r.sent == c.sent && r.log.attempted == c.log.attempted && r.failed == c.failed
            && r.worker == c.worker && r.ready == c.ready
  {
  }

  lemma OfferFares(h: Hub, a: Action)
    requires Bookkeeping(h) && ClientOf(h, a.s).Some? && (a.OfferInit? || a.Reply? || a.Broadcast?)
    ensures ClientOf(Next(h, a), a.s).Some?
    ensures Fares(ClientOf(h, a.s).value, ClientOf(Next(h, a), a.s).value, h, a, a.s)
  {
    hide Offered, Taken, SendDone, Cancelled, Drained, NoDuplicates, Without;
    OfferKeeps(ClientOf(h, a.s).value, if a.Broadcast? then a.item else Item(None, a.data));
  }

  lemma WorkerFares(h: Hub, a: Action)
    requires Bookkeeping(h) && ClientOf(h, a.s).Some? && (a.TakeNext? || a.FinishSend?)
    ensures ClientOf(Next(h, a), a.s).Some?
    ensures Fares(ClientOf(h, a.s).value, ClientOf(Next(h, a), a.s).value, h, a, a.s)
  {
    hide Offered, NoDuplicates, Without;
  }

  lemma ClosingFares(h: Hub, a: Action)
    requires Bookkeeping(h) && ClientOf(h, a.s).Some? && (a.CancelWorker? || a.DrainQueue? || a.ScheduleClose?)
    ensures ClientOf(Next(h, a), a.s).Some?
    ensures Fares(ClientOf(h, a.s).value, ClientOf(Next(h, a), a.s).value, h, a, a.s)
  {
    hide Offered, Taken, SendDone, NoDuplicates, Without;
  }

  lemma RegistryFares(h: Hub, a: Action)
    requires Bookkeeping(h) && ClientOf(h, a.s).Some? && (a.Connect? || a.Unregister? || a.MarkReady?)
    ensures ClientOf(Next(h, a), a.s).Some?
    ensures Fares(ClientOf(h, a.s).value, ClientOf(Next(h, a), a.s).value, h, a, a.s)
  {
    hide Offered, Taken, SendDone, Cancelled, Drained, NoDuplicates, Without;
  }

  lemma ActionFares(h: Hub, a: Action, s: Socket)
    requires Bookkeeping(h) && ClientOf(h, s).Some?
    ensures ClientOf(Next(h, a), s).Some? && Fares(ClientOf(h, s).value, ClientOf(Next(h, a), s).value, h, a, s)
  {
    hide Next, ClientOf, Bookkeeping;
    if a.s != s {
      OtherClientsUntouched(h, a, s);
    } else {
      hide Fares;
      if a.OfferInit? || a.Reply? || a.Broadcast? { OfferFares(h, a); }
      else if a.TakeNext? || a.FinishSend? { WorkerFares(h, a); }
      else if a.CancelWorker? || a.DrainQueue? || a.ScheduleClose? { ClosingFares(h, a); }
      else { RegistryFares(h, a); }
    }
  }

  /** A client that appears in a step is a new one. */
  lemma FirstSeen(h: Hub, a: Action, s: Socket)
    requires Bookkeeping(h) && ClientOf(h, s).None? && ClientOf(Next(h, a), s).Some?
    ensures var c := ClientOf(Next(h, a), s).value;
            c.sent == 0 && c.log.attempted == [] && !c.failed && c.worker == Waiting && !c.ready
  {
    hide Offered, Taken, SendDone, Cancelled, Drained, NoDuplicates, Without;
    if a.s != s { OtherClientsUntouched(h, a, s); }
  }

  /** Over any interleaving: as many payloads were handed over, and as many completely sent, as the counters say; a
      client has failed exactly when one of its sends failed or it was found gone, its worker has ended exactly
      when it failed or was cancelled, and broadcasts reach it exactly once they have been unlocked. */
  lemma {:induction false} ClientsFareAsTheirSendsDo(max: nat, actions: seq<Action>, s: Socket)
    requires max >= 1
    ensures var client := ClientOf(Run(EmptyHub(max), actions), s);
            if client.None? then forall deed :: HowOften(max, actions, s, deed) == 0
            else
              var c := client.value;
              && c.sent == HowOften(max, actions, s, SendReturned)
              && |c.log.attempted| == HowOften(max, actions, s, HandedOver)
              && (c.failed <==> HowOften(max, actions, s, SendFailed) > 0 || HowOften(max, actions, s, FoundGone) > 0)
              && (c.worker == Stopped <==> c.failed || HowOften(max, actions, s, WorkerCancelled) > 0)
              && (c.ready <==> HowOften(max, actions, s, Unlocked) > 0)
  {
    if actions != [] {
      var before, a := actions[..|actions| - 1], actions[|actions| - 1];
      var h := Run(EmptyHub(max), before);
      ClientsFareAsTheirSendsDo(max, before, s);
      RunBookkeeping(max, before);
      hide Next, Bookkeeping;
      if ClientOf(h, s).Some? {
        ActionFares(h, a, s);
      } else if ClientOf(Next(h, a), s).Some? {
        FirstSeen(h, a, s);
      }
    }
  }

  // ---------- histories ----------

  lemma PhaseStays(h: Hub, a: Action, s: Socket)
    requires s in h.phase && s !in h.senders
    ensures s in Next(h, a).phase && s !in Next(h, a).senders
  {
    hide Offered, Taken, SendDone, Cancelled, Drained, Without, NewClient, NoDuplicates;
  }

  lemma AcceptedStays(h: Hub, a: Action, s: Socket)
    requires Inv(h)
    ensures AcceptedOf(h, s) <= AcceptedOf(Next(h, a), s) && (s in h.phase ==> s in Next(h, a).phase)
  {
    HistoryOnlyGrows(h, a, s);
    PhasesStay(h, a);
    hide Inv, Next, ClientOf;
  }

  lemma PhasesStay(h: Hub, a: Action)
    ensures h.phase.Keys <= Next(h, a).phase.Keys
  {
    hide Offered, Taken, SendDone, Cancelled, Drained, Without, NewClient, NoDuplicates;
  }

  /** Over any run what a client accepted stays, and a client out of the registry stays out. */
  lemma {:induction false} RunExtends(h: Hub, actions: seq<Action>, s: Socket)
    requires Inv(h)
    ensures AcceptedOf(h, s) <= AcceptedOf(Run(h, actions), s) && (s in h.phase ==> s in Run(h, actions).phase)
    ensures s in h.phase && s !in h.senders ==> s !in Run(h, actions).senders
  {
    hide Inv, Next, AcceptedOf;
    if actions != [] {
      var front, last := actions[..|actions| - 1], actions[|actions| - 1];
      RunExtends(h, front, s);
      RunKeepsInv(h, front);
      AcceptedStays(Run(h, front), last, s);
      if s in h.phase && s !in h.senders { PhaseStays(Run(h, front), last, s); }
    }
  }

  ghost predicate Extends(c: Client, c': Client) {
    c.log.accepted <= c'.log.accepted && c.log.attempted <= c'.log.attempted
  }

  lemma OfferExtends(c: Client, item: Item)
    ensures Extends(c, Offered(c, item))
  {
  }

  lemma WorkerExtends(c: Client, connected: bool, ok: bool)
    ensures c.log.pending != [] ==> Extends(c, Taken(c, connected))
    ensures Extends(c, SendDone(c, ok)) && Extends(c, Cancelled(c)) && Extends(c, Drained(c))
  {
  }

  /** The functions a client can be put through, one of which every action on it is. */
  ghost function Outcome(c: Client, a: Action): Client {
    match a
    case OfferInit(_, data) => Offered(c, Item(None, data))
    case Reply(_, data) => Offered(c, Item(None, data))
    case Broadcast(_, item) => Offered(c, item)
    case MarkReady(_) => c.(ready := true)
    case CancelWorker(_) => Cancelled(c)
    case DrainQueue(_) => Drained(c)
    case TakeNext(_, connected) => if c.log.pending == [] then c else Taken(c, connected)
    case FinishSend(_, ok) => SendDone(c, ok)
    case _ => c
  }

  lemma OutcomeOrUnchanged(h: Hub, a: Action, s: Socket)
    requires Bookkeeping(h) && ClientOf(h, s).Some?
    ensures ClientOf(Next(h, a), s) == ClientOf(h, s)
         || ClientOf(Next(h, a), s) == Some(Outcome(ClientOf(h, s).value, a))
  {
    hide Offered, Taken, SendDone, Cancelled, Drained, Without, NewClient, NoDuplicates;
    assert s in h.phase;
    if a.s != s { OtherClientsUntouched(h, a, s); }
  }

  /** Who is registered, who waits to be closed and what has been scheduled for closing, after one action: a socket is
      registered by its one connect until it is unregistered, and then waits for its closing task. */
  lemma RegistryMoves(h: Hub, a: Action, s: Socket)
    requires Bookkeeping(h)
    ensures var r := Next(h, a);
            && (s in r.senders <==> (s in h.senders && a != Unregister(s))
                                    || (a == Connect(s) && s !in h.senders && s !in h.detached))
            && (s in r.closing <==> (s in h.closing && a != ScheduleClose(s)) || (a == Unregister(s) && s in h.senders))
            && r.closed == h.closed + (if a.ScheduleClose? && a.s in h.closing then [a.s] else [])
  {
    hide Offered, Taken, SendDone, Cancelled, Drained, ClientOf, NoDuplicates, Without, NewClient;
  }

  /** A cancel stops the worker of a client that waits to be closed, and a drain empties its queue. */
  lemma ClosingEmpties(h: Hub, a: Action, s: Socket)
    requires Bookkeeping(h)
    ensures s in h.closing && s in h.detached && a == CancelWorker(s) ==> Next(h, a).detached[s].worker == Stopped
    ensures s in h.closing && s in h.detached && h.detached[s].worker == Stopped && a == DrainQueue(s) ==>
              Next(h, a).detached[s].log.pending == []
  {
    hide Offered, Taken, SendDone;
  }

  /** Payloads once offered to a socket, and closes once scheduled, are never taken back. */
  lemma HistoryOnlyGrows(h: Hub, a: Action, s: Socket)
    requires Inv(h)
    ensures h.closed <= Next(h, a).closed
    ensures ClientOf(h, s).Some? ==> ClientOf(Next(h, a), s).Some?
    ensures ClientOf(h, s).Some? ==> Extends(ClientOf(h, s).value, ClientOf(Next(h, a), s).value)
  {
    BookkeepingOf(h);
    hide *;
    ClosedOnlyGrows(h, a);
    if ClientOf(h, s).Some? {
      OutcomeOrUnchanged(h, a, s);
      OutcomeExtends(ClientOf(h, s).value, a);
    }
  }

  lemma OutcomeExtends(c: Client, a: Action)
    ensures Extends(c, Outcome(c, a)) && Extends(c, c)
  {
    hide Offered, Taken, SendDone, Cancelled, Drained;
    match a {
      case OfferInit(_, data) => OfferExtends(c, Item(None, data));
      case Reply(_, data) => OfferExtends(c, Item(None, data));
      case Broadcast(_, item) => OfferExtends(c, item);
      case TakeNext(_, connected) => WorkerExtends(c, connected, true);
      case FinishSend(_, ok) => WorkerExtends(c, true, ok);
      case _ => WorkerExtends(c, true, true);
    }
  }

  lemma ClosedOnlyGrows(h: Hub, a: Action)
    ensures h.closed <= Next(h, a).closed
  {
    hide Offered, Taken, SendDone, Cancelled, Drained, Without, NewClient, NoDuplicates;
  }

  lemma BookkeepingOf(h: Hub)
    requires Inv(h)
    ensures Bookkeeping(h)
  {
  }

  /** No head-of-line blocking: an action on one client leaves every other client as it is. */
  lemma OtherClientsUntouched(h: Hub, a: Action, t: Socket)
    requires a.s != t
    ensures ClientOf(Next(h, a), t) == ClientOf(h, t)
    ensures t in Next(h, a).senders <==> t in h.senders
    ensures t in Next(h, a).detached <==> t in h.detached
  {
    hide Offered, Taken, SendDone, Cancelled, Drained, Without, NewClient, NoDuplicates;
  }

  lemma StartOfRun(h: Hub)
    ensures Run(h, []) == h
  {
  }

  lemma RunOneMore(h: Hub, actions: seq<Action>, a: Action)
    ensures Run(h, actions + [a]) == Next(Run(h, actions), a)
  {
    hide Next;
    assert (actions + [a])[..|actions|] == actions;
  }

  lemma {:induction false} RunTwice(h: Hub, a: seq<Action>, b: seq<Action>)
    ensures Run(h, a + b) == Run(Run(h, a), b)
  {
    hide Next;
    if b == [] {
      assert a + b == a;
    } else {
      var front, last := b[..|b| - 1], b[|b| - 1];
      RunTwice(h, a, front);
      assert a + b == (a + front) + [last] && b == front + [last];
      RunOneMore(h, a + front, last);
      RunOneMore(Run(h, a), front, last);
    }
  }

  lemma TakenThenKept(max: nat, before: seq<Action>, a: Action, rest: seq<Action>, s: Socket)
    requires max >= 1
    ensures Inv(Run(EmptyHub(max), before)) && Bookkeeping(Run(EmptyHub(max), before))
    ensures AcceptedOf(Run(EmptyHub(max), before), s) + AsSeq(TakenBy(Run(EmptyHub(max), before), a, s))
            <= AcceptedOf(Run(EmptyHub(max), before + [a] + rest), s)
  {
    RunBookkeeping(max, before);
    hide Inv, Next, TakenBy, AcceptedOf, Run, Bookkeeping;
    var h := Run(EmptyHub(max), before);
    OneActionTakes(h, a, s);
    NextKeepsInv(h, a);
    RunOneMore(EmptyHub(max), before, a);
    RunTwice(EmptyHub(max), before + [a], rest);
    RunExtends(Next(h, a), rest, s);
  }

  /** What one turn gave a client stays at its place in everything that client accepts later. */
  lemma TakenForGood(max: nat, actions: seq<Action>, k: nat, s: Socket)
    requires max >= 1 && k < |actions|
    ensures Inv(Run(EmptyHub(max), actions[..k]))
    ensures var h, all := Run(EmptyHub(max), actions[..k]), AcceptedOf(Run(EmptyHub(max), actions), s);
            AcceptedOf(h, s) + AsSeq(TakenBy(h, actions[k], s)) <= all
  {
    hide Inv, TakenBy, AcceptedOf, Run, Bookkeeping;
    SplitAt(actions, k);
    TakenThenKept(max, actions[..k], actions[k], actions[k + 1..], s);
  }

  lemma SplitAt(actions: seq<Action>, k: nat)
    requires k < |actions|
    ensures actions[..k] + [actions[k]] + actions[k + 1..] == actions
  {
  }

  /** How often s left the registry during the run. */
  ghost function Departures(h: Hub, actions: seq<Action>, s: Socket): nat {
    if actions == [] then 0
    else
      var before := Run(h, actions[..|actions| - 1]);
      Departures(h, actions[..|actions| - 1], s)
      + (if s in before.senders && s !in Next(before, actions[|actions| - 1]).senders then 1 else 0)
  }

  /** Each client is unregistered at most once and its transport close scheduled at most once, however
      many of the peer, the failure cleanup, the broadcast and the shutdown disconnect it. */
  lemma {:induction false} UnregisteredAndClosedOnce(max: nat, actions: seq<Action>, s: Socket)
    requires max >= 1
    ensures var h := Run(EmptyHub(max), actions);
            && Departures(EmptyHub(max), actions, s) == (if s in h.detached then 1 else 0)
            && NoDuplicates(h.closed)
            && (s in h.closed ==> s in h.detached && s !in h.senders)
            && NoDuplicates(h.active) && (s in h.active <==> s in h.senders)
  {
    EmptyHubInv(max);
    RunKeepsInv(EmptyHub(max), actions);
    if actions != [] {
      var before := Run(EmptyHub(max), actions[..|actions| - 1]);
      UnregisteredAndClosedOnce(max, actions[..|actions| - 1], s);
      RunKeepsInv(EmptyHub(max), actions[..|actions| - 1]);
      DepartureStep(before, actions[|actions| - 1], s);
    }
  }

  lemma DepartureStep(h: Hub, a: Action, s: Socket)
    requires Inv(h)
    ensures s in h.senders && s !in Next(h, a).senders <==> s !in h.detached && s in Next(h, a).detached
    ensures s in h.detached ==> s in Next(h, a).detached
  {
    BookkeepingOf(h);
    if a.s != s {
      OtherClientsUntouched(h, a, s);
    } else {
      OwnDeparture(h, a);
    }
    hide Inv, Bookkeeping, Next;
  }

  lemma OwnDeparture(h: Hub, a: Action)
    requires Bookkeeping(h)
    ensures a.s in h.senders && a.s !in Next(h, a).senders <==> a.s !in h.detached && a.s in Next(h, a).detached
    ensures a.s in h.detached ==> a.s in Next(h, a).detached
  {
    hide Offered, Taken, SendDone, Cancelled, Drained, Without, NewClient, NoDuplicates;
    assert a.s in h.senders ==> a.s !in h.detached;
    assert a.s !in h.phase ==> a.s !in h.detached;
  }
}
