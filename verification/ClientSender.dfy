/**
 One client's bounded delivery queue and its single send worker.

 `Client` and the functions on it say what each uninterrupted stretch of the
 worker and of its callers does to the delivery log; the class is the queue
 with its coalescing side table, and every method is proved to do just that.
 */
module ClientSenders {
  import opened Wrappers
  import opened DeliveryLog

  /** The identity of one accepted WebSocket object. */
  type Socket = nat

  /** Waiting on the queue, inside a timed send, or finished. */
  datatype Worker = Waiting | Sending | Stopped

  /** `sent` counts the attempts that the transport completed. */
  datatype Client = Client(max: nat, log: Log, sent: nat, worker: Worker, ready: bool, failed: bool)

  ghost predicate Sound(c: Client) {
    && c.max >= 1
    && Faithful(c.log)
    && |c.log.pending| <= c.max
    && (c.log.lost != [] ==> c.worker == Stopped)
    && (c.failed ==> c.worker == Stopped && c.log.accepted != [])
    && (match c.worker
        case Waiting => |c.log.attempted| == c.sent
        case Sending => |c.log.attempted| == c.sent + 1
        case Stopped => c.sent <= |c.log.attempted| <= c.sent + 1)
  }

  function NewClient(max: nat): Client {
    Client(max, EmptyLog, 0, Waiting, false, false)
  }

  ghost function Enqueued(c: Client, item: Item): Client {
    c.(log := Accept(c.log, item, c.max))
  }

  ghost function Taken(c: Client, connected: bool): Client
    requires c.log.pending != []
  {
    if connected then c.(log := Take(c.log, true), worker := Sending)
    else c.(log := Take(c.log, false), worker := Stopped, failed := true)
  }

  ghost function SendDone(c: Client, ok: bool): Client {
    if ok then c.(sent := c.sent + 1, worker := Waiting)
    else c.(worker := Stopped, failed := true)
  }

  ghost function Cancelled(c: Client): Client { c.(worker := Stopped) }

  ghost function Drained(c: Client): Client { c.(log := Drain(c.log)) }

  lemma EnqueuedSound(c: Client, item: Item)
    requires Sound(c)
    ensures Sound(Enqueued(c, item))
  {
    AcceptFaithful(c.log, item, c.max);
  }

  lemma TakenSound(c: Client, connected: bool)
    requires Sound(c) && c.worker == Waiting && c.log.pending != []
    ensures Sound(Taken(c, connected))
  {
    TakeKeepsFlow(c.log, connected);
    assert c.log.accepted != [] by { assert c.log.pending[0] < |c.log.accepted|; }
  }

  lemma SendDoneSound(c: Client, ok: bool)
    requires Sound(c) && c.worker == Sending
    ensures Sound(SendDone(c, ok))
  {
    assert c.log.attempted != [];
    assert c.log.Flow()[0] == c.log.attempted[0];
    assert c.log.Flow()[0] < |c.log.accepted|;
  }

  lemma DrainedSound(c: Client)
    requires Sound(c) && c.worker == Stopped
    ensures Sound(Drained(c))
  {
    DrainKeepsFlow(c.log);
  }

  // ---------- the sender itself ----------

  /** A queued place: a snapshot keeps its payload in the side table instead. */
  datatype Entry = Entry(key: Option<string>, data: Option<string>)

  /** Entry e of the queue stands for the payload `item`, given the side table. */
  ghost predicate StandsFor(e: Entry, item: Item, coalesced: map<string, string>) {
    && e.key == item.key
    && (e.key.None? ==> e.data == Some(item.data))
    && (e.key.Some? ==> e.key.value in coalesced && coalesced[e.key.value] == item.data)
  }

  ghost predicate Represents(queue: seq<Entry>, coalesced: map<string, string>, l: Log)
    requires InRange(l.accepted, l.pending)
  {
    && |queue| == |l.pending|
    && (forall i | 0 <= i < |queue| :: StandsFor(queue[i], l.accepted[l.pending[i]], coalesced))
    && (forall k | k in coalesced :: exists p: nat :: HoldsType(l, Some(k), p))
  }

  class ClientSender {
    const websocket: Socket
    const maxPending: nat
    var queue: seq<Entry>
    var coalesced: map<string, string>
    var ready: bool
    var failed: bool
    var worker: Worker
    ghost var log: Log
    ghost var sent: nat

    ghost function View(): Client
      reads this
    {
      Client(maxPending, log, sent, worker, ready, failed)
    }

    ghost predicate Valid()
      reads this
    {
      Sound(View()) && Represents(queue, coalesced, log)
    }

    constructor (websocket: Socket, maxPending: nat)
      requires maxPending >= 1
      ensures Valid() && View() == NewClient(maxPending) && this.websocket == websocket
    {
      this.websocket, this.maxPending := websocket, maxPending;
      queue, coalesced := [], map[];
      ready, failed, worker := false, false, Waiting;
      log, sent := EmptyLog, 0;
    }

    /** A type is in the side table exactly when one, and only one, queue place carries it. */
    lemma SideTableMatchesQueue(k: string)
      requires Valid()
      ensures k in coalesced <==> exists i :: 0 <= i < |queue| && queue[i].key == Some(k)
      ensures forall i, j | 0 <= i < |queue| && 0 <= j < |queue| && queue[i].key == queue[j].key == Some(k) :: i == j
      ensures |queue| <= maxPending
    {
      if k in coalesced {
        var p: nat :| HoldsType(log, Some(k), p);
        assert StandsFor(queue[p], log.accepted[log.pending[p]], coalesced);
      }
      forall i, j | 0 <= i < j < |queue| && queue[i].key == Some(k) ensures queue[j].key != Some(k) {
        assert StandsFor(queue[i], log.accepted[log.pending[i]], coalesced);
        assert StandsFor(queue[j], log.accepted[log.pending[j]], coalesced);
      }
    }

    /** Queue one payload; false when the bounded queue is full. */
    method Enqueue(data: string, coalesceKey: Option<string>) returns (ok: bool)
      requires Valid()
      modifies this`queue, this`coalesced, this`log
      ensures Valid()
      ensures View() == Enqueued(old(View()), Item(coalesceKey, data))
      ensures ok <==> !Refused(old(log), Item(coalesceKey, data), maxPending)
      // A type that waits is never refused and takes no new place; anything else needs a free one.
      ensures ok <==> (coalesceKey.Some? && coalesceKey.value in old(coalesced)) || |old(queue)| < maxPending
      ensures !ok ==> queue == old(queue) && coalesced == old(coalesced) && log == old(log)
      ensures ok ==>
                && log.accepted == old(log.accepted) + [Item(coalesceKey, data)]
                && coalesced == (if coalesceKey.Some? then old(coalesced)[coalesceKey.value := data]
                                 else old(coalesced))
                && old(queue) <= queue
                && (if coalesceKey.Some? && coalesceKey.value in old(coalesced) then queue == old(queue)
                    else |queue| == |old(queue)| + 1 && queue[|old(queue)|].key == coalesceKey)
    {
      SlotIffTable(queue, coalesced, log, coalesceKey);
      hide Faithful, ClientSender.Valid;
      if coalesceKey.Some? && coalesceKey.value in coalesced {
        Overwrite(data, coalesceKey.value);
        return true;
      }
      assert |queue| == |log.pending| by { QueueIsPending(); }
      if |queue| >= maxPending {
        return false;
      }
      Append(data, coalesceKey);
      return true;
    }

    lemma QueueIsPending()
      requires Valid()
      ensures |queue| == |log.pending|
    {
    }

    /** The payload of a type that waits is replaced. */
    method Overwrite(data: string, key: string)
      requires Valid() && key in coalesced && SlotOf(log, Some(key)).Some?
      modifies this`coalesced, this`log
      ensures Valid() && View() == Enqueued(old(View()), Item(Some(key), data))
      ensures log.accepted == old(log.accepted) + [Item(Some(key), data)] && coalesced == old(coalesced)[key := data]
    {
      EnqueuedSound(View(), Item(Some(key), data));
      hide Faithful;
      coalesced := coalesced[key := data];
      log := Accept(log, Item(Some(key), data), maxPending);
      OverwriteRepresents(queue, old(coalesced), old(log), Item(Some(key), data), maxPending);
    }

    /** The payload takes a new place. */
    method Append(data: string, coalesceKey: Option<string>)
      requires Valid() && |queue| < maxPending
      requires coalesceKey.Some? ==> coalesceKey.value !in coalesced && SlotOf(log, coalesceKey).None?
      modifies this`queue, this`coalesced, this`log
      ensures Valid() && View() == Enqueued(old(View()), Item(coalesceKey, data))
      ensures log.accepted == old(log.accepted) + [Item(coalesceKey, data)]
      ensures coalesced == if coalesceKey.Some? then old(coalesced)[coalesceKey.value := data] else old(coalesced)
      ensures old(queue) <= queue && |queue| == |old(queue)| + 1 && queue[|old(queue)|].key == coalesceKey
    {
      ghost var item := Item(coalesceKey, data);
      EnqueuedSound(View(), item);
      hide Faithful;
      queue := queue + [Entry(coalesceKey, if coalesceKey.Some? && coalesceKey.value != "" then None else Some(data))];
      if coalesceKey.Some? {
        coalesced := coalesced[coalesceKey.value := data];
      }
      log := Accept(log, item, maxPending);
      AppendRepresents(old(queue), old(coalesced), old(log), item, maxPending, queue[|queue| - 1]);
    }

    /** The worker's stretch from the queue to the socket: take the head, look up its payload, and
        either start the send or fail because the transport is gone. */
    method TakeNext(connected: bool) returns (data: string)
      requires Valid() && worker == Waiting && queue != []
      modifies this`queue, this`coalesced, this`log, this`worker, this`failed
      ensures Valid()
      ensures View() == Taken(old(View()), connected)
      ensures data == old(log.accepted[log.pending[0]].data)
      ensures queue == old(queue[1..]) && log.pending == old(log.pending[1..])
      // On a live transport it is handed over and the send is awaited; on a gone one it is lost and the client fails.
      ensures connected ==>
                && worker == Sending && failed == old(failed)
                && log.attempted == old(log.attempted + [log.pending[0]]) && log.lost == old(log.lost)
      ensures !connected ==>
                && worker == Stopped && failed
                && log.lost == old(log.lost + [log.pending[0]]) && log.attempted == old(log.attempted)
    {
      assert InRange(log.accepted, log.pending) && InRange(log.accepted, Take(log, connected).pending);
      hide Faithful;
      TakenSound(View(), connected);
      var head := queue[0];
      assert StandsFor(head, log.accepted[log.pending[0]], coalesced);
      TakeRepresents(queue, coalesced, log, connected);
      queue := queue[1..];
      if head.key.Some? {
        data := coalesced[head.key.value];
        coalesced := coalesced - {head.key.value};
      } else {
        data := head.data.value;
      }
      log := Take(log, connected);
      if connected {
        worker := Sending;
      } else {
        worker, failed := Stopped, true;
      }
    }

    /** The timed send returned, or it timed out or raised. */
    method FinishSend(ok: bool)
      requires Valid() && worker == Sending
      modifies this`worker, this`failed, this`sent
      ensures Valid() && View() == SendDone(old(View()), ok)
      // A completed send counts and the worker waits for the next; any other ends the worker and fails the client.
      ensures ok ==> worker == Waiting && failed == old(failed) && sent == old(sent) + 1
      ensures !ok ==> worker == Stopped && failed && sent == old(sent)
    {
      SendDoneSound(View(), ok);
      if ok {
        sent, worker := sent + 1, Waiting;
      } else {
        worker, failed := Stopped, true;
      }
    }

    /** close(), first stretch: the worker is cancelled, wherever it waits. */
    method CancelWorker()
      requires Valid()
      modifies this`worker
      ensures Valid() && View() == Cancelled(old(View())) && worker == Stopped
    {
      worker := Stopped;
    }

    /** close(), second stretch: empty the queue, then the side table. */
    method DrainQueue()
      requires Valid() && worker == Stopped
      modifies this`queue, this`coalesced, this`log
      ensures Valid() && View() == Drained(old(View()))
      ensures queue == [] && coalesced == map[] && log.pending == [] && log.lost == old(log.lost + log.pending)
      ensures log.accepted == old(log.accepted) && log.attempted == old(log.attempted)
    {
      DrainedSound(View());
      while queue != []
        modifies this`queue
        decreases |queue|
      {
        queue := queue[1..];
      }
      coalesced := map[];
      log := Drain(log);
    }

    /** close() when nothing interleaves. */
    method Close()
      requires Valid()
      modifies this`queue, this`coalesced, this`log, this`worker
      ensures Valid() && View() == Drained(Cancelled(old(View())))
    {
      hide Sound, Represents, Drained;
      CancelWorker();
      DrainQueue();
    }
  }

  // ---------- queue and side table against the log ----------

  lemma SlotIffTable(queue: seq<Entry>, coalesced: map<string, string>, l: Log, key: Option<string>)
    requires InRange(l.accepted, l.pending) && Represents(queue, coalesced, l)
    ensures key.Some? ==> (key.value in coalesced <==> SlotOf(l, key).Some?)
  {
    if key.Some? && SlotOf(l, key).Some? {
      var p := SlotOf(l, key).value;
      assert StandsFor(queue[p], l.accepted[l.pending[p]], coalesced);
    }
  }

  lemma OverwriteRepresents(queue: seq<Entry>, coalesced: map<string, string>, l: Log, item: Item, max: nat)
    requires Faithful(l) && Represents(queue, coalesced, l)
    requires item.key.Some? && SlotOf(l, item.key).Some?
    requires InRange(Accept(l, item, max).accepted, Accept(l, item, max).pending)
    ensures Represents(queue, coalesced[item.key.value := item.data], Accept(l, item, max))
  {
    var r := Accept(l, item, max);
    var p := SlotOf(l, item.key).value;
    var table := coalesced[item.key.value := item.data];
    forall i | 0 <= i < |queue| ensures StandsFor(queue[i], r.accepted[r.pending[i]], table) {
      assert StandsFor(queue[i], l.accepted[l.pending[i]], coalesced);
      assert StandsFor(queue[p], l.accepted[l.pending[p]], coalesced);
    }
    forall k | k in table ensures exists q: nat :: HoldsType(r, Some(k), q) {
      if k == item.key.value {
        assert HoldsType(r, Some(k), p);
      } else {
        var q: nat :| HoldsType(l, Some(k), q);
        assert HoldsType(r, Some(k), q);
      }
    }
  }

  lemma AppendRepresents(queue: seq<Entry>, coalesced: map<string, string>, l: Log, item: Item, max: nat, e: Entry)
    requires Faithful(l) && Represents(queue, coalesced, l)
    requires |l.pending| < max && (item.key.Some? ==> SlotOf(l, item.key).None? && item.key.value !in coalesced)
    requires e.key == item.key && (item.key.None? ==> e.data == Some(item.data))
    requires InRange(Accept(l, item, max).accepted, Accept(l, item, max).pending)
    ensures Represents(queue + [e],
                       if item.key.Some? then coalesced[item.key.value := item.data] else coalesced,
                       Accept(l, item, max))
  {
    var r := Accept(l, item, max);
    var table := if item.key.Some? then coalesced[item.key.value := item.data] else coalesced;
    forall i | 0 <= i < |queue + [e]| ensures StandsFor((queue + [e])[i], r.accepted[r.pending[i]], table) {
      if i < |queue| {
        assert StandsFor(queue[i], l.accepted[l.pending[i]], coalesced);
      }
    }
    forall k | k in table ensures exists q: nat :: HoldsType(r, Some(k), q) {
      if k in coalesced {
        var q: nat :| HoldsType(l, Some(k), q);
        assert HoldsType(r, Some(k), q);
      } else {
        assert HoldsType(r, Some(k), |l.pending|);
      }
    }
  }

  lemma TakeRepresents(queue: seq<Entry>, coalesced: map<string, string>, l: Log, connected: bool)
    requires Faithful(l) && Represents(queue, coalesced, l) && queue != []
    requires InRange(l.accepted, Take(l, connected).pending)
    ensures Represents(queue[1..],
                       if queue[0].key.Some? then coalesced - {queue[0].key.value} else coalesced,
                       Take(l, connected))
  {
    var r := Take(l, connected);
    var head := queue[0];
    var table := if head.key.Some? then coalesced - {head.key.value} else coalesced;
    assert StandsFor(head, l.accepted[l.pending[0]], coalesced);
    forall i | 0 <= i < |queue[1..]| ensures StandsFor(queue[1..][i], r.accepted[r.pending[i]], table) {
      assert StandsFor(queue[i + 1], l.accepted[l.pending[i + 1]], coalesced);
    }
    forall k | k in table ensures exists q: nat :: HoldsType(r, Some(k), q) {
      var q: nat :| HoldsType(l, Some(k), q);
      assert StandsFor(queue[q], l.accepted[l.pending[q]], coalesced);
      assert HoldsType(r, Some(k), q - 1);
    }
  }
}
