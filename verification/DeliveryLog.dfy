/**
 What one WebSocket client was promised and what it got, as plain values.

 `accepted` is every payload the client's sender took, oldest first. The three
 index sequences say where each of them went: handed to the socket, dropped
 (the worker died on it, or the queue was drained), or still queued. A queued
 snapshot that is superseded keeps its place in the queue and changes its index.
 */
module DeliveryLog {
  import opened Wrappers

  /** A payload: an event has no key, a state snapshot carries its message type. */
  datatype Item = Item(key: Option<string>, data: string)

  datatype Log = Log(accepted: seq<Item>, attempted: seq<nat>, lost: seq<nat>, pending: seq<nat>) {
    ghost function Flow(): seq<nat> { attempted + lost + pending }
  }

  const EmptyLog := Log([], [], [], [])

  ghost predicate InRange(a: seq<Item>, flow: seq<nat>) {
    forall i | 0 <= i < |flow| :: flow[i] < |a|
  }

  /** Payloads of one type, and all events, leave in the order they were accepted, none twice. */
  ghost predicate LanesIncrease(a: seq<Item>, flow: seq<nat>)
    requires InRange(a, flow)
  {
    forall i, j | 0 <= i < j < |flow| && a[flow[i]].key == a[flow[j]].key :: flow[i] < flow[j]
  }

  /** Flow place j accounts for entry n: an event by itself, a snapshot by one of its type as new. */
  ghost predicate Accounts(a: seq<Item>, flow: seq<nat>, n: nat, j: nat)
    requires InRange(a, flow) && n < |a|
  {
    j < |flow| && a[flow[j]].key == a[n].key && n <= flow[j] && (a[n].key.None? ==> flow[j] == n)
  }

  ghost predicate CoveredAt(a: seq<Item>, flow: seq<nat>, n: nat)
    requires InRange(a, flow) && n < |a|
  {
    exists j: nat :: Accounts(a, flow, n, j)
  }

  ghost predicate Covered(a: seq<Item>, flow: seq<nat>)
    requires InRange(a, flow)
  {
    forall n: nat | n < |a| :: CoveredAt(a, flow, n)
  }

  ghost predicate OneSlotPerType(a: seq<Item>, pending: seq<nat>)
    requires InRange(a, pending)
  {
    forall i, j | 0 <= i < j < |pending| && a[pending[i]].key.Some? ::
      a[pending[i]].key != a[pending[j]].key
  }

  ghost predicate Faithful(l: Log) {
    && InRange(l.accepted, l.Flow())
    && InRange(l.accepted, l.pending)
    && LanesIncrease(l.accepted, l.Flow())
    && Covered(l.accepted, l.Flow())
    && OneSlotPerType(l.accepted, l.pending)
    && (l.accepted != [] && l.accepted[0].key.None? ==> l.Flow() != [] && l.Flow()[0] == 0)
  }

  // ---------- accepting a payload ----------

  ghost predicate HoldsType(l: Log, key: Option<string>, p: nat) {
    p < |l.pending| && l.pending[p] < |l.accepted| && l.accepted[l.pending[p]].key == key
  }

  /** The queue slot reserved for a type, if one is waiting. */
  ghost function SlotOf(l: Log, key: Option<string>): (slot: Option<nat>)
    ensures slot.Some? ==> HoldsType(l, key, slot.value)
    ensures slot.None? ==> forall p: nat :: !HoldsType(l, key, p)
  {
    if exists p: nat :: HoldsType(l, key, p) then
      var p: nat :| HoldsType(l, key, p); Some(p)
    else None
  }

  ghost predicate Refused(l: Log, item: Item, max: nat) {
    (item.key.None? || SlotOf(l, item.key).None?) && |l.pending| >= max
  }

  /** A waiting snapshot of the same type is overwritten in place, everything else joins the tail. */
  ghost function Accept(l: Log, item: Item, max: nat): Log {
    var n := |l.accepted|;
    if item.key.Some? && SlotOf(l, item.key).Some? then
      l.(accepted := l.accepted + [item], pending := l.pending[SlotOf(l, item.key).value := n])
    else if Refused(l, item, max) then l
    else l.(accepted := l.accepted + [item], pending := l.pending + [n])
  }

  lemma AppendFlow(a: seq<Item>, flow: seq<nat>, item: Item)
    requires InRange(a, flow) && LanesIncrease(a, flow) && Covered(a, flow)
    ensures InRange(a + [item], flow + [|a|])
    ensures LanesIncrease(a + [item], flow + [|a|]) && Covered(a + [item], flow + [|a|])
  {
    var a', flow' := a + [item], flow + [|a|];
    forall m: nat | m < |a'| ensures CoveredAt(a', flow', m) {
      if m < |a| {
        assert CoveredAt(a, flow, m);
        var j: nat :| Accounts(a, flow, m, j);
        assert Accounts(a', flow', m, j);
      } else {
        assert Accounts(a', flow', m, |flow|);
      }
    }
  }

  lemma ReplaceFlow(a: seq<Item>, flow: seq<nat>, item: Item, q: nat)
    requires InRange(a, flow) && LanesIncrease(a, flow) && Covered(a, flow)
    requires q < |flow| && item.key.Some? && a[flow[q]].key == item.key
    requires forall j | q < j < |flow| :: a[flow[j]].key != item.key
    ensures InRange(a + [item], flow[q := |a|])
    ensures LanesIncrease(a + [item], flow[q := |a|]) && Covered(a + [item], flow[q := |a|])
  {
    var a', flow' := a + [item], flow[q := |a|];
    forall m: nat | m < |a'| ensures CoveredAt(a', flow', m) {
      if m < |a| {
        assert CoveredAt(a, flow, m);
        var j: nat :| Accounts(a, flow, m, j);
        assert Accounts(a', flow', m, j);
      } else {
        assert Accounts(a', flow', m, q);
      }
    }
  }

  lemma AcceptFaithful(l: Log, item: Item, max: nat)
    requires Faithful(l) && |l.pending| <= max
    ensures Faithful(Accept(l, item, max)) && |Accept(l, item, max).pending| <= max
  {
    var r := Accept(l, item, max);
    if item.key.Some? && SlotOf(l, item.key).Some? {
      var p := SlotOf(l, item.key).value;
      var q := |l.attempted| + |l.lost| + p;
      assert r.Flow() == l.Flow()[q := |l.accepted|];
      forall j | q < j < |l.Flow()| ensures l.accepted[l.Flow()[j]].key != item.key {
        assert l.Flow()[j] == l.pending[j - |l.attempted| - |l.lost|];
      }
      ReplaceFlow(l.accepted, l.Flow(), item, q);
    } else if !Refused(l, item, max) {
      assert r.Flow() == l.Flow() + [|l.accepted|];
      AppendFlow(l.accepted, l.Flow(), item);
      forall i, j | 0 <= i < j < |r.pending| && r.accepted[r.pending[i]].key.Some?
        ensures r.accepted[r.pending[i]].key != r.accepted[r.pending[j]].key
      {
        assert item.key.Some? ==> !HoldsType(l, item.key, i);
      }
    }
  }

  // ---------- leaving the queue ----------

  /** The worker takes the head: to the socket when it is connected, otherwise it is dropped. */
  ghost function Take(l: Log, connected: bool): Log
    requires l.pending != []
  {
    if connected then l.(attempted := l.attempted + [l.pending[0]], pending := l.pending[1..])
    else l.(lost := l.lost + [l.pending[0]], pending := l.pending[1..])
  }

  ghost function Drain(l: Log): Log {
    l.(lost := l.lost + l.pending, pending := [])
  }

  lemma TakeKeepsFlow(l: Log, connected: bool)
    requires l.pending != [] && (connected ==> l.lost == [])
    requires Faithful(l)
    ensures Take(l, connected).Flow() == l.Flow()
    ensures Faithful(Take(l, connected))
  {
    var r := Take(l, connected);
    assert r.Flow() == l.Flow();
    forall i, j | 0 <= i < j < |r.pending| && r.accepted[r.pending[i]].key.Some?
      ensures r.accepted[r.pending[i]].key != r.accepted[r.pending[j]].key
    {
      assert r.pending[i] == l.pending[i + 1] && r.pending[j] == l.pending[j + 1];
    }
  }

  lemma DrainKeepsFlow(l: Log)
    requires Faithful(l)
    ensures Drain(l).Flow() == l.Flow() && Faithful(Drain(l))
  {
    assert Drain(l).Flow() == l.Flow();
  }

  // ---------- what a faithful log means ----------

  function Upto(n: nat): (s: seq<nat>)
    ensures |s| == n && forall i | 0 <= i < n :: s[i] == i
  {
    seq(n, i => i)
  }

  /** The indices of one lane (one message type, or the events), in flow order. */
  ghost function Lane(a: seq<Item>, idx: seq<nat>, key: Option<string>): (s: seq<nat>)
    requires InRange(a, idx)
    ensures InRange(a, s)
  {
    if idx == [] then []
    else Lane(a, idx[..|idx| - 1], key) + (if a[idx[|idx| - 1]].key == key then [idx[|idx| - 1]] else [])
  }

  ghost predicate Increasing(s: seq<nat>) {
    forall i, j | 0 <= i < j < |s| :: s[i] < s[j]
  }

  lemma {:induction false} LaneElements(a: seq<Item>, idx: seq<nat>, key: Option<string>)
    requires InRange(a, idx)
    ensures forall n :: n in Lane(a, idx, key) <==> n in idx && a[n].key == key
  {
    if idx != [] {
      var front := idx[..|idx| - 1];
      LaneElements(a, front, key);
      assert idx == front + [idx[|idx| - 1]];
    }
  }

  lemma {:induction false} LaneSplits(a: seq<Item>, x: seq<nat>, y: seq<nat>, key: Option<string>)
    requires InRange(a, x) && InRange(a, y) && InRange(a, x + y)
    ensures Lane(a, x + y, key) == Lane(a, x, key) + Lane(a, y, key)
  {
    if y == [] {
      assert x + y == x;
    } else {
      var front := y[..|y| - 1];
      assert (x + y)[..|x + y| - 1] == x + front;
      LaneSplits(a, x, front, key);
    }
  }

  lemma {:induction false} LaneIncreasing(a: seq<Item>, idx: seq<nat>, key: Option<string>)
    requires InRange(a, idx) && LanesIncrease(a, idx)
    ensures Increasing(Lane(a, idx, key))
  {
    if idx != [] {
      var front := idx[..|idx| - 1];
      LaneIncreasing(a, front, key);
      LaneElements(a, front, key);
      var lane := Lane(a, front, key);
      forall i | 0 <= i < |lane| && a[idx[|idx| - 1]].key == key ensures lane[i] < idx[|idx| - 1] {
        assert lane[i] in lane;
        var j :| 0 <= j < |front| && front[j] == lane[i];
      }
    }
  }

  /** The last element of an increasing sequence is its largest, and occurs only there. */
  lemma LastIsLargest(s: seq<nat>)
    requires Increasing(s) && s != []
    ensures Increasing(s[..|s| - 1])
    ensures forall n :: n in s[..|s| - 1] <==> n in s && n < s[|s| - 1]
    ensures forall n :: n in s ==> n <= s[|s| - 1]
  {
    var front := s[..|s| - 1];
    assert s == front + [s[|s| - 1]];
  }

  lemma {:induction false} IncreasingUnique(s: seq<nat>, t: seq<nat>)
    requires Increasing(s) && Increasing(t)
    requires forall n :: n in s <==> n in t
    ensures s == t
    decreases |s|
  {
    assert s != [] ==> s[0] in s;
    assert t != [] ==> t[0] in t;
    if s != [] && t != [] {
      LastIsLargest(s);
      LastIsLargest(t);
      var x := s[|s| - 1];
      assert x in t && t[|t| - 1] in s;
      var s', t' := s[..|s| - 1], t[..|t| - 1];
      forall n ensures n in s' <==> n in t' {
        assert n in s' <==> n in s && n < x;
        assert n in t' <==> n in t && n < x;
      }
      IncreasingUnique(s', t');
      assert s == s' + [x] && t == t' + [x];
    }
  }

  /** The lane of everything accepted, in order of acceptance. */
  ghost function AcceptedLane(a: seq<Item>, key: Option<string>): seq<nat> {
    Lane(a, Upto(|a|), key)
  }

  lemma AcceptedLaneElements(a: seq<Item>, key: Option<string>)
    ensures forall n: nat :: n in AcceptedLane(a, key) <==> n < |a| && a[n].key == key
    ensures Increasing(AcceptedLane(a, key))
  {
    LaneElements(a, Upto(|a|), key);
    LaneIncreasing(a, Upto(|a|), key);
    forall n: nat | n < |a| ensures n in Upto(|a|) {
      assert Upto(|a|)[n] == n;
    }
  }

  lemma EventLaneOfFlow(a: seq<Item>, flow: seq<nat>)
    requires InRange(a, flow) && LanesIncrease(a, flow) && Covered(a, flow)
    ensures Lane(a, flow, None) == AcceptedLane(a, None)
  {
    LaneElements(a, flow, None);
    LaneIncreasing(a, flow, None);
    AcceptedLaneElements(a, None);
    forall n: nat | n < |a| && a[n].key == None ensures n in flow {
      assert CoveredAt(a, flow, n);
      var j: nat :| Accounts(a, flow, n, j);
      assert flow[j] == n;
    }
    IncreasingUnique(Lane(a, flow, None), AcceptedLane(a, None));
  }

  lemma FlowParts(l: Log)
    requires InRange(l.accepted, l.Flow())
    ensures InRange(l.accepted, l.attempted) && InRange(l.accepted, l.lost)
    ensures InRange(l.accepted, l.attempted + l.lost) && InRange(l.accepted, l.pending)
  {
    var flow, k := l.Flow(), |l.attempted| + |l.lost|;
    assert forall i | 0 <= i < |l.attempted| :: l.attempted[i] == flow[i];
    assert forall i | 0 <= i < |l.lost| :: l.lost[i] == flow[|l.attempted| + i];
    assert forall i | 0 <= i < |l.pending| :: l.pending[i] == flow[k + i];
  }

  /** The events handed to the socket are a prefix, in order and each once, of the events accepted;
      what follows are the dropped ones and then those still queued. */
  lemma EventsInOrderExactlyOnce(l: Log)
    requires Faithful(l)
    ensures InRange(l.accepted, l.attempted) && InRange(l.accepted, l.lost)
    ensures AcceptedLane(l.accepted, None)
         == Lane(l.accepted, l.attempted, None) + Lane(l.accepted, l.lost, None) + Lane(l.accepted, l.pending, None)
  {
    FlowParts(l);
    EventLaneOfFlow(l.accepted, l.Flow());
    LaneSplits(l.accepted, l.attempted + l.lost, l.pending, None);
    LaneSplits(l.accepted, l.attempted, l.lost, None);
  }

  /** Snapshots of each type go to the socket in accepted order without repeats. */
  lemma SnapshotsInOrder(l: Log, key: Option<string>)
    requires Faithful(l)
    ensures InRange(l.accepted, l.attempted) && Increasing(Lane(l.accepted, l.attempted, key))
  {
    FlowParts(l);
    assert forall i | 0 <= i < |l.attempted| :: l.attempted[i] == l.Flow()[i];
    LaneIncreasing(l.accepted, l.attempted, key);
  }

  /** With nothing queued and nothing dropped, the last payload of a type given to the socket is the
      last one of that type that was accepted. */
  lemma LatestSnapshotDelivered(l: Log, key: Option<string>)
    requires Faithful(l) && l.pending == [] && l.lost == []
    requires AcceptedLane(l.accepted, key) != []
    ensures InRange(l.accepted, l.attempted)
    ensures var got, all := Lane(l.accepted, l.attempted, key), AcceptedLane(l.accepted, key);
            got != [] && got[|got| - 1] == all[|all| - 1]
  {
    SnapshotsInOrder(l, key);
    var got, all := Lane(l.accepted, l.attempted, key), AcceptedLane(l.accepted, key);
    LastIsAttempted(l, key);
    LaneElements(l.accepted, l.attempted, key);
    AcceptedLaneElements(l.accepted, key);
    hide Lane, AcceptedLane, Faithful, Covered;
    assert got[|got| - 1] in got;
    assert got[|got| - 1] in all;
  }

  lemma LastIsAttempted(l: Log, key: Option<string>)
    requires Faithful(l) && l.pending == [] && l.lost == []
    requires AcceptedLane(l.accepted, key) != [] && InRange(l.accepted, l.attempted)
    ensures AcceptedLane(l.accepted, key)[|AcceptedLane(l.accepted, key)| - 1] in Lane(l.accepted, l.attempted, key)
  {
    var a, all := l.accepted, AcceptedLane(l.accepted, key);
    var last := all[|all| - 1];
    assert l.Flow() == l.attempted;
    LaneElements(a, l.attempted, key);
    AcceptedLaneElements(a, key);
    hide Lane, AcceptedLane;
    assert last in all;
    assert CoveredAt(a, l.attempted, last);
    var j: nat :| Accounts(a, l.attempted, last, j);
    assert l.attempted[j] in Lane(a, l.attempted, key);
  }
}
