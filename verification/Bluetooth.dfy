/**
 Deferred bluetoothctl commands of the Bluetooth input monitor.

 Decisions are recorded under the caller's lock and carried out later by
 finish_bluetoothctl_actions, one command at a time under a private lock. Each
 function below is one stretch of that code without an await, so a run is any
 interleaving of recording, resetting, finishing and cancellation. `log` is the
 history the guarantees speak about; nothing in the code reads it.
 */
module Bluetooth {
  import opened Wrappers

  const RECONNECT_ATTEMPTS: nat := 6
  const RECONNECT_INTERVAL_SECONDS := 10.0
  const RECONNECT_MAX_TARGETS: nat := 4

  type Address = string

  datatype Event =
    | Decided(mode: bool)
    | ReceiverStarted(mode: bool)
    | Requested
    | Tried(at: real)
    | Reset
    | ReceiverReturned
    | ReconnectStarted(targets: seq<Address>)
    | Interrupted(newer: bool, again: bool)

  /** Where the one holder of the private lock waits: nowhere, in the receiver command, or in the reconnect. */
  datatype Finishing =
    | Idle
    | AtReceiver(receiver: bool, reconnect: bool, generation: nat)
    | AtReconnect(generation: nat)

  datatype Monitor = Monitor(
    pendingReconnect: bool, pendingReceiver: Option<bool>,
    addresses: seq<Address>, attempts: nat, lastReconnectAt: Option<real>, generation: nat,
    finishing: Finishing, log: seq<Event>)

  const START := Monitor(false, None, [], 0, None, 0, Idle, [])

  // ---------- one stretch each ----------

  function AfterRecord(m: Monitor, receiver: Option<bool>, reconnect: bool): Monitor {
    var d := if receiver.None? then m
             else m.(pendingReceiver := receiver, log := m.log + [Decided(receiver.value)]);
    if reconnect && d.addresses != [] then d.(pendingReconnect := true, log := d.log + [Requested]) else d
  }

  function AfterReset(m: Monitor): Monitor {
    m.(generation := m.generation + 1, attempts := 0, lastReconnectAt := None, pendingReconnect := false,
       log := m.log + [Reset])
  }

  function AfterAttempt(m: Monitor, now: real): Monitor {
    if m.addresses == [] || m.attempts >= RECONNECT_ATTEMPTS
       || (m.lastReconnectAt.Some? && now - m.lastReconnectAt.value < RECONNECT_INTERVAL_SECONDS) then m
    else
      var tried := m.(attempts := m.attempts + 1, lastReconnectAt := Some(now), log := m.log + [Tried(now)]);
      AfterRecord(tried, None, true)
  }

  /** Remember what address extraction made of each value; None is a value without an address. */
  function Remembered(addresses: seq<Address>, values: seq<Option<Address>>): (r: seq<Address>)
    requires Distinct(addresses) && |addresses| <= RECONNECT_MAX_TARGETS
    ensures Distinct(r) && |r| <= RECONNECT_MAX_TARGETS
    ensures addresses != [] ==> r != []
    ensures values != [] && values[|values| - 1].Some? ==> values[|values| - 1].value in r
    decreases |values|
  {
    if values == [] then addresses
    else
      var before := Remembered(addresses, values[..|values| - 1]);
      match values[|values| - 1]
      case None => before
      case Some(a) =>
        if a in before then before
        else (if |before| >= RECONNECT_MAX_TARGETS then before[1..] else before) + [a]
  }

  /** These arrived behind the addresses there were, in this order, and the oldest were dropped, only for want of
      room, to leave r. */
  ghost predicate NewestOf(r: seq<Address>, addresses: seq<Address>, values: seq<Option<Address>>,
                           arrived: seq<Address>, dropped: nat) {
    && dropped <= |addresses + arrived| && r == (addresses + arrived)[dropped..] && (dropped > 0 ==> |r| == 4)
    && (forall a | a in arrived :: Some(a) in values)
    && (forall v | v in values && v.Some? :: v.value in addresses + arrived)
  }

  lemma ArrivesBehind(before: seq<Address>, addresses: seq<Address>, front: seq<Option<Address>>,
                      arrived: seq<Address>, dropped: nat, a: Address)
    requires NewestOf(before, addresses, front, arrived, dropped) && |before| <= 4
    ensures if |before| == 4 then NewestOf(before[1..] + [a], addresses, front + [Some(a)], arrived + [a], dropped + 1)
            else NewestOf(before + [a], addresses, front + [Some(a)], arrived + [a], dropped)
  {
    assert addresses + (arrived + [a]) == (addresses + arrived) + [a];
  }

  lemma ArrivedBefore(before: seq<Address>, addresses: seq<Address>, front: seq<Option<Address>>,
                      arrived: seq<Address>, dropped: nat, v: Option<Address>)
    requires NewestOf(before, addresses, front, arrived, dropped) && (v.Some? ==> v.value in before)
    ensures NewestOf(before, addresses, front + [v], arrived, dropped)
  {
  }

  /** Whatever is remembered: the addresses there were and behind them those that arrived, of which the oldest are
      dropped, and only for want of room. */
  lemma {:induction false} OldestForgottenFirst(addresses: seq<Address>, values: seq<Option<Address>>)
    returns (arrived: seq<Address>, dropped: nat)
    requires Distinct(addresses) && |addresses| <= RECONNECT_MAX_TARGETS
    ensures NewestOf(Remembered(addresses, values), addresses, values, arrived, dropped)
    decreases |values|
  {
    if values == [] {
      return [], 0;
    }
    var front, v := values[..|values| - 1], values[|values| - 1];
    arrived, dropped := OldestForgottenFirst(addresses, front);
    var before := Remembered(addresses, front);
    assert values == front + [v];
    hide Distinct, NewestOf;
    if v.None? || v.value in before {
      ArrivedBefore(before, addresses, front, arrived, dropped, v);
    } else {
      ArrivesBehind(before, addresses, front, arrived, dropped, v.value);
      arrived, dropped := arrived + [v.value], if |before| == 4 then dropped + 1 else dropped;
    }
  }

  /** Addresses that are remembered already change nothing. */
  lemma {:induction false} KnownChangesNothing(addresses: seq<Address>, values: seq<Option<Address>>)
    requires Distinct(addresses) && |addresses| <= RECONNECT_MAX_TARGETS
    requires forall v | v in values :: v.None? || v.value in addresses
    ensures Remembered(addresses, values) == addresses
    decreases |values|
  {
    if values != [] {
      KnownChangesNothing(addresses, values[..|values| - 1]);
    }
  }

  function AfterRemember(m: Monitor, values: seq<Option<Address>>): Monitor
    requires Distinct(m.addresses) && |m.addresses| <= RECONNECT_MAX_TARGETS
  {
    m.(addresses := Remembered(m.addresses, values))
  }

  /** The head of the drain loop, up to its next await or its return. */
  function AtLoopHead(m: Monitor): Monitor {
    var taken := m.(pendingReconnect := false, pendingReceiver := None);
    match m.pendingReceiver
    case Some(mode) =>
      taken.(finishing := AtReceiver(mode, m.pendingReconnect, m.generation), log := m.log + [ReceiverStarted(mode)])
    case None =>
      if m.pendingReconnect && m.addresses != [] then
        taken.(finishing := AtReconnect(m.generation), log := m.log + [ReconnectStarted(m.addresses)])
      else taken.(finishing := Idle)
  }

  /** The receiver command returned, or failed and was logged. */
  function AfterReceiver(m: Monitor): Monitor
    requires m.finishing.AtReceiver?
  {
    var f, returned := m.finishing, m.(finishing := Idle, log := m.log + [ReceiverReturned]);
    if f.reconnect && f.generation == m.generation && m.addresses != [] then
      returned.(finishing := AtReconnect(f.generation), log := returned.log + [ReconnectStarted(m.addresses)])
    else AtLoopHead(returned)
  }

  /** The finishing caller is cancelled: put back what it had not finished, unless something newer waits. */
  function AfterInterrupt(m: Monitor): Monitor
    requires !m.finishing.Idle?
  {
    var f := m.finishing;
    var newer := m.pendingReconnect || m.pendingReceiver.Some?;
    var stopped := m.(finishing := Idle, log := m.log + [Interrupted(newer, StartsAgain(m))]);
    if newer then stopped
    else stopped.(pendingReconnect := (f.AtReceiver? ==> f.reconnect) && f.generation == m.generation,
                  pendingReceiver := if f.AtReceiver? then Some(f.receiver) else None)
  }

  /** The interruption puts back a reconnect that had been started. */
  predicate StartsAgain(m: Monitor) {
    && m.finishing.AtReconnect? && m.finishing.generation == m.generation
    && !m.pendingReconnect && m.pendingReceiver.None?
  }

  // ---------- the history, read on its own ----------

  ghost predicate Distinct(s: seq<Address>) {
    forall i, j | 0 <= i < j < |s| :: s[i] != s[j]
  }

  function LatestDecision(log: seq<Event>): Option<bool> {
    if log == [] then None
    else match log[|log| - 1]
      case Decided(mode) => Some(mode)
      case _ => LatestDecision(log[..|log| - 1])
  }

  function LastReceiverStarted(log: seq<Event>): Option<bool> {
    if log == [] then None
    else match log[|log| - 1]
      case ReceiverStarted(mode) => Some(mode)
      case _ => LastReceiverStarted(log[..|log| - 1])
  }

  /** What became of the latest receiver decision. */
  datatype Fate = NoDecision | Waiting | Running | Finished | Dropped

  function FateOf(log: seq<Event>): Fate {
    if log == [] then NoDecision
    else
      var before := FateOf(log[..|log| - 1]);
      match log[|log| - 1]
      case Decided(_) => Waiting
      case ReceiverStarted(_) => Running
      case ReceiverReturned => if before == Running then Finished else before
      case Interrupted(newer, _) => if before != Running then before else if newer then Dropped else Waiting
      case _ => before
  }

  /** The latest reconnect request is still to be started: no reconnect was started after it, no reset withdrew it,
      and no interruption gave it up while something newer waited. */
  function Unserved(log: seq<Event>): bool {
    if log == [] then false
    else match log[|log| - 1]
      case Requested => true
      case ReconnectStarted(_) => false
      case Reset => false
      case Interrupted(newer, _) => !newer && Unserved(log[..|log| - 1])
      case _ => Unserved(log[..|log| - 1])
  }

  /** The times of the tries recorded since the last reset. */
  function Tries(log: seq<Event>): seq<real> {
    if log == [] then []
    else match log[|log| - 1]
      case Reset => []
      case Tried(at) => Tries(log[..|log| - 1]) + [at]
      case _ => Tries(log[..|log| - 1])
  }

  datatype Kind = Requests | Starts | Interruptions | Repeats

  predicate OfKind(e: Event, kind: Kind) {
    match kind
    case Requests => e.Requested?
    case Starts => e.ReconnectStarted?
    case Interruptions => e.Interrupted?
    case Repeats => e.Interrupted? && e.again
  }

  /** How many events of a kind happened since the last reset. */
  function SinceReset(log: seq<Event>, kind: Kind): nat {
    if log == [] || log[|log| - 1].Reset? then 0
    else SinceReset(log[..|log| - 1], kind) + if OfKind(log[|log| - 1], kind) then 1 else 0
  }

  ghost predicate Spaced(times: seq<real>) {
    forall i, j | 0 <= i < j < |times| :: times[j] - times[i] >= RECONNECT_INTERVAL_SECONDS * (j - i) as real
  }

  /** What the newest entry of a history promises about the history up to it. */
  ghost predicate Justified(log: seq<Event>) {
    && (log != [] ==>
          match log[|log| - 1]
          case ReceiverStarted(mode) => LatestDecision(log) == Some(mode)
          case ReconnectStarted(targets) =>
            && SinceReset(log, Requests) > 0
            && 0 < |targets| <= RECONNECT_MAX_TARGETS && Distinct(targets)
          case _ => true)
    && SinceReset(log, Starts) <= SinceReset(log, Requests) + SinceReset(log, Repeats)
    && |Tries(log)| <= RECONNECT_ATTEMPTS && Spaced(Tries(log))
  }

  ghost predicate AlwaysJustified(log: seq<Event>) {
    forall k | 0 <= k <= |log| :: Justified(log[..k])
  }

  // ---------- the invariant ----------

  function InFlight(m: Monitor): bool {
    m.finishing.AtReceiver? && m.finishing.reconnect && m.finishing.generation == m.generation
  }

  ghost predicate Inv(m: Monitor) {
    && AlwaysJustified(m.log)
    && Distinct(m.addresses) && |m.addresses| <= RECONNECT_MAX_TARGETS
    // Receiver decisions
    && (m.pendingReceiver.Some? ==> LatestDecision(m.log) == m.pendingReceiver)
    && (m.pendingReceiver.None? ==> LastReceiverStarted(m.log) == LatestDecision(m.log))
    && (m.finishing.AtReceiver? ==> LastReceiverStarted(m.log) == Some(m.finishing.receiver))
    && (FateOf(m.log) == Waiting <==> m.pendingReceiver.Some?)
    && (FateOf(m.log) == Running <==> m.finishing.AtReceiver? && m.pendingReceiver.None?)
    // Reconnects
    && (!m.finishing.Idle? ==> m.finishing.generation <= m.generation)
    && (Unserved(m.log) ==> m.pendingReconnect || InFlight(m))
    && (m.pendingReconnect || InFlight(m) || (m.finishing.AtReconnect? && m.finishing.generation == m.generation)
        ==> m.addresses != [] && SinceReset(m.log, Requests) > 0)
    && SinceReset(m.log, Starts) + (if m.pendingReconnect then 1 else 0) + (if InFlight(m) then 1 else 0)
       <= SinceReset(m.log, Requests) + SinceReset(m.log, Repeats)
    && (SinceReset(m.log, Requests) > 0 && SinceReset(m.log, Interruptions) == 0 ==>
          m.pendingReconnect || InFlight(m) || SinceReset(m.log, Starts) > 0)
    // The retry budget
    && |Tries(m.log)| == m.attempts
    && m.lastReconnectAt == (if m.attempts == 0 then None else Some(Tries(m.log)[m.attempts - 1]))
  }

  /** One more entry: what it does to every reading, and what makes the longer history justified. */
  lemma Extend(log: seq<Event>, e: Event)
    requires AlwaysJustified(log)
    ensures LatestDecision(log + [e]) == if e.Decided? then Some(e.mode) else LatestDecision(log)
    ensures LastReceiverStarted(log + [e]) == if e.ReceiverStarted? then Some(e.mode) else LastReceiverStarted(log)
    ensures FateOf(log + [e]) == match e
              case Decided(_) => Waiting
              case ReceiverStarted(_) => Running
              case ReceiverReturned => if FateOf(log) == Running then Finished else FateOf(log)
              case Interrupted(newer, _) =>
                if FateOf(log) != Running then FateOf(log) else if newer then Dropped else Waiting
              case _ => FateOf(log)
    ensures Unserved(log + [e]) == match e
              case Requested => true
              case ReconnectStarted(_) => false
              case Reset => false
              case Interrupted(newer, _) => !newer && Unserved(log)
              case _ => Unserved(log)
    ensures Tries(log + [e]) == if e.Reset? then [] else if e.Tried? then Tries(log) + [e.at] else Tries(log)
    ensures forall kind :: SinceReset(log + [e], kind)
                           == if e.Reset? then 0 else SinceReset(log, kind) + if OfKind(e, kind) then 1 else 0
    ensures Justified(log)
    ensures Justified(log + [e]) ==> AlwaysJustified(log + [e])
  {
    assert (log + [e])[..|log|] == log;
    assert (log + [e])[|log|] == e;
    hide Justified;
    OneMoreJustified(log, e);
  }

  lemma OneMoreJustified(log: seq<Event>, e: Event)
    requires AlwaysJustified(log)
    ensures Justified(log)
    ensures Justified(log + [e]) ==> AlwaysJustified(log + [e])
  {
    hide Justified;
    assert log[..|log|] == log && (log + [e])[..|log + [e]|] == log + [e];
    forall k | 0 <= k <= |log| ensures (log + [e])[..k] == log[..k] {}
  }

  lemma RecordKeepsInv(m: Monitor, receiver: Option<bool>, reconnect: bool)
    requires Inv(m)
    ensures Inv(AfterRecord(m, receiver, reconnect))
  {
    hide LatestDecision, Tries, SinceReset, LastReceiverStarted, FateOf, Unserved, AlwaysJustified, Spaced;
    if receiver.Some? {
      Extend(m.log, Decided(receiver.value));
    }
    var d := AfterRecord(m, receiver, false);
    if reconnect && d.addresses != [] {
      Extend(d.log, Requested);
    }
  }

  lemma RememberKeepsInv(m: Monitor, values: seq<Option<Address>>)
    requires Inv(m)
    ensures Inv(AfterRemember(m, values))
  {
    hide LatestDecision, Tries, SinceReset, LastReceiverStarted, FateOf, Unserved, AlwaysJustified, Spaced;
  }

  lemma ResetKeepsInv(m: Monitor)
    requires Inv(m)
    ensures Inv(AfterReset(m))
  {
    hide LatestDecision, Tries, SinceReset, LastReceiverStarted, FateOf, Unserved, AlwaysJustified;
    Extend(m.log, Reset);
  }

  lemma AttemptKeepsInv(m: Monitor, now: real)
    requires Inv(m)
    ensures Inv(AfterAttempt(m, now))
  {
    hide LatestDecision, Tries, SinceReset, LastReceiverStarted, FateOf, Unserved, AlwaysJustified;
    var tried := m.(attempts := m.attempts + 1, lastReconnectAt := Some(now), log := m.log + [Tried(now)]);
    if AfterAttempt(m, now) != m {
      Extend(m.log, Tried(now));
      assert Spaced(Tries(m.log + [Tried(now)])) by { OneMoreTry(Tries(m.log), now); }
      hide Spaced;
      assert Inv(tried);
      RecordKeepsInv(tried, None, true);
    }
  }

  lemma OneMoreTry(times: seq<real>, now: real)
    requires Spaced(times)
    requires times != [] ==> now - times[|times| - 1] >= RECONNECT_INTERVAL_SECONDS
    ensures Spaced(times + [now])
  {
    var all := times + [now];
    forall i, j | 0 <= i < j < |all| ensures all[j] - all[i] >= RECONNECT_INTERVAL_SECONDS * (j - i) as real {
      if j == |times| && i < j - 1 {
        assert times[j - 1] - times[i] >= RECONNECT_INTERVAL_SECONDS * (j - 1 - i) as real;
      }
    }
  }

  lemma LoopHeadKeepsInv(m: Monitor)
    requires Inv(m) && !m.finishing.AtReceiver?
    ensures Inv(AtLoopHead(m))
  {
    hide LatestDecision, Tries, SinceReset, LastReceiverStarted, FateOf, Unserved, AlwaysJustified, Spaced;
    var log := AtLoopHead(m).log;
    if log != m.log {
      Extend(m.log, log[|log| - 1]);
    }
  }

  lemma ReturnKeepsInv(m: Monitor)
    requires Inv(m) && m.finishing.AtReceiver?
    ensures AlwaysJustified(m.log + [ReceiverReturned])
    ensures !InFlight(m) ==> Inv(m.(finishing := Idle, log := m.log + [ReceiverReturned]))
  {
    hide LatestDecision, Tries, SinceReset, LastReceiverStarted, FateOf, Unserved, AlwaysJustified, Spaced;
    Extend(m.log, ReceiverReturned);
  }

  lemma ReconnectKeepsInv(m: Monitor)
    requires Inv(m) && InFlight(m) && AlwaysJustified(m.log + [ReceiverReturned])
    ensures Inv(AfterReceiver(m))
  {
    hide LatestDecision, Tries, SinceReset, LastReceiverStarted, FateOf, Unserved, AlwaysJustified, Spaced;
    Extend(m.log, ReceiverReturned);
    var returned := m.log + [ReceiverReturned];
    Extend(returned, ReconnectStarted(m.addresses));
    assert AfterReceiver(m) == m.(finishing := AtReconnect(m.generation),
                                  log := returned + [ReconnectStarted(m.addresses)]);
    assert SinceReset(returned, Requests) == SinceReset(m.log, Requests)
           && SinceReset(returned, Starts) == SinceReset(m.log, Starts)
           && SinceReset(returned, Interruptions) == SinceReset(m.log, Interruptions);
    assert AlwaysJustified(returned + [ReconnectStarted(m.addresses)]);
  }

  lemma ReceiverKeepsInv(m: Monitor)
    requires Inv(m) && m.finishing.AtReceiver?
    ensures Inv(AfterReceiver(m))
  {
    hide LatestDecision, Tries, SinceReset, LastReceiverStarted, FateOf, Unserved, AlwaysJustified, Spaced, AtLoopHead;
    ReturnKeepsInv(m);
    if InFlight(m) {
      ReconnectKeepsInv(m);
    } else {
      LoopHeadKeepsInv(m.(finishing := Idle, log := m.log + [ReceiverReturned]));
    }
  }

  lemma InterruptKeepsInv(m: Monitor)
    requires Inv(m) && !m.finishing.Idle?
    ensures Inv(AfterInterrupt(m))
  {
    hide LatestDecision, Tries, SinceReset, LastReceiverStarted, FateOf, Unserved, AlwaysJustified, Spaced;
    Extend(m.log, Interrupted(m.pendingReconnect || m.pendingReceiver.Some?, StartsAgain(m)));
  }

  // ---------- runs ----------

  datatype Action =
    | Record(receiver: Option<bool>, reconnect: bool)
    | ResetProgress
    | Attempt(now: real)
    | Remember(values: seq<Option<Address>>)
    | Finish
    | CommandReturns
    | Cancel

  /** One stretch; one that is not enabled changes nothing. A second finisher waits for the lock. */
  ghost function Next(m: Monitor, a: Action): Monitor
    requires Inv(m)
  {
    match a
    case Record(receiver, reconnect) => AfterRecord(m, receiver, reconnect)
    case ResetProgress => AfterReset(m)
    case Attempt(now) => AfterAttempt(m, now)
    case Remember(values) => AfterRemember(m, values)
    case Finish => if m.finishing.Idle? then AtLoopHead(m) else m
    case CommandReturns =>
      if m.finishing.AtReceiver? then AfterReceiver(m) else if m.finishing.AtReconnect? then AtLoopHead(m) else m
    case Cancel => if m.finishing.Idle? then m else AfterInterrupt(m)
  }

  lemma NextKeepsInv(m: Monitor, a: Action)
    requires Inv(m)
    ensures Inv(Next(m, a))
  {
    hide SinceReset, LatestDecision, LastReceiverStarted, FateOf, Unserved, Tries, Spaced, AlwaysJustified;
    hide AfterRecord, AfterReset, AfterAttempt, AtLoopHead, AfterReceiver, AfterInterrupt;
    match a
    case Record(receiver, reconnect) => RecordKeepsInv(m, receiver, reconnect);
    case ResetProgress => ResetKeepsInv(m);
    case Attempt(now) => AttemptKeepsInv(m, now);
    case Remember(values) => RememberKeepsInv(m, values);
    case Finish => if m.finishing.Idle? { LoopHeadKeepsInv(m); }
    case CommandReturns =>
      if m.finishing.AtReceiver? { ReceiverKeepsInv(m); } else if m.finishing.AtReconnect? { LoopHeadKeepsInv(m); }
    case Cancel => if !m.finishing.Idle? { InterruptKeepsInv(m); }
  }

  ghost function Run(actions: seq<Action>): (m: Monitor)
    ensures Inv(m)
  {
    if actions == [] then
      assert Justified([]);
      START
    else
      var before := Run(actions[..|actions| - 1]);
      NextKeepsInv(before, actions[|actions| - 1]);
      Next(before, actions[|actions| - 1])
  }

  /** Whatever a run had started by some moment was justified by what it had recorded by then. */
  lemma EveryRunIsJustified(actions: seq<Action>, k: nat)
    requires k <= |Run(actions).log|
    ensures var past := Run(actions).log[..k];
            && (k > 0 && past[k - 1].ReceiverStarted? ==> LatestDecision(past) == Some(past[k - 1].mode))
            && (k > 0 && past[k - 1].ReconnectStarted? ==> SinceReset(past, Requests) > 0)
            && SinceReset(past, Starts) <= SinceReset(past, Requests) + SinceReset(past, Repeats)
            && |Tries(past)| <= RECONNECT_ATTEMPTS && Spaced(Tries(past))
  {
    hide SinceReset, LatestDecision, Tries, Spaced, Run;
    assert Justified(Run(actions).log[..k]);
  }

  /** Once nothing is pending or running, the last receiver command is the last decision and has returned,
      unless it was interrupted while something newer waited; the latest reconnect request was started or
      withdrawn, with the same exception; and an uninterrupted stretch since the last reset has tried one. */
  lemma QuietMeansDone(actions: seq<Action>)
    requires var m := Run(actions); m.finishing.Idle? && !m.pendingReconnect && m.pendingReceiver.None?
    ensures var log := Run(actions).log;
            && LastReceiverStarted(log) == LatestDecision(log)
            && FateOf(log) in {NoDecision, Finished, Dropped} && !Unserved(log)
            && (SinceReset(log, Requests) > 0 && SinceReset(log, Interruptions) == 0 ==> SinceReset(log, Starts) > 0)
  {
    assert Inv(Run(actions));
    hide SinceReset, LatestDecision, LastReceiverStarted, FateOf, Unserved, Run, AlwaysJustified;
  }

  /** A decision is given up only by an interruption while something newer waits. */
  lemma {:induction false} OnlyNewerDrops(log: seq<Event>)
    requires FateOf(log) == Dropped
    ensures exists e :: e in log && e.Interrupted? && e.newer
  {
    var before := log[..|log| - 1];
    assert log == before + [log[|log| - 1]];
    if FateOf(before) == Dropped {
      OnlyNewerDrops(before);
    }
  }

  lemma {:induction false} TryIsListed(log: seq<Event>, i: nat)
    requires i < |log| && log[i].Tried? && (forall k | i < k < |log| :: !log[k].Reset?)
    ensures exists p: nat :: p < |Tries(log)| && Tries(log)[p] == log[i].at && |Tries(log[..i])| == p
  {
    if i == |log| - 1 {
      assert Tries(log)[|Tries(log[..i])|] == log[i].at;
    } else {
      TryIsListed(log[..|log| - 1], i);
      assert log[..|log| - 1][..i] == log[..i];
      var p: nat :| p < |Tries(log[..|log| - 1])| && Tries(log[..|log| - 1])[p] == log[i].at && |Tries(log[..i])| == p;
      assert Tries(log)[p] == log[i].at;
    }
  }

  lemma LastTryIsSpaced(past: seq<Event>, i: nat)
    requires Spaced(Tries(past)) && i < |past| - 1 && past[i].Tried? && past[|past| - 1].Tried?
    requires forall k | i < k < |past| :: !past[k].Reset?
    ensures past[|past| - 1].at - past[i].at >= RECONNECT_INTERVAL_SECONDS
  {
    var before := past[..|past| - 1];
    TryIsListed(before, i);
    var p: nat :| p < |Tries(before)| && Tries(before)[p] == before[i].at && |Tries(before[..i])| == p;
    assert Tries(past) == Tries(before) + [past[|past| - 1].at];
    hide Tries;
    assert Tries(past)[p] == past[i].at && Tries(past)[|Tries(before)|] == past[|past| - 1].at;
  }

  ghost predicate TriesWithoutReset(log: seq<Event>, i: int, j: int) {
    0 <= i < j < |log| && log[i].Tried? && log[j].Tried? && forall k | i < k < j :: !log[k].Reset?
  }

  /** Two tries with no reset between them lie at least the interval apart. */
  lemma TriesAreSpaced(actions: seq<Action>)
    ensures forall i, j | TriesWithoutReset(Run(actions).log, i, j) ::
              Run(actions).log[j].at - Run(actions).log[i].at >= RECONNECT_INTERVAL_SECONDS
  {
    hide Run, Spaced, Tries;
    var log := Run(actions).log;
    forall i, j | TriesWithoutReset(log, i, j) ensures log[j].at - log[i].at >= RECONNECT_INTERVAL_SECONDS {
      EveryRunIsJustified(actions, j + 1);
      LastTryIsSpaced(log[..j + 1], i);
    }
  }

  /** When every request comes from a recorded try, as in sync, the budget bounds the reconnects themselves. */
  lemma {:induction false} StartsWithinBudget(actions: seq<Action>)
    requires forall a | a in actions :: a.Record? ==> !a.reconnect
    ensures var log := Run(actions).log;
            && SinceReset(log, Requests) == |Tries(log)|
            && SinceReset(log, Starts) <= RECONNECT_ATTEMPTS + SinceReset(log, Repeats)
  {
    assert Inv(Run(actions));
    if actions != [] {
      StartsWithinBudget(actions[..|actions| - 1]);
      RequestsFollowTries(Run(actions[..|actions| - 1]), actions[|actions| - 1]);
    }
    hide Run, SinceReset, Tries;
    assert Justified(Run(actions).log[..|Run(actions).log|]);
    assert Run(actions).log[..|Run(actions).log|] == Run(actions).log;
  }

  /** One remembered device, one try, and then k times a start that is interrupted. */
  function InterruptedTries(k: nat): seq<Action> {
    if k == 0 then [Remember([Some("A")]), Attempt(0.0)] else InterruptedTries(k - 1) + [Finish, Cancel]
  }

  function InterruptedLog(k: nat): seq<Event> {
    if k == 0 then [Tried(0.0), Requested]
    else InterruptedLog(k - 1) + [ReconnectStarted(["A"])] + [Event.Interrupted(false, true)]
  }

  function PutBack(k: nat): Monitor {
    START.(addresses := ["A"], attempts := 1, lastReconnectAt := Some(0.0), pendingReconnect := true,
           log := InterruptedLog(k))
  }

  lemma {:induction false} InterruptedRun(k: nat)
    ensures Run(InterruptedTries(k)) == PutBack(k)
  {
    hide Inv, Run, Remembered, SinceReset, Tries, Distinct, InterruptedTries, InterruptedLog;
    if k == 0 {
      FirstTry();
    } else {
      InterruptedRun(k - 1);
      var before := InterruptedTries(k - 1);
      OneStep(before, Finish);
      OneStep(before + [Finish], Cancel);
      OneMoreInterruption(k);
    }
  }

  lemma OneMoreInterruption(k: nat)
    requires k > 0
    ensures InterruptedTries(k) == InterruptedTries(k - 1) + [Finish] + [Cancel]
    ensures InterruptedLog(k) == InterruptedLog(k - 1) + [ReconnectStarted(["A"])] + [Event.Interrupted(false, true)]
  {
  }

  lemma FirstTry()
    ensures Run(InterruptedTries(0)) == PutBack(0)
  {
    hide Inv, Run, Remembered, SinceReset, Tries, Distinct;
    OneStep([], Remember([Some("A")]));
    StartOfRun();
    RememberOne("A");
    assert [] + [Remember([Some("A")])] == [Remember([Some("A")])];
    OneStep([Remember([Some("A")])], Attempt(0.0));
    assert [Remember([Some("A")])] + [Attempt(0.0)] == InterruptedTries(0);
  }

  lemma {:induction false} InterruptedReadings(k: nat)
    ensures Tries(InterruptedLog(k)) == [0.0] && SinceReset(InterruptedLog(k), Requests) == 1
    ensures SinceReset(InterruptedLog(k), Starts) == SinceReset(InterruptedLog(k), Repeats) == k
  {
    hide Tries, SinceReset;
    if k == 0 {
      FirstReadings();
    } else {
      InterruptedReadings(k - 1);
      var before := InterruptedLog(k - 1);
      OneMoreReading(before, ReconnectStarted(["A"]));
      OneMoreReading(before + [ReconnectStarted(["A"])], Event.Interrupted(false, true));
    }
  }

  lemma FirstReadings()
    ensures Tries(InterruptedLog(0)) == [0.0] && SinceReset(InterruptedLog(0), Requests) == 1
    ensures SinceReset(InterruptedLog(0), Starts) == SinceReset(InterruptedLog(0), Repeats) == 0
  {
    assert [Tried(0.0), Requested][..1] == [Tried(0.0)] && [Tried(0.0)][..0] == [];
  }

  lemma OneMoreReading(log: seq<Event>, e: Event)
    requires e.ReconnectStarted? || e.Interrupted?
    ensures Tries(log + [e]) == Tries(log)
    ensures forall kind :: SinceReset(log + [e], kind) == SinceReset(log, kind) + if OfKind(e, kind) then 1 else 0
  {
    assert (log + [e])[..|log|] == log;
  }

  /** The bound is met: for every k one try, k interruptions that put it back, and k + 1 starts of it; with
      k at least six that is more starts between two resets than there may be tries. */
  lemma InterruptionsRepeatATry(k: nat)
    ensures var log := Run(InterruptedTries(k) + [Finish]).log;
            && Tries(log) == [0.0] && SinceReset(log, Repeats) == k
            && SinceReset(log, Starts) == SinceReset(log, Requests) + SinceReset(log, Repeats) == k + 1
            && (k >= RECONNECT_ATTEMPTS ==> SinceReset(log, Starts) > RECONNECT_ATTEMPTS)
  {
    hide Inv, Run, Tries, SinceReset, InterruptedTries, InterruptedLog;
    InterruptedStartsOnceMore(k);
    InterruptedReadings(k);
    OneMoreReading(InterruptedLog(k), ReconnectStarted(["A"]));
  }

  lemma InterruptedStartsOnceMore(k: nat)
    ensures Run(InterruptedTries(k) + [Finish]).log == InterruptedLog(k) + [ReconnectStarted(["A"])]
  {
    hide Inv, Run, InterruptedTries, InterruptedLog;
    InterruptedRun(k);
    OneStep(InterruptedTries(k), Finish);
  }

  lemma StartOfRun()
    ensures Run([]) == START
  {
  }

  lemma OneStep(actions: seq<Action>, a: Action)
    ensures Run(actions + [a]) == Next(Run(actions), a)
  {
    hide Inv, Next;
    assert (actions + [a])[..|actions|] == actions;
  }

  lemma RememberOne(a: Address)
    ensures Distinct([]) && Remembered([], [Some(a)]) == [a]
  {
    assert [Some(a)][..0] == [];
  }

  lemma RequestsFollowTries(m: Monitor, a: Action)
    requires Inv(m) && SinceReset(m.log, Requests) == |Tries(m.log)| && (a.Record? ==> !a.reconnect)
    ensures SinceReset(Next(m, a).log, Requests) == |Tries(Next(m, a).log)|
  {
    hide SinceReset, Tries, FateOf, LatestDecision, LastReceiverStarted, AlwaysJustified;
    var log := Next(m, a).log;
    if a.Attempt? && log != m.log {
      Extend(m.log, Tried(a.now));
      assert AlwaysJustified(m.log + [Tried(a.now)]) by { AttemptPrefix(m, a.now); }
      Extend(m.log + [Tried(a.now)], Requested);
    } else if a.CommandReturns? && m.finishing.AtReceiver? {
      ReturnKeepsInv(m);
      Extend(m.log, ReceiverReturned);
      if log != m.log + [ReceiverReturned] { Extend(m.log + [ReceiverReturned], log[|log| - 1]); }
    } else if log != m.log {
      Extend(m.log, log[|log| - 1]);
    }
  }

  lemma AttemptPrefix(m: Monitor, now: real)
    requires Inv(m) && AfterAttempt(m, now).log != m.log
    ensures AlwaysJustified(m.log + [Tried(now)])
  {
    AttemptKeepsInv(m, now);
    hide Justified, Inv;
    var log := AfterAttempt(m, now).log;
    assert Inv(AfterAttempt(m, now));
    assert AlwaysJustified(log) by { JustifiedLog(AfterAttempt(m, now)); }
    assert log == m.log + [Tried(now)] + [Requested];
    forall k | 0 <= k <= |m.log + [Tried(now)]| ensures Justified((m.log + [Tried(now)])[..k]) {
      assert (m.log + [Tried(now)])[..k] == log[..k];
    }
  }

  lemma JustifiedLog(m: Monitor)
    requires Inv(m)
    ensures AlwaysJustified(m.log)
  {
  }

  // ---------- the monitor itself ----------

  class BluetoothInputMonitor {
    var pendingDeviceReconnect: bool
    var pendingReceiverMode: Option<bool>
    var reconnectAddresses: seq<Address>
    var reconnectAttempts: nat
    var lastReconnectAt: Option<real>
    var reconnectGeneration: nat
    // The finishing caller's local variables while it awaits a command.
    var finishing: Finishing
    ghost var log: seq<Event>

    ghost function View(): Monitor
      reads this
    {
      Monitor(pendingDeviceReconnect, pendingReceiverMode, reconnectAddresses, reconnectAttempts, lastReconnectAt,
              reconnectGeneration, finishing, log)
    }

    ghost predicate Valid()
      reads this
    {
      Inv(View())
    }

    constructor ()
      ensures Valid() && View() == START
    {
      pendingDeviceReconnect, pendingReceiverMode := false, None;
      reconnectAddresses, reconnectAttempts, lastReconnectAt, reconnectGeneration := [], 0, None, 0;
      finishing, log := Idle, [];
      new;
      assert Inv(Run([]));
    }

    method RecordBluetoothctlAction(receiver: Option<bool>, reconnectDevices: bool)
      requires Valid()
      modifies this
      ensures Valid() && View() == AfterRecord(old(View()), receiver, reconnectDevices)
      ensures pendingReceiverMode == if receiver.Some? then receiver else old(pendingReceiverMode)
      ensures pendingDeviceReconnect <==> old(pendingDeviceReconnect) || (reconnectDevices && reconnectAddresses != [])
      ensures unchanged(this`reconnectAddresses, this`reconnectAttempts, this`lastReconnectAt,
                        this`reconnectGeneration, this`finishing)
    {
      RecordKeepsInv(View(), receiver, reconnectDevices);
      hide Inv;
      if receiver.Some? {
        pendingReceiverMode, log := receiver, log + [Decided(receiver.value)];
      }
      if reconnectDevices && reconnectAddresses != [] {
        pendingDeviceReconnect, log := true, log + [Requested];
      }
    }

    method ResetReconnectProgress()
      requires Valid()
      modifies this
      ensures Valid() && View() == AfterReset(old(View()))
      ensures reconnectAttempts == 0 && lastReconnectAt.None? && !pendingDeviceReconnect
      ensures reconnectGeneration > old(reconnectGeneration)
      ensures unchanged(this`pendingReceiverMode, this`reconnectAddresses, this`finishing)
    {
      ResetKeepsInv(View());
      hide Inv;
      reconnectGeneration := reconnectGeneration + 1;
      reconnectAttempts, lastReconnectAt, pendingDeviceReconnect := 0, None, false;
      log := log + [Reset];
    }

    ghost predicate MayTry(now: real)
      reads this
    {
      && reconnectAddresses != [] && reconnectAttempts < 6
      && (lastReconnectAt.Some? ==> now - lastReconnectAt.value >= 10.0)
    }

    method RecordReconnectAttempt(now: real)
      requires Valid()
      modifies this
      ensures Valid() && View() == AfterAttempt(old(View()), now)
      // The first try of a budget is made at once, the next ones ten seconds after the one before, six in all.
      ensures if old(MayTry(now)) then
                && pendingDeviceReconnect && reconnectAttempts == old(reconnectAttempts) + 1
                && lastReconnectAt == Some(now)
              else View() == old(View())
      ensures unchanged(this`pendingReceiverMode, this`reconnectAddresses, this`reconnectGeneration, this`finishing)
    {
      AttemptKeepsInv(View(), now);
      hide Inv;
      if reconnectAddresses == [] || reconnectAttempts >= RECONNECT_ATTEMPTS {
        return;
      }
      if lastReconnectAt.Some? && now - lastReconnectAt.value < RECONNECT_INTERVAL_SECONDS {
        return;
      }
      reconnectAttempts, lastReconnectAt := reconnectAttempts + 1, Some(now);
      pendingDeviceReconnect, log := true, log + [Tried(now)] + [Requested];
    }

    method RememberReconnectTargets(values: seq<Option<Address>>)
      requires Valid()
      modifies this`reconnectAddresses
      ensures Valid() && View() == AfterRemember(old(View()), values)
    {
      RememberKeepsInv(View(), values);
      assert Distinct(reconnectAddresses) && |reconnectAddresses| <= RECONNECT_MAX_TARGETS;
      hide Inv;
      var i := 0;
      while i < |values|
        invariant 0 <= i <= |values|
        invariant reconnectAddresses == Remembered(old(reconnectAddresses), values[..i])
        modifies this`reconnectAddresses
      {
        assert values[..i + 1][..i] == values[..i];
        if values[i].Some? && values[i].value !in reconnectAddresses {
          if |reconnectAddresses| >= RECONNECT_MAX_TARGETS {
            reconnectAddresses := reconnectAddresses[1..];
          }
          reconnectAddresses := reconnectAddresses + [values[i].value];
        }
        i := i + 1;
      }
      assert values[..i] == values;
    }

    /** The loop of finish_bluetoothctl_actions from its head to the next await, or to its return. */
    method ContinueFinishing()
      requires Valid() && !finishing.AtReceiver?
      modifies this
      ensures Valid() && View() == AtLoopHead(old(View()))
      ensures !pendingDeviceReconnect && pendingReceiverMode.None?
      ensures old(pendingReceiverMode).Some? ==>
                finishing ==
                  AtReceiver(old(pendingReceiverMode).value, old(pendingDeviceReconnect), reconnectGeneration)
      ensures old(pendingReceiverMode).None? ==>
                finishing == if old(pendingDeviceReconnect) then AtReconnect(reconnectGeneration) else Idle
      ensures unchanged(this`reconnectAddresses, this`reconnectAttempts, this`lastReconnectAt,
                        this`reconnectGeneration)
    {
      LoopHeadKeepsInv(View());
      hide Inv;
      var reconnect, receiver := pendingDeviceReconnect, pendingReceiverMode;
      pendingDeviceReconnect, pendingReceiverMode := false, None;
      if receiver.Some? {
        finishing := AtReceiver(receiver.value, reconnect, reconnectGeneration);
        log := log + [ReceiverStarted(receiver.value)];
      } else if reconnect && reconnectAddresses != [] {
        finishing, log := AtReconnect(reconnectGeneration), log + [ReconnectStarted(reconnectAddresses)];
      } else {
        finishing := Idle;
      }
    }

    /** A caller enters finish_bluetoothctl_actions; while another holds the lock it waits instead. */
    method FinishBluetoothctlActions()
      requires Valid() && finishing.Idle?
      modifies this
      ensures Valid() && View() == Next(old(View()), Finish)
      ensures !pendingDeviceReconnect && pendingReceiverMode.None?
      ensures old(pendingReceiverMode).Some? ==>
                finishing ==
                  AtReceiver(old(pendingReceiverMode).value, old(pendingDeviceReconnect), reconnectGeneration)
      ensures old(pendingReceiverMode).None? ==>
                finishing == if old(pendingDeviceReconnect) then AtReconnect(reconnectGeneration) else Idle
    {
      ContinueFinishing();
    }

    /** The awaited command returned, or failed and was logged. */
    method CommandReturned()
      requires Valid() && !finishing.Idle?
      modifies this
      ensures Valid() && View() == Next(old(View()), CommandReturns)
      // The reconnect taken along is next, unless a reset came in between; then whatever has been recorded meanwhile.
      ensures old(InFlight(View())) ==>
                finishing == AtReconnect(reconnectGeneration)
                && unchanged(this`pendingDeviceReconnect, this`pendingReceiverMode)
      ensures !old(InFlight(View())) ==>
                && !pendingDeviceReconnect && pendingReceiverMode.None?
                && finishing ==
                     match old(pendingReceiverMode)
                     case Some(mode) => AtReceiver(mode, old(pendingDeviceReconnect), reconnectGeneration)
                     case None => if old(pendingDeviceReconnect) then AtReconnect(reconnectGeneration) else Idle
    {
      ghost var was := View();
      match finishing
      case AtReceiver(_, reconnect, generation) =>
        ReceiverKeepsInv(was);
        ReturnKeepsInv(was);
        finishing, log := Idle, log + [ReceiverReturned];
        if reconnect && generation == reconnectGeneration && reconnectAddresses != [] {
          hide Inv;
          finishing, log := AtReconnect(generation), log + [ReconnectStarted(reconnectAddresses)];
        } else {
          ContinueFinishing();
        }
      case AtReconnect(_) =>
        ContinueFinishing();
    }

    /** The finishing caller is cancelled while it awaits. */
    method Interrupted()
      requires Valid() && !finishing.Idle?
      modifies this
      ensures Valid() && View() == AfterInterrupt(old(View())) && finishing.Idle?
      ensures old(pendingDeviceReconnect || pendingReceiverMode.Some?) ==>
                unchanged(this`pendingDeviceReconnect, this`pendingReceiverMode)
      ensures old(!pendingDeviceReconnect && pendingReceiverMode.None?) ==>
                && pendingReceiverMode == (if old(finishing).AtReceiver? then Some(old(finishing).receiver) else None)
                && (pendingDeviceReconnect <==>
                    old(finishing).generation == reconnectGeneration
                    && (old(finishing).AtReconnect? || old(finishing).reconnect))
      ensures unchanged(this`reconnectAddresses, this`reconnectAttempts, this`lastReconnectAt,
                        this`reconnectGeneration)
    {
      InterruptKeepsInv(View());
      hide Inv;
      ghost var event := Event.Interrupted(pendingDeviceReconnect || pendingReceiverMode.Some?, StartsAgain(View()));
      if !pendingDeviceReconnect && pendingReceiverMode.None? {
        match finishing
        case AtReceiver(receiver, reconnect, generation) =>
          pendingDeviceReconnect := reconnect && generation == reconnectGeneration;
          pendingReceiverMode := Some(receiver);
        case AtReconnect(generation) =>
          pendingDeviceReconnect := generation == reconnectGeneration;
      }
      finishing, log := Idle, log + [event];
    }
  }
}
