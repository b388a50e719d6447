/**
 Switching the audio output (main.py): an ordered series of steps, any of which may
 raise, and the rollback that follows, whose steps may raise as well.

 The audio host is an object. Every step consults a script that decides whether the
 step raises and what other actors do meanwhile, so a theorem about every script is a
 theorem about every failure point and every concurrent edit.
 */
module OutputSwitch {
  import opened Wrappers

  /** A sink with the identity that its name is parsed into. */
  datatype SinkKey = SinkKey(name: string, card: Option<string>, connector: Option<string>)

  /** An output-state document. */
  datatype Doc = Doc(revision: nat, content: string)

  /** The DSP helper: its configured output, whether it runs, whether its links to that output are complete. */
  datatype Graph = Graph(key: Option<SinkKey>, active: bool, linked: bool)

  /** StateConflictError, RuntimeError, or any other BaseException. */
  datatype Error = Conflict | Runtime(id: nat) | Other(id: nat)

  /** The switch itself, its one-time HDMI seeding, or another editor. */
  datatype Author = Own | Seed | Editor
  datatype Commit = Commit(author: Author, doc: Doc)

  /** What happens at one step: other actors first, then the step itself. */
  datatype Event = Event(
    edit: Option<string>,            // another editor commits this content
    moved: Option<SinkKey>,          // the default sink is moved from outside
    fault: Option<Error>,            // the step raises
    effect: bool,                    // a raising write had landed nevertheless
    graph: Graph,                    // what a graph sync leaves behind
    outputs: seq<SinkKey>, selected: Option<SinkKey>, // what an inventory read sees
    candidate: string)               // what prepare_device_state computes

  datatype Overview = Overview(default: Option<SinkKey>, selected: Option<SinkKey>, outputs: seq<SinkKey>)

  /** What this code calls, in the order of the script's events. */
  datatype Call =
    | Resolve
    | ReadOverview
    | LoadState
    | Prepare
    | CommitState(content: string, expected: nat)
    | CommitSeed(content: string, expected: nat)
    | SetDefault(key: SinkKey)
    | SyncGraph
    | ReadLinks
    | ReadSelection
    | SaveSelection(key: SinkKey)
    | RestoreSelection(bytes: Option<string>)
    | FailClosed

  /** An exception, and the number of calls made before it. */
  datatype Exception = Exception(error: Error, after: nat)

  /** What the calls act on; the log holds every commit since the host was observed. */
  datatype World = World(selection: Option<string>, defaultSink: Option<SinkKey>, graph: Graph, head: Doc,
                         log: seq<Commit>)

  datatype Result<+T> = Ok(value: T) | Raised(error: Error)

  /** What is captured before the switch, for the rollback. */
  datatype Before = Before(default: SinkKey, selected: Option<SinkKey>, outputs: seq<SinkKey>,
                           bytes: Option<string>, graphKey: Option<SinkKey>)

  datatype Outcome =
    | Refused(error: Error)
    | Committed(report: Result<Overview>)
    | RolledBack(error: Error, previousDefault: SinkKey, live: seq<SinkKey>, previousState: Option<Doc>)
    | FailedClosed
    | LeftToCaller(error: Error)

  // ---------- resolving a saved sink against the live ones ----------

  function SameDevice(live: seq<SinkKey>, saved: SinkKey): (mates: seq<SinkKey>)
    ensures forall k :: k in mates <==> k in live && k.card == saved.card && k.connector == saved.connector
  {
    if live == [] then []
    else
      assert live == [live[0]] + live[1..];
      (if live[0].card == saved.card && live[0].connector == saved.connector then [live[0]] else [])
      + SameDevice(live[1..], saved)
  }

  function Successor(saved: SinkKey, live: seq<SinkKey>): Option<SinkKey> {
    if saved in live then Some(saved)
    else if saved.card.None? then None
    else
      var mates := SameDevice(live, saved);
      if |mates| == 1 then Some(mates[0]) else None
  }

  function RestoreKey(saved: SinkKey, live: seq<SinkKey>): SinkKey {
    if Successor(saved, live).Some? then Successor(saved, live).value else saved
  }

  predicate OnSameConnector(k: SinkKey, saved: SinkKey) {
    k.card == saved.card && k.connector == saved.connector
  }

  /** A saved sink is taken over only by itself or by the single live sink of the same device; an absent
      or ambiguous device keeps its saved identity. */
  lemma RestoreNeverPicksAStranger(saved: SinkKey, live: seq<SinkKey>)
    ensures var r := RestoreKey(saved, live);
            && OnSameConnector(r, saved)
            && (saved in live ==> r == saved)
            && (r != saved ==>
                  r in live && saved.card.Some? && forall k :: k in live && OnSameConnector(k, saved) ==> k == r)
  {
    if saved !in live && saved.card.Some? && |SameDevice(live, saved)| == 1 {
      assert SameDevice(live, saved)[0] in SameDevice(live, saved);
    }
  }

  /** The i-th live sink is on the saved one's card and connector, and no other live sink is. */
  ghost predicate SoleMate(saved: SinkKey, live: seq<SinkKey>, i: nat) {
    && i < |live| && OnSameConnector(live[i], saved)
    && forall j | 0 <= j < |live| && j != i :: !OnSameConnector(live[j], saved)
  }

  /** What to restore a saved sink as: itself while it is live; else the one live sink of its known card and its
      connector, when there is exactly one; else its saved name. */
  ghost predicate Restores(saved: SinkKey, live: seq<SinkKey>, r: SinkKey) {
    if saved in live then r == saved
    else if saved.card.Some? && exists i: nat :: SoleMate(saved, live, i) then
      exists i: nat :: SoleMate(saved, live, i) && r == live[i]
    else r == saved
  }

  /** The choice is exactly that. */
  lemma RestoreKeyIsExact(saved: SinkKey, live: seq<SinkKey>)
    ensures forall r :: Restores(saved, live, r) <==> r == RestoreKey(saved, live)
  {
    if |SameDevice(live, saved)| == 1 {
      var i := OneMateIsSole(live, saved);
    }
    forall i: nat | SoleMate(saved, live, i) ensures SameDevice(live, saved) == [live[i]] {
      SoleMateIsTheMates(live, saved, i);
    }
    hide SameDevice, SoleMate;
  }

  /** Another sink takes over exactly when the saved one is gone and this one is its sole live mate. */
  lemma SuccessorIsSoleMate(saved: SinkKey, live: seq<SinkKey>, r: SinkKey)
    ensures RestoreKey(saved, live) == r && r != saved <==>
              saved !in live && saved.card.Some? && exists i: nat :: SoleMate(saved, live, i) && r == live[i]
  {
    RestoreKeyIsExact(saved, live);
    hide RestoreKey;
    assert Restores(saved, live, RestoreKey(saved, live));
    if i: nat :| SoleMate(saved, live, i) && r == live[i] {
      assert saved !in live && saved.card.Some? ==> r in live && Restores(saved, live, r);
    }
  }

  lemma NoMates(live: seq<SinkKey>, saved: SinkKey)
    ensures SameDevice(live, saved) == [] <==> forall i | 0 <= i < |live| :: !OnSameConnector(live[i], saved)
  {
    var mates := SameDevice(live, saved);
    if mates != [] {
      assert mates[0] in mates;
    }
    forall i | 0 <= i < |live| && OnSameConnector(live[i], saved) ensures live[i] in mates {}
  }

  lemma {:induction false} SoleMateIsTheMates(live: seq<SinkKey>, saved: SinkKey, i: nat)
    requires SoleMate(saved, live, i)
    ensures SameDevice(live, saved) == [live[i]]
  {
    var rest := live[1..];
    forall j | 0 <= j < |rest| && j != i - 1 ensures !OnSameConnector(rest[j], saved) {
      assert rest[j] == live[j + 1];
    }
    if i == 0 {
      NoMates(rest, saved);
    } else {
      SoleMateIsTheMates(rest, saved, i - 1);
    }
  }

  lemma {:induction false} OneMateIsSole(live: seq<SinkKey>, saved: SinkKey) returns (i: nat)
    requires |SameDevice(live, saved)| == 1
    ensures SoleMate(saved, live, i)
  {
    var rest := live[1..];
    if OnSameConnector(live[0], saved) {
      i := 0;
      NoMates(rest, saved);
      forall j | 0 < j < |live| ensures !OnSameConnector(live[j], saved) { assert live[j] == rest[j - 1]; }
    } else {
      var k := OneMateIsSole(rest, saved);
      i := k + 1;
      forall j | 0 < j < |live| && j != i ensures !OnSameConnector(live[j], saved) { assert live[j] == rest[j - 1]; }
    }
  }

  /** Which sink is restored does not depend on the order of a duplicate-free inventory. */
  lemma RestoreIgnoresOrder(saved: SinkKey, a: seq<SinkKey>, b: seq<SinkKey>)
    requires multiset(a) == multiset(b)
    ensures RestoreKey(saved, a) == RestoreKey(saved, b)
  {
    SameMultisetSameMembers(a, b);
    MatesIgnoreOrder(saved, a, b);
    hide SameDevice;
  }

  lemma MatesIgnoreOrder(saved: SinkKey, a: seq<SinkKey>, b: seq<SinkKey>)
    requires multiset(a) == multiset(b)
    ensures |SameDevice(a, saved)| == |SameDevice(b, saved)|
    ensures |SameDevice(a, saved)| == 1 ==> SameDevice(a, saved)[0] == SameDevice(b, saved)[0]
  {
    MatesCount(a, saved);
    MatesCount(b, saved);
    hide SameDevice;
    SameSize(SameDevice(a, saved), SameDevice(b, saved));
  }

  lemma SameSize(x: seq<SinkKey>, y: seq<SinkKey>)
    requires multiset(x) == multiset(y)
    ensures |x| == |y| && (|x| == 1 ==> x[0] == y[0])
  {
    SameMultisetSameMembers(x, y);
    assert |x| == |multiset(x)| && |y| == |multiset(y)|;
    if |x| == 1 { assert x[0] in x && x[0] in y; }
  }

  lemma SameMultisetSameMembers(a: seq<SinkKey>, b: seq<SinkKey>)
    requires multiset(a) == multiset(b)
    ensures forall k :: k in a <==> k in b
  {
    forall k ensures k in a <==> k in b {
      assert k in a <==> k in multiset(a);
      assert k in b <==> k in multiset(b);
    }
  }

  lemma {:induction false} MatesCount(live: seq<SinkKey>, saved: SinkKey)
    ensures forall k :: multiset(SameDevice(live, saved))[k]
                        == if OnSameConnector(k, saved) then multiset(live)[k] else 0
  {
    if live != [] {
      assert live == [live[0]] + live[1..];
      MatesCount(live[1..], saved);
    }
  }

  // ---------- the host ----------

  function SelectionFile(key: SinkKey): string { "selected_key=" + key.name }

  /** The head's history: every commit since the host was observed, each on top of its predecessor. */
  ghost predicate Chained(log: seq<Commit>, head: Doc) {
    && log != [] && log[|log| - 1].doc == head
    && forall i | 0 < i < |log| :: log[i].doc.revision == log[i - 1].doc.revision + 1
  }

  /** Since entry n, every own commit either brought the previous content back, or was at once followed by
      such a revert or by another editor's commit. */
  ghost predicate OwnDraftsSuperseded(log: seq<Commit>, n: nat, previous: string) {
    forall i | n <= i < |log| && log[i].author == Own ::
      || log[i].doc.content == previous
      || (i + 1 < |log| && (log[i + 1].author == Editor || log[i + 1].doc.content == previous))
  }

  ghost predicate NoOwnCommit(log: seq<Commit>, n: nat) {
    forall i | n <= i < |log| :: log[i].author != Own
  }

  /** The document stood at entry n or later, and before every own commit after n. */
  ghost predicate OnRecord(log: seq<Commit>, n: int, doc: Doc) {
    exists i | 0 <= i < |log| :: n <= i && log[i].doc == doc && forall k: nat | n < k <= i :: log[k].author != Own
  }

  /** Since entry n the document prepared from `doc` has been committed, right on top of it, if it differs. */
  ghost predicate StoredFrom(log: seq<Commit>, n: nat, doc: Doc, candidate: string) {
    candidate == doc.content || exists i :: n <= i < |log| && log[i] == Commit(Own, Doc(doc.revision + 1, candidate))
  }

  /** That holds of a document on record at entry n. */
  ghost predicate RoutingStored(log: seq<Commit>, n: nat, candidate: string) {
    exists doc :: OnRecord(log, n - 1, doc) && StoredFrom(log, n, doc, candidate)
  }

  /** A document that stood at entry n or later already has this content. */
  ghost predicate NothingNew(log: seq<Commit>, n: int, candidate: string) {
    exists i | 0 <= i < |log| :: n <= i && log[i].doc.content == candidate
  }

  lemma StoodThere(log: seq<Commit>, at: nat, n: int)
    requires at < |log| && n <= at
    ensures NothingNew(log, n, log[at].doc.content)
  {
  }

  ghost predicate OnlyEditors(log: seq<Commit>, n: nat) {
    forall i | n <= i < |log| :: log[i].author == Editor
  }

  /** Since entry n the only own commit is entry `at`, the prepared document; without one there is none. */
  ghost predicate DraftAt(log: seq<Commit>, n: nat, prepared: Option<Doc>, at: nat) {
    match prepared
    case None => NoOwnCommit(log, n)
    case Some(doc) =>
      && n <= at < |log| && log[at] == Commit(Own, doc)
      && forall i | n <= i < |log| && i != at :: log[i].author == Editor
  }

  lemma {:induction false} Revisions(log: seq<Commit>, head: Doc, i: nat, j: nat)
    requires Chained(log, head) && i <= j < |log|
    ensures log[j].doc.revision == log[i].doc.revision + (j - i)
    decreases j
  {
    if i < j {
      Revisions(log[..j], log[j - 1].doc, i, j - 1);
    }
  }

  lemma ChainGrows(log: seq<Commit>, head: Doc, author: Author, content: string)
    requires Chained(log, head)
    ensures var next := Doc(head.revision + 1, content); Chained(log + [Commit(author, next)], next)
  {
  }

  lemma ChainEnds(log: seq<Commit>, head: Doc)
    requires Chained(log, head)
    ensures log != [] && log[|log| - 1].doc == head
  {
  }

  /** The head's revision occurs at the end of the history only. */
  lemma HeadIsLast(log: seq<Commit>, head: Doc, at: nat)
    requires Chained(log, head) && at < |log| && log[at].doc.revision == head.revision
    ensures at == |log| - 1 && log[at].doc == head
  {
    Revisions(log, head, at, |log| - 1);
  }

  function ErrorOf<T>(r: Result<T>): Option<Error> { if r.Raised? then Some(r.error) else None }

  function Stored(w: World, author: Author, content: string): World {
    var doc := Doc(w.head.revision + 1, content);
    w.(head := doc, log := w.log + [Commit(author, doc)])
  }

  /** Other actors come first. */
  function Others(w: World, e: Event): World {
    var edited := if e.edit.Some? then Stored(w, Editor, e.edit.value) else w;
    if e.moved.Some? then edited.(defaultSink := e.moved) else edited
  }

  /** One call: a raising write may have landed, except that a commit replaces its document as the last thing it
      does. */
  function After(before: World, c: Call, e: Event, hasRuntime: bool): World {
    var w, landed := Others(before, e), e.fault.None? || e.effect;
    match c
    case CommitState(content, expected) =>
      if e.fault.None? && w.head.revision == expected then Stored(w, Own, content) else w
    case CommitSeed(content, expected) =>
      if e.fault.None? && w.head.revision == expected then Stored(w, Seed, content) else w
    case SetDefault(key) => if landed then w.(defaultSink := Some(key)) else w
    case SyncGraph => if hasRuntime then w.(graph := e.graph) else w
    case FailClosed => w.(graph := e.graph)
    case SaveSelection(key) => if landed then w.(selection := Some(SelectionFile(key))) else w
    case RestoreSelection(bytes) => if landed then w.(selection := bytes) else w
    case _ => w
  }

  /** The world the calls so far lead to. */
  function Replay(start: World, script: nat -> Event, hasRuntime: bool, calls: seq<Call>): World {
    if calls == [] then start
    else
      var n: nat := |calls| - 1;
      After(Replay(start, script, hasRuntime, calls[..n]), calls[n], script(n), hasRuntime)
  }

  lemma OneMoreCall(start: World, script: nat -> Event, hasRuntime: bool, calls: seq<Call>, c: Call)
    ensures Replay(start, script, hasRuntime, calls + [c])
            == After(Replay(start, script, hasRuntime, calls), c, script(|calls|), hasRuntime)
  {
    assert (calls + [c])[..|calls|] == calls;
  }

  /** Neither sets the default sink, nor saves the selection, nor fails closed. */
  predicate Passive(c: Call) { !c.SetDefault? && !c.SaveSelection? && !c.FailClosed? }

  /** Neither saves the selection nor fails closed. */
  predicate Ordinary(c: Call) { !c.SaveSelection? && !c.FailClosed? }

  /** Call t set the default sink to `name`, and the next ones synced the graph, read its links and the overview,
      which still showed that default, and saved the selection; all of them returned. Since then only
      overviews were read. */
  ghost predicate SwitchIn(start: World, script: nat -> Event, hasRuntime: bool, calls: seq<Call>, t: nat,
                           key: SinkKey, name: SinkKey)
  {
    && t + 5 <= |calls|
    && calls[t] == SetDefault(name) && calls[t + 1] == SyncGraph && calls[t + 2] == ReadLinks
    && calls[t + 3] == ReadOverview && calls[t + 4] == SaveSelection(key)
    && script(t).fault.None? && script(t + 1).fault.None? && script(t + 2).fault.None?
    && script(t + 3).fault.None? && script(t + 4).fault.None?
    && Replay(start, script, hasRuntime, calls[..t + 4]).defaultSink == Some(name)
    && forall k | t + 5 <= k < |calls| :: calls[k].ReadOverview?
  }

  lemma StillSwitched(start: World, script: nat -> Event, hasRuntime: bool, calls: seq<Call>, t: nat, key: SinkKey,
                      name: SinkKey)
    requires SwitchIn(start, script, hasRuntime, calls, t, key, name)
    ensures SwitchIn(start, script, hasRuntime, calls + [ReadOverview], t, key, name)
  {
    assert (calls + [ReadOverview])[..t + 4] == calls[..t + 4];
  }

  /** The first graph sync since call `from` did not leave the graph of this key behind. */
  ghost predicate WrongGraphIn(script: nat -> Event, calls: seq<Call>, from: nat, key: SinkKey) {
    exists k ::
      && from <= k < |calls| && calls[k].SyncGraph? && script(k).graph != Graph(Some(key), true, true)
      && forall j | from <= j < k :: !calls[j].SyncGraph?
  }

  lemma WrongStays(script: nat -> Event, calls: seq<Call>, later: seq<Call>, from: nat, key: SinkKey)
    requires calls <= later
    ensures WrongGraphIn(script, calls, from, key) ==> WrongGraphIn(script, later, from, key)
    ensures WrongGraphIn(script, later, from, key) && (forall k | |calls| <= k < |later| :: !later[k].SyncGraph?) ==>
              WrongGraphIn(script, calls, from, key)
  {
    assert forall k | 0 <= k < |calls| :: later[k] == calls[k];
    if k :| from <= k < |calls| && calls[k].SyncGraph? && script(k).graph != Graph(Some(key), true, true)
            && forall j | from <= j < k :: !calls[j].SyncGraph? {
      assert later[k].SyncGraph?;
    }
    if k :| from <= k < |later| && later[k].SyncGraph? && script(k).graph != Graph(Some(key), true, true)
            && forall j | from <= j < k :: !later[j].SyncGraph? {
      if k < |calls| { assert calls[k].SyncGraph?; }
    }
  }

  ghost predicate OnlyVerifiesIn(script: nat -> Event, calls: seq<Call>, from: nat) {
    forall k | from <= k < |calls| && script(k).fault.Some? :: calls[k].ReadLinks? && script(k).fault.value.Runtime?
  }

  lemma OnlyVerifiesOn(script: nat -> Event, before: seq<Call>, calls: seq<Call>, from: nat)
    requires before <= calls && from <= |before| && OnlyVerifiesIn(script, before, from)
    ensures OnlyVerifiesIn(script, calls, |before|) ==> OnlyVerifiesIn(script, calls, from)
  {
    assert forall k | 0 <= k < |before| :: calls[k] == before[k];
  }

  class AudioHost {
    const script: nat -> Event
    const hasRuntime: bool
    const routingKey: SinkKey -> string
    // An HDMI sink with more than two ports.
    const seedable: SinkKey -> bool
    ghost const start: World
    var tick: nat
    var selection: Option<string>
    var defaultSink: Option<SinkKey>
    var graph: Graph
    var head: Doc
    ghost var log: seq<Commit>
    ghost var calls: seq<Call>
    ghost var raised: seq<Exception>

    constructor (script: nat -> Event, hasRuntime: bool, routingKey: SinkKey -> string, seedable: SinkKey -> bool,
                 default: SinkKey, graph: Graph, head: Doc)
      requires forall n: nat :: script(n).fault != Some(Conflict)
      ensures Valid() && this.script == script && this.hasRuntime == hasRuntime && tick == 0
      ensures defaultSink == Some(default) && raised == [] && calls == []
    {
      this.script, this.hasRuntime, this.routingKey, this.seedable := script, hasRuntime, routingKey, seedable;
      tick, selection, defaultSink := 0, None, Some(default);
      this.graph, this.head, log := graph, head, [Commit(Editor, head)];
      calls, raised := [], [];
      start := World(None, Some(default), graph, head, [Commit(Editor, head)]);
    }

    ghost function View(): World
      reads this`selection, this`defaultSink, this`graph, this`head, this`log
    {
      World(selection, defaultSink, graph, head, log)
    }

    /** The world is what the calls made of it, and nothing else. */
    ghost predicate Replayed()
      reads this`selection, this`defaultSink, this`graph, this`head, this`log, this`calls
    {
      View() == Replay(start, script, hasRuntime, calls)
    }

    ghost predicate Valid()
      reads this
    {
      && |calls| == tick && Replayed() && Chained(log, head)
      && (forall n: nat :: script(n).fault != Some(Conflict))
      && (forall i | 0 <= i < |raised| :: raised[i].after <= tick)
    }

    /** The default sink when n calls had been made. */
    ghost function DefaultAt(n: nat): Option<SinkKey>
      requires n <= |calls|
      reads this`calls
    {
      Replay(start, script, hasRuntime, calls[..n]).defaultSink
    }

    /** The stored document when n calls had been made. */
    ghost function HeadAt(n: nat): Doc
      requires n <= |calls|
      reads this`calls
    {
      Replay(start, script, hasRuntime, calls[..n]).head
    }

    lemma HeadNow()
      requires Valid()
      ensures HeadAt(tick) == head == Replay(start, script, hasRuntime, calls).head
    {
      assert calls[..tick] == calls;
    }

    /** Since call `from` the graph was synced, and the sync returned. */
    ghost predicate SyncedSince(from: nat)
      reads this`calls
    {
      exists k :: from <= k < |calls| && calls[k].SyncGraph? && script(k).fault.None?
    }

    /** Since call `from` nothing raised but a failing verification. */
    ghost predicate OnlyVerifiesRaised(from: nat)
      reads this`calls
    {
      OnlyVerifiesIn(script, calls, from)
    }

    /** Since call `from` nothing raised. */
    ghost predicate NothingRaised(from: nat)
      reads this`tick
    {
      forall k: nat | from <= k < tick :: script(k).fault.None?
    }

    /** The document that was loaded since call `from` has this content. */
    ghost predicate LoadedSince(from: nat, content: string)
      reads this`calls
    {
      exists k :: from <= k < |calls| && calls[k].LoadState? && HeadAt(k + 1).content == content
    }

    lemma ReplayNow()
      requires Valid()
      ensures View() == Replay(start, script, hasRuntime, calls)
    {
    }

    lemma DefaultNow()
      requires Valid()
      ensures DefaultAt(tick) == defaultSink == Replay(start, script, hasRuntime, calls).defaultSink
    {
      assert calls[..tick] == calls;
    }

    /** Event n raises nothing, and nobody else acts. */
    ghost predicate Fine(n: nat) { script(n).fault.None? && script(n).moved.None? && script(n).edit.None? }

    /** Nothing raised since call `from`, and nobody else acted. */
    ghost predicate QuietSince(from: nat)
      reads this`tick
    {
      forall k: nat | from <= k < tick :: Fine(k)
    }

    /** Nobody else moved the default sink since call `from`. */
    ghost predicate UnmovedSince(from: nat)
      reads this`tick
    {
      forall k: nat | from <= k < tick :: script(k).moved.None?
    }

    lemma QuietIsUnmoved(from: nat, later: nat)
      requires from <= later
      ensures QuietSince(from) ==> QuietSince(later) && UnmovedSince(later)
    {
      if QuietSince(from) {
        forall k: nat | later <= k < tick ensures script(k).moved.None? { assert Fine(k); }
      }
    }

    ghost predicate Verified(key: SinkKey)
      reads this`graph
    {
      hasRuntime && graph == Graph(Some(key), true, true)
    }

    /** Calls follow calls, and commits follow commits. */
    twostate predicate GoesOn()
      reads this
    {
      && old(calls) <= calls && old(log) <= log && old(raised) <= raised
      && old(tick) <= tick == |calls|
    }

    /** Only passive calls, so that nobody but others moves the default sink. */
    twostate predicate PassiveCalls()
      reads this
    {
      && GoesOn() && (forall k | old(tick) <= k < tick :: Passive(calls[k]))
      && (UnmovedSince(old(tick)) ==> defaultSink == old(defaultSink))
    }

    /** Passive calls, none of which commits. */
    twostate predicate OthersOnly()
      reads this
    {
      PassiveCalls() && OnlyEditors(log, |old(log)|)
    }

    /** The exceptions raised during a step are exactly the one it reports. */
    twostate predicate Reports(new error: Option<Error>)
      reads this
    {
      raised == old(raised) + if error.Some? then [Exception(error.value, tick)] else []
    }

    /** Other actors act, then the call learns whether it raises. */
    method Step(ghost c: Call) returns (e: Event)
      requires Valid()
      modifies `tick, `calls, `defaultSink, `head, `log, `raised
      ensures tick == old(tick) + 1 && calls == old(calls) + [c] && e == script(old(tick)) && e.fault != Some(Conflict)
      ensures Replay(start, script, hasRuntime, calls) == After(old(View()), c, e, hasRuntime)
      ensures View() == Others(old(View()), e) && Chained(log, head)
      ensures old(log) <= log && OnlyEditors(log, |old(log)|) && Reports(e.fault)
      ensures forall i | 0 <= i < |raised| :: raised[i].after <= tick
    {
      hide Chained, Replay, After, AudioHost.Replayed;
      ReplayNow();
      OneMoreCall(start, script, hasRuntime, calls, c);
      e := script(tick);
      tick, calls := tick + 1, calls + [c];
      if e.edit.Some? {
        ChainGrows(log, head, Editor, e.edit.value);
        head := Doc(head.revision + 1, e.edit.value);
        log := log + [Commit(Editor, head)];
      }
      if e.moved.Some? {
        defaultSink := e.moved;
      }
      if e.fault.Some? {
        raised := raised + [Exception(e.fault.value, tick)];
      }
    }

    /** A call that changes nothing itself. */
    method Passing(ghost c: Call) returns (e: Event)
      requires Valid() && (c.Resolve? || c.ReadOverview? || c.LoadState? || c.Prepare? || c.ReadLinks? ||
                           c.ReadSelection?)
      modifies `tick, `calls, `defaultSink, `head, `log, `raised
      ensures Valid() && OthersOnly() && Reports(e.fault)
      ensures tick == old(tick) + 1 && calls == old(calls) + [c] && e == script(old(tick)) && e.fault != Some(Conflict)
      ensures e.edit.None? ==> head == old(head)
    {
      hide Replay, Chained;
      e := Step(c);
    }

    /** A check of this code that fails with RuntimeError. */
    method Fail() returns (error: Error)
      requires Valid()
      modifies `raised
      ensures Valid() && Reports(Some(error)) && error == Runtime(0)
    {
      error := Runtime(0);
      raised := raised + [Exception(error, tick)];
    }

    /** get_audio_output_overview. */
    method ReadOverview() returns (r: Result<Overview>)
      requires Valid()
      modifies `tick, `calls, `defaultSink, `head, `log, `raised
      ensures Valid() && OthersOnly() && Reports(ErrorOf(r))
      ensures tick == old(tick) + 1 && calls == old(calls) + [Call.ReadOverview] &&
              ErrorOf(r) == script(old(tick)).fault
      ensures r.Ok? ==>
                && r.value.default == defaultSink == DefaultAt(tick)
                && r.value.outputs == script(old(tick)).outputs && r.value.selected == script(old(tick)).selected
    {
      hide Replay, Chained;
      var e := Passing(Call.ReadOverview);
      DefaultNow();
      r := if e.fault.Some? then Raised(e.fault.value) else Ok(Overview(defaultSink, e.selected, e.outputs));
    }

    /** service.load. */
    method LoadState() returns (r: Result<Doc>)
      requires Valid()
      modifies `tick, `calls, `defaultSink, `head, `log, `raised
      ensures Valid() && OthersOnly() && Reports(ErrorOf(r))
      ensures tick == old(tick) + 1 && calls == old(calls) + [Call.LoadState] && ErrorOf(r) == script(old(tick)).fault
      ensures r.Ok? ==> r.value == head == HeadAt(tick)
    {
      hide Replay, Chained;
      var e := Passing(Call.LoadState);
      HeadNow();
      r := if e.fault.Some? then Raised(e.fault.value) else Ok(head);
    }

    /** OutputStateStore.commit: the document is replaced as the last thing it does, or it raises. */
    method CommitState(content: string, expectedRevision: nat) returns (r: Result<Doc>)
      requires Valid()
      modifies `tick, `calls, `defaultSink, `head, `log, `raised
      ensures Valid() && GoesOn() && Reports(ErrorOf(r))
      ensures tick == old(tick) + 1 && calls == old(calls) + [Call.CommitState(content, expectedRevision)]
      ensures UnmovedSince(old(tick)) ==> defaultSink == old(defaultSink)
      ensures r.Raised? ==> OthersOnly()
      ensures r.Ok? ==> r.value == head && head == Doc(expectedRevision + 1, content) && script(old(tick)).fault.None?
      ensures r.Ok? ==>
                log[|log| - 1] == Commit(Own, head) && |log| > |old(log)| && OnlyEditors(log[..|log| - 1], |old(log)|)
      ensures r.Ok? ==> log[|log| - 2].doc.revision == expectedRevision
      ensures r.Raised? ==>
                || script(old(tick)).fault == Some(r.error)
                || (script(old(tick)).fault.None? && r.error == Conflict && head.revision != expectedRevision)
      ensures Fine(old(tick)) && old(head).revision == expectedRevision ==> r.Ok?
    {
      hide Replay, Chained;
      var e := Step(Call.CommitState(content, expectedRevision));
      if e.fault.Some? {
        return Raised(e.fault.value);
      }
      if head.revision != expectedRevision {
        raised := raised + [Exception(Conflict, tick)];
        return Raised(Conflict);
      }
      ChainGrows(log, head, Own, content);
      assert log != [] && log[|log| - 1].doc == head by { ChainEnds(log, head); }
      head := Doc(expectedRevision + 1, content);
      log := log + [Commit(Own, head)];
      r := Ok(head);
    }

    /** _set_default_sink; a raising call may have taken effect. */
    method SetDefaultSink(key: SinkKey) returns (error: Option<Error>)
      requires Valid()
      modifies `tick, `calls, `defaultSink, `head, `log, `raised
      ensures Valid() && GoesOn() && OnlyEditors(log, |old(log)|) && Reports(error)
      ensures tick == old(tick) + 1 && calls == old(calls) + [SetDefault(key)] && error == script(old(tick)).fault
      ensures error.None? ==> defaultSink == Some(key)
    {
      hide Replay, Chained;
      var e := Step(SetDefault(key));
      if e.fault.None? || e.effect {
        defaultSink := Some(key);
      }
      error := e.fault;
    }

    /** sync_runtime: it may raise, or be suppressed, and leaves some graph behind. */
    method SyncGraph() returns (error: Option<Error>)
      requires Valid()
      modifies `tick, `calls, `defaultSink, `head, `log, `raised, `graph
      ensures Valid() && OthersOnly() && Reports(error)
      ensures tick == old(tick) + 1 && calls == old(calls) + [Call.SyncGraph] && error == script(old(tick)).fault
      ensures graph == if hasRuntime then script(old(tick)).graph else old(graph)
    {
      hide Replay, Chained;
      var e := Step(Call.SyncGraph);
      if hasRuntime {
        graph := e.graph;
      }
      error := e.fault;
    }

    /** _verify_audio_output_selection. */
    method Verify(key: SinkKey) returns (error: Option<Error>)
      requires Valid()
      modifies `tick, `calls, `defaultSink, `head, `log, `raised
      ensures Valid() && OthersOnly() && Reports(error)
      ensures tick <= old(tick) + 1 && forall k | old(tick) <= k < tick :: calls[k] == ReadLinks
      ensures error.None? ==> Verified(key) && tick == old(tick) + 1 && script(old(tick)).fault.None?
      ensures Verified(key) && script(old(tick)).fault.None? ==> error.None?
      ensures tick > old(tick) && script(old(tick)).fault.Some? ==> error == script(old(tick)).fault
      ensures QuietSince(old(tick)) ==> (error.None? <==> Verified(key)) && (error.Some? ==> error == Some(Runtime(0)))
    {
      hide AudioHost.Replayed, Chained;
      if !hasRuntime || !graph.active || graph.key != Some(key) {
        var f := Fail();
        return Some(f);
      }
      var e := Passing(ReadLinks);
      if e.fault.Some? {
        assert !Fine(old(tick));
        return e.fault;
      }
      if !graph.linked {
        var f := Fail();
        return Some(f);
      }
      return None;
    }

    method ReadSelection() returns (r: Result<Option<string>>)
      requires Valid()
      modifies `tick, `calls, `defaultSink, `head, `log, `raised
      ensures Valid() && OthersOnly() && Reports(ErrorOf(r))
      ensures tick == old(tick) + 1 && calls == old(calls) + [Call.ReadSelection]
      ensures ErrorOf(r) == script(old(tick)).fault && (r.Ok? ==> r.value == selection)
    {
      hide AudioHost.Replayed, Chained;
      var e := Passing(Call.ReadSelection);
      r := if e.fault.Some? then Raised(e.fault.value) else Ok(selection);
    }

    /** Persist the selection; a raising write may have landed. */
    method SaveSelection(key: SinkKey) returns (error: Option<Error>)
      requires Valid()
      modifies `tick, `calls, `defaultSink, `head, `log, `raised, `selection
      ensures Valid() && GoesOn() && OnlyEditors(log, |old(log)|) && Reports(error)
      ensures tick == old(tick) + 1 && calls == old(calls) + [Call.SaveSelection(key)] &&
              error == script(old(tick)).fault
      ensures error.None? ==> selection == Some(SelectionFile(key))
    {
      hide Replay, Chained;
      var e := Step(Call.SaveSelection(key));
      if e.fault.None? || e.effect {
        selection := Some(SelectionFile(key));
      }
      error := e.fault;
    }

    /** Write the previous bytes of the selection file, or unlink it. */
    method RestoreSelection(content: Option<string>) returns (error: Option<Error>)
      requires Valid()
      modifies `tick, `calls, `defaultSink, `head, `log, `raised, `selection
      ensures Valid() && OthersOnly() && Reports(error)
      ensures tick == old(tick) + 1 && calls == old(calls) + [Call.RestoreSelection(content)]
      ensures error == script(old(tick)).fault && (error.None? ==> selection == content)
    {
      hide Replay, Chained;
      var e := Step(Call.RestoreSelection(content));
      if e.fault.None? || e.effect {
        selection := content;
      }
      error := e.fault;
    }

    /** fail_closed, whose own failure is only logged. */
    method FailClosed()
      requires Valid()
      modifies `tick, `calls, `defaultSink, `head, `log, `raised, `graph
      ensures Valid() && GoesOn() && tick == old(tick) + 1 && calls == old(calls) + [Call.FailClosed]
    {
      hide Replay, Chained;
      var e := Step(Call.FailClosed);
      graph := e.graph;
    }

    // ---------- the switch ----------

    /** The document of the new device, committed on top of the one it was prepared from when it differs. */
    method PrepareState() returns (error: Option<Error>, previousState: Option<Doc>, prepared: Option<Doc>,
                                   ghost at: nat)
      requires Valid()
      modifies `tick, `calls, `defaultSink, `head, `log, `raised
      ensures Valid() && PassiveCalls() && Reports(error)
      ensures forall k | old(tick) <= k < tick :: !calls[k].ReadOverview? && !calls[k].SyncGraph?
      ensures DraftAt(log, |old(log)|, prepared, at)
      ensures prepared.Some? ==> 0 < at && previousState.Some? && log[at - 1].doc == previousState.value
      ensures previousState.Some? ==> OnRecord(log, |old(log)| - 1, previousState.value)
      ensures error.None? ==>
                && previousState.Some? && old(tick) + 1 < tick && calls[old(tick) + 1] == Prepare
                && prepared == Draft(previousState.value, script(old(tick) + 1).candidate)
      ensures QuietSince(old(tick)) ==> error.None?
    {
      hide AudioHost.Replayed, Chained;
      error, previousState, prepared, at := None, None, None, 0;
      var loaded := LoadState();
      assert loaded.Raised? ==> !Fine(old(tick));
      if loaded.Raised? { error := Some(loaded.error); return; }
      previousState := Some(loaded.value);
      ChainEnds(log, head);
      assert log[|log| - 1].doc == loaded.value;
      error, prepared, at := PrepareOn(loaded.value);
    }

    /** The document to commit: none when preparing changed nothing. */
    function Draft(loaded: Doc, candidate: string): Option<Doc> {
      if candidate == loaded.content then None else Some(Doc(loaded.revision + 1, candidate))
    }

    /** The device the graph or the selection is on so far has another routing than the new one. */
    predicate RoutingDiffers(previousKey: Option<SinkKey>, key: SinkKey) {
      previousKey.Some? && routingKey(previousKey.value) != routingKey(key)
    }

    /** What prepare_device_state makes of the loaded document is committed when it differs. */
    method PrepareOn(loaded: Doc) returns (error: Option<Error>, prepared: Option<Doc>, ghost at: nat)
      requires Valid() && head == loaded
      modifies `tick, `calls, `defaultSink, `head, `log, `raised
      ensures Valid() && PassiveCalls() && Reports(error)
      ensures forall k | old(tick) <= k < tick :: !calls[k].ReadOverview? && !calls[k].SyncGraph?
      ensures DraftAt(log, |old(log)|, prepared, at)
      ensures prepared.Some? ==> 0 < at && log[at - 1].doc == loaded
      ensures error.None? ==> tick > old(tick) && calls[old(tick)] == Prepare
      ensures error.None? ==> prepared == Draft(loaded, script(old(tick)).candidate)
      ensures QuietSince(old(tick)) ==> error.None?
    {
      hide AudioHost.Replayed, Chained;
      error, prepared, at := None, None, 0;
      ChainEnds(log, head);
      ghost var loadedAt := |log| - 1;
      var e := Passing(Prepare);
      assert Fine(old(tick)) ==> e.fault.None? && head == loaded;
      if e.fault.Some? { error := e.fault; return; }
      if e.candidate != loaded.content {
        var committed := CommitState(e.candidate, loaded.revision);
        assert committed.Raised? ==> !Fine(old(tick)) || !Fine(old(tick) + 1);
        if committed.Raised? { error := Some(committed.error); return; }
        prepared := Some(committed.value);
        at := |log| - 1;
        Revisions(log, head, loadedAt, at - 1);
      }
    }

    /** First half of the try block: prepare the routing of the new device. `service` tells whether the
        output service was obtained, `previousState` and `prepared` are the documents it loaded and
        committed by the time this ended. */
    method PrepareRouting(key: SinkKey, previousKey: Option<SinkKey>)
      returns (error: Option<Error>, service: bool, previousState: Option<Doc>, prepared: Option<Doc>, ghost at: nat)
      requires Valid()
      modifies `tick, `calls, `defaultSink, `head, `log, `raised
      ensures Valid() && PassiveCalls() && Reports(error)
      ensures forall k | old(tick) <= k < tick :: !calls[k].SyncGraph?
      ensures DraftAt(log, |old(log)|, prepared, at)
      // A prepared document sits right on top of the one it was prepared from.
      ensures prepared.Some? ==> service && 0 < at && previousState.Some? && log[at - 1].doc == previousState.value
      ensures previousState.Some? ==> service && OnRecord(log, |old(log)| - 1, previousState.value)
      // A device of another routing gets its document whenever preparing changes the one it loaded.
      ensures service <==> RoutingDiffers(previousKey, key)
      // Then the target is read anew; a device of the same routing is only seeded.
      ensures error.None? && service ==>
                tick > old(tick) + 2 && calls[tick - 1].ReadOverview? && NothingRaised(tick - 1)
      ensures !service ==> error.None?
      ensures !service ==>
                if seedable(key) then tick > old(tick) && calls[old(tick)].LoadState? else calls == old(calls)
      ensures error.None? && service ==>
                && previousState.Some? && old(tick) + 1 < tick && calls[old(tick) + 1] == Prepare
                && prepared == Draft(previousState.value, script(old(tick) + 1).candidate)
      ensures QuietSince(old(tick)) ==> error.None?
    {
      hide AudioHost.Replayed, Chained;
      error, service, previousState, prepared, at := None, false, None, None, 0;
      if previousKey.None? || routingKey(previousKey.value) == routingKey(key) {
        ghost var from := SeedHdmiRouting(key);
        return;
      }
      service := true;
      error, previousState, prepared, at := PrepareState();
      if error.None? {
        ghost var drafted, last, called := log, tick, calls;
        var again := ReadOverview();
        assert again.Raised? ==> !Fine(last);
        if again.Raised? { error := Some(again.error); }
        assert calls[old(tick) + 1] == called[old(tick) + 1];
        StayDrafted(drafted, log, |old(log)|, prepared, at, previousState);
      }
    }

    ghost predicate SwitchedAt(t: nat, key: SinkKey, name: SinkKey)
      reads this`calls
    {
      SwitchIn(start, script, hasRuntime, calls, t, key, name)
    }

    /** Default sink, graph, verification. */
    method SwitchGraph(key: SinkKey, name: SinkKey) returns (error: Option<Error>)
      requires Valid()
      modifies `tick, `calls, `defaultSink, `head, `log, `raised, `graph
      ensures Valid() && GoesOn() && OnlyEditors(log, |old(log)|) && Reports(error)
      ensures old(tick) < tick <= old(tick) + 3 && calls[old(tick)] == SetDefault(name)
      ensures forall k | old(tick) < k < tick :: calls[k] == if k == old(tick) + 1 then Call.SyncGraph else ReadLinks
      ensures error.None? ==>
                && Verified(key) && tick == old(tick) + 3
                && script(old(tick)).fault.None? && script(old(tick) + 1).fault.None?
                && script(old(tick) + 2).fault.None?
      ensures QuietSince(old(tick)) ==>
                && tick >= old(tick) + 2 && (error.None? ==> defaultSink == Some(name))
                && (error.None? <==> hasRuntime && script(old(tick) + 1).graph == Graph(Some(key), true, true))
    {
      hide AudioHost.Replayed, Chained;
      error := SetDefaultSink(name);
      assert error.Some? ==> !Fine(old(tick));
      if error.Some? { return; }
      error := SyncGraph();
      assert error.Some? ==> !Fine(old(tick) + 1);
      QuietIsUnmoved(old(tick), old(tick) + 1);
      if error.Some? { return; }
      error := Verify(key);
      QuietIsUnmoved(old(tick), old(tick) + 2);
    }

    /** The default is read once more, and only when it still is the new one the selection is written. */
    method Publish(key: SinkKey, name: SinkKey) returns (error: Option<Error>)
      requires Valid()
      modifies `tick, `calls, `defaultSink, `head, `log, `raised, `selection
      ensures Valid() && GoesOn() && OnlyEditors(log, |old(log)|) && Reports(error)
      ensures tick > old(tick) && calls[old(tick)] == Call.ReadOverview
      ensures forall k | old(tick) < k < tick :: calls[k] == Call.SaveSelection(key)
      ensures error.None? ==>
                && tick == old(tick) + 2 && selection == Some(SelectionFile(key))
                && DefaultAt(old(tick) + 1) == Some(name)
                && script(old(tick)).fault.None? && script(old(tick) + 1).fault.None?
      ensures error.Some? && tick == old(tick) + 2 ==> script(old(tick) + 1).fault.Some?
      ensures tick <= old(tick) + 2
      ensures QuietSince(old(tick)) && old(defaultSink) == Some(name) ==> error.None?
    {
      hide AudioHost.Replayed, Chained, Replay;
      var live := ReadOverview();
      assert live.Raised? ==> !Fine(old(tick));
      if live.Raised? { return Some(live.error); }
      if live.value.default != Some(name) {
        var f := Fail();
        assert UnmovedSince(old(tick)) || !Fine(old(tick));
        return Some(f);
      }
      ghost var before := calls;
      error := SaveSelection(key);
      assert calls[..|before|] == before;
      assert before[..|before|] == before;
      assert error.Some? ==> !Fine(old(tick) + 1);
    }

    /** No selection was saved since call `from`; a raising call may have. */
    ghost predicate NotSavedSince(from: nat)
      reads this`calls
    {
      forall k | from <= k < |calls| && calls[k].SaveSelection? :: script(k).fault.Some?
    }

    ghost predicate WrongGraphSince(from: nat, key: SinkKey)
      reads this`calls
    {
      WrongGraphIn(script, calls, from, key)
    }

    /** From call n on the five calls of the switch go well. */
    ghost predicate GoesWell(n: nat, key: SinkKey) {
      hasRuntime && script(n + 1).graph == Graph(Some(key), true, true) && forall k: nat | n <= k < n + 5 :: Fine(k)
    }

    /** Second half of the try block: default sink, graph, verification, selection file. */
    method Activate(key: SinkKey, name: SinkKey) returns (error: Option<Error>)
      requires Valid()
      modifies `tick, `calls, `defaultSink, `head, `log, `raised, `selection, `graph
      ensures Valid() && GoesOn() && OnlyEditors(log, |old(log)|) && Reports(error)
      ensures error.None? ==> selection == Some(SelectionFile(key)) && Verified(key) && SwitchedAt(old(tick), key, name)
      ensures error.None? ==> tick == old(tick) + 5
      ensures error.Some? ==> NotSavedSince(old(tick))
      ensures forall k | old(tick) <= k < tick :: !calls[k].FailClosed?
      ensures QuietSince(old(tick)) ==> (error.Some? <==> !hasRuntime || WrongGraphSince(old(tick), key))
      ensures GoesWell(old(tick), key) ==> error.None?
    {
      hide AudioHost.Replayed, Chained, Replay;
      error := SwitchGraph(key, name);
      if error.None? {
        ghost var before := calls;
        error := Publish(key, name);
        assert forall k | 0 <= k < |before| :: calls[k] == before[k];
      }
    }

    /** One round of the seeding: what it stored it made from `from`; without that it may try again. Whatever goes
        wrong is only logged, so no exception leaves it. */
    method TrySeed() returns (done: bool, ghost from: Option<Doc>)
      requires Valid()
      modifies `tick, `calls, `defaultSink, `head, `log, `raised
      ensures Valid() && raised == old(raised) && PassiveCalls()
      ensures forall k | old(tick) <= k < tick :: !calls[k].SyncGraph?
      ensures from.None? ==> OnlyEditors(log, |old(log)|)
      ensures from.Some? ==>
                && done && |log| > |old(log)| && log[|log| - 1].author == Seed && log[|log| - 2].doc == from.value
                && OnlyEditors(log[..|log| - 1], |old(log)|)
                && head == Doc(from.value.revision + 1, script(old(tick) + 1).candidate)
                && script(old(tick) + 1).candidate != from.value.content
      // It gives up only when a call raised or there is nothing to store.
      ensures done && from.None? ==>
                || (exists k :: old(tick) <= k < tick && script(k).fault.Some?)
                || (tick == old(tick) + 2 && calls[tick - 1] == Prepare
                    && NothingNew(log, |old(log)| - 1, script(tick - 1).candidate))
      ensures !done ==> tick == old(tick) + 3
      ensures tick > old(tick) && calls[old(tick)].LoadState?
    {
      hide AudioHost.Replayed, Chained, NothingNew, Replay;
      done, from := true, None;
      var loaded := LoadState();
      assert loaded.Raised? ==> script(old(tick)).fault.Some?;
      if loaded.Raised? { raised := old(raised); return; }
      ChainEnds(log, head);
      ghost var at := |log| - 1;
      var e := Passing(Prepare);
      assert e.fault.Some? ==> script(old(tick) + 1).fault.Some?;
      if e.fault.Some? || e.candidate == loaded.value.content {
        StoodThere(log, at, |old(log)| - 1);
        raised := old(raised);
        return;
      }
      done, from := CommitSeed(e.candidate, loaded.value, at);
      raised := old(raised);
    }

    method CommitSeed(content: string, loaded: Doc, ghost at: nat) returns (done: bool, ghost from: Option<Doc>)
      requires Valid() && at < |log| && log[at].doc == loaded
      modifies `tick, `calls, `defaultSink, `head, `log, `raised
      ensures Valid() && PassiveCalls() && tick == old(tick) + 1
      ensures calls == old(calls) + [Call.CommitSeed(content, loaded.revision)]
      ensures from.None? ==> OnlyEditors(log, |old(log)|)
      ensures from.Some? ==>
                && done && from == Some(loaded) && head == Doc(loaded.revision + 1, content) && |log| > |old(log)|
                && log[|log| - 1].author == Seed && log[|log| - 2].doc == from.value
                && OnlyEditors(log[..|log| - 1], |old(log)|)
      ensures done && from.None? ==> script(old(tick)).fault.Some?
    {
      hide Replay, Chained;
      done, from := true, None;
      var e := Step(Call.CommitSeed(content, loaded.revision));
      if e.fault.Some? { return; }
      if head.revision != loaded.revision { return false, None; }
      HeadIsLast(log, head, at);
      ChainGrows(log, head, Seed, content);
      from := Some(head);
      head := Doc(loaded.revision + 1, content);
      log := log + [Commit(Seed, head)];
    }

    /** _seed_hdmi_routing: store default routing once; whatever goes wrong is only logged. */
    method SeedHdmiRouting(key: SinkKey) returns (ghost from: Option<Doc>)
      requires Valid()
      modifies `tick, `calls, `defaultSink, `head, `log, `raised
      ensures Valid() && raised == old(raised) && PassiveCalls() && NoOwnCommit(log, |old(log)|)
      ensures forall k | old(tick) <= k < tick :: !calls[k].SyncGraph?
      // At most one document is stored, right on top of the one it was made from.
      ensures from.None? ==> OnlyEditors(log, |old(log)|)
      ensures from.Some? ==>
                && |log| > |old(log)| && log[|log| - 1].author == Seed && log[|log| - 2].doc == from.value
                && OnlyEditors(log[..|log| - 1], |old(log)|) && head.revision == from.value.revision + 1
                && head.content != from.value.content
      // None is stored only when a call raised, when there is nothing to store, or after three conflicts; nothing is
      // even read for a sink that is not to be seeded.
      ensures from.None? ==>
                || (exists k :: old(tick) <= k < tick && script(k).fault.Some?)
                || (tick > old(tick) && calls[tick - 1] == Prepare
                    && NothingNew(log, |old(log)| - 1, script(tick - 1).candidate))
                || tick == old(tick) + 9 || !seedable(key)
      ensures if seedable(key) then tick > old(tick) && calls[old(tick)].LoadState? else calls == old(calls)
    {
      hide AudioHost.Replayed, Chained;
      from := None;
      if !seedable(key) { return; }
      for attempt := 0 to 3
        invariant Valid() && raised == old(raised) && from.None? && PassiveCalls() && OnlyEditors(log, |old(log)|)
        invariant forall k | old(tick) <= k < tick :: !calls[k].SyncGraph?
        invariant tick == old(tick) + 3 * attempt
        invariant attempt > 0 ==> calls[old(tick)].LoadState?
      {
        ghost var before, called := log, calls;
        var done;
        done, from := TrySeed();
        assert forall k | 0 <= k < |called| :: calls[k] == called[k];
        if done {
          if from.Some? { assert forall i | |old(log)| <= i < |before| :: log[..|log| - 1][i] == before[i]; }
          return;
        }
      }
    }

    /** The stored document is the source the graph is to run on, unless that needs a sync. Without a draft of this
        call it needs one exactly when the document changed; with one only for an edit that came after it. */
    ghost predicate StateSettled(needsSync: bool, sourceState: Option<Doc>, previousState: Option<Doc>,
                                 prepared: Option<Doc>)
      reads this`head, this`log
    {
      && (needsSync || sourceState == Some(head))
      && (prepared.None? ==> (needsSync <==> previousState != Some(head)))
      && (prepared.Some? && needsSync ==> log != [] && log[|log| - 1].author == Editor)
    }

    predicate SameContent(a: Option<Doc>, b: Option<Doc>) {
      a == b || (a.Some? && b.Some? && a.value.content == b.value.content)
    }

    /** Undo of the prepared output state. */
    method RollBackState(service: bool, previousState: Option<Doc>, prepared: Option<Doc>, ghost n: nat, ghost at: nat)
      returns (error: Option<Error>, needsSync: bool, sourceState: Option<Doc>)
      requires Valid() && n <= |log| && DraftAt(log, n, prepared, at)
      requires prepared.Some? ==> service && previousState.Some?
      modifies `tick, `calls, `defaultSink, `head, `log, `raised
      ensures Valid() && PassiveCalls()
      ensures forall k | old(tick) <= k < tick :: !calls[k].ReadOverview?
      ensures error.Some? ==> |raised| > |old(raised)|
      ensures error.None? && prepared.Some? ==> OwnDraftsSuperseded(log, n, previousState.value.content)
      ensures prepared.None? ==> NoOwnCommit(log, n)
      ensures QuietSince(old(tick)) ==> error.None?
      ensures !service ==> error.None? && !needsSync && sourceState == previousState && calls == old(calls)
      ensures service ==> tick > old(tick) && calls[old(tick)].LoadState? && (error.None? <==> NothingRaised(old(tick)))
      ensures error.Some? ==> needsSync
      // What is stored now is the document the graph is to run on, or it needs a sync.
      ensures error.None? && service ==> StateSettled(needsSync, sourceState, previousState, prepared)
      ensures SameContent(sourceState, previousState)
    {
      hide AudioHost.Replayed, Chained;
      error, needsSync, sourceState := None, false, previousState;
      if !service {
        return;
      }
      var loaded := LoadState();
      ChainEnds(log, head);
      assert loaded.Raised? ==> !Fine(old(tick));
      if loaded.Raised? {
        return Some(loaded.error), true, sourceState;
      }
      if prepared.Some? && loaded.value == prepared.value {
        HeadIsLast(log, head, at);
        error, needsSync, sourceState := RevertDraft(previousState.value, n, at);
        assert error.Some? ==> !Fine(old(tick) + 1);
      } else if Some(loaded.value) != previousState {
        needsSync := true;
        assert prepared.Some? ==> |log| > at + 1;
      } else {
        assert prepared.Some? ==> |log| > at + 1;
      }
    }

    /** The draft is still the stored document: bring the previous content back, unless a newer edit comes first. */
    method RevertDraft(previous: Doc, ghost n: nat, ghost at: nat)
      returns (error: Option<Error>, needsSync: bool, sourceState: Option<Doc>)
      requires Valid() && n <= at == |log| - 1 && log[at].doc == head && DraftAt(log, n, Some(head), at)
      modifies `tick, `calls, `defaultSink, `head, `log, `raised
      ensures Valid() && PassiveCalls() && tick == old(tick) + 1 && calls[old(tick)].CommitState?
      ensures error.Some? ==> |raised| > |old(raised)| && script(old(tick)).fault.Some?
      ensures error.None? ==> OwnDraftsSuperseded(log, n, previous.content)
      ensures error.None? <==> script(old(tick)).fault.None?
      ensures error.Some? ==> needsSync
      ensures error.None? ==> StateSettled(needsSync, sourceState, Some(previous), Some(old(head)))
      ensures SameContent(sourceState, Some(previous))
    {
      hide AudioHost.Replayed, Chained;
      error, needsSync, sourceState := None, false, Some(previous);
      var reverted := CommitState(previous.content, head.revision);
      if reverted.Ok? {
        Revisions(log, head, at, |log| - 2);
        sourceState := Some(reverted.value);
      } else if reverted.error == Conflict {
        ChainEnds(log, head);
        Revisions(log, head, at, |log| - 1);
        assert log[at + 1].author == Editor;
        needsSync := true;
      } else {
        error, needsSync := Some(reverted.error), true;
      }
    }

    /** Undo of the selection file: rewrite it, or unlink it, only when its bytes changed. */
    method RollBackSelection(previousBytes: Option<string>) returns (error: Option<Error>)
      requires Valid()
      modifies `tick, `calls, `defaultSink, `head, `log, `raised, `selection
      ensures Valid() && OthersOnly()
      ensures forall k | old(tick) <= k < tick :: !calls[k].ReadOverview?
      ensures error.Some? ==> |raised| > |old(raised)|
      ensures error.None? ==> selection == previousBytes
      ensures QuietSince(old(tick)) ==> error.None?
    {
      hide AudioHost.Replayed, Chained;
      var current := ReadSelection();
      assert current.Raised? ==> !Fine(old(tick));
      if current.Raised? { return Some(current.error); }
      error := None;
      if current.value != previousBytes {
        error := RestoreSelection(previousBytes);
        assert error.Some? ==> !Fine(old(tick) + 1);
      }
    }

    /** The graph is verified for the saved sink, or for what it is to be restored as. */
    ghost predicate VerifiedFor(saved: SinkKey, live: seq<SinkKey>)
      reads this`graph
    {
      graph.key.Some? && Restores(saved, live, graph.key.value) && Verified(graph.key.value)
    }

    lemma VerifiedForIsVerified(saved: SinkKey, live: seq<SinkKey>)
      ensures VerifiedFor(saved, live) <==> Verified(RestoreKey(saved, live))
    {
      RestoreKeyIsExact(saved, live);
      hide Restores, RestoreKey;
    }

    /** Undo of the graph: keep it only when the state is the expected one and it verifies, else sync it. */
    method RollBackGraph(previousGraphKey: Option<SinkKey>, live: seq<SinkKey>, service: bool,
                         sourceState: Option<Doc>, sourceChanged: bool) returns (error: Option<Error>)
      requires Valid()
      modifies `tick, `calls, `defaultSink, `head, `log, `raised, `graph
      ensures Valid() && OthersOnly()
      ensures error.Some? ==> |raised| > |old(raised)|
      ensures error.None? && previousGraphKey.Some? ==> VerifiedFor(previousGraphKey.value, live)
      ensures previousGraphKey.None? ==> error.None? && calls == old(calls)
      ensures QuietSince(old(tick)) && error.Some? ==> !VerifiedFor(previousGraphKey.value, live)
      ensures error.None? ==> OnlyVerifiesRaised(old(tick))
      // A graph that is kept without a sync runs on the document that is stored.
      ensures error.None? && previousGraphKey.Some? && !SyncedSince(old(tick)) ==>
                && !sourceChanged
                && (service ==> tick > old(tick) && calls[old(tick)].LoadState?
                                && sourceState == Some(HeadAt(old(tick) + 1)))
    {
      hide AudioHost.Replayed, Chained, Restores, AudioHost.VerifiedFor, AudioHost.SyncedSince, OnlyVerifiesIn, Replay;
      NoCallsYet();
      if previousGraphKey.None? {
        return None;
      }
      var changed;
      error, changed := SourceMoved(service, sourceState);
      if error.Some? { return; }
      ghost var moved := calls;
      NoneRaised(moved, old(tick));
      error := RestoreGraph(previousGraphKey.value, live, sourceChanged || changed);
      QuietIsUnmoved(old(tick), |moved|);
      assert calls[..|moved|] == moved == moved[..|moved|];
      OnlyVerifiesOn(script, moved, calls, old(tick));
      SyncedEarlier(old(tick), |moved|);
    }

    method RestoreGraph(saved: SinkKey, live: seq<SinkKey>, sourceChanged: bool) returns (error: Option<Error>)
      requires Valid()
      modifies `tick, `calls, `defaultSink, `head, `log, `raised, `graph
      ensures Valid() && OthersOnly()
      ensures error.Some? ==> |raised| > |old(raised)|
      ensures error.None? ==> VerifiedFor(saved, live) && OnlyVerifiesRaised(old(tick))
      ensures error.None? && sourceChanged ==> SyncedSince(old(tick))
      ensures QuietSince(old(tick)) && error.Some? ==> !VerifiedFor(saved, live)
    {
      hide AudioHost.Replayed, Chained, Restores, RestoreKey, AudioHost.SyncedSince, OnlyVerifiesIn;
      hide AudioHost.VerifiedFor;
      var restoreKey := RestoreKey(saved, live);
      var restore := ReadOverview();
      assert restore.Raised? ==> !Fine(old(tick));
      if restore.Raised? { return Some(restore.error); }
      ghost var looked := calls;
      NoneRaised(looked, old(tick));
      error := KeepOrSyncGraph(restoreKey, sourceChanged);
      VerifiedForIsVerified(saved, live);
      QuietIsUnmoved(old(tick), |looked|);
      OnlyVerifiesOn(script, looked, calls, old(tick));
      SyncedEarlier(old(tick), |looked|);
    }

    /** Whether a newer edit came since the cleanup. */
    method SourceMoved(service: bool, sourceState: Option<Doc>) returns (error: Option<Error>, changed: bool)
      requires Valid()
      modifies `tick, `calls, `defaultSink, `head, `log, `raised
      ensures Valid() && OthersOnly()
      ensures error.Some? ==> |raised| > |old(raised)|
      ensures error.None? ==> (changed <==> service && Some(head) != sourceState) && NothingRaised(old(tick))
      ensures service ==> calls == old(calls) + [Call.LoadState]
      ensures error.None? && service ==> (changed <==> sourceState != Some(HeadAt(old(tick) + 1)))
      ensures !service ==> calls == old(calls) && !changed
      ensures QuietSince(old(tick)) ==> error.None?
    {
      hide AudioHost.Replayed, Chained;
      error, changed := None, false;
      if service {
        var loaded := LoadState();
        assert loaded.Raised? ==> !Fine(old(tick));
        if loaded.Raised? { return Some(loaded.error), false; }
        changed := Some(loaded.value) != sourceState;
      }
    }

    method KeepOrSyncGraph(restoreKey: SinkKey, sourceChanged: bool) returns (error: Option<Error>)
      requires Valid()
      modifies `tick, `calls, `defaultSink, `head, `log, `raised, `graph
      ensures Valid() && OthersOnly()
      ensures error.Some? ==> |raised| > |old(raised)|
      ensures error.None? ==> Verified(restoreKey)
      ensures QuietSince(old(tick)) && error.Some? ==> !Verified(restoreKey)
      // A graph of an unchanged state that verifies is left alone; after a change of state it is synced anew.
      ensures !sourceChanged && old(Verified(restoreKey)) && script(old(tick)).fault.None? ==>
                graph == old(graph) && (error.None? <==> script(old(tick) + 1).fault.None?)
      ensures sourceChanged ==> tick > old(tick) && calls[old(tick)].SyncGraph?
      ensures error.None? ==> OnlyVerifiesRaised(old(tick))
      ensures error.None? && (sourceChanged || !old(Verified(restoreKey)) || script(old(tick)).fault.Some?) ==>
                SyncedSince(old(tick))
    {
      hide AudioHost.Replayed, Chained, AudioHost.SyncedSince, OnlyVerifiesIn;
      var needsSync := sourceChanged;
      assert OnlyVerifiesIn(script, calls, tick) by { NoCallsYet(); }
      if !needsSync {
        error, needsSync := LooksWrong(restoreKey);
        if error.Some? { return; }
      }
      ghost var looked := calls;
      error := SyncAndVerify(restoreKey, needsSync);
      QuietIsUnmoved(old(tick), |looked|);
      SyncedEarlier(old(tick), |looked|);
      OnlyVerifiesOn(script, looked, calls, old(tick));
    }

    /** The first look at the graph: RuntimeError means it needs a sync, any other exception ends the rollback. */
    method LooksWrong(key: SinkKey) returns (error: Option<Error>, needsSync: bool)
      requires Valid()
      modifies `tick, `calls, `defaultSink, `head, `log, `raised
      ensures Valid() && OthersOnly() && tick <= old(tick) + 1
      ensures forall k | old(tick) <= k < tick :: calls[k] == ReadLinks
      ensures error.Some? ==> |raised| > |old(raised)| && !QuietSince(old(tick))
      ensures error.None? ==> OnlyVerifiesRaised(old(tick))
      ensures error.None? && !needsSync ==> Verified(key) && tick == old(tick) + 1 && script(old(tick)).fault.None?
      ensures Verified(key) && script(old(tick)).fault.None? ==> error.None? && !needsSync
    {
      hide AudioHost.Replayed, Chained;
      error := Verify(key);
      needsSync := error.Some?;
      if error.Some? && error.value.Runtime? { error := None; }
    }

    method SyncAndVerify(key: SinkKey, needsSync: bool) returns (error: Option<Error>)
      requires Valid()
      modifies `tick, `calls, `defaultSink, `head, `log, `raised, `graph
      ensures Valid() && OthersOnly()
      ensures error.Some? ==> |raised| > |old(raised)|
      ensures error.None? ==> Verified(key) && OnlyVerifiesRaised(old(tick)) && (needsSync ==> SyncedSince(old(tick)))
      ensures QuietSince(old(tick)) && error.Some? ==> !Verified(key)
      ensures needsSync ==> tick > old(tick) && calls[old(tick)].SyncGraph?
      ensures !needsSync ==> graph == old(graph) && (error.None? ==> script(old(tick)).fault.None?)
      ensures !needsSync && Verified(key) && script(old(tick)).fault.None? ==> error.None?
    {
      hide AudioHost.Replayed, Chained;
      ghost var last := tick;
      if needsSync {
        error := SyncGraph();
        assert error.Some? ==> !Fine(last);
        if error.Some? { return; }
      }
      last := tick;
      error := Verify(key);
      QuietIsUnmoved(old(tick), last);
      assert needsSync ==> calls[old(tick)].SyncGraph?;
    }

    lemma LoadedHere(from: nat, k: nat, content: string)
      requires from <= k < |calls| && calls[k].LoadState? && HeadAt(k + 1).content == content
      ensures LoadedSince(from, content)
    {
    }

    lemma NoneRaised(made: seq<Call>, from: nat)
      requires forall k: nat | from <= k < |made| :: script(k).fault.None?
      ensures OnlyVerifiesIn(script, made, from)
    {
    }

    lemma NoCallsYet()
      ensures OnlyVerifiesIn(script, calls, |calls|)
    {
    }

    lemma SyncedEarlier(from: nat, later: nat)
      requires from <= later
      ensures SyncedSince(later) ==> SyncedSince(from)
    {
    }

    /** Call `read` read the inventory `live`, and the next one set the default sink to what the previous one is to be
        restored as in that inventory; both returned, and nothing set it since. */
    ghost predicate DefaultBackAt(read: nat, previous: SinkKey, live: seq<SinkKey>)
      reads this`calls, this`defaultSink, this`tick
    {
      && read + 2 <= |calls| && calls[read] == Call.ReadOverview && script(read).fault.None?
      && live == script(read).outputs
      && calls[read + 1].SetDefault? && Restores(previous, live, calls[read + 1].key) && script(read + 1).fault.None?
      && (forall k | read + 2 <= k < |calls| :: Passive(calls[k]))
      && (UnmovedSince(read + 2) ==> defaultSink == Some(calls[read + 1].key))
    }

    /** No inventory was read from call `from` up to call `to`. */
    ghost predicate NoOverview(from: nat, to: nat)
      reads this`calls
    {
      forall k | from <= k < to <= |calls| :: !calls[k].ReadOverview?
    }

    /** Undo of the default sink. The inventory falls back to the one read before the switch. */
    method RollBackDefault(b: Before) returns (error: Option<Error>, live: seq<SinkKey>)
      requires Valid()
      modifies `tick, `calls, `defaultSink, `head, `log, `raised
      ensures Valid() && GoesOn() && OnlyEditors(log, |old(log)|)
      ensures forall k | old(tick) <= k < tick :: Ordinary(calls[k])
      ensures error.Some? ==> |raised| > |old(raised)|
      ensures error.None? ==> DefaultBackAt(old(tick), b.default, live)
      ensures QuietSince(old(tick)) ==> error.None?
    {
      hide AudioHost.Replayed, Chained, Restores, RestoreKey;
      error, live := None, b.outputs;
      var inventory := ReadOverview();
      assert inventory.Raised? ==> !Fine(old(tick));
      if inventory.Ok? {
        live := inventory.value.outputs;
      } else {
        error := Some(inventory.error);
      }
      RestoreKeyIsExact(b.default, live);
      assert Restores(b.default, live, RestoreKey(b.default, live));
      var sinkError := SetDefaultSink(RestoreKey(b.default, live));
      assert sinkError.Some? ==> !Fine(old(tick) + 1);
      if sinkError.Some? { error := sinkError; }
    }

    /** The undo of state and selection file; each is tried whatever became of the other. */
    method RollBackFiles(service: bool, previousState: Option<Doc>, prepared: Option<Doc>, ghost n: nat, ghost at: nat,
                         bytes: Option<string>)
      returns (error: Option<Error>, needsSync: bool, sourceState: Option<Doc>)
      requires Valid() && n <= |log| && DraftAt(log, n, prepared, at)
      requires prepared.Some? ==> service && previousState.Some?
      modifies `tick, `calls, `defaultSink, `head, `log, `raised, `selection
      ensures Valid() && PassiveCalls() && NoOverview(old(tick), tick)
      ensures error.Some? ==> |raised| > |old(raised)|
      ensures error.None? ==>
                && selection == bytes
                && (prepared.Some? ==> OwnDraftsSuperseded(log, n, previousState.value.content))
                && (prepared.None? ==> NoOwnCommit(log, n))
      ensures QuietSince(old(tick)) ==> error.None?
      ensures SameContent(sourceState, previousState) && (!service ==> !needsSync)
    {
      hide AudioHost.Replayed, Chained, OwnDraftsSuperseded, NoOwnCommit;
      error, needsSync, sourceState := RollBackState(service, previousState, prepared, n, at);
      ghost var settled, called := log, calls;
      var fileError := RollBackSelection(bytes);
      if fileError.Some? { error := fileError; }
      assert forall k | 0 <= k < |called| :: calls[k] == called[k];
      StaySuperseded(settled, log, n, if previousState.Some? then previousState.value.content else "");
    }

    /** The undo of state, selection file and default sink; `read` is the call that read the inventory. */
    method RollBackRest(service: bool, previousState: Option<Doc>, prepared: Option<Doc>, ghost n: nat, ghost at: nat,
                        b: Before)
      returns (error: Option<Error>, needsSync: bool, sourceState: Option<Doc>, live: seq<SinkKey>, ghost read: nat)
      requires Valid() && n <= |log| && DraftAt(log, n, prepared, at)
      requires prepared.Some? ==> service && previousState.Some?
      modifies `tick, `calls, `defaultSink, `head, `log, `raised, `selection
      ensures Valid() && GoesOn()
      ensures forall k | old(tick) <= k < tick :: Ordinary(calls[k])
      ensures error.Some? ==> |raised| > |old(raised)|
      ensures error.None? ==>
                && selection == b.bytes
                && read >= old(tick) && NoOverview(old(tick), read) && DefaultBackAt(read, b.default, live)
                && (prepared.Some? ==> OwnDraftsSuperseded(log, n, previousState.value.content))
                && (prepared.None? ==> NoOwnCommit(log, n))
      ensures QuietSince(old(tick)) ==> error.None?
      ensures SameContent(sourceState, previousState) && (!service ==> !needsSync)
    {
      hide AudioHost.Replayed, Chained, Restores, RestoreKey, OwnDraftsSuperseded, NoOwnCommit;
      error, needsSync, sourceState := RollBackFiles(service, previousState, prepared, n, at, b.bytes);
      ghost var settled, called := log, calls;
      read := tick;
      var sinkError;
      sinkError, live := RollBackDefault(b);
      if sinkError.Some? { error := sinkError; }
      assert forall k | 0 <= k < |called| :: calls[k] == called[k];
      StaySuperseded(settled, log, n, if previousState.Some? then previousState.value.content else "");
    }

    /** The except branch. */
    method RollBack(service: bool, previousState: Option<Doc>, prepared: Option<Doc>, ghost n: nat, ghost at: nat,
                    b: Before)
      returns (rollbackError: Option<Error>, graphError: Option<Error>, live: seq<SinkKey>, ghost read: nat)
      requires Valid() && n <= |log| && DraftAt(log, n, prepared, at)
      requires prepared.Some? ==> service && previousState.Some?
      modifies `tick, `calls, `defaultSink, `head, `log, `raised, `selection, `graph
      ensures Valid() && GoesOn()
      ensures forall k | old(tick) <= k < tick :: Ordinary(calls[k])
      ensures rollbackError.Some? || graphError.Some? ==> |raised| > |old(raised)|
      ensures rollbackError.None? ==>
                && selection == b.bytes
                && read >= old(tick) && NoOverview(old(tick), read) && DefaultBackAt(read, b.default, live)
                && (prepared.Some? ==> OwnDraftsSuperseded(log, n, previousState.value.content))
                && (prepared.None? ==> NoOwnCommit(log, n))
      ensures graphError.None? && b.graphKey.Some? ==> VerifiedFor(b.graphKey.value, live)
      ensures b.graphKey.None? ==> graphError.None?
      // When nothing raises and nobody interferes it fails only on a graph that does not come back.
      ensures QuietSince(old(tick)) ==> rollbackError.None?
      ensures QuietSince(old(tick)) && graphError.Some? ==> !VerifiedFor(b.graphKey.value, live)
      // A graph that is kept without a sync runs on the content of before the switch.
      ensures graphError.None? && b.graphKey.Some? && service ==>
                SyncedSince(old(tick)) || (previousState.Some? && LoadedSince(old(tick), previousState.value.content))
    {
      hide AudioHost.Replayed, Chained, Restores, OwnDraftsSuperseded, NoOwnCommit, OnlyVerifiesIn, Replay;
      hide AudioHost.SyncedSince, AudioHost.LoadedSince, AudioHost.VerifiedFor;
      var needsSync, sourceState;
      rollbackError, needsSync, sourceState, live, read := RollBackRest(service, previousState, prepared, n, at, b);
      ghost var settled, called := log, calls;
      graphError := RollBackGraph(b.graphKey, live, service, sourceState, needsSync);
      assert forall k | 0 <= k < |called| :: calls[k] == called[k];
      SyncedEarlier(old(tick), |called|);
      if graphError.None? && b.graphKey.Some? && service && !SyncedSince(|called|) {
        LoadedHere(old(tick), |called|, previousState.value.content);
      }
      StaySuperseded(settled, log, n, if previousState.Some? then previousState.value.content else "");
    }

    /** The overview before the switch, which must name a default sink. */
    method ReadPrevious() returns (r: Result<Overview>)
      requires Valid()
      modifies `tick, `calls, `defaultSink, `head, `log, `raised
      ensures Valid() && OthersOnly() && Reports(ErrorOf(r))
      ensures tick <= old(tick) + 2 && forall k | old(tick) <= k < tick :: !calls[k].SyncGraph?
      ensures r.Ok? ==>
                && tick == old(tick) + 2 && calls == old(calls) + [Resolve, Call.ReadOverview]
                && r.value.default.Some? && r.value.default == defaultSink == DefaultAt(tick)
                && r.value.outputs == script(old(tick) + 1).outputs
                && r.value.selected == script(old(tick) + 1).selected
      ensures QuietSince(old(tick)) ==> (r.Ok? <==> old(defaultSink).Some?)
    {
      hide AudioHost.Replayed, Chained;
      var e := Passing(Resolve);
      assert e.fault.Some? ==> !Fine(old(tick));
      if e.fault.Some? { return Raised(e.fault.value); }
      r := ReadOverview();
      assert r.Raised? ==> !Fine(old(tick) + 1);
      QuietIsUnmoved(old(tick), old(tick));
      if r.Ok? && r.value.default.None? {
        var f := Fail();
        return Raised(f);
      }
    }

    /** The overview of the target, which must be the selected output. */
    method ReadTarget(key: SinkKey) returns (error: Option<Error>)
      requires Valid()
      modifies `tick, `calls, `defaultSink, `head, `log, `raised
      ensures Valid() && OthersOnly() && Reports(error)
      ensures tick == old(tick) + 1 && calls == old(calls) + [Call.ReadOverview]
      ensures error.None? ==> script(old(tick)).selected == Some(key) && script(old(tick)).fault.None?
      ensures QuietSince(old(tick)) ==> (error.None? <==> script(old(tick)).selected == Some(key))
    {
      hide AudioHost.Replayed, Chained;
      var target := ReadOverview();
      assert target.Raised? ==> !Fine(old(tick));
      if target.Raised? { return Some(target.error); }
      error := None;
      if target.value.selected != Some(key) {
        var f := Fail();
        return Some(f);
      }
    }

    /** These are the values an inspection at call n captured: the inventory and the default its overview showed, and
        the selection file and the graph's key of now. */
    ghost predicate Inspected(n: nat, key: SinkKey, b: Before)
      reads this`calls, this`selection, this`graph
    {
      && n + 4 <= |calls| && calls[n + 1] == Call.ReadOverview && calls[n + 3] == Call.ReadOverview
      && script(n + 3).selected == Some(key)
      && b.outputs == script(n + 1).outputs && b.selected == script(n + 1).selected
      && Some(b.default) == DefaultAt(n + 2)
      && b.bytes == selection && b.graphKey == if hasRuntime then graph.key else None
    }

    /** What the call reads before it touches anything. It refuses when there is no default sink, and when the
        target is not the selected output any more. */
    method Inspect(key: SinkKey) returns (r: Result<Before>)
      requires Valid()
      modifies `tick, `calls, `defaultSink, `head, `log, `raised
      ensures Valid() && OthersOnly() && Reports(ErrorOf(r))
      ensures r.Ok? ==> tick == old(tick) + 4 && Inspected(old(tick), key, r.value)
      ensures r.Ok? && UnmovedSince(old(tick)) ==> old(defaultSink) == Some(r.value.default)
      ensures tick <= old(tick) + 4 && forall k | old(tick) <= k < tick :: !calls[k].SyncGraph?
      ensures QuietSince(old(tick)) ==>
                (r.Ok? <==> old(defaultSink).Some? && script(old(tick) + 3).selected == Some(key))
    {
      hide AudioHost.Replayed, Chained, Replay;
      var previous := ReadPrevious();
      if previous.Raised? { return Raised(previous.error); }
      ghost var before := calls;
      var bytes := ReadSelection();
      assert bytes.Raised? ==> !Fine(old(tick) + 2);
      if bytes.Raised? { return Raised(bytes.error); }
      var refused := ReadTarget(key);
      assert calls[..old(tick) + 2] == before == before[..old(tick) + 2];
      if refused.Some? { return Raised(refused.value); }
      r := Ok(Before(previous.value.default.value, previous.value.selected, previous.value.outputs, bytes.value,
                     if hasRuntime then graph.key else None));
    }

    /** The try block. */
    method Attempt(key: SinkKey, name: SinkKey, seedRouting: bool, b: Before)
      returns (error: Option<Error>, service: bool, previousState: Option<Doc>, prepared: Option<Doc>, ghost at: nat)
      requires Valid()
      modifies `tick, `calls, `defaultSink, `head, `log, `raised, `selection, `graph
      ensures Valid() && GoesOn() && Reports(error)
      ensures DraftAt(log, |old(log)|, prepared, at)
      ensures prepared.Some? ==> service && previousState.Some?
      ensures previousState.Some? ==> service && OnRecord(log, |old(log)| - 1, previousState.value)
      ensures error.None? ==> Switched(key, name, old(tick))
      ensures error.Some? ==> NotSavedSince(old(tick))
      ensures forall k | old(tick) <= k < tick :: !calls[k].FailClosed?
      ensures QuietSince(old(tick)) ==> (error.Some? <==> !hasRuntime || WrongGraphSince(old(tick), key))
      ensures !seedRouting && GoesWell(old(tick), key) ==> error.None? && tick == old(tick) + 5
      ensures error.None? && seedRouting && RoutingDiffers(PreviousKey(b), key) ==>
                && old(tick) + 1 < tick && calls[old(tick) + 1] == Prepare
                && RoutingStored(log, |old(log)|, script(old(tick) + 1).candidate)
    {
      hide AudioHost.Replayed, Chained, SwitchIn, DraftAt, OnRecord, RoutingStored;
      error, service, previousState, prepared, at := PrepareFirst(key, seedRouting, b);
      if error.None? {
        ghost var drafted, called, from := log, calls, tick;
        error := Activate(key, name);
        assert forall k | 0 <= k < |called| :: calls[k] == called[k];
        assert error.None? ==> SwitchedAt(from, key, name);
        FirstSync(old(tick), from, key);
        StayDrafted(drafted, log, |old(log)|, prepared, at, previousState);
        if seedRouting && service { RoutingStays(drafted, log, |old(log)|, script(old(tick) + 1).candidate); }
      }
    }

    /** The routing, when it is asked for. */
    method PrepareFirst(key: SinkKey, seedRouting: bool, b: Before)
      returns (error: Option<Error>, service: bool, previousState: Option<Doc>, prepared: Option<Doc>, ghost at: nat)
      requires Valid()
      modifies `tick, `calls, `defaultSink, `head, `log, `raised
      ensures Valid() && PassiveCalls() && Reports(error)
      ensures !seedRouting ==> error.None? && tick == old(tick)
      ensures forall k | old(tick) <= k < tick :: !calls[k].SyncGraph?
      ensures DraftAt(log, |old(log)|, prepared, at)
      ensures prepared.Some? ==> service && previousState.Some?
      ensures previousState.Some? ==> service && OnRecord(log, |old(log)| - 1, previousState.value)
      ensures QuietSince(old(tick)) ==> error.None?
      ensures error.None? && seedRouting && RoutingDiffers(PreviousKey(b), key) ==>
                && service && old(tick) + 1 < tick && calls[old(tick) + 1] == Prepare
                && RoutingStored(log, |old(log)|, script(old(tick) + 1).candidate)
      ensures service ==> seedRouting && RoutingDiffers(PreviousKey(b), key)
    {
      hide AudioHost.Replayed, Chained, DraftAt, OnRecord, RoutingStored;
      error, service, previousState, prepared, at := None, false, None, None, 0;
      NoDraft();
      if seedRouting {
        error, service, previousState, prepared, at := PrepareRouting(key, PreviousKey(b));
        if error.None? && service {
          IsRoutingStored(log, |old(log)|, previousState.value, prepared, at, script(old(tick) + 1).candidate);
        }
      }
    }

    function PreviousKey(b: Before): Option<SinkKey> { if b.graphKey.Some? then b.graphKey else b.selected }

    lemma IsRoutingStored(commits: seq<Commit>, n: nat, loaded: Doc, prepared: Option<Doc>, at: nat, candidate: string)
      requires OnRecord(commits, n - 1, loaded) && DraftAt(commits, n, prepared, at)
      requires prepared == Draft(loaded, candidate)
      ensures RoutingStored(commits, n, candidate)
    {
      hide OnRecord;
      assert prepared.Some? ==> n <= at < |commits| && commits[at] == Commit(Own, Doc(loaded.revision + 1, candidate));
      assert StoredFrom(commits, n, loaded, candidate);
    }

    lemma NoDraft()
      ensures DraftAt(log, |log|, None, 0)
    {
    }

    lemma FirstSync(from: nat, later: nat, key: SinkKey)
      requires from <= later <= |calls| && forall k | from <= k < later :: !calls[k].SyncGraph?
      ensures WrongGraphSince(from, key) <==> WrongGraphSince(later, key)
    {
    }

    /** The new key is persisted and verified by a switch since call `from`. */
    ghost predicate Switched(key: SinkKey, name: SinkKey, from: nat)
      reads this`calls, this`selection, this`graph
    {
      && selection == Some(SelectionFile(key)) && Verified(key)
      && exists t: nat :: from <= t && SwitchedAt(t, key, name)
    }

    ghost predicate StateRestored(previousState: Option<Doc>, n: nat)
      reads this`log
    {
      match previousState
      case None => NoOwnCommit(log, n)
      case Some(doc) => OnRecord(log, n - 1, doc) && OwnDraftsSuperseded(log, n, doc.content)
    }

    /** What was captured is back: the selection bytes, the default sink or its successor in the first inventory read
        since call `from`, and the graph, verified; it was synced anew unless the stored document had the previous
        content again. */
    ghost predicate RestoredTo(b: Before, live: seq<SinkKey>, previousState: Option<Doc>, from: nat)
      reads this`selection, this`calls, this`defaultSink, this`tick, this`graph
    {
      && selection == b.bytes
      && (b.graphKey.Some? ==> VerifiedFor(b.graphKey.value, live))
      && (exists read: nat :: from <= read && NoOverview(from, read) && DefaultBackAt(read, b.default, live))
      && (b.graphKey.Some? && previousState.Some? ==>
            SyncedSince(from) || LoadedSince(from, previousState.value.content))
    }

    /** The except branch with its verdict: everything back and the first error reported, or failed closed. */
    method Undo(error: Error, service: bool, previousState: Option<Doc>, prepared: Option<Doc>, ghost n: nat,
                ghost at: nat, b: Before)
      returns (r: Outcome)
      requires Valid() && n <= |log| && DraftAt(log, n, prepared, at)
      requires prepared.Some? ==> service && previousState.Some?
      requires previousState.Some? ==> service && OnRecord(log, n - 1, previousState.value)
      modifies `tick, `calls, `defaultSink, `head, `log, `raised, `selection, `graph
      ensures Valid() && GoesOn() && (r.FailedClosed? || r.RolledBack?)
      ensures forall k | old(tick) <= k < tick ::
                !calls[k].SaveSelection? && (calls[k].FailClosed? ==> r.FailedClosed? && hasRuntime && k == tick - 1)
      ensures r.FailedClosed? ==> |raised| > |old(raised)| && (hasRuntime ==> tick > 0 && calls[tick - 1].FailClosed?)
      ensures r.RolledBack? ==>
                && r.error == error && r.previousDefault == b.default && r.previousState == previousState
                && RestoredTo(b, r.live, r.previousState, old(tick)) && StateRestored(previousState, n)
      ensures QuietSince(old(tick)) && r.FailedClosed? ==> b.graphKey.Some?
    {
      hide AudioHost.Replayed, Chained, Restores, RestoreKey, AudioHost.DefaultBackAt, DraftAt, OnRecord;
      hide OwnDraftsSuperseded, NoOwnCommit;
      ghost var read;
      var rollbackError, graphError, live;
      rollbackError, graphError, live, read := RollBack(service, previousState, prepared, n, at, b);
      if rollbackError.Some? || graphError.Some? {
        ghost var before := calls;
        if hasRuntime {
          FailClosed();
        }
        assert forall k | 0 <= k < |before| :: calls[k] == before[k];
        return FailedClosed;
      }
      StillOnRecord(old(log), log, n, previousState);
      return RolledBack(error, b.default, live, previousState);
    }

    /** From the try block to the end. */
    method Carry(key: SinkKey, name: SinkKey, seedRouting: bool, rollbackOnFailure: bool, b: Before)
      returns (r: Outcome)
      requires Valid()
      modifies `tick, `calls, `defaultSink, `head, `log, `raised, `selection, `graph
      ensures Valid() && GoesOn() && !r.Refused?
      ensures raised == old(raised) <==> r.Committed? && r.report.Ok?
      ensures r.RolledBack? || r.LeftToCaller? ==> |raised| > |old(raised)| && r.error == raised[|old(raised)|].error
      ensures r.Committed? ==>
                && Switched(key, name, old(tick)) && |raised| <= |old(raised)| + 1
                && tick > 0 && calls[tick - 1].ReadOverview? && ErrorOf(r.report) == script(tick - 1).fault
      ensures !r.Committed? ==> NotSavedSince(old(tick))
      ensures forall k | old(tick) <= k < tick :: calls[k].FailClosed? ==>
                r.FailedClosed? && hasRuntime && k == tick - 1
      ensures r.FailedClosed? ==>
                && rollbackOnFailure && |raised| >= |old(raised)| + 2
                && (hasRuntime ==> tick > 0 && calls[tick - 1].FailClosed?)
      ensures r.RolledBack? ==>
                && rollbackOnFailure && r.previousDefault == b.default
                && RestoredTo(b, r.live, r.previousState, raised[|old(raised)|].after)
                && StateRestored(r.previousState, |old(log)|)
      ensures r.LeftToCaller? ==> !rollbackOnFailure
      ensures QuietSince(old(tick)) ==>
                && (r.Committed? <==> hasRuntime && !WrongGraphSince(old(tick), key))
                && (r.FailedClosed? ==> b.graphKey.Some?)
      ensures !seedRouting && GoesWell(old(tick), key) ==> r.Committed? && tick == old(tick) + 6
      ensures r.Committed? && seedRouting && RoutingDiffers(PreviousKey(b), key) ==>
                && old(tick) + 1 < tick && calls[old(tick) + 1] == Prepare
                && RoutingStored(log, |old(log)|, script(old(tick) + 1).candidate)
    {
      hide AudioHost.Replayed, Chained, Restores, RestoreKey, DraftAt, OnRecord, OwnDraftsSuperseded, NoOwnCommit;
      hide AudioHost.RestoredTo, AudioHost.StateRestored, SwitchIn, WrongGraphIn, RoutingStored;
      var error, service, previousState, prepared, at := Attempt(key, name, seedRouting, b);
      ghost var called, attempted := calls, log;
      if error.None? {
        r := Report(key, name, old(tick));
      } else if rollbackOnFailure {
        r := Undo(error.value, service, previousState, prepared, |old(log)|, at, b);
      } else {
        r := LeftToCaller(error.value);
      }
      assert forall k | 0 <= k < |called| :: calls[k] == called[k];
      WrongStays(script, called, calls, old(tick), key);
      if r.Committed? && seedRouting && RoutingDiffers(PreviousKey(b), key) {
        RoutingStays(attempted, log, |old(log)|, script(old(tick) + 1).candidate);
      }
    }

    /** The closing report after the commit. */
    method Report(key: SinkKey, name: SinkKey, ghost from: nat) returns (r: Outcome)
      requires Valid() && Switched(key, name, from)
      modifies `tick, `calls, `defaultSink, `head, `log, `raised
      ensures Valid() && GoesOn() && r.Committed? && Switched(key, name, from) && Reports(ErrorOf(r.report))
      ensures tick == old(tick) + 1 && calls == old(calls) + [Call.ReadOverview] &&
              ErrorOf(r.report) == script(old(tick)).fault
    {
      hide AudioHost.Replayed, Chained, SwitchIn;
      ghost var t: nat :| from <= t && SwitchedAt(t, key, name);
      var report := ReadOverview();
      StillSwitched(start, script, hasRuntime, old(calls), t, key, name);
      assert SwitchedAt(t, key, name);
      return Committed(report);
    }

    /** From call n on everything up to the closing report goes well. */
    ghost predicate StraightSwitch(key: SinkKey, n: nat)
      reads this`defaultSink
    {
      && (forall k: nat | n <= k < n + 4 :: Fine(k)) && defaultSink.Some? && script(n + 3).selected == Some(key)
      && GoesWell(n + 4, key)
    }

    lemma SwitchSaves(from: nat, key: SinkKey, name: SinkKey)
      requires Switched(key, name, from)
      ensures !NotSavedSince(from)
    {
      var t: nat :| from <= t && SwitchedAt(t, key, name);
      assert calls[t + 4].SaveSelection?;
    }

    /** What a rolled-back call has restored: what was there before the call, and what its first overview showed as the
        default, against the first inventory read since its exception. */
    twostate predicate Undone(r: Outcome, new captured: Option<Before>)
      requires r.RolledBack?
      reads this
    {
      && captured.Some? && r.previousDefault == captured.value.default && captured.value.bytes == old(selection)
      && captured.value.graphKey == (if hasRuntime then old(graph.key) else None)
      && old(tick) + 2 <= |calls| && Some(r.previousDefault) == DefaultAt(old(tick) + 2)
      && (UnmovedSince(old(tick)) ==> old(defaultSink) == Some(r.previousDefault))
      && |raised| > |old(raised)| && RestoredTo(captured.value, r.live, r.previousState, raised[|old(raised)|].after)
      && StateRestored(r.previousState, |old(log)|)
    }

    /** Everything behind the check of who may call. */
    method InspectAndCarry(key: SinkKey, name: SinkKey, seedRouting: bool, rollbackOnFailure: bool)
      returns (r: Outcome, ghost captured: Option<Before>)
      requires Valid()
      modifies `tick, `calls, `defaultSink, `head, `log, `raised, `selection, `graph
      ensures Valid() && GoesOn()
      ensures raised == old(raised) <==> r.Committed? && r.report.Ok?
      ensures r.Refused? || r.RolledBack? || r.LeftToCaller? ==>
                |raised| > |old(raised)| && r.error == raised[|old(raised)|].error
      ensures r.Refused? ==> selection == old(selection) && graph == old(graph) && OthersOnly()
      ensures r.Committed? ==>
                && Switched(key, name, old(tick) + 4) && |raised| <= |old(raised)| + 1
                && tick > 0 && calls[tick - 1].ReadOverview? && ErrorOf(r.report) == script(tick - 1).fault
      ensures r.Committed? <==> !NotSavedSince(old(tick))
      ensures r.RolledBack? ==> rollbackOnFailure && Undone(r, captured)
      ensures r.FailedClosed? ==>
                && rollbackOnFailure && |raised| >= |old(raised)| + 2
                && (hasRuntime ==> tick > 0 && calls[tick - 1].FailClosed?)
      ensures forall k | old(tick) <= k < tick :: calls[k].FailClosed? ==>
                r.FailedClosed? && hasRuntime && k == tick - 1
      ensures r.LeftToCaller? ==> !rollbackOnFailure
      ensures QuietSince(old(tick)) ==>
                && (r.Refused? <==> old(defaultSink).None? || script(old(tick) + 3).selected != Some(key))
                && (!r.Refused? ==> (r.Committed? <==> hasRuntime && !WrongGraphSince(old(tick), key)))
                && (r.FailedClosed? ==> hasRuntime && old(graph.key).Some?)
      ensures old(StraightSwitch(key, tick)) && !seedRouting && rollbackOnFailure ==>
                r.Committed? && ErrorOf(r.report) == script(old(tick) + 9).fault
      ensures r.Committed? && seedRouting ==>
                && captured.Some?
                && (RoutingDiffers(PreviousKey(captured.value), key) ==>
                      && old(tick) + 5 < tick && calls[old(tick) + 5] == Prepare
                      && RoutingStored(log, |old(log)|, script(old(tick) + 5).candidate))
    {
      hide AudioHost.Replayed, Chained, Restores, RestoreKey, SwitchIn, WrongGraphIn, AudioHost.NotSavedSince;
      hide AudioHost.RestoredTo;
      hide AudioHost.StateRestored, AudioHost.Switched, Replay, RoutingStored, AudioHost.PreviousKey;
      hide AudioHost.RoutingDiffers, OnlyEditors, AudioHost.GoesWell;
      var before := Inspect(key);
      if before.Raised? {
        NothingSaved(old(tick), key);
        return Refused(before.error), None;
      }
      captured := Some(before.value);
      ghost var inspected := calls;
      r := CarryInspected(key, name, seedRouting, rollbackOnFailure, before.value, old(tick), |old(log)|);
      DefaultStays(inspected, old(tick) + 2);
    }

    lemma DefaultStays(before: seq<Call>, n: nat)
      requires before <= calls && n <= |before|
      ensures DefaultAt(n) == Replay(start, script, hasRuntime, before[..n]).defaultSink
    {
      assert calls[..n] == before[..n];
    }

    /** The rest of the call, told as from its inspection at call `from`, when the log had n entries. */
    method CarryInspected(key: SinkKey, name: SinkKey, seedRouting: bool, rollbackOnFailure: bool, b: Before,
                          ghost from: nat, ghost n: nat) returns (r: Outcome)
      requires Valid() && from + 4 == tick && n <= |log| && OnlyEditors(log, n)
      requires forall k | from <= k < tick :: Passive(calls[k]) && !calls[k].SyncGraph?
      modifies `tick, `calls, `defaultSink, `head, `log, `raised, `selection, `graph
      ensures Valid() && GoesOn() && !r.Refused?
      ensures raised == old(raised) <==> r.Committed? && r.report.Ok?
      ensures r.RolledBack? || r.LeftToCaller? ==> |raised| > |old(raised)| && r.error == raised[|old(raised)|].error
      ensures r.Committed? ==>
                && Switched(key, name, from + 4) && |raised| <= |old(raised)| + 1
                && tick > 0 && calls[tick - 1].ReadOverview? && ErrorOf(r.report) == script(tick - 1).fault
      ensures r.Committed? <==> !NotSavedSince(from)
      ensures forall k | from <= k < tick :: calls[k].FailClosed? ==> r.FailedClosed? && hasRuntime && k == tick - 1
      ensures r.FailedClosed? ==>
                && rollbackOnFailure && |raised| >= |old(raised)| + 2
                && (hasRuntime ==> tick > 0 && calls[tick - 1].FailClosed?)
      ensures r.RolledBack? ==>
                && rollbackOnFailure && r.previousDefault == b.default
                && RestoredTo(b, r.live, r.previousState, raised[|old(raised)|].after)
                && StateRestored(r.previousState, n)
      ensures r.LeftToCaller? ==> !rollbackOnFailure
      ensures QuietSince(from) ==>
                && (r.Committed? <==> hasRuntime && !WrongGraphSince(from, key))
                && (r.FailedClosed? ==> b.graphKey.Some?)
      ensures !seedRouting && GoesWell(old(tick), key) ==> r.Committed? && tick == old(tick) + 6
      ensures r.Committed? && seedRouting && RoutingDiffers(PreviousKey(b), key) ==>
                && from + 5 < tick && calls[from + 5] == Prepare
                && RoutingStored(log, n, script(from + 5).candidate)
    {
      hide AudioHost.Replayed, Chained, Restores, RestoreKey, SwitchIn, WrongGraphIn, AudioHost.NotSavedSince;
      hide AudioHost.RestoredTo, AudioHost.StateRestored, AudioHost.Switched, RoutingStored;
      ghost var before, inspected := |log|, calls;
      r := Carry(key, name, seedRouting, rollbackOnFailure, b);
      AfterInspection(inspected, from, key);
      if r.Committed? {
        SwitchSaves(|inspected|, key, name);
        if seedRouting && RoutingDiffers(PreviousKey(b), key) {
          RebaseRouting(log, n, before, script(from + 5).candidate);
        }
      }
      if r.RolledBack? {
        RebaseState(n, before, r.previousState);
      }
    }

    /** _apply_audio_output_selection. `owned` says whether a delegated call holds the output gate and
        `name` is the sink that prepare_audio_output_selection resolved the key to. */
    method Apply(key: SinkKey, name: SinkKey, seedRouting: bool, rollbackOnFailure: bool, owned: bool)
      returns (r: Outcome, ghost captured: Option<Before>)
      requires Valid()
      modifies `tick, `calls, `defaultSink, `head, `log, `raised, `selection, `graph
      ensures Valid() && GoesOn()
      // Without an exception the switch commits; the caller of a failed one gets its first exception.
      ensures raised == old(raised) <==> r.Committed? && r.report.Ok?
      ensures r.Refused? || r.RolledBack? || r.LeftToCaller? ==>
                |raised| > |old(raised)| && r.error == raised[|old(raised)|].error
      ensures r.Refused? ==> selection == old(selection) && graph == old(graph) && OthersOnly()
      // After the commit only the closing report can still raise.
      ensures r.Committed? ==>
                && Switched(key, name, old(tick) + 4) && |raised| <= |old(raised)| + 1
                && tick > 0 && calls[tick - 1].ReadOverview? && ErrorOf(r.report) == script(tick - 1).fault
      // Exactly then a selection is saved, so an error is reported for a switch that stands exactly when the
      // closing report raised.
      ensures r.Committed? <==> !NotSavedSince(old(tick))
      ensures raised != old(raised) && !NotSavedSince(old(tick)) <==> r.Committed? && r.report.Raised?
      ensures r.RolledBack? ==> rollbackOnFailure && Undone(r, captured)
      // Failing closed takes a second exception, from the rollback, and is the last thing done.
      ensures r.FailedClosed? ==>
                && rollbackOnFailure && |raised| >= |old(raised)| + 2
                && (hasRuntime ==> tick > 0 && calls[tick - 1].FailClosed?)
      ensures forall k | old(tick) <= k < tick :: calls[k].FailClosed? ==>
                r.FailedClosed? && hasRuntime && k == tick - 1
      ensures r.LeftToCaller? ==> !rollbackOnFailure && owned
      // When no call raises and nobody else acts, the outcome is determined.
      ensures QuietSince(old(tick)) ==>
                && (r.Refused? <==> (!rollbackOnFailure && !owned) || old(defaultSink).None?
                                    || script(old(tick) + 3).selected != Some(key))
                && (!r.Refused? ==> (r.Committed? <==> hasRuntime && !WrongGraphSince(old(tick), key)))
                && (r.FailedClosed? ==> hasRuntime && old(graph.key).Some?)
      ensures old(StraightSwitch(key, tick)) && !seedRouting && rollbackOnFailure ==>
                r.Committed? && ErrorOf(r.report) == script(old(tick) + 9).fault
      // A device of another routing has its document by then.
      ensures r.Committed? && seedRouting ==>
                && captured.Some?
                && (RoutingDiffers(PreviousKey(captured.value), key) ==>
                      && old(tick) + 5 < tick && calls[old(tick) + 5] == Prepare
                      && RoutingStored(log, |old(log)|, script(old(tick) + 5).candidate))
    {
      hide AudioHost.Replayed, Chained, Restores, RestoreKey, WrongGraphIn, AudioHost.NotSavedSince;
      hide AudioHost.Undone, AudioHost.Switched, RoutingStored;
      if !rollbackOnFailure && !owned {
        var f := Fail();
        NothingSaved(old(tick), key);
        return Refused(f), None;
      }
      r, captured := InspectAndCarry(key, name, seedRouting, rollbackOnFailure);
    }

    /** The inspection neither saved nor synced, so it does not count, and the default it read stays on record. */
    lemma AfterInspection(inspected: seq<Call>, from: nat, key: SinkKey)
      requires inspected <= calls && from + 4 == |inspected|
      requires forall k | from <= k < |inspected| :: Passive(inspected[k]) && !inspected[k].SyncGraph?
      ensures NotSavedSince(from) <==> NotSavedSince(|inspected|)
      ensures WrongGraphSince(from, key) <==> WrongGraphSince(|inspected|, key)
      ensures DefaultAt(from + 2) == Replay(start, script, hasRuntime, inspected[..from + 2]).defaultSink
      ensures forall k | from <= k < |inspected| :: Passive(calls[k])
    {
      assert forall k | 0 <= k < |inspected| :: calls[k] == inspected[k];
      assert calls[..from + 2] == inspected[..from + 2];
    }

    lemma NothingSaved(from: nat, key: SinkKey)
      requires Valid() && from <= tick && forall k | from <= k < tick :: Passive(calls[k])
      ensures NotSavedSince(from)
    {
    }

    lemma RebaseState(m: nat, n: nat, state: Option<Doc>)
      requires m <= n <= |log| && OnlyEditors(log[..n], m) && StateRestored(state, n)
      ensures StateRestored(state, m)
    {
      RebaseRecord(log, m, n, state);
    }
  }

  const SPEAKERS := SinkKey("speakers", None, None)
  const HEADPHONES := SinkKey("headphones", None, None)

  /** Events on which a switch to the headphones goes well and only the tenth one, the closing report, raises. */
  function LateFailure(n: nat): Event {
    Event(None, None, if n == 9 then Some(Runtime(1)) else None, false, Graph(Some(HEADPHONES), true, true),
          [SPEAKERS, HEADPHONES], Some(HEADPHONES), "")
  }

  /** A call that reports an error although the switch it asked for has been made. */
  method SwitchedButReportedAsError() returns (host: AudioHost, r: Outcome)
    ensures r.Committed? && r.report.Raised? && host.raised != [] && host.Switched(HEADPHONES, HEADPHONES, 4)
  {
    host := new AudioHost((n: nat) => LateFailure(n), true, (k: SinkKey) => k.name, (k: SinkKey) => false, SPEAKERS,
                          Graph(Some(SPEAKERS), true, true), Doc(0, ""));
    assert host.StraightSwitch(HEADPHONES, 0);
    ghost var captured;
    r, captured := host.Apply(HEADPHONES, HEADPHONES, false, true, false);
  }

  lemma RoutingStays(log: seq<Commit>, later: seq<Commit>, n: nat, candidate: string)
    requires log <= later && RoutingStored(log, n, candidate)
    ensures RoutingStored(later, n, candidate)
  {
    var doc :| OnRecord(log, n - 1, doc) && StoredFrom(log, n, doc, candidate);
    assert OnRecord(later, n - 1, doc) by { StillOnRecord(log, later, n, Some(doc)); }
    if i :| n <= i < |log| && log[i] == Commit(Own, Doc(doc.revision + 1, candidate)) {
      assert later[i] == log[i];
    }
    assert StoredFrom(later, n, doc, candidate);
  }

  lemma RebaseRouting(log: seq<Commit>, m: nat, n: nat, candidate: string)
    requires m <= n <= |log| && OnlyEditors(log[..n], m) && RoutingStored(log, n, candidate)
    ensures RoutingStored(log, m, candidate)
  {
    var doc :| OnRecord(log, n - 1, doc) && StoredFrom(log, n, doc, candidate);
    RebaseRecord(log, m, n, Some(doc));
    assert StoredFrom(log, m, doc, candidate);
  }

  /** Facts about the log from entry n on are facts from the earlier entry m on, when others wrote between. */
  lemma RebaseRecord(log: seq<Commit>, m: nat, n: nat, state: Option<Doc>)
    requires m <= n <= |log| && OnlyEditors(log[..n], m)
    ensures NoOwnCommit(log, n) ==> NoOwnCommit(log, m)
    ensures forall content :: OwnDraftsSuperseded(log, n, content) ==> OwnDraftsSuperseded(log, m, content)
    ensures NoOwnCommit(log, m) ==> forall content :: OwnDraftsSuperseded(log, m, content)
    ensures state.Some? && OnRecord(log, n - 1, state.value) ==> OnRecord(log, m - 1, state.value)
  {
    assert forall i | m <= i < n :: log[i] == log[..n][i];
  }

  lemma StayDrafted(log: seq<Commit>, later: seq<Commit>, n: nat, prepared: Option<Doc>, at: nat, state: Option<Doc>)
    requires n <= |log| && log <= later && OnlyEditors(later, |log|) && DraftAt(log, n, prepared, at)
    ensures DraftAt(later, n, prepared, at)
    ensures state.Some? && OnRecord(log, n - 1, state.value) ==> OnRecord(later, n - 1, state.value)
  {
    if state.Some? && OnRecord(log, n - 1, state.value) {
      var i :| 0 <= i < |log| && n - 1 <= i && log[i].doc == state.value;
      assert later[i].doc == state.value;
    }
  }

  lemma StillOnRecord(log: seq<Commit>, later: seq<Commit>, n: nat, state: Option<Doc>)
    requires log <= later && (state.Some? ==> OnRecord(log, n - 1, state.value))
    ensures state.Some? ==> OnRecord(later, n - 1, state.value)
    ensures NoOwnCommit(later, n) ==> forall content :: OwnDraftsSuperseded(later, n, content)
  {
    if state.Some? {
      var i :| 0 <= i < |log| && n - 1 <= i && log[i].doc == state.value;
      assert later[i].doc == state.value;
    }
  }

  lemma StaySuperseded(log: seq<Commit>, later: seq<Commit>, n: nat, previous: string)
    requires n <= |log| && log <= later && OnlyEditors(later, |log|)
    ensures OwnDraftsSuperseded(log, n, previous) ==> OwnDraftsSuperseded(later, n, previous)
    ensures NoOwnCommit(log, n) ==> NoOwnCommit(later, n)
  {
  }
}
