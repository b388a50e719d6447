/**
 Provider artist to canonical artist: the stored row, the upsert, and one
 resolution of it. An empty string stands for NULL where the code treats both
 alike. Every run below is a sequence of calls for one provider artist; the
 matcher's answers, the clock and the callers' arguments are arbitrary.
 */
module ProviderMapping {
  import opened Wrappers

  const MATCHER_VERSION: nat := 1
  const FETCH_COOLDOWN_SECONDS := 604800.0
  const TRANSIENT_ERROR_RETRY_SECONDS := 3600.0

  datatype MatchState = Matched | Ambiguous | Unmatched | Failed | NoState

  /** A stored time: absent, unreadable, or whole seconds. */
  datatype Stamp = NoStamp | Unreadable | At(seconds: int)

  datatype Row = Row(name: string, artUrl: string, mbid: string, canonicalName: Option<string>, state: MatchState,
                     attempted: Stamp, matched: Stamp, error: string, version: nat)

  /** The matcher's answer: found with a non-empty identity, declined by a completed run, or failed. */
  datatype Outcome = Found(mbid: string, canonicalName: string) | Declined(ambiguous: bool) | Failure(reason: string)

  /** `outcome` is what the matcher answers if this call runs it; `finished` is the clock after that. */
  datatype Call = Call(name: string, artUrl: string, force: bool, now: real, finished: int, outcome: Outcome)

  predicate Answers(c: Call) { c.outcome.Found? ==> c.outcome.mbid != "" }

  predicate IsMapped(row: Option<Row>) { row.Some? && row.value.mbid != "" && row.value.state == Matched }

  function Version(row: Option<Row>): nat { if row.Some? then row.value.version else 0 }

  function StateOf(o: Outcome): MatchState {
    match o
    case Found(_, _) => Matched
    case Declined(ambiguous) => if ambiguous then Ambiguous else Unmatched
    case Failure(_) => Failed
  }

  function ErrorOf(o: Outcome): string {
    match o
    case Found(_, _) => ""
    case Declined(ambiguous) => if ambiguous then "ambiguous MusicBrainz match" else "no safe MusicBrainz match"
    case Failure(reason) => reason
  }

  function Or(text: string, fallback: string): string { if text != "" then text else fallback }
  function OrAt(stamp: Stamp, now: int): Stamp { if stamp == NoStamp then At(now) else stamp }

  /** INSERT … ON CONFLICT DO UPDATE: art, canonical name and match time survive an update without them. */
  function Upsert(row: Option<Row>, update: Row): Row {
    if row.None? then update
    else update.(artUrl := Or(update.artUrl, row.value.artUrl),
              canonicalName := if update.canonicalName.Some? then update.canonicalName else row.value.canonicalName,
              matched := if update.matched != NoStamp then update.matched else row.value.matched)
  }

  datatype Decision = Hit | Cooling | Ask

  /** Whether this call may ask the matcher, judged from the row it read. */
  function Decide(row: Option<Row>, c: Call): Decision {
    if IsMapped(row) then
      if !c.force && row.value.version >= MATCHER_VERSION then Hit
      else if !c.force && row.value.attempted.At? && row.value.error != ""
              && c.now - row.value.attempted.seconds as real < TRANSIENT_ERROR_RETRY_SECONDS then Cooling
      else Ask
    else if row.Some? && row.value.attempted != NoStamp then
      var since := if row.value.attempted.At? then row.value.attempted.seconds else 0;
      var cooldown :=
        if row.value.state in {Ambiguous, Unmatched} then FETCH_COOLDOWN_SECONDS else TRANSIENT_ERROR_RETRY_SECONDS;
      if c.now - since as real < cooldown then Cooling else Ask
    else Ask
  }

  /** What the call writes after asking, given the row it had read before. */
  function Verdict(read: Option<Row>, c: Call): Row {
    var now, o := At(c.finished), c.outcome;
    if IsMapped(read) then
      var row := read.value;
      if o.Found? then Row(c.name, c.artUrl, o.mbid, Some(o.canonicalName), Matched, now, now, "", MATCHER_VERSION)
      else Row(Or(row.name, c.name), Or(row.artUrl, c.artUrl), row.mbid, row.canonicalName, Matched, now,
               OrAt(row.matched, c.finished), Or(ErrorOf(o), "rematch declined"),
               if o.Declined? then MATCHER_VERSION else row.version)
    else if o.Found? then Row(c.name, c.artUrl, o.mbid, Some(o.canonicalName), Matched, now, now, "", MATCHER_VERSION)
    else Row(c.name, c.artUrl, "", None, StateOf(o), now, NoStamp, ErrorOf(o), 0)
  }

  /** A hit refreshes the stored art, and with it the whole row. */
  function Refreshed(row: Row, c: Call): Row {
    Row(Or(row.name, c.name), c.artUrl, row.mbid, row.canonicalName, Matched, OrAt(row.attempted, c.finished),
        OrAt(row.matched, c.finished), "", MATCHER_VERSION)
  }

  /** One call that nothing interleaves with. */
  function After(row: Option<Row>, c: Call): Option<Row> {
    match Decide(row, c)
    case Hit => if c.artUrl != "" then Some(Upsert(row, Refreshed(row.value, c))) else row
    case Cooling => row
    case Ask => Some(Upsert(row, Verdict(row, c)))
  }

  function RunCalls(row: Option<Row>, calls: seq<Call>): Option<Row> {
    if calls == [] then row else After(RunCalls(row, calls[..|calls| - 1]), calls[|calls| - 1])
  }

  ghost predicate AllAnswer(calls: seq<Call>) { forall c | c in calls :: Answers(c) }

  /** Call k of the run asked the matcher. */
  predicate Asked(row: Option<Row>, calls: seq<Call>, k: nat)
    requires k < |calls|
  {
    Decide(RunCalls(row, calls[..k]), calls[k]) == Ask
  }

  // ---------- a mapping is never lost ----------

  /** The identity the run's last successful matcher run found, or `kept` when there was none. */
  function LastFound(row: Option<Row>, calls: seq<Call>, kept: string): string {
    if calls == [] then kept
    else if Asked(row, calls, |calls| - 1) && calls[|calls| - 1].outcome.Found? then calls[|calls| - 1].outcome.mbid
    else LastFound(row, calls[..|calls| - 1], kept)
  }

  /** Starting from any row: mapped afterwards exactly when it was mapped or some run found one, and
      then to the identity found last. */
  lemma {:induction false} MappingIsTheLastFound(row: Option<Row>, calls: seq<Call>)
    requires AllAnswer(calls)
    ensures var kept := if IsMapped(row) then row.value.mbid else "";
            && (IsMapped(RunCalls(row, calls)) <==> LastFound(row, calls, kept) != "")
            && (IsMapped(RunCalls(row, calls)) ==> RunCalls(row, calls).value.mbid == LastFound(row, calls, kept))
  {
    if calls != [] {
      var before := calls[..|calls| - 1];
      assert calls[|calls| - 1] in calls;
      MappingIsTheLastFound(row, before);
      OneCallMapping(RunCalls(row, before), calls[|calls| - 1]);
    }
  }

  lemma OneCallMapping(row: Option<Row>, c: Call)
    requires Answers(c)
    ensures Decide(row, c) == Ask && c.outcome.Found? ==>
              IsMapped(After(row, c)) && After(row, c).value.mbid == c.outcome.mbid
    ensures !(Decide(row, c) == Ask && c.outcome.Found?) ==>
              && (IsMapped(After(row, c)) <==> IsMapped(row))
              && (IsMapped(row) ==> After(row, c).value.mbid == row.value.mbid)
  {
  }

  /** What a row has once learned about art, name and match time it keeps. */
  lemma NothingForgotten(row: Option<Row>, c: Call)
    requires row.Some?
    ensures var r := After(row, c);
            && r.Some?
            && (row.value.artUrl != "" ==> r.value.artUrl != "")
            && (row.value.canonicalName.Some? ==> r.value.canonicalName.Some?)
            && (row.value.matched != NoStamp ==> r.value.matched != NoStamp)
  {
  }

  // ---------- the matcher version ----------

  /** No call sequence from this row ever stores a lower version than it started with. */
  ghost predicate VersionNeverDecreases(row: Option<Row>) {
    forall calls | AllAnswer(calls) :: Version(RunCalls(row, calls)) >= Version(row)
  }

  /** What rows written by this code satisfy. */
  predicate Stamped(row: Option<Row>) {
    if IsMapped(row) then row.value.version <= MATCHER_VERSION else Version(row) == 0
  }

  lemma OneCallVersion(row: Option<Row>, c: Call)
    requires Stamped(row) && Answers(c)
    ensures Stamped(After(row, c)) && Version(After(row, c)) >= Version(row)
  {
  }

  lemma {:induction false} RunStamped(row: Option<Row>, calls: seq<Call>)
    requires Stamped(row) && AllAnswer(calls)
    ensures Stamped(RunCalls(row, calls)) && Version(RunCalls(row, calls)) >= Version(row)
  {
    if calls != [] {
      assert calls[|calls| - 1] in calls;
      RunStamped(row, calls[..|calls| - 1]);
      OneCallVersion(RunCalls(row, calls[..|calls| - 1]), calls[|calls| - 1]);
    }
  }

  /** A call long after the stored attempt that lowers the version of a row no call here could have written. */
  function LoweringCall(row: Row): Call {
    var since := if row.attempted.At? then row.attempted.seconds else 0;
    Call("", "art", false, since as real + FETCH_COOLDOWN_SECONDS, since, Failure("offline"))
  }

  /** The version only ever grows exactly when the row is empty of it or at most the current matcher's:
      a mapping stamped by a newer matcher is lowered by the next call that carries art. */
  lemma VersionsOnlyGrow(row: Option<Row>)
    ensures VersionNeverDecreases(row) <==> Stamped(row)
  {
    hide RunCalls, After, AllAnswer;
    if Stamped(row) {
      forall calls | AllAnswer(calls) ensures Version(RunCalls(row, calls)) >= Version(row) {
        RunStamped(row, calls);
      }
    } else {
      LoweredBy(row);
      assert AllAnswer([LoweringCall(row.value)]) && Version(RunCalls(row, [LoweringCall(row.value)])) < Version(row);
    }
  }

  lemma LoweredBy(row: Option<Row>)
    requires !Stamped(row)
    ensures row.Some? && AllAnswer([LoweringCall(row.value)])
    ensures Version(RunCalls(row, [LoweringCall(row.value)])) < Version(row)
  {
    var c := LoweringCall(row.value);
    assert [c][..0] == [] && RunCalls(row, [c]) == After(RunCalls(row, []), c);
  }

  /** A failed matcher run never raises the version. */
  lemma FailureNeverRaises(row: Option<Row>, c: Call)
    requires Decide(row, c) == Ask && c.outcome.Failure?
    ensures Version(After(row, c)) <= Version(row)
    ensures IsMapped(row) ==> Version(After(row, c)) == Version(row)
  {
  }

  // ---------- the cooldown ----------

  /** The row as an unsuccessful run of call c leaves it, until the next run: still unmapped and with its verdict,
      still mapped and stamped by the current matcher, or mapped with the failure noted. */
  predicate Carries(row: Option<Row>, c: Call, mapped: bool, current: bool) {
    && row.Some? && (IsMapped(row) <==> mapped)
    && (!mapped ==> row.value.attempted == At(c.finished) && row.value.state == StateOf(c.outcome))
    && (mapped ==> (row.value.version >= MATCHER_VERSION <==> current)
                   && (!current ==> row.value.attempted == At(c.finished) && row.value.error != ""))
  }

  /** The row is stamped by the current matcher once the run of call c is over. */
  predicate StampedBy(row: Option<Row>, c: Call) { c.outcome.Declined? || Version(row) >= MATCHER_VERSION }

  lemma UnsuccessfulCarries(row: Option<Row>, c: Call)
    requires Decide(row, c) == Ask && !c.outcome.Found?
    ensures Carries(After(row, c), c, IsMapped(row), StampedBy(row, c))
  {
  }

  lemma WaitingCarries(row: Option<Row>, c: Call, d: Call, mapped: bool, current: bool)
    requires Carries(row, c, mapped, current) && Decide(row, d) != Ask
    ensures Carries(After(row, d), c, mapped, current)
  {
  }

  lemma {:induction false} StillCarries(row: Option<Row>, calls: seq<Call>, i: nat, j: nat)
    requires i < j <= |calls| && Asked(row, calls, i) && !calls[i].outcome.Found?
    requires forall k | i < k < j :: !Asked(row, calls, k)
    ensures var before := RunCalls(row, calls[..i]);
            Carries(RunCalls(row, calls[..j]), calls[i], IsMapped(before), StampedBy(before, calls[i]))
    decreases j
  {
    hide After, Decide, Carries, StampedBy, IsMapped;
    assert calls[..j][..j - 1] == calls[..j - 1];
    var before := RunCalls(row, calls[..i]);
    if j == i + 1 {
      UnsuccessfulCarries(before, calls[i]);
    } else {
      StillCarries(row, calls, i, j - 1);
      assert !Asked(row, calls, j - 1);
      WaitingCarries(RunCalls(row, calls[..j - 1]), calls[i], calls[j - 1], IsMapped(before),
                     StampedBy(before, calls[i]));
    }
  }

  /** After an unsuccessful run the next one is made exactly when it is due: without a mapping after a week, or an
      hour after a failure; with one when it is forced, or an hour after a failure of a run that was to replace
      an older matcher's mapping. */
  lemma NextRunIsMadeWhenDue(row: Option<Row>, calls: seq<Call>, i: nat, j: nat)
    requires i < j < |calls| && Asked(row, calls, i) && !calls[i].outcome.Found?
    requires forall k | i < k < j :: !Asked(row, calls, k)
    ensures var before, since := RunCalls(row, calls[..i]), calls[j].now - calls[i].finished as real;
            && (!IsMapped(before) ==>
                  (Asked(row, calls, j) <==> since >= if calls[i].outcome.Declined? then 604800.0 else 3600.0))
            && (IsMapped(before) ==>
                  (Asked(row, calls, j) <==>
                     calls[j].force || (calls[i].outcome.Failure? && before.value.version < 1 && since >= 3600.0)))
  {
    StillCarries(row, calls, i, j);
    hide RunCalls;
  }

  function CooldownAfter(o: Outcome): real {
    if o.Declined? then FETCH_COOLDOWN_SECONDS else TRANSIENT_ERROR_RETRY_SECONDS
  }

  /** The next unforced matcher run after an unsuccessful one waits out that one's cooldown. */
  lemma NoEarlyRun(row: Option<Row>, calls: seq<Call>, i: nat, j: nat)
    requires i < j < |calls| && Asked(row, calls, i) && Asked(row, calls, j)
    requires forall k | i < k < j :: !Asked(row, calls, k)
    requires !calls[i].outcome.Found? && !calls[j].force
    ensures calls[j].now - calls[i].finished as real >= CooldownAfter(calls[i].outcome)
  {
    NextRunIsMadeWhenDue(row, calls, i, j);
  }

  /** Nothing keeps the first run waiting, nor a forced one of a mapping, nor the replacement of an older
      matcher's mapping that has not failed. */
  lemma NothingToWaitFor(row: Option<Row>, c: Call)
    ensures !IsMapped(row) && (row.Some? ==> row.value.attempted == NoStamp) ==> Decide(row, c) == Ask
    ensures IsMapped(row) && (c.force || (row.value.version < 1 && row.value.error == "")) ==> Decide(row, c) == Ask
    ensures IsMapped(row) && !c.force && row.value.version >= 1 ==> Decide(row, c) != Ask
  {
  }

  // ---------- what a run stores ----------

  /** A run that found an identity is stored as just matched; art it did not bring is kept. */
  lemma FoundIsStored(row: Option<Row>, c: Call)
    requires Decide(row, c) == Ask && c.outcome.Found?
    ensures var r := After(row, c);
            && r.Some? && r.value.mbid == c.outcome.mbid && r.value.canonicalName == Some(c.outcome.canonicalName)
            && r.value.state == Matched && r.value.error == "" && r.value.version == 1 && r.value.name == c.name
            && r.value.attempted == At(c.finished) == r.value.matched
            && r.value.artUrl == (if c.artUrl == "" && row.Some? then row.value.artUrl else c.artUrl)
  {
  }

  /** A current mapping takes new art and is stamped anew; without art nothing is written. */
  lemma HitRefreshesArt(row: Option<Row>, c: Call)
    requires Decide(row, c) == Hit
    ensures c.artUrl == "" ==> After(row, c) == row
    ensures c.artUrl != "" ==>
              var r := After(row, c);
              && r.Some? && r.value.artUrl == c.artUrl && r.value.mbid == row.value.mbid && r.value.state == Matched
              && r.value.canonicalName == row.value.canonicalName && r.value.error == "" && r.value.version == 1
              && (row.value.name != "" ==> r.value.name == row.value.name)
              && (row.value.attempted != NoStamp ==> r.value.attempted == row.value.attempted)
              && (row.value.matched != NoStamp ==> r.value.matched == row.value.matched)
  {
  }

  /** A run that found nothing leaves a mapping as it is, notes the attempt and its error, and stamps it only if it
      was completed. */
  lemma MappingOutlivesItsRun(row: Option<Row>, c: Call)
    requires Decide(row, c) == Ask && !c.outcome.Found? && IsMapped(row)
    ensures var r := After(row, c);
            && r.Some? && r.value.mbid == row.value.mbid && r.value.canonicalName == row.value.canonicalName
            && r.value.state == Matched && r.value.attempted == At(c.finished) && r.value.error != ""
            && r.value.version == (if c.outcome.Declined? then 1 else row.value.version)
            && (row.value.name != "" ==> r.value.name == row.value.name)
            && (row.value.artUrl != "" ==> r.value.artUrl == row.value.artUrl)
            && (row.value.matched != NoStamp ==> r.value.matched == row.value.matched)
  {
  }

  /** Without a mapping it stores the verdict alone, and what the row had learned before. */
  lemma VerdictIsStored(row: Option<Row>, c: Call)
    requires Decide(row, c) == Ask && !c.outcome.Found? && !IsMapped(row)
    ensures var r := After(row, c);
            && r.Some? && r.value.mbid == "" && r.value.version == 0 && r.value.attempted == At(c.finished)
            && r.value.name == c.name
            && r.value.state == (if c.outcome.Failure? then Failed
                                 else if c.outcome.ambiguous then Ambiguous else Unmatched)
            && (c.outcome.Failure? ==> r.value.error == c.outcome.reason)
            && r.value.canonicalName == (if row.Some? then row.value.canonicalName else None)
            && r.value.matched == (if row.Some? then row.value.matched else NoStamp)
            && r.value.artUrl == (if c.artUrl == "" && row.Some? then row.value.artUrl else c.artUrl)
  {
  }

  // ---------- calls that overlap ----------

  /** What a call that read `read` writes when the stored row may already be another. */
  function Written(stored: Option<Row>, read: Option<Row>, c: Call): Option<Row> {
    match Decide(read, c)
    case Hit => if c.artUrl != "" then Some(Upsert(stored, Refreshed(read.value, c))) else stored
    case Cooling => stored
    case Ask => Some(Upsert(stored, Verdict(read, c)))
  }

  function Identity(row: Option<Row>): string { if IsMapped(row) then row.value.mbid else "" }

  predicate Finds(read: Option<Row>, c: Call) { Decide(read, c) == Ask && c.outcome.Found? }

  predicate Writes(read: Option<Row>, c: Call) { Decide(read, c) == Ask || (Decide(read, c) == Hit && c.artUrl != "") }

  /** A write that found nothing puts back the identity its call had read, also when it only refreshes the art. */
  lemma WrittenIdentity(stored: Option<Row>, read: Option<Row>, c: Call)
    requires Answers(c)
    ensures Identity(Written(stored, read, c)) ==
              if Finds(read, c) then c.outcome.mbid else if Writes(read, c) then Identity(read) else Identity(stored)
    ensures Written(read, read, c) == After(read, c)
  {
  }

  datatype Pending = Pending(read: Option<Row>, call: Call)

  /** One artist's row and the calls that have read it and not yet written. */
  datatype World = World(row: Option<Row>, pending: map<nat, Pending>)

  datatype Event = Read(id: nat, call: Call) | Write(id: nat)

  /** One step of one call; between its read and its write it asks the matcher. */
  function Next(w: World, e: Event): World {
    match e
    case Read(id, call) => if id in w.pending then w else w.(pending := w.pending[id := Pending(w.row, call)])
    case Write(id) =>
      if id !in w.pending then w
      else World(Written(w.row, w.pending[id].read, w.pending[id].call), w.pending - {id})
  }

  function RunEvents(row: Option<Row>, events: seq<Event>): World {
    if events == [] then World(row, map[]) else Next(RunEvents(row, events[..|events| - 1]), events[|events| - 1])
  }

  ghost predicate EventsAnswer(events: seq<Event>) { forall e | e in events && e.Read? :: Answers(e.call) }

  /** The identity found by the last write that found one, or the first row's. */
  function FoundLast(row: Option<Row>, events: seq<Event>): string {
    if events == [] then Identity(row)
    else
      var w, e := RunEvents(row, events[..|events| - 1]), events[|events| - 1];
      if e.Write? && e.id in w.pending && Finds(w.pending[e.id].read, w.pending[e.id].call) then
        w.pending[e.id].call.outcome.mbid
      else FoundLast(row, events[..|events| - 1])
  }

  /** A write that found nothing, by a call whose read identity is no longer the stored one. */
  predicate Stale(w: World, e: Event) {
    && e.Write? && e.id in w.pending
    && var p := w.pending[e.id];
       Writes(p.read, p.call) && !Finds(p.read, p.call) && Identity(p.read) != Identity(w.row)
  }

  ghost predicate NeverStale(row: Option<Row>, events: seq<Event>) {
    forall k | 0 <= k < |events| :: !Stale(RunEvents(row, events[..k]), events[k])
  }

  predicate HoldsFoundLast(row: Option<Row>, events: seq<Event>) {
    Identity(RunEvents(row, events).row) == FoundLast(row, events)
  }

  ghost predicate AlwaysFoundLast(row: Option<Row>, events: seq<Event>) {
    forall k | 0 <= k <= |events| :: HoldsFoundLast(row, events[..k])
  }

  lemma {:induction false} PendingAnswers(row: Option<Row>, events: seq<Event>)
    requires EventsAnswer(events)
    ensures forall id | id in RunEvents(row, events).pending :: Answers(RunEvents(row, events).pending[id].call)
  {
    if events != [] {
      assert events[|events| - 1] in events;
      PendingAnswers(row, events[..|events| - 1]);
    }
  }

  lemma OneEvent(row: Option<Row>, events: seq<Event>, k: nat)
    requires k < |events| && EventsAnswer(events)
    requires HoldsFoundLast(row, events[..k])
    ensures HoldsFoundLast(row, events[..k + 1]) <==> !Stale(RunEvents(row, events[..k]), events[k])
  {
    assert events[..k + 1][..k] == events[..k];
    PendingAnswers(row, events[..k]);
    var w, e := RunEvents(row, events[..k]), events[k];
    if e.Write? && e.id in w.pending {
      WrittenIdentity(w.row, w.pending[e.id].read, w.pending[e.id].call);
      hide Written, Decide;
    }
  }

  /** Over any interleaving of reads and writes of any number of calls, art refreshes included: the stored
      identity always is the one found last exactly when no call that found nothing writes a stale read. */
  lemma {:induction false} IdentitySurvivesUnlessStale(row: Option<Row>, events: seq<Event>)
    requires EventsAnswer(events)
    ensures AlwaysFoundLast(row, events) <==> NeverStale(row, events)
  {
    hide RunEvents, HoldsFoundLast, Stale, EventsAnswer;
    if NeverStale(row, events) {
      forall k | 0 <= k <= |events| ensures HoldsFoundLast(row, events[..k]) {
        FreshSoFar(row, events, k);
      }
    }
    if AlwaysFoundLast(row, events) {
      forall k | 0 <= k < |events| ensures !Stale(RunEvents(row, events[..k]), events[k]) {
        assert HoldsFoundLast(row, events[..k]);
        OneEvent(row, events, k);
      }
    }
  }

  lemma {:induction false} FreshSoFar(row: Option<Row>, events: seq<Event>, n: nat)
    requires EventsAnswer(events) && NeverStale(row, events) && n <= |events|
    ensures HoldsFoundLast(row, events[..n])
  {
    if n > 0 {
      hide RunEvents, HoldsFoundLast, Stale, EventsAnswer;
      FreshSoFar(row, events, n - 1);
      OneEvent(row, events, n - 1);
    } else {
      assert events[..0] == [];
    }
  }

  /** No two calls overlap: each write comes right after its call's read. */
  ghost predicate OneAtATime(events: seq<Event>) {
    forall k | 0 <= k < |events| && events[k].Write? :: k > 0 && events[k - 1].Read? && events[k - 1].id == events[k].id
  }

  /** What a caller can see to: calls that do not overlap never write a stale read. */
  lemma OneAtATimeIsNeverStale(row: Option<Row>, events: seq<Event>)
    requires OneAtATime(events) && DistinctReads(events)
    ensures NeverStale(row, events)
  {
    hide RunEvents, OneAtATime, DistinctReads, Identity, Writes, Finds;
    forall k | 0 <= k < |events| ensures !Stale(RunEvents(row, events[..k]), events[k]) {
      if events[k].Write? { ReadJustBefore(row, events, k); }
    }
  }

  /** A call that writes has read the row as it still is. */
  lemma ReadJustBefore(row: Option<Row>, events: seq<Event>, k: nat)
    requires OneAtATime(events) && DistinctReads(events) && k < |events| && events[k].Write?
    ensures var w := RunEvents(row, events[..k]); events[k].id in w.pending && w.pending[events[k].id].read == w.row
  {
    assert events[..k][..k - 1] == events[..k - 1] && events[..k][k - 1] == events[k - 1];
    NotYetPending(row, events, k - 1, k - 1);
    hide Decide, Written;
  }

  /** Every call reads once. */
  ghost predicate DistinctReads(events: seq<Event>) {
    forall i, j | 0 <= i < j < |events| && events[i].Read? && events[j].Read? :: events[i].id != events[j].id
  }

  lemma {:induction false} NotYetPending(row: Option<Row>, events: seq<Event>, n: nat, at: nat)
    requires n <= at < |events| && events[at].Read? && DistinctReads(events)
    ensures events[at].id !in RunEvents(row, events[..n]).pending
  {
    if n > 0 {
      assert events[..n][..n - 1] == events[..n - 1];
      NotYetPending(row, events, n - 1, at);
      hide Written;
    }
  }

  // ---------- the version when calls overlap ----------

  /** The write stamps the current version: a found identity, or a verdict on a mapped row. */
  predicate Stamps(read: Option<Row>, c: Call) { c.outcome.Found? || (IsMapped(read) && c.outcome.Declined?) }

  /** A write that does not stamp and whose call read a lower version than is stored by now. */
  predicate Lowers(w: World, e: Event) {
    && e.Write? && e.id in w.pending
    && var p := w.pending[e.id];
       Decide(p.read, p.call) == Ask && !Stamps(p.read, p.call) && Version(p.read) < Version(w.row)
  }

  ghost predicate AllStamped(w: World) {
    Stamped(w.row) && forall id | id in w.pending :: Stamped(w.pending[id].read) && Answers(w.pending[id].call)
  }

  lemma WrittenVersion(stored: Option<Row>, read: Option<Row>, c: Call)
    requires Stamped(stored) && Stamped(read) && Answers(c)
    ensures Stamped(Written(stored, read, c))
    ensures Version(Written(stored, read, c)) < Version(stored) <==>
              Decide(read, c) == Ask && !Stamps(read, c) && Version(read) < Version(stored)
  {
  }

  lemma OneEventVersion(w: World, e: Event)
    requires AllStamped(w) && (e.Read? ==> Answers(e.call))
    ensures AllStamped(Next(w, e)) && (Version(Next(w, e).row) < Version(w.row) <==> Lowers(w, e))
  {
    if e.Write? && e.id in w.pending {
      WrittenVersion(w.row, w.pending[e.id].read, w.pending[e.id].call);
    }
    hide Written, Decide, Stamped, IsMapped, Answers;
  }

  lemma {:induction false} RunAllStamped(row: Option<Row>, events: seq<Event>)
    requires Stamped(row) && EventsAnswer(events)
    ensures AllStamped(RunEvents(row, events))
  {
    if events != [] {
      hide Next, AllStamped;
      assert events[|events| - 1] in events;
      RunAllStamped(row, events[..|events| - 1]);
      OneEventVersion(RunEvents(row, events[..|events| - 1]), events[|events| - 1]);
    } else {
      assert RunEvents(row, events) == World(row, map[]);
    }
  }

  /** Over any interleaving of calls, from a row this matcher could have written: the k-th step lowers the version
      exactly when it is such a write. */
  lemma VersionFallsOnlyByStaleWrites(row: Option<Row>, events: seq<Event>, k: nat)
    requires Stamped(row) && EventsAnswer(events) && k < |events|
    ensures Version(RunEvents(row, events[..k + 1]).row) < Version(RunEvents(row, events[..k]).row)
            <==> Lowers(RunEvents(row, events[..k]), events[k])
  {
    assert events[..k + 1][..k] == events[..k] && events[k] in events;
    RunAllStamped(row, events[..k]);
    hide Next, AllStamped, Lowers;
    OneEventVersion(RunEvents(row, events[..k]), events[k]);
  }

  /** And calls that do not overlap never make one. */
  lemma OneAtATimeNeverLowers(row: Option<Row>, events: seq<Event>, k: nat)
    requires OneAtATime(events) && DistinctReads(events) && k < |events|
    ensures !Lowers(RunEvents(row, events[..k]), events[k])
  {
    hide RunEvents, OneAtATime, DistinctReads, Decide, Stamps;
    if events[k].Write? { ReadJustBefore(row, events, k); }
  }

  const FINDER := Call("Air", "", false, 0.0, 0, Found("cb67438a", "Air"))
  const LATECOMER := Call("Air", "", false, 0.0, 1, Failure("timeout"))

  const OVERLAP := [Read(0, FINDER), Read(1, LATECOMER), Write(0), Write(1)]

  /** Two first calls at once: the matcher fails for the one that writes last, and the found mapping is
      gone; the same two calls one after the other keep it. */
  lemma OverlapLosesMapping()
    ensures Decide(None, FINDER) == Ask && Decide(None, LATECOMER) == Ask
    ensures IsMapped(RunEvents(None, OVERLAP[..3]).row) && !IsMapped(RunEvents(None, OVERLAP).row)
    ensures Lowers(RunEvents(None, OVERLAP[..3]), OVERLAP[3])
    ensures IsMapped(RunCalls(None, [FINDER, LATECOMER]))
  {
    assert [FINDER, LATECOMER][..1] == [FINDER] && [FINDER][..0] == [];
    assert RunCalls(None, [FINDER]) == After(RunCalls(None, []), FINDER);
    FourEvents(None, OVERLAP);
  }

  const OLD_ROW := Row("Air", "", "a", Some("Air"), Matched, At(0), At(0), "", MATCHER_VERSION)
  const VISITOR := Call("Air", "art", false, 0.0, 1, Failure(""))
  const CORRECTOR := Call("Air", "", true, 0.0, 1, Found("b", "Air"))
  const REFRESH := [Read(0, VISITOR), Read(1, CORRECTOR), Write(1), Write(0)]

  /** A visit that only refreshes the art puts the old identity back after a forced rematch has corrected it. */
  lemma RefreshPutsBackOldIdentity()
    ensures Decide(Some(OLD_ROW), VISITOR) == Hit
    ensures Identity(RunEvents(Some(OLD_ROW), REFRESH[..3]).row) == "b"
    ensures Identity(RunEvents(Some(OLD_ROW), REFRESH).row) == "a"
  {
    FourEvents(Some(OLD_ROW), REFRESH);
  }

  lemma FourEvents(row: Option<Row>, events: seq<Event>)
    requires |events| == 4
    ensures RunEvents(row, events[..3]) == Next(Next(Next(World(row, map[]), events[0]), events[1]), events[2])
    ensures RunEvents(row, events) == Next(RunEvents(row, events[..3]), events[3])
  {
    hide Next;
    assert events[..1][..0] == [] && events[..2][..1] == events[..1] && events[..3][..2] == events[..2];
    assert RunEvents(row, events[..1]) == Next(World(row, map[]), events[0]);
    assert RunEvents(row, events[..2]) == Next(RunEvents(row, events[..1]), events[1]);
    assert RunEvents(row, events[..3]) == Next(RunEvents(row, events[..2]), events[2]);
  }

  // ---------- the service ----------

  type Key = (string, string)

  datatype Answer = Answer(state: MatchState, mbid: string, canonicalName: Option<string>, cached: bool, error: string)

  class EnrichmentService {
    var rows: map<Key, Row>

    constructor ()
      ensures rows == map[]
    {
      rows := map[];
    }

    function Stored(key: Key): Option<Row>
      reads this
    {
      if key in rows then Some(rows[key]) else None
    }

    /** SQLite's upsert on the row's primary key. */
    method SetProviderArtist(key: Key, update: Row)
      modifies this
      ensures rows == old(rows)[key := Upsert(old(Stored(key)), update)]
      // New values win; without them art, canonical name and match time stay.
      ensures rows[key] == update.(artUrl := rows[key].artUrl, canonicalName := rows[key].canonicalName,
                                   matched := rows[key].matched)
      ensures rows[key].artUrl ==
                if update.artUrl == "" && key in old(rows) then old(rows)[key].artUrl else update.artUrl
      ensures rows[key].canonicalName ==
                if update.canonicalName.None? && key in old(rows) then old(rows)[key].canonicalName
                else update.canonicalName
      ensures rows[key].matched ==
                if update.matched == NoStamp && key in old(rows) then old(rows)[key].matched else update.matched
    {
      var kept := update;
      if key in rows {
        if kept.artUrl == "" { kept := kept.(artUrl := rows[key].artUrl); }
        if kept.canonicalName.None? { kept := kept.(canonicalName := rows[key].canonicalName); }
        if kept.matched == NoStamp { kept := kept.(matched := rows[key].matched); }
      }
      rows := rows[key := kept];
    }

    /** Whether a mapped row answers this call by itself; a hit with art refreshes the stored row. */
    method AnswerFromMapping(key: Key, c: Call) returns (answer: Option<Answer>)
      requires IsMapped(Stored(key))
      modifies this
      ensures answer.Some? <==> old(Decide(Stored(key), c)) != Ask
      ensures answer.Some? ==>
                && Stored(key) == After(old(Stored(key)), c)
                && answer.value == Answer(Matched, rows[key].mbid, rows[key].canonicalName, true,
                                          if old(Decide(Stored(key), c)) == Hit then "" else old(rows[key].error))
      ensures answer.None? ==> rows == old(rows)
      ensures rows - {key} == old(rows) - {key}
    {
      var row := rows[key];
      if !c.force && row.version >= MATCHER_VERSION {
        if c.artUrl != "" {
          SetProviderArtist(key, Row(
            if row.name != "" then row.name else c.name, c.artUrl, row.mbid, row.canonicalName, Matched,
            if row.attempted != NoStamp then row.attempted else At(c.finished),
            if row.matched != NoStamp then row.matched else At(c.finished), "", MATCHER_VERSION));
        }
        return Some(Answer(Matched, row.mbid, row.canonicalName, true, ""));
      }
      if !c.force && row.attempted.At? && row.error != ""
         && c.now - row.attempted.seconds as real < TRANSIENT_ERROR_RETRY_SECONDS {
        return Some(Answer(Matched, row.mbid, row.canonicalName, true, row.error));
      }
      return None;
    }

    /** One whole call: the stored row moves as After says, no other row moves, and the caller is told a
        mapping exactly when one is stored, and the stored one. */
    method ResolveMapping(key: Key, c: Call) returns (answer: Answer)
      requires Answers(c)
      modifies this
      ensures Stored(key) == After(old(Stored(key)), c)
      ensures rows - {key} == old(rows) - {key}
      ensures answer.state == Matched && answer.mbid != "" <==> IsMapped(Stored(key))
      ensures IsMapped(Stored(key)) ==> answer.mbid == rows[key].mbid && answer.canonicalName == rows[key].canonicalName
      ensures !answer.cached ==> old(Decide(Stored(key), c)) == Ask && answer.error == ErrorOf(c.outcome)
    {
      if key in rows && rows[key].mbid != "" && rows[key].state == Matched {
        var row := rows[key];
        var hit := AnswerFromMapping(key, c);
        if hit.Some? { return hit.value; }
        answer := Rematch(key, row, c);
        return;
      }
      if key in rows && rows[key].attempted != NoStamp {
        var row := rows[key];
        var age := c.now - (if row.attempted.At? then row.attempted.seconds else 0) as real;
        var state := if row.state == NoState then Failed else row.state;
        var cooldown :=
          if state == Ambiguous || state == Unmatched then FETCH_COOLDOWN_SECONDS else TRANSIENT_ERROR_RETRY_SECONDS;
        if age < cooldown {
          return Answer(state, row.mbid, row.canonicalName, true, row.error);
        }
      }
      match c.outcome
      case Found(mbid, canonicalName) =>
        SetProviderArtist(key, Row(c.name, c.artUrl, mbid, Some(canonicalName), Matched, At(c.finished),
                                   At(c.finished), "", MATCHER_VERSION));
        return Answer(Matched, mbid, Some(canonicalName), false, "");
      case _ =>
        SetProviderArtist(key, Row(c.name, c.artUrl, "", None, StateOf(c.outcome), At(c.finished), NoStamp,
                                   ErrorOf(c.outcome), 0));
        return Answer(StateOf(c.outcome), "", None, false, ErrorOf(c.outcome));
    }

    /** A mapped row asks the matcher again; only a found identity replaces it. */
    method Rematch(key: Key, row: Row, c: Call) returns (answer: Answer)
      requires key in rows && rows[key] == row && IsMapped(Some(row)) && Decide(Some(row), c) == Ask && Answers(c)
      modifies this
      ensures Stored(key) == After(Some(row), c) && rows - {key} == old(rows) - {key}
      ensures answer.state == Matched && answer.mbid == rows[key].mbid &&
              answer.canonicalName == rows[key].canonicalName
      ensures answer.cached <==> !c.outcome.Found?
      ensures answer.error == ErrorOf(c.outcome)
    {
      if c.outcome.Found? {
        SetProviderArtist(key, Row(c.name, c.artUrl, c.outcome.mbid, Some(c.outcome.canonicalName), Matched,
                                   At(c.finished), At(c.finished), "", MATCHER_VERSION));
        return Answer(Matched, c.outcome.mbid, Some(c.outcome.canonicalName), false, "");
      }
      var error := ErrorOf(c.outcome);
      SetProviderArtist(key, Row(
        if row.name != "" then row.name else c.name, if row.artUrl != "" then row.artUrl else c.artUrl,
        row.mbid, row.canonicalName, Matched, At(c.finished),
        if row.matched != NoStamp then row.matched else At(c.finished),
        if error != "" then error else "rematch declined",
        if c.outcome.Declined? then MATCHER_VERSION else row.version));
      return Answer(Matched, row.mbid, row.canonicalName, true, error);
    }
  }
}
