/**
 The activity detector against everything it was ever shown. A trace runs the detector
 over timestamped observations and keeps, beside it, the history the detector itself
 forgets: the blocks accepted since the last reset, and the time of the last signal.
 */
module InputHistory {
  import opened Wrappers
  import opened InputActivity

  datatype Op =
    | Capture(now: real, block: Block, lock: Option<bool>, context: Option<int>)
    | Presence(now: real, present: bool)
    | External(now: real, present: bool)
    | Missing(now: real)
    | Hold(now: real)
    | Tick(now: real)
    | Reset
    | Begin(context: Option<int>)
    | MarkDigital
    | SetRelease(seconds: real)

  predicate AtLeastDbfs(l: Level, threshold: real) { l.Dbfs? && l.value >= threshold }

  /** An accepted block: when, what it held, the lock it came with, the stream type confirmed with it, and whether
      the input was known to be digital by then. */
  datatype Obs = Obs(now: real, block: Block, lock: Option<bool>, stream: Stream, digital: bool) {
    function Type(): Stream {
      if block.encoding.Some? && block.encoding.value != "" then Codec(block.encoding.value)
      else if block.encodedIdle then EncodedIdle
      else Pcm
    }

    predicate Usable() { lock != Some(false) && stream != EncodedIdle }

    /** A codec's block is programme unless it is digitally silent; digital PCM from a peak of -80 dBFS on, analog PCM
        from an rms of -50 dBFS on. */
    predicate Programme() {
      && Usable()
      && if stream != Pcm then !block.digitalSilence
         else if digital then AtLeastDbfs(block.peak, -80.0) else AtLeastDbfs(block.rms, -50.0)
    }

    /** It keeps an active input alike, but analog PCM already with a peak of -60 dBFS. */
    predicate Keeps() {
      && Usable()
      && if stream != Pcm then !block.digitalSilence
         else if digital then AtLeastDbfs(block.peak, -80.0) else AtLeastDbfs(block.peak, -60.0)
    }

    function AttackSeconds(): real { if digital || stream != Pcm then 0.5 else 1.0 }
  }

  /** `digital` is what the history says: a digital input from the start, marked so, or digitally silent once. */
  datatype Trace = Trace(d: Detector, clock: real, seen: Option<real>, since: seq<Obs>, signalAt: real, digital: bool)

  function Start(kind: Kind, now: real, assumeActive: bool, releaseSeconds: real, context: Option<int>): Trace {
    Trace(NewDetector(kind, now, assumeActive, releaseSeconds, context), now, None, [], now, kind == Digital)
  }

  predicate Timed(op: Op) { !op.Reset? && !op.Begin? && !op.MarkDigital? && !op.SetRelease? }

  /** A monotone clock, and a peak no lower than the rms level. */
  predicate Legit(t: Trace, op: Op) {
    && (Timed(op) ==> op.now >= t.clock)
    && (op.Capture? ==> NotAbove(op.block.rms, op.block.peak))
  }

  function DetectorAfter(d: Detector, op: Op): Detector {
    match op
    case Capture(now, block, lock, context) => AfterBlock(d, now, block, lock, context)
    case Presence(now, present) => AfterPresence(d, now, present)
    case External(now, present) => AfterExternalPresence(d, now, present)
    case Missing(now) => AfterMissing(d, now)
    case Hold(now) => AfterHoldOver(d, now)
    case Tick(now) => AfterUpdate(d, now)
    case Reset => AfterReset(d)
    case Begin(context) => AfterBeginCapture(d, context)
    case MarkDigital => d.(digital := true)
    case SetRelease(seconds) => d.(releaseSeconds := seconds)
  }

  /** A pause longer than the tolerated gap starts the history over. */
  function Continued(t: Trace, now: real): seq<Obs> {
    if t.seen.Some? && now - t.seen.value > ATTACK_GAP_SECONDS then [] else t.since
  }

  function ObsOf(t: Trace, op: Op): Obs
    requires op.Capture?
  {
    var o := Obs(op.now, op.block, op.lock, Pcm, t.digital || op.block.digitalSilence);
    o.(stream := Confirmed(Continued(t, op.now) + [o]))
  }

  predicate Signals(t: Trace, op: Op) {
    match op
    case Capture(now, block, lock, context) =>
      !Rejected(t.d, context) && (ObsOf(t, op).Keeps() || t.d.externalPresence)
    case Presence(_, present) => present || t.d.externalPresence
    case External(_, present) => present
    case Hold(_) => true
    case _ => false
  }

  function Next(t: Trace, op: Op): Trace {
    var clock := if Timed(op) then op.now else t.clock;
    var signalAt := if Signals(t, op) then clock else t.signalAt;
    var d := DetectorAfter(t.d, op);
    match op
    case Capture(now, block, lock, context) =>
      if Rejected(t.d, context) then Trace(d, clock, None, [], signalAt, t.digital)
      else Trace(d, clock, Some(now), Continued(t, now) + [ObsOf(t, op)], signalAt, t.digital || block.digitalSilence)
    case Presence(now, _) => Trace(d, clock, Some(now), t.since, signalAt, t.digital)
    case External(_, _) => Trace(d, clock, t.seen, t.since, signalAt, t.digital)
    case Tick(_) => Trace(d, clock, t.seen, t.since, signalAt, t.digital)
    case MarkDigital => Trace(d, clock, t.seen, t.since, signalAt, true)
    case SetRelease(_) => Trace(d, clock, t.seen, t.since, signalAt, t.digital)
    case _ => Trace(d, clock, None, [], signalAt, t.digital)
  }

  function Run(t: Trace, ops: seq<Op>): Trace {
    if ops == [] then t else Next(Run(t, ops[..|ops| - 1]), ops[|ops| - 1])
  }

  ghost predicate LegitRun(t: Trace, ops: seq<Op>) {
    forall i | 0 <= i < |ops| :: Legit(Run(t, ops[..i]), ops[i])
  }

  lemma LegitPrefix(t: Trace, ops: seq<Op>)
    requires LegitRun(t, ops) && ops != []
    ensures LegitRun(t, ops[..|ops| - 1]) && Legit(Run(t, ops[..|ops| - 1]), ops[|ops| - 1])
  {
    var front := ops[..|ops| - 1];
    forall i | 0 <= i < |front| ensures Legit(Run(t, front[..i]), front[i]) {
      assert front[..i] == ops[..i];
    }
  }

  // ---------- release: the last signal, and the stream type ----------

  /** The type confirmed by a history: that of its latest two equal neighbours, PCM without any. */
  function Confirmed(since: seq<Obs>): Stream {
    if |since| < 2 then Pcm
    else if since[|since| - 1].Type() == since[|since| - 2].Type() then since[|since| - 1].Type()
    else Confirmed(since[..|since| - 1])
  }

  /** How many of the latest blocks share their type. */
  function Tail(since: seq<Obs>): nat {
    if since == [] then 0
    else if |since| >= 2 && since[|since| - 1].Type() == since[|since| - 2].Type() then
      1 + Tail(since[..|since| - 1])
    else 1
  }

  ghost predicate Remembered(t: Trace) {
    && t.d.lastSignalAt == t.signalAt && t.signalAt <= t.clock
    && t.d.lastObservedAt == t.seen && (t.seen.Some? ==> t.seen.value <= t.clock)
    && t.d.stream == Confirmed(t.since) && t.d.digital == t.digital
    && t.d.candidateBlocks == Tail(t.since)
    && t.d.candidate == (if t.since == [] then Pcm else t.since[|t.since| - 1].Type())
  }

  lemma ArmedFacts(d: Detector, now: real, on: bool, keep: bool, attack: real)
    ensures var r := Armed(d, now, on, keep, attack);
            && r == d.(active := r.active, attackSince := r.attackSince, lastOnAt := r.lastOnAt,
                       localQualified := r.localQualified, lastLocalSignalAt := r.lastLocalSignalAt,
                       lastSignalAt := if keep || d.externalPresence then now else d.lastSignalAt)
            && (d.active ==> r.active)
  {
  }

  lemma UpdateFacts(d: Detector, now: real)
    ensures var r := AfterUpdate(d, now);
            && r == d.(active := r.active, attackSince := r.attackSince) && ReleaseHold(r) == ReleaseHold(d)
            && (r.active <==> d.active && now - d.lastSignalAt < ReleaseHold(d))
  {
  }

  /** What one _step can change, and when it releases. */
  lemma StepFacts(d: Detector, now: real, on: bool, keep: bool, attack: real)
    ensures var r := AfterStep(d, now, on, keep, attack);
            && r == d.(active := r.active, attackSince := r.attackSince, lastOnAt := r.lastOnAt,
                       localQualified := r.localQualified, lastLocalSignalAt := r.lastLocalSignalAt,
                       lastSignalAt := if keep || d.externalPresence then now else d.lastSignalAt)
            && (now - r.lastSignalAt >= ReleaseHold(r) ==> !r.active)
            && (d.active && !r.active ==> now - r.lastSignalAt >= ReleaseHold(r))
  {
    ArmedFacts(d, now, on, keep, attack);
    UpdateFacts(Armed(d, now, on, keep, attack), now);
    hide Armed, AfterUpdate, ReleaseHold;
  }

  lemma ObservedFacts(d: Detector, now: real, b: Block, lock: Option<bool>)
    ensures var n := Observed(d, now, b, lock); var s := if Stale(d, now) then AfterReset(d) else d;
            && n.active == d.active && n.externalPresence == d.externalPresence && n.lastSignalAt == d.lastSignalAt
            && n.releaseSeconds == d.releaseSeconds && n.lastObservedAt == Some(now) && n.generation == d.generation
            && n.attackSince == s.attackSince && !n.missing && n.lock == lock
            && n.digital == (d.digital || b.digitalSilence)
            && n.candidate == s.candidate && n.candidateBlocks == s.candidateBlocks && n.stream == s.stream
  {
  }

  lemma TypedFacts(d: Detector, t: Stream)
    ensures var n := Typed(d, t);
            && n == d.(candidate := t, candidateBlocks := n.candidateBlocks, stream := n.stream)
            && n.candidateBlocks == (if t == d.candidate then d.candidateBlocks + 1 else 1)
            && n.stream == (if n.candidateBlocks >= STREAM_CONFIRM_BLOCKS then t else d.stream)
  {
  }

  /** What noting a block does to the fields a history determines. */
  lemma NotedFacts(d: Detector, now: real, b: Block, lock: Option<bool>)
    ensures var n := Noted(d, now, b, lock); var s := if Stale(d, now) then AfterReset(d) else d;
            && n.active == d.active && n.externalPresence == d.externalPresence && n.lastSignalAt == d.lastSignalAt
            && n.releaseSeconds == d.releaseSeconds && n.lastObservedAt == Some(now) && n.generation == d.generation
            && n.attackSince == s.attackSince && !n.missing && n.lock == lock
            && n.digital == (d.digital || b.digitalSilence)
            && n.candidate == StreamType(b)
            && n.candidateBlocks == (if StreamType(b) == s.candidate then s.candidateBlocks + 1 else 1)
            && n.stream == (if n.candidateBlocks >= STREAM_CONFIRM_BLOCKS then StreamType(b) else s.stream)
  {
    ObservedFacts(d, now, b, lock);
    TypedFacts(Observed(d, now, b, lock), StreamType(b));
    hide Observed, Typed, StreamType, Stale, AfterReset;
  }

  /** One more block of a type: the tail it makes, and what it confirms. */
  lemma OneMoreBlock(kept: seq<Obs>, o: Obs)
    ensures Tail(kept + [o]) == if kept != [] && kept[|kept| - 1].Type() == o.Type() then Tail(kept) + 1 else 1
    ensures Confirmed(kept + [o]) == if Tail(kept + [o]) >= 2 then o.Type() else Confirmed(kept)
  {
    assert (kept + [o])[..|kept|] == kept;
    TailConfirms(kept);
  }

  /** The stream type of a history does not depend on what was confirmed in it. */
  lemma ConfirmedIgnores(kept: seq<Obs>, o: Obs, stream: Stream)
    ensures Confirmed(kept + [o.(stream := stream)]) == Confirmed(kept + [o])
  {
    var p := o.(stream := stream);
    assert (kept + [o])[..|kept|] == kept == (kept + [p])[..|kept|];
    assert p.Type() == o.Type();
  }

  lemma ObsFields(t: Trace, op: Op)
    requires Remembered(t) && op.Capture? && !Rejected(t.d, op.context)
    ensures var n, o := Noted(t.d, op.now, op.block, op.lock), ObsOf(t, op);
            && o.now == op.now && o.block == op.block && o.lock == n.lock == op.lock
            && o.stream == n.stream && o.digital == n.digital == (t.digital || op.block.digitalSilence)
    ensures ObsOf(t, op).stream == Confirmed(Continued(t, op.now) + [ObsOf(t, op)])
  {
    var kept := Continued(t, op.now);
    var raw := Obs(op.now, op.block, op.lock, Pcm, t.digital || op.block.digitalSilence);
    NotedFacts(t.d, op.now, op.block, op.lock);
    KeptHistory(t, op.now);
    OneMoreBlock(kept, raw);
    ConfirmedIgnores(kept, raw, Confirmed(kept + [raw]));
    assert raw.Type() == StreamType(op.block);
    hide Noted, Confirmed, Tail, Continued, Stale, AfterReset, StreamType, Obs.Type, Rejected;
  }

  lemma LevelsAgree(n: Detector, o: Obs)
    requires o.lock == n.lock && o.stream == n.stream && o.digital == n.digital
    ensures (o.Programme() <==> On(n, o.block)) && (o.Keeps() <==> Keep(n, o.block)) && o.AttackSeconds() == Attack(n)
  {
  }

  /** What the history says of a block is what the detector goes by. */
  lemma ObsIsNoted(t: Trace, op: Op)
    requires Remembered(t) && op.Capture? && !Rejected(t.d, op.context)
    ensures var n, o := Noted(t.d, op.now, op.block, op.lock), ObsOf(t, op);
            && o.now == op.now && o.block == op.block && o.Type() == StreamType(op.block)
            && (o.Programme() <==> On(n, op.block)) && (o.Keeps() <==> Keep(n, op.block))
            && o.AttackSeconds() == Attack(n)
  {
    ObsFields(t, op);
    LevelsAgree(Noted(t.d, op.now, op.block, op.lock), ObsOf(t, op));
    hide Noted, ObsOf, On, Keep, Attack, Obs.Programme, Obs.Keeps, Obs.AttackSeconds, Remembered, Rejected;
  }

  lemma CaptureRemembers(t: Trace, op: Op)
    requires Remembered(t) && Legit(t, op) && op.Capture? && !Rejected(t.d, op.context)
    ensures Remembered(Next(t, op))
  {
    var n := Noted(t.d, op.now, op.block, op.lock);
    var kept := Continued(t, op.now);
    NotedFacts(t.d, op.now, op.block, op.lock);
    ObsIsNoted(t, op);
    ObsFields(t, op);
    StepFacts(n, op.now, On(n, op.block), Keep(n, op.block), Attack(n));
    OneMoreBlock(kept, ObsOf(t, op));
    KeptHistory(t, op.now);
    assert Next(t, op).since == kept + [ObsOf(t, op)];
    hide AfterStep, Noted, On, Keep, Attack, Confirmed, Tail, Continued, StreamType, Stale, AfterReset;
  }

  /** What a block of history still counts after a pause, next to what a stale detector forgets. */
  lemma KeptHistory(t: Trace, now: real)
    requires Remembered(t)
    ensures var kept := Continued(t, now); var s := if Stale(t.d, now) then AfterReset(t.d) else t.d;
            && s.stream == Confirmed(kept) && s.candidateBlocks == Tail(kept)
            && s.candidate == (if kept == [] then Pcm else kept[|kept| - 1].Type())
            && (kept == [] ==> s.candidateBlocks == 0)
  {
  }

  lemma TailConfirms(since: seq<Obs>)
    ensures Tail(since) >= 2 ==> Confirmed(since) == since[|since| - 1].Type()
    ensures since != [] ==> Tail(since) >= 1
  {
  }

  lemma UpdateRemembers(t: Trace, op: Op)
    requires Remembered(t) && Legit(t, op) && (op.Tick? || op.External? || op.Missing?)
    ensures Remembered(Next(t, op))
  {
    assert Confirmed([]) == Pcm && Tail([]) == 0;
    match op
    case External(now, present) => UpdateFacts(t.d.(externalPresence := false), now);
    case Missing(now) => UpdateFacts(AfterReset(t.d.(missing := true)), now);
    case Tick(now) => UpdateFacts(t.d, now);
    hide AfterUpdate, ReleaseHold, Confirmed, Tail;
  }

  lemma NextRemembers(t: Trace, op: Op)
    requires Remembered(t) && Legit(t, op)
    ensures Remembered(Next(t, op))
  {
    if op.Capture? && !Rejected(t.d, op.context) {
      CaptureRemembers(t, op);
    } else if op.Presence? {
      StepFacts(t.d.(missing := false, lastObservedAt := Some(op.now)), op.now, op.present, op.present, 0.0);
      hide AfterStep, Confirmed, Tail;
    } else if op.Tick? || op.External? || op.Missing? {
      UpdateRemembers(t, op);
    } else {
      hide AfterStep, Noted, On, Keep, Attack, ReleaseHold, AfterUpdate;
      assert Confirmed([]) == Pcm && Tail([]) == 0;
      hide Confirmed, Tail;
    }
  }

  /** In every run, `_last_signal_at` is the time of the latest signal: construction, a block that keeps the
      input, a connected writer, an external presence, or a hold-over; and the stream type is that of the
      latest two equal neighbours among the blocks accepted since the last reset, PCM when there are none. */
  lemma {:induction false} RunRemembers(t: Trace, ops: seq<Op>)
    requires Remembered(t) && LegitRun(t, ops)
    ensures Remembered(Run(t, ops))
  {
    if ops != [] {
      LegitPrefix(t, ops);
      RunRemembers(t, ops[..|ops| - 1]);
      NextRemembers(Run(t, ops[..|ops| - 1]), ops[|ops| - 1]);
    }
  }

  /** The operation tells that the input is digital: it is marked so, or a block it accepts holds digital silence. */
  predicate TellsDigital(t: Trace, op: Op) {
    op.MarkDigital? || (op.Capture? && !Rejected(t.d, op.context) && op.block.digitalSilence)
  }

  /** The i-th operation of the run tells so. */
  ghost predicate ToldAt(t: Trace, ops: seq<Op>, i: nat) {
    i < |ops| && TellsDigital(Run(t, ops[..i]), ops[i])
  }

  lemma NextIsDigital(t: Trace, op: Op)
    ensures Next(t, op).digital <==> t.digital || TellsDigital(t, op)
  {
    hide DetectorAfter, ObsOf, Signals, Continued, Rejected;
  }

  lemma ToldBefore(t: Trace, ops: seq<Op>, i: nat)
    requires ops != [] && i < |ops| - 1
    ensures ToldAt(t, ops[..|ops| - 1], i) <==> ToldAt(t, ops, i)
  {
    hide Run, TellsDigital;
    assert ops[..|ops| - 1][..i] == ops[..i];
  }

  /** In every run an input counts as digital exactly if it was one from the start or was once told to be. */
  lemma {:induction false} RunIsDigital(t: Trace, ops: seq<Op>)
    ensures Run(t, ops).digital <==> t.digital || exists i: nat :: ToldAt(t, ops, i)
  {
    hide Next, TellsDigital;
    if ops == [] {
      return;
    }
    var front, k := ops[..|ops| - 1], |ops| - 1;
    RunIsDigital(t, front);
    NextIsDigital(Run(t, front), ops[k]);
    forall i: nat | i < k ensures ToldAt(t, front, i) <==> ToldAt(t, ops, i) { ToldBefore(t, ops, i); }
    assert ToldAt(t, ops, k) <==> TellsDigital(Run(t, front), ops[k]);
    hide Run;
    if i: nat :| ToldAt(t, front, i) {
      assert ToldAt(t, ops, i);
    }
    if i: nat :| ToldAt(t, ops, i) && i < k {
      assert ToldAt(t, front, i);
    }
  }

  /** When one operation releases, and when it must. */
  lemma ReleaseOf(t: Trace, op: Op)
    ensures var r := DetectorAfter(t.d, op);
            && (t.d.active && !r.active ==> Timed(op) && op.now - r.lastSignalAt >= ReleaseHold(r))
            && (op.Tick? || op.Presence? || op.Missing? || (op.External? && !op.present)
                || (op.Capture? && !Rejected(t.d, op.context)) ==>
                  (op.now - r.lastSignalAt >= ReleaseHold(r) ==> !r.active))
  {
    match op
    case Capture(_, _, _, context) => CaptureReleases(t, op);
    case Presence(now, present) =>
      StepFacts(t.d.(missing := false, lastObservedAt := Some(now)), now, present, present, 0.0);
    case External(now, present) => UpdateFacts(t.d.(externalPresence := false), now);
    case Missing(now) => UpdateFacts(AfterReset(t.d.(missing := true)), now);
    case Tick(now) => UpdateFacts(t.d, now);
    case _ =>
  }

  lemma CaptureReleases(t: Trace, op: Op)
    requires op.Capture?
    ensures var r := DetectorAfter(t.d, op);
            && (t.d.active && !r.active ==> op.now - r.lastSignalAt >= ReleaseHold(r))
            && (!Rejected(t.d, op.context) && op.now - r.lastSignalAt >= ReleaseHold(r) ==> !r.active)
  {
    if !Rejected(t.d, op.context) {
      var n := Noted(t.d, op.now, op.block, op.lock);
      NotedFacts(t.d, op.now, op.block, op.lock);
      StepFacts(n, op.now, On(n, op.block), Keep(n, op.block), Attack(n));
      hide AfterStep, Noted, On, Keep, Attack, ReleaseHold;
    }
  }

  /** The input is released only when a whole release hold passed without any signal. */
  lemma ReleaseNeedsSilence(t: Trace, op: Op)
    requires Remembered(t) && Legit(t, op)
    requires t.d.active && !Next(t, op).d.active
    ensures Timed(op) && op.now - Next(t, op).signalAt >= ReleaseHold(Next(t, op).d)
  {
    NextRemembers(t, op);
    ReleaseOf(t, op);
    NextDetector(t, op);
    hide Next, DetectorAfter, ReleaseHold, Confirmed, Tail;
  }

  /** And it is released by every observation or tick that finds such a hold over. */
  lemma SilenceReleases(t: Trace, op: Op)
    requires Remembered(t) && Legit(t, op)
    requires op.Tick? || op.Presence? || op.Missing? || (op.External? && !op.present)
             || (op.Capture? && !Rejected(t.d, op.context))
    requires op.now - Next(t, op).signalAt >= ReleaseHold(Next(t, op).d)
    ensures !Next(t, op).d.active
  {
    NextRemembers(t, op);
    ReleaseOf(t, op);
    NextDetector(t, op);
    hide Next, DetectorAfter, ReleaseHold, Confirmed, Tail;
  }

  lemma NextDetector(t: Trace, op: Op)
    ensures Next(t, op).d == DetectorAfter(t.d, op)
  {
    hide DetectorAfter, ObsOf, Signals;
  }
}
