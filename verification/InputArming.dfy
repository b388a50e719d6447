/**
 When capture arms an input. With the external presence reports left out, an inactive
 detector turns active on a captured block exactly by a sustained run of programme.
 */
module InputArming {
  import opened Wrappers
  import opened InputActivity
  import opened InputHistory
  import opened InputLevels

  const LINK_SECONDS: real := 2.0 * ATTACK_GAP_SECONDS

  /** Everything but a writer and a positive external presence report. */
  predicate CaptureOnly(op: Op) { !op.Presence? && !(op.External? && op.present) }

  /** A release time that is set outlasts the tolerated gaps. */
  predicate Long(op: Op) { op.SetRelease? ==> op.seconds > LINK_SECONDS }

  /** The times of the blocks that counted as programme. */
  function Ons(since: seq<Obs>): seq<real> {
    if since == [] then []
    else
      var last := since[|since| - 1];
      Ons(since[..|since| - 1]) + (if last.Programme() then [last.now] else [])
  }

  function Last(ons: seq<real>): real
    requires ons != []
  {
    ons[|ons| - 1]
  }

  /** From the j-th on, adjacent programme blocks are at most twice the tolerated gap apart. */
  ghost predicate Linked(ons: seq<real>, j: nat) {
    forall k | j <= k < |ons| - 1 :: ons[k + 1] - ons[k] <= LINK_SECONDS
  }

  ghost predicate ChainFrom(ons: seq<real>, j: nat, start: real) {
    j < |ons| && ons[j] == start && Linked(ons, j)
  }

  /** The history ends with a programme block that completes a linked chain as long as its attack time. */
  ghost predicate Sustained(since: seq<Obs>) {
    && since != [] && since[|since| - 1].Programme()
    && exists j: nat :: j < |Ons(since)| && Linked(Ons(since), j)
         && since[|since| - 1].now - Ons(since)[j] >= since[|since| - 1].AttackSeconds()
  }

  /** What the attack fields know about the programme blocks since the last reset. */
  ghost predicate Window(d: Detector, clock: real, seen: Option<real>, ons: seq<real>) {
    && !d.externalPresence && d.releaseSeconds > LINK_SECONDS
    && d.lastSignalAt <= clock
    && d.lastOnAt == (if ons == [] then None else Some(Last(ons)))
    && (ons != [] ==> seen.Some? && Last(ons) <= seen.value <= clock && Last(ons) <= d.lastSignalAt)
    && (d.attackSince.Some? ==>
          && ons != [] && seen.value <= Last(ons) + ATTACK_GAP_SECONDS && d.attackSince.value <= Last(ons)
          && (exists j: nat :: ChainFrom(ons, j, d.attackSince.value))
          && (d.localQualified ==> d.active))
    && (d.localQualified ==> ons != [] && seen.value <= Last(ons) + ATTACK_GAP_SECONDS)
    // A qualification that outlived its release is too old to be seen again before a reset.
    && (d.localQualified && (d.attackSince.None? || !d.active) ==> clock > Last(ons) + LINK_SECONDS)
  }

  lemma AppendOn(ons: seq<real>, j: nat, start: real, now: real)
    requires ChainFrom(ons, j, start) && now - Last(ons) <= LINK_SECONDS
    ensures ChainFrom(ons + [now], j, start)
  {
    forall k | j <= k < |ons + [now]| - 1 ensures (ons + [now])[k + 1] - (ons + [now])[k] <= LINK_SECONDS {
      if k + 1 < |ons| {
        assert ons[k + 1] - ons[k] <= LINK_SECONDS;
      }
    }
  }

  lemma QuietStepWindow(d: Detector, clock: real, seen: Option<real>, ons: seq<real>, now: real, keep: bool,
                        attack: real)
    requires Window(d, clock, seen, ons) && now >= clock
    requires seen.Some? ==> now - seen.value <= ATTACK_GAP_SECONDS
    ensures var r := AfterStep(d, now, false, keep, attack);
            Window(r, now, Some(now), ons) && (!d.active ==> !r.active)
  {
  }

  lemma ProgrammeStepWindow(d: Detector, clock: real, seen: Option<real>, ons: seq<real>, now: real, attack: real)
    requires Window(d, clock, seen, ons) && now >= clock && attack > 0.0
    requires seen.Some? ==> now - seen.value <= ATTACK_GAP_SECONDS
    ensures var r := AfterStep(d, now, true, true, attack);
            && Window(r, now, Some(now), ons + [now])
            && (!d.active && r.active ==>
                  exists j: nat :: j < |ons| + 1 && Linked(ons + [now], j) && now - (ons + [now])[j] >= attack)
  {
    var r, ons' := AfterStep(d, now, true, true, attack), ons + [now];
    if d.attackSince.Some? {
      var j: nat :| ChainFrom(ons, j, d.attackSince.value);
      AppendOn(ons, j, d.attackSince.value, now);
      hide Linked;
      assert ChainFrom(ons', j, r.attackSince.value);
    } else {
      assert ChainFrom(ons', |ons|, now);
    }
  }

  lemma StepWindow(d: Detector, clock: real, seen: Option<real>, ons: seq<real>,
                   now: real, on: bool, keep: bool, attack: real)
    requires Window(d, clock, seen, ons) && now >= clock && attack > 0.0 && (on ==> keep)
    requires seen.Some? ==> now - seen.value <= ATTACK_GAP_SECONDS
    ensures var r := AfterStep(d, now, on, keep, attack);
            var ons' := if on then ons + [now] else ons;
            && Window(r, now, Some(now), ons')
            && (!d.active && r.active ==>
                  on && exists j: nat :: j < |ons'| && Linked(ons', j) && now - ons'[j] >= attack)
  {
    hide AfterStep, Window, Linked;
    if on {
      ProgrammeStepWindow(d, clock, seen, ons, now, attack);
    } else {
      QuietStepWindow(d, clock, seen, ons, now, keep, attack);
    }
  }

  lemma UpdateWindow(d: Detector, clock: real, seen: Option<real>, ons: seq<real>, now: real)
    requires Window(d, clock, seen, ons) && now >= clock
    ensures Window(AfterUpdate(d, now), now, seen, ons)
  {
  }

  ghost predicate Inv(t: Trace) {
    Remembered(t) && Window(t.d, t.clock, t.seen, Ons(t.since)) && (t.seen.None? <==> t.since == [])
  }

  /** An accepted block keeps the invariant, and arms only at the end of a sustained run. */
  lemma CaptureArms(t: Trace, op: Op)
    requires Inv(t) && Legit(t, op) && op.Capture? && !Rejected(t.d, op.context)
    ensures Inv(Next(t, op))
    ensures !t.d.active && Next(t, op).d.active ==> Sustained(Next(t, op).since)
  {
    NextRemembers(t, op);
    var n := Noted(t.d, op.now, op.block, op.lock);
    var kept := Continued(t, op.now);
    var seen := if kept == [] then None else t.seen;
    NotedWindow(t, op);
    ProgrammeKeeps(n, op.block);
    ObsIsNoted(t, op);
    CaptureShape(t, op);
    StepWindow(n, t.clock, seen, Ons(kept), op.now, On(n, op.block), Keep(n, op.block), Attack(n));
    hide AfterStep, Noted, On, Keep, Remembered, Window, Next, ObsOf, Obs.Programme, Obs.AttackSeconds, Obs.Type,
      StreamType, Obs.Keeps, Continued, Rejected, Linked;
    var since := Next(t, op).since;
    assert since[..|since| - 1] == kept;
    assert Ons(since) == Ons(kept) + if On(n, op.block) then [op.now] else [];
    assert On(n, op.block) ==> Ons(since) == Ons(kept) + [op.now];
    assert !On(n, op.block) ==> Ons(since) == Ons(kept);
    assert Window(Next(t, op).d, op.now, Some(op.now), Ons(since));
  }

  lemma ProgrammeKeeps(n: Detector, b: Block)
    requires NotAbove(b.rms, b.peak)
    ensures On(n, b) ==> Keep(n, b)
  {
  }

  lemma NotedWindow(t: Trace, op: Op)
    requires Inv(t) && Legit(t, op) && op.Capture? && !Rejected(t.d, op.context)
    ensures var kept := Continued(t, op.now);
            var seen := if kept == [] then None else t.seen;
            && Window(Noted(t.d, op.now, op.block, op.lock), t.clock, seen, Ons(kept))
            && Noted(t.d, op.now, op.block, op.lock).active == t.d.active
            && (seen.Some? ==> op.now - seen.value <= ATTACK_GAP_SECONDS)
  {
  }

  lemma OtherInv(t: Trace, op: Op)
    requires Inv(t) && Legit(t, op) && CaptureOnly(op) && Long(op) && (op.Capture? ==> Rejected(t.d, op.context))
    ensures Inv(Next(t, op)) && (op.Capture? ==> Next(t, op).d.active == t.d.active)
  {
    NextRemembers(t, op);
    assert Ons([]) == [];
    if op.Tick? || op.External? {
      UpdateWindow(t.d, t.clock, t.seen, Ons(t.since), op.now);
      assert t.d.(externalPresence := false) == t.d;
      hide Window, Ons, Remembered;
    } else if op.Missing? {
      UpdateWindow(AfterReset(t.d.(missing := true)), t.clock, None, [], op.now);
      hide AfterUpdate, Ons, Remembered;
    } else {
      hide Ons, Remembered;
    }
  }

  lemma NextInv(t: Trace, op: Op)
    requires Inv(t) && Legit(t, op) && CaptureOnly(op) && Long(op)
    ensures Inv(Next(t, op))
    ensures op.Capture? && !t.d.active && Next(t, op).d.active ==> Sustained(Next(t, op).since)
  {
    NextRemembers(t, op);
    if op.Capture? && !Rejected(t.d, op.context) {
      CaptureArms(t, op);
    } else {
      OtherInv(t, op);
    }
    hide Inv, Next, Rejected, Legit, CaptureOnly, Long, Sustained;
  }

  // ---------- over whole runs ----------

  ghost predicate CaptureRun(t: Trace, ops: seq<Op>) {
    LegitRun(t, ops) && forall i | 0 <= i < |ops| :: CaptureOnly(ops[i])
  }

  /** No release time set in the run is too short to outlast the tolerated gaps. */
  ghost predicate LongRun(t: Trace, ops: seq<Op>) {
    CaptureRun(t, ops) && forall i | 0 <= i < |ops| :: Long(ops[i])
  }

  lemma LongPrefix(t: Trace, ops: seq<Op>)
    requires LongRun(t, ops) && ops != []
    ensures LongRun(t, ops[..|ops| - 1]) && Legit(Run(t, ops[..|ops| - 1]), ops[|ops| - 1])
    ensures CaptureOnly(ops[|ops| - 1]) && Long(ops[|ops| - 1])
  {
    hide Legit;
    LegitPrefix(t, ops);
  }

  lemma {:induction false} RunInv(t: Trace, ops: seq<Op>)
    requires Inv(t) && LongRun(t, ops)
    ensures Inv(Run(t, ops))
  {
    hide Inv, Next, LongRun;
    if ops != [] {
      LongPrefix(t, ops);
      RunInv(t, ops[..|ops| - 1]);
      NextInv(Run(t, ops[..|ops| - 1]), ops[|ops| - 1]);
    }
  }

  lemma StartInv(kind: Kind, now: real, assumeActive: bool, releaseSeconds: real, context: Option<int>)
    requires releaseSeconds > LINK_SECONDS
    ensures Inv(Start(kind, now, assumeActive, releaseSeconds, context))
  {
  }

  /** The last block of the run turned an inactive detector active. */
  ghost predicate ArmedByLast(t: Trace, ops: seq<Op>) {
    && ops != [] && ops[|ops| - 1].Capture?
    && !Run(t, ops[..|ops| - 1]).d.active && Run(t, ops).d.active
  }

  /** All release times of the run, the first and those set later, are among these. */
  ghost predicate ReleasesIn(releases: set<real>, r: real, ops: seq<Op>) {
    r in releases && forall op | op in ops && op.SetRelease? :: op.seconds in releases
  }

  /** Detectors with these release times arm on captured blocks only after a sustained run of programme. */
  ghost predicate ArmsOnlyWhenSustained(releases: set<real>) {
    forall kind, now, assumeActive, r, context, ops ::
      ReleasesIn(releases, r, ops) && CaptureRun(Start(kind, now, assumeActive, r, context), ops)
      && ArmedByLast(Start(kind, now, assumeActive, r, context), ops)
      ==> Sustained(Run(Start(kind, now, assumeActive, r, context), ops).since)
  }

  lemma SustainedInRun(t: Trace, ops: seq<Op>)
    requires Inv(t) && LongRun(t, ops) && ArmedByLast(t, ops)
    ensures Sustained(Run(t, ops).since)
  {
    hide Inv, Next, Sustained, LongRun;
    LongPrefix(t, ops);
    RunInv(t, ops[..|ops| - 1]);
    NextInv(Run(t, ops[..|ops| - 1]), ops[|ops| - 1]);
  }

  // ---------- a release time too short to outlast the tolerated gaps ----------

  const PROGRAMME := Block(Dbfs(-10.0), Dbfs(-10.0), false, None, false)
  const QUIET := Block(Dbfs(-70.0), Dbfs(-70.0), false, None, false)
  const MURMUR := Block(Dbfs(-55.0), Dbfs(-65.0), false, None, false)

  /** Qualify, fall quiet, release by a tick, and then murmur: kept, but not programme. */
  function RearmingRun(): seq<Op> {
    [ Capture(0.0, PROGRAMME, None, Some(0)), Capture(0.3, PROGRAMME, None, Some(0)),
      Capture(0.6, PROGRAMME, None, Some(0)), Capture(0.9, PROGRAMME, None, Some(0)),
      Capture(1.2, PROGRAMME, None, Some(0)), Capture(1.5, QUIET, None, Some(0)),
      Tick(1.8), Capture(1.8, MURMUR, None, Some(0)) ]
  }

  /** Where the run has come after its first k operations. */
  ghost predicate Midway(t: Trace, k: nat, r: real) {
    var d := t.d;
    && d.kind == Analog && d.releaseSeconds == r && !d.externalPresence && !d.digital && d.stream == Pcm
    && d.candidate == Pcm
    && d.generation == Some(0) && d.lock.None? && !d.missing
    && (k == 0 ==> t.clock == 0.0 && t.seen.None? && d.lastObservedAt.None? && !d.active && !d.localQualified
                   && d.attackSince.None?)
    && (1 <= k <= 5 ==>
          && t.clock == 0.3 * (k - 1) as real && t.seen == Some(t.clock) && d.lastObservedAt == t.seen
          && d.lastOnAt == Some(t.clock) && d.lastSignalAt == t.clock && d.attackSince == Some(0.0)
          && (d.localQualified <==> k == 5) && (d.active <==> k == 5))
    && (6 <= k <= 7 ==>
          && t.clock == (if k == 6 then 1.5 else 1.8) && t.seen == Some(1.5) && d.lastObservedAt == t.seen
          && d.lastOnAt == Some(1.2) && d.lastSignalAt == 1.2 && d.localQualified
          && (d.attackSince == (if d.active then Some(0.0) else None))
          && (k == 7 ==> !d.active))
    && (k == 8 ==> d.active && t.since != [] && !t.since[|t.since| - 1].Programme())
  }

  lemma MidwayBegins(t: Trace, k: nat, r: real)
    requires 0.0 < r <= LINK_SECONDS && k == 0 && Midway(t, k, r)
    ensures Legit(t, RearmingRun()[k]) && CaptureOnly(RearmingRun()[k])
    ensures Midway(Next(t, RearmingRun()[k]), k + 1, r)
  {
  }

  lemma MidwaySecond(t: Trace, k: nat, r: real)
    requires 0.0 < r <= LINK_SECONDS && k == 1 && Midway(t, k, r)
    ensures Legit(t, RearmingRun()[k]) && CaptureOnly(RearmingRun()[k])
    ensures Midway(Next(t, RearmingRun()[k]), k + 1, r)
  {
    hide Confirmed, Tail, ObsOf, Signals, Continued;
  }

  lemma MidwayAttacks(t: Trace, k: nat, r: real)
    requires 0.0 < r <= LINK_SECONDS && 2 <= k < 4 && Midway(t, k, r)
    ensures Legit(t, RearmingRun()[k]) && CaptureOnly(RearmingRun()[k])
    ensures Midway(Next(t, RearmingRun()[k]), k + 1, r)
  {
    hide Confirmed, Tail, ObsOf, Signals, Continued;
  }

  lemma MidwayQualifies(t: Trace, k: nat, r: real)
    requires 0.0 < r <= LINK_SECONDS && k == 4 && Midway(t, k, r)
    ensures Legit(t, RearmingRun()[k]) && CaptureOnly(RearmingRun()[k])
    ensures Midway(Next(t, RearmingRun()[k]), k + 1, r)
  {
    hide Confirmed, Tail, ObsOf, Signals, Continued;
  }

  lemma MidwayReleases(t: Trace, k: nat, r: real)
    requires 0.0 < r <= LINK_SECONDS && 5 <= k < 7 && Midway(t, k, r)
    ensures Legit(t, RearmingRun()[k]) && CaptureOnly(RearmingRun()[k])
    ensures Midway(Next(t, RearmingRun()[k]), k + 1, r)
  {
    hide Confirmed, Tail, ObsOf, Signals, Continued;
  }

  lemma MidwayRearms(t: Trace, k: nat, r: real)
    requires 0.0 < r <= LINK_SECONDS && k == 7 && Remembered(t) && Midway(t, k, r)
    ensures Legit(t, RearmingRun()[k]) && CaptureOnly(RearmingRun()[k])
    ensures Midway(Next(t, RearmingRun()[k]), k + 1, r)
  {
    ObsIsNoted(t, RearmingRun()[k]);
    hide Confirmed, Tail, ObsOf, Obs.Programme, Obs.Keeps;
  }

  lemma MidwayStep(t: Trace, k: nat, r: real)
    requires 0.0 < r <= LINK_SECONDS && k < 8 && Remembered(t) && Midway(t, k, r)
    ensures Legit(t, RearmingRun()[k]) && CaptureOnly(RearmingRun()[k])
    ensures Midway(Next(t, RearmingRun()[k]), k + 1, r)
  {
    assert |RearmingRun()| == 8 by { EightSteps(); }
    hide Midway, Next, Legit, RearmingRun, Remembered;
    if k == 0 { MidwayBegins(t, k, r); }
    else if k == 1 { MidwaySecond(t, k, r); }
    else if k < 4 { MidwayAttacks(t, k, r); }
    else if k == 4 { MidwayQualifies(t, k, r); }
    else if k < 7 { MidwayReleases(t, k, r); }
    else { MidwayRearms(t, k, r); }
  }

  lemma {:induction false} MidwayRun(r: real, k: nat)
    requires 0.0 < r <= LINK_SECONDS && k <= 8
    ensures Midway(Run(Start(Analog, 0.0, false, r, Some(0)), RearmingRun()[..k]), k, r)
    ensures Remembered(Run(Start(Analog, 0.0, false, r, Some(0)), RearmingRun()[..k]))
    ensures forall i: nat | i < k ::
              Legit(Run(Start(Analog, 0.0, false, r, Some(0)), RearmingRun()[..i]), RearmingRun()[i])
              && CaptureOnly(RearmingRun()[i])
  {
    hide Midway, Next, Legit, RearmingRun, Remembered, CaptureOnly, Start;
    assert |RearmingRun()| == 8 by { EightSteps(); }
    if k > 0 {
      MidwayRun(r, k - 1);
      assert RearmingRun()[..k][..k - 1] == RearmingRun()[..k - 1];
      MidwayStep(Run(Start(Analog, 0.0, false, r, Some(0)), RearmingRun()[..k - 1]), k - 1, r);
      NextRemembers(Run(Start(Analog, 0.0, false, r, Some(0)), RearmingRun()[..k - 1]), RearmingRun()[k - 1]);
    } else {
      StartMidway(r);
    }
  }

  lemma EightSteps()
    ensures |RearmingRun()| == 8 && RearmingRun()[7].Capture? && forall op | op in RearmingRun() :: !op.SetRelease?
  {
  }

  lemma StartMidway(r: real)
    ensures Midway(Start(Analog, 0.0, false, r, Some(0)), 0, r) && Remembered(Start(Analog, 0.0, false, r, Some(0)))
  {
  }

  lemma ShortHoldRearms(r: real)
    requires 0.0 < r <= LINK_SECONDS
    ensures CaptureRun(Start(Analog, 0.0, false, r, Some(0)), RearmingRun())
    ensures ArmedByLast(Start(Analog, 0.0, false, r, Some(0)), RearmingRun())
    ensures !Sustained(Run(Start(Analog, 0.0, false, r, Some(0)), RearmingRun()).since)
    ensures ReleasesIn({r}, r, RearmingRun())
  {
    hide Next, Legit, RearmingRun;
    EightSteps();
    var ops, t := RearmingRun(), Start(Analog, 0.0, false, r, Some(0));
    MidwayRun(r, 7);
    MidwayRun(r, 8);
    assert ops[..8] == ops;
  }

  lemma NoHoldNeverArms(t: Trace, op: Op)
    requires Remembered(t) && Legit(t, op) && t.d.releaseSeconds <= 0.0 && op.Capture? && !t.d.active
    ensures !Next(t, op).d.active
  {
    if !Rejected(t.d, op.context) {
      NextRemembers(t, op);
      hide AfterStep, On, Keep, Attack;
      assert ReleaseHold(Next(t, op).d) <= 0.0 by { KeptRelease(t, op); }
      SilenceReleases(t, op);
    }
  }

  lemma KeptRelease(t: Trace, op: Op)
    ensures Next(t, op).d.releaseSeconds == if op.SetRelease? then op.seconds else t.d.releaseSeconds
  {
    if op.Capture? && !Rejected(t.d, op.context) {
      var n := Noted(t.d, op.now, op.block, op.lock);
      NotedFacts(t.d, op.now, op.block, op.lock);
      StepFacts(n, op.now, On(n, op.block), Keep(n, op.block), Attack(n));
    } else if op.Presence? {
      StepFacts(t.d.(missing := false, lastObservedAt := Some(op.now)), op.now, op.present, op.present, 0.0);
    }
    hide AfterStep, Noted, On, Keep, Attack, ObsOf, Signals, Continued, Rejected, StreamType, Stale, ReleaseHold;
  }

  lemma {:induction false} RunKeepsRelease(releases: set<real>, t: Trace, ops: seq<Op>)
    requires ReleasesIn(releases, t.d.releaseSeconds, ops)
    ensures Run(t, ops).d.releaseSeconds in releases
  {
    hide Next;
    if ops != [] {
      assert ops[|ops| - 1] in ops;
      RunKeepsRelease(releases, t, ops[..|ops| - 1]);
      KeptRelease(Run(t, ops[..|ops| - 1]), ops[|ops| - 1]);
    }
  }

  predicate AllLong(releases: set<real>) { forall r | r in releases :: r > LINK_SECONDS }

  predicate AllSpent(releases: set<real>) { forall r | r in releases :: r <= 0.0 }

  /** Exactly which release times, however they change, never let a stale qualification arm the input again: all
      longer than two gaps, or none of them positive. */
  lemma StaleQualificationNeverRearms(releases: set<real>)
    ensures ArmsOnlyWhenSustained(releases) <==> AllLong(releases) || AllSpent(releases)
  {
    hide CaptureRun, Sustained, Run, Start, ArmedByLast;
    if AllLong(releases) || AllSpent(releases) {
      forall kind, now, assumeActive, r, context, ops
        | ReleasesIn(releases, r, ops) && CaptureRun(Start(kind, now, assumeActive, r, context), ops)
          && ArmedByLast(Start(kind, now, assumeActive, r, context), ops)
        ensures Sustained(Run(Start(kind, now, assumeActive, r, context), ops).since)
      {
        NoStaleRearming(releases, kind, now, assumeActive, r, context, ops);
      }
    } else if short :| short in releases && 0.0 < short <= LINK_SECONDS {
      ShortHoldRearms(short);
      ReleasesWiden({short}, releases, short, RearmingRun());
    } else {
      var spent :| spent in releases && spent <= LINK_SECONDS;
      var long :| long in releases && long > 0.0;
      LengthenedHoldRearms(spent, long);
      ReleasesWiden({spent, long}, releases, spent, LengtheningRun(long));
    }
  }

  const RELEASE_SECONDS: real := 60.0
  const REARM_SECONDS: real := 1.0

  /** The release times in use, for a held input and for any other, are such ones. */
  lemma ReleaseTimesInUse()
    ensures ArmsOnlyWhenSustained({RELEASE_SECONDS, REARM_SECONDS})
  {
    StaleQualificationNeverRearms({RELEASE_SECONDS, REARM_SECONDS});
  }

  lemma ReleasesWiden(some: set<real>, releases: set<real>, r: real, ops: seq<Op>)
    requires some <= releases && ReleasesIn(some, r, ops)
    ensures ReleasesIn(releases, r, ops)
  {
  }

  lemma NoStaleRearming(releases: set<real>, kind: Kind, now: real, assumeActive: bool, r: real, context: Option<int>,
                        ops: seq<Op>)
    requires AllLong(releases) || AllSpent(releases)
    requires ReleasesIn(releases, r, ops) && CaptureRun(Start(kind, now, assumeActive, r, context), ops)
    requires ArmedByLast(Start(kind, now, assumeActive, r, context), ops)
    ensures Sustained(Run(Start(kind, now, assumeActive, r, context), ops).since)
  {
    if AllLong(releases) {
      StartInv(kind, now, assumeActive, r, context);
      IsLongRun(releases, Start(kind, now, assumeActive, r, context), r, ops);
      SustainedInRun(Start(kind, now, assumeActive, r, context), ops);
    } else {
      NoHoldRun(releases, kind, now, assumeActive, r, context, ops);
    }
  }

  lemma IsLongRun(releases: set<real>, t: Trace, r: real, ops: seq<Op>)
    requires AllLong(releases) && ReleasesIn(releases, r, ops) && CaptureRun(t, ops)
    ensures LongRun(t, ops)
  {
    hide CaptureRun;
    forall i | 0 <= i < |ops| ensures Long(ops[i]) { assert ops[i] in ops; }
  }

  lemma NoHoldRun(releases: set<real>, kind: Kind, now: real, assumeActive: bool, r: real, context: Option<int>,
                  ops: seq<Op>)
    requires AllSpent(releases) && ReleasesIn(releases, r, ops)
    requires CaptureRun(Start(kind, now, assumeActive, r, context), ops)
    ensures !ArmedByLast(Start(kind, now, assumeActive, r, context), ops)
  {
    var t := Start(kind, now, assumeActive, r, context);
    if ops != [] && ops[|ops| - 1].Capture? {
      LegitPrefix(t, ops);
      assert Remembered(t);
      assert t.d.releaseSeconds == r by { StartRelease(kind, now, assumeActive, r, context); }
      hide Next, Remembered, Legit, Start, AfterStep;
      RunRemembers(t, ops[..|ops| - 1]);
      RunKeepsRelease(releases, t, ops[..|ops| - 1]);
      if !Run(t, ops[..|ops| - 1]).d.active {
        NoHoldNeverArms(Run(t, ops[..|ops| - 1]), ops[|ops| - 1]);
      }
    }
  }

  lemma StartRelease(kind: Kind, now: real, assumeActive: bool, r: real, context: Option<int>)
    ensures Start(kind, now, assumeActive, r, context).d.releaseSeconds == r
  {
  }

  // ---------- a release time that grows over a spent one ----------

  /** Qualify while the release time lets the input fall at once, set a long one, and then murmur. */
  function LengtheningRun(long: real): seq<Op> {
    [ Capture(0.0, PROGRAMME, None, Some(0)), Capture(0.3, PROGRAMME, None, Some(0)),
      Capture(0.6, PROGRAMME, None, Some(0)), Capture(0.9, PROGRAMME, None, Some(0)),
      Capture(1.2, PROGRAMME, None, Some(0)), SetRelease(long), Capture(1.2, MURMUR, None, Some(0)) ]
  }

  /** Where that run has come after its first k operations. */
  ghost predicate Lengthening(t: Trace, k: nat, spent: real, long: real) {
    var d := t.d;
    && d.kind == Analog && !d.externalPresence && !d.digital && d.stream == Pcm && d.candidate == Pcm
    && d.generation == Some(0) && d.lock.None? && !d.missing
    && d.releaseSeconds == (if k < 6 then spent else long)
    && (k == 0 ==> t.clock == 0.0 && t.seen.None? && d.lastObservedAt.None? && !d.active && !d.localQualified
                   && d.attackSince.None?)
    && (1 <= k <= 4 ==>
          && t.clock == 0.3 * (k - 1) as real && t.seen == Some(t.clock) && d.lastObservedAt == t.seen
          && d.lastOnAt == Some(t.clock) && d.lastSignalAt == t.clock && d.attackSince == Some(0.0)
          && !d.localQualified && !d.active)
    && (5 <= k <= 6 ==>
          && t.clock == 1.2 && t.seen == Some(1.2) && d.lastObservedAt == t.seen
          && d.lastOnAt == Some(1.2) && d.lastSignalAt == 1.2 && d.attackSince.None?
          && d.localQualified && !d.active)
    && (k == 7 ==> d.active && t.since != [] && !t.since[|t.since| - 1].Programme())
  }

  lemma LengtheningBegins(t: Trace, k: nat, spent: real, long: real)
    requires spent <= 0.0 < long && k == 0 && Lengthening(t, k, spent, long)
    ensures Legit(t, LengtheningRun(long)[k]) && CaptureOnly(LengtheningRun(long)[k])
    ensures Lengthening(Next(t, LengtheningRun(long)[k]), k + 1, spent, long)
  {
  }

  lemma LengtheningAttacks(t: Trace, k: nat, spent: real, long: real)
    requires spent <= 0.0 < long && 1 <= k < 4 && Lengthening(t, k, spent, long)
    ensures Legit(t, LengtheningRun(long)[k]) && CaptureOnly(LengtheningRun(long)[k])
    ensures Lengthening(Next(t, LengtheningRun(long)[k]), k + 1, spent, long)
  {
    hide Confirmed, Tail, ObsOf, Signals, Continued;
  }

  lemma LengtheningQualifies(t: Trace, k: nat, spent: real, long: real)
    requires spent <= 0.0 < long && k == 4 && Lengthening(t, k, spent, long)
    ensures Legit(t, LengtheningRun(long)[k]) && CaptureOnly(LengtheningRun(long)[k])
    ensures Lengthening(Next(t, LengtheningRun(long)[k]), k + 1, spent, long)
  {
    hide Confirmed, Tail, ObsOf, Signals, Continued;
  }

  lemma LengtheningSetsRelease(t: Trace, k: nat, spent: real, long: real)
    requires spent <= 0.0 < long && k == 5 && Lengthening(t, k, spent, long)
    ensures Legit(t, LengtheningRun(long)[k]) && CaptureOnly(LengtheningRun(long)[k])
    ensures Lengthening(Next(t, LengtheningRun(long)[k]), k + 1, spent, long)
  {
  }

  lemma LengtheningRearms(t: Trace, k: nat, spent: real, long: real)
    requires spent <= 0.0 < long && k == 6 && Remembered(t) && Lengthening(t, k, spent, long)
    ensures Legit(t, LengtheningRun(long)[k]) && CaptureOnly(LengtheningRun(long)[k])
    ensures Lengthening(Next(t, LengtheningRun(long)[k]), k + 1, spent, long)
  {
    ObsIsNoted(t, LengtheningRun(long)[k]);
    hide Confirmed, Tail, ObsOf, Obs.Programme, Obs.Keeps;
  }

  lemma LengtheningStep(t: Trace, k: nat, spent: real, long: real)
    requires spent <= 0.0 < long && k < 7 && Remembered(t) && Lengthening(t, k, spent, long)
    ensures |LengtheningRun(long)| == 7
    ensures Legit(t, LengtheningRun(long)[k]) && CaptureOnly(LengtheningRun(long)[k])
    ensures Lengthening(Next(t, LengtheningRun(long)[k]), k + 1, spent, long)
  {
    SevenSteps(long);
    hide Lengthening, Next, Legit, LengtheningRun, Remembered;
    if k == 0 { LengtheningBegins(t, k, spent, long); }
    else if k < 4 { LengtheningAttacks(t, k, spent, long); }
    else if k == 4 { LengtheningQualifies(t, k, spent, long); }
    else if k == 5 { LengtheningSetsRelease(t, k, spent, long); }
    else { LengtheningRearms(t, k, spent, long); }
  }

  lemma {:induction false} LengtheningTo(spent: real, long: real, k: nat)
    requires spent <= 0.0 < long && k <= 7
    ensures |LengtheningRun(long)| == 7
    ensures Lengthening(Run(Start(Analog, 0.0, false, spent, Some(0)), LengtheningRun(long)[..k]), k, spent, long)
    ensures Remembered(Run(Start(Analog, 0.0, false, spent, Some(0)), LengtheningRun(long)[..k]))
    ensures forall i: nat | i < k ::
              Legit(Run(Start(Analog, 0.0, false, spent, Some(0)), LengtheningRun(long)[..i]), LengtheningRun(long)[i])
              && CaptureOnly(LengtheningRun(long)[i])
  {
    SevenSteps(long);
    hide Lengthening, Next, Legit, LengtheningRun, Remembered;
    if k > 0 {
      LengtheningTo(spent, long, k - 1);
      assert LengtheningRun(long)[..k][..k - 1] == LengtheningRun(long)[..k - 1];
      var before := Run(Start(Analog, 0.0, false, spent, Some(0)), LengtheningRun(long)[..k - 1]);
      LengtheningStep(before, k - 1, spent, long);
      NextRemembers(before, LengtheningRun(long)[k - 1]);
    } else {
      StartLengthening(spent, long);
    }
  }

  lemma SevenSteps(long: real)
    ensures |LengtheningRun(long)| == 7 && LengtheningRun(long)[6].Capture?
    ensures forall op | op in LengtheningRun(long) && op.SetRelease? :: op.seconds == long
  {
  }

  lemma StartLengthening(spent: real, long: real)
    ensures Lengthening(Start(Analog, 0.0, false, spent, Some(0)), 0, spent, long)
    ensures Remembered(Start(Analog, 0.0, false, spent, Some(0)))
  {
  }

  lemma LengthenedHoldRearms(spent: real, long: real)
    requires spent <= 0.0 < long
    ensures CaptureRun(Start(Analog, 0.0, false, spent, Some(0)), LengtheningRun(long))
    ensures ReleasesIn({spent, long}, spent, LengtheningRun(long))
    ensures ArmedByLast(Start(Analog, 0.0, false, spent, Some(0)), LengtheningRun(long))
    ensures !Sustained(Run(Start(Analog, 0.0, false, spent, Some(0)), LengtheningRun(long)).since)
  {
    hide Next, Legit, LengtheningRun;
    SevenSteps(long);
    var ops := LengtheningRun(long);
    LengtheningTo(spent, long, 6);
    LengtheningTo(spent, long, 7);
    assert ops[..7] == ops;
  }

  // ---------- and a sustained signal does arm ----------

  /** How many of the latest blocks were programme without a break. */
  function Trail(since: seq<Obs>): (n: nat)
    ensures n <= |since|
  {
    if since == [] || !since[|since| - 1].Programme() then 0 else 1 + Trail(since[..|since| - 1])
  }

  /** The attack window reaches back at least over the unbroken programme, unless that has gone stale. */
  ghost predicate Covers(t: Trace) {
    Trail(t.since) > 0 ==>
      t.seen.Some? && (t.clock > t.seen.value + ATTACK_GAP_SECONDS
                       || (t.d.attackSince.Some? && t.d.attackSince.value <= t.since[|t.since| - Trail(t.since)].now))
  }

  /** One more block of history: how far back its unbroken programme reaches. */
  lemma OneMoreTrail(kept: seq<Obs>, o: Obs)
    ensures var since := kept + [o];
            && Trail(since) == (if o.Programme() then Trail(kept) + 1 else 0)
            && (o.Programme() ==>
                  since[|since| - Trail(since)] == if Trail(kept) == 0 then o else kept[|kept| - Trail(kept)])
  {
    assert (kept + [o])[..|kept|] == kept;
  }

  /** The operation is an accepted block with which the programme has been unbroken for at least the attack time
      of that block. */
  ghost predicate Completes(t: Trace, op: Op) {
    && op.Capture? && !Rejected(t.d, op.context)
    && var since := Next(t, op).since;
       Trail(since) > 0 && op.now - since[|since| - Trail(since)].now >= since[|since| - 1].AttackSeconds()
  }

  /** The window a noted block finds reaches back over the programme that still counts. */
  lemma KeptTrail(t: Trace, op: Op)
    requires Inv(t) && Covers(t) && Legit(t, op) && op.Capture? && !Rejected(t.d, op.context)
    ensures var n, kept := Noted(t.d, op.now, op.block, op.lock), Continued(t, op.now);
            Trail(kept) > 0 ==> n.attackSince.Some? && n.attackSince.value <= kept[|kept| - Trail(kept)].now
  {
    NotedAttack(t, op);
    assert Trail([]) == 0;
    hide Noted, Trail, Inv, Rejected;
  }

  /** What an accepted block makes of the trace. */
  lemma CaptureShape(t: Trace, op: Op)
    requires op.Capture? && !Rejected(t.d, op.context)
    ensures var n, r := Noted(t.d, op.now, op.block, op.lock), Next(t, op);
            && r.since == Continued(t, op.now) + [ObsOf(t, op)] && r.seen == Some(op.now) && r.clock == op.now
            && r.d == AfterStep(n, op.now, On(n, op.block), Keep(n, op.block), Attack(n))
  {
    hide Noted, AfterStep, On, Keep, Attack, ObsOf, Continued, Rejected, Signals;
  }

  lemma ProgrammeCovers(t: Trace, op: Op)
    requires Inv(t) && Covers(t) && Legit(t, op) && op.Capture? && !Rejected(t.d, op.context)
    ensures var n, kept, r := Noted(t.d, op.now, op.block, op.lock), Continued(t, op.now), Next(t, op);
            On(n, op.block) ==>
              && r.d.attackSince.Some?
              && r.d.attackSince.value <= (if Trail(kept) == 0 then op.now else kept[|kept| - Trail(kept)].now)
              && (op.now - r.d.attackSince.value >= Attack(n) ==> r.d.active)
  {
    var n := Noted(t.d, op.now, op.block, op.lock);
    CaptureShape(t, op);
    ProgrammeKeeps(n, op.block);
    NotedAttack(t, op);
    KeptTrail(t, op);
    ProgrammeStep(n, op.now, Attack(n));
    hide AfterStep, Noted, On, Keep, Attack, Inv, Next, Rejected, Continued, ObsOf, Trail, ReleaseHold, Covers;
  }

  lemma CaptureCovers(t: Trace, op: Op)
    requires Inv(t) && Covers(t) && Legit(t, op) && op.Capture? && !Rejected(t.d, op.context)
    ensures Covers(Next(t, op)) && (Completes(t, op) ==> Next(t, op).d.active)
  {
    var n := Noted(t.d, op.now, op.block, op.lock);
    var kept, o := Continued(t, op.now), ObsOf(t, op);
    CaptureShape(t, op);
    ObsIsNoted(t, op);
    OneMoreTrail(kept, o);
    ProgrammeCovers(t, op);
    hide AfterStep, Noted, On, Keep, Attack, Inv, Next, Legit, Rejected, Continued, ObsOf, Trail, ReleaseHold,
      Remembered, StreamType, Obs.Type, Obs.Programme, Obs.Keeps, Obs.AttackSeconds;
  }

  lemma NotedAttack(t: Trace, op: Op)
    requires Inv(t) && Legit(t, op) && op.Capture? && !Rejected(t.d, op.context)
    ensures var n := Noted(t.d, op.now, op.block, op.lock);
            && (Continued(t, op.now) == t.since && t.since != [] ==> n.attackSince == t.d.attackSince)
            && (n.attackSince.Some? ==> n.attackSince.value <= t.clock)
            && ReleaseHold(n) > 0.0
  {
  }

  lemma NextCovers(t: Trace, op: Op)
    requires Inv(t) && Covers(t) && Legit(t, op) && CaptureOnly(op) && Long(op)
    ensures Covers(Next(t, op))
  {
    if op.Capture? && !Rejected(t.d, op.context) {
      CaptureCovers(t, op);
    } else if op.Tick? || op.External? {
      LastOnIsLast(t.since);
    }
  }

  lemma LastOnIsLast(since: seq<Obs>)
    ensures Trail(since) > 0 ==> Ons(since) != [] && Last(Ons(since)) == since[|since| - 1].now
  {
  }

  lemma {:induction false} RunCovers(t: Trace, ops: seq<Op>)
    requires Inv(t) && Covers(t) && LongRun(t, ops)
    ensures Covers(Run(t, ops))
  {
    hide Inv, Next, Covers, LongRun;
    if ops != [] {
      LongPrefix(t, ops);
      RunInv(t, ops[..|ops| - 1]);
      RunCovers(t, ops[..|ops| - 1]);
      NextCovers(Run(t, ops[..|ops| - 1]), ops[|ops| - 1]);
    }
  }

  ghost predicate EndsUnbroken(t: Trace, ops: seq<Op>) {
    ops != [] && Completes(Run(t, ops[..|ops| - 1]), ops[|ops| - 1])
  }

  lemma ArmsAtEnd(t: Trace, ops: seq<Op>)
    requires Inv(t) && Covers(t) && ops != [] && LongRun(t, ops)
    requires EndsUnbroken(t, ops)
    ensures Run(t, ops).d.active
  {
    BeforeLast(t, ops);
    hide Inv, Next, Covers, Legit, Run, LongRun;
    assert !Rejected(Run(t, ops[..|ops| - 1]).d, ops[|ops| - 1].context);
    hide Completes;
    CaptureCovers(Run(t, ops[..|ops| - 1]), ops[|ops| - 1]);
  }

  lemma BeforeLast(t: Trace, ops: seq<Op>)
    requires Inv(t) && Covers(t) && ops != [] && LongRun(t, ops)
    ensures var before, last := Run(t, ops[..|ops| - 1]), ops[|ops| - 1];
            && Inv(before) && Covers(before) && Legit(before, last) && CaptureOnly(last)
            && Run(t, ops) == Next(before, last)
  {
    hide Inv, Next, Covers, Legit, CaptureOnly, LongRun;
    LongPrefix(t, ops);
    RunInv(t, ops[..|ops| - 1]);
    RunCovers(t, ops[..|ops| - 1]);
  }

  lemma StartCovers(kind: Kind, now: real, assumeActive: bool, releaseSeconds: real, context: Option<int>)
    ensures Covers(Start(kind, now, assumeActive, releaseSeconds, context))
  {
  }

  /** Over any run from the start: a captured block that completes an unbroken stretch of programme as long
      as its own attack time leaves the input active. */
  lemma UnbrokenProgrammeArms(kind: Kind, now: real, assumeActive: bool, r: real, context: Option<int>, ops: seq<Op>)
    requires r > LINK_SECONDS && LongRun(Start(kind, now, assumeActive, r, context), ops)
    requires EndsUnbroken(Start(kind, now, assumeActive, r, context), ops)
    ensures Run(Start(kind, now, assumeActive, r, context), ops).d.active
  {
    StartInv(kind, now, assumeActive, r, context);
    StartCovers(kind, now, assumeActive, r, context);
    hide *;
    ArmsAtEnd(Start(kind, now, assumeActive, r, context), ops);
  }
}
