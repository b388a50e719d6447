/**
 What arms an input, in the levels a capture delivers: PCM blocks that are loud enough,
 close enough together and go on for long enough, whatever came before them.
 */
module InputLevels {
  import opened Wrappers
  import opened InputActivity
  import opened InputHistory

  /** The attack window began no later than now. */
  predicate AttackPast(t: Trace) { t.d.attackSince.Some? ==> t.d.attackSince.value <= t.clock }

  lemma StepAttackPast(t: Trace, op: Op)
    requires AttackPast(t) && Legit(t, op)
    ensures AttackPast(Next(t, op))
  {
    hide Noted, On, Keep, Attack;
    if op.Capture? && !Rejected(t.d, op.context) {
      var n := Noted(t.d, op.now, op.block, op.lock);
      NotedAttackPast(t, op);
      AttackNotLater(n, op.now, On(n, op.block), Keep(n, op.block), Attack(n));
    } else if op.Presence? {
      AttackNotLater(t.d.(missing := false, lastObservedAt := Some(op.now)), op.now, op.present, op.present, 0.0);
    }
    hide AfterStep, ObsOf, Signals, Continued;
  }

  lemma NotedAttackPast(t: Trace, op: Op)
    requires op.Capture?
    ensures var n := Noted(t.d, op.now, op.block, op.lock); n.attackSince.Some? ==> n.attackSince == t.d.attackSince
  {
  }

  lemma AttackNotLater(d: Detector, now: real, on: bool, keep: bool, attack: real)
    requires d.attackSince.Some? ==> d.attackSince.value <= now
    ensures var r := AfterStep(d, now, on, keep, attack); r.attackSince.Some? ==> r.attackSince.value <= now
    ensures var r := AfterStep(d, now, on, keep, attack); on && keep && attack <= 0.0 && ReleaseHold(r) > 0.0 ==>
              r.active
  {
  }

  lemma {:induction false} RunAttackPast(t: Trace, ops: seq<Op>)
    requires AttackPast(t) && LegitRun(t, ops)
    ensures AttackPast(Run(t, ops))
  {
    hide AttackPast, Next, Legit;
    if ops != [] {
      LegitPrefix(t, ops);
      RunAttackPast(t, ops[..|ops| - 1]);
      StepAttackPast(Run(t, ops[..|ops| - 1]), ops[|ops| - 1]);
    }
  }

  /** A block of plain PCM, and not all zeros. */
  predicate PlainPcm(b: Block) { (b.encoding.None? || b.encoding.value == "") && !b.encodedIdle && !b.digitalSilence }

  /** A digital input counts as playing from a peak of -80 dBFS on, any other from an rms level of -50 dBFS on. */
  predicate Loud(b: Block, digital: bool) {
    PlainPcm(b) && if digital then AtLeastDbfs(b.peak, -80.0) else AtLeastDbfs(b.rms, -50.0)
  }

  /** A digital input has to play for half a second before it counts, any other for a whole one. */
  function Needed(digital: bool): real { if digital then 0.5 else 1.0 }

  predicate LoudBlock(context: Option<int>, digital: bool, op: Op) {
    op.Capture? && op.context == context && op.lock != Some(false) && Loud(op.block, digital)
  }

  /** Blocks of the running capture, none without lock, all loud, neighbours at most 0.3 s apart. */
  ghost predicate LoudStretch(t: Trace, blocks: seq<Op>, digital: bool) {
    && blocks != [] && LegitRun(t, blocks) && t.d.generation.Some?
    && (forall i | 0 <= i < |blocks| :: LoudBlock(t.d.generation, digital, blocks[i]))
    && (forall i, j | 0 <= i && j == i + 1 && j < |blocks| :: blocks[j].now - blocks[i].now <= 0.3)
  }

  /** What the trace says once a loud stretch that began at `first` has come to its block at `last`. */
  ghost predicate Playing(t: Trace, context: Option<int>, digital: bool, first: real, last: real) {
    && Remembered(t) && t.clock == last && t.seen == Some(last)
    && t.d.generation == context && t.d.releaseSeconds > 0.0
    && (digital ==> t.digital) && Confirmed(t.since) != EncodedIdle
    && t.d.attackSince.Some? && t.d.attackSince.value <= first
    && (last - first >= Needed(digital) ==> t.d.active)
  }

  lemma LoudObs(t: Trace, op: Op, digital: bool)
    requires Remembered(t) && Legit(t, op) && LoudBlock(t.d.generation, digital, op) && t.d.generation.Some?
    requires (digital ==> t.digital) && Confirmed(t.since) != EncodedIdle
    ensures var o := ObsOf(t, op);
            && o.Programme() && o.Keeps() && o.AttackSeconds() <= Needed(digital)
            && Confirmed(Continued(t, op.now) + [o]) != EncodedIdle
  {
    var kept, o := Continued(t, op.now), ObsOf(t, op);
    ObsFields(t, op);
    LoudType(o, digital);
    OneMoreBlock(kept, o);
    assert kept == t.since || Confirmed(kept) == Pcm;
    if o.stream != EncodedIdle { LoudLevels(o, digital); }
    hide Noted, Confirmed, Tail, ObsOf, Continued, Remembered, Obs.Type, Obs.Programme, Obs.Keeps, Obs.AttackSeconds,
      Loud, NotAbove, Rejected;
  }

  lemma LoudType(o: Obs, digital: bool)
    requires Loud(o.block, digital)
    ensures o.Type() == Pcm
  {
  }

  lemma LoudLevels(o: Obs, digital: bool)
    requires Loud(o.block, digital) && NotAbove(o.block.rms, o.block.peak) && o.lock != Some(false)
    requires o.stream != EncodedIdle && (digital ==> o.digital)
    ensures o.Programme() && o.Keeps() && o.AttackSeconds() <= Needed(digital)
  {
  }

  /** A loud block counts as programme, on a digital input and on any other. */
  lemma LoudIsProgramme(t: Trace, op: Op, digital: bool)
    requires Remembered(t) && Legit(t, op) && LoudBlock(t.d.generation, digital, op) && t.d.generation.Some?
    requires (digital ==> t.digital) && Confirmed(t.since) != EncodedIdle
    ensures var n := Noted(t.d, op.now, op.block, op.lock);
            On(n, op.block) && Keep(n, op.block) && Attack(n) <= Needed(digital)
    ensures Confirmed(Next(t, op).since) != EncodedIdle && (digital ==> Next(t, op).digital)
  {
    ObsIsNoted(t, op);
    LoudObs(t, op, digital);
    assert Next(t, op).since == Continued(t, op.now) + [ObsOf(t, op)];
    hide Noted, On, Keep, Attack, Confirmed, Tail, ObsOf, DetectorAfter, Signals, Obs.Programme, Obs.Keeps,
      Obs.AttackSeconds, Continued, Loud, Remembered, Obs.Type, StreamType;
  }

  /** A programme block finds an attack window or opens one, and arms once the window is as long as the attack. */
  lemma ProgrammeStep(n: Detector, now: real, attack: real)
    requires ReleaseHold(n) > 0.0
    ensures var r := AfterStep(n, now, true, true, attack);
            && r.attackSince == (if n.attackSince.None? then Some(now) else n.attackSince)
            && (now - r.attackSince.value >= attack ==> r.active)
  {
  }

  lemma HoldsStayPositive(d: Detector)
    requires d.releaseSeconds > 0.0
    ensures ReleaseHold(d) > 0.0
  {
  }

  lemma NextLoud(t: Trace, op: Op, digital: bool)
    requires Remembered(t) && Legit(t, op) && LoudBlock(t.d.generation, digital, op) && t.d.generation.Some?
    requires (digital ==> t.digital) && Confirmed(t.since) != EncodedIdle && t.d.releaseSeconds > 0.0
    ensures var r := Next(t, op);
            && Remembered(r) && r.clock == op.now && r.seen == Some(op.now) && r.d.generation == t.d.generation
            && r.d.releaseSeconds > 0.0 && (digital ==> r.digital) && Confirmed(r.since) != EncodedIdle
            && r.d.attackSince == (if Stale(t.d, op.now) || t.d.attackSince.None? then Some(op.now)
                                   else t.d.attackSince)
            && (op.now - r.d.attackSince.value >= Needed(digital) ==> r.d.active)
  {
    var n := Noted(t.d, op.now, op.block, op.lock);
    NextRemembers(t, op);
    LoudIsProgramme(t, op, digital);
    NotedFacts(t.d, op.now, op.block, op.lock);
    StepFacts(n, op.now, true, true, Attack(n));
    HoldsStayPositive(n);
    ProgrammeStep(n, op.now, Attack(n));
    assert Next(t, op).d == AfterStep(n, op.now, On(n, op.block), Keep(n, op.block), Attack(n));
    hide Noted, On, Keep, Attack, AfterStep, Confirmed, Remembered, Signals, ObsOf, Continued, Loud, ReleaseHold,
      StreamType;
  }

  lemma PlaysOn(t: Trace, context: Option<int>, digital: bool, first: real, last: real, op: Op)
    requires Playing(t, context, digital, first, last) && Legit(t, op) && LoudBlock(context, digital, op)
    requires context.Some? && op.now - last <= 0.3
    ensures Playing(Next(t, op), context, digital, first, op.now)
  {
    assert !Stale(t.d, op.now);
    NextLoud(t, op, digital);
    hide Next, Legit, LoudBlock, Confirmed;
  }

  lemma OneBlock(t: Trace, blocks: seq<Op>, digital: bool)
    requires |blocks| == 1 && LoudStretch(t, blocks, digital)
    ensures Legit(t, blocks[0]) && LoudBlock(t.d.generation, digital, blocks[0]) && Run(t, blocks) == Next(t, blocks[0])
    ensures t.d.generation.Some? && blocks[0].Capture? && blocks[0].now >= t.clock
  {
    hide Next, Loud, NotAbove;
    assert blocks[..0] == [] && Run(t, blocks[..0]) == t;
  }

  /** A longer stretch without its last block, and that block. */
  lemma LastBlock(t: Trace, blocks: seq<Op>, digital: bool)
    requires |blocks| > 1 && LoudStretch(t, blocks, digital)
    ensures var k := |blocks| - 1;
            && Legit(Run(t, blocks[..k]), blocks[k]) && LoudBlock(t.d.generation, digital, blocks[k])
            && LoudStretch(t, blocks[..k], digital) && t.d.generation.Some?
            && blocks[0].Capture? && blocks[k - 1].Capture? && blocks[k].Capture?
            && blocks[k].now - blocks[k - 1].now <= 0.3
  {
    hide Run, Legit, Loud;
    LegitPrefix(t, blocks);
    var k := |blocks| - 1;
    assert LoudBlock(t.d.generation, digital, blocks[0]);
    assert LoudBlock(t.d.generation, digital, blocks[k - 1]) && LoudBlock(t.d.generation, digital, blocks[k]);
    hide LegitRun, LoudBlock;
  }

  lemma {:induction false} StretchPlays(t: Trace, blocks: seq<Op>, digital: bool)
    requires blocks != [] && Remembered(t) && AttackPast(t) && LoudStretch(t, blocks, digital)
    requires blocks[0].Capture? && blocks[|blocks| - 1].Capture?
    requires (digital ==> t.digital) && Confirmed(t.since) != EncodedIdle && t.d.releaseSeconds > 0.0
    ensures Playing(Run(t, blocks), t.d.generation, digital, blocks[0].now, blocks[|blocks| - 1].now)
  {
    hide Next, LoudBlock, Confirmed, Legit, Remembered, LoudStretch;
    var k := |blocks| - 1;
    if k == 0 {
      OneBlock(t, blocks, digital);
      NextLoud(t, blocks[0], digital);
    } else {
      LastBlock(t, blocks, digital);
      StretchPlays(t, blocks[..k], digital);
      PlaysOn(Run(t, blocks[..k]), t.d.generation, digital, blocks[0].now, blocks[k - 1].now, blocks[k]);
    }
  }

  /** From any state a run can reach: digital PCM with peaks of at least -80 dBFS over 0.5 s, and PCM of any input
      with an rms level of at least -50 dBFS over 1.0 s, leave the input active. */
  lemma LoudPcmArms(kind: Kind, now: real, assumeActive: bool, r: real, context: Option<int>,
                    before: seq<Op>, blocks: seq<Op>, digital: bool)
    requires LegitRun(Start(kind, now, assumeActive, r, context), before)
    requires var t := Run(Start(kind, now, assumeActive, r, context), before);
             && t.d.releaseSeconds > 0.0 && (digital ==> t.digital) && Confirmed(t.since) != EncodedIdle
             && LoudStretch(t, blocks, digital)
             && blocks[|blocks| - 1].now - blocks[0].now >= Needed(digital)
    ensures Run(Run(Start(kind, now, assumeActive, r, context), before), blocks).d.active
  {
    var start := Start(kind, now, assumeActive, r, context);
    assert Remembered(start) && AttackPast(start);
    hide Start, Next, Remembered, LoudStretch;
    RunRemembers(start, before);
    RunAttackPast(start, before);
    StretchPlays(Run(start, before), blocks, digital);
  }
}
