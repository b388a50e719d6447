/**
 The detector object. It keeps, as a ghost, the trace of everything it was shown, and
 every method is proved against that trace: what is active, what the last signal and the
 stream type are, and when the input arms and releases all follow from it.
 */
module ActivityDetectors {
  import opened Wrappers
  import opened InputActivity
  import opened InputHistory
  import opened InputArming
  import opened InputLevels

  /** What each step of a trace keeps, and when it arms and releases. */
  ghost predicate Follows(t: Trace, captureOnly: bool) {
    Remembered(t) && AttackPast(t) && (captureOnly ==> Inv(t))
  }

  lemma StepFollows(t: Trace, op: Op, captureOnly: bool)
    requires Follows(t, captureOnly) && Legit(t, op)
    ensures Follows(Next(t, op), captureOnly && CaptureOnly(op) && Long(op))
    ensures Next(t, op).d.lastSignalAt == Next(t, op).signalAt
    ensures captureOnly && op.Capture? ==>
              (!t.d.active && Next(t, op).d.active ==> Sustained(Next(t, op).since))
    ensures t.d.active && !Next(t, op).d.active ==>
              Timed(op) && op.now - Next(t, op).signalAt >= ReleaseHold(Next(t, op).d)
  {
    StepAttackPast(t, op);
    NextRemembers(t, op);
    hide AfterStep, Noted, On, Keep, Attack, Inv, Sustained, Next, AttackPast, ReleaseHold, Confirmed, Tail;
    if captureOnly && CaptureOnly(op) && Long(op) { NextInv(t, op); }
    if t.d.active && !Next(t, op).d.active { ReleaseNeedsSilence(t, op); }
  }

  /** An external presence keeps the input active through every step. */
  lemma PresenceEngages(d: Detector, now: real, on: bool, keep: bool, attack: real)
    requires d.externalPresence && d.releaseSeconds > 0.0
    ensures AfterStep(d, now, on, keep, attack).active
  {
  }

  class ActivityDetector {
    const kind: Kind
    var releaseSeconds: real
    var active: bool
    var externalPresence: bool
    var lock: Option<bool>
    var digital: bool
    var stream: Stream
    var candidate: Stream
    var candidateBlocks: nat
    var attackSince: Option<real>
    var lastOnAt: Option<real>
    var lastSignalAt: real
    var missing: bool
    var graphGeneration: Option<int>
    var lastObservedAt: Option<real>
    var localQualified: bool
    var lastLocalSignalAt: Option<real>
    // What it was shown; and that capture was all that could arm it, and no release time shorter than two gaps.
    ghost var trace: Trace
    ghost var captureOnly: bool

    ghost function View(): Detector
      reads this
    {
      Detector(kind, active, releaseSeconds, externalPresence, lock, digital, stream, candidate, candidateBlocks,
               attackSince, lastOnAt, lastSignalAt, missing, graphGeneration, lastObservedAt,
               localQualified, lastLocalSignalAt)
    }

    /** The last signal and the stream type are those of the history, and so is the attack window. */
    ghost predicate Valid()
      reads this
    {
      trace.d == View() && Follows(trace, captureOnly)
    }

    /** The operation may come next: the clock does not run back, and a peak is no lower than its rms level. */
    ghost predicate May(op: Op)
      reads this
    {
      Legit(trace, op)
    }

    /** A whole release hold has passed since the last signal of the history: the release time, but at most 10 s
        for a writer, a missing input and one without lock. */
    ghost predicate HoldOver(now: real)
      reads this
    {
      now - trace.signalAt >=
      if (kind == Stdin || missing || lock == Some(false)) && releaseSeconds > 10.0 then 10.0 else releaseSeconds
    }

    lemma HoldIsOver(now: real)
      ensures HoldOver(now) <==> now - trace.signalAt >= ReleaseHold(View())
    {
    }

    constructor (kind: Kind, now: real, assumeActive: bool, releaseSeconds: real, context: Option<int>)
      ensures Valid() && trace == Start(kind, now, assumeActive, releaseSeconds, context)
      ensures captureOnly <==> releaseSeconds > LINK_SECONDS
      ensures active == assumeActive && lastSignalAt == now && stream == Pcm
    {
      this.kind, this.releaseSeconds, active, externalPresence, lock := kind, releaseSeconds, assumeActive, false, None;
      digital, stream, candidate, candidateBlocks := kind == Digital, Pcm, Pcm, 0;
      attackSince, lastOnAt, lastSignalAt, missing := None, None, now, false;
      graphGeneration, lastObservedAt, localQualified, lastLocalSignalAt := context, None, false, None;
      trace, captureOnly := Start(kind, now, assumeActive, releaseSeconds, context), releaseSeconds > LINK_SECONDS;
      new;
      if releaseSeconds > LINK_SECONDS { StartInv(kind, now, assumeActive, releaseSeconds, context); }
    }

    /** The history takes its next step; what every step keeps is kept. */
    ghost method Record(op: Op)
      requires Follows(trace, captureOnly)
      requires May(op) && View() == DetectorAfter(trace.d, op)
      modifies this`trace, this`captureOnly
      ensures Valid() && trace == Next(old(trace), op)
      ensures captureOnly == (old(captureOnly) && CaptureOnly(op) && Long(op))
      ensures captureOnly && op.Capture? && !old(trace.d.active) && active ==>
                Sustained(trace.since)
      ensures old(trace.d.active) && !active ==> Timed(op) && HoldOver(op.now)
      ensures trace.signalAt == lastSignalAt
    {
      hide Follows, DetectorAfter, Sustained, ReleaseHold, HoldOver, Next, Legit, CaptureOnly, Long;
      StepFollows(trace, op, captureOnly);
      NextDetector(trace, op);
      trace, captureOnly := Next(trace, op), captureOnly && CaptureOnly(op) && Long(op);
      if Timed(op) { HoldIsOver(op.now); }
    }

    /** Local evidence is forgotten: no block counts any more. An established release hold goes on. */
    method ResetLocal()
      requires Valid()
      modifies this
      ensures Valid() && trace == Next(old(trace), Op.Reset)
      ensures lock.None? && attackSince.None? && !localQualified && lastObservedAt.None?
      ensures unchanged(this`externalPresence, this`digital, this`missing, this`releaseSeconds, this`graphGeneration)
      ensures trace.since == [] && stream == Pcm && active == old(active) && trace.signalAt == old(trace.signalAt)
    {
      ClearLocal();
      Record(Op.Reset);
    }

    /** Capture starts anew in another generation; blocks of the old one no longer count. */
    method BeginCapture(context: Option<int>)
      requires Valid()
      modifies this
      ensures Valid() && trace == Next(old(trace), Begin(context))
      ensures graphGeneration == context && lock.None? && attackSince.None? && !localQualified && lastObservedAt.None?
      ensures unchanged(this`externalPresence, this`digital, this`missing, this`releaseSeconds)
      ensures trace.since == [] && stream == Pcm && active == old(active) && trace.signalAt == old(trace.signalAt)
      ensures forall other :: Rejected(View(), other) <==> other.None? || other != context
    {
      ClearLocal();
      graphGeneration := context;
      Record(Begin(context));
    }

    /** A block is taken unless it is of another generation. It arms an inactive input only at the end of a
        sustained run of programme, and an active one falls only after a whole hold without signal. */
    method ObserveBlock(now: real, block: Block, blockLock: Option<bool>, context: Option<int>) returns (accepted: bool)
      requires Valid() && May(Capture(now, block, blockLock, context))
      modifies this
      ensures Valid() && trace == Next(old(trace), Capture(now, block, blockLock, context))
      ensures accepted <==> !Rejected(old(View()), context)
      ensures !accepted ==> trace.since == [] && active == old(active)
      ensures accepted ==> lock == blockLock && !missing && (digital <==> old(digital) || block.digitalSilence)
      ensures accepted ==> trace.since != [] && trace.since[|trace.since| - 1].now == now
      ensures accepted && externalPresence && releaseSeconds > 0.0 ==> active
      ensures unchanged(this`externalPresence, this`releaseSeconds, this`graphGeneration)
      ensures captureOnly && !old(active) && active ==> Sustained(trace.since)
      ensures accepted && HoldOver(now) ==> !active
      ensures old(active) && !active ==> HoldOver(now)
    {
      ghost var op := Capture(now, block, blockLock, context);
      hide Observed, Typed, On, Keep, Attack, AfterStep, AfterReset, Follows, Legit, Sustained, HoldOver, ReleaseHold;
      if context.None? || context != graphGeneration {
        ClearLocal();
        Record(op);
        return false;
      }
      SilenceReleasesBlock(op);
      BlockTaken(op);
      NoteBlock(now, block, blockLock);
      ghost var noted := View();
      var on, keep, attack := Classify(block);
      assert View() == noted;
      Step(now, on, keep, attack);
      Record(op);
      HoldIsOver(now);
      return true;
    }

    /** The input is known to be digital: from now on blocks count by their peak. */
    method MarkDigital()
      requires Valid()
      modifies this
      ensures Valid() && trace == Next(old(trace), Op.MarkDigital)
      ensures active == old(active) && trace.since == old(trace.since) && trace.signalAt == old(trace.signalAt)
      ensures digital && stream == old(stream) && attackSince == old(attackSince) && missing == old(missing)
      ensures localQualified == old(localQualified) && externalPresence == old(externalPresence) && lock == old(lock)
      ensures forall b: Block | lock != Some(false) && stream == Pcm ::
                On(View(), b) <==> b.peak.Dbfs? && b.peak.value >= -80.0
    {
      digital := true;
      Record(Op.MarkDigital);
    }

    /** Another release time: from now on the holds are measured by it, the evidence and the last signal stay. */
    method SetRelease(seconds: real)
      requires Valid()
      modifies this
      ensures Valid() && trace == Next(old(trace), Op.SetRelease(seconds)) && releaseSeconds == seconds
      ensures unchanged(this`externalPresence, this`lock, this`digital, this`stream, this`missing, this`attackSince,
                        this`localQualified, this`graphGeneration)
      ensures active == old(active) && trace.since == old(trace.since) && trace.signalAt == old(trace.signalAt)
      ensures captureOnly <==> old(captureOnly) && seconds > LINK_SECONDS
      ensures !missing && kind != Stdin && lock != Some(false) ==>
                forall now :: HoldOver(now) <==> now - trace.signalAt >= seconds
    {
      releaseSeconds := seconds;
      Record(Op.SetRelease(seconds));
    }

    /** A writer is the signal: with one the input is active at once, without one it falls after the hold. */
    method ObservePresence(now: real, present: bool)
      requires Valid() && May(Presence(now, present))
      modifies this
      ensures Valid() && trace == Next(old(trace), Presence(now, present))
      ensures !missing && lock == old(lock)
      ensures unchanged(this`externalPresence, this`digital, this`stream, this`releaseSeconds, this`graphGeneration)
      ensures present && releaseSeconds > 0.0 ==> active
      ensures HoldOver(now) ==> !active
      ensures old(active) && !active ==> HoldOver(now)
    {
      hide Follows, Legit, AfterStep;
      ghost var op := Presence(now, present);
      PresenceArms(now, present);
      missing := false;
      lastObservedAt := Some(now);
      Step(now, present, present, 0.0);
      Record(op);
    }

    /** An external report arms at once; its end only lets the hold decide. */
    method ObserveExternalPresence(now: real, present: bool)
      requires Valid() && May(External(now, present))
      modifies this
      ensures Valid() && trace == Next(old(trace), External(now, present))
      ensures externalPresence == present
      ensures unchanged(this`lock, this`digital, this`stream, this`missing, this`localQualified, this`releaseSeconds,
                        this`graphGeneration)
      ensures present ==> active && trace.signalAt == now
      ensures !present && HoldOver(now) ==> !active
      ensures old(active) && !active ==> !present && HoldOver(now)
    {
      hide Follows, Legit;
      externalPresence := present;
      if present {
        active := true;
        lastSignalAt := now;
      } else {
        ReleaseIfOver(now);
      }
      Record(External(now, present));
    }

    /** A missing input loses its evidence and falls after the shorter hold of a missing one. */
    method ObserveMissing(now: real)
      requires Valid() && May(Missing(now))
      modifies this
      ensures Valid() && trace == Next(old(trace), Missing(now))
      ensures trace.since == [] && missing && lock.None?
      ensures unchanged(this`externalPresence, this`digital, this`releaseSeconds, this`graphGeneration)
      ensures active <==> old(active) && !HoldOver(now)
    {
      hide Follows, Legit;
      lock := None;
      missing := true;
      ClearLocal();
      ReleaseIfOver(now);
      Record(Missing(now));
    }

    /** A pause without observations is not silence: the hold starts over, without local evidence. */
    method HoldOn(now: real)
      requires Valid() && May(Op.Hold(now))
      modifies this
      ensures Valid() && trace == Next(old(trace), Op.Hold(now))
      ensures unchanged(this`externalPresence, this`digital, this`missing, this`releaseSeconds, this`graphGeneration)
      ensures trace.since == [] && trace.signalAt == now && active == old(active)
    {
      hide Follows, Legit;
      lastSignalAt := now;
      ClearLocal();
      Record(Op.Hold(now));
    }

    /** A tick releases exactly when a whole hold has passed since the last signal of the history. */
    method Update(now: real)
      requires Valid() && May(Tick(now))
      modifies this
      ensures Valid() && trace == Next(old(trace), Tick(now))
      ensures unchanged(this`externalPresence, this`lock, this`digital, this`stream, this`missing, this`localQualified,
                        this`releaseSeconds, this`graphGeneration)
      ensures active <==> old(active) && !HoldOver(now)
    {
      hide Follows, Legit;
      ReleaseIfOver(now);
      Record(Tick(now));
    }

    // ---------- stretches of these methods ----------

    method ClearLocal()
      modifies this`attackSince, this`lastOnAt, this`localQualified, this`lastLocalSignalAt, this`lastObservedAt,
               this`lock, this`stream, this`candidate, this`candidateBlocks
      ensures View() == AfterReset(old(View()))
    {
      ClearStream();
      attackSince, lastOnAt := None, None;
      localQualified := false;
      lastLocalSignalAt, lastObservedAt := None, None;
    }

    method ClearStream()
      modifies this`lock, this`stream, this`candidate, this`candidateBlocks
      ensures View() == old(View()).(lock := None, stream := Pcm, candidate := Pcm, candidateBlocks := 0)
    {
      lock := None;
      stream, candidate := Pcm, Pcm;
      candidateBlocks := 0;
    }

    /** observe_block up to the confirmed stream type. */
    method NoteBlock(now: real, block: Block, blockLock: Option<bool>)
      modifies this`attackSince, this`lastOnAt, this`localQualified, this`lastLocalSignalAt, this`lastObservedAt,
               this`lock, this`stream, this`candidate, this`candidateBlocks, this`missing, this`digital
      ensures View() == Noted(old(View()), now, block, blockLock)
    {
      hide AfterReset;
      if lastObservedAt.Some? && now - lastObservedAt.value > ATTACK_GAP_SECONDS {
        ClearLocal();
      }
      lastObservedAt := Some(now);
      lock := blockLock;
      missing := false;
      if block.digitalSilence {
        digital := true;
      }
      assert View() == Observed(old(View()), now, block, blockLock);
      NoteStream(StreamType(block));
    }

    method NoteStream(streamType: Stream)
      modifies this`candidate, this`candidateBlocks, this`stream
      ensures View() == Typed(old(View()), streamType)
    {
      if streamType == candidate {
        candidateBlocks := candidateBlocks + 1;
      } else {
        candidate, candidateBlocks := streamType, 1;
      }
      if candidateBlocks >= STREAM_CONFIRM_BLOCKS {
        stream := candidate;
      }
    }

    /** observe_block from there on: does the block arm, does it keep the input, how long is the attack. */
    method Classify(block: Block) returns (on: bool, keep: bool, attack: real)
      ensures on == On(View(), block) && keep == Keep(View(), block) && attack == Attack(View())
    {
      if lock == Some(false) || stream == EncodedIdle {
        on, keep := false, false;
      } else if stream != Pcm {
        on, keep := !block.digitalSilence, !block.digitalSilence;
      } else if digital {
        on := AtLeast(block.peak, DIGITAL_ON_PEAK_DBFS);
        keep := on;
      } else {
        on := AtLeast(block.rms, ANALOG_ON_RMS_DBFS);
        keep := AtLeast(block.peak, ANALOG_KEEP_PEAK_DBFS);
      }
      attack := if digital || stream != Pcm then DIGITAL_ATTACK_SECONDS else ANALOG_ATTACK_SECONDS;
    }

    method Hold() returns (hold: real)
      ensures hold == ReleaseHold(View())
    {
      if kind == Stdin {
        return Min(releaseSeconds, STDIN_RELEASE_SECONDS);
      }
      if missing {
        return Min(releaseSeconds, MISSING_RELEASE_SECONDS);
      }
      if lock == Some(false) {
        return Min(releaseSeconds, UNLOCKED_RELEASE_SECONDS);
      }
      return releaseSeconds;
    }

    method ReleaseIfOver(now: real)
      modifies this`active, this`attackSince
      ensures View() == AfterUpdate(old(View()), now)
    {
      var hold := Hold();
      if active && now - lastSignalAt >= hold {
        active := false;
        attackSince := None;
      }
    }

    method Step(now: real, on: bool, keep: bool, attack: real)
      modifies this`active, this`attackSince, this`lastOnAt, this`localQualified, this`lastLocalSignalAt,
               this`lastSignalAt
      ensures View() == AfterStep(old(View()), now, on, keep, attack)
    {
      hide Heard, Attacking, Qualifying, AfterUpdate;
      RunAttackWindow(now, on, keep, attack);
      ghost var d := View();
      if localQualified || externalPresence {
        active := true;
      }
      if externalPresence {
        lastSignalAt := now;
      }
      assert View() == Engaging(d, now);
      ReleaseIfOver(now);
    }

    /** _step up to the qualification. */
    method RunAttackWindow(now: real, on: bool, keep: bool, attack: real)
      modifies this`attackSince, this`lastOnAt, this`localQualified, this`lastLocalSignalAt, this`lastSignalAt
      ensures View() == Qualifying(Attacking(Heard(old(View()), now, keep), now, on), now, on, attack)
    {
      if keep {
        lastLocalSignalAt := Some(now);
        lastSignalAt := now;
      }
      ghost var d := View();
      assert d == Heard(old(View()), now, keep);
      if on {
        if attackSince.None? {
          attackSince := Some(now);
        }
        lastOnAt := Some(now);
      } else if attackSince.Some? && lastOnAt.Some? && now - lastOnAt.value > ATTACK_GAP_SECONDS {
        attackSince := None;
        localQualified := false;
      }
      assert View() == Attacking(d, now, on);
      if on && attackSince.Some? && now - attackSince.value >= attack {
        localQualified := true;
      }
    }

    // ---------- facts used above ----------

    lemma SilenceReleasesBlock(op: Op)
      requires Valid() && op.Capture? && May(op) && !Rejected(View(), op.context)
      ensures op.now - Next(trace, op).signalAt >= ReleaseHold(Next(trace, op).d) ==> !Next(trace, op).d.active
    {
      hide AfterStep, Noted, On, Keep, Attack, Inv;
      if op.now - Next(trace, op).signalAt >= ReleaseHold(Next(trace, op).d) { SilenceReleases(trace, op); }
    }

    lemma BlockTaken(op: Op)
      requires op.Capture? && !Rejected(trace.d, op.context)
      ensures var r := Next(trace, op);
              && r.d.lock == op.lock && !r.d.missing && r.d.digital == (trace.d.digital || op.block.digitalSilence)
              && r.since != [] && r.since[|r.since| - 1].now == op.now
              && r.d.externalPresence == trace.d.externalPresence && r.d.releaseSeconds == trace.d.releaseSeconds
              && r.d.generation == trace.d.generation
              && (r.d.externalPresence && r.d.releaseSeconds > 0.0 ==> r.d.active)
    {
      var n := Noted(trace.d, op.now, op.block, op.lock);
      NotedFacts(trace.d, op.now, op.block, op.lock);
      StepFacts(n, op.now, On(n, op.block), Keep(n, op.block), Attack(n));
      if n.externalPresence && n.releaseSeconds > 0.0 {
        PresenceEngages(n, op.now, On(n, op.block), Keep(n, op.block), Attack(n));
      }
      hide AfterStep, Noted, On, Keep, Attack, Continued, Rejected, StreamType, Signals, ReleaseHold;
    }

    lemma PresenceArms(now: real, present: bool)
      requires Valid() && May(Presence(now, present))
      ensures var r := Next(trace, Presence(now, present));
              && (present && ReleaseHold(r.d) > 0.0 ==> r.d.active)
              && (now - r.signalAt >= ReleaseHold(r.d) ==> !r.d.active)
    {
      var op := Presence(now, present);
      AttackNotLater(trace.d.(missing := false, lastObservedAt := Some(now)), now, present, present, 0.0);
      hide Inv, AfterStep;
      if now - Next(trace, op).signalAt >= ReleaseHold(Next(trace, op).d) { SilenceReleases(trace, op); }
    }
  }
}
