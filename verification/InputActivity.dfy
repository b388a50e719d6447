/**
 Signal activity of one input (audio/input_activity.py): a detector that arms on a
 sustained signal and releases after a hold, as a value and the steps on it. Times and
 levels are reals; a silent block has no finite level.
 */
module InputActivity {
  import opened Wrappers

  const ANALOG_ON_RMS_DBFS: real := -50.0
  const ANALOG_KEEP_PEAK_DBFS: real := -60.0
  const DIGITAL_ON_PEAK_DBFS: real := -80.0
  const ANALOG_ATTACK_SECONDS: real := 1.0
  const DIGITAL_ATTACK_SECONDS: real := 0.5
  const ATTACK_GAP_SECONDS: real := 0.3
  const UNLOCKED_RELEASE_SECONDS: real := 10.0
  const MISSING_RELEASE_SECONDS: real := 10.0
  const STDIN_RELEASE_SECONDS: real := 10.0
  const STREAM_CONFIRM_BLOCKS := 2

  datatype Kind = Analog | Digital | Stdin

  /** What a block carries: PCM, a codec's bursts, or only null and pause bursts. */
  datatype Stream = Pcm | EncodedIdle | Codec(name: string)

  datatype Level = Silent | Dbfs(value: real)

  predicate AtLeast(l: Level, threshold: real) { l.Dbfs? && l.value >= threshold }

  predicate NotAbove(l: Level, m: Level) { l.Silent? || (m.Dbfs? && l.value <= m.value) }

  datatype Block = Block(peak: Level, rms: Level, digitalSilence: bool, encoding: Option<string>, encodedIdle: bool)

  datatype Detector = Detector(
    kind: Kind, active: bool, releaseSeconds: real, externalPresence: bool, lock: Option<bool>, digital: bool,
    stream: Stream, candidate: Stream, candidateBlocks: nat,
    attackSince: Option<real>, lastOnAt: Option<real>, lastSignalAt: real, missing: bool,
    generation: Option<int>, lastObservedAt: Option<real>,
    localQualified: bool, lastLocalSignalAt: Option<real>)

  function NewDetector(kind: Kind, now: real, assumeActive: bool, releaseSeconds: real,
                       context: Option<int>): Detector {
    Detector(kind, assumeActive, releaseSeconds, false, None, kind.Digital?, Pcm, Pcm, 0,
             None, None, now, false, context, None, false, None)
  }

  function AfterReset(d: Detector): Detector {
    d.(attackSince := None, lastOnAt := None, localQualified := false, lastLocalSignalAt := None,
       lastObservedAt := None, lock := None, stream := Pcm, candidate := Pcm, candidateBlocks := 0)
  }

  function Min(x: real, y: real): real { if x <= y then x else y }

  function ReleaseHold(d: Detector): real {
    if d.kind.Stdin? then Min(d.releaseSeconds, STDIN_RELEASE_SECONDS)
    else if d.missing then Min(d.releaseSeconds, MISSING_RELEASE_SECONDS)
    else if d.lock == Some(false) then Min(d.releaseSeconds, UNLOCKED_RELEASE_SECONDS)
    else d.releaseSeconds
  }

  function AfterUpdate(d: Detector, now: real): Detector {
    if d.active && now - d.lastSignalAt >= ReleaseHold(d) then d.(active := false, attackSince := None) else d
  }

  /** _step, stage by stage: note the signal, run the attack window, qualify, engage. */
  function Heard(d: Detector, now: real, keep: bool): Detector {
    if keep then d.(lastLocalSignalAt := Some(now), lastSignalAt := now) else d
  }

  function Attacking(d: Detector, now: real, on: bool): Detector {
    if on then d.(attackSince := if d.attackSince.None? then Some(now) else d.attackSince, lastOnAt := Some(now))
    else if d.attackSince.Some? && d.lastOnAt.Some? && now - d.lastOnAt.value > ATTACK_GAP_SECONDS then
      d.(attackSince := None, localQualified := false)
    else d
  }

  function Qualifying(d: Detector, now: real, on: bool, attack: real): Detector {
    if on && d.attackSince.Some? && now - d.attackSince.value >= attack then d.(localQualified := true) else d
  }

  function Engaging(d: Detector, now: real): Detector {
    d.(active := d.active || d.localQualified || d.externalPresence,
       lastSignalAt := if d.externalPresence then now else d.lastSignalAt)
  }

  function Armed(d: Detector, now: real, on: bool, keep: bool, attack: real): Detector {
    Engaging(Qualifying(Attacking(Heard(d, now, keep), now, on), now, on, attack), now)
  }

  function AfterStep(d: Detector, now: real, on: bool, keep: bool, attack: real): Detector {
    AfterUpdate(Armed(d, now, on, keep, attack), now)
  }

  function StreamType(b: Block): Stream {
    if b.encoding.Some? && b.encoding.value != "" then Codec(b.encoding.value)
    else if b.encodedIdle then EncodedIdle
    else Pcm
  }

  predicate Rejected(d: Detector, context: Option<int>) {
    context.None? || context != d.generation
  }

  predicate Stale(d: Detector, now: real) {
    d.lastObservedAt.Some? && now - d.lastObservedAt.value > ATTACK_GAP_SECONDS
  }

  /** The part of observe_block that takes note of the block and of its stream type. */
  function Observed(d: Detector, now: real, b: Block, lock: Option<bool>): Detector {
    var d0 := if Stale(d, now) then AfterReset(d) else d;
    d0.(lastObservedAt := Some(now), lock := lock, missing := false, digital := d0.digital || b.digitalSilence)
  }

  function Typed(d: Detector, t: Stream): Detector {
    var d1 :=
      if t == d.candidate then d.(candidateBlocks := d.candidateBlocks + 1)
      else d.(candidate := t, candidateBlocks := 1);
    if d1.candidateBlocks >= STREAM_CONFIRM_BLOCKS then d1.(stream := d1.candidate) else d1
  }

  function Noted(d: Detector, now: real, b: Block, lock: Option<bool>): Detector {
    Typed(Observed(d, now, b, lock), StreamType(b))
  }

  predicate On(d: Detector, b: Block) {
    if d.lock == Some(false) || d.stream == EncodedIdle then false
    else if d.stream != Pcm then !b.digitalSilence
    else if d.digital then AtLeast(b.peak, DIGITAL_ON_PEAK_DBFS)
    else AtLeast(b.rms, ANALOG_ON_RMS_DBFS)
  }

  predicate Keep(d: Detector, b: Block) {
    if d.lock == Some(false) || d.stream == EncodedIdle then false
    else if d.stream != Pcm then !b.digitalSilence
    else if d.digital then AtLeast(b.peak, DIGITAL_ON_PEAK_DBFS)
    else AtLeast(b.peak, ANALOG_KEEP_PEAK_DBFS)
  }

  function Attack(d: Detector): real {
    if d.digital || d.stream != Pcm then DIGITAL_ATTACK_SECONDS else ANALOG_ATTACK_SECONDS
  }

  function AfterBlock(d: Detector, now: real, b: Block, lock: Option<bool>, context: Option<int>): Detector {
    if Rejected(d, context) then AfterReset(d)
    else
      var n := Noted(d, now, b, lock);
      AfterStep(n, now, On(n, b), Keep(n, b), Attack(n))
  }

  function AfterPresence(d: Detector, now: real, present: bool): Detector {
    AfterStep(d.(missing := false, lastObservedAt := Some(now)), now, present, present, 0.0)
  }

  function AfterExternalPresence(d: Detector, now: real, present: bool): Detector {
    if present then d.(externalPresence := true, active := true, lastSignalAt := now)
    else AfterUpdate(d.(externalPresence := false), now)
  }

  function AfterMissing(d: Detector, now: real): Detector {
    AfterUpdate(AfterReset(d.(missing := true)), now)
  }

  function AfterHoldOver(d: Detector, now: real): Detector { AfterReset(d.(lastSignalAt := now)) }

  function AfterBeginCapture(d: Detector, context: Option<int>): Detector { AfterReset(d).(generation := context) }
}
