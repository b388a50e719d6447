/**
 Reprobing a sound card for another channel tier (audio/channel_tiers.py): apply
 rewrites the WirePlumber rule, the card profile and the selections, rollback brings
 the captured ones back. Every command takes its outcome from a script, so each
 theorem covers every command failing at every point, with or without effect.
 */
module ChannelTiers {
  import opened Wrappers

  /** RuntimeError, ValueError or KeyError, or anything else. */
  datatype Error = Runtime | Lookup | Fatal

  /** What a sink's sample specification says. */
  datatype Spec = Spec(channels: nat, rate: nat)

  /** One sink as pactl lists it; the specification and the volumes may be missing. */
  datatype Sink = Sink(spec: Option<Spec>, muted: bool, volume: Option<int>)

  datatype Event = Event(
    fault: Option<Error>,  // the command raises
    effect: bool,          // a raising command had taken effect nevertheless
    elapsed: real,         // time it took
    sink: Option<Sink>,    // what a listing shows for the sink looked up
    garbage: string)       // what an interrupted plain write leaves in its file

  const REOPEN_TIMEOUT: real := 25.0
  const POLL_SECONDS: real := 0.5
  const PROFILE_RETRY_SECONDS: real := 3.0

  function Abs(x: int): int { if x < 0 then -x else x }

  /** The gate the sink must be read back with: channel count, mute, volume within one percent. */
  ghost predicate Gated(s: Sink, channels: nat, volume: int) {
    s.spec.Some? && s.spec.value.channels == channels && s.muted && s.volume.Some? && Abs(s.volume.value - volume) <= 1
  }

  // ---------- commands and what they do ----------

  /** What is run, read, written or waited for, in the order of the script's events. */
  datatype Command =
    | SetProfile(profile: string)
    | ForceRate(rate: nat)
    | Restart
    | ListSink(key: string)
    | ListCards
    | ReadFiles
    | Mute(key: string)
    | SetVolume(key: string, volume: int)
    | SetDefault(key: string)
    | SaveSelection(key: string)
    | WriteRule(rule: Option<string>)
    | WriteSource(source: string)
    | Sleep(seconds: real)

  datatype State = State(clock: real, rule: Option<string>, source: Option<string>, selected: string,
                         defaultSink: string, profile: string, forcedRate: nat)

  /** A command takes effect unless it raises, and may even then. The source selection is written in place, so
      an interrupted write leaves anything; every other file is replaced through a temporary one. */
  function After(s: State, c: Command, e: Event): State {
    var landed := e.fault.None? || e.effect;
    var later := s.(clock := s.clock + e.elapsed + if c.Sleep? then c.seconds else 0.0);
    match c
    case SetProfile(profile) => if landed then later.(profile := profile) else later
    case ForceRate(rate) => if landed then later.(forcedRate := rate) else later
    case SetDefault(key) => if landed then later.(defaultSink := key) else later
    case SaveSelection(key) => if landed then later.(selected := key) else later
    case WriteRule(rule) => if landed then later.(rule := rule) else later
    case WriteSource(source) => later.(source := Some(if e.fault.None? then source else e.garbage))
    case _ => later
  }

  /** The state the commands issued so far lead to. */
  function Replay(start: State, script: nat -> Event, issued: seq<Command>): State {
    if issued == [] then start
    else
      var n: nat := |issued| - 1;
      After(Replay(start, script, issued[..n]), issued[n], script(n))
  }

  lemma OneMoreCommand(start: State, script: nat -> Event, issued: seq<Command>, c: Command)
    ensures Replay(start, script, issued + [c]) == After(Replay(start, script, issued), c, script(|issued|))
  {
    assert (issued + [c])[..|issued|] == issued;
  }

  /** Neither profile, volume nor mute of the sink changes any more by these. */
  predicate LeavesSink(c: Command) { c.SetDefault? || c.SaveSelection? || c.WriteSource? }

  /** What a poll runs once it has seen the sink, until it has read the gate. */
  predicate Gating(c: Command) { c.ListSink? || c.Mute? || c.SetVolume? || c.Sleep? }

  /** Command n raised nothing, and if it was a listing it showed the gate. */
  ghost predicate Fine(script: nat -> Event, issued: seq<Command>, n: nat, channels: nat, volume: int)
    requires n < |issued|
  {
    && script(n).fault.None?
    && (issued[n].ListSink? ==> script(n).sink.Some? && Gated(script(n).sink.value, channels, volume))
  }

  /** None of these commands raised, and every listing among them showed the gate. */
  ghost predicate AllFine(script: nat -> Event, issued: seq<Command>, from: nat, to: nat, channels: nat, volume: int)
    requires to <= |issued|
  {
    forall n | from <= n < to :: Fine(script, issued, n, channels, volume)
  }

  /** Listing `gate`, read right after muting the sink and setting its volume, shows the gate. */
  ghost predicate ReadsGate(script: nat -> Event, issued: seq<Command>, gate: nat, key: string, channels: nat,
                            volume: int) {
    && 2 <= gate < |issued|
    && issued[gate - 2] == Mute(key) && issued[gate - 1] == SetVolume(key, volume) && issued[gate] == ListSink(key)
    && script(gate - 2).fault.None? && script(gate - 1).fault.None? && script(gate).fault.None?
    && script(gate).sink.Some? && Gated(script(gate).sink.value, channels, volume)
  }

  /** The poll that began at event `poll`, with or without setting the profile, saw the sink and read the gate at
      event `gate`; nothing issued since then touches the sink. */
  ghost predicate Confirms(script: nat -> Event, issued: seq<Command>, poll: nat, gate: nat, key: string,
                           profile: string,
                           channels: nat, volume: int)
  {
    && poll + 2 < gate < |issued| && ReadsGate(script, issued, gate, key, channels, volume)
    && (|| issued[poll] == ListSink(key)
        || (issued[poll] == SetProfile(profile) && issued[poll + 1] == ListSink(key)))
    && (forall k | poll < k < gate :: Gating(issued[k]))
    && (forall k | gate < k < |issued| :: LeavesSink(issued[k]))
  }

  lemma StillConfirms(script: nat -> Event, issued: seq<Command>, c: Command, poll: nat, gate: nat, key: string,
                      profile: string,
                      channels: nat, volume: int)
    requires Confirms(script, issued, poll, gate, key, profile, channels, volume) && LeavesSink(c)
    ensures Confirms(script, issued + [c], poll, gate, key, profile, channels, volume)
    ensures poll < |issued| && (issued + [c])[..poll] == issued[..poll]
  {
  }

  /** What held of more commands, and later, held of fewer. */
  lemma FineEarlier(script: nat -> Event, issued: seq<Command>, from: nat, to: nat, later: seq<Command>, wider: nat,
                    end: nat,
                    channels: nat, volume: int)
    requires issued <= later && wider <= from && to <= |issued| && to <= end <= |later|
    requires AllFine(script, later, wider, end, channels, volume)
    ensures AllFine(script, issued, from, to, channels, volume)
  {
    forall n | from <= n < to ensures Fine(script, issued, n, channels, volume) {
      assert Fine(script, later, n, channels, volume);
    }
  }

  /** The gate's own tries take care of what this command raises, short of a fatal error. */
  predicate Retried(issued: seq<Command>, k: nat)
    requires k < |issued|
  {
    issued[k].Mute? || issued[k].SetVolume? || (issued[k].ListSink? && k > 0 && issued[k - 1].SetVolume?)
  }

  /** Command k raised what no retry of a reprobe takes care of. */
  ghost predicate EndsAt(script: nat -> Event, issued: seq<Command>, k: nat) {
    && k < |issued| && !issued[k].Sleep?
    && (script(k).fault == Some(Fatal) || (script(k).fault == Some(Lookup) && !Retried(issued, k)))
  }

  ghost predicate NoEnd(script: nat -> Event, issued: seq<Command>, from: nat) {
    forall k: nat | k >= from :: !EndsAt(script, issued, k)
  }

  /** Such an error is reported, of the last command, and no other: nothing was run behind it. */
  ghost predicate EndsWith(script: nat -> Event, issued: seq<Command>, from: nat, error: Option<Error>) {
    if error.None? || error == Some(Runtime) then NoEnd(script, issued, from)
    else
      && |issued| > from && error == script(|issued| - 1).fault && EndsAt(script, issued, |issued| - 1)
      && forall k: nat | from <= k < |issued| - 1 :: !EndsAt(script, issued, k)
  }

  lemma OrdinaryEnd(script: nat -> Event, issued: seq<Command>, from: nat, error: Option<Error>)
    requires NoEnd(script, issued, from) && (error.None? || error == Some(Runtime))
    ensures EndsWith(script, issued, from, error)
  {
  }

  lemma OrdinaryHasNoEnd(script: nat -> Event, issued: seq<Command>, from: nat, error: Option<Error>)
    requires EndsWith(script, issued, from, error) && (error.None? || error == Some(Runtime))
    ensures NoEnd(script, issued, from)
  {
  }

  lemma OneEnds(script: nat -> Event, before: seq<Command>, c: Command, error: Option<Error>)
    requires c.SetProfile? || c.SetDefault? || c.SaveSelection?
             || (c.ListSink? && before != [] && !before[|before| - 1].SetVolume?)
    requires error == script(|before|).fault
    ensures EndsWith(script, before + [c], |before|, error)
  {
    assert !Retried(before + [c], |before|);
    if error.Some? && error != Some(Runtime) {
      assert error == Some(Lookup) || error == Some(Fatal) by { assert error.value != Runtime; }
      assert EndsAt(script, before + [c], |before|);
    }
  }

  lemma EndsOn(script: nat -> Event, before: seq<Command>, issued: seq<Command>, from: nat, error: Option<Error>)
    requires before <= issued && from <= |before| && NoEnd(script, before, from)
    requires EndsWith(script, issued, |before|, error)
    ensures EndsWith(script, issued, from, error)
  {
    assert forall k: nat | k < |before| :: issued[k] == before[k];
    assert forall k: nat | k < |before| :: EndsAt(script, issued, k) <==> EndsAt(script, before, k);
  }

  /** How often the sink was muted since command `from`. */
  function Mutes(issued: seq<Command>, from: nat): nat {
    if |issued| <= from then 0
    else Mutes(issued[..|issued| - 1], from) + if issued[|issued| - 1].Mute? then 1 else 0
  }

  lemma {:induction false} MutesOn(before: seq<Command>, issued: seq<Command>, from: nat)
    requires before <= issued && from <= |before|
    ensures |issued| > |before| && issued[|before|].Mute?
            && (forall k | |before| < k < |issued| :: !issued[k].Mute?) ==>
              Mutes(issued, from) == Mutes(before, from) + 1
    ensures (forall k | |before| <= k < |issued| :: !issued[k].Mute?) ==> Mutes(issued, from) == Mutes(before, from)
  {
    if |issued| == |before| {
      assert issued == before;
    } else {
      var init := issued[..|issued| - 1];
      assert forall k | 0 <= k < |init| :: init[k] == issued[k];
      MutesOn(before, init, from);
      if |init| == |before| { assert init == before; }
    }
  }

  /** The time before command n. */
  ghost function TimeIn(start: State, script: nat -> Event, issued: seq<Command>, n: nat): real
    requires n <= |issued|
  {
    Replay(start, script, issued[..n]).clock
  }

  ghost predicate SetsProfile(script: nat -> Event, issued: seq<Command>, k: nat) {
    k < |issued| && issued[k].SetProfile? && script(k).fault.None?
  }

  /** No profile was set behind this time. */
  ghost predicate SetBy(start: State, script: nat -> Event, issued: seq<Command>, from: nat, time: real) {
    forall k: nat | from <= k && SetsProfile(script, issued, k) :: TimeIn(start, script, issued, k + 1) <= time
  }

  /** A profile that was set is set again only after three seconds. */
  ghost predicate ProfilesSpaced(start: State, script: nat -> Event, issued: seq<Command>, from: nat) {
    forall i: nat, j: nat | from <= i < j < |issued| && SetsProfile(script, issued, i) && issued[j].SetProfile? ::
      TimeIn(start, script, issued, j) - TimeIn(start, script, issued, i + 1) >= 3.0
  }

  lemma SameTimes(start: State, script: nat -> Event, before: seq<Command>, issued: seq<Command>)
    requires before <= issued
    ensures forall n: nat | n <= |before| :: TimeIn(start, script, issued, n) == TimeIn(start, script, before, n)
    ensures forall k: nat | k < |before| :: SetsProfile(script, issued, k) <==> SetsProfile(script, before, k)
  {
    assert forall k | 0 <= k < |before| :: issued[k] == before[k];
    forall n: nat | n <= |before| ensures TimeIn(start, script, issued, n) == TimeIn(start, script, before, n) {
      assert issued[..n] == before[..n];
    }
  }

  /** One poll sets the profile first, if at all, and three seconds after it was set last. */
  lemma PollSpaced(start: State, script: nat -> Event, before: seq<Command>, issued: seq<Command>, from: nat,
                   last: real, set': real)
    requires before <= issued && from <= |before| < |issued| && last <= set'
    requires ProfilesSpaced(start, script, before, from) && SetBy(start, script, before, from, last)
    requires forall k | |before| < k < |issued| :: !issued[k].SetProfile?
    requires issued[|before|].SetProfile? ==> TimeIn(start, script, before, |before|) - last >= 3.0
    requires SetsProfile(script, issued, |before|) ==> set' == TimeIn(start, script, issued, |before| + 1)
    ensures ProfilesSpaced(start, script, issued, from) && SetBy(start, script, issued, from, set')
  {
    SameTimes(start, script, before, issued);
    hide TimeIn;
    forall k: nat | from <= k && SetsProfile(script, issued, k) ensures TimeIn(start, script, issued, k + 1) <= set' {
      if k < |before| { assert SetsProfile(script, before, k); }
    }
    forall i: nat, j: nat | from <= i < j < |issued| && SetsProfile(script, issued, i) && issued[j].SetProfile?
      ensures TimeIn(start, script, issued, j) - TimeIn(start, script, issued, i + 1) >= 3.0
    {
      assert SetsProfile(script, before, i) && i + 1 <= |before|;
    }
  }

  lemma NoneSpaced(start: State, script: nat -> Event, before: seq<Command>, issued: seq<Command>, from: nat,
                   last: real)
    requires before <= issued && from <= |before|
    requires ProfilesSpaced(start, script, before, from) && SetBy(start, script, before, from, last)
    requires forall k | |before| <= k < |issued| :: !issued[k].SetProfile?
    ensures ProfilesSpaced(start, script, issued, from) && SetBy(start, script, issued, from, last)
  {
    SameTimes(start, script, before, issued);
    hide TimeIn;
  }

  /** The sink is muted again only after half a second. */
  ghost predicate PausedMutes(issued: seq<Command>, from: nat) {
    forall j, k | from <= j && k == j + 1 && k < |issued| && issued[k].Mute? :: issued[j] == Sleep(0.5)
  }

  lemma PausedFirst(slept: seq<Command>, issued: seq<Command>)
    requires slept <= issued && slept != [] && slept[|slept| - 1] == Sleep(0.5) && PausedMutes(issued, |slept|)
    ensures PausedMutes(issued, |slept| - 1)
  {
  }

  lemma PausedOn(before: seq<Command>, issued: seq<Command>, from: nat)
    requires before <= issued && from <= |before| && PausedMutes(before, from)
    requires forall k | |before| < k < |issued| :: !issued[k].Mute?
    requires |issued| > |before| > from && issued[|before|].Mute? ==> before[|before| - 1] == Sleep(0.5)
    ensures PausedMutes(issued, from)
  {
    assert forall k | 0 <= k < |before| :: issued[k] == before[k];
  }

  class Host {
    const script: nat -> Event
    ghost const start: State
    var tick: nat
    var clock: real
    var rule: Option<string>
    var source: Option<string>
    var selected: string
    var defaultSink: string
    var profile: string
    var forcedRate: nat
    var pauseDepth: int
    ghost var issued: seq<Command>

    ghost function View(): State
      reads this`clock, this`rule, this`source, this`selected, this`defaultSink, this`profile, this`forcedRate
    {
      State(clock, rule, source, selected, defaultSink, profile, forcedRate)
    }

    /** The host is what the commands issued made of it, and nothing else. */
    ghost predicate Valid()
      reads this
    {
      |issued| == tick && Replayed() && forall n: nat :: script(n).elapsed >= 0.0
    }

    ghost predicate Replayed()
      reads this`clock, this`rule, this`source, this`selected, this`defaultSink, this`profile, this`forcedRate,
            this`issued
    {
      View() == Replay(start, script, issued)
    }

    /** The time before event n. */
    ghost function TimeAt(n: nat): real
      requires n <= |issued|
      reads this`issued
    {
      TimeIn(start, script, issued, n)
    }

    /** Event n raises nothing and takes no time. */
    ghost predicate Quiet(n: nat) { script(n).fault.None? && script(n).elapsed == 0.0 }

    /** From event n on nothing raises or takes time, and every listing shows the same sink. */
    ghost predicate SmoothFrom(n: nat) {
      forall k: nat | k >= n :: Quiet(k) && script(k).sink == script(n).sink
    }

    ghost predicate GateRead(gate: nat, key: string, channels: nat, volume: int)
      reads this`issued
    {
      ReadsGate(script, issued, gate, key, channels, volume)
    }

    ghost predicate ConfirmedBy(poll: nat, gate: nat, key: string, profile: string, channels: nat, volume: int)
      reads this`issued
    {
      Confirms(script, issued, poll, gate, key, profile, channels, volume)
    }

    /** Command n took the card off, and the next pinned the rate. */
    ghost predicate TakenOffAt(n: nat, rate: nat)
      reads this`issued
    {
      n + 2 <= |issued| && issued[n] == Command.SetProfile("off") && issued[n + 1] == Command.ForceRate(rate)
    }

    /** Command n wrote the rule, and the next restarted the session manager. */
    ghost predicate RestartedAt(n: nat, rule: Option<string>)
      reads this`issued
    {
      n + 2 <= |issued| && issued[n] == Command.WriteRule(rule) && issued[n + 1] == Restart
    }

    /** Since event `from` the card was taken off and the rate pinned, the rule written, the session manager restarted,
        and only then the sink confirmed, default and selected; the profile is set if that was late enough. */
    ghost predicate OnTier(p: Pass, from: nat, key: string, volume: int)
      reads this`rule, this`selected, this`defaultSink, this`issued, this`profile, this`forcedRate
    {
      && TakenOffAt(from, p.rate) && RestartedAt(from + 2, Some(p.rule))
      && rule == Some(p.rule) && selected == key && defaultSink == key && forcedRate == p.rate
      && exists poll: nat, gate: nat ::
           && from + 4 <= poll && ConfirmedBy(poll, gate, key, "pro-audio", p.channels, volume)
           && profile == if TimeAt(poll) >= PROFILE_RETRY_SECONDS then "pro-audio" else "off"
    }

    /** Some poll since event `from` confirmed the sink, and nothing touched it since. */
    ghost predicate Confirmed(from: nat, key: string, channels: nat, volume: int)
      reads this`issued
    {
      exists poll: nat, gate: nat, profile: string ::
        from <= poll && ConfirmedBy(poll, gate, key, profile, channels, volume)
    }

    /** Listing `gate` shows the sink with its channels, muted and at its volume up to one percent, right after it was
        muted and set to that volume; later only the default, the selection and the source selection are written. */
    ghost predicate ShownMuted(gate: nat, key: string, channels: nat, volume: int)
      reads this`issued
    {
      && 2 <= gate < |issued| && issued[gate] == Command.ListSink(key)
      && issued[gate - 1] == Command.SetVolume(key, volume) && issued[gate - 2] == Command.Mute(key)
      && script(gate).fault.None? && script(gate).sink.Some?
      && (var sink := script(gate).sink.value;
          && sink.muted && sink.spec.Some? && sink.spec.value.channels == channels
          && sink.volume.Some? && -1 <= sink.volume.value - volume <= 1)
      && forall k | gate < k < |issued| :: issued[k].SetDefault? || issued[k].SaveSelection? || issued[k].WriteSource?
    }

    lemma ConfirmedShows(from: nat, key: string, channels: nat, volume: int)
      requires Confirmed(from, key, channels, volume)
      ensures exists gate: nat :: gate > from + 2 && ShownMuted(gate, key, channels, volume)
    {
      var poll: nat, gate: nat, profile: string :|
        from <= poll && ConfirmedBy(poll, gate, key, profile, channels, volume);
      assert gate > from + 2 && ShownMuted(gate, key, channels, volume);
    }

    /** Nothing issued since event `from` raised, and every listing showed the gate. */
    ghost predicate FineSince(from: nat, channels: nat, volume: int)
      reads this`issued
    {
      AllFine(script, issued, from, |issued|, channels, volume)
    }

    constructor (script: nat -> Event, clock: real, rule: Option<string>, source: Option<string>, selected: string,
                 profile: string)
      requires forall n: nat :: script(n).elapsed >= 0.0
      ensures Valid() && issued == []
      ensures this.script == script && tick == 0 && this.clock == clock && this.rule == rule && this.source == source
      ensures this.selected == selected && this.profile == profile && pauseDepth == 0
    {
      this.script, this.clock, this.rule, this.source := script, clock, rule, source;
      this.selected, this.defaultSink, this.profile := selected, selected, profile;
      tick, forcedRate, pauseDepth, issued := 0, 0, 0, [];
      start := State(clock, rule, source, selected, selected, profile, 0);
    }

    lemma ReadClock()
      requires Valid()
      ensures TimeAt(tick) == clock == Replay(start, script, issued).clock
    {
      assert issued[..tick] == issued;
    }

    /** The command is issued next, and takes its time. */
    twostate predicate Issues(c: Command)
      reads this
    {
      && issued == old(issued) + [c] && tick == old(tick) + 1
      && clock == old(clock) + script(old(tick)).elapsed + if c.Sleep? then c.seconds else 0.0
    }

    method Step(ghost c: Command) returns (e: Event)
      requires Valid()
      modifies `tick, `clock, `issued
      ensures e == script(old(tick)) && e.elapsed >= 0.0
      ensures issued == old(issued) + [c] && tick == old(tick) + 1 && clock == old(clock) + e.elapsed
      ensures Replay(start, script, issued) == After(old(View()), c, e)
    {
      OneMoreCommand(start, script, issued, c);
      e := script(tick);
      tick, clock, issued := tick + 1, clock + e.elapsed, issued + [c];
    }

    method Sleep(seconds: real)
      requires Valid() && seconds >= 0.0
      modifies `tick, `clock, `issued
      ensures Valid() && Issues(Command.Sleep(seconds)) && clock >= old(clock) + seconds
    {
      hide Replay;
      var e := Step(Command.Sleep(seconds));
      clock := clock + seconds;
    }

    /** A command none of whose effects on the sound server is modelled. */
    method Run(c: Command) returns (error: Option<Error>)
      requires Valid() && (c.Restart? || c.ListCards? || c.ReadFiles? || c.Mute? || c.SetVolume?)
      modifies `tick, `clock, `issued
      ensures Valid() && Issues(c) && error == script(old(tick)).fault
    {
      hide Replay;
      var e := Step(c);
      error := e.fault;
    }

    method SetProfile(p: string) returns (error: Option<Error>)
      requires Valid()
      modifies `tick, `clock, `issued, `profile
      ensures Valid() && Issues(Command.SetProfile(p)) && error == script(old(tick)).fault
      ensures (error.None? ==> profile == p) && (profile == p || profile == old(profile))
    {
      hide Replay;
      var e := Step(Command.SetProfile(p));
      if e.fault.None? || e.effect { profile := p; }
      error := e.fault;
    }

    method ForceRate(rate: nat) returns (error: Option<Error>)
      requires Valid()
      modifies `tick, `clock, `issued, `forcedRate
      ensures Valid() && Issues(Command.ForceRate(rate)) && error == script(old(tick)).fault
      ensures error.None? ==> forcedRate == rate
    {
      hide Replay;
      var e := Step(Command.ForceRate(rate));
      if e.fault.None? || e.effect { forcedRate := rate; }
      error := e.fault;
    }

    /** The sink looked up in a fresh listing. */
    method ListSink(key: string) returns (error: Option<Error>, sink: Option<Sink>)
      requires Valid()
      modifies `tick, `clock, `issued
      ensures Valid() && Issues(Command.ListSink(key))
      ensures error == script(old(tick)).fault && sink == script(old(tick)).sink
    {
      hide Replay;
      var e := Step(Command.ListSink(key));
      error, sink := e.fault, e.sink;
    }

    method SetDefault(key: string) returns (error: Option<Error>)
      requires Valid()
      modifies `tick, `clock, `issued, `defaultSink
      ensures Valid() && Issues(Command.SetDefault(key)) && error == script(old(tick)).fault
      ensures error.None? ==> defaultSink == key
    {
      hide Replay;
      var e := Step(Command.SetDefault(key));
      if e.fault.None? || e.effect { defaultSink := key; }
      error := e.fault;
    }

    method SaveSelection(key: string) returns (error: Option<Error>)
      requires Valid()
      modifies `tick, `clock, `issued, `selected
      ensures Valid() && Issues(Command.SaveSelection(key)) && error == script(old(tick)).fault
      ensures error.None? ==> selected == key
    {
      hide Replay;
      var e := Step(Command.SaveSelection(key));
      if e.fault.None? || e.effect { selected := key; }
      error := e.fault;
    }

    /** The rule is unlinked, or replaced through a temporary file. */
    method WriteRule(content: Option<string>) returns (error: Option<Error>)
      requires Valid()
      modifies `tick, `clock, `issued, `rule
      ensures Valid() && Issues(Command.WriteRule(content)) && error == script(old(tick)).fault
      ensures error.None? ==> rule == content
    {
      hide Replay;
      var e := Step(Command.WriteRule(content));
      if e.fault.None? || e.effect { rule := content; }
      error := e.fault;
    }

    method WriteSource(content: string) returns (error: Option<Error>)
      requires Valid()
      modifies `tick, `clock, `issued, `source
      ensures Valid() && Issues(Command.WriteSource(content)) && error == script(old(tick)).fault
      ensures error.None? ==> source == Some(content)
    {
      hide Replay;
      var e := Step(Command.WriteSource(content));
      source := Some(if e.fault.None? then content else e.garbage);
      error := e.fault;
    }

    /** Time goes on, and what has been issued stays issued. */
    twostate predicate GoesOn()
      reads this
    {
      old(issued) <= issued && old(tick) <= tick && clock >= old(clock)
    }
  }

  /** One pass of a transition: the tier it applies, and the rate. */
  datatype Pass = Pass(channels: nat, rate: nat, rule: string)

  class ChannelTierChange {
    const host: Host
    const oldKey: string
    const newKey: string
    const tierChannels: nat
    const targetRate: nat
    const tierRule: string
    // The source selection with the old capture node's name replaced by the new one's.
    const renameSource: string -> string
    var captured: bool
    var started: bool
    var oldChannels: nat
    var oldRate: nat
    var volume: int
    var oldProfile: string
    var oldRule: Option<string>
    var oldSource: Option<string>
    var recoveryOwner: ChannelTierChange?
    var recoveryPause: bool

    ghost predicate Valid()
      reads this, host
    {
      host.Valid()
    }

    constructor (host: Host, oldKey: string, newKey: string, tierChannels: nat, targetRate: nat, tierRule: string,
                 renameSource: string -> string)
      ensures this.host == host && this.oldKey == oldKey && this.newKey == newKey && this.tierChannels == tierChannels
      ensures this.targetRate == targetRate && this.tierRule == tierRule && this.renameSource == renameSource
      ensures !captured && !started && !recoveryPause && recoveryOwner == null
    {
      this.host, this.oldKey, this.newKey, this.tierChannels := host, oldKey, newKey, tierChannels;
      this.targetRate, this.tierRule, this.renameSource := targetRate, tierRule, renameSource;
      captured, started, recoveryPause, recoveryOwner := false, false, false, null;
      oldChannels, oldRate, volume, oldProfile, oldRule, oldSource := 0, 0, 0, "", None, None;
    }

    /** The sink as the listing at event n shows it is what this change was captured from. */
    ghost predicate CapturedFrom(n: nat)
      reads this, host
    {
      && n < |host.issued| && host.issued[n] == Command.ListSink(oldKey)
      && host.script(n).sink.Some?
      && host.script(n).sink.value.spec == Some(Spec(oldChannels, oldRate))
      && host.script(n).sink.value.volume == Some(volume)
    }

    /** A capture can only fail at what it is shown: nothing raises, and the listing is complete. */
    ghost predicate ReadyToCapture(n: nat, activeProfile: Option<string>)
      reads host
    {
      && host.selected == oldKey
      && host.script(n).fault.None? && host.script(n + 1).fault.None? && host.script(n + 2).fault.None?
      && host.script(n).sink.Some? && host.script(n).sink.value.spec.Some? && host.script(n).sink.value.volume.Some?
      && activeProfile.Some? && activeProfile.value != "" && activeProfile.value != "off"
    }

    /** The selected sink, listed; its channels, rate and volume are noted. */
    method CaptureSink() returns (error: Option<Error>)
      requires Valid()
      modifies this`oldChannels, this`oldRate, this`volume, host`tick, host`clock, host`issued
      ensures Valid() && host.GoesOn()
      ensures error.None? ==>
                && CapturedFrom(old(host.tick)) && host.tick == old(host.tick) + 1
                && host.clock == old(host.clock) + host.script(old(host.tick)).elapsed
      ensures error.None? <==>
                && host.selected == oldKey && host.script(old(host.tick)).fault.None?
                && host.script(old(host.tick)).sink.Some?
                && host.script(old(host.tick)).sink.value.spec.Some?
                && host.script(old(host.tick)).sink.value.volume.Some?
    {
      hide Host.Replayed;
      if host.selected != oldKey { return Some(Lookup); }
      var failed, sink := host.ListSink(oldKey);
      if failed.Some? { return failed; }
      if sink.None? || sink.value.spec.None? || sink.value.volume.None? { return Some(Runtime); }
      oldChannels, oldRate := sink.value.spec.value.channels, sink.value.spec.value.rate;
      volume := sink.value.volume.value;
      return None;
    }

    /** Snapshot of everything rollback restores. `activeProfile` is what the card listing is parsed to. */
    method Capture(activeProfile: Option<string>) returns (error: Option<Error>)
      requires Valid()
      modifies this`oldChannels, this`oldRate, this`volume, this`oldProfile, this`oldRule, this`oldSource,
               this`captured, host`tick, host`clock, host`issued
      ensures Valid() && host.GoesOn()
      ensures error.None? ==>
                && captured && host.selected == oldKey && oldRule == host.rule && oldSource == host.source
                && activeProfile == Some(oldProfile) && oldProfile != "" && oldProfile != "off"
                && CapturedFrom(old(host.tick)) && host.tick == old(host.tick) + 3
                && host.clock == old(host.clock) + host.script(old(host.tick)).elapsed
                                 + host.script(old(host.tick) + 1).elapsed + host.script(old(host.tick) + 2).elapsed
      ensures error.Some? ==> captured == old(captured)
      ensures error.None? <==> old(ReadyToCapture(host.tick, activeProfile))
    {
      hide Host.Replayed;
      error := CaptureSink();
      if error.Some? { return; }
      var cards := host.Run(ListCards);
      if cards.Some? { return cards; }
      if activeProfile.None? || activeProfile.value == "" || activeProfile.value == "off" { return Some(Runtime); }
      oldProfile := activeProfile.value;
      var readFault := host.Run(ReadFiles);
      if readFault.Some? { return readFault; }
      oldRule, oldSource, captured := host.rule, host.source, true;
      return None;
    }

    method ReleaseAndPin(rate: nat) returns (error: Option<Error>)
      requires Valid()
      modifies host`tick, host`clock, host`issued, host`profile, host`forcedRate
      ensures Valid() && host.GoesOn()
      ensures error.None? ==> host.profile == "off" && host.forcedRate == rate && host.TakenOffAt(old(host.tick), rate)
      // It raises exactly when one of its two commands does, and runs no other.
      ensures error == if host.script(old(host.tick)).fault.Some? then host.script(old(host.tick)).fault
                       else host.script(old(host.tick) + 1).fault
      ensures host.tick == old(host.tick) + if host.script(old(host.tick)).fault.Some? then 1 else 2
      ensures host.clock == old(host.clock) + host.script(old(host.tick)).elapsed
                            + if host.script(old(host.tick)).fault.Some? then 0.0
                              else host.script(old(host.tick) + 1).elapsed
      ensures forall k | old(host.tick) <= k < host.tick :: !host.issued[k].ListSink?
    {
      hide Host.Replayed;
      error := host.SetProfile("off");
      if error.None? { error := host.ForceRate(rate); }
    }

    /** Up to three tries to mute the fresh sink, set its volume and read both back. */
    method ConfirmGate(key: string, channels: nat) returns (error: Option<Error>)
      requires Valid()
      modifies host`tick, host`clock, host`issued
      ensures Valid() && host.GoesOn()
      ensures forall k | old(host.tick) <= k < host.tick :: Gating(host.issued[k])
      ensures error.None? ==>
                && host.tick >= old(host.tick) + 3 && host.GateRead(host.tick - 1, key, channels, volume)
      ensures host.FineSince(old(host.tick), channels, volume) ==> error.None?
      // Every try but the first comes after a pause, and it takes three to give up.
      ensures PausedMutes(host.issued, old(host.tick))
      ensures Mutes(host.issued, old(host.tick)) <= 3
      ensures error == Some(Runtime) ==> Mutes(host.issued, old(host.tick)) == 3
      ensures EndsWith(host.script, host.issued, old(host.tick), error)
    {
      hide Host.Replayed;
      hide Mutes, EndsWith, NoEnd, EndsAt, PausedMutes, ReadsGate, AllFine;
      NothingYet();
      hide ChannelTierChange.Trying;
      for attempt := 0 to 3
        invariant Valid() && host.GoesOn()
        invariant attempt == 0 ==> host.tick == old(host.tick)
        invariant Trying(old(host.tick), attempt)
        invariant forall k | old(host.tick) <= k < host.tick :: Gating(host.issued[k])
        invariant attempt > 0 ==> !host.FineSince(old(host.tick), channels, volume)
      {
        ghost var from, before := host.tick, host.issued;
        error := TryAndPause(key, channels, old(host.tick), attempt);
        assert forall k | 0 <= k < |before| :: host.issued[k] == before[k];
        FineLater(from, old(host.tick), channels);
        if error.None? || error == Some(Fatal) {
          return;
        }
      }
      GateTriedInVain(old(host.tick));
      return Some(Runtime);
    }

    /** So many tries since command `start` read no gate, with a pause behind each, and none ended them. */
    ghost predicate Trying(start: nat, tries: nat)
      reads host`issued
    {
      && start <= |host.issued| && Mutes(host.issued, start) == tries && PausedMutes(host.issued, start)
      && NoEnd(host.script, host.issued, start)
      && (|host.issued| > start ==> host.issued[|host.issued| - 1] == Command.Sleep(0.5))
    }

    lemma GateTriedInVain(start: nat)
      requires Trying(start, 3)
      ensures Mutes(host.issued, start) == 3 && PausedMutes(host.issued, start)
      ensures EndsWith(host.script, host.issued, start, Some(Runtime))
    {
    }

    /** One try, and the pause behind a failed one. */
    method TryAndPause(key: string, channels: nat, ghost start: nat, ghost tries: nat) returns (error: Option<Error>)
      requires Valid() && Trying(start, tries)
      modifies host`tick, host`clock, host`issued
      ensures Valid() && host.GoesOn() && host.tick > old(host.tick)
      ensures forall k | old(host.tick) <= k < host.tick :: Gating(host.issued[k])
      ensures error.None? ==>
                && host.tick >= old(host.tick) + 3 && host.GateRead(host.tick - 1, key, channels, volume)
      ensures host.FineSince(old(host.tick), channels, volume) ==> error.None?
      ensures if error.None? || error == Some(Fatal) then
                && Mutes(host.issued, start) == tries + 1 && PausedMutes(host.issued, start)
                && EndsWith(host.script, host.issued, start, error)
              else Trying(start, tries + 1)
    {
      hide Host.Replayed, ReadsGate, Mutes, EndsWith, NoEnd, EndsAt, PausedMutes, AllFine;
      ghost var from, before := host.tick, host.issued;
      error := TryGate(key, channels);
      ghost var tried := host.issued;
      assert tried[..from] == before;
      PausedOn(before, tried, start);
      MutesOn(before, tried, start);
      TryEnds(from, start, error);
      if error.None? || error == Some(Fatal) {
        return;
      }
      host.Sleep(POLL_SECONDS);
      MutesOn(tried, host.issued, start);
      PausedOn(tried, host.issued, start);
      SleepEndsNothing(tried, start);
      NotFineYet(tried, from, channels);
    }

    lemma NothingYet()
      requires Valid()
      ensures Mutes(host.issued, host.tick) == 0 && NoEnd(host.script, host.issued, host.tick)
      ensures PausedMutes(host.issued, host.tick)
    {
    }

    /** After one try of the gate from command `from` on. */
    lemma TryEnds(from: nat, start: nat, error: Option<Error>)
      requires Valid() && start <= from < host.tick <= from + 3 && NoEnd(host.script, host.issued[..from], start)
      requires host.issued[from].Mute? && (host.tick > from + 1 ==> host.issued[from + 1].SetVolume?)
      requires host.tick > from + 2 ==> host.issued[from + 2].ListSink?
      requires forall k: nat | from <= k < host.tick - 1 :: host.script(k).fault.None?
      requires if host.script(host.tick - 1).fault.Some? then error == host.script(host.tick - 1).fault
               else error != Some(Fatal)
      ensures error == Some(Fatal) ==> EndsWith(host.script, host.issued, start, error)
      ensures error != Some(Fatal) ==> NoEnd(host.script, host.issued, start)
      ensures error.None? ==> EndsWith(host.script, host.issued, start, error)
    {
      assert forall k: nat | k < from :: EndsAt(host.script, host.issued, k)
                                         <==> EndsAt(host.script, host.issued[..from], k);
    }

    lemma SleepEndsNothing(before: seq<Command>, start: nat)
      requires Valid() && |host.issued| == |before| + 1 && before <= host.issued && host.issued[|before|].Sleep?
      requires NoEnd(host.script, before, start)
      ensures NoEnd(host.script, host.issued, start)
    {
      assert forall k: nat | k < |before| :: EndsAt(host.script, host.issued, k) <==> EndsAt(host.script, before, k);
    }

    method TryGate(key: string, channels: nat) returns (error: Option<Error>)
      requires Valid()
      modifies host`tick, host`clock, host`issued
      ensures Valid() && host.GoesOn()
      ensures forall k | old(host.tick) <= k < host.tick :: Gating(host.issued[k])
      ensures error.None? ==>
                && host.tick == old(host.tick) + 3 && host.GateRead(host.tick - 1, key, channels, volume)
      ensures host.FineSince(old(host.tick), channels, volume) ==> error.None?
      // Mute, volume, listing, up to the first that raises, whose error it is.
      ensures old(host.tick) < host.tick <= old(host.tick) + 3 && host.issued[old(host.tick)] == Mute(key)
      ensures host.tick > old(host.tick) + 1 ==> host.issued[old(host.tick) + 1] == SetVolume(key, volume)
      ensures host.tick > old(host.tick) + 2 ==> host.issued[old(host.tick) + 2] == ListSink(key)
      ensures forall k: nat | old(host.tick) <= k < host.tick - 1 :: host.script(k).fault.None?
      ensures if host.script(host.tick - 1).fault.Some? then error == host.script(host.tick - 1).fault
              else error != Some(Fatal)
    {
      hide Host.Replayed;
      error := host.Run(Mute(key));
      assert error.None? || !Fine(host.script, host.issued, old(host.tick), channels, volume);
      if error.Some? { return; }
      error := host.Run(SetVolume(key, volume));
      assert error.None? || !Fine(host.script, host.issued, old(host.tick) + 1, channels, volume);
      if error.Some? { return; }
      var live;
      error, live := host.ListSink(key);
      assert (error.None? && live.Some? && Gated(live.value, channels, volume))
             || !Fine(host.script, host.issued, old(host.tick) + 2, channels, volume);
      if error.Some? { return; }
      if live.None? || live.value.spec.None? { return Some(Runtime); }
      if live.value.spec.value.channels != channels { return Some(Lookup); }
      if !live.value.muted { return Some(Lookup); }
      if live.value.volume.None? { return Some(Runtime); }
      if Abs(live.value.volume.value - volume) > 1 { return Some(Lookup); }
    }

    /** The profile is set again when that was not done for three seconds. */
    method RetryProfile(profile: string, lastProfileSet: real, ghost channels: nat)
      returns (error: Option<Error>, profileSet: real)
      requires Valid()
      modifies host`tick, host`clock, host`issued, host`profile
      ensures Valid() && host.GoesOn()
      ensures if old(host.clock) - lastProfileSet < PROFILE_RETRY_SECONDS then
                error.None? && profileSet == lastProfileSet && unchanged(host)
              else
                && host.issued == old(host.issued) + [Command.SetProfile(profile)]
                && (host.profile == profile || host.profile == old(host.profile))
                && (error.None? ==> profileSet == host.clock && host.profile == profile)
                && (error.Some? ==> profileSet == lastProfileSet && !host.FineSince(old(host.tick), channels, volume))
                && error == host.script(old(host.tick)).fault
    {
      hide Host.Replayed;
      error, profileSet := None, lastProfileSet;
      if host.clock - lastProfileSet >= PROFILE_RETRY_SECONDS {
        error := host.SetProfile(profile);
        assert error.None? || !Fine(host.script, host.issued, old(host.tick), channels, volume);
        if error.None? { profileSet := host.clock; }
      }
    }

    /** One poll of the reprobe loop: done to report success, or the exception that ended the poll. */
    method Poll(key: string, profile: string, channels: nat, lastProfileSet: real)
      returns (done: bool, error: Option<Error>, profileSet: real, ghost gate: nat)
      requires Valid() && host.tick > 0 && !host.issued[host.tick - 1].SetVolume?
      modifies host`tick, host`clock, host`issued, host`profile, host`defaultSink, host`selected
      ensures Valid() && host.GoesOn()
      ensures done ==> error.None? && host.defaultSink == key && host.selected == key
      ensures done ==> host.ConfirmedBy(old(host.tick), gate, key, profile, channels, volume)
      ensures profileSet == lastProfileSet || old(host.clock) <= profileSet <= host.clock
      ensures host.profile == profile || host.profile == old(host.profile)
      ensures profileSet != lastProfileSet ==> host.profile == profile
      ensures old(host.clock) - lastProfileSet < PROFILE_RETRY_SECONDS ==>
                profileSet == lastProfileSet && host.profile == old(host.profile)
      ensures done && old(host.clock) - lastProfileSet >= PROFILE_RETRY_SECONDS ==> host.profile == profile
      ensures host.FineSince(old(host.tick), channels, volume) ==> done
      ensures host.tick > old(host.tick) && EndsWith(host.script, host.issued, old(host.tick), error)
      // The profile is set at most once, at first, and only three seconds after it was set before.
      ensures forall k | old(host.tick) < k < host.tick :: !host.issued[k].SetProfile?
      ensures if host.issued[old(host.tick)].SetProfile? then
                && old(host.clock) - lastProfileSet >= PROFILE_RETRY_SECONDS
                && (host.script(old(host.tick)).fault.None? ==> profileSet == host.TimeAt(old(host.tick) + 1))
                && (host.script(old(host.tick)).fault.Some? ==> profileSet == lastProfileSet)
              else profileSet == lastProfileSet
    {
      hide Host.Replayed, EndsWith, EndsAt, NoEnd, TimeIn, ReadsGate, AllFine;
      done, gate := false, 0;
      ghost var begun := host.issued;
      NothingYet();
      error, profileSet := RetryProfile(profile, lastProfileSet, channels);
      if host.issued != begun { OneEnds(host.script, begun, Command.SetProfile(profile), error); }
      host.ReadClock();
      if error.Some? { return; }
      ghost var listed, before := host.tick, host.issued;
      done, error, gate := SeeAndConfirm(key, channels);
      SameTimes(host.start, host.script, before, host.issued);
      EndsOn(host.script, before, host.issued, old(host.tick), error);
      FineLater(listed, old(host.tick), channels);
    }

    /** The rest of a poll, from the listing on. */
    method SeeAndConfirm(key: string, channels: nat) returns (done: bool, error: Option<Error>, ghost gate: nat)
      requires Valid() && host.tick > 0 && !host.issued[host.tick - 1].SetVolume?
      modifies host`tick, host`clock, host`issued, host`defaultSink, host`selected
      ensures Valid() && host.GoesOn() && host.tick > old(host.tick)
      ensures host.issued[old(host.tick)] == Command.ListSink(key)
      ensures done ==>
                && error.None? && host.defaultSink == key && host.selected == key
                && old(host.tick) + 2 < gate < host.tick && host.GateRead(gate, key, channels, volume)
                && (forall k | old(host.tick) < k < gate :: Gating(host.issued[k]))
                && (forall k | gate < k < host.tick :: LeavesSink(host.issued[k]))
      ensures host.FineSince(old(host.tick), channels, volume) ==> done
      // A listing that raises, or does not show the sink, ends the poll.
      ensures host.script(old(host.tick)).fault.Some? || host.script(old(host.tick)).sink.None? ==>
                host.tick == old(host.tick) + 1 && error == host.script(old(host.tick)).fault && !done
      ensures !done && error.None? ==> host.tick == old(host.tick) + 1
      ensures EndsWith(host.script, host.issued, old(host.tick), error)
      ensures forall k | old(host.tick) <= k < host.tick :: !host.issued[k].SetProfile?
    {
      hide Host.Replayed;
      done, gate := false, 0;
      var sink;
      ghost var before := host.issued;
      error, sink := host.ListSink(key);
      OneEnds(host.script, before, ListSink(key), error);
      assert (error.None? && sink.Some?) || !Fine(host.script, host.issued, old(host.tick), channels, volume);
      if error.Some? || sink.None? { return; }
      ghost var listed := host.issued;
      error, gate := SettleAndConfirm(key, channels);
      EndsOn(host.script, listed, host.issued, old(host.tick), error);
      if error.Some? {
        FineLater(old(host.tick) + 1, old(host.tick), channels);
        return;
      }
      ghost var confirmed := host.issued;
      error := Select(key, channels);
      EndsOn(host.script, confirmed, host.issued, old(host.tick), error);
      FineLater(gate + 1, old(host.tick), channels);
      done := error.None?;
    }

    lemma FineLater(from: nat, wider: nat, channels: nat)
      requires Valid() && wider <= from
      ensures host.FineSince(wider, channels, volume) ==> host.FineSince(from, channels, volume)
    {
      if host.FineSince(wider, channels, volume) {
        FineEarlier(host.script, host.issued, from, host.tick, host.issued, wider, host.tick, channels, volume);
      }
    }

    lemma FineBefore(before: seq<Command>, from: nat, channels: nat)
      requires Valid() && before <= host.issued
      ensures host.FineSince(from, channels, volume) ==> AllFine(host.script, before, from, |before|, channels, volume)
    {
      if host.FineSince(from, channels, volume) {
        FineEarlier(host.script, before, from, |before|, host.issued, from, host.tick, channels, volume);
      }
    }

    method SettleAndConfirm(key: string, channels: nat) returns (error: Option<Error>, ghost gate: nat)
      requires Valid()
      modifies host`tick, host`clock, host`issued
      ensures Valid() && host.GoesOn()
      ensures forall k | old(host.tick) <= k < host.tick :: Gating(host.issued[k])
      ensures error.None? ==>
                && gate == host.tick - 1 >= old(host.tick) + 3 && host.GateRead(gate, key, channels, volume)
      ensures host.FineSince(old(host.tick), channels, volume) ==> error.None?
      ensures EndsWith(host.script, host.issued, old(host.tick), error) && PausedMutes(host.issued, old(host.tick))
    {
      hide Host.Replayed, ReadsGate, EndsWith, NoEnd, PausedMutes;
      ghost var before := host.issued;
      NothingYet();
      host.Sleep(0.5);
      SleepEndsNothing(before, old(host.tick));
      ghost var slept := host.issued;
      error := ConfirmGate(key, channels);
      EndsOn(host.script, slept, host.issued, old(host.tick), error);
      PausedFirst(slept, host.issued);
      gate := host.tick - 1;
      FineLater(old(host.tick) + 1, old(host.tick), channels);
    }

    method Select(key: string, ghost channels: nat) returns (error: Option<Error>)
      requires Valid()
      modifies host`tick, host`clock, host`issued, host`defaultSink, host`selected
      ensures Valid() && host.GoesOn()
      ensures forall k | old(host.tick) <= k < host.tick :: LeavesSink(host.issued[k])
      ensures error.None? ==> host.defaultSink == key && host.selected == key
      ensures host.FineSince(old(host.tick), channels, volume) ==> error.None?
      ensures EndsWith(host.script, host.issued, old(host.tick), error)
    {
      hide Host.Replayed;
      ghost var before := host.issued;
      error := host.SetDefault(key);
      OneEnds(host.script, before, SetDefault(key), error);
      assert error.None? || !Fine(host.script, host.issued, old(host.tick), channels, volume);
      if error.Some? { return; }
      ghost var defaulted := host.issued;
      error := host.SaveSelection(key);
      OneEnds(host.script, defaulted, SaveSelection(key), error);
      EndsOn(host.script, defaulted, host.issued, old(host.tick), error);
      assert error.None? || !Fine(host.script, host.issued, old(host.tick) + 1, channels, volume);
    }

    /** Restart WirePlumber and poll until the sink is back and gated. The profile is set by the first poll
        at least three seconds after boot, so a poll that confirms the sink earlier leaves the old one. */
    method Reopen(key: string, profile: string, channels: nat)
      returns (error: Option<Error>, ghost poll: nat, ghost gate: nat)
      requires Valid() && host.clock >= 0.0
      modifies host`tick, host`clock, host`issued, host`profile, host`defaultSink, host`selected
      ensures Valid() && host.GoesOn() && host.tick > old(host.tick)
      ensures error.None? ==> host.defaultSink == key && host.selected == key
      ensures error.None? ==>
                && poll > old(host.tick) && host.ConfirmedBy(poll, gate, key, profile, channels, volume)
                && host.issued[old(host.tick)] == Restart && host.TimeAt(poll) >= old(host.clock)
                && host.profile == if host.TimeAt(poll) >= PROFILE_RETRY_SECONDS then profile else old(host.profile)
      ensures host.FineSince(old(host.tick), channels, volume) ==>
                && error.None? && poll == old(host.tick) + 1
                && host.TimeAt(poll) == old(host.clock) + host.script(old(host.tick)).elapsed
      // A restart that raises is reported; behind it only what no retry takes care of ends the polls before their time.
      ensures host.script(old(host.tick)).fault.Some? ==>
                error == host.script(old(host.tick)).fault && host.tick == old(host.tick) + 1
      ensures host.script(old(host.tick)).fault.None? ==>
                EndsWith(host.script, host.issued, old(host.tick) + 1, error)
      ensures host.script(old(host.tick)).fault.None? && error == Some(Runtime) ==>
                host.clock >= host.TimeAt(old(host.tick) + 1) + 25.0
      ensures ProfilesSpaced(host.start, host.script, host.issued, old(host.tick) + 1)
    {
      hide Host.Replayed, Confirms, EndsWith, EndsAt, NoEnd, ProfilesSpaced, SetBy, AllFine, TimeIn;
      hide ChannelTierChange.Polling;
      poll, gate := 0, 0;
      error := host.Run(Restart);
      if error.Some? { RaisedIsNotFine(old(host.tick), channels); }
      ghost var restarted, start := host.issued, host.tick;
      host.ReadClock();
      NothingPolled();
      if error.Some? { return; }
      var deadline := host.clock + REOPEN_TIMEOUT;
      var lastProfileSet := 0.0;
      while host.clock < deadline
        invariant Valid() && host.GoesOn() && host.tick > old(host.tick) && host.issued[old(host.tick)] == Restart
        invariant lastProfileSet == 0.0 || (PROFILE_RETRY_SECONDS <= lastProfileSet && host.profile == profile)
        invariant lastProfileSet <= host.clock
        invariant lastProfileSet == 0.0 ==> host.profile == old(host.profile) || host.profile == profile
        invariant host.clock < PROFILE_RETRY_SECONDS ==> host.profile == old(host.profile)
        invariant (host.tick == old(host.tick) + 1
                   && host.clock == old(host.clock) + host.script(old(host.tick)).elapsed)
                  || !host.FineSince(old(host.tick), channels, volume)
        invariant host.tick == old(host.tick) + 1 ==> host.clock < deadline
        invariant restarted <= host.issued && Polling(start, lastProfileSet)
        decreases if host.clock < deadline then ((deadline - host.clock) / POLL_SECONDS).Floor + 1 else 0
      {
        ghost var started, before := host.clock, host.issued;
        poll := host.tick;
        host.ReadClock();
        var done, failed, profileSet;
        done, failed, profileSet, gate := PollOnce(key, profile, channels, lastProfileSet, start);
        SameTimes(host.start, host.script, before, host.issued);
        lastProfileSet := profileSet;
        FineBefore(before, old(host.tick), channels);
        FineLater(poll, old(host.tick), channels);
        if done {
          return None, poll, gate;
        }
        if failed.Some? && failed != Some(Runtime) {
          return failed, poll, gate;
        }
        FewerPolls(deadline, started, host.clock);
      }
      error := Some(Runtime);
      PolledInVain(start, lastProfileSet);
      SameTimes(host.start, host.script, restarted, host.issued);
    }

    /** Since command `start` no poll ended the reprobe, and the profile was set at due times, last by this time. */
    ghost predicate Polling(start: nat, time: real)
      reads host`issued
    {
      && 0 < start <= |host.issued| && !host.issued[|host.issued| - 1].SetVolume?
      && NoEnd(host.script, host.issued, start)
      && ProfilesSpaced(host.start, host.script, host.issued, start)
      && SetBy(host.start, host.script, host.issued, start, time)
    }

    lemma NothingPolled()
      requires Valid() && host.tick > 0 && !host.issued[host.tick - 1].SetVolume?
      ensures ProfilesSpaced(host.start, host.script, host.issued, host.tick) && Polling(host.tick, 0.0)
    {
    }

    lemma PolledInVain(start: nat, time: real)
      requires Polling(start, time)
      ensures ProfilesSpaced(host.start, host.script, host.issued, start)
      ensures EndsWith(host.script, host.issued, start, Some(Runtime))
    {
    }

    /** One poll of the reprobe loop, and the pause behind one that is neither done nor ends the loop. */
    method PollOnce(key: string, profile: string, channels: nat, lastProfileSet: real, ghost start: nat)
      returns (done: bool, error: Option<Error>, profileSet: real, ghost gate: nat)
      requires Valid() && Polling(start, lastProfileSet) && lastProfileSet <= host.clock
      modifies host`tick, host`clock, host`issued, host`profile, host`defaultSink, host`selected
      ensures Valid() && host.GoesOn() && host.tick > old(host.tick)
      ensures done ==> error.None? && host.defaultSink == key && host.selected == key
      ensures done ==> host.ConfirmedBy(old(host.tick), gate, key, profile, channels, volume)
      ensures profileSet == lastProfileSet || old(host.clock) <= profileSet
      ensures profileSet <= host.clock
      ensures host.profile == profile || host.profile == old(host.profile)
      ensures profileSet != lastProfileSet ==> host.profile == profile
      ensures old(host.clock) - lastProfileSet < PROFILE_RETRY_SECONDS ==>
                profileSet == lastProfileSet && host.profile == old(host.profile)
      ensures done && old(host.clock) - lastProfileSet >= PROFILE_RETRY_SECONDS ==> host.profile == profile
      ensures host.FineSince(old(host.tick), channels, volume) ==> done
      ensures if done || (error.Some? && error != Some(Runtime)) then
                && EndsWith(host.script, host.issued, start, error)
                && ProfilesSpaced(host.start, host.script, host.issued, start)
              else host.clock >= old(host.clock) + POLL_SECONDS && Polling(start, profileSet)
    {
      hide Host.Replayed, Confirms, EndsWith, EndsAt, NoEnd, ProfilesSpaced, SetBy, AllFine;
      ghost var before := host.issued;
      host.ReadClock();
      done, error, profileSet, gate := Poll(key, profile, channels, lastProfileSet);
      ghost var polled := host.issued;
      assert polled[..|before|] == before == before[..|before|];
      PollSpaced(host.start, host.script, before, polled, start, lastProfileSet, profileSet);
      EndsOn(host.script, before, polled, start, error);
      if done || (error.Some? && error != Some(Runtime)) {
        return;
      }
      OrdinaryHasNoEnd(host.script, polled, start, error);
      host.Sleep(POLL_SECONDS);
      SleepEndsNothing(polled, start);
      NoneSpaced(host.start, host.script, polled, host.issued, start, profileSet);
      NotFineYet(polled, old(host.tick), channels);
    }

    /** What was not fine stays so. */
    lemma NotFineYet(before: seq<Command>, from: nat, channels: nat)
      requires Valid() && before <= host.issued
      ensures !AllFine(host.script, before, from, |before|, channels, volume) ==>
                !host.FineSince(from, channels, volume)
    {
      FineBefore(before, from, channels);
    }

    /** The owner that keeps the monitor paused until the rollback: the first pass of a multi-pass change. */
    ghost function Owner(): ChannelTierChange
      reads this
    {
      if recoveryOwner != null then recoveryOwner else this
    }

    method DeferVolumeMonitorResume()
      requires Valid()
      modifies host`pauseDepth, Owner()`recoveryPause
      ensures Valid() && Owner() == old(Owner()) && Owner().recoveryPause
      ensures host.pauseDepth == old(host.pauseDepth) + if old(Owner().recoveryPause) then 0 else 1
    {
      var owner := if recoveryOwner != null then recoveryOwner else this;
      if !owner.recoveryPause {
        host.pauseDepth := host.pauseDepth + 1;
        owner.recoveryPause := true;
      }
    }

    /** What apply and rollback have in common: rule, reprobe, source selection. */
    method Reprobe(rule: Option<string>, key: string, profile: string, channels: nat, source: Option<string>)
      returns (error: Option<Error>, ghost poll: nat, ghost gate: nat)
      requires Valid() && host.clock >= 0.0
      modifies host`tick, host`clock, host`issued, host`profile, host`defaultSink, host`selected, host`rule, host`source
      ensures Valid() && host.GoesOn()
      ensures error.None? ==>
                && host.RestartedAt(old(host.tick), rule) && poll >= old(host.tick) + 2
                && host.ConfirmedBy(poll, gate, key, profile, channels, volume) && host.TimeAt(poll) >= old(host.clock)
                && host.profile == (if host.TimeAt(poll) >= PROFILE_RETRY_SECONDS then profile else old(host.profile))
                && host.rule == rule && host.selected == key && host.defaultSink == key
                && host.source == if source.Some? then source else old(host.source)
      ensures source.None? ==> host.source == old(host.source)
      ensures host.FineSince(old(host.tick), channels, volume) ==>
                && error.None? && poll == old(host.tick) + 2
                && host.TimeAt(poll) == old(host.clock) + host.script(old(host.tick)).elapsed
                                        + host.script(old(host.tick) + 1).elapsed
    {
      hide Host.Replayed, Confirms;
      poll, gate := 0, 0;
      error := host.WriteRule(rule);
      assert error.None? || !Fine(host.script, host.issued, old(host.tick), channels, volume);
      if error.Some? { return; }
      error, poll, gate := Reopen(key, profile, channels);
      FineLater(old(host.tick) + 1, old(host.tick), channels);
      if error.Some? { return; }
      ghost var before := host.issued;
      error := WriteSelected(source, poll, gate, key, profile, channels);
      assert host.issued[old(host.tick)] == before[old(host.tick)];
      assert host.issued[old(host.tick) + 1] == before[old(host.tick) + 1];
      if host.FineSince(old(host.tick), channels, volume) {
        FineEarlier(host.script, before, old(host.tick) + 1, |before|, host.issued, old(host.tick), host.tick,
                    channels, volume);
        FineLater(|before|, old(host.tick), channels);
      }
    }

    method WriteSelected(source: Option<string>, ghost poll: nat, ghost gate: nat, ghost key: string,
                         ghost profile: string,
                         ghost channels: nat) returns (error: Option<Error>)
      requires Valid() && host.ConfirmedBy(poll, gate, key, profile, channels, volume)
      modifies host`tick, host`clock, host`issued, host`source
      ensures Valid() && host.GoesOn() && host.ConfirmedBy(poll, gate, key, profile, channels, volume)
      ensures poll < |old(host.issued)| && host.TimeAt(poll) == old(host.TimeAt(poll))
      ensures error.None? && source.Some? ==> host.source == source
      ensures source.None? ==> error.None? && host.source == old(host.source)
      ensures host.FineSince(old(host.tick), channels, volume) ==> error.None?
    {
      hide Host.Replayed, ReadsGate;
      error := None;
      if source.Some? {
        error := host.WriteSource(source.value);
        StillConfirms(host.script, old(host.issued), WriteSource(source.value), poll, gate, key, profile, channels,
                      volume);
        assert error.None? || !Fine(host.script, host.issued, old(host.tick), channels, volume);
      }
    }

    /** The hardware is on this pass's tier: since event `from` the card was taken off and pinned, the rule written,
        the session manager restarted, and only then the sink confirmed at the captured volume. */
    ghost predicate InPlace(p: Pass, from: nat)
      reads this`volume, host`rule, host`selected, host`defaultSink, host`issued, host`profile, host`forcedRate
    {
      host.OnTier(p, from, newKey, volume)
    }

    /** A selected source input, when there was one, has the name it has on the new tier. */
    ghost predicate SourceRenamed()
      reads this`oldSource, host`source
    {
      oldSource.Some? && oldSource.value != "" ==> host.source == Some(renameSource(oldSource.value))
    }

    /** The commands of apply, inside its pause. It raises only when one of them does or the gate is not shown. */
    method ApplySteps() returns (error: Option<Error>, ghost poll: nat, ghost gate: nat)
      requires Valid() && host.clock >= 0.0
      modifies host`tick, host`clock, host`issued, host`profile, host`defaultSink, host`selected, host`forcedRate,
               host`rule, host`source
      ensures Valid() && host.GoesOn()
      ensures oldSource.None? || oldSource.value == "" ==> host.source == old(host.source)
      ensures host.script(old(host.tick)).fault.Some? ==>
                && error.Some? && host.tick == old(host.tick) + 1
                && host.clock == old(host.clock) + host.script(old(host.tick)).elapsed
      ensures error.None? ==>
                && InPlace(Own(), old(host.tick))
                && poll >= old(host.tick) + 4
                && host.ConfirmedBy(poll, gate, newKey, "pro-audio", tierChannels, volume)
                && host.profile == (if host.TimeAt(poll) >= PROFILE_RETRY_SECONDS then "pro-audio" else "off")
                && host.forcedRate == targetRate
                && (oldSource.Some? && oldSource.value != "" ==> host.source == Some(renameSource(oldSource.value)))
      ensures host.FineSince(old(host.tick), tierChannels, volume) ==> error.None?
    {
      hide Host.Replayed, Confirms, AllFine;
      poll, gate := 0, 0;
      error := ReleaseAndPin(targetRate);
      if error.Some? {
        RaisedIsNotFine(old(host.tick), tierChannels);
        return;
      }
      var source := if oldSource.Some? && oldSource.value != "" then Some(renameSource(oldSource.value)) else None;
      error, poll, gate := Reprobe(Some(tierRule), newKey, "pro-audio", tierChannels, source);
      FineLater(old(host.tick) + 2, old(host.tick), tierChannels);
      assert error.None? ==> host.issued[old(host.tick)] == Command.SetProfile("off");
      assert error.None? ==> host.issued[old(host.tick) + 1] == ForceRate(targetRate);
    }

    lemma RaisedIsNotFine(from: nat, channels: nat)
      requires Valid() && from < host.tick
      requires host.script(from).fault.Some? || (from + 1 < host.tick && host.script(from + 1).fault.Some?)
      ensures !host.FineSince(from, channels, volume)
    {
      assert !Fine(host.script, host.issued, from, channels, volume)
             || !Fine(host.script, host.issued, from + 1, channels, volume);
    }

    method Apply() returns (error: Option<Error>)
      requires Valid() && host.clock >= 0.0
      modifies host`tick, host`clock, host`issued, host`profile, host`defaultSink, host`selected, host`forcedRate,
               host`rule, host`source, host`pauseDepth, this`started, Owner()`recoveryPause
      ensures Valid() && host.GoesOn()
      ensures !captured ==> error == Some(Runtime) && unchanged(host) && unchanged(this)
      ensures captured ==> started
      // The pause outlives a failed apply, once per owner, and no other.
      ensures error.None? ==>
                && host.pauseDepth == old(host.pauseDepth)
                && old(Owner()).recoveryPause == old(Owner().recoveryPause)
      ensures error.Some? && captured ==>
                && old(Owner()).recoveryPause
                && host.pauseDepth == old(host.pauseDepth) + if old(Owner().recoveryPause) then 0 else 1
      ensures oldSource.None? || oldSource.value == "" ==> host.source == old(host.source)
      ensures captured && host.script(old(host.tick)).fault.Some? ==>
                && error.Some? && host.tick == old(host.tick) + 1
                && host.clock == old(host.clock) + host.script(old(host.tick)).elapsed
      ensures error.None? ==>
                && InPlace(Own(), old(host.tick))
                && (oldSource.Some? && oldSource.value != "" ==> host.source == Some(renameSource(oldSource.value)))
      ensures captured && host.FineSince(old(host.tick), tierChannels, volume) ==> error.None?
    {
      hide ChannelTierChange.InPlace, Confirms, AllFine, Host.Replayed;
      if !captured {
        return Some(Runtime);
      }
      started := true;
      host.pauseDepth := host.pauseDepth + 1;
      ghost var poll, gate;
      error, poll, gate := ApplySteps();
      if error.Some? {
        DeferVolumeMonitorResume();
      }
      host.pauseDepth := host.pauseDepth - 1;
    }

    /** Everything rollback promises about the host when it returns normally. */
    ghost predicate Restored(poll: nat, gate: nat)
      reads this, host
    {
      && host.rule == oldRule && host.selected == oldKey && host.defaultSink == oldKey
      && (oldSource.Some? ==> host.source == oldSource)
      && host.ConfirmedBy(poll, gate, oldKey, oldProfile, oldChannels, volume)
      && (host.TimeAt(poll) >= PROFILE_RETRY_SECONDS ==> host.profile == oldProfile)
    }

    /** The commands of rollback, inside its pause; `released` is the outcome of taking the card off. A card that
        cannot be released with an ordinary error does not stop it. */
    method RollbackSteps() returns (error: Option<Error>, released: Option<Error>, ghost poll: nat, ghost gate: nat)
      requires Valid() && host.clock >= 0.0
      modifies host`tick, host`clock, host`issued, host`profile, host`defaultSink, host`selected, host`forcedRate,
               host`rule, host`source
      ensures Valid() && host.GoesOn()
      ensures error.None? ==>
                && host.RestartedAt(ReleasedAt(old(host.tick)), oldRule)
                && poll >= ReleasedAt(old(host.tick)) + 2 && Restored(poll, gate)
                && host.TimeAt(poll) >= old(host.clock)
      ensures error.None? && released.None? && host.TimeAt(poll) < PROFILE_RETRY_SECONDS ==> host.profile == "off"
      ensures released.None? ==> host.TakenOffAt(old(host.tick), oldRate) && host.forcedRate == oldRate
      ensures oldSource.None? ==> host.source == old(host.source)
      ensures released == Releasing(old(host.tick)) && host.tick >= ReleasedAt(old(host.tick))
      ensures released.Some? && released != Some(Runtime) ==> error == released
      ensures (released.Some? ==> released == Some(Runtime))
              && host.FineSince(ReleasedAt(old(host.tick)), oldChannels, volume)
              ==> error.None?
      ensures released.None? && host.FineSince(old(host.tick) + 2, oldChannels, volume) && InstantAt(old(host.tick), 4)
              ==> error.None? && host.TimeAt(poll) == old(host.clock)
    {
      hide Host.Replayed, Confirms, AllFine;
      poll, gate := 0, 0;
      released := ReleaseAndPin(oldRate);
      error := released;
      if released.Some? && released != Some(Runtime) { return; }
      error, poll, gate := Reprobe(oldRule, oldKey, oldProfile, oldChannels, oldSource);
      assert released.None? ==> host.issued[old(host.tick)] == Command.SetProfile("off");
      assert released.None? ==> host.issued[old(host.tick) + 1] == ForceRate(oldRate);
    }

    /** What taking the card off and pinning the rate meet at event n, and the event after them. */
    ghost function Releasing(n: nat): Option<Error> {
      if host.script(n).fault.Some? then host.script(n).fault else host.script(n + 1).fault
    }

    ghost function ReleasedAt(n: nat): nat { if host.script(n).fault.Some? then n + 1 else n + 2 }

    ghost predicate InstantAt(n: nat, count: nat) {
      forall k: nat | n <= k < n + count :: host.script(k).elapsed == 0.0
    }

    method Rollback() returns (error: Option<Error>, released: Option<Error>, ghost poll: nat, ghost gate: nat)
      requires Valid() && host.clock >= 0.0
      modifies host`tick, host`clock, host`issued, host`profile, host`defaultSink, host`selected, host`forcedRate,
               host`rule, host`source, host`pauseDepth, this`recoveryPause
      ensures Valid() && host.GoesOn()
      ensures !started ==> error.None? && unchanged(host) && unchanged(this)
      // On every path, also a raising one, exactly the deferred pause is given back.
      ensures started ==>
                !recoveryPause && host.pauseDepth == old(host.pauseDepth) - if old(recoveryPause) then 1 else 0
      ensures started && error.None? ==>
                && host.RestartedAt(ReleasedAt(old(host.tick)), oldRule)
                && poll >= ReleasedAt(old(host.tick)) + 2 && Restored(poll, gate)
      // Called three seconds or more after boot it brings the profile back too.
      ensures started && error.None? && old(host.clock) >= PROFILE_RETRY_SECONDS ==> host.profile == oldProfile
      ensures started && error.None? && released.None? && host.TimeAt(poll) < PROFILE_RETRY_SECONDS ==>
                host.profile == "off"
      // Unless taking the card off or pinning raised, the captured rate is pinned again.
      ensures started && released.None? ==> host.TakenOffAt(old(host.tick), oldRate) && host.forcedRate == oldRate
      ensures oldSource.None? ==> host.source == old(host.source)
      ensures started ==> released == Releasing(old(host.tick)) && host.tick >= ReleasedAt(old(host.tick))
      // It raises only on its own commands and listings, and a card that is not released does not stop it.
      ensures started && (released.Some? ==> released == Some(Runtime))
              && host.FineSince(ReleasedAt(old(host.tick)), oldChannels, volume)
              ==> error.None?
      ensures started && released.None? && host.FineSince(old(host.tick) + 2, oldChannels, volume)
              && InstantAt(old(host.tick), 4)
              ==> error.None? && host.TimeAt(poll) == old(host.clock)
    {
      hide Confirms, AllFine, Host.Replayed;
      if !started {
        return None, None, 0, 0;
      }
      host.pauseDepth := host.pauseDepth + 1;
      error, released, poll, gate := RollbackSteps();
      host.pauseDepth := host.pauseDepth - 1;
      var pause := recoveryPause;
      recoveryPause := false;
      if pause {
        host.pauseDepth := host.pauseDepth - 1;
      }
    }

    function Own(): Pass { Pass(tierChannels, targetRate, tierRule) }

    function PassOf(later: seq<Pass>, n: nat): Pass
      requires n <= |later|
    {
      if n == 0 then Own() else later[n - 1]
    }

    /** Where each of the first n passes began, and where the last of them ended. */
    ghost predicate Marks(marks: seq<nat>, n: nat, from: nat)
      reads this, host
    {
      && |marks| == n + 1 && marks[0] == from && marks[n] == host.tick
      && forall i, j | 0 <= i < j <= n :: marks[i] <= marks[j]
    }

    /** In pass n a command raised, or a listing did not show its gate. */
    ghost predicate Met(later: seq<Pass>, marks: seq<nat>, n: nat)
      requires n <= |later| && n + 1 < |marks| && marks[n + 1] <= |host.issued|
      reads this, host
    {
      !AllFine(host.script, host.issued, marks[n], marks[n + 1], PassOf(later, n).channels, volume)
    }

    twostate predicate HardwareAsIn()
      reads host
    {
      && host.rule == old(host.rule) && host.source == old(host.source)
      && host.selected == old(host.selected) && host.profile == old(host.profile)
    }

    /** apply_channel_tier once a change is stored. */
    method LaterPass(p: Pass) returns (error: Option<Error>)
      requires Valid() && host.clock >= 0.0 && captured && recoveryOwner == null
      modifies host, this`started, this`recoveryPause
      ensures Valid() && host.GoesOn() && (old(started) ==> started)
      ensures error.None? ==> InPlace(p, old(host.tick)) && recoveryPause == old(recoveryPause)
      ensures error.Some? ==> recoveryPause && !host.FineSince(old(host.tick), p.channels, volume)
      ensures error.None? ==> if p == Own() then SourceRenamed() else host.source == old(host.source)
      ensures host.pauseDepth == old(host.pauseDepth) + if recoveryPause && !old(recoveryPause) then 1 else 0
      ensures oldSource.None? ==> host.source == old(host.source)
    {
      hide Confirms, AllFine, Host.Replayed;
      if p == Own() {
        error := Apply();
        return;
      }
      var change := new ChannelTierChange(host, newKey, newKey, p.channels, p.rate, p.rule, renameSource);
      change.volume, change.oldSource, change.captured, change.recoveryOwner := volume, None, true, this;
      error := change.Apply();
    }

    /** The first pass and all later ones; the passes go on whatever became of those before. */
    method ApplyAll(later: seq<Pass>) returns (failed: bool, ghost marks: seq<nat>)
      requires Valid() && host.clock >= 0.0 && captured && recoveryOwner == null && !recoveryPause
      modifies host, this`started, this`recoveryPause
      ensures Valid() && host.GoesOn() && started && recoveryPause == failed
      ensures Marks(marks, |later| + 1, old(host.tick))
      ensures failed ==> exists n: nat :: n <= |later| && Met(later, marks, n)
      ensures !failed ==> InPlace(PassOf(later, |later|), marks[|later|]) && SourceRenamed()
      ensures host.pauseDepth == old(host.pauseDepth) + if failed then 1 else 0
      ensures oldSource.None? ==> host.source == old(host.source)
      ensures later == [] && host.script(old(host.tick)).fault.Some? ==>
                && failed && host.tick == old(host.tick) + 1
                && host.clock == old(host.clock) + host.script(old(host.tick)).elapsed
    {
      hide Gated, Confirms, AllFine, Host.Replayed;
      var error := Apply();
      marks := [old(host.tick), host.tick];
      assert error.Some? ==> Met(later, marks, 0);
      failed, marks := ApplyLater(later, error.Some?, marks, old(host.tick));
    }

    /** The first n + 1 passes: each at its marks, and one of them met a fault or the last is in place. */
    ghost predicate Passed(later: seq<Pass>, marks: seq<nat>, n: nat, from: nat, failed: bool)
      reads this, host
    {
      && n <= |later| && Marks(marks, n + 1, from) && marks[n + 1] <= |host.issued|
      && if failed then exists k: nat :: k <= n && Met(later, marks, k)
         else InPlace(PassOf(later, n), marks[n]) && SourceRenamed()
    }

    method ApplyLater(later: seq<Pass>, before: bool, ghost first: seq<nat>, ghost from: nat)
      returns (failed: bool, ghost marks: seq<nat>)
      requires Valid() && host.clock >= 0.0 && captured && started && recoveryOwner == null && recoveryPause == before
      requires Passed(later, first, 0, from, before)
      modifies host, this`started, this`recoveryPause
      ensures Valid() && host.GoesOn() && started && recoveryPause == failed
      ensures Passed(later, marks, |later|, from, failed)
      ensures host.pauseDepth == old(host.pauseDepth) + if failed && !before then 1 else 0
      ensures oldSource.None? ==> host.source == old(host.source)
      ensures (before ==> failed) && (later == [] ==> failed == before && unchanged(host))
    {
      hide Gated, Confirms, AllFine, Host.Replayed, ChannelTierChange.InPlace;
      failed, marks := before, first;
      for n := 0 to |later|
        invariant Valid() && started && host.GoesOn() && recoveryPause == failed
        invariant Passed(later, marks, n, from, failed)
        invariant host.pauseDepth == old(host.pauseDepth) + if failed && !before then 1 else 0
        invariant oldSource.None? ==> host.source == old(host.source)
        invariant (before ==> failed) && (n == 0 ==> failed == before && unchanged(host))
      {
        ghost var issued, earlier := host.issued, marks;
        var failure := LaterPass(later[n]);
        marks := marks + [host.tick];
        StillMet(later, issued, earlier, marks, n);
        assert failure.Some? ==> Met(later, marks, n + 1);
        failed := failed || failure.Some?;
      }
    }

    lemma StillMet(later: seq<Pass>, issued: seq<Command>, before: seq<nat>, marks: seq<nat>, n: nat)
      requires issued <= host.issued && n < |later| && |before| == n + 2 && marks == before + [|host.issued|]
      requires forall k | 0 <= k < n + 2 :: before[k] <= |issued|
      ensures forall k: nat | k <= n ::
                !AllFine(host.script, issued, before[k], before[k + 1], PassOf(later, k).channels, volume) ==>
                  Met(later, marks, k)
    {
      forall k: nat | k <= n && AllFine(host.script, host.issued, marks[k], marks[k + 1], PassOf(later, k).channels,
                                        volume)
        ensures AllFine(host.script, issued, before[k], before[k + 1], PassOf(later, k).channels, volume)
      {
        FineEarlier(host.script, issued, before[k], before[k + 1], host.issued, marks[k], marks[k + 1],
                    PassOf(later, k).channels, volume);
      }
    }

    /** From event n on: capture succeeds, the first command after it fails, and from there on nothing fails,
        takes time, or shows the sink other than it was. */
    ghost predicate FailsOnce(n: nat, activeProfile: Option<string>)
      reads host
    {
      && ReadyToCapture(n, activeProfile) && (forall k: nat | n <= k < n + 3 :: host.script(k).elapsed == 0.0)
      && host.script(n + 3).fault == Some(Runtime) && host.script(n + 3).elapsed == 0.0
      && host.SmoothFrom(n + 4) && host.script(n + 4).sink.Some?
      && Gated(host.script(n + 4).sink.value, host.script(n).sink.value.spec.value.channels,
               host.script(n).sink.value.volume.value)
    }

    lemma SmoothIsFine(n: nat)
      requires Valid() && ReleasedAt(n) <= host.tick && StaysAsCaptured(n)
      ensures Releasing(n).None? && InstantAt(n, 4) && host.FineSince(n + 2, oldChannels, volume)
    {
    }

    /** The listings from event n on show the sink as it was captured, and nothing raises or takes time. */
    ghost predicate StaysAsCaptured(n: nat)
      reads this
    {
      host.SmoothFrom(n) && host.script(n).sink.Some? && Gated(host.script(n).sink.value, oldChannels, volume)
    }

    /** Since event `from` the captured rule was written, the session manager restarted, and then the sink confirmed
        with the captured channel count and volume. */
    ghost predicate BroughtBack(from: nat)
      reads this, host
    {
      && host.RestartedAt(ReleasedAt(from), oldRule)
      && host.Confirmed(ReleasedAt(from) + 2, oldKey, oldChannels, volume)
    }

    /** The passes of a captured change, and the rollback when one of them failed. */
    method ApplyOrRollBack(later: seq<Pass>)
      returns (failed: bool, rollback: Option<Error>, released: Option<Error>, ghost marks: seq<nat>)
      requires Valid() && host.clock >= 0.0 && captured && recoveryOwner == null && !recoveryPause
      modifies host, this`started, this`recoveryPause
      ensures Valid() && host.GoesOn() && host.pauseDepth == old(host.pauseDepth) && !recoveryPause && started
      ensures |marks| == |later| + 2 && marks[0] == old(host.tick) && Increasing(marks, host.tick)
      // A pass fails only on a command that raised in it, or a listing in it that did not show its gate.
      ensures failed ==> exists n: nat :: n <= |later| && Met(later, marks, n)
      ensures !failed ==> InPlace(PassOf(later, |later|), marks[|later|]) && SourceRenamed() && rollback.None?
      ensures failed && rollback.None? ==>
                && host.rule == oldRule && host.selected == oldKey && host.defaultSink == oldKey
                && BroughtBack(marks[|later| + 1])
                && host.source == if oldSource.Some? then oldSource else old(host.source)
      ensures failed ==> released == Releasing(marks[|later| + 1])
      ensures failed && released.None? ==>
                host.TakenOffAt(marks[|later| + 1], oldRate) && host.forcedRate == oldRate
      ensures failed && (released.Some? ==> released == Some(Runtime))
              && host.FineSince(ReleasedAt(marks[|later| + 1]), oldChannels, volume)
              ==> rollback.None?
      ensures failed && rollback.None? && old(host.clock) >= PROFILE_RETRY_SECONDS ==> host.profile == oldProfile
      ensures later == [] && host.script(old(host.tick)).fault.Some? && StaysAsCaptured(old(host.tick) + 1)
              && old(host.clock) + host.script(old(host.tick)).elapsed < PROFILE_RETRY_SECONDS
              ==> failed && rollback.None? && host.profile == "off"
    {
      hide Gated, Confirms, AllFine, Host.Replayed, Host.SmoothFrom;
      rollback, released := None, None;
      failed, marks := ApplyAll(later);
      if failed {
        ghost var issued, from := host.issued, host.tick;
        ghost var poll, gate;
        rollback, released, poll, gate := Rollback();
        StillMetAfter(later, issued, marks);
        assert rollback.None? ==> host.ConfirmedBy(poll, gate, oldKey, oldProfile, oldChannels, volume);
        if StaysAsCaptured(from) { SmoothIsFine(from); }
      }
    }

    /** A stored change is applied, later passes of the same transition follow it, and it is rolled back when
        one of them failed. Every command may fail at any point. A later pass with the same tier and rate
        applies the stored change again; any other gets a fresh change that borrows the stored baseline.
        The marks say where each pass began and where the rollback did. */
    method Change(later: seq<Pass>, activeProfile: Option<string>)
      returns (capture: Option<Error>, failed: bool, rollback: Option<Error>, released: Option<Error>,
               ghost marks: seq<nat>)
      requires Valid() && host.clock >= 0.0 && !started && !recoveryPause && recoveryOwner == null
      modifies this, host
      ensures Valid() && host.GoesOn()
      ensures host.pauseDepth == old(host.pauseDepth) && !recoveryPause
      ensures capture.None? <==> old(ReadyToCapture(host.tick, activeProfile))
      ensures capture.Some? ==> !failed && HardwareAsIn()
      ensures capture.None? ==> CapturedFrom(old(host.tick)) && activeProfile == Some(oldProfile)
      ensures capture.None? ==> |marks| == |later| + 2 && marks[0] == old(host.tick) + 3 && Increasing(marks, host.tick)
      // A pass fails only on a command that raised in it, or a listing in it that did not show its gate.
      ensures failed ==> capture.None? && started && exists n: nat :: n <= |later| && Met(later, marks, n)
      ensures capture.None? && !failed ==> InPlace(PassOf(later, |later|), marks[|later|])
      ensures capture.None? && !failed && old(host.source).Some? && old(host.source).value != "" ==>
                host.source == Some(renameSource(old(host.source).value))
      // Confirmed in the rollback itself, with the channel count and the volume of the captured listing.
      ensures failed && rollback.None? ==>
                && host.rule == old(host.rule) && host.source == old(host.source) && host.selected == old(host.selected)
                && host.defaultSink == oldKey && BroughtBack(marks[|later| + 1])
      // The rollback raises only on its own commands and listings; a card that is not released does not stop it.
      ensures failed ==> released == Releasing(marks[|later| + 1])
      ensures failed && released.None? ==>
                host.TakenOffAt(marks[|later| + 1], oldRate) && host.forcedRate == oldRate
      ensures failed && (released.Some? ==> released == Some(Runtime))
              && host.FineSince(ReleasedAt(marks[|later| + 1]), oldChannels, volume)
              ==> rollback.None?
      // Entered three seconds or more after boot, it brings the profile back too; earlier it need not.
      ensures failed && rollback.None? && old(host.clock) >= PROFILE_RETRY_SECONDS ==>
                Some(host.profile) == activeProfile
      ensures later == [] && old(FailsOnce(host.tick, activeProfile)) && old(host.clock) < PROFILE_RETRY_SECONDS ==>
                capture.None? && failed && rollback.None? && host.profile == "off"
    {
      hide Gated, Confirms, AllFine, Host.Replayed, Host.SmoothFrom, Increasing;
      failed, rollback, released, marks := false, None, None, [];
      capture := Capture(activeProfile);
      if capture.Some? { return; }
      failed, rollback, released, marks := ApplyOrRollBack(later);
    }

    ghost predicate Increasing(marks: seq<nat>, end: nat) {
      forall i, j | 0 <= i <= j < |marks| :: marks[i] <= marks[j] <= end
    }

    lemma StillMetAfter(later: seq<Pass>, issued: seq<Command>, marks: seq<nat>)
      requires issued <= host.issued && |marks| == |later| + 2 && Increasing(marks, |issued|)
      ensures forall k: nat | k <= |later| ::
                !AllFine(host.script, issued, marks[k], marks[k + 1], PassOf(later, k).channels, volume) ==>
                  Met(later, marks, k)
    {
      forall k: nat | k <= |later| && AllFine(host.script, host.issued, marks[k], marks[k + 1],
                                              PassOf(later, k).channels, volume)
        ensures AllFine(host.script, issued, marks[k], marks[k + 1], PassOf(later, k).channels, volume)
      {
        FineEarlier(host.script, issued, marks[k], marks[k + 1], host.issued, marks[k], marks[k + 1],
                    PassOf(later, k).channels, volume);
      }
    }
  }

  /** The events of such a run: the sink is always listed the same, muted, and event 3 alone raises. */
  function OneFailure(n: nat): Event {
    Event(if n == 3 then Some(Runtime) else None, false, 0.0, Some(Sink(Some(Spec(2, 48000)), true, Some(50))), "")
  }

  /** At every moment before three seconds after boot there is a transition on which rollback returns normally
      and leaves the card on profile "off", so the moment of entry is exactly what decides. */
  method ProfileLostAfterBoot(clock: real) returns (change: ChannelTierChange, rollback: Option<Error>)
    requires 0.0 <= clock < PROFILE_RETRY_SECONDS
    ensures rollback.None? && change.started && change.oldProfile == "output:analog" && change.host.profile == "off"
  {
    var host := new Host((n: nat) => OneFailure(n), clock, None, None, "card.analog", "output:analog");
    change := new ChannelTierChange(host, "card.analog", "card.pro", 8, 96000, "rule", (s: string) => s);
    assert change.FailsOnce(0, Some("output:analog"));
    var capture, failed, released;
    ghost var marks;
    capture, failed, rollback, released, marks := change.Change([], Some("output:analog"));
  }

  lemma FewerPolls(deadline: real, before: real, after: real)
    requires before < deadline && after >= before + POLL_SECONDS
    ensures after < deadline ==> ((deadline - after) / POLL_SECONDS).Floor < ((deadline - before) / POLL_SECONDS).Floor
  {
    assert (deadline - after) / POLL_SECONDS == (deadline - after) * 2.0;
    assert (deadline - before) / POLL_SECONDS == (deadline - before) * 2.0;
  }
}
