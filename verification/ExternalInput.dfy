/**
 External-input routing: one owner of three mutually exclusive ingress paths.

 The live graph, the decoder and the mapped ingress are reached only through
 awaited commands. A script says how each of them ends, so every method is
 proved for every mix of failures and cancellations; a command that raises may
 have had its effect nevertheless. The world is what the commands made of it.
 Disconnects are total: a link that exists is removed.
 */
module ExternalInput {
  import opened Wrappers

  /** A node, channel or selection name, without surrounding blanks. */
  datatype Name = Name(text: string)
  const NO_NAME := Name("")

  datatype Channels = Channels(left: Name, right: Name)

  datatype Side = FrontLeft | FrontRight
  datatype Port = Capture | Output
  datatype Link = Link(source: Name, port: Port, channel: Name, side: Side)
  datatype Leg = Leg(source: Name, channel: Name, side: Side)

  /** How an awaited command ends. `made`: its effect happened although it raised. */
  datatype Reply = Done | AlreadyLinked | Error(made: bool) | Cancelled(made: bool)

  predicate Good(r: Reply) { r.Done? || r.AlreadyLinked? }
  predicate Took(r: Reply) { Good(r) || r.made }

  /** One capture channel linked straight to an engine input. */
  datatype Edge = Edge(source: Name, channel: Name, engineInput: nat)

  /** Program positions are numbered in their fixed order, front left and front right first. */
  const POSITIONS: nat := 8

  datatype CustomMapping = CustomMapping(suffixes: map<nat, Name>, sources: map<nat, Name>)

  datatype Input = Input(key: Name, source: Name, leftChannel: Name, rightChannel: Name, rightSource: Name,
                         mapping: Option<CustomMapping>)

  datatype InputState = Available | Unconfirmed | Unavailable

  datatype Overview = Overview(external: bool, state: InputState, input: Input)

  const LEGACY_CHANNELS := Channels(Name("FL"), Name("FR"))

  function OrElse(name: Name, fallback: Name): Name { if name != NO_NAME then name else fallback }

  /** The right channel's own capture node, when it is not the left one's. */
  function RightSource(i: Input): (r: Option<Name>)
    ensures r != Some(i.source) && r != Some(NO_NAME)
    ensures i.rightSource !in {NO_NAME, i.source} ==> r == Some(i.rightSource)
  {
    if i.rightSource != NO_NAME && i.rightSource != i.source then Some(i.rightSource) else None
  }

  /** Never a mono duplication: one node always feeds two distinct channels. */
  function PairChannels(i: Input): (r: Channels)
    ensures r.left != NO_NAME && r.right != NO_NAME && (RightSource(i).None? ==> r.left != r.right)
    ensures i.leftChannel != NO_NAME && i.rightChannel != NO_NAME &&
            (i.leftChannel != i.rightChannel || RightSource(i).Some?)
            ==> r == Channels(i.leftChannel, i.rightChannel)
    ensures i.leftChannel == NO_NAME ==> r.left == Name("FL")
    ensures i.rightChannel == NO_NAME ==> r.right == Name("FR")
    ensures i.leftChannel == i.rightChannel && RightSource(i).None? ==> r == Channels(Name("FL"), Name("FR"))
    ensures RightSource(i).Some? ==>
              (i.leftChannel != NO_NAME ==> r.left == i.leftChannel)
              && (i.rightChannel != NO_NAME ==> r.right == i.rightChannel)
  {
    var left, right := OrElse(i.leftChannel, LEGACY_CHANNELS.left), OrElse(i.rightChannel, LEGACY_CHANNELS.right);
    if left == right && RightSource(i).None? then LEGACY_CHANNELS else Channels(left, right)
  }

  function EdgeAt(source: Name, m: CustomMapping, position: nat): Edge
    requires position in m.suffixes
  {
    Edge(if position in m.sources then OrElse(m.sources[position], source) else source, m.suffixes[position], position)
  }

  function EdgesBelow(source: Name, m: CustomMapping, n: nat): seq<Edge> {
    if n == 0 then []
    else if n - 1 in m.suffixes then EdgesBelow(source, m, n - 1) + [EdgeAt(source, m, n - 1)]
    else EdgesBelow(source, m, n - 1)
  }

  function MappedEdges(source: Name, m: CustomMapping): seq<Edge> { EdgesBelow(source, m, POSITIONS) }

  /** Exactly one edge for each mapped position below n, in the fixed order. */
  lemma {:induction false} EdgesFollowPositions(source: Name, m: CustomMapping, n: nat)
    ensures forall e | e in EdgesBelow(source, m, n) ::
              e.engineInput < n && e.engineInput in m.suffixes && e == EdgeAt(source, m, e.engineInput)
    ensures forall p: nat | p < n && p in m.suffixes :: EdgeAt(source, m, p) in EdgesBelow(source, m, n)
    ensures forall i, j | 0 <= i < j < |EdgesBelow(source, m, n)| ::
              EdgesBelow(source, m, n)[i].engineInput < EdgesBelow(source, m, n)[j].engineInput
  {
    if n > 0 {
      EdgesFollowPositions(source, m, n - 1);
      var before, all := EdgesBelow(source, m, n - 1), EdgesBelow(source, m, n);
      assert all == before || (all == before + [EdgeAt(source, m, n - 1)] &&
                               EdgeAt(source, m, n - 1).engineInput == n - 1);
      hide EdgesBelow, EdgeAt;
      forall i, j | 0 <= i < j < |all| ensures all[i].engineInput < all[j].engineInput {
        assert all[i] in before;
      }
    }
  }

  /** The edges of a mapping on their own: one for each mapped position, in their fixed order, from the node and
      the channel mapped to it. A position without a node of its own takes the selected one. */
  ghost predicate EdgesOf(edges: seq<Edge>, source: Name, m: CustomMapping) {
    && (forall e | e in edges ::
          && e.engineInput < 8 && e.engineInput in m.suffixes && e.channel == m.suffixes[e.engineInput]
          && e.source == (if e.engineInput in m.sources && m.sources[e.engineInput] != Name("")
                          then m.sources[e.engineInput] else source))
    && (forall p: nat | p < 8 && p in m.suffixes :: exists e :: e in edges && e.engineInput == p)
    && (forall i, j | 0 <= i < j < |edges| :: edges[i].engineInput < edges[j].engineInput)
  }

  ghost predicate MapsSomething(m: CustomMapping) { exists p: nat :: p < 8 && p in m.suffixes }

  lemma MappedEdgesAreEdgesOf(source: Name, m: CustomMapping)
    ensures EdgesOf(MappedEdges(source, m), source, m) && (MappedEdges(source, m) != [] <==> MapsSomething(m))
  {
    EdgesFollowPositions(source, m, POSITIONS);
    hide EdgesBelow;
    var edges := MappedEdges(source, m);
    forall p: nat | p < 8 && p in m.suffixes ensures exists e :: e in edges && e.engineInput == p {
      assert EdgeAt(source, m, p) in edges;
    }
    if edges != [] { assert edges[0].engineInput in m.suffixes; }
  }

  /** With two nodes and no decoder, Front L/R alone are mapped, each from its own node. */
  lemma SplitFrontEdges(source: Name, channels: Channels, right: Name)
    requires source != NO_NAME && right != NO_NAME
    ensures MappedEdges(source, CustomMapping(map[0 := channels.left, 1 := channels.right],
                                              map[0 := source, 1 := right]))
            == [Edge(source, channels.left, 0), Edge(right, channels.right, 1)]
  {
    var m := CustomMapping(map[0 := channels.left, 1 := channels.right], map[0 := source, 1 := right]);
    assert EdgesBelow(source, m, 1) == [EdgeAt(source, m, 0)];
    assert EdgesBelow(source, m, 2) == EdgesBelow(source, m, 1) + [EdgeAt(source, m, 1)];
    assert EdgesBelow(source, m, 4) == EdgesBelow(source, m, 3) == EdgesBelow(source, m, 2);
    assert EdgesBelow(source, m, 6) == EdgesBelow(source, m, 5) == EdgesBelow(source, m, 4);
    assert EdgesBelow(source, m, 8) == EdgesBelow(source, m, 7) == EdgesBelow(source, m, 6);
  }

  // ---------- the live graph ----------

  function LinkOf(leg: Leg, port: Port): Link { Link(leg.source, port, leg.channel, leg.side) }

  function Legs(source: Name, channels: Channels, right: Option<Name>): (Leg, Leg) {
    (Leg(source, channels.left, FrontLeft),
     Leg(if right.Some? then right.value else source, channels.right, FrontRight))
  }

  /** The left channel to front left and the right one, of its own node if there is one, to front right. */
  function TwoLinks(source: Name, channels: Channels, right: Option<Name>, l: Port, r: Port): set<Link> {
    {Link(source, l, channels.left, FrontLeft),
     Link(if right.Some? then right.value else source, r, channels.right, FrontRight)}
  }

  function Present(links: set<Link>, leg: Leg): bool {
    LinkOf(leg, Capture) in links || LinkOf(leg, Output) in links
  }

  function Doubled(links: set<Link>, leg: Leg): bool {
    LinkOf(leg, Capture) in links && LinkOf(leg, Output) in links
  }

  /** Nothing but these two legs, each through at most one of its two ports. */
  ghost predicate OnlyLegs(links: set<Link>, legs: (Leg, Leg)) {
    && (forall k | k in links :: k in { LinkOf(legs.0, Capture), LinkOf(legs.0, Output),
                                        LinkOf(legs.1, Capture), LinkOf(legs.1, Output) })
    && !Doubled(links, legs.0) && !Doubled(links, legs.1)
  }

  /** pw-link -d on one candidate port after the other, until one succeeds. */
  function Unlinked(links: set<Link>, leg: Leg): set<Link> {
    if LinkOf(leg, Capture) in links then links - {LinkOf(leg, Capture)} else links - {LinkOf(leg, Output)}
  }

  /** Disconnecting both legs leaves nothing of them, whichever ports carried them. */
  lemma BothLegsGone(links: set<Link>, legs: (Leg, Leg))
    requires OnlyLegs(links, legs) && legs.0.side != legs.1.side
    ensures Unlinked(Unlinked(links, legs.0), legs.1) == {}
  {
    var once := Unlinked(links, legs.0);
    assert LinkOf(legs.0, Capture) !in once && LinkOf(legs.0, Output) !in once;
    assert forall k | k in once :: k in links;
  }

  /** A leg that got both ports survives its disconnect. */
  lemma DoubledLegStays(links: set<Link>, legs: (Leg, Leg))
    requires legs.0.side != legs.1.side && (Doubled(links, legs.0) || Doubled(links, legs.1))
    ensures Unlinked(Unlinked(links, legs.0), legs.1) != {}
  {
    var rest := Unlinked(Unlinked(links, legs.0), legs.1);
    assert Doubled(links, legs.0) ==> LinkOf(legs.0, Output) in rest;
    assert Doubled(links, legs.1) ==> LinkOf(legs.1, Output) in rest;
  }

  // ---------- commands and what they do ----------

  /** What the decoder is asked to run on. */
  datatype Feed = Feed(source: Name, channels: Channels, right: Option<Name>)

  datatype Command =
    | LinkPort(leg: Leg, port: Port)
    | UnlinkLeg(leg: Leg)
    | ReadGraph
    | StartDecoder(feed: Feed)
    | StopDecoder
    | StartMapper(edges: seq<Edge>)
    | StopMapper
    | SyncCarrier
    | DeferResync
    | Vanish(gone: set<Link>)  // not a command of this code: links go away from outside

  datatype World = World(links: set<Link>, decoder: Option<Feed>, mapper: Option<seq<Edge>>)

  function After(w: World, c: Command, r: Reply): World {
    match c
    case LinkPort(leg, port) => if Took(r) then w.(links := w.links + {LinkOf(leg, port)}) else w
    case UnlinkLeg(leg) => w.(links := Unlinked(w.links, leg))
    case StartDecoder(feed) => if Took(r) then w.(decoder := Some(feed)) else w
    case StopDecoder => if Took(r) then w.(decoder := None) else w
    case StartMapper(edges) => if Took(r) then w.(mapper := Some(edges)) else w
    case StopMapper => if Took(r) then w.(mapper := None) else w
    case Vanish(gone) => w.(links := w.links - gone)
    case _ => w
  }

  /** The world the commands so far lead to, from one with nothing linked or running. */
  function Replay(script: nat -> Reply, commands: seq<Command>): World {
    if commands == [] then World({}, None, None)
    else
      var n: nat := |commands| - 1;
      After(Replay(script, commands[..n]), commands[n], script(n))
  }

  lemma OneMoreCommand(script: nat -> Reply, commands: seq<Command>, c: Command)
    ensures Replay(script, commands + [c]) == After(Replay(script, commands), c, script(|commands|))
  {
    assert (commands + [c])[..|commands|] == commands;
  }

  /** Command k linked the second port of a leg whose first one had been linked although it raised. */
  ghost predicate DoubledAt(script: nat -> Reply, commands: seq<Command>, k: nat) {
    && 0 < k < |commands| && commands[k].LinkPort? && commands[k].port == Output && Took(script(k))
    && commands[k - 1] == LinkPort(commands[k].leg, Capture) && Took(script(k - 1))
  }

  ghost predicate NoneDoubled(script: nat -> Reply, commands: seq<Command>, from: nat, to: nat) {
    forall k | from <= k < to :: !DoubledAt(script, commands, k)
  }

  lemma DoublingStays(script: nat -> Reply, commands: seq<Command>, later: seq<Command>, from: nat)
    requires commands <= later
    ensures NoneDoubled(script, later, from, |commands|) <==> NoneDoubled(script, commands, from, |commands|)
  {
    assert forall k | 0 <= k < |commands| :: later[k] == commands[k];
    assert forall k: nat | k < |commands| :: DoubledAt(script, later, k) <==> DoubledAt(script, commands, k);
  }

  /** These commands all ended well. */
  ghost predicate WentWell(script: nat -> Reply, from: nat, to: nat) {
    forall k: nat | from <= k < to :: Good(script(k))
  }

  /** Every stop among these commands ended well. */
  ghost predicate StopsWentWell(script: nat -> Reply, commands: seq<Command>, from: nat) {
    forall k | from <= k < |commands| && (commands[k].StopDecoder? || commands[k].StopMapper?) :: Good(script(k))
  }

  // ---------- what a sync is for ----------

  datatype Goal =
    | Untouched
    | Off
    | Refuse
    | Mapped(source: Name, edges: seq<Edge>, channels: Channels)
    | Digital(source: Name, key: Name, channels: Channels, right: Option<Name>)
    | Loopback(source: Name, key: Name, channels: Channels, right: Option<Name>)

  class ExternalInputRouting {
    // Which optional services were injected.
    const hasDecoder: bool
    const hasDecoderStop: bool
    const hasMapper: bool
    const hasMapperStop: bool
    const hasCarrier: bool
    const hasDefer: bool

    const script: nat -> Reply

    var tick: nat
    var loopbackSourceName: Option<Name>
    var loopbackSelectionKey: Option<Name>
    var digitalSourceName: Option<Name>
    var digitalSelectionKey: Option<Name>
    var mappedSourceName: Option<Name>
    var mappedIngressLinks: seq<Edge>
    var activeChannels: Channels
    var pendingChannels: Option<Channels>
    var activeRightSource: Option<Name>
    var pendingRightSource: Option<Name>
    var rememberedInput: Option<Input>

    // The outside world, and the commands that made it so.
    var links: set<Link>
    var decoder: Option<Feed>
    var mapper: Option<seq<Edge>>
    ghost var commands: seq<Command>
    // Nothing took links away since the loopback was stored.
    ghost var intact: bool

    /** The world is what the commands made of it. */
    ghost predicate Replayed()
      reads this`links, this`decoder, this`mapper, this`commands
    {
      World(links, decoder, mapper) == Replay(script, commands)
    }

    ghost predicate Tracks()
      reads this`tick, this`links, this`decoder, this`mapper, this`commands
    {
      |commands| == tick && Replayed()
    }

    ghost function StoredLegs(): (Leg, Leg)
      requires loopbackSourceName.Some?
      reads this`loopbackSourceName, this`activeChannels, this`activeRightSource
    {
      Legs(loopbackSourceName.value, activeChannels, activeRightSource)
    }

    /** This owner's links are the stored loopback's own, each leg through one port, or none. */
    ghost predicate Clean()
      reads this`loopbackSourceName, this`activeChannels, this`activeRightSource, this`links, this`intact
    {
      && (loopbackSourceName.None? ==> links == {})
      && (loopbackSourceName.Some? ==>
            && OnlyLegs(links, StoredLegs())
            && (intact ==> Present(links, StoredLegs().0) && Present(links, StoredLegs().1)))
    }

    /** At most one path is set. */
    ghost predicate Valid()
      reads this
    {
      && Tracks() && pendingChannels.None? && pendingRightSource.None?
      && (loopbackSourceName.Some? ==> digitalSourceName.None? && mappedSourceName.None?)
      && (digitalSourceName.Some? ==> mappedSourceName.None?)
    }

    /** The decoder or the mapped ingress runs although its path is not set. */
    ghost predicate Orphaned()
      reads this`decoder, this`mapper, this`digitalSourceName, this`mappedSourceName
    {
      (decoder.Some? && digitalSourceName.None?) || (mapper.Some? && mappedSourceName.None?)
    }

    ghost predicate AllOff()
      reads this`loopbackSourceName, this`digitalSourceName, this`mappedSourceName, this`mappedIngressLinks
    {
      loopbackSourceName.None? && digitalSourceName.None? && mappedSourceName.None? && mappedIngressLinks == []
    }

    /** Only one ingress can carry sound, unless a path runs on that is not set. */
    lemma OneIngressAtMost()
      requires Valid() && Clean() && !Orphaned()
      ensures !(links != {} && decoder.Some?) && !(links != {} && mapper.Some?) && !(decoder.Some? && mapper.Some?)
      ensures AllOff() ==> links == {} && decoder.None? && mapper.None?
    {
    }

    /** While the outside left them alone, this owner's links are the stored loopback's two, or none. */
    lemma LinksAreTheStoredLegs()
      requires Valid() && Clean() && intact
      ensures loopbackSourceName.None? ==> links == {}
      ensures loopbackSourceName.Some? ==>
                exists l: Port, r: Port ::
                  links == TwoLinks(loopbackSourceName.value, activeChannels, activeRightSource, l, r)
    {
      if loopbackSourceName.Some? {
        var l := if LinkOf(StoredLegs().0, Capture) in links then Capture else Output;
        var r := if LinkOf(StoredLegs().1, Capture) in links then Capture else Output;
        assert links == {LinkOf(StoredLegs().0, l), LinkOf(StoredLegs().1, r)};
        assert links == TwoLinks(loopbackSourceName.value, activeChannels, activeRightSource, l, r);
      }
    }

    function GoalOf(o: Overview, surround: bool, measuring: bool): Goal {
      if measuring then Untouched
      else if !o.external then Off
      else if o.state == Unconfirmed then Untouched
      else if o.state == Unavailable || o.input.source == NO_NAME then Off
      else
        var i := o.input;
        var right, channels := RightSource(i), PairChannels(i);
        var mapping :=
          if surround && i.mapping.None? && right.Some? && !hasDecoder then
            Some(CustomMapping(map[0 := channels.left, 1 := channels.right], map[0 := i.source, 1 := right.value]))
          else i.mapping;
        if surround && mapping.Some? then
          var edges := MappedEdges(i.source, mapping.value);
          if !hasMapper || edges == [] then Refuse else Mapped(i.source, edges, channels)
        else if mapping.None? && (surround || hasDecoder) then
          if !hasDecoder then Refuse else Digital(i.source, i.key, channels, right)
        else Loopback(i.source, i.key, channels, right)
    }

    /** The channel of a node is linked to this side, through one of its two ports. */
    ghost predicate Feeds(node: Name, channel: Name, side: Side)
      reads this`links
    {
      Link(node, Capture, channel, side) in links || Link(node, Output, channel, side) in links
    }

    /** What a present input asks for: a mapping in surround is linked to the engine, anything unmapped goes through
        the decoder, and the rest is a loopback of the two channels. Without a decoder, two split nodes in surround
        are linked like a mapping of Front L/R. */
    ghost predicate Carries(i: Input, surround: bool)
      reads this
    {
      var channels, right := PairChannels(i), RightSource(i);
      && (surround && (i.mapping.Some? || !hasDecoder) ==>
            && loopbackSourceName.None? && digitalSourceName.None? && mappedSourceName == Some(i.source)
            && mapper == Some(mappedIngressLinks) && mappedIngressLinks != []
            && (i.mapping.Some? ==> EdgesOf(mappedIngressLinks, i.source, i.mapping.value))
            && (i.mapping.None? ==>
                  right.Some?
                  && mappedIngressLinks == [Edge(i.source, channels.left, 0), Edge(right.value, channels.right, 1)]))
      && (i.mapping.None? && hasDecoder ==>
            && loopbackSourceName.None? && mappedSourceName.None? && digitalSourceName == Some(i.source)
            && digitalSelectionKey == (if i.key == NO_NAME then None else Some(i.key)) && activeRightSource == right
            && decoder == Some(Feed(i.source, channels, right)))
      && (!surround && (i.mapping.Some? || !hasDecoder) ==>
            && digitalSourceName.None? && mappedSourceName.None? && loopbackSourceName == Some(i.source)
            && Feeds(i.source, channels.left, FrontLeft)
            && Feeds(if right.Some? then right.value else i.source, channels.right, FrontRight)
            && loopbackSelectionKey == Some(if i.key == NO_NAME then i.source else i.key) && activeRightSource == right)
      && activeChannels == channels
    }

    /** Everything but a surround mapping of nothing, or one that no ingress can take. */
    ghost predicate CanCarry(i: Input, surround: bool) {
      surround && (i.mapping.Some? || !hasDecoder) ==>
        hasMapper && (if i.mapping.Some? then MapsSomething(i.mapping.value) else RightSource(i).Some?)
    }

    lemma GoalMeans(i: Input, surround: bool)
      requires i.source != NO_NAME
      ensures var goal := GoalOf(Overview(true, Available, i), surround, false);
              && (Reached(goal) ==> Carries(i, surround)) && (goal.Refuse? <==> !CanCarry(i, surround))
    {
      var right, channels := RightSource(i), PairChannels(i);
      if i.mapping.Some? { MappedEdgesAreEdgesOf(i.source, i.mapping.value); }
      if right.Some? { SplitFrontEdges(i.source, channels, right.value); }
      hide MappedEdges, EdgesOf, PairChannels, RightSource, MapsSomething;
    }

    constructor (hasDecoder: bool, hasDecoderStop: bool, hasMapper: bool, hasMapperStop: bool, hasCarrier: bool,
                 hasDefer: bool, script: nat -> Reply)
      ensures Valid() && Clean() && AllOff() && !Orphaned() && intact && commands == []
      ensures this.hasDecoder == hasDecoder && this.hasMapper == hasMapper && this.hasCarrier == hasCarrier
      ensures this.script == script
    {
      this.hasDecoder, this.hasDecoderStop := hasDecoder, hasDecoderStop;
      this.hasMapper, this.hasMapperStop := hasMapper, hasMapperStop;
      this.hasCarrier, this.hasDefer, this.script := hasCarrier, hasDefer, script;
      loopbackSourceName, loopbackSelectionKey, digitalSourceName, digitalSelectionKey := None, None, None, None;
      mappedSourceName, mappedIngressLinks := None, [];
      activeChannels, pendingChannels, activeRightSource, pendingRightSource := LEGACY_CHANNELS, None, None, None;
      rememberedInput := None;
      tick, links, decoder, mapper := 0, {}, None, None;
      commands, intact := [], true;
    }

    // ---------- what a stretch of commands did ----------

    twostate predicate GoesOn()
      reads this
    {
      old(commands) <= commands && old(tick) <= tick == |commands|
    }

    /** All its commands ended well. */
    twostate predicate WellSince()
      reads this
    {
      WentWell(script, old(tick), tick)
    }

    /** It linked no port. */
    twostate predicate LinksNothing()
      reads this
    {
      GoesOn() && forall k | old(tick) <= k < tick :: !commands[k].LinkPort?
    }

    /** No connect of it left a leg linked through both ports. */
    twostate predicate DoublesNothing()
      reads this
    {
      GoesOn() && NoneDoubled(script, commands, old(tick), tick)
    }

    /** Whether the links are the stored loopback's own or none, in terms of what its connects did. */
    twostate predicate CleanUnlessDoubled()
      reads this
    {
      GoesOn() && (old(Clean()) ==> (Clean() <==> DoublesNothing()))
    }

    /** With both stops at hand, and every stop ending well, nothing runs on unset. */
    twostate predicate OrphansNothing()
      reads this
    {
      && GoesOn()
      && (hasDecoderStop && hasMapperStop && StopsWentWell(script, commands, old(tick)) && !old(Orphaned()) ==>
            !Orphaned())
    }

    method Step(ghost c: Command) returns (r: Reply)
      requires Tracks()
      modifies this`tick, this`commands
      ensures r == script(old(tick)) && tick == old(tick) + 1 && commands == old(commands) + [c] && |commands| == tick
      ensures Replay(script, commands) == After(World(links, decoder, mapper), c, r)
    {
      OneMoreCommand(script, commands, c);
      r := script(tick);
      tick, commands := tick + 1, commands + [c];
    }

    /** A command that changes nothing in this world. */
    method Ask(ghost c: Command) returns (r: Reply)
      requires Tracks() && (c.ReadGraph? || c.SyncCarrier? || c.DeferResync?)
      modifies this`tick, this`commands
      ensures Tracks() && r == script(old(tick)) && tick == old(tick) + 1 && commands == old(commands) + [c]
    {
      hide Replay;
      r := Step(c);
    }

    /** A device or session manager takes links away between two operations. */
    method LinksVanish(gone: set<Link>)
      requires Valid()
      modifies this`tick, this`commands, this`links, this`intact
      ensures Valid() && links == old(links) - gone && !intact && (old(Clean()) ==> Clean())
      ensures tick == old(tick) + 1 && commands == old(commands) + [Vanish(gone)]
    {
      hide Replay;
      var r := Step(Vanish(gone));
      links, intact := links - gone, false;
    }

    // ---------- pw-link ----------

    method DisconnectPorts(leg: Leg)
      requires Tracks()
      modifies this`tick, this`commands, this`links
      ensures Tracks() && links == Unlinked(old(links), leg)
      ensures tick == old(tick) + 1 && commands == old(commands) + [UnlinkLeg(leg)]
    {
      hide Replay;
      var r := Step(UnlinkLeg(leg));
      if LinkOf(leg, Capture) in links {
        links := links - {LinkOf(leg, Capture)};
      } else {
        links := links - {LinkOf(leg, Output)};
      }
    }

    method UnlinkLegs(legs: (Leg, Leg))
      requires Tracks()
      modifies this`tick, this`commands, this`links
      ensures Tracks() && links == Unlinked(Unlinked(old(links), legs.0), legs.1)
      ensures tick == old(tick) + 2 && commands == old(commands) + [UnlinkLeg(legs.0), UnlinkLeg(legs.1)]
    {
      hide Unlinked, ExternalInputRouting.Replayed;
      DisconnectPorts(legs.0);
      DisconnectPorts(legs.1);
    }

    /** One pw-link: what it did, whatever it says about it. */
    method LinkPort(leg: Leg, port: Port) returns (reply: Reply)
      requires Tracks()
      modifies this`tick, this`commands, this`links
      ensures Tracks() && reply == script(old(tick))
      ensures links == if Took(reply) then old(links) + {LinkOf(leg, port)} else old(links)
      ensures tick == old(tick) + 1 && commands == old(commands) + [Command.LinkPort(leg, port)]
    {
      hide Replay;
      reply := Step(Command.LinkPort(leg, port));
      if Took(reply) {
        links := links + {LinkOf(leg, port)};
      }
    }

    /** Capture port first, output port when that raises an error. Each may have linked although it raised. */
    method ConnectPorts(leg: Leg) returns (ok: bool)
      requires Tracks()
      modifies this`tick, this`commands, this`links
      ensures Tracks() && GoesOn() && old(tick) < tick <= old(tick) + 2
      ensures commands[old(tick)] == Command.LinkPort(leg, Capture)
      ensures tick == old(tick) + 2 ==>
                script(old(tick)).Error? && commands[old(tick) + 1] == Command.LinkPort(leg, Output)
      ensures links == old(links)
                       + (if Took(script(old(tick))) then {LinkOf(leg, Capture)} else {})
                       + (if tick == old(tick) + 2 && Took(script(old(tick) + 1)) then {LinkOf(leg, Output)} else {})
      ensures ok <==> Good(script(old(tick))) || (script(old(tick)).Error? && Good(script(old(tick) + 1)))
      ensures ok ==> Present(links, leg)
      ensures script(old(tick)).Error? ==> tick == old(tick) + 2
      ensures DoublesNothing() <==> !(tick == old(tick) + 2 && Took(script(old(tick))) && Took(script(old(tick) + 1)))
    {
      hide ExternalInputRouting.Replayed;
      var reply := LinkPort(leg, Capture);
      if reply.Error? {
        reply := LinkPort(leg, Output);
      }
      ok := Good(reply);
      assert !DoubledAt(script, commands, old(tick));
      assert tick == old(tick) + 2 && Took(script(old(tick))) && Took(script(old(tick) + 1)) ==>
               DoubledAt(script, commands, old(tick) + 1);
    }

    /** The live-graph check; reading the graph may itself raise. */
    method LoopbackLinksPresent(legs: (Leg, Leg)) returns (present: Option<bool>)
      requires Tracks()
      modifies this`tick, this`commands
      ensures Tracks() && tick == old(tick) + 1 && commands == old(commands) + [ReadGraph]
      ensures present ==
                if Good(script(old(tick))) then Some(Present(links, legs.0) && Present(links, legs.1)) else None
    {
      hide ExternalInputRouting.Replayed;
      var reply := Ask(ReadGraph);
      if !Good(reply) { return None; }
      return Some(Present(links, legs.0) && Present(links, legs.1));
    }

    // ---------- the decoder and the mapped ingress ----------

    method StopDigital() returns (ok: bool)
      requires Tracks()
      modifies this`tick, this`commands, this`decoder
      ensures Tracks() && tick == old(tick) + 1 && commands == old(commands) + [StopDecoder]
      ensures ok == Good(script(old(tick))) && decoder == if Took(script(old(tick))) then None else old(decoder)
    {
      hide Replay;
      var reply := Step(StopDecoder);
      ok := Good(reply);
      if Took(reply) { decoder := None; }
    }

    method StopMapped() returns (ok: bool)
      requires Tracks()
      modifies this`tick, this`commands, this`mapper
      ensures Tracks() && tick == old(tick) + 1 && commands == old(commands) + [StopMapper]
      ensures ok == Good(script(old(tick))) && mapper == if Took(script(old(tick))) then None else old(mapper)
    {
      hide Replay;
      var reply := Step(StopMapper);
      ok := Good(reply);
      if Took(reply) { mapper := None; }
    }

    method RunDecoder(feed: Feed) returns (ok: bool)
      requires Tracks()
      modifies this`tick, this`commands, this`decoder
      ensures Tracks() && tick == old(tick) + 1 && commands == old(commands) + [StartDecoder(feed)]
      ensures ok == Good(script(old(tick))) && decoder == if Took(script(old(tick))) then Some(feed) else old(decoder)
    {
      hide Replay;
      var reply := Step(StartDecoder(feed));
      ok := Good(reply);
      if Took(reply) { decoder := Some(feed); }
    }

    method RunMapper(edges: seq<Edge>) returns (ok: bool)
      requires Tracks()
      modifies this`tick, this`commands, this`mapper
      ensures Tracks() && tick == old(tick) + 1 && commands == old(commands) + [StartMapper(edges)]
      ensures ok == Good(script(old(tick))) && mapper == if Took(script(old(tick))) then Some(edges) else old(mapper)
    {
      hide Replay;
      var reply := Step(StartMapper(edges));
      ok := Good(reply);
      if Took(reply) { mapper := Some(edges); }
    }

    // ---------- the owner's operations ----------

    method ReleaseDigital() returns (ok: bool)
      requires Valid()
      modifies this`tick, this`commands, this`decoder, this`digitalSourceName, this`digitalSelectionKey
      ensures Valid() && LinksNothing() && OrphansNothing() && (WellSince() ==> ok)
      ensures ok ==> digitalSourceName.None?
      ensures old(digitalSourceName).None? ==> ok && commands == old(commands) && decoder == old(decoder)
      ensures !ok ==> digitalSourceName.Some? && digitalSourceName == old(digitalSourceName)
      ensures commands == old(commands)
                          + (if old(digitalSourceName).Some? && hasDecoderStop then [StopDecoder] else [])
      ensures ok <==> StopsWentWell(script, commands, old(tick))
    {
      hide ExternalInputRouting.Replayed;
      if digitalSourceName.Some? && hasDecoderStop {
        var stopped := StopDigital();
        if !stopped { return false; }
      }
      digitalSourceName, digitalSelectionKey := None, None;
      return true;
    }

    method ReleaseMapped() returns (ok: bool)
      requires Valid()
      modifies this`tick, this`commands, this`mapper, this`mappedSourceName, this`mappedIngressLinks
      ensures Valid() && LinksNothing() && OrphansNothing() && (WellSince() ==> ok)
      ensures ok ==> mappedSourceName.None? && mappedIngressLinks == []
      ensures old(mappedSourceName).None? ==> ok && commands == old(commands) && mapper == old(mapper)
      ensures !ok ==> mappedSourceName.Some? && mappedSourceName == old(mappedSourceName)
      ensures commands == old(commands)
                          + (if old(mappedSourceName).Some? && hasMapperStop then [StopMapper] else [])
      ensures ok <==> StopsWentWell(script, commands, old(tick))
    {
      hide ExternalInputRouting.Replayed;
      if mappedSourceName.Some? && hasMapperStop {
        var stopped := StopMapped();
        if !stopped { return false; }
      }
      mappedSourceName, mappedIngressLinks := None, [];
      return true;
    }

    method ReleaseLoopback()
      requires Valid() && digitalSourceName.None? && mappedSourceName.None? && mappedIngressLinks == []
      modifies this`tick, this`commands, this`links, this`loopbackSourceName, this`loopbackSelectionKey,
               this`activeChannels, this`activeRightSource, this`pendingChannels, this`pendingRightSource
      ensures Valid() && LinksNothing() && (old(Clean()) ==> Clean()) && AllOff() && activeRightSource.None?
      ensures old(loopbackSourceName).None? ==> commands == old(commands)
      ensures forall k | old(tick) <= k < tick :: commands[k].UnlinkLeg?
    {
      hide OnlyLegs, Unlinked, Present, Legs, ExternalInputRouting.Replayed;
      var source, channels, right := loopbackSourceName, activeChannels, activeRightSource;
      loopbackSourceName, loopbackSelectionKey := None, None;
      activeChannels, activeRightSource, pendingChannels, pendingRightSource := LEGACY_CHANNELS, None, None, None;
      if source.Some? {
        var legs := Legs(source.value, channels, right);
        if old(Clean()) { LegsGone(links, source.value, channels, right); }
        UnlinkLegs(legs);
      }
    }

    lemma LegsGone(linked: set<Link>, source: Name, channels: Channels, right: Option<Name>)
      requires OnlyLegs(linked, Legs(source, channels, right))
      ensures Unlinked(Unlinked(linked, Legs(source, channels, right).0), Legs(source, channels, right).1) == {}
    {
      BothLegsGone(linked, Legs(source, channels, right));
    }

    /** Take down whatever is up. A stop that raises leaves its path set, and nothing behind it touched; without
        one it succeeds. */
    method Disable() returns (ok: bool)
      requires Valid()
      modifies this`tick, this`commands, this`loopbackSourceName, this`loopbackSelectionKey, this`digitalSourceName,
               this`digitalSelectionKey, this`mappedSourceName, this`mappedIngressLinks, this`activeChannels,
               this`activeRightSource, this`pendingChannels, this`pendingRightSource, this`links, this`decoder,
               this`mapper
      ensures Valid() && LinksNothing() && OrphansNothing() && (old(Clean()) ==> Clean()) && (WellSince() ==> ok)
      ensures old(digitalSourceName).None? && old(mappedSourceName).None? ==>
                && ok && decoder == old(decoder) && mapper == old(mapper)
                && (old(loopbackSourceName).None? ==> commands == old(commands))
      ensures ok ==> AllOff() && activeRightSource.None?
      ensures !ok ==> StillOrOff() && (digitalSourceName.Some? || mappedSourceName.Some?)
      ensures ok <==> StopsWentWell(script, commands, old(tick))
    {
      hide OnlyLegs, Present, Legs, ExternalInputRouting.Replayed;
      ok := ReleaseDigital();
      if !ok { return; }
      ok := ReleaseMapped();
      if !ok { return; }
      ReleaseLoopback();
    }

    /** The next connect links its first port but reports an error, and then links the second one too. */
    ghost predicate FirstPortTimesOut()
      reads this`tick
    {
      script(tick) == Error(true) && script(tick + 1).Done?
    }

    /** The last command read the graph. */
    ghost predicate ReadBack()
      reads this`commands
    {
      commands != [] && commands[|commands| - 1] == ReadGraph && Good(script(|commands| - 1))
    }

    /** Connect both legs and read them back; on any failure take back what had been linked. Starting from no
        links, it ends with exactly the two legs or with none, unless a leg got both of its ports. */
    method LinkLegs(source: Name) returns (ok: bool)
      requires Tracks() && pendingChannels.Some?
      modifies this`tick, this`commands, this`links, this`pendingChannels, this`pendingRightSource
      ensures Tracks() && GoesOn() && pendingChannels.None? && pendingRightSource.None? && (WellSince() ==> ok)
      ensures forall k | old(tick) <= k < tick ::
                commands[k].LinkPort? || commands[k].UnlinkLeg? || commands[k].ReadGraph?
      ensures var legs := Legs(source, old(pendingChannels).value, old(pendingRightSource));
              && (ok ==> Present(links, legs.0) && Present(links, legs.1) && ReadBack())
              && (old(links) == {} ==> (DoublesNothing() <==> if ok then OnlyLegs(links, legs) else links == {}))
      ensures old(FirstPortTimesOut()) ==> !DoublesNothing()
    {
      hide Unlinked, ExternalInputRouting.Replayed, NoneDoubled;
      var legs := Legs(source, pendingChannels.value, pendingRightSource);
      ok := ConnectLegs(legs);
      ghost var connected := commands;
      if ok {
        var present := LoopbackLinksPresent(legs);
        ok := present == Some(true);
      }
      if !ok {
        if old(links) == {} && OnlyLegs(links, legs) { BothLegsGone(links, legs); }
        if Doubled(links, legs.0) || Doubled(links, legs.1) { DoubledLegStays(links, legs); }
        UnlinkLegs(legs);
      }
      NoMoreConnects(connected, old(tick));
      pendingChannels, pendingRightSource := None, None;
    }

    method ConnectLegs(legs: (Leg, Leg)) returns (ok: bool)
      requires Tracks() && legs.0.side != legs.1.side
      modifies this`tick, this`commands, this`links
      ensures Tracks() && GoesOn() && (WellSince() ==> ok)
      ensures forall k | old(tick) <= k < tick :: commands[k].LinkPort?
      ensures ok ==> Present(links, legs.0) && Present(links, legs.1)
      ensures old(links) == {} ==>
                && (DoublesNothing() <==> OnlyLegs(links, legs))
                && (DoublesNothing() <==> !Doubled(links, legs.0) && !Doubled(links, legs.1))
      ensures old(FirstPortTimesOut()) ==> !DoublesNothing()
    {
      hide ExternalInputRouting.Replayed;
      ok := ConnectPorts(legs.0);
      ghost var one := commands;
      if ok {
        ok := ConnectPorts(legs.1);
      }
      assert forall k | 0 <= k < |one| :: commands[k] == one[k];
      DoublingStays(script, one, commands, old(tick));
      assert NoneDoubled(script, commands, old(tick), tick)
             <==> NoneDoubled(script, one, old(tick), |one|) && NoneDoubled(script, commands, |one|, tick);
    }

    lemma NoMoreConnects(before: seq<Command>, from: nat)
      requires before <= commands && |commands| == tick && forall k | |before| <= k < tick :: !commands[k].LinkPort?
      ensures NoneDoubled(script, commands, from, tick) <==> NoneDoubled(script, before, from, |before|)
    {
      DoublingStays(script, before, commands, from);
    }

    /** Nothing is set yet, nothing but the loopback's connects is awaited, and the first of them times out. */
    ghost predicate OneNodeTimesOut(i: Input)
      reads this
    {
      AllOff() && !hasCarrier && RightSource(i).None? && FirstPortTimesOut()
    }

    ghost predicate LoopbackIs(source: Name, key: Name, channels: Channels, right: Option<Name>)
      reads this`loopbackSourceName, this`loopbackSelectionKey, this`activeChannels, this`activeRightSource, this`links
    {
      && loopbackSourceName == Some(source) && loopbackSelectionKey == Some(key)
      && activeChannels == channels && activeRightSource == right
      && Present(links, Legs(source, channels, right).0) && Present(links, Legs(source, channels, right).1)
    }

    /** The linked legs become the stored loopback. */
    method StoreLoopback(source: Name, channels: Channels, right: Option<Name>, key: Name)
      requires Valid() && digitalSourceName.None? && mappedSourceName.None?
      requires Present(links, Legs(source, channels, right).0) && Present(links, Legs(source, channels, right).1)
      modifies this`loopbackSourceName, this`loopbackSelectionKey, this`activeChannels, this`activeRightSource,
               this`intact
      ensures Valid() && intact && LoopbackIs(source, key, channels, right)
      ensures Clean() <==> OnlyLegs(links, Legs(source, channels, right))
    {
      hide OnlyLegs, Present, Legs, ExternalInputRouting.Replayed;
      loopbackSourceName, loopbackSelectionKey := Some(source), Some(key);
      activeChannels, activeRightSource, intact := channels, right, true;
    }

    method BuildLoopback(source: Name, channels: Channels, right: Option<Name>, key: Name) returns (ok: bool)
      requires Valid() && digitalSourceName.None? && mappedSourceName.None?
      modifies this`tick, this`commands, this`loopbackSourceName, this`loopbackSelectionKey, this`digitalSourceName,
               this`digitalSelectionKey, this`mappedSourceName, this`mappedIngressLinks, this`activeChannels,
               this`activeRightSource, this`pendingChannels, this`pendingRightSource, this`links, this`decoder,
               this`mapper, this`intact
      ensures Valid() && (old(intact) ==> intact) && CleanUnlessDoubled() && (WellSince() ==> ok)
      ensures old(loopbackSourceName.None? && FirstPortTimesOut()) ==> !DoublesNothing()
      ensures ok ==> LoopbackIs(source, key, channels, right) && ReadBack()
      ensures !ok ==> loopbackSourceName.None?
      ensures digitalSourceName.None? && mappedSourceName.None? && decoder == old(decoder) && mapper == old(mapper)
    {
      hide OnlyLegs, Present, Legs, ExternalInputRouting.Replayed, NoneDoubled;
      ok := Disable();
      assert ok;
      ghost var off := commands;
      pendingChannels, pendingRightSource := Some(channels), right;
      ok := LinkLegs(source);
      NoConnectsBefore(old(tick), |off|);
      if ok {
        StoreLoopback(source, channels, right, key);
      }
    }

    lemma NoConnectsIn(before: seq<Command>, from: nat)
      requires before <= commands && from <= |before| && |commands| == tick
      requires forall k | from <= k < |before| :: !before[k].LinkPort?
      ensures NoneDoubled(script, commands, from, tick) <==> NoneDoubled(script, commands, |before|, tick)
    {
      assert forall k | 0 <= k < |before| :: commands[k] == before[k];
      NoConnectsBefore(from, |before|);
    }

    lemma StopsEarlier(before: seq<Command>, from: nat)
      requires before <= commands && from <= |before|
      ensures StopsWentWell(script, commands, from) ==>
                StopsWentWell(script, before, from) && StopsWentWell(script, commands, |before|)
    {
      assert forall k | 0 <= k < |before| :: commands[k] == before[k];
    }

    lemma NoConnectsBefore(from: nat, mid: nat)
      requires from <= mid <= tick == |commands| && forall k | from <= k < mid :: !commands[k].LinkPort?
      ensures NoneDoubled(script, commands, from, tick) <==> NoneDoubled(script, commands, mid, tick)
      ensures mid == tick ==> NoneDoubled(script, commands, from, tick)
    {
      assert forall k | from <= k < mid :: !DoubledAt(script, commands, k);
    }

    /** Keep a loopback that already is what is asked for and is really linked; otherwise build it anew. It fails
        only when a command does, or when nothing can be linked. */
    method EnsureLoopback(source: Name, leftChannel: Name, rightChannel: Name, key: Name, rightSource: Option<Name>)
      returns (ok: bool)
      requires Valid() && digitalSourceName.None? && mappedSourceName.None?
      modifies this`tick, this`commands, this`loopbackSourceName, this`loopbackSelectionKey, this`digitalSourceName,
               this`digitalSelectionKey, this`mappedSourceName, this`mappedIngressLinks, this`activeChannels,
               this`activeRightSource, this`pendingChannels, this`pendingRightSource, this`links, this`decoder,
               this`mapper, this`intact
      ensures Valid() && (old(intact) ==> intact) && CleanUnlessDoubled()
      ensures var channels := Channels(OrElse(leftChannel, LEGACY_CHANNELS.left),
                                       OrElse(rightChannel, LEGACY_CHANNELS.right));
              var right := if rightSource == Some(NO_NAME) || rightSource == Some(source) then None else rightSource;
              && (ok ==> LoopbackIs(source, OrElse(key, source), channels, right) && ReadBack())
              // What already is there is only read back, without a break in its sound.
              && (source != NO_NAME && (channels.left != channels.right || right.Some?) && Good(script(old(tick)))
                  && old(LoopbackIs(source, OrElse(key, source), channels, right)) ==>
                    ok && commands == old(commands) + [ReadGraph] && links == old(links))
              && (WellSince() ==> (ok <==> source != NO_NAME && (channels.left != channels.right || right.Some?)))
              && (source != NO_NAME && channels.left != channels.right
                  && old(loopbackSourceName.None? && FirstPortTimesOut())
                  ==> !DoublesNothing())
      ensures !ok ==> loopbackSourceName.None? || loopbackSourceName == old(loopbackSourceName)
      ensures digitalSourceName.None? && mappedSourceName.None? && OrphansNothing()
    {
      hide OnlyLegs, Present, Legs, OrElse, ExternalInputRouting.Replayed;
      if source == NO_NAME { return false; }
      var channels := Channels(OrElse(leftChannel, LEGACY_CHANNELS.left), OrElse(rightChannel, LEGACY_CHANNELS.right));
      var right := if rightSource == Some(NO_NAME) || rightSource == Some(source) then None else rightSource;
      if channels.left == channels.right && right.None? { return false; }
      var identity := OrElse(key, source);
      ghost var before := commands;
      if loopbackSelectionKey == Some(identity) && loopbackSourceName == Some(source)
         && activeChannels == channels && activeRightSource == right {
        var present := LoopbackLinksPresent(Legs(source, channels, right));
        if present.None? { return false; }
        if present.value { return true; }
      }
      ghost var from := |commands|;
      ok := BuildLoopback(source, channels, right, identity);
      NoConnectsBefore(old(tick), from);
    }

    /** The paths and their settings are exactly what the goal asks for. */
    ghost predicate Reached(g: Goal)
      reads this
    {
      match g
      case Mapped(source, edges, channels) =>
        && mappedSourceName == Some(source) && mappedIngressLinks == edges && activeChannels == channels
        && loopbackSourceName.None? && digitalSourceName.None? && mapper == Some(edges)
      case Digital(source, key, channels, right) =>
        && digitalSourceName == Some(source) && digitalSelectionKey == (if key == NO_NAME then None else Some(key))
        && activeChannels == channels && activeRightSource == right
        && loopbackSourceName.None? && mappedSourceName.None? && decoder == Some(Feed(source, channels, right))
      case Loopback(source, key, channels, right) =>
        && digitalSourceName.None? && mappedSourceName.None?
        && LoopbackIs(source, OrElse(key, source), channels, right) && ReadBack()
      case Off => AllOff()
      case Untouched => true
      case Refuse => false
    }

    /** Start or retarget the decoder; whatever a failed start left running is stopped again. */
    method StartDigital(i: Input, channels: Channels, right: Option<Name>) returns (ok: bool)
      requires Valid() && loopbackSourceName.None? && mappedSourceName.None?
      modifies this`tick, this`commands, this`decoder, this`digitalSourceName, this`digitalSelectionKey,
               this`activeChannels, this`activeRightSource, this`rememberedInput
      ensures Valid() && LinksNothing() && OrphansNothing() && (old(Clean()) ==> Clean()) && (WellSince() ==> ok)
      ensures ok ==> Reached(Digital(i.source, i.key, channels, right)) && rememberedInput == Some(i)
      ensures !ok ==> (digitalSourceName == old(digitalSourceName) || digitalSourceName.None?)
      ensures !ok ==> rememberedInput == old(rememberedInput)
      // After a failed start no decoder is set, unless its stop raised as well: then what was set stays so.
      ensures !ok ==> if StopsWentWell(script, commands, old(tick)) then digitalSourceName.None?
                      else digitalSourceName == old(digitalSourceName)
    {
      hide ExternalInputRouting.Clean, ExternalInputRouting.Reached, ExternalInputRouting.Replayed;
      CleanWithoutLoopback();
      ok := RunDecoder(Feed(i.source, channels, right));
      if !ok {
        AbandonDigital();
        return false;
      }
      StoreDigital(i, channels, right);
      CleanWithoutLoopback();
    }

    method StoreDigital(i: Input, channels: Channels, right: Option<Name>)
      requires Valid() && loopbackSourceName.None? && mappedSourceName.None? &&
               decoder == Some(Feed(i.source, channels, right))
      modifies this`digitalSourceName, this`digitalSelectionKey, this`activeChannels, this`activeRightSource,
               this`rememberedInput
      ensures Valid() && digitalSourceName.Some?
      ensures Reached(Digital(i.source, i.key, channels, right)) && rememberedInput == Some(i)
    {
      hide ExternalInputRouting.Replayed;
      digitalSourceName, digitalSelectionKey := Some(i.source), if i.key == NO_NAME then None else Some(i.key);
      activeChannels, activeRightSource, rememberedInput := channels, right, Some(i);
    }

    lemma CleanWithoutLoopback()
      ensures loopbackSourceName.None? ==> (Clean() <==> links == {})
    {
    }

    /** The clean-up after a failed start. When its stop raises too, the decoder may run unseen. */
    method AbandonDigital()
      requires Tracks()
      modifies this`tick, this`commands, this`decoder, this`digitalSourceName, this`digitalSelectionKey
      ensures Tracks() && LinksNothing()
      ensures digitalSourceName == old(digitalSourceName) || digitalSourceName.None?
      ensures hasDecoderStop && StopsWentWell(script, commands, old(tick)) ==> decoder.None?
      ensures if hasDecoderStop && !Good(script(old(tick))) then digitalSourceName == old(digitalSourceName)
              else digitalSourceName.None?
      ensures commands == old(commands) + (if hasDecoderStop then [StopDecoder] else [])
    {
      hide ExternalInputRouting.Replayed;
      if hasDecoderStop {
        var stopped := StopDigital();
        if !stopped { return; }
      }
      digitalSourceName, digitalSelectionKey := None, None;
    }

    method SyncDigital(i: Input, channels: Channels, right: Option<Name>) returns (ok: bool)
      requires Valid() && hasDecoder
      modifies this
      ensures Valid() && (old(intact) ==> intact) && CleanUnlessDoubled() && OrphansNothing() && (WellSince() ==> ok)
      ensures ok ==> Reached(Digital(i.source, i.key, channels, right)) && rememberedInput == Some(i)
      ensures !ok ==> StillOrOff() && rememberedInput == old(rememberedInput)
      ensures !ok && StopsWentWell(script, commands, old(tick)) ==> NoPath()
    {
      hide OnlyLegs, Present, Legs, ExternalInputRouting.Reached, ExternalInputRouting.Replayed;
      if loopbackSourceName.Some? || mappedSourceName.Some? {
        ok := Disable();
        if !ok {
          NoConnectsBefore(old(tick), tick);
          return false;
        }
      }
      ghost var off := commands;
      ok := StartDigital(i, channels, right);
      assert forall k | 0 <= k < |off| :: commands[k] == off[k];
      NoConnectsBefore(old(tick), tick);
    }

    /** The same for the mapped ingress, whose edges go straight to the engine. */
    method StartMapped(i: Input, edges: seq<Edge>, channels: Channels) returns (ok: bool)
      requires Valid() && loopbackSourceName.None? && digitalSourceName.None?
      modifies this`tick, this`commands, this`mapper, this`mappedSourceName, this`mappedIngressLinks,
               this`activeChannels, this`rememberedInput
      ensures Valid() && LinksNothing() && OrphansNothing() && (old(Clean()) ==> Clean()) && (WellSince() ==> ok)
      ensures ok ==> Reached(Mapped(i.source, edges, channels)) && rememberedInput == Some(i)
      ensures !ok ==> (mappedSourceName == old(mappedSourceName) || mappedSourceName.None?)
      ensures !ok ==> rememberedInput == old(rememberedInput)
      ensures !ok ==> if StopsWentWell(script, commands, old(tick)) then mappedSourceName.None?
                      else mappedSourceName == old(mappedSourceName)
    {
      hide OnlyLegs, Present, Legs, ExternalInputRouting.Replayed;
      ok := RunMapper(edges);
      if !ok {
        AbandonMapped();
        return false;
      }
      mappedSourceName, mappedIngressLinks := Some(i.source), edges;
      activeChannels, rememberedInput := channels, Some(i);
    }

    method AbandonMapped()
      requires Tracks()
      modifies this`tick, this`commands, this`mapper, this`mappedSourceName, this`mappedIngressLinks
      ensures Tracks() && LinksNothing()
      ensures mappedSourceName == old(mappedSourceName) || mappedSourceName.None?
      ensures hasMapperStop && StopsWentWell(script, commands, old(tick)) ==> mapper.None?
      ensures if hasMapperStop && !Good(script(old(tick))) then mappedSourceName == old(mappedSourceName)
              else mappedSourceName.None? && mappedIngressLinks == []
      ensures commands == old(commands) + (if hasMapperStop then [StopMapper] else [])
    {
      hide ExternalInputRouting.Replayed;
      if hasMapperStop {
        var stopped := StopMapped();
        if !stopped { return; }
      }
      mappedSourceName, mappedIngressLinks := None, [];
    }

    /** A mapping that cannot be linked is refused, with every path down. */
    method SyncMapped(i: Input, edges: seq<Edge>, channels: Channels) returns (ok: bool)
      requires Valid()
      modifies this
      ensures Valid() && (old(intact) ==> intact) && CleanUnlessDoubled() && OrphansNothing()
      ensures WellSince() ==> (ok <==> hasMapper && edges != []) && (!ok ==> AllOff())
      ensures ok ==>
                hasMapper && edges != [] && Reached(Mapped(i.source, edges, channels)) && rememberedInput == Some(i)
      ensures !ok ==> StillOrOff() && rememberedInput == old(rememberedInput)
      ensures !ok && StopsWentWell(script, commands, old(tick)) ==> NoPath()
    {
      hide OnlyLegs, Present, Legs, ExternalInputRouting.Reached, ExternalInputRouting.Replayed;
      if !hasMapper || edges == [] {
        ok := Disable();
        NoConnectsBefore(old(tick), tick);
        return false;
      }
      if loopbackSourceName.Some? || digitalSourceName.Some? {
        ok := Disable();
        if !ok {
          NoConnectsBefore(old(tick), tick);
          return false;
        }
      }
      ghost var off := commands;
      ok := StartMapped(i, edges, channels);
      assert forall k | 0 <= k < |off| :: commands[k] == off[k];
      NoConnectsBefore(old(tick), tick);
    }

    /** None of the three paths is set. */
    ghost predicate NoPath()
      reads this`loopbackSourceName, this`digitalSourceName, this`mappedSourceName
    {
      loopbackSourceName.None? && digitalSourceName.None? && mappedSourceName.None?
    }

    /** The carrier was synced, and returned, before any port was linked. */
    twostate predicate CarrierFirst()
      reads this
    {
      GoesOn() && exists k ::
        && old(tick) <= k < tick && commands[k].SyncCarrier? && Good(script(k))
        && forall j | old(tick) <= j < k :: !commands[j].LinkPort?
    }

    /** Before the loopback: another path goes down, and the digital carrier is kept or released. */
    method ClearForLoopback() returns (ok: bool)
      requires Valid()
      modifies this`tick, this`commands, this`loopbackSourceName, this`loopbackSelectionKey, this`digitalSourceName,
               this`digitalSelectionKey, this`mappedSourceName, this`mappedIngressLinks, this`activeChannels,
               this`activeRightSource, this`pendingChannels, this`pendingRightSource, this`links, this`decoder,
               this`mapper
      ensures Valid() && LinksNothing() && OrphansNothing() && StillOrOff() && (old(Clean()) ==> Clean()) &&
              (WellSince() ==> ok)
      ensures ok ==> digitalSourceName.None? && mappedSourceName.None?
      ensures old(AllOff()) && !hasCarrier ==> ok && AllOff() && commands == old(commands)
      ensures ok && hasCarrier ==>
                tick > old(tick) && commands[tick - 1].SyncCarrier? && Good(script(tick - 1))
    {
      hide OnlyLegs, Present, Legs, ExternalInputRouting.Replayed;
      if digitalSourceName.Some? || mappedSourceName.Some? {
        ok := Disable();
        if !ok { return false; }
      }
      if hasCarrier {
        var reply := Ask(SyncCarrier);
        if !Good(reply) { return false; }
      }
      return true;
    }

    method SyncLoopback(i: Input, channels: Channels, right: Option<Name>) returns (ok: bool)
      requires Valid() && channels.left != NO_NAME && channels.right != NO_NAME && i.source != NO_NAME
      requires right != Some(NO_NAME) && right != Some(i.source) && (right.None? ==> channels.left != channels.right)
      modifies this
      ensures Valid() && (old(intact) ==> intact) && CleanUnlessDoubled() && OrphansNothing() && (WellSince() ==> ok)
      ensures channels.left != channels.right && !hasCarrier && old(AllOff() && FirstPortTimesOut()) ==>
                !DoublesNothing()
      ensures ok ==> Reached(Loopback(i.source, i.key, channels, right)) && rememberedInput == Some(i)
      ensures !ok ==> StillOrOff() && rememberedInput == old(rememberedInput)
      ensures ok && hasCarrier ==> CarrierFirst()
    {
      hide OnlyLegs, Present, Legs, ExternalInputRouting.Replayed, NoneDoubled, StopsWentWell;
      hide ExternalInputRouting.Orphaned, ExternalInputRouting.LoopbackIs, ExternalInputRouting.Reached;
      ok := ClearForLoopback();
      NoConnectsBefore(old(tick), tick);
      if !ok { return false; }
      ghost var cleared := commands;
      ok := LinkInput(i, channels, right);
      StopsEarlier(cleared, old(tick));
      NoConnectsIn(cleared, old(tick));
    }

    /** _ensure_loopback for the selected entry, with channels that have been made distinct. */
    method LinkInput(i: Input, channels: Channels, right: Option<Name>) returns (ok: bool)
      requires Valid() && digitalSourceName.None? && mappedSourceName.None?
      requires channels.left != NO_NAME && channels.right != NO_NAME && i.source != NO_NAME
      requires right != Some(NO_NAME) && right != Some(i.source) && (right.None? ==> channels.left != channels.right)
      modifies this
      ensures Valid() && (old(intact) ==> intact) && CleanUnlessDoubled() && OrphansNothing() && (WellSince() ==> ok)
      ensures channels.left != channels.right && old(loopbackSourceName.None? && FirstPortTimesOut()) ==>
                !DoublesNothing()
      ensures ok ==> Reached(Loopback(i.source, i.key, channels, right)) && rememberedInput == Some(i)
      ensures !ok ==> rememberedInput == old(rememberedInput)
      ensures !ok ==> StillOrOff()
    {
      assert OrElse(channels.left, LEGACY_CHANNELS.left) == channels.left;
      assert OrElse(channels.right, LEGACY_CHANNELS.right) == channels.right;
      hide OnlyLegs, Present, Legs, OrElse, ExternalInputRouting.Replayed, NoneDoubled, StopsWentWell;
      hide ExternalInputRouting.Orphaned, ExternalInputRouting.LoopbackIs;
      ok := EnsureLoopback(i.source, channels.left, channels.right, i.key, right);
      if ok { rememberedInput := Some(i); }
    }

    method SyncPresent(i: Input, surround: bool) returns (ok: bool)
      requires Valid() && i.source != NO_NAME
      modifies this
      ensures Valid() && (old(intact) ==> intact) && CleanUnlessDoubled() && OrphansNothing()
      ensures var goal := GoalOf(Overview(true, Available, i), surround, false);
              && (WellSince() ==> (ok <==> !goal.Refuse?) && (goal.Refuse? ==> AllOff()))
              && (goal.Loopback? && old(OneNodeTimesOut(i)) ==> !DoublesNothing())
              && (ok ==> Reached(goal) && rememberedInput == Some(i))
      ensures !ok ==> StillOrOff() && rememberedInput == old(rememberedInput)
      ensures !ok && (surround || (i.mapping.None? && hasDecoder)) && StopsWentWell(script, commands, old(tick)) ==>
                NoPath()
      ensures ok && !surround && (i.mapping.Some? || !hasDecoder) && hasCarrier ==> CarrierFirst()
    {
      hide OnlyLegs, Present, Legs, ExternalInputRouting.Valid, MappedEdges, RightSource, PairChannels;
      hide ExternalInputRouting.LoopbackIs, NoneDoubled;
      var right, channels := RightSource(i), PairChannels(i);
      var mapping := i.mapping;
      if surround && mapping.None? && right.Some? && !hasDecoder {
        mapping := Some(CustomMapping(map[0 := channels.left, 1 := channels.right],
                                      map[0 := i.source, 1 := right.value]));
      }
      if surround && mapping.Some? {
        ok := SyncMapped(i, MappedEdges(i.source, mapping.value), channels);
      } else if mapping.None? && (surround || hasDecoder) {
        if !hasDecoder {
          ok := DisableAll();
          return false;
        }
        ok := SyncDigital(i, channels, right);
      } else {
        ok := SyncLoopback(i, channels, right);
      }
    }

    method DisableAll() returns (ok: bool)
      requires Valid()
      modifies this
      ensures Valid() && (old(intact) ==> intact) && CleanUnlessDoubled() && OrphansNothing() && (WellSince() ==> ok)
      ensures (ok ==> AllOff()) && StillOrOff() && rememberedInput == old(rememberedInput)
      ensures ok <==> StopsWentWell(script, commands, old(tick))
    {
      hide OnlyLegs, Present, Legs, ExternalInputRouting.Replayed;
      ok := Disable();
      NoConnectsBefore(old(tick), tick);
    }

    /** One routing pass over a complete overview: reach its goal, or fail with no new path set. It fails exactly
        when there is nothing it could set, or when a command of it does. */
    method Sync(o: Overview, surround: bool, measuring: bool) returns (ok: bool)
      requires Valid()
      modifies this
      ensures Valid() && (old(intact) ==> intact) && CleanUnlessDoubled() && OrphansNothing()
      ensures var goal := GoalOf(o, surround, measuring);
              && (WellSince() ==> (ok <==> !goal.Refuse?) && (goal.Refuse? ==> AllOff()))
              && (goal.Loopback? && old(OneNodeTimesOut(o.input)) ==> !DoublesNothing())
              && (ok ==> Reached(goal))
              && (goal.Untouched? ==>
                    StillOrOff() && unchanged(this`loopbackSourceName, this`digitalSourceName, this`mappedSourceName,
                                              this`links, this`decoder, this`mapper))
      // A measurement, or an input that failed one probe, leaves every path as it is.
      ensures measuring || (o.external && o.state == Unconfirmed) ==>
                && (!measuring ==> ok)
                && unchanged(this`loopbackSourceName, this`digitalSourceName, this`mappedSourceName,
                             this`links, this`decoder, this`mapper)
      // Left external input, lost the input, or none selected.
      ensures !measuring
              && (!o.external || o.state == Unavailable || (o.state == Available && o.input.source == NO_NAME))
              ==> (ok ==> AllOff()) && (WellSince() ==> ok)
      ensures !measuring && o.external && o.state == Available && o.input.source != NO_NAME ==>
                && (ok ==> Carries(o.input, surround) && rememberedInput == Some(o.input))
                && (WellSince() ==> (ok <==> CanCarry(o.input, surround)) && (!ok ==> AllOff()))
                && (ok && !surround && (o.input.mapping.Some? || !hasDecoder) && hasCarrier ==> CarrierFirst())
                && (surround || (o.input.mapping.None? && hasDecoder) ==>
                      (!ok && StopsWentWell(script, commands, old(tick)) ==> NoPath()))
      ensures !measuring && o.external && o.state == Unconfirmed ==> unchanged(this`tick, this`commands)
      ensures measuring ==> commands == old(commands) + if hasDefer then [DeferResync] else []
      ensures measuring ==> (ok <==> hasDefer ==> Good(script(old(tick))))
      ensures !ok ==> StillOrOff()
      ensures rememberedInput == old(rememberedInput) || (ok && rememberedInput == Some(o.input))
    {
      hide OnlyLegs, Present, Legs, ExternalInputRouting.LoopbackIs, ExternalInputRouting.Replayed, NoneDoubled,
        ExternalInputRouting.Carries, ExternalInputRouting.CanCarry;
      if measuring {
        ok := Defer();
        return;
      }
      if !o.external {
        ok := DisableAll();
        return;
      }
      if o.state == Unconfirmed {
        ok := Leave();
        return;
      }
      if o.state == Unavailable || o.input.source == NO_NAME {
        ok := DisableAll();
        return;
      }
      ok := SyncPresent(o.input, surround);
      GoalMeans(o.input, surround);
      assert o == Overview(true, Available, o.input);
    }

    /** While a measurement owns the graph, the pass is only noted for later. */
    method Defer() returns (ok: bool)
      requires Valid()
      modifies this`tick, this`commands
      ensures Valid() && CleanUnlessDoubled() && (WellSince() ==> ok)
      ensures commands == old(commands) + if hasDefer then [DeferResync] else []
      ensures ok <==> hasDefer ==> Good(script(old(tick)))
    {
      hide OnlyLegs, Present, Legs, ExternalInputRouting.Replayed;
      ok := true;
      if hasDefer {
        var reply := Ask(DeferResync);
        ok := Good(reply);
      }
      NoConnectsBefore(old(tick), tick);
    }

    /** One failed probe is no outage: everything stays. */
    method Leave() returns (ok: bool)
      requires Valid()
      ensures Valid() && ok && CleanUnlessDoubled() && WellSince()
    {
      NoConnectsBefore(tick, tick);
      return true;
    }

    /** Any sequence of operations, whatever fails in it: the links are the stored loopback's own or none after
        every one of them exactly when no connect gave a leg both of its ports. */
    method RunOperations(operations: seq<Operation>) returns (ghost alwaysClean: bool, ghost from: nat)
      requires Valid() && Clean()
      modifies this
      ensures Valid() && GoesOn() && (alwaysClean <==> DoublesNothing()) && (alwaysClean ==> Clean()) &&
              OrphansNothing()
      ensures old(intact) && (forall k | k in operations :: !k.LinksVanish?) ==> intact
      // The last one began at command `from`, and did what it is for.
      ensures operations != [] ==>
                old(tick) <= from <= tick && Outcome(operations[|operations| - 1], from)
    {
      hide ExternalInputRouting.Clean, ExternalInputRouting.Replayed, ExternalInputRouting.Outcome;
      alwaysClean, from := true, tick;
      NoConnectsBefore(tick, tick);
      for n := 0 to |operations|
        invariant Valid() && GoesOn() && OrphansNothing()
        invariant (alwaysClean <==> DoublesNothing()) && (alwaysClean ==> Clean())
        invariant old(intact) && (forall k | k in operations :: !k.LinksVanish?) ==> intact
        invariant n > 0 ==> old(tick) <= from <= tick && Outcome(operations[n - 1], from)
      {
        assert operations[n] in operations;
        ghost var before := commands;
        from := tick;
        RunOne(operations[n]);
        DoublingStays(script, before, commands, old(tick));
        alwaysClean := alwaysClean && Clean();
      }
    }

    /** What an operation that began at command `from` has done: links are gone, all is off, a resync is deferred, or
        a present input is carried, as far as its commands went well. */
    ghost predicate Outcome(operation: Operation, from: nat)
      reads this
    {
      match operation
      case LinksVanish(gone) => tick == |commands| == from + 1 && commands[from] == Vanish(gone) && links !! gone
      case Disable => StopsWentWell(script, commands, from) ==> AllOff()
      case Sync(o, surround, measuring) =>
        if measuring then hasDefer ==> tick == |commands| == from + 1 && commands[from] == DeferResync
        else if o.external && o.state == Unconfirmed then tick == from
        else if o.external && o.state == Available && o.input.source != NO_NAME then
          WentWell(script, from, tick) && CanCarry(o.input, surround) ==> Carries(o.input, surround)
        else WentWell(script, from, tick) ==> AllOff()
    }

    method RunOne(operation: Operation)
      requires Valid()
      modifies this
      ensures Valid() && GoesOn() && CleanUnlessDoubled() && OrphansNothing()
      ensures !operation.LinksVanish? && old(intact) ==> intact
      ensures Outcome(operation, old(tick))
    {
      hide OnlyLegs, Present, Legs, ExternalInputRouting.Replayed, ExternalInputRouting.Carries,
        ExternalInputRouting.CanCarry;
      match operation {
        case Sync(o, surround, measuring) => var ok := Sync(o, surround, measuring);
        case Disable => var ok := DisableAll();
        case LinksVanish(gone) =>
          LinksVanish(gone);
          NoConnectsBefore(old(tick), tick);
      }
    }

    /** Each path is as it was or gone; nothing new has been set. */
    twostate predicate StillOrOff()
      reads this
    {
      && (loopbackSourceName == old(loopbackSourceName) || loopbackSourceName.None?)
      && (digitalSourceName == old(digitalSourceName) || digitalSourceName.None?)
      && (mappedSourceName == old(mappedSourceName) || mappedSourceName.None?)
    }
  }

  datatype Operation =
    | Sync(overview: Overview, surround: bool, measuring: bool)
    | Disable
    | LinksVanish(gone: set<Link>)

  const LINE_IN := Input(Name("line"), Name("capture"), Name("FL"), Name("FR"), NO_NAME, None)

  /** A run on which the links end up neither the stored legs nor none: the first pw-link times out after it
      has linked, and the second port is linked too. */
  method TimedOutConnectDoubles() returns (r: ExternalInputRouting, ok: bool)
    ensures r.Valid() && !r.Clean() && r.intact
  {
    r := new ExternalInputRouting(false, false, false, false, false, false,
                                  (n: nat) => if n == 0 then Error(true) else Done);
    var o := Overview(true, Available, LINE_IN);
    assert r.GoalOf(o, false, false).Loopback? && RightSource(LINE_IN).None?;
    ok := r.Sync(o, false, false);
  }
}

