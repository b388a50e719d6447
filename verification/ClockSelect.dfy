/**
 Clock selectors of sound cards: a wanted digital clock is taken only while its
 receiver is locked, an unwanted one is given back to Internal, and everything
 else is left alone.
 */
module ClockSelect {
  import opened Wrappers

  /** One selectable source; the two flags are what its name matches. */
  datatype Item = Item(name: string, internal: bool, digital: bool)

  function FirstFrom(items: seq<Item>, p: Item -> bool, from: nat): (r: Option<nat>)
    requires from <= |items|
    ensures r.Some? ==> from <= r.value < |items| && p(items[r.value]) && forall k | from <= k < r.value :: !p(items[k])
    ensures r.None? ==> forall k | from <= k < |items| :: !p(items[k])
    decreases |items| - from
  {
    if from == |items| then None else if p(items[from]) then Some(from) else FirstFrom(items, p, from + 1)
  }

  /** The first Internal item. */
  function Internal(items: seq<Item>): (r: Option<nat>)
    ensures r.Some? ==>
              r.value < |items| && items[r.value].internal && forall k | 0 <= k < r.value :: !items[k].internal
    ensures r.None? ==> forall k | 0 <= k < |items| :: !items[k].internal
  {
    FirstFrom(items, (i: Item) => i.internal, 0)
  }

  /** The item to switch to, or None to leave the selector alone. `locked` names the sources with a lock. */
  function ClockSourceTarget(items: seq<Item>, current: int, locked: set<string>, digital: bool): (r: Option<nat>)
    ensures r.Some? ==> r.value < |items|
  {
    var internal := Internal(items);
    if internal.None? || !(0 <= current < |items|) then None
    else if !digital then (if items[current].digital then internal else None)
    else if current != internal.value then None
    else FirstFrom(items, (i: Item) => i.digital && i.name in locked, 0)
  }

  function Moved(items: seq<Item>, current: int, locked: set<string>, digital: bool): int {
    var target := ClockSourceTarget(items, current, locked, digital);
    if target.Some? then target.value else current
  }

  /** Once moved, always left alone, whatever the selector was on and whichever sources are locked. */
  ghost predicate SettlesAtOnce(items: seq<Item>) {
    forall current, locked, digital ::
      ClockSourceTarget(items, Moved(items, current, locked, digital), locked, digital).None?
  }

  /** Exactly when one pass is a fixpoint: the first Internal item does not itself look digital. */
  lemma SettlesIffInternalIsNotDigital(items: seq<Item>)
    ensures SettlesAtOnce(items) <==> Internal(items).None? || !items[Internal(items).value].digital
  {
    var internal := Internal(items);
    if internal.Some? && items[internal.value].digital {
      assert Moved(items, internal.value, {}, false) == internal.value;
      assert ClockSourceTarget(items, Moved(items, internal.value, {}, false), {}, false).Some?;
    }
  }

  /** Exactly when and where a selector is moved: to the first locked digital source, from Internal only; or
      from a digital source back to Internal. */
  lemma TargetIsExact(items: seq<Item>, current: int, locked: set<string>, digital: bool, target: nat)
    ensures ClockSourceTarget(items, current, locked, digital) == Some(target) <==>
              if digital then
                && Internal(items).Some? && current == Internal(items).value && target < |items|
                && items[target].digital && items[target].name in locked
                && forall k | 0 <= k < target :: !(items[k].digital && items[k].name in locked)
              else
                Internal(items) == Some(target) && 0 <= current < |items| && items[current].digital
  {
    var source := FirstFrom(items, (i: Item) => i.digital && i.name in locked, 0);
    assert source.Some? ==> items[source.value].digital && items[source.value].name in locked;
  }

  // ---------- one card, over any history ----------

  /** A card's clock selectors and the item each is on. */
  datatype Card = Card(selectors: seq<seq<Item>>, current: seq<int>) {
    ghost predicate Sane() { |selectors| == |current| }
  }

  /** The first `reach` selectors are visited; then reading or writing the card fails, or all were. */
  function AfterSelect(c: Card, locked: set<string>, digital: bool, reach: nat): (r: Card)
    requires c.Sane()
    ensures r.Sane() && r.selectors == c.selectors
    ensures forall j | 0 <= j < |c.current| ::
              r.current[j] == if j < reach then Moved(c.selectors[j], c.current[j], locked, digital) else c.current[j]
  {
    c.(current := seq(|c.current|, j requires 0 <= j < |c.current| =>
                        if j < reach then Moved(c.selectors[j], c.current[j], locked, digital) else c.current[j]))
  }

  datatype Op = Select(digital: bool, locked: set<string>, reach: nat) | Outside(selector: nat, item: int)

  function Next(c: Card, op: Op): (r: Card)
    requires c.Sane()
    ensures r.Sane() && r.selectors == c.selectors
  {
    match op
    case Select(digital, locked, reach) => AfterSelect(c, locked, digital, reach)
    case Outside(selector, item) => if selector < |c.current| then c.(current := c.current[selector := item]) else c
  }

  function Run(c: Card, ops: seq<Op>): (r: Card)
    requires c.Sane()
    ensures r.Sane() && r.selectors == c.selectors
  {
    if ops == [] then c else Next(Run(c, ops[..|ops| - 1]), ops[|ops| - 1])
  }

  /** Operation i of the run put selector j on `item`: something outside wrote it, or a pass that reached the
      selector did, on the first Internal item or on a digital source with a lock at that moment. */
  ghost predicate Placed(c: Card, ops: seq<Op>, i: nat, j: nat, item: int)
    requires c.Sane() && i < |ops| && j < |c.current|
  {
    var items := c.selectors[j];
    match ops[i]
    case Outside(selector, value) => selector == j && value == item
    case Select(digital, locked, reach) =>
      && j < reach
      && item >= 0 && ClockSourceTarget(items, Run(c, ops[..i]).current[j], locked, digital) == Some(item)
      && (if digital then item < |items| && items[item].digital && items[item].name in locked
          else Internal(items) == Some(item))
  }

  /** Over any passes with any wishes, locks and failures, a selector is where it started, where something
      outside put it, or where a pass wrote it: on the first Internal item, or on a digital source that was
      locked when written. */
  lemma {:induction false} EverySelectorIsExplained(c: Card, ops: seq<Op>, j: nat)
    requires c.Sane() && j < |c.current|
    ensures var now := Run(c, ops).current[j];
            now == c.current[j] || exists i: nat :: i < |ops| && Placed(c, ops, i, j, now)
  {
    if ops != [] {
      var init, last := ops[..|ops| - 1], |ops| - 1;
      EverySelectorIsExplained(c, init, j);
      var items, before, now := c.selectors[j], Run(c, init).current[j], Run(c, ops).current[j];
      if now != before {
        if ops[last].Select? {
          TargetIsExact(items, before, ops[last].locked, ops[last].digital, now);
        }
        assert Placed(c, ops, last, j, now);
      } else if i: nat :| i < |init| && Placed(c, init, i, j, before) {
        assert init[..i] == ops[..i];
        assert Placed(c, ops, i, j, now);
      }
    }
  }

  // ---------- a settle pass over all cards ----------

  /** Each card as its wish, its locks and its luck have it; None leaves a card alone. */
  datatype Wish = Wish(digital: Option<bool>, locked: set<string>, hasReceiver: bool, reach: nat)

  function AfterWish(c: Card, w: Wish): (r: Card)
    requires c.Sane()
    ensures r.Sane() && r.selectors == c.selectors
  {
    if w.digital.None? || !w.hasReceiver then c else AfterSelect(c, w.locked, w.digital.value, w.reach)
  }

  /** Some selector of the card has somewhere to go. */
  ghost predicate Unsettled(c: Card, w: Wish)
    requires c.Sane()
  {
    w.digital.Some? && w.hasReceiver && exists j ::
      0 <= j < |c.current| && ClockSourceTarget(c.selectors[j], c.current[j], w.locked, w.digital.value).Some?
  }

  /** A complete visit leaves a card nothing to move, if its Internal items do not look digital. */
  lemma OnePassSettles(c: Card, w: Wish)
    requires c.Sane() && w.reach >= |c.current|
    requires forall j | 0 <= j < |c.selectors| :: SettlesAtOnce(c.selectors[j])
    ensures !Unsettled(AfterWish(c, w), w) && AfterWish(AfterWish(c, w), w) == AfterWish(c, w)
  {
    if w.digital.Some? && w.hasReceiver {
      var once := AfterWish(c, w);
      forall j | 0 <= j < |c.current|
        ensures ClockSourceTarget(c.selectors[j], once.current[j], w.locked, w.digital.value).None?
      {
        assert SettlesAtOnce(c.selectors[j]);
        assert ClockSourceTarget(c.selectors[j], Moved(c.selectors[j], c.current[j], w.locked, w.digital.value),
                                 w.locked, w.digital.value).None?;
      }
      assert AfterWish(once, w).current == once.current;
    }
  }

  /** Among the first `n` selectors the last one with somewhere to go goes to a source of this name. */
  ghost predicate LastMovedTo(c: Card, locked: set<string>, digital: bool, n: nat, name: string)
    requires c.Sane() && n <= |c.current|
  {
    exists j: nat :: LastMoved(c, locked, digital, n, j) && name == MovedTo(c, locked, digital, j)
  }

  function MovedTo(c: Card, locked: set<string>, digital: bool, j: nat): string
    requires c.Sane() && j < |c.current| && ClockSourceTarget(c.selectors[j], c.current[j], locked, digital).Some?
  {
    c.selectors[j][ClockSourceTarget(c.selectors[j], c.current[j], locked, digital).value].name
  }

  ghost predicate LastMoved(c: Card, locked: set<string>, digital: bool, n: nat, j: nat)
    requires c.Sane() && n <= |c.current|
  {
    && j < n && ClockSourceTarget(c.selectors[j], c.current[j], locked, digital).Some?
    && forall k | j < k < n :: ClockSourceTarget(c.selectors[k], c.current[k], locked, digital).None?
  }

  class AlsaCard {
    const selectors: seq<seq<Item>>
    var current: seq<int>

    ghost predicate Valid()
      reads this
    {
      View().Sane()
    }

    ghost function View(): Card
      reads this
    {
      Card(selectors, current)
    }

    constructor (selectors: seq<seq<Item>>, current: seq<int>)
      requires |selectors| == |current|
      ensures Valid() && View() == Card(selectors, current)
    {
      this.selectors, this.current := selectors, current;
    }

    /** Visit the selectors in turn and report the source the last moved one went to; a failing read or write
        ends the visit with nothing reported. */
    method SelectClockSource(w: Wish, digital: bool, requireReceiver: bool) returns (selected: Option<string>)
      requires Valid()
      modifies this
      ensures Valid()
      ensures View() == if requireReceiver && !w.hasReceiver then old(View())
                        else AfterSelect(old(View()), w.locked, digital, w.reach)
      ensures selected.Some? <==>
                && w.reach >= |current| && (w.hasReceiver || !requireReceiver)
                && exists j ::
                     0 <= j < |current| && ClockSourceTarget(selectors[j], old(current[j]), w.locked, digital).Some?
      ensures selected.Some? ==> LastMovedTo(old(View()), w.locked, digital, |current|, selected.value)
    {
      if requireReceiver && !w.hasReceiver { return None; }
      selected := None;
      for j := 0 to |current|
        invariant |current| == |old(current)| && j <= w.reach
        invariant forall k | 0 <= k < |current| ::
                    current[k]
                    == if k < j then Moved(selectors[k], old(current[k]), w.locked, digital) else old(current[k])
        invariant selected.Some? <==>
                    exists k :: 0 <= k < j && ClockSourceTarget(selectors[k], old(current[k]), w.locked, digital).Some?
        invariant selected.Some? ==> LastMovedTo(old(View()), w.locked, digital, j, selected.value)
      {
        if j == w.reach { return None; }
        var target := ClockSourceTarget(selectors[j], current[j], w.locked, digital);
        if target.Some? {
          current := current[j := target.value];
          selected := Some(selectors[j][target.value].name);
          assert LastMoved(old(View()), w.locked, digital, j + 1, j);
        } else if selected.Some? {
          StillLastMoved(old(View()), w.locked, digital, j, selected.value);
        }
      }
    }
  }

  lemma StillLastMoved(c: Card, locked: set<string>, digital: bool, n: nat, name: string)
    requires c.Sane() && n < |c.current| && LastMovedTo(c, locked, digital, n, name)
    requires ClockSourceTarget(c.selectors[n], c.current[n], locked, digital).None?
    ensures LastMovedTo(c, locked, digital, n + 1, name)
  {
    var j: nat :| LastMoved(c, locked, digital, n, j) && name == MovedTo(c, locked, digital, j);
    assert LastMoved(c, locked, digital, n + 1, j);
  }

  ghost predicate Distinct(cards: seq<AlsaCard>) { forall i, j | 0 <= i < j < |cards| :: cards[i] != cards[j] }

  /** The cards are in these states. */
  ghost predicate InStates(cards: seq<AlsaCard>, states: seq<Card>)
    reads cards
  {
    |cards| == |states| && forall i | 0 <= i < |cards| :: states[i].Sane() && cards[i].View() == states[i]
  }

  ghost function AfterPass(states: seq<Card>, wishes: seq<Wish>): (r: seq<Card>)
    requires |states| == |wishes| && AllSane(states)
    ensures |r| == |states| && forall i | 0 <= i < |r| :: r[i] == AfterWish(states[i], wishes[i])
  {
    seq(|states|, i requires 0 <= i < |states| => AfterWish(states[i], wishes[i]))
  }

  /** A clock that moved: the card, the wish, and the source reported for it. */
  datatype Settled = Settled(card: nat, digital: bool, source: string)

  ghost predicate AllSane(states: seq<Card>) { forall i | 0 <= i < |states| :: states[i].Sane() }

  /** The card was visited to its end and something on it had somewhere to go. */
  ghost predicate Listable(c: Card, w: Wish)
    requires c.Sane()
  {
    Unsettled(c, w) && w.reach >= |c.current|
  }

  /** The entry reports a listable card, its wish, and the source its last moved selector went to. */
  ghost predicate Reports(e: Settled, states: seq<Card>, wishes: seq<Wish>)
    requires |states| == |wishes| && AllSane(states)
  {
    && e.card < |states| && Listable(states[e.card], wishes[e.card]) && wishes[e.card].digital == Some(e.digital)
    && LastMovedTo(states[e.card], wishes[e.card].locked, e.digital, |states[e.card].current|, e.source)
  }

  ghost predicate Lists(settled: seq<Settled>, card: nat) { exists k :: 0 <= k < |settled| && settled[k].card == card }

  /** The entries report, in card order, exactly the listable ones of the first n cards. */
  ghost predicate Listing(settled: seq<Settled>, states: seq<Card>, wishes: seq<Wish>, n: nat)
    requires n <= |states| == |wishes| && AllSane(states)
  {
    && (forall k | 0 <= k < |settled| :: settled[k].card < n && Reports(settled[k], states, wishes))
    && (forall k, l | 0 <= k < l < |settled| :: settled[k].card < settled[l].card)
    && (forall i: nat | i < n && Listable(states[i], wishes[i]) :: Lists(settled, i))
  }

  lemma ListingGrows(settled: seq<Settled>, states: seq<Card>, wishes: seq<Wish>, n: nat, e: Settled)
    requires n < |states| == |wishes| && AllSane(states) && Listing(settled, states, wishes, n)
    requires e.card == n && Reports(e, states, wishes)
    ensures Listing(settled + [e], states, wishes, n + 1)
  {
    hide Reports, Listable;
    forall i: nat | i < n + 1 && Listable(states[i], wishes[i]) ensures Lists(settled + [e], i) {
      if i < n {
        assert Lists(settled, i);
        var k :| 0 <= k < |settled| && settled[k].card == i;
        assert (settled + [e])[k].card == i;
      } else {
        assert (settled + [e])[|settled|].card == i;
      }
    }
  }

  lemma NothingListed(states: seq<Card>, wishes: seq<Wish>)
    requires |states| == |wishes| && AllSane(states)
    ensures Listing([], states, wishes, 0)
  {
  }

  lemma ListingStays(settled: seq<Settled>, states: seq<Card>, wishes: seq<Wish>, n: nat)
    requires n < |states| == |wishes| && AllSane(states) && Listing(settled, states, wishes, n)
    requires !Listable(states[n], wishes[n])
    ensures Listing(settled, states, wishes, n + 1)
  {
    hide Reports, Listable;
  }

  /** One pass: every card ends where its wish says, and the listing reports exactly the cards visited to
      their end on which something moved. */
  method SettleDigitalClocks(cards: seq<AlsaCard>, wishes: seq<Wish>, ghost states: seq<Card>)
    returns (settled: seq<Settled>)
    requires |cards| == |wishes| && Distinct(cards) && AllSane(states) && InStates(cards, states)
    modifies cards
    ensures InStates(cards, AfterPass(states, wishes))
    ensures Listing(settled, states, wishes, |cards|)
  {
    hide Listing, LastMovedTo, AfterWish, Unsettled, AfterPass;
    settled := [];
    NothingListed(states, wishes);
    for n := 0 to |cards|
      invariant forall i | n <= i < |cards| :: cards[i].View() == states[i]
      invariant forall i | 0 <= i < n :: cards[i].View() == AfterWish(states[i], wishes[i])
      invariant Listing(settled, states, wishes, n)
    {
      var entry := SettleCard(cards[n], n, wishes[n]);
      assert entry.Some? ==> Reports(entry.value, states, wishes);
      if entry.Some? {
        ListingGrows(settled, states, wishes, n, entry.value);
        settled := settled + [entry.value];
      } else {
        ListingStays(settled, states, wishes, n);
      }
    }
  }

  /** One card of the pass; it gives an entry exactly when the card is listable. */
  method SettleCard(card: AlsaCard, n: nat, w: Wish) returns (entry: Option<Settled>)
    requires card.Valid()
    modifies card
    ensures card.Valid() && card.View() == AfterWish(old(card.View()), w)
    ensures entry.Some? <==> Listable(old(card.View()), w)
    ensures entry.Some? ==>
              && entry.value.card == n && w.digital == Some(entry.value.digital)
              && LastMovedTo(old(card.View()), w.locked, entry.value.digital, |card.current|, entry.value.source)
  {
    if w.digital.None? { return None; }
    var selected := card.SelectClockSource(w, w.digital.value, true);
    entry := if selected.Some? then Some(Settled(n, w.digital.value, selected.value)) else None;
  }

  /** A pass that reached everything is a fixpoint: with the same wishes and locks a second changes no card,
      and none of them has anywhere to go. */
  lemma SecondPassMovesNothing(states: seq<Card>, wishes: seq<Wish>)
    requires |states| == |wishes|
    requires forall i | 0 <= i < |states| ::
               states[i].Sane() && wishes[i].reach >= |states[i].current|
               && forall j | 0 <= j < |states[i].selectors| :: SettlesAtOnce(states[i].selectors[j])
    ensures AfterPass(AfterPass(states, wishes), wishes) == AfterPass(states, wishes)
    ensures forall i | 0 <= i < |states| :: !Unsettled(AfterPass(states, wishes)[i], wishes[i])
  {
    forall i | 0 <= i < |states|
      ensures AfterWish(AfterWish(states[i], wishes[i]), wishes[i]) == AfterWish(states[i], wishes[i])
              && !Unsettled(AfterPass(states, wishes)[i], wishes[i])
    {
      OnePassSettles(states[i], wishes[i]);
    }
  }
}
