/**
 Logical stereo and mono banks over the roles of an output: complete pairs are
 grouped, everything else stands alone.
 */
module FilterBanks {
  import opened Wrappers

  /** Role, bank and selection names share one name space; the reserved ones are told apart by constructor. */
  datatype Name =
    | Off | Global | All
    | PairId(pair: nat)
    | Side(pair: nat, left: bool)
    | Named(text: string)

  datatype Pair = Pair(id: Name, left: Name, right: Name)

  /** main, low, low_mid, mid, high, sub, side, rear: each pair's id, left member and right member. */
  const STEREO_PAIRS: seq<Pair> := seq(8, (i: nat) => Pair(PairId(i), Side(i, true), Side(i, false)))

  datatype Bank = Bank(id: Name, roles: seq<Name>, stereo: bool)

  function Members(p: Pair): set<Name> { {p.left, p.right} }

  /** What the table of pairs has to offer: distinct ids, disjoint pairs, and ids that are no member. */
  ghost predicate WellFormed(pairs: seq<Pair>) {
    && (forall i, j | 0 <= i < j < |pairs| :: pairs[i].id != pairs[j].id && Members(pairs[i]) !! Members(pairs[j]))
    && (forall i, j | 0 <= i < |pairs| && 0 <= j < |pairs| :: pairs[i].id !in Members(pairs[j]))
    && (forall i | 0 <= i < |pairs| :: pairs[i].left != pairs[i].right && pairs[i].id !in {Off, Global, All})
  }

  lemma StereoPairsWellFormed()
    ensures WellFormed(STEREO_PAIRS)
  {
  }

  function Active(roles: seq<Name>): set<Name> {
    (set r | r in roles) - {Off, Global}
  }

  predicate Complete(pairs: seq<Pair>, active: set<Name>, k: nat)
    requires k < |pairs|
  {
    Members(pairs[k]) <= active
  }

  /** A role outside every complete pair. */
  predicate Alone(pairs: seq<Pair>, active: set<Name>, role: Name) {
    role in active && forall k: nat | k < |pairs| && Complete(pairs, active, k) :: role !in Members(pairs[k])
  }

  predicate HasPair(pairs: seq<Pair>, active: set<Name>, id: Name) {
    exists k: nat :: k < |pairs| && Complete(pairs, active, k) && pairs[k].id == id
  }

  /** The bank stored under an id: the mono role of that name, or else the complete pair. */
  ghost predicate IsBank(pairs: seq<Pair>, active: set<Name>, b: Bank) {
    if Alone(pairs, active, b.id) then b == Bank(b.id, [b.id], false)
    else
      exists k: nat ::
        k < |pairs| && Complete(pairs, active, k) && b == Bank(pairs[k].id, [pairs[k].left, pairs[k].right], true)
  }

  /** The definitions are exactly those banks, each under its own id. */
  ghost predicate Defines(pairs: seq<Pair>, active: set<Name>, banks: map<Name, Bank>) {
    && (forall id :: id in banks <==> Alone(pairs, active, id) || HasPair(pairs, active, id))
    && (forall id | id in banks :: banks[id].id == id && IsBank(pairs, active, banks[id]))
  }

  /** The grouping depends on nothing but the set of roles. */
  lemma DefinitionsAreDetermined(pairs: seq<Pair>, active: set<Name>, a: map<Name, Bank>, b: map<Name, Bank>)
    requires WellFormed(pairs) && Defines(pairs, active, a) && Defines(pairs, active, b)
    ensures a == b
  {
    assert a.Keys == b.Keys;
    forall id | id in a ensures a[id] == b[id] {
      assert IsBank(pairs, active, a[id]) && IsBank(pairs, active, b[id]);
    }
  }

  // ---------- building the definitions ----------

  /** Active roles less the members of the first n complete pairs. */
  function Remaining(pairs: seq<Pair>, active: set<Name>, n: nat): set<Name>
    requires n <= |pairs|
  {
    if n == 0 then active
    else if Complete(pairs, active, n - 1) then Remaining(pairs, active, n - 1) - Members(pairs[n - 1])
    else Remaining(pairs, active, n - 1)
  }

  lemma {:induction false} RemainingIs(pairs: seq<Pair>, active: set<Name>, n: nat)
    requires WellFormed(pairs) && n <= |pairs|
    ensures forall r :: r in Remaining(pairs, active, n) <==>
                          r in active && forall k: nat | k < n && Complete(pairs, active, k) :: r !in Members(pairs[k])
    ensures forall k: nat | n <= k < |pairs| ::
              Members(pairs[k]) <= Remaining(pairs, active, n) <==> Complete(pairs, active, k)
  {
    if n > 0 {
      RemainingIs(pairs, active, n - 1);
    }
  }

  function Stereo(p: Pair): Bank { Bank(p.id, [p.left, p.right], true) }
  function Mono(role: Name): Bank { Bank(role, [role], false) }

  function Grouped(pairs: seq<Pair>, active: set<Name>, n: nat): map<Name, Bank>
    requires n <= |pairs|
  {
    if n == 0 then map[]
    else if Complete(pairs, active, n - 1) then Grouped(pairs, active, n - 1)[pairs[n - 1].id := Stereo(pairs[n - 1])]
    else Grouped(pairs, active, n - 1)
  }

  function WithSingles(banks: map<Name, Bank>, left: set<Name>, roles: seq<Name>): map<Name, Bank> {
    if roles == [] then banks
    else
      var before, role := WithSingles(banks, left, roles[..|roles| - 1]), roles[|roles| - 1];
      if role in left then before[role := Mono(role)] else before
  }

  lemma {:induction false} GroupedIs(pairs: seq<Pair>, active: set<Name>, n: nat)
    requires WellFormed(pairs) && n <= |pairs|
    ensures forall id :: id in Grouped(pairs, active, n) <==>
            exists k: nat :: k < n && Complete(pairs, active, k) && pairs[k].id == id
    ensures forall k: nat | k < n && Complete(pairs, active, k) ::
              pairs[k].id in Grouped(pairs, active, n) && Grouped(pairs, active, n)[pairs[k].id] == Stereo(pairs[k])
  {
    if n > 0 {
      GroupedIs(pairs, active, n - 1);
    }
  }

  lemma {:induction false} SinglesAre(banks: map<Name, Bank>, left: set<Name>, roles: seq<Name>)
    ensures var r := WithSingles(banks, left, roles);
            && (forall id :: id in r <==> id in banks || (id in left && id in roles))
            && (forall id | id in r ::
                  if id in left && id in roles then r[id] == Mono(id) else id in banks && r[id] == banks[id])
  {
    if roles != [] {
      SinglesAre(banks, left, roles[..|roles| - 1]);
      assert roles == roles[..|roles| - 1] + [roles[|roles| - 1]];
    }
  }

  function Definitions(pairs: seq<Pair>, roles: seq<Name>): map<Name, Bank> {
    var active := Active(roles);
    WithSingles(Grouped(pairs, active, |pairs|), Remaining(pairs, active, |pairs|), roles)
  }

  lemma DefinitionsDefine(pairs: seq<Pair>, roles: seq<Name>)
    requires WellFormed(pairs)
    ensures Defines(pairs, Active(roles), Definitions(pairs, roles))
  {
    var active := Active(roles);
    var grouped, left := Grouped(pairs, active, |pairs|), Remaining(pairs, active, |pairs|);
    RemainingIs(pairs, active, |pairs|);
    GroupedIs(pairs, active, |pairs|);
    SinglesAre(grouped, left, roles);
    var banks := Definitions(pairs, roles);
    assert forall r :: r in left ==> r in roles;
    hide WithSingles, Grouped, Remaining, Definitions;
    forall r ensures r in left <==> Alone(pairs, active, r) {}
    forall id ensures id in grouped <==> HasPair(pairs, active, id) {}
    forall id | id in banks ensures banks[id].id == id && IsBank(pairs, active, banks[id]) {
      if id !in left {
        var k: nat :| k < |pairs| && Complete(pairs, active, k) && pairs[k].id == id;
        assert banks[id] == Stereo(pairs[k]);
      }
    }
  }

  /** Group complete pairs off a shrinking set, then every role left over, in order and once. */
  method BankDefinitions(pairs: seq<Pair>, roles: seq<Name>) returns (banks: map<Name, Bank>, order: seq<Name>)
    requires WellFormed(pairs)
    ensures banks == Definitions(pairs, roles) && Defines(pairs, Active(roles), banks)
    ensures forall id :: id in order <==> id in banks
  {
    DefinitionsDefine(pairs, roles);
    var active := Active(roles);
    banks, order := map[], [];
    for n := 0 to |pairs|
      invariant active == Remaining(pairs, Active(roles), n)
      invariant banks == Grouped(pairs, Active(roles), n)
      invariant forall id :: id in order <==> id in banks
    {
      RemainingIs(pairs, Active(roles), n);
      hide WellFormed, Active;
      if Members(pairs[n]) <= active {
        banks := banks[pairs[n].id := Stereo(pairs[n])];
        order := order + [pairs[n].id];
        active := active - Members(pairs[n]);
      }
    }
    ghost var grouped := banks;
    assert roles[..0] == [];
    for n := 0 to |roles|
      invariant banks == WithSingles(grouped, active, roles[..n])
      invariant forall id :: id in order <==> id in banks
    {
      assert roles[..n + 1][..n] == roles[..n];
      var role := roles[n];
      if role in active {
        if role !in banks { order := order + [role]; }
        banks := banks[role := Mono(role)];
      }
    }
    assert roles[..|roles|] == roles;
  }

  // ---------- the grouping is a partition ----------

  /** Some active role bears the name of a pair that is complete. */
  ghost predicate Clashes(pairs: seq<Pair>, active: set<Name>) {
    exists k: nat :: k < |pairs| && Complete(pairs, active, k) && pairs[k].id in active
  }

  ghost predicate InOneBank(banks: map<Name, Bank>, role: Name) {
    && (exists id :: id in banks && role in banks[id].roles)
    && forall i, j | i in banks && j in banks && role in banks[i].roles && role in banks[j].roles :: i == j
  }

  /** Exactly when no role is named like a complete pair, every active role is in one bank and one only. */
  lemma PartitionUnlessClash(pairs: seq<Pair>, roles: seq<Name>)
    requires WellFormed(pairs)
    ensures (forall r | r in Active(roles) :: InOneBank(Definitions(pairs, roles), r)) <==>
            !Clashes(pairs, Active(roles))
  {
    var active, banks := Active(roles), Definitions(pairs, roles);
    DefinitionsDefine(pairs, roles);
    hide Definitions, Active;
    if Clashes(pairs, active) {
      var k: nat :| k < |pairs| && Complete(pairs, active, k) && pairs[k].id in active;
      ClashHidesPair(pairs, active, banks, k);
    } else {
      forall r | r in active ensures InOneBank(banks, r) {
        RoleInOneBank(pairs, active, banks, r);
      }
    }
  }

  lemma ClashHidesPair(pairs: seq<Pair>, active: set<Name>, banks: map<Name, Bank>, k: nat)
    requires WellFormed(pairs) && Defines(pairs, active, banks)
    requires k < |pairs| && Complete(pairs, active, k) && pairs[k].id in active
    ensures pairs[k].left in active && !InOneBank(banks, pairs[k].left)
  {
    var left := pairs[k].left;
    assert Alone(pairs, active, pairs[k].id);
    assert !Alone(pairs, active, left);
    forall id | id in banks ensures left !in banks[id].roles {
      assert IsBank(pairs, active, banks[id]);
    }
  }

  lemma RoleInOneBank(pairs: seq<Pair>, active: set<Name>, banks: map<Name, Bank>, r: Name)
    requires WellFormed(pairs) && Defines(pairs, active, banks) && !Clashes(pairs, active) && r in active
    ensures InOneBank(banks, r)
  {
    if Alone(pairs, active, r) {
      assert r in banks && IsBank(pairs, active, banks[r]);
    } else {
      var k: nat :| k < |pairs| && Complete(pairs, active, k) && r in Members(pairs[k]);
      assert HasPair(pairs, active, pairs[k].id);
      assert IsBank(pairs, active, banks[pairs[k].id]);
      assert r in banks[pairs[k].id].roles;
    }
    forall i, j | i in banks && j in banks && r in banks[i].roles && r in banks[j].roles ensures i == j {
      assert IsBank(pairs, active, banks[i]) && IsBank(pairs, active, banks[j]);
    }
  }

  /** The members of a complete pair are always grouped, and never stand alone. */
  lemma CompletePairsAreGrouped(pairs: seq<Pair>, roles: seq<Name>, k: nat)
    requires WellFormed(pairs) && k < |pairs| && Complete(pairs, Active(roles), k) && pairs[k].id !in Active(roles)
    ensures var banks := Definitions(pairs, roles);
            && pairs[k].id in banks && banks[pairs[k].id] == Stereo(pairs[k])
            && pairs[k].left !in banks && pairs[k].right !in banks
  {
    var active, banks := Active(roles), Definitions(pairs, roles);
    DefinitionsDefine(pairs, roles);
    hide Definitions, Active;
    assert HasPair(pairs, active, pairs[k].id) && IsBank(pairs, active, banks[pairs[k].id]);
    assert !Alone(pairs, active, pairs[k].left) && !Alone(pairs, active, pairs[k].right);
  }

  // ---------- resolving a name to its bank ----------

  /** Bank ids a role can own presets under in any topology. */
  function OwningBankIds(pairs: seq<Pair>, role: Name): set<Name> {
    if role == Global then {Global}
    else {role} + set k: nat | k < |pairs| && role in Members(pairs[k]) :: pairs[k].id
  }

  lemma BanksAreOwned(pairs: seq<Pair>, roles: seq<Name>, id: Name, role: Name)
    requires WellFormed(pairs) && id in Definitions(pairs, roles) && role in Definitions(pairs, roles)[id].roles
    ensures id in OwningBankIds(pairs, role)
  {
    DefinitionsDefine(pairs, roles);
    var banks := Definitions(pairs, roles);
    assert IsBank(pairs, Active(roles), banks[id]);
    assert role in Active(roles);
  }

  predicate Answers(b: Bank, configured: set<Name>, name: Name) {
    (name == b.id || name in b.roles) && forall r | r in b.roles :: r in configured
  }

  const GLOBAL_BANK := Bank(Global, [Global], true)

  /** The bank of a logical id or of an old role selection; None where the code raises. */
  ghost predicate ResolvesTo(pairs: seq<Pair>, configured: set<Name>, roles: seq<Name>, name: Name, r: Option<Bank>) {
    if name == Global then r == Some(GLOBAL_BANK)
    else
      var banks := Definitions(pairs, roles);
      match r
      case Some(b) => b.id in banks && banks[b.id] == b && Answers(b, configured, name)
      case None => forall id | id in banks :: !Answers(banks[id], configured, name)
  }

  method ResolveBank(pairs: seq<Pair>, configured: set<Name>, roles: seq<Name>, name: Name) returns (r: Option<Bank>)
    requires WellFormed(pairs)
    ensures ResolvesTo(pairs, configured, roles, name, r)
  {
    if name == Global { return Some(GLOBAL_BANK); }
    var banks, order := BankDefinitions(pairs, roles);
    for n := 0 to |order|
      invariant forall k | 0 <= k < n :: !Answers(banks[order[k]], configured, name)
    {
      assert order[n] in banks;
      if Answers(banks[order[n]], configured, name) { return Some(banks[order[n]]); }
    }
    return None;
  }

  /** A name never resolves to two banks, so the order of the definitions does not matter. */
  lemma ResolutionIsUnique(pairs: seq<Pair>, configured: set<Name>, roles: seq<Name>, name: Name, a: Option<Bank>,
                           b: Option<Bank>)
    requires WellFormed(pairs) && !Clashes(pairs, Active(roles))
    requires ResolvesTo(pairs, configured, roles, name, a) && ResolvesTo(pairs, configured, roles, name, b)
    ensures a == b
  {
    DefinitionsDefine(pairs, roles);
    var active, banks := Active(roles), Definitions(pairs, roles);
    hide Definitions, Active;
    if name != Global && a.Some? && b.Some? {
      assert IsBank(pairs, active, a.value) && IsBank(pairs, active, b.value);
    }
  }

  /** Resolving a resolved bank's own id gives that bank again. */
  lemma ResolvingTwice(pairs: seq<Pair>, configured: set<Name>, roles: seq<Name>, name: Name, r: Option<Bank>,
                       again: Option<Bank>)
    requires WellFormed(pairs) && ResolvesTo(pairs, configured, roles, name, r) && r.Some?
    requires ResolvesTo(pairs, configured, roles, r.value.id, again)
    ensures again == r
  {
    DefinitionsDefine(pairs, roles);
    var active, banks := Active(roles), Definitions(pairs, roles);
    assert Global !in active && forall id | id in active :: id != Global;
    hide Definitions;
    if name != Global {
      assert IsBank(pairs, active, r.value);
      assert r.value.id != Global;
      assert Answers(r.value, configured, r.value.id);
      assert again.Some? && IsBank(pairs, active, again.value);
    }
  }

  /** Nothing but the main pair, which heads the table. */
  predicate PlainMains(pairs: seq<Pair>, roles: seq<Name>) {
    pairs != [] && (set r | r in roles) == Members(pairs[0])
  }

  /** The selection shown for a stored one: Global for the plain mains, All while there are roles, the id of a
      bank the stored name resolves to, and the fallback only when it resolves to none. */
  ghost predicate Shown(pairs: seq<Pair>, configured: set<Name>, roles: seq<Name>, surround: bool, stored: Name,
                        r: Name) {
    if !surround && PlainMains(pairs, roles) then r == Global
    else if stored == All && roles != [] then r == All
    else if ResolvesTo(pairs, configured, roles, stored, None) then r == if surround && roles != [] then All else Global
    else exists b: Bank :: b.id == r && ResolvesTo(pairs, configured, roles, stored, Some(b))
  }

  /** Whatever is shown resolves itself, or is one of the two aggregate selections. */
  method SelectedBank(pairs: seq<Pair>, configured: set<Name>, stored: Name, roles: seq<Name>, surround: bool)
    returns (r: Name)
    requires WellFormed(pairs)
    ensures Shown(pairs, configured, roles, surround, stored, r)
    ensures r in {All, Global} || exists b: Bank :: b.id == r && ResolvesTo(pairs, configured, roles, r, Some(b))
    ensures r == All ==> roles != [] && (stored == All || surround)
  {
    var fallback := if surround && roles != [] then All else Global;
    if !surround && PlainMains(pairs, roles) { return Global; }
    if stored == All && roles != [] { return All; }
    var b := ResolveBank(pairs, configured, roles, stored);
    if b.None? { return fallback; }
    ResolvesOrNot(pairs, configured, roles, stored, b.value);
    r := b.value.id;
    if stored != Global {
      BankResolves(pairs, configured, roles, stored, b.value);
    }
  }

  lemma ResolvesOrNot(pairs: seq<Pair>, configured: set<Name>, roles: seq<Name>, name: Name, b: Bank)
    requires ResolvesTo(pairs, configured, roles, name, Some(b))
    ensures !ResolvesTo(pairs, configured, roles, name, None)
  {
  }

  /** Storing what is shown shows it again. */
  lemma ShownAgain(pairs: seq<Pair>, configured: set<Name>, roles: seq<Name>, surround: bool, stored: Name, r: Name,
                   again: Name)
    requires WellFormed(pairs)
    requires Shown(pairs, configured, roles, surround, stored, r) && Shown(pairs, configured, roles, surround, r, again)
    ensures again == r
  {
    hide ResolvesTo, PlainMains;
    GlobalResolves(pairs, configured, roles);
    if r != Global && !(r == All && roles != []) {
      var b: Bank :| b.id == r && ResolvesTo(pairs, configured, roles, stored, Some(b));
      BankResolves(pairs, configured, roles, stored, b);
      ResolvesOrNot(pairs, configured, roles, r, b);
      var c: Bank :| c.id == again && ResolvesTo(pairs, configured, roles, r, Some(c));
      ResolvingTwice(pairs, configured, roles, stored, Some(b), Some(c));
    }
  }

  lemma GlobalResolves(pairs: seq<Pair>, configured: set<Name>, roles: seq<Name>)
    ensures forall r :: ResolvesTo(pairs, configured, roles, Global, r) <==> r == Some(GLOBAL_BANK)
  {
  }

  lemma BankResolves(pairs: seq<Pair>, configured: set<Name>, roles: seq<Name>, name: Name, b: Bank)
    requires WellFormed(pairs) && name != Global && ResolvesTo(pairs, configured, roles, name, Some(b))
    ensures ResolvesTo(pairs, configured, roles, b.id, Some(b))
    ensures b.id == All ==> name == All && roles != []
  {
    DefinitionsDefine(pairs, roles);
    assert IsBank(pairs, Active(roles), b);
    assert b.id == All ==> Alone(pairs, Active(roles), All);
  }
}
