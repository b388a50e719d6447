/**
 ZIP album import: collision-free playlist names, and extraction within its budgets.

 `lower` stands for case folding. All that is needed of it is that it leaves an
 appended counter alone, which is the precondition KeepsCounters.
 */
module ZipAlbum {
  // ---------- counters as text ----------

  function Digit(d: nat): char
    requires d < 10
  {
    "0123456789"[d]
  }

  function Decimal(n: nat): (r: string)
    ensures r != []
  {
    if n < 10 then [Digit(n)] else Decimal(n / 10) + [Digit(n % 10)]
  }

  lemma DigitsDiffer(a: nat, b: nat)
    requires a < 10 && b < 10 && Digit(a) == Digit(b)
    ensures a == b
  {
  }

  lemma {:induction false} DecimalDiffers(a: nat, b: nat)
    requires Decimal(a) == Decimal(b)
    ensures a == b
  {
    assert Decimal(a)[|Decimal(a)| - 1] == Digit(a % 10) && Decimal(b)[|Decimal(b)| - 1] == Digit(b % 10);
    DigitsDiffer(a % 10, b % 10);
    assert (a < 10) == (b < 10);
    if a >= 10 {
      assert Decimal(a)[..|Decimal(a)| - 1] == Decimal(a / 10);
      assert Decimal(b)[..|Decimal(b)| - 1] == Decimal(b / 10);
      DecimalDiffers(a / 10, b / 10);
    }
  }

  predicate Digits(s: string) { s != [] && forall i | 0 <= i < |s| :: '0' <= s[i] <= '9' }

  /** The number a text of digits says. */
  function ValueOf(s: string): int {
    if s == "" then 0 else 10 * ValueOf(s[..|s| - 1]) + (s[|s| - 1] as int - '0' as int)
  }

  lemma DigitReads(d: nat)
    requires d < 10
    ensures '0' <= Digit(d) <= '9' && Digit(d) as int - '0' as int == d
  {
  }

  /** A counter is its index in decimal digits, without leading zeros. */
  lemma {:induction false} DecimalReads(n: nat)
    ensures Digits(Decimal(n)) && ValueOf(Decimal(n)) == n && (n > 0 ==> Decimal(n)[0] != '0')
  {
    DigitReads(n % 10);
    if n < 10 {
      assert Decimal(n)[..0] == "" && ValueOf("") == 0;
    } else {
      DecimalReads(n / 10);
      assert Decimal(n)[..|Decimal(n)| - 1] == Decimal(n / 10);
    }
  }

  function Counter(index: nat): string { " (" + Decimal(index) + ")" }

  lemma CountersDiffer(name: string, i: nat, j: nat)
    requires name + Counter(i) == name + Counter(j)
    ensures i == j
  {
    assert (name + Counter(i))[|name|..] == Counter(i) && (name + Counter(j))[|name|..] == Counter(j);
    assert Counter(i)[2..|Counter(i)| - 1] == Decimal(i) && Counter(j)[2..|Counter(j)| - 1] == Decimal(j);
    DecimalDiffers(i, j);
  }

  ghost predicate KeepsCounters(lower: string -> string) {
    forall name, index: nat :: lower(name + Counter(index)) == lower(name) + Counter(index)
  }

  // ---------- the first free name ----------

  /** Variant 0 is the name itself; from 2 on it carries a counter. */
  function Variant(name: string, index: nat): string {
    if index < 2 then name else name + Counter(index)
  }

  /** r is the first variant of name that is not used, whatever the case. */
  ghost predicate FirstFreeAt(name: string, used: set<string>, lower: string -> string, index: nat) {
    && index != 1
    && lower(Variant(name, index)) !in used
    && forall k: nat | k < index :: lower(Variant(name, k)) in used
  }

  /** A name that had to give way carries " (n)" behind it, n from 2 on. */
  lemma VariantIsSpelled(name: string, index: nat)
    ensures index < 2 ==> Variant(name, index) == name
    ensures index >= 2 ==> exists n: string ::
              Digits(n) && n[0] != '0' && ValueOf(n) == index && Variant(name, index) == name + " (" + n + ")"
  {
    if index >= 2 {
      DecimalReads(index);
      assert Variant(name, index) == name + " (" + Decimal(index) + ")";
    }
  }

  lemma VariantsDiffer(name: string, lower: string -> string, i: nat, j: nat)
    requires KeepsCounters(lower) && i != 1 && j != 1 && lower(Variant(name, i)) == lower(Variant(name, j))
    ensures i == j
  {
    assert |lower(name) + Counter(i)| > |lower(name)| && |lower(name) + Counter(j)| > |lower(name)|;
    if i >= 2 && j >= 2 {
      CountersDiffer(lower(name), i, j);
    }
  }

  lemma VariantIsNew(name: string, lower: string -> string, i: nat)
    requires KeepsCounters(lower) && i >= 2
    ensures forall k: nat | k < i :: lower(Variant(name, k)) != lower(Variant(name, i))
  {
    forall k: nat | k < i ensures lower(Variant(name, k)) != lower(Variant(name, i)) {
      if k == 1 {
        assert Variant(name, 1) == Variant(name, 0);
        if lower(Variant(name, 0)) == lower(Variant(name, i)) { VariantsDiffer(name, lower, 0, i); }
      } else if lower(Variant(name, k)) == lower(Variant(name, i)) {
        VariantsDiffer(name, lower, k, i);
      }
    }
  }

  /** The loop always ends: every counter it rejects uses up another entry of `used`. */
  method UniqueArchivePlaylistName(name: string, used: set<string>, lower: string -> string)
    returns (r: string)
    requires KeepsCounters(lower)
    ensures exists index: nat ::
              index <= |used| + 1 && r == Variant(name, index) && FirstFreeAt(name, used, lower, index)
  {
    if lower(name) !in used {
      assert FirstFreeAt(name, used, lower, 0);
      return name;
    }
    var i := 2;
    ghost var rejected := {lower(name)};
    assert lower(Variant(name, 0)) in rejected;
    while lower(name + Counter(i)) in used
      invariant i >= 2
      invariant rejected <= used && |rejected| == i - 1
      invariant forall s :: s in rejected <==> exists k: nat :: k < i && lower(Variant(name, k)) == s
      decreases |used| - |rejected|
    {
      var next := lower(Variant(name, i));
      VariantIsNew(name, lower, i);
      ghost var more := rejected + {next};
      assert more <= used && |more| == i;
      SubsetSize(more, used);
      rejected, i := more, i + 1;
    }
    SubsetSize(rejected, used);
    assert forall k: nat | k < i :: lower(Variant(name, k)) in rejected;
    assert FirstFreeAt(name, used, lower, i);
    return name + Counter(i);
  }

  lemma SubsetSize(a: set<string>, b: set<string>)
    requires a <= b
    ensures |a| <= |b|
  {
    assert b == a + (b - a);
  }

  // ---------- names for all playlists of an archive ----------

  /** A playlist member: its place, its stem, and its containing folder inside the archive ("" at the top). */
  datatype Member = Member(path: string, stem: string, folder: string)

  function Stem(m: Member): string { if m.stem != "" then m.stem else "playlist" }

  /** How many of these members have this stem when folded. */
  function SameStem(members: seq<Member>, key: string, lower: string -> string): nat {
    if members == [] then 0
    else SameStem(members[..|members| - 1], key, lower) + if lower(Stem(members[|members| - 1])) == key then 1 else 0
  }

  /** The wish for member i: its stem for the first of that stem, else qualified by folder or position. */
  function Wanted(members: seq<Member>, i: nat, lower: string -> string): string
    requires i < |members|
  {
    var m := members[i];
    var position := SameStem(members[..i], lower(Stem(m)), lower) + 1;
    if position == 1 then Stem(m) else if m.folder != "" then m.folder + " " + Stem(m) else Stem(m) + Counter(position)
  }

  function UsedNames(names: seq<string>, lower: string -> string): set<string> {
    set k | 0 <= k < |names| :: lower(names[k])
  }

  /** Each name is the first free variant of what its member wants, given the names before it. */
  ghost predicate NamedInOrder(members: seq<Member>, names: seq<string>, lower: string -> string) {
    && |names| == |members|
    && forall i: nat | i < |names| :: Named(members, names, lower, i)
  }

  ghost predicate Named(members: seq<Member>, names: seq<string>, lower: string -> string, i: nat)
    requires i < |names| == |members|
  {
    exists index: nat :: NamedAt(members, names, lower, i, index)
  }

  ghost predicate NamedAt(members: seq<Member>, names: seq<string>, lower: string -> string, i: nat, index: nat)
    requires i < |names| == |members|
  {
    && names[i] == Variant(Wanted(members, i, lower), index)
    && FirstFreeAt(Wanted(members, i, lower), UsedNames(names[..i], lower), lower, index)
  }

  /** No two names collide, whatever the case. */
  lemma NamesDiffer(members: seq<Member>, names: seq<string>, lower: string -> string, i: nat, j: nat)
    requires NamedInOrder(members, names, lower) && i < j < |names|
    ensures lower(names[i]) != lower(names[j])
  {
    assert Named(members, names, lower, j);
    var index: nat :| NamedAt(members, names, lower, j, index);
    assert names[..j][i] == names[i];
    assert lower(names[i]) in UsedNames(names[..j], lower);
  }

  /** The names are a function of the archive's layout. */
  lemma {:induction false} NamesAreDetermined(members: seq<Member>, a: seq<string>, b: seq<string>,
                                              lower: string -> string, n: nat)
    requires NamedInOrder(members, a, lower) && NamedInOrder(members, b, lower) && n <= |members|
    ensures a[..n] == b[..n]
  {
    if n > 0 {
      NamesAreDetermined(members, a, b, lower, n - 1);
      assert Named(members, a, lower, n - 1) && Named(members, b, lower, n - 1);
      var i: nat :| NamedAt(members, a, lower, n - 1, i);
      var j: nat :| NamedAt(members, b, lower, n - 1, j);
      FirstFreeIsOne(Wanted(members, n - 1, lower), UsedNames(a[..n - 1], lower), lower, i, j);
      assert a[..n] == a[..n - 1] + [a[n - 1]] && b[..n] == b[..n - 1] + [b[n - 1]];
    }
  }

  lemma FirstFreeIsOne(name: string, used: set<string>, lower: string -> string, i: nat, j: nat)
    requires FirstFreeAt(name, used, lower, i) && FirstFreeAt(name, used, lower, j)
    ensures i == j
  {
  }

  /** The first member of a stem keeps the plain stem unless an earlier member's name already took it. */
  lemma FirstOfStemKeepsIt(members: seq<Member>, names: seq<string>, lower: string -> string, i: nat)
    requires NamedInOrder(members, names, lower) && i < |members| &&
             SameStem(members[..i], lower(Stem(members[i])), lower) == 0
    ensures lower(Stem(members[i])) !in UsedNames(names[..i], lower) ==> names[i] == Stem(members[i])
  {
    assert Named(members, names, lower, i);
    var index: nat :| NamedAt(members, names, lower, i, index);
    assert index > 0 ==> lower(Variant(Stem(members[i]), 0)) in UsedNames(names[..i], lower);
  }

  /** A later member of a stem is told apart by its folder, or by its position among them at the top, unless an
      earlier member's name took that too. */
  lemma LaterOfStemIsQualified(members: seq<Member>, names: seq<string>, lower: string -> string, i: nat)
    requires NamedInOrder(members, names, lower) && i < |members|
    requires SameStem(members[..i], lower(Stem(members[i])), lower) > 0
    ensures var wish := if members[i].folder != "" then members[i].folder + " " + Stem(members[i])
                        else Stem(members[i])
                             + " (" + Decimal(SameStem(members[..i], lower(Stem(members[i])), lower) + 1) + ")";
            lower(wish) !in UsedNames(names[..i], lower) ==> names[i] == wish
  {
    assert Named(members, names, lower, i);
    var index: nat :| NamedAt(members, names, lower, i, index);
    var wish := Wanted(members, i, lower);
    assert Stem(members[i]) + Counter(SameStem(members[..i], lower(Stem(members[i])), lower) + 1)
        == Stem(members[i]) + " (" + Decimal(SameStem(members[..i], lower(Stem(members[i])), lower) + 1) + ")";
    assert index > 0 ==> lower(Variant(wish, 0)) in UsedNames(names[..i], lower);
  }

  function NamesOf(pairs: seq<(Member, string)>): (r: seq<string>)
    ensures |r| == |pairs| && forall i | 0 <= i < |pairs| :: r[i] == pairs[i].1
  {
    if pairs == [] then [] else NamesOf(pairs[..|pairs| - 1]) + [pairs[|pairs| - 1].1]
  }

  function Count(positions: map<string, nat>, key: string): nat { if key in positions then positions[key] else 0 }

  /** Every playlist member in archive order, each with its name. */
  method ZipPlaylistNames(members: seq<Member>, lower: string -> string) returns (pairs: seq<(Member, string)>)
    requires KeepsCounters(lower)
    ensures |pairs| == |members| && forall i | 0 <= i < |members| :: pairs[i].0 == members[i]
    ensures NamedInOrder(members, NamesOf(pairs), lower)
  {
    hide FirstFreeAt, Variant, SameStem, UsedNames, NamedInOrder, Counter, Stem;
    assert NamedInOrder([], [], lower) && UsedNames([], lower) == {} && forall key :: SameStem([], key, lower) == 0 by {
      NoMembers(lower);
    }
    var stemPositions: map<string, nat> := map[];
    var usedNames: set<string> := {};
    ghost var names: seq<string> := [];
    pairs := [];
    assert members[..0] == [];
    for i := 0 to |members|
      invariant |pairs| == |names| == i
      invariant forall k | 0 <= k < i :: pairs[k] == (members[k], names[k])
      invariant usedNames == UsedNames(names, lower)
      invariant forall key :: Count(stemPositions, key) == SameStem(members[..i], key, lower)
      invariant NamedInOrder(members[..i], names, lower)
    {
      var stem := Stem(members[i]);
      var key := lower(stem);
      var position := Count(stemPositions, key) + 1;
      ghost var before := stemPositions;
      stemPositions := stemPositions[key := position];
      assert forall k :: Count(stemPositions, k) == if k == key then position else Count(before, k);
      var name :=
        if position == 1 then stem
        else if members[i].folder != "" then members[i].folder + " " + stem
        else stem + Counter(position);
      var free := UniqueArchivePlaylistName(name, usedNames, lower);
      ghost var index: nat :| free == Variant(name, index) && FirstFreeAt(name, usedNames, lower, index);
      OneMoreName(members, i, names, free, lower, index);
      UsedOneMore(names, free, lower);
      CountOneMore(members, i, lower);
      pairs := pairs + [(members[i], free)];
      names := names + [free];
      usedNames := usedNames + {lower(free)};
    }
    assert members[..|members|] == members;
    assert names == NamesOf(pairs);
  }

  lemma NoMembers(lower: string -> string)
    ensures NamedInOrder([], [], lower) && UsedNames([], lower) == {} && forall key :: SameStem([], key, lower) == 0
  {
  }

  lemma CountOneMore(members: seq<Member>, i: nat, lower: string -> string)
    requires i < |members|
    ensures forall key :: SameStem(members[..i + 1], key, lower)
                          == SameStem(members[..i], key, lower) + if lower(Stem(members[i])) == key then 1 else 0
  {
    assert members[..i + 1][..i] == members[..i];
  }

  lemma OneMoreName(members: seq<Member>, i: nat, names: seq<string>, free: string, lower: string -> string, index: nat)
    requires i < |members| && NamedInOrder(members[..i], names, lower)
    requires free == Variant(Wanted(members, i, lower), index)
    requires FirstFreeAt(Wanted(members, i, lower), UsedNames(names, lower), lower, index)
    ensures NamedInOrder(members[..i + 1], names + [free], lower)
  {
    hide FirstFreeAt, Variant, SameStem, UsedNames;
    var more, all := members[..i + 1], names + [free];
    forall k: nat | k < |all| ensures Named(more, all, lower, k) {
      assert more[..k] == members[..k];
      if k < i {
        assert all[..k] == names[..k] && members[..i][..k] == members[..k];
        assert Named(members[..i], names, lower, k);
        var n: nat :| NamedAt(members[..i], names, lower, k, n);
        assert NamedAt(more, all, lower, k, n);
      } else {
        assert all[..k] == names;
        assert NamedAt(more, all, lower, k, index);
      }
    }
  }

  lemma UsedOneMore(names: seq<string>, free: string, lower: string -> string)
    ensures UsedNames(names + [free], lower) == UsedNames(names, lower) + {lower(free)}
  {
    var all := names + [free];
    forall s ensures s in UsedNames(all, lower) <==> s in UsedNames(names, lower) + {lower(free)} {
      if s in UsedNames(names, lower) {
        var k :| 0 <= k < |names| && lower(names[k]) == s;
        assert all[k] == names[k];
      }
      if s == lower(free) {
        assert all[|names|] == free;
      }
    }
  }
}
