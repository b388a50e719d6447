/**
 Choosing one release among equally plausible candidates: the provider's year
 narrows the pool, a bounded number of track-count lookups breaks ties, a unique
 best score comes last, and a tie that survives is not guessed.
 */
module ReleaseChoice {
  import opened Wrappers

  const TIEBREAK_MAX: nat := 3

  datatype Candidate = Candidate(id: string, score: int, year: Option<int>)

  /** The detail lookup of one release id; None when it fails or carries no count. */
  type TrackCounts = string -> Option<int>

  function Keep(s: seq<Candidate>, p: Candidate -> bool): seq<Candidate> {
    if s == [] then [] else Keep(s[..|s| - 1], p) + if p(s[|s| - 1]) then [s[|s| - 1]] else []
  }

  lemma {:induction false} KeepMembers(s: seq<Candidate>, p: Candidate -> bool)
    ensures forall c :: c in Keep(s, p) <==> c in s && p(c)
  {
    if s != [] {
      assert s == s[..|s| - 1] + [s[|s| - 1]];
      KeepMembers(s[..|s| - 1], p);
    }
  }

  function TopScore(pool: seq<Candidate>): (r: int)
    requires pool != []
    ensures (exists c :: c in pool && c.score == r) && forall c | c in pool :: c.score <= r
  {
    var last := pool[|pool| - 1];
    assert pool == pool[..|pool| - 1] + [last];
    if |pool| == 1 then last.score
    else
      var rest := TopScore(pool[..|pool| - 1]);
      if last.score > rest then last.score else rest
  }

  function YearPool(candidates: seq<Candidate>, year: Option<int>): (r: seq<Candidate>)
    ensures candidates != [] ==> r != []
  {
    var exact := Keep(candidates, (c: Candidate) => c.year == year);
    if year.None? || exact == [] then candidates else exact
  }

  predicate HasTracks(c: Candidate, numTracks: Option<int>, tracks: TrackCounts) {
    numTracks.Some? && tracks(c.id) == numTracks
  }

  /** The candidates whose looked-up track count is the wanted one; none are looked up in a larger pool. */
  function TrackHits(pool: seq<Candidate>, numTracks: Option<int>, tracks: TrackCounts): seq<Candidate> {
    if numTracks.None? || |pool| > TIEBREAK_MAX then []
    else Keep(pool, (c: Candidate) => HasTracks(c, numTracks, tracks))
  }

  function Best(pool: seq<Candidate>): seq<Candidate>
    requires pool != []
  {
    var top := TopScore(pool);
    Keep(pool, (c: Candidate) => c.score == top)
  }

  /** The sure answer, if there is one. */
  function Choice(candidates: seq<Candidate>, year: Option<int>, numTracks: Option<int>,
                  tracks: TrackCounts): Option<Candidate> {
    if candidates == [] then None
    else if |candidates| == 1 then Some(candidates[0])
    else
      var pool := YearPool(candidates, year);
      var hits := TrackHits(pool, numTracks, tracks);
      if |pool| == 1 then Some(pool[0])
      else if |hits| == 1 then Some(hits[0])
      else if |hits| > 1 || |Best(pool)| != 1 then None
      else Some(Best(pool)[0])
  }

  // ---------- the order of the candidates does not matter ----------

  lemma {:induction false} KeptOften(s: seq<Candidate>, p: Candidate -> bool, c: Candidate)
    ensures multiset(Keep(s, p))[c] == if p(c) then multiset(s)[c] else 0
  {
    if s != [] {
      assert s == s[..|s| - 1] + [s[|s| - 1]];
      KeptOften(s[..|s| - 1], p, c);
    }
  }

  lemma KeepReordered(s: seq<Candidate>, t: seq<Candidate>, p: Candidate -> bool)
    requires multiset(s) == multiset(t)
    ensures multiset(Keep(s, p)) == multiset(Keep(t, p)) && |Keep(s, p)| == |Keep(t, p)|
  {
    forall c ensures multiset(Keep(s, p))[c] == multiset(Keep(t, p))[c] {
      KeptOften(s, p, c);
      KeptOften(t, p, c);
    }
    assert multiset(Keep(s, p)) == multiset(Keep(t, p));
    SameLength(Keep(s, p), Keep(t, p));
  }

  lemma SameLength(s: seq<Candidate>, t: seq<Candidate>)
    requires multiset(s) == multiset(t)
    ensures |s| == |t|
    ensures |s| == 1 ==> s[0] == t[0]
    ensures forall c :: c in s <==> c in t
  {
    assert |s| == |multiset(s)| && |t| == |multiset(t)|;
    forall c ensures c in s <==> c in t {
      assert c in s <==> c in multiset(s);
      assert c in t <==> c in multiset(t);
    }
    if |s| == 1 {
      assert s[0] in s && s[0] in t;
    }
  }

  lemma BestReordered(s: seq<Candidate>, t: seq<Candidate>)
    requires s != [] && t != [] && multiset(s) == multiset(t)
    ensures multiset(Best(s)) == multiset(Best(t))
  {
    SameLength(s, t);
    var top := TopScore(s);
    assert top == TopScore(t);
    KeepReordered(s, t, (c: Candidate) => c.score == top);
  }

  lemma PoolReordered(s: seq<Candidate>, t: seq<Candidate>, year: Option<int>)
    requires multiset(s) == multiset(t)
    ensures multiset(YearPool(s, year)) == multiset(YearPool(t, year))
  {
    KeepReordered(s, t, (c: Candidate) => c.year == year);
  }

  lemma HitsReordered(s: seq<Candidate>, t: seq<Candidate>, numTracks: Option<int>, tracks: TrackCounts)
    requires multiset(s) == multiset(t)
    ensures multiset(TrackHits(s, numTracks, tracks)) == multiset(TrackHits(t, numTracks, tracks))
  {
    SameLength(s, t);
    KeepReordered(s, t, (c: Candidate) => HasTracks(c, numTracks, tracks));
  }

  /** Any reordering of the candidates leads to the same answer. */
  lemma OrderDoesNotMatter(s: seq<Candidate>, t: seq<Candidate>, year: Option<int>, numTracks: Option<int>,
                           tracks: TrackCounts)
    requires multiset(s) == multiset(t)
    ensures Choice(s, year, numTracks, tracks) == Choice(t, year, numTracks, tracks)
  {
    hide YearPool, TrackHits, Best;
    SameLength(s, t);
    if s != [] {
      var p, q := YearPool(s, year), YearPool(t, year);
      PoolReordered(s, t, year);
      SameLength(p, q);
      HitsReordered(p, q, numTracks, tracks);
      SameLength(TrackHits(p, numTracks, tracks), TrackHits(q, numTracks, tracks));
      BestReordered(p, q);
      SameLength(Best(p), Best(q));
    }
  }

  // ---------- what a sure answer means ----------

  /** Place i is the only one in s whose candidate satisfies p. */
  ghost predicate OnlyAt(s: seq<Candidate>, p: Candidate -> bool, i: nat) {
    i < |s| && p(s[i]) && forall j | 0 <= j < |s| && p(s[j]) :: j == i
  }

  ghost predicate Sole(s: seq<Candidate>, p: Candidate -> bool, c: Candidate) {
    exists i: nat :: OnlyAt(s, p, i) && s[i] == c
  }

  ghost predicate Several(s: seq<Candidate>, p: Candidate -> bool) {
    exists i, j :: 0 <= i < j < |s| && p(s[i]) && p(s[j])
  }

  lemma {:induction false} KeepCounts(s: seq<Candidate>, p: Candidate -> bool)
    ensures Keep(s, p) == [] <==> forall i | 0 <= i < |s| :: !p(s[i])
    ensures |Keep(s, p)| == 1 <==> exists i: nat :: OnlyAt(s, p, i)
    ensures |Keep(s, p)| == 1 ==> Sole(s, p, Keep(s, p)[0])
    ensures |Keep(s, p)| > 1 <==> Several(s, p)
  {
    if s != [] {
      var init, last := s[..|s| - 1], |s| - 1;
      KeepCounts(init, p);
      assert forall i | 0 <= i < |init| :: init[i] == s[i];
      if p(s[last]) {
        if |Keep(init, p)| == 0 {
          assert OnlyAt(s, p, last);
        } else if |Keep(init, p)| == 1 {
          var i: nat :| OnlyAt(init, p, i);
          assert p(s[i]) && i < last;
        }
      } else {
        forall i: nat ensures OnlyAt(init, p, i) <==> OnlyAt(s, p, i) {}
      }
    }
  }

  /** The year keeps c: it is c's own, or no candidate has it. */
  predicate Eligible(candidates: seq<Candidate>, year: Option<int>, c: Candidate) {
    year.Some? && (exists d :: d in candidates && d.year == year) ==> c.year == year
  }

  function ByYear(candidates: seq<Candidate>, year: Option<int>): Candidate -> bool {
    (c: Candidate) => Eligible(candidates, year, c)
  }

  function ByTracks(candidates: seq<Candidate>, year: Option<int>, numTracks: Option<int>,
                    tracks: TrackCounts): Candidate -> bool {
    (c: Candidate) => Eligible(candidates, year, c) && HasTracks(c, numTracks, tracks)
  }

  function ByScore(candidates: seq<Candidate>, year: Option<int>): Candidate -> bool {
    (c: Candidate) =>
      && Eligible(candidates, year, c)
      && forall d | d in candidates && Eligible(candidates, year, d) :: d.score <= c.score
  }

  /** Track counts are asked for at all: wanted, and few enough candidates left. */
  predicate Consulted(candidates: seq<Candidate>, year: Option<int>, numTracks: Option<int>) {
    numTracks.Some? && |Keep(candidates, ByYear(candidates, year))| <= TIEBREAK_MAX
  }

  lemma {:induction false} KeepAlike(s: seq<Candidate>, p: Candidate -> bool, q: Candidate -> bool)
    requires forall c | c in s :: p(c) == q(c)
    ensures Keep(s, p) == Keep(s, q)
  {
    if s != [] {
      KeepAlike(s[..|s| - 1], p, q);
    }
  }

  lemma {:induction false} KeepTwice(s: seq<Candidate>, p: Candidate -> bool, q: Candidate -> bool,
                                     both: Candidate -> bool)
    requires forall c | c in s :: both(c) == (p(c) && q(c))
    ensures Keep(Keep(s, p), q) == Keep(s, both)
  {
    if s != [] {
      var init, last := s[..|s| - 1], s[|s| - 1];
      KeepTwice(init, p, q, both);
      assert Keep(s, both) == Keep(init, both) + if both(last) then [last] else [];
      if p(last) {
        assert Keep(s, p) == Keep(init, p) + [last];
        KeepAppend(Keep(init, p), last, q);
      } else {
        assert Keep(s, p) == Keep(init, p);
      }
    }
  }

  lemma KeepAppend(s: seq<Candidate>, c: Candidate, p: Candidate -> bool)
    ensures Keep(s + [c], p) == Keep(s, p) + if p(c) then [c] else []
  {
    assert (s + [c])[..|s|] == s;
  }

  lemma {:induction false} KeepAll(s: seq<Candidate>, p: Candidate -> bool)
    requires forall c | c in s :: p(c)
    ensures Keep(s, p) == s
  {
    if s != [] {
      KeepAll(s[..|s| - 1], p);
      assert s == s[..|s| - 1] + [s[|s| - 1]];
    }
  }

  lemma PoolIsByYear(candidates: seq<Candidate>, year: Option<int>)
    ensures YearPool(candidates, year) == Keep(candidates, ByYear(candidates, year))
  {
    var own := (c: Candidate) => c.year == year;
    KeepMembers(candidates, own);
    if year.None? || Keep(candidates, own) == [] {
      assert forall c | c in candidates :: year.Some? ==> c.year != year by {
        forall c | c in candidates && year.Some? ensures c.year != year {
          assert c in Keep(candidates, own) <==> own(c);
        }
      }
      KeepAll(candidates, ByYear(candidates, year));
    } else {
      var d := Keep(candidates, own)[0];
      assert d in Keep(candidates, own);
      KeepAlike(candidates, own, ByYear(candidates, year));
    }
  }

  lemma HitsAreByTracks(candidates: seq<Candidate>, year: Option<int>, numTracks: Option<int>, tracks: TrackCounts)
    ensures TrackHits(YearPool(candidates, year), numTracks, tracks)
            == if Consulted(candidates, year, numTracks)
               then Keep(candidates, ByTracks(candidates, year, numTracks, tracks)) else []
  {
    PoolIsByYear(candidates, year);
    KeepTwice(candidates, ByYear(candidates, year), (c: Candidate) => HasTracks(c, numTracks, tracks),
              ByTracks(candidates, year, numTracks, tracks));
  }

  lemma BestIsByScore(candidates: seq<Candidate>, year: Option<int>)
    requires candidates != []
    ensures Best(YearPool(candidates, year)) == Keep(candidates, ByScore(candidates, year))
  {
    PoolIsByYear(candidates, year);
    var pool := YearPool(candidates, year);
    var top := TopScore(pool);
    KeepMembers(candidates, ByYear(candidates, year));
    KeepTwice(candidates, ByYear(candidates, year), (c: Candidate) => c.score == top, ByScore(candidates, year));
  }

  /** Choice, with each pool in terms of the candidates themselves. */
  lemma ChoiceBySignals(candidates: seq<Candidate>, year: Option<int>, numTracks: Option<int>, tracks: TrackCounts)
    ensures var pool := Keep(candidates, ByYear(candidates, year));
            var hits := Keep(candidates, ByTracks(candidates, year, numTracks, tracks));
            var best := Keep(candidates, ByScore(candidates, year));
            Choice(candidates, year, numTracks, tracks) ==
              if |pool| == 1 then Some(pool[0])
              else if Consulted(candidates, year, numTracks) && hits != [] then
                if |hits| == 1 then Some(hits[0]) else None
              else if |best| == 1 then Some(best[0]) else None
  {
    if candidates == [] {
      return;
    }
    if |candidates| == 1 {
      KeepAll(candidates, ByYear(candidates, year));
      return;
    }
    PoolIsByYear(candidates, year);
    HitsAreByTracks(candidates, year, numTracks, tracks);
    BestIsByScore(candidates, year);
    hide YearPool, TrackHits, Best, ByYear, ByTracks, ByScore, Keep, Consulted;
  }

  /** The first signal that says anything decides, and it must single out one place: the year alone,
      then the track count if any eligible candidate has it, then the best score. Otherwise nothing is chosen.
      A single candidate is its year's sole survivor whatever its year. */
  lemma SureAnswerIsSoleSurvivor(candidates: seq<Candidate>, year: Option<int>, numTracks: Option<int>,
                                 tracks: TrackCounts, c: Candidate)
    ensures var byYear := ByYear(candidates, year);
            var byTracks := ByTracks(candidates, year, numTracks, tracks);
            Choice(candidates, year, numTracks, tracks) == Some(c) <==>
              if exists d :: Sole(candidates, byYear, d) then Sole(candidates, byYear, c)
              else if Consulted(candidates, year, numTracks) && exists d :: d in candidates && byTracks(d) then
                Sole(candidates, byTracks, c)
              else Sole(candidates, ByScore(candidates, year), c)
  {
    hide *;
    ChoiceBySignals(candidates, year, numTracks, tracks);
    SoleIsKept(candidates, ByYear(candidates, year), c);
    SoleIsKept(candidates, ByTracks(candidates, year, numTracks, tracks), c);
    SoleIsKept(candidates, ByScore(candidates, year), c);
  }

  lemma SoleIsKept(s: seq<Candidate>, p: Candidate -> bool, c: Candidate)
    ensures Sole(s, p, c) <==> Keep(s, p) == [c]
    ensures (exists d :: Sole(s, p, d)) <==> |Keep(s, p)| == 1
    ensures (exists d :: d in s && p(d)) <==> Keep(s, p) != []
  {
    KeepCounts(s, p);
    KeepMembers(s, p);
    forall d | Sole(s, p, d) ensures Keep(s, p) == [d] {
      assert Sole(s, p, Keep(s, p)[0]);
    }
    if Keep(s, p) != [] {
      assert Keep(s, p)[0] in Keep(s, p);
    }
  }

  // ---------- the chooser ----------

  /** The release details of the provider; every lookup is noted. */
  class ReleaseDetails {
    const tracks: TrackCounts
    var asked: seq<string>

    constructor (tracks: TrackCounts)
      ensures this.tracks == tracks && asked == []
    {
      this.tracks, asked := tracks, [];
    }

    method CountTracks(id: string) returns (count: Option<int>)
      modifies this`asked
      ensures count == tracks(id) && asked == old(asked) + [id]
    {
      asked := asked + [id];
      return tracks(id);
    }
  }

  function Ids(pool: seq<Candidate>): (ids: seq<string>)
    ensures |ids| == |pool| && forall i | 0 <= i < |ids| :: ids[i] == pool[i].id
  {
    seq(|pool|, i requires 0 <= i < |pool| => pool[i].id)
  }

  /** One detail lookup per candidate of the pool. */
  method LookUpTracks(pool: seq<Candidate>, numTracks: Option<int>, details: ReleaseDetails)
    returns (hits: seq<Candidate>)
    requires numTracks.Some? && |pool| <= TIEBREAK_MAX
    modifies details`asked
    ensures hits == TrackHits(pool, numTracks, details.tracks) && details.asked == old(details.asked) + Ids(pool)
  {
    hits := [];
    ghost var wanted := (c: Candidate) => HasTracks(c, numTracks, details.tracks);
    for i := 0 to |pool|
      invariant hits == Keep(pool[..i], wanted)
      invariant details.asked == old(details.asked) + Ids(pool[..i])
    {
      KeepAppend(pool[..i], pool[i], wanted);
      assert pool[..i + 1] == pool[..i] + [pool[i]];
      var count := details.CountTracks(pool[i].id);
      assert Ids(pool[..i + 1]) == Ids(pool[..i]) + [pool[i].id];
      if count.Some? && count == numTracks { hits := hits + [pool[i]]; }
    }
    assert pool[..|pool|] == pool;
  }

  /** Whose details are looked up: nobody's, or those of the few the year leaves. */
  function LookedUp(candidates: seq<Candidate>, year: Option<int>, numTracks: Option<int>): (pool: seq<Candidate>)
    ensures |pool| <= TIEBREAK_MAX && |pool| != 1 && (pool != [] ==> numTracks.Some?)
    ensures forall c | c in pool :: c in candidates
  {
    var pool := Keep(candidates, ByYear(candidates, year));
    KeepMembers(candidates, ByYear(candidates, year));
    if |candidates| > 1 && numTracks.Some? && 1 < |pool| <= TIEBREAK_MAX then pool else []
  }

  /** The answer, and whether it is sure. */
  method DisambiguateReleaseCandidates(candidates: seq<Candidate>, year: Option<int>, numTracks: Option<int>,
                                       details: ReleaseDetails)
    returns (chosen: Option<Candidate>, confident: bool)
    modifies details`asked
    ensures chosen == Choice(candidates, year, numTracks, details.tracks) && confident == chosen.Some?
    ensures details.asked == old(details.asked) + Ids(LookedUp(candidates, year, numTracks))
  {
    hide Keep, ByYear, YearPool, TopScore, TrackHits;
    ghost var tracks := details.tracks;
    if candidates == [] { return None, false; }
    if |candidates| == 1 { return Some(candidates[0]), true; }
    PoolIsByYear(candidates, year);
    var pool := YearPool(candidates, year);
    if |pool| == 1 { return Some(pool[0]), true; }
    if numTracks.Some? && |pool| <= TIEBREAK_MAX {
      var hits := LookUpTracks(pool, numTracks, details);
      if |hits| == 1 { return Some(hits[0]), true; }
      if |hits| > 1 { return None, false; }
    }
    assert |TrackHits(pool, numTracks, tracks)| == 0 by { NoHits(pool, numTracks, tracks); }
    var top := Best(pool);
    if |top| == 1 { return Some(top[0]), true; }
    return None, false;
  }

  lemma NoHits(pool: seq<Candidate>, numTracks: Option<int>, tracks: TrackCounts)
    ensures numTracks.None? || |pool| > TIEBREAK_MAX ==> TrackHits(pool, numTracks, tracks) == []
  {
  }
}
