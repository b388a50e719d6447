/**
 The extraction loop of an album archive: declared sizes are checked first, and
 then the bytes that really come out of the decompressor are counted, so a
 manipulated size cannot carry an import past its budgets.
 */
module ZipExtractions {
  datatype Ending = EndOfData | ReadError

  /** `chunks` are the sizes of what reading the member really yields, before `ending`. */
  datatype Entry = Entry(filename: string, safe: bool, refused: bool, directory: bool,
                         declared: nat, chunks: seq<nat>, ending: Ending)

  datatype Result = Completed | LimitExceeded | Unreadable

  function Sum(s: seq<nat>): nat {
    if s == [] then 0 else Sum(s[..|s| - 1]) + s[|s| - 1]
  }

  ghost predicate AllAtMost(s: seq<nat>, max: nat) { forall i | 0 <= i < |s| :: s[i] <= max }

  /** Each item within its own limit, and all of them together within the total. */
  ghost predicate Fits(s: seq<nat>, maxItem: nat, maxTotal: nat) { AllAtMost(s, maxItem) && Sum(s) <= maxTotal }

  lemma FitsAppend(s: seq<nat>, n: nat, maxItem: nat, maxTotal: nat)
    ensures Sum(s + [n]) == Sum(s) + n
    ensures Fits(s + [n], maxItem, maxTotal) <==> Fits(s, maxItem, maxTotal) && n <= maxItem && Sum(s) + n <= maxTotal
  {
    assert (s + [n])[..|s|] == s;
    assert forall i | 0 <= i < |s| :: (s + [n])[i] == s[i];
    assert (s + [n])[|s|] == n;
  }

  lemma {:induction false} PrefixSum(s: seq<nat>, t: seq<nat>)
    requires s <= t
    ensures Sum(s) <= Sum(t)
    decreases |t|
  {
    if s < t {
      PrefixSum(s, t[..|t| - 1]);
    } else {
      assert s == t;
    }
  }

  lemma FitsPrefix(s: seq<nat>, t: seq<nat>, maxItem: nat, maxTotal: nat)
    requires s <= t && Fits(t, maxItem, maxTotal)
    ensures Fits(s, maxItem, maxTotal)
  {
    PrefixSum(s, t);
  }

  predicate Extracted(e: Entry) { e.safe && !e.refused && !e.directory }

  /** The members whose data is extracted: safe names, no refused kinds, no directories. */
  function Files(members: seq<Entry>): seq<Entry> {
    if members == [] then []
    else
      var last := members[|members| - 1];
      Files(members[..|members| - 1]) + if Extracted(last) then [last] else []
  }

  function Skipped(members: seq<Entry>): seq<string> {
    if members == [] then []
    else
      var last := members[|members| - 1];
      Skipped(members[..|members| - 1]) + if !last.safe || last.refused then [last.filename] else []
  }

  function Sizes(files: seq<Entry>): (r: seq<nat>)
    ensures |r| == |files| && forall i | 0 <= i < |files| :: r[i] == Sum(files[i].chunks)
  {
    if files == [] then [] else Sizes(files[..|files| - 1]) + [Sum(files[|files| - 1].chunks)]
  }

  /** Declared sizes of everything that is not a directory. */
  function Declared(members: seq<Entry>): seq<nat> {
    if members == [] then []
    else
      var last := members[|members| - 1];
      Declared(members[..|members| - 1]) + if last.directory then [] else [last.declared]
  }

  ghost predicate Readable(files: seq<Entry>) { forall i | 0 <= i < |files| :: files[i].ending.EndOfData? }

  lemma FilesAppend(before: seq<Entry>, e: Entry)
    ensures Sizes(before + [e]) == Sizes(before) + [Sum(e.chunks)]
    ensures Readable(before + [e]) <==> Readable(before) && e.ending.EndOfData?
  {
    assert (before + [e])[..|before|] == before;
    assert (before + [e])[|before|] == e;
    assert forall i | 0 <= i < |before| :: (before + [e])[i] == before[i];
  }

  /** One more member: what it adds to the files, the skipped names and the declared sizes. */
  lemma MembersAppend(before: seq<Entry>, e: Entry)
    ensures Files(before + [e]) == if Extracted(e) then Files(before) + [e] else Files(before)
    ensures Skipped(before + [e]) == if !e.safe || e.refused then Skipped(before) + [e.filename] else Skipped(before)
    ensures Declared(before + [e]) == if e.directory then Declared(before) else Declared(before) + [e.declared]
  {
    assert (before + [e])[..|before|] == before;
  }

  lemma {:induction false} MembersPrefix(members: seq<Entry>, k: nat)
    requires k <= |members|
    ensures Files(members[..k]) <= Files(members)
    ensures Declared(members[..k]) <= Declared(members)
    decreases |members| - k
  {
    if k < |members| {
      MembersPrefix(members, k + 1);
      assert members[..k + 1] == members[..k] + [members[k]];
      MembersAppend(members[..k], members[k]);
    } else {
      assert members[..k] == members;
    }
  }

  lemma SizesPrefix(some: seq<Entry>, all: seq<Entry>)
    requires some <= all
    ensures Sizes(some) <= Sizes(all) && (Readable(all) ==> Readable(some))
  {
    assert forall i | 0 <= i < |some| :: some[i] == all[i];
  }

  class ZipExtraction {
    const maxMembers: nat
    const maxTotal: nat
    const maxMember: nat
    // Sizes of the files written completely, and of the one being written.
    var written: seq<nat>
    var partial: nat
    var skipped: seq<string>

    constructor (maxMembers: nat, maxTotal: nat, maxMember: nat)
      ensures this.maxMembers == maxMembers && this.maxTotal == maxTotal && this.maxMember == maxMember
      ensures WithinBudget() && written == [] && partial == 0 && skipped == []
    {
      this.maxMembers, this.maxTotal, this.maxMember := maxMembers, maxTotal, maxMember;
      written, partial, skipped := [], 0, [];
    }

    ghost predicate WithinBudget()
      reads this
    {
      Sum(written) + partial <= maxTotal && AllAtMost(written, maxMember) && partial <= maxMember
    }

    ghost predicate DeclaredFits(members: seq<Entry>) {
      |members| <= maxMembers && Fits(Declared(members), maxMember, maxTotal)
    }

    /** The limits on what the archive says about itself. */
    method CheckZipLimits(members: seq<Entry>) returns (ok: bool)
      ensures ok <==> DeclaredFits(members)
    {
      hide Sum, AllAtMost, Fits, Declared;
      if |members| > maxMembers { return false; }
      var total := 0;
      assert members[..0] == [] && Declared([]) == [] && Sum([]) == 0 &&
             Fits([], maxMember, maxTotal) by { NothingFits(maxMember, maxTotal); }
      for i := 0 to |members|
        invariant total == Sum(Declared(members[..i]))
        invariant Fits(Declared(members[..i]), maxMember, maxTotal)
      {
        var e := members[i];
        assert members[..i + 1] == members[..i] + [e];
        MembersAppend(members[..i], e);
        MembersPrefix(members, i + 1);
        if !e.directory {
          FitsAppend(Declared(members[..i]), e.declared, maxMember, maxTotal);
          if Fits(Declared(members), maxMember, maxTotal) {
            FitsPrefix(Declared(members[..i + 1]), Declared(members), maxMember, maxTotal);
          }
          if e.declared > maxMember { return false; }
          total := total + e.declared;
          if total > maxTotal { return false; }
        }
      }
      assert members[..|members|] == members;
      return true;
    }

    /** One member's data, counted as it comes; nothing of it stays unless all of it fits. At every moment
        the bytes written are within budget. */
    method CopyMemberBounded(e: Entry, remaining: nat) returns (r: Result)
      requires WithinBudget() && partial == 0
      requires remaining <= maxMember && Sum(written) + remaining <= maxTotal
      modifies this`written, this`partial
      ensures WithinBudget() && partial == 0
      ensures r.Completed? <==> e.ending.EndOfData? && Sum(e.chunks) <= remaining
      ensures written == if r.Completed? then old(written) + [Sum(e.chunks)] else old(written)
      ensures r.Unreadable? ==> e.ending.ReadError?
    {
      var count := 0;
      for i := 0 to |e.chunks|
        invariant count == partial == Sum(e.chunks[..i]) <= remaining
        invariant written == old(written) && WithinBudget()
      {
        assert e.chunks[..i + 1] == e.chunks[..i] + [e.chunks[i]];
        FitsAppend(e.chunks[..i], e.chunks[i], maxMember, maxTotal);
        count := count + e.chunks[i];
        if count > remaining {
          PrefixSum(e.chunks[..i + 1], e.chunks);
          partial := 0;
          return LimitExceeded;
        }
        partial := partial + e.chunks[i];
      }
      assert e.chunks[..|e.chunks|] == e.chunks;
      if e.ending.ReadError? {
        partial := 0;
        return Unreadable;
      }
      FitsAppend(written, count, maxMember, maxTotal);
      written, partial := written + [count], 0;
      return Completed;
    }

    /** What really comes out fits: each file its own limit, all of them together the budget. */
    ghost predicate DataFits(members: seq<Entry>) {
      Readable(Files(members)) && Fits(Sizes(Files(members)), maxMember, maxTotal)
    }

    /** Extraction never exceeds a budget, completes exactly when the declared and the real sizes both fit,
        and then has written every file whole and listed every skipped name. */
    method Extract(members: seq<Entry>) returns (r: Result)
      requires written == [] && partial == 0 && skipped == []
      modifies this
      ensures WithinBudget() && partial == 0
      ensures r.Completed? <==> DeclaredFits(members) && DataFits(members)
      ensures r.Completed? ==> written == Sizes(Files(members)) && skipped == Skipped(members)
      ensures written <= Sizes(Files(members))
    {
      hide Sum, AllAtMost, Fits, Readable, Files, Skipped, Declared, Sizes, DataFits, DeclaredFits;
      NothingYet(members);
      var fits := CheckZipLimits(members);
      if !fits { return LimitExceeded; }
      var total := 0;
      for i := 0 to |members|
        invariant WithinBudget() && partial == 0 && total == Sum(written) <= maxTotal
        invariant written == Sizes(Files(members[..i])) && skipped == Skipped(members[..i])
        invariant DataFits(members[..i])
        invariant written <= Sizes(Files(members))
      {
        var e := members[i];
        assert members[..i + 1] == members[..i] + [e];
        MembersSoFar(members, i + 1);
        MembersAppend(members[..i], e);
        if Extracted(e) { DataFitsAppend(members[..i], e); } else { PassedMember(members[..i], e); }
        assert Extracted(e) == (e.safe && !e.refused && !e.directory);
        if !e.safe || e.refused {
          skipped := skipped + [e.filename];
        } else if !e.directory {
          var remaining := if maxTotal - total < maxMember then maxTotal - total else maxMember;
          r := CopyMemberBounded(e, remaining);
          if !r.Completed? { return; }
          total := total + Sum(e.chunks);
        }
      }
      assert members[..|members|] == members;
      return Completed;
    }

    lemma NothingYet(members: seq<Entry>)
      ensures members[..0] == [] && Files([]) == [] && Sizes([]) == [] && Skipped([]) == [] && Sum([]) == 0 &&
              DataFits([])
      ensures [] <= Sizes(Files(members)) && AllAtMost([], maxMember)
    {
    }

    /** A member that does not fit makes the whole not fit. */
    lemma MembersSoFar(members: seq<Entry>, k: nat)
      requires k <= |members|
      ensures Sizes(Files(members[..k])) <= Sizes(Files(members)) && (DataFits(members) ==> DataFits(members[..k]))
    {
      hide *;
      MembersPrefix(members, k);
      DataFitsPrefix(members[..k], members);
    }

    lemma PassedMember(before: seq<Entry>, e: Entry)
      requires !Extracted(e)
      ensures Files(before + [e]) == Files(before) && DataFits(before + [e]) == DataFits(before)
    {
      hide Sum, AllAtMost, Fits, Readable, Files, Skipped, Declared, Sizes, Extracted, DataFits;
      MembersAppend(before, e);
      SameFiles(before, before + [e]);
    }

    lemma SameFiles(before: seq<Entry>, after: seq<Entry>)
      requires Files(before) == Files(after)
      ensures DataFits(before) == DataFits(after)
    {
    }

    lemma DataFitsPrefix(some: seq<Entry>, all: seq<Entry>)
      requires Files(some) <= Files(all)
      ensures Sizes(Files(some)) <= Sizes(Files(all)) && (DataFits(all) ==> DataFits(some))
    {
      hide Sum, AllAtMost, Fits, Readable, Files, Sizes;
      SizesPrefix(Files(some), Files(all));
      if DataFits(all) {
        FitsPrefix(Sizes(Files(some)), Sizes(Files(all)), maxMember, maxTotal);
      }
    }

    lemma DataFitsAppend(before: seq<Entry>, e: Entry)
      requires Extracted(e)
      ensures var after := before + [e];
              && Sizes(Files(after)) == Sizes(Files(before)) + [Sum(e.chunks)]
              && Sum(Sizes(Files(after))) == Sum(Sizes(Files(before))) + Sum(e.chunks)
              && (DataFits(after) <==> DataFits(before) && e.ending.EndOfData? && Sum(e.chunks) <= maxMember
                                       && Sum(Sizes(Files(before))) + Sum(e.chunks) <= maxTotal)
    {
      hide Sum, AllAtMost, Fits, Readable, Files, Sizes;
      MembersAppend(before, e);
      FilesAppend(Files(before), e);
      FitsAppend(Sizes(Files(before)), Sum(e.chunks), maxMember, maxTotal);
    }
  }

  lemma NothingFits(maxItem: nat, maxTotal: nat)
    ensures Declared([]) == [] && Sum([]) == 0 && Fits([], maxItem, maxTotal)
  {
  }
}
