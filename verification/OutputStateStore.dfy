/**
 The revision-checked output state file, shared by any number of writers.

 A writer loads a document, prepares a candidate from it, and commits the
 candidate under an exclusive file lock. Loads and preparations of others may
 fall between any two steps of a commit. A document's content is represented by
 the edits that made it, so losing an update would show.
 */
module OutputStateStore {
  import opened Wrappers

  type Writer = nat
  type Edit = nat

  datatype Doc = Doc(revision: nat, edits: seq<Edit>)

  /** The file is absent, unreadable as a state document, or holds one. */
  datatype File = Missing | Broken | Stored(doc: Doc)

  const DEFAULT_STATE := Doc(0, [])

  /** load(): a missing file reads as the default state, a broken one raises. */
  function Load(f: File): Option<Doc> {
    match f
    case Missing => Some(DEFAULT_STATE)
    case Broken => None
    case Stored(doc) => Some(doc)
  }

  datatype Candidate = Candidate(base: Doc, edit: Edit) {
    /** A candidate keeps the revision it was prepared from. */
    function Prepared(): Doc { Doc(base.revision, base.edits + [edit]) }
  }

  /** How far a writer is: what it loaded, what it prepared, and the steps of its commit. */
  datatype Phase =
    | Idle
    | Holding(base: Doc)
    | Ready(candidate: Candidate)
    | Waiting(candidate: Candidate, expected: nat)
    | Locked(candidate: Candidate, expected: nat)
    | Checked(candidate: Candidate, expected: nat, previous: Doc)

  /** `first` is what the file read as when watching began; `committed` are the commits since then. */
  datatype World = World(file: File, lock: Option<Writer>, phases: map<Writer, Phase>,
                         first: Option<Doc>, committed: seq<Candidate>)

  datatype Step =
    | LoadState(w: Writer)
    | Prepare(w: Writer, edit: Edit)
    | Submit(w: Writer, expected: int, valid: bool)
    | Lock(w: Writer)
    | Check(w: Writer)
    | Write(w: Writer, written: bool)
    | Abandon(w: Writer)

  function PhaseOf(s: World, w: Writer): Phase { if w in s.phases then s.phases[w] else Idle }

  function Move(s: World, w: Writer, p: Phase): World { s.(phases := s.phases[w := p]) }

  /** One step of one writer; a step that is not enabled changes nothing. */
  function Next(s: World, step: Step): World {
    match step
    case LoadState(w) =>
      if PhaseOf(s, w).Idle? && Load(s.file).Some? then Move(s, w, Holding(Load(s.file).value)) else s
    case Prepare(w, edit) =>
      if PhaseOf(s, w).Holding? then Move(s, w, Ready(Candidate(PhaseOf(s, w).base, edit))) else s
    case Submit(w, expected, valid) =>
      if !PhaseOf(s, w).Ready? then s
      else
        var c := PhaseOf(s, w).candidate;
        if !valid || expected < 0 || c.Prepared().revision != expected then Move(s, w, Idle)
        else Move(s, w, Waiting(c, expected))
    case Lock(w) =>
      if PhaseOf(s, w).Waiting? && s.lock.None? then
        Move(s, w, Locked(PhaseOf(s, w).candidate, PhaseOf(s, w).expected)).(lock := Some(w))
      else s
    case Check(w) =>
      if !PhaseOf(s, w).Locked? then s
      else
        var p := PhaseOf(s, w);
        var previous := Load(s.file);
        if previous.None? || previous.value.revision != p.expected then Move(s, w, Idle).(lock := None)
        else Move(s, w, Checked(p.candidate, p.expected, previous.value))
    case Write(w, written) =>
      if !PhaseOf(s, w).Checked? then s
      else
        var p := PhaseOf(s, w);
        var done := Move(s, w, Idle).(lock := None);
        if !written then done
        else done.(file := Stored(p.candidate.Prepared().(revision := p.expected + 1)),
                   committed := s.committed + [p.candidate])
    case Abandon(w) =>
      Move(s, w, Idle).(lock := if s.lock == Some(w) then None else s.lock)
  }

  function Run(s: World, steps: seq<Step>): World {
    if steps == [] then s else Next(Run(s, steps[..|steps| - 1]), steps[|steps| - 1])
  }

  function Start(f: File): World { World(f, None, map[], Load(f), []) }

  // ---------- what is stored ----------

  /** The document after the first i commits: each applies its edit to the one before and bumps the revision. */
  function DocAfter(first: Doc, committed: seq<Candidate>): Doc {
    if committed == [] then first
    else
      var before := DocAfter(first, committed[..|committed| - 1]);
      Doc(before.revision + 1, before.edits + [committed[|committed| - 1].edit])
  }

  /** Every commit was prepared from exactly the document it replaced. */
  ghost predicate Linear(first: Doc, committed: seq<Candidate>) {
    forall i | 0 <= i < |committed| :: committed[i].base == DocAfter(first, committed[..i])
  }

  /** A document some writer may hold: the file read so at some time. */
  ghost predicate WasStored(first: Doc, committed: seq<Candidate>, d: Doc) {
    exists i :: 0 <= i <= |committed| && d == DocAfter(first, committed[..i])
  }

  ghost predicate PhaseSound(s: World, w: Writer, first: Doc) {
    match PhaseOf(s, w)
    case Idle => true
    case Holding(base) => WasStored(first, s.committed, base)
    case Ready(c) => WasStored(first, s.committed, c.base)
    case Waiting(c, expected) => WasStored(first, s.committed, c.base) && c.base.revision == expected
    case Locked(c, expected) => WasStored(first, s.committed, c.base) && c.base.revision == expected &&
        s.lock == Some(w)
    case Checked(c, expected, previous) =>
      && WasStored(first, s.committed, c.base) && c.base.revision == expected && s.lock == Some(w)
      && Load(s.file) == Some(previous) && previous.revision == expected
  }

  ghost predicate Inv(s: World) {
    if s.first.None? then s.file == Broken && s.committed == [] && (forall w :: PhaseOf(s, w).Idle?)
    else
      && Load(s.file) == Some(DocAfter(s.first.value, s.committed))
      && Linear(s.first.value, s.committed)
      && forall w :: PhaseSound(s, w, s.first.value)
  }

  lemma {:induction false} RevisionCounts(first: Doc, committed: seq<Candidate>)
    ensures DocAfter(first, committed).revision == first.revision + |committed|
    ensures |DocAfter(first, committed).edits| == |first.edits| + |committed|
    ensures forall i | 0 <= i < |committed| :: DocAfter(first, committed).edits[|first.edits| + i] == committed[i].edit
    ensures first.edits <= DocAfter(first, committed).edits
  {
    if committed != [] {
      RevisionCounts(first, committed[..|committed| - 1]);
    }
  }

  /** A revision names one document: whoever holds the current revision holds the current document. */
  lemma RevisionNamesDocument(first: Doc, committed: seq<Candidate>, d: Doc)
    requires WasStored(first, committed, d) && d.revision == DocAfter(first, committed).revision
    ensures d == DocAfter(first, committed)
  {
    var i :| 0 <= i <= |committed| && d == DocAfter(first, committed[..i]);
    RevisionCounts(first, committed[..i]);
    RevisionCounts(first, committed);
    assert committed[..|committed|] == committed;
  }

  lemma NowStored(first: Doc, committed: seq<Candidate>)
    ensures WasStored(first, committed, DocAfter(first, committed))
  {
    assert committed[..|committed|] == committed;
  }

  lemma OneMoreCommit(first: Doc, committed: seq<Candidate>, c: Candidate)
    requires Linear(first, committed) && c.base == DocAfter(first, committed)
    ensures Linear(first, committed + [c])
    ensures DocAfter(first, committed + [c]) == c.Prepared().(revision := c.base.revision + 1)
    ensures forall d | WasStored(first, committed, d) :: WasStored(first, committed + [c], d)
  {
    var more := committed + [c];
    assert more[..|committed|] == committed;
    assert forall i | 0 <= i <= |committed| :: more[..i] == committed[..i];
    forall d | WasStored(first, committed, d) ensures WasStored(first, more, d) {
      var i :| 0 <= i <= |committed| && d == DocAfter(first, committed[..i]);
      assert d == DocAfter(first, more[..i]);
    }
  }

  lemma NextKeepsInv(s: World, step: Step)
    requires Inv(s)
    ensures Inv(Next(s, step)) && Next(s, step).first == s.first && s.committed <= Next(s, step).committed
  {
    hide DocAfter, Linear, WasStored;
    var r := Next(s, step);
    assert forall v | v != step.w :: PhaseOf(r, v) == PhaseOf(s, v);
    if s.first.Some? {
      var first := s.first.value;
      NowStored(first, s.committed);
      assert PhaseSound(s, step.w, first);
      if step.Write? && PhaseOf(s, step.w).Checked? && step.written {
        WriteKeepsInv(s, step.w);
      } else {
        forall v ensures PhaseSound(r, v, first) {
          assert PhaseSound(s, v, first);
        }
      }
    }
  }

  lemma WriteKeepsInv(s: World, w: Writer)
    requires Inv(s) && s.first.Some? && PhaseOf(s, w).Checked?
    ensures Inv(Next(s, Write(w, true)))
  {
    hide DocAfter, Linear, WasStored;
    var r, first, p := Next(s, Write(w, true)), s.first.value, PhaseOf(s, w);
    assert PhaseSound(s, w, first);
    RevisionNamesDocument(first, s.committed, p.candidate.base);
    OneMoreCommit(first, s.committed, p.candidate);
    forall v ensures PhaseSound(r, v, first) {
      assert PhaseSound(s, v, first);
    }
  }

  lemma {:induction false} RunKeepsInv(s: World, steps: seq<Step>)
    requires Inv(s)
    ensures Inv(Run(s, steps)) && Run(s, steps).first == s.first
  {
    if steps != [] {
      RunKeepsInv(s, steps[..|steps| - 1]);
      NextKeepsInv(Run(s, steps[..|steps| - 1]), steps[|steps| - 1]);
    }
  }

  /** Over every interleaving: each stored document is its predecessor with one edit more and the next
      revision, was prepared from exactly that predecessor, and the file holds all committed edits in order. */
  lemma NoUpdateIsLost(f: File, steps: seq<Step>, i: nat)
    requires Load(f).Some? && i < |Run(Start(f), steps).committed|
    ensures var first, s := Load(f).value, Run(Start(f), steps);
            && s.committed[i].base == DocAfter(first, s.committed[..i])
            && s.committed[i].base.revision == first.revision + i
            && Load(s.file).Some?
            && Load(s.file).value.revision == first.revision + |s.committed|
            && |Load(s.file).value.edits| == |first.edits| + |s.committed|
            && first.edits <= Load(s.file).value.edits
            && Load(s.file).value.edits[|first.edits| + i] == s.committed[i].edit
  {
    hide Inv, Run, Start, DocAfter, Load;
    var first, s := Load(f).value, Run(Start(f), steps);
    StartInv(f);
    RunKeepsInv(Start(f), steps);
    StoredDocument(s, first, i);
    RevisionCounts(first, s.committed);
    RevisionCounts(first, s.committed[..i]);
  }

  lemma StoredDocument(s: World, first: Doc, i: nat)
    requires Inv(s) && s.first == Some(first) && i < |s.committed|
    ensures Load(s.file) == Some(DocAfter(first, s.committed))
    ensures s.committed[i].base == DocAfter(first, s.committed[..i])
  {
    hide PhaseSound, DocAfter, Load;
  }

  lemma StartInv(f: File)
    ensures Inv(Start(f)) && Start(f).first == Load(f)
  {
    if Load(f).Some? {
      assert forall w :: PhaseSound(Start(f), w, Load(f).value);
    }
  }

  /** Of all candidates prepared from the same revision at most one is ever committed. */
  lemma OneCommitPerRevision(f: File, steps: seq<Step>, i: nat, j: nat)
    requires var committed := Run(Start(f), steps).committed;
             i < |committed| && j < |committed| && committed[i].base.revision == committed[j].base.revision
    ensures i == j
  {
    StartInv(f);
    RunKeepsInv(Start(f), steps);
    if Load(f).Some? {
      NoUpdateIsLost(f, steps, i);
      NoUpdateIsLost(f, steps, j);
    }
  }

  /** A file that cannot be read as a state is never written. */
  lemma BrokenFileIsLeftAlone(steps: seq<Step>)
    ensures Run(Start(Broken), steps).file == Broken && Run(Start(Broken), steps).committed == []
  {
    StartInv(Broken);
    RunKeepsInv(Start(Broken), steps);
  }

  // ---------- the store ----------

  /** The file after one whole commit call. */
  function AfterCommit(f: File, candidate: Doc, valid: bool, expected: int, written: bool): File {
    if valid && written && Load(f).Some? && expected == candidate.revision == Load(f).value.revision then
      Stored(candidate.(revision := expected + 1))
    else f
  }

  /** A commit nobody interrupts is the machine's four commit steps. */
  lemma CommitIsItsSteps(s: World, w: Writer, valid: bool, expected: int, written: bool)
    requires PhaseOf(s, w).Ready? && s.lock.None?
    ensures var r := Next(Next(Next(Next(s, Submit(w, expected, valid)), Lock(w)), Check(w)), Write(w, written));
            && r.file == AfterCommit(s.file, PhaseOf(s, w).candidate.Prepared(), valid, expected, written)
            && PhaseOf(r, w).Idle? && r.lock.None?
  {
    var c := PhaseOf(s, w).candidate;
    var submitted := Next(s, Submit(w, expected, valid));
    if PhaseOf(submitted, w).Waiting? {
      var locked := Next(submitted, Lock(w));
      assert PhaseOf(locked, w) == Locked(c, expected) && locked.file == s.file;
    }
  }

  datatype CommitResult = Committed(doc: Doc) | Conflict | Invalid | Unreadable | WriteFailed

  class OutputStateStore {
    var file: File

    constructor (file: File)
      ensures this.file == file
    {
      this.file := file;
    }

    method ReadState() returns (r: Option<Doc>)
      ensures r == Load(file)
      ensures file.Missing? ==> r == Some(Doc(0, []))
      ensures file.Broken? ==> r.None?
      ensures file.Stored? ==> r == Some(file.doc)
    {
      match file
      case Missing => return Some(DEFAULT_STATE);
      case Broken => return None;
      case Stored(doc) => return Some(doc);
    }

    /** commit() when no other writer steps in: the steps of the machine, one after the other. */
    method Commit(candidate: Doc, valid: bool, expectedRevision: int, written: bool) returns (r: CommitResult)
      modifies this
      ensures file == AfterCommit(old(file), candidate, valid, expectedRevision, written)
      ensures r.Committed? ==>
                && old(Load(file)).Some? && old(Load(file)).value.revision == expectedRevision == candidate.revision
                && r.doc == candidate.(revision := expectedRevision + 1) && file == Stored(r.doc)
      ensures r.Committed? <==> valid && written && Load(old(file)).Some?
                                && expectedRevision == candidate.revision == Load(old(file)).value.revision
      ensures !r.Committed? ==> file == old(file)
      ensures r == Invalid <==> !valid || expectedRevision < 0
      ensures r == Unreadable <==> valid && expectedRevision == candidate.revision && old(file).Broken?
      ensures r == Conflict <==>
                && valid && expectedRevision >= 0
                && (candidate.revision != expectedRevision
                    || (Load(old(file)).Some? && Load(old(file)).value.revision != expectedRevision))
    {
      if !valid { return Invalid; }
      if expectedRevision < 0 { return Invalid; }
      if candidate.revision != expectedRevision { return Conflict; }
      var previous := ReadState();
      if previous.None? { return Unreadable; }
      if previous.value.revision != expectedRevision { return Conflict; }
      if !written { return WriteFailed; }
      file := Stored(candidate.(revision := expectedRevision + 1));
      return Committed(candidate.(revision := expectedRevision + 1));
    }
  }
}
