/**
 Line splitting of the downloader's two output pipes: text arrives in arbitrary
 chunks, a line ends at CR or LF, and blank lines are dropped. `strip` stands for
 str.strip; all that is needed of it is Strips.
 */
module OutputLines {
  type Stream = nat

  ghost predicate Strips(strip: string -> string) {
    strip("") == "" && forall s :: strip(strip(s)) == strip(s)
  }

  /** A text split at newlines: the parts a newline ended, and the rest. */
  datatype Parts = Parts(done: seq<string>, open: string) {
    function All(): seq<string> { done + [open] }
  }

  /** str.split("\n"), one character after the other. */
  function Split(s: string): Parts {
    if s == "" then Parts([], "")
    else
      var p, c := Split(s[..|s| - 1]), s[|s| - 1];
      if c == '\n' then Parts(p.done + [p.open], "") else Parts(p.done, p.open + [c])
  }

  /** The parts joined with newlines. */
  function Join(p: Parts): string
    decreases |p.done|
  {
    if p.done == [] then p.open
    else Join(Parts(p.done[..|p.done| - 1], p.done[|p.done| - 1])) + "\n" + p.open
  }

  predicate NoBreak(s: string) { forall i | 0 <= i < |s| :: s[i] != '\n' }

  lemma JoinGrows(p: Parts, c: char)
    ensures Join(Parts(p.done, p.open + [c])) == Join(p) + [c]
    ensures Join(Parts(p.done + [p.open], "")) == Join(p) + "\n"
  {
    assert (p.done + [p.open])[..|p.done|] == p.done;
    if p.done != [] {
      var before := Join(Parts(p.done[..|p.done| - 1], p.done[|p.done| - 1])) + "\n";
      assert before + (p.open + [c]) == (before + p.open) + [c];
    }
  }

  /** No part contains a newline. */
  ghost predicate PartsUnbroken(p: Parts) {
    NoBreak(p.open) && forall i | 0 <= i < |p.done| :: NoBreak(p.done[i])
  }

  lemma {:induction false} SplitInvertsJoin(s: string)
    ensures Join(Split(s)) == s && PartsUnbroken(Split(s))
  {
    if s == "" {
      assert Split(s) == Parts([], "");
    } else {
      var init, c := s[..|s| - 1], s[|s| - 1];
      SplitInvertsJoin(init);
      OneMoreCharacter(init, c);
      assert s == init + [c];
    }
  }

  lemma OneMoreCharacter(s: string, c: char)
    requires Join(Split(s)) == s && PartsUnbroken(Split(s))
    ensures Join(Split(s + [c])) == s + [c] && PartsUnbroken(Split(s + [c]))
  {
    SplitGrows(s, c);
    JoinGrows(Split(s), c);
    StaysUnbroken(Split(s), c);
    hide Join, Split, PartsUnbroken, NoBreak;
  }

  lemma SplitGrows(s: string, c: char)
    ensures var p := Split(s);
            Split(s + [c]) == if c == '\n' then Parts(p.done + [p.open], "") else Parts(p.done, p.open + [c])
  {
    assert (s + [c])[..|s|] == s;
  }

  lemma StaysUnbroken(p: Parts, c: char)
    requires PartsUnbroken(p)
    ensures PartsUnbroken(Parts(p.done + [p.open], "")) && (c != '\n' ==> PartsUnbroken(Parts(p.done, p.open + [c])))
  {
  }

  /** str.replace("\r", "\n"). */
  function Normalize(s: string): (r: string)
    ensures |r| == |s| && forall i | 0 <= i < |s| :: r[i] == if s[i] == '\r' then '\n' else s[i]
  {
    if s == "" then "" else Normalize(s[..|s| - 1]) + [if s[|s| - 1] == '\r' then '\n' else s[|s| - 1]]
  }

  /** The lines that are not blank, stripped. */
  function Lines(parts: seq<string>, strip: string -> string): seq<string> {
    if parts == [] then []
    else
      var line := strip(parts[|parts| - 1]);
      Lines(parts[..|parts| - 1], strip) + if line == "" then [] else [line]
  }

  // ---------- splitting in two steps ----------

  lemma {:induction false} OnePart(s: string)
    requires NoBreak(s)
    ensures Split(s) == Parts([], s)
  {
    if s != "" {
      OnePart(s[..|s| - 1]);
      assert s[..|s| - 1] + [s[|s| - 1]] == s;
    }
  }

  /** What is complete in a stays complete; what is open continues with b. */
  lemma {:induction false} SplitOn(a: string, b: string)
    ensures var p := Split(a); var q := Split(p.open + b);
            Split(a + b) == Parts(p.done + q.done, q.open)
  {
    var p := Split(a);
    if b == "" {
      SplitInvertsJoin(a);
      OnePart(p.open);
      assert a + b == a && p.open + b == p.open;
    } else {
      var init, c := b[..|b| - 1], b[|b| - 1];
      SplitOn(a, init);
      assert (a + b)[..|a + b| - 1] == a + init && (p.open + b)[..|p.open + b| - 1] == p.open + init;
      assert (a + b)[|a + b| - 1] == c && (p.open + b)[|p.open + b| - 1] == c;
    }
  }

  lemma {:induction false} LinesAppend(a: seq<string>, b: seq<string>, strip: string -> string)
    ensures Lines(a + b, strip) == Lines(a, strip) + Lines(b, strip)
  {
    if b == [] {
      assert a + b == a;
    } else {
      LinesAppend(a, b[..|b| - 1], strip);
      assert (a + b)[..|a + b| - 1] == a + b[..|b| - 1];
    }
  }

  /** One part is one line without its blanks, or none if there is nothing else. */
  lemma OneLine(part: string, strip: string -> string)
    ensures strip(part) != "" ==> Lines([part], strip) == [strip(part)]
    ensures strip(part) == "" ==> Lines([part], strip) == []
  {
    assert [part][..0] == [];
  }

  lemma NormalizeAppend(a: string, b: string)
    ensures Normalize(a + b) == Normalize(a) + Normalize(b)
  {
  }

  /** Reading b after a: the newly completed lines, and the new open part. */
  lemma ReadOn(a: string, b: string, strip: string -> string)
    ensures var p := Split(a); var q := Split(p.open + b);
            Split(a + b).open == q.open &&
                Lines(Split(a + b).done, strip) == Lines(p.done, strip) + Lines(q.done, strip)
  {
    SplitOn(a, b);
    LinesAppend(Split(a).done, Split(Split(a).open + b).done, strip);
  }

  lemma WholeText(s: string, strip: string -> string)
    ensures Lines(Split(s).All(), strip)
            == Lines(Split(s).done, strip) + (if strip(Split(s).open) == "" then [] else [strip(Split(s).open)])
  {
    assert Split(s).All()[..|Split(s).done|] == Split(s).done;
  }

  // ---------- the reader ----------

  /** A read of one pipe: some text, or the end of the pipe. */
  datatype Read = Text(stream: Stream, text: string) | End(stream: Stream)

  datatype Handled = Handled(stream: Stream, line: string)

  /** The lines one stream has handed over, in order. */
  function Of(log: seq<Handled>, s: Stream): seq<string> {
    if log == [] then []
    else Of(log[..|log| - 1], s) + if log[|log| - 1].stream == s then [log[|log| - 1].line] else []
  }

  lemma OfAppend(log: seq<Handled>, h: Handled, s: Stream)
    ensures Of(log + [h], s) == Of(log, s) + if h.stream == s then [h.line] else []
  {
    assert (log + [h])[..|log|] == log;
  }

  /** All text read of a stream before its end. */
  function TextOf(arrivals: seq<Read>, s: Stream): string {
    if arrivals == [] then ""
    else
      var before, last := TextOf(arrivals[..|arrivals| - 1], s), arrivals[|arrivals| - 1];
      if last.Text? && last.stream == s && !Ended(arrivals[..|arrivals| - 1], s) then before + last.text else before
  }

  predicate Ended(arrivals: seq<Read>, s: Stream) { End(s) in arrivals }

  /** The lines a stream's text so far has completed, what is still open, and all its lines once it ends. */
  function Settled(arrivals: seq<Read>, s: Stream, strip: string -> string): seq<string> {
    Lines(Split(Normalize(TextOf(arrivals, s))).done, strip)
  }

  function Rest(arrivals: seq<Read>, s: Stream): string { Split(Normalize(TextOf(arrivals, s))).open }

  function AllLines(arrivals: seq<Read>, s: Stream, strip: string -> string): seq<string> {
    Lines(Split(Normalize(TextOf(arrivals, s))).All(), strip)
  }

  lemma OneMoreRead(arrivals: seq<Read>, r: Read)
    ensures forall s :: Ended(arrivals + [r], s) <==> Ended(arrivals, s) || r == End(s)
    ensures forall s :: TextOf(arrivals + [r], s)
                        == TextOf(arrivals, s) + if r.Text? && r.stream == s && !Ended(arrivals, s) then r.text else ""
  {
    assert (arrivals + [r])[..|arrivals|] == arrivals;
  }

  lemma OtherStream(arrivals: seq<Read>, r: Read, t: Stream, strip: string -> string)
    requires r.stream != t || Ended(arrivals, t)
    ensures Settled(arrivals + [r], t, strip) == Settled(arrivals, t, strip) &&
            Rest(arrivals + [r], t) == Rest(arrivals, t)
    ensures AllLines(arrivals + [r], t, strip) == AllLines(arrivals, t, strip)
    ensures Ended(arrivals + [r], t) == Ended(arrivals, t)
  {
    OneMoreRead(arrivals, r);
  }

  lemma MoreText(arrivals: seq<Read>, s: Stream, text: string, strip: string -> string)
    requires !Ended(arrivals, s)
    ensures var all := arrivals + [Text(s, text)]; var parts := Split(Rest(arrivals, s) + Normalize(text));
            && Settled(all, s, strip) == Settled(arrivals, s, strip) + Lines(parts.done, strip)
            && Rest(all, s) == parts.open
            && !Ended(all, s)
  {
    OneMoreRead(arrivals, Text(s, text));
    NormalizeAppend(TextOf(arrivals, s), text);
    ReadOn(Normalize(TextOf(arrivals, s)), Normalize(text), strip);
  }

  lemma StreamEnds(arrivals: seq<Read>, s: Stream, strip: string -> string)
    ensures AllLines(arrivals, s, strip)
            == Settled(arrivals, s, strip) + (if strip(Rest(arrivals, s)) == "" then [] else [strip(Rest(arrivals, s))])
    ensures AllLines(arrivals + [End(s)], s, strip) == AllLines(arrivals, s, strip) && Ended(arrivals + [End(s)], s)
  {
    WholeText(Normalize(TextOf(arrivals, s)), strip);
    OneMoreRead(arrivals, End(s));
  }

  class DownloadOutput {
    const pipes: set<Stream>
    var streams: set<Stream>
    var buffers: map<Stream, string>
    var handled: seq<Handled>

    constructor (pipes: set<Stream>)
      ensures this.pipes == pipes && streams == pipes && buffers == (map s | s in pipes :: "") && handled == []
    {
      this.pipes := pipes;
      streams, buffers, handled := pipes, map s | s in pipes :: "", [];
    }

    /** The callback: blank lines are dropped. */
    method HandleOutputLine(s: Stream, text: string, strip: string -> string)
      modifies this`handled
      ensures handled == if strip(text) == "" then old(handled) else old(handled) + [Handled(s, strip(text))]
    {
      var line := strip(text);
      if line == "" { return; }
      handled := handled + [Handled(s, line)];
    }

    /** Everything the arrivals so far settled has been handed over; the rest waits in the buffer. */
    ghost predicate CaughtUp(arrivals: seq<Read>, strip: string -> string, s: Stream)
      reads this
    {
      && (s in streams <==> s in buffers)
      && (s in streams ==> !Ended(arrivals, s) && buffers[s] == Rest(arrivals, s)
                           && Of(handled, s) == Settled(arrivals, s, strip))
      && (s !in streams ==> Ended(arrivals, s) && Of(handled, s) == AllLines(arrivals, s, strip))
    }

    ghost predicate AllCaughtUp(arrivals: seq<Read>, strip: string -> string)
      reads this
    {
      streams <= pipes && forall s | s in pipes :: CaughtUp(arrivals, strip, s)
    }

    /** Hand over the completed parts of one buffer. */
    method HandleParts(s: Stream, parts: seq<string>, strip: string -> string)
      modifies this`handled
      ensures Of(handled, s) == old(Of(handled, s)) + Lines(parts, strip)
      ensures forall t | t != s :: Of(handled, t) == old(Of(handled, t))
    {
      for i := 0 to |parts|
        invariant Of(handled, s) == old(Of(handled, s)) + Lines(parts[..i], strip)
        invariant forall t | t != s :: Of(handled, t) == old(Of(handled, t))
      {
        ghost var before := handled;
        HandleOutputLine(s, parts[i], strip);
        assert parts[..i + 1][..i] == parts[..i];
        forall t
          ensures handled != before ==> Of(handled, t) == Of(before, t) + if t == s then [strip(parts[i])] else []
        {
          if handled != before { OfAppend(before, Handled(s, strip(parts[i])), t); }
        }
      }
      assert parts[..|parts|] == parts;
    }

    method Receive(s: Stream, text: string, strip: string -> string, ghost arrivals: seq<Read>)
      requires s in streams && AllCaughtUp(arrivals, strip)
      modifies this`buffers, this`handled
      ensures AllCaughtUp(arrivals + [Text(s, text)], strip)
    {
      hide Split, Lines, Normalize, TextOf, Ended, Of, Settled, Rest, AllLines;
      ghost var all := arrivals + [Text(s, text)];
      MoreText(arrivals, s, text, strip);
      var parts := Split(buffers[s] + Normalize(text));
      buffers := buffers[s := parts.open];
      HandleParts(s, parts.done, strip);
      forall t | t in pipes ensures CaughtUp(all, strip, t) {
        if t != s { OtherStream(arrivals, Text(s, text), t, strip); }
      }
    }

    /** End of one pipe: its open rest is a last line. */
    method EndOfStream(s: Stream, strip: string -> string, ghost arrivals: seq<Read>)
      requires s in streams && AllCaughtUp(arrivals, strip) && Strips(strip)
      modifies this`buffers, this`streams, this`handled
      ensures AllCaughtUp(arrivals + [End(s)], strip)
    {
      hide Split, Lines, Normalize, TextOf, Ended, Of, Settled, Rest, AllLines;
      ghost var all := arrivals + [End(s)];
      StreamEnds(arrivals, s, strip);
      HandleRest(s, strip);
      buffers, streams := buffers - {s}, streams - {s};
      forall t | t in pipes ensures CaughtUp(all, strip, t) {
        if t != s { OtherStream(arrivals, End(s), t, strip); }
      }
    }

    /** The rest of one buffer, stripped, is handed over unless it is blank. */
    method HandleRest(s: Stream, strip: string -> string)
      requires s in buffers && Strips(strip)
      modifies this`handled
      ensures Of(handled, s) == old(Of(handled, s)) + if strip(buffers[s]) == "" then [] else [strip(buffers[s])]
      ensures forall t | t != s :: Of(handled, t) == old(Of(handled, t))
    {
      var rest := strip(buffers[s]);
      if rest != "" {
        ghost var before := handled;
        HandleOutputLine(s, rest, strip);
        forall t ensures Of(handled, t) == Of(before, t) + if t == s then [rest] else [] {
          OfAppend(before, Handled(s, rest), t);
        }
      }
    }

    /** After the loop, for whatever reason it ended: the rest of every pipe still open. */
    method Flush(strip: string -> string, ghost arrivals: seq<Read>)
      requires AllCaughtUp(arrivals, strip) && Strips(strip)
      modifies this`handled
      ensures forall s | s in pipes :: Of(handled, s) == AllLines(arrivals, s, strip)
    {
      hide Split, Lines, Normalize, TextOf, Ended, Of, Settled, Rest, AllLines;
      var left := streams;
      while left != {}
        invariant left <= streams
        invariant forall s | s in left :: Of(handled, s) == Settled(arrivals, s, strip)
        invariant forall s | s in pipes && s !in left :: Of(handled, s) == AllLines(arrivals, s, strip)
      {
        var s :| s in left;
        assert CaughtUp(arrivals, strip, s);
        StreamEnds(arrivals, s, strip);
        HandleRest(s, strip);
        left := left - {s};
      }
    }

    /** Whatever the chunks and their order, and wherever reading stops: each pipe's lines are those of its
        whole text. */
    method ReadAll(arrivals: seq<Read>, strip: string -> string)
      requires Strips(strip) && streams == pipes && buffers == (map s | s in pipes :: "") && handled == []
      modifies this
      ensures forall s | s in pipes :: Of(handled, s) == AllLines(arrivals, s, strip)
    {
      assert arrivals[..0] == [];
      assert AllCaughtUp([], strip);
      hide Split, Lines, Normalize, TextOf, Ended, Of, Settled, Rest, AllLines;
      for i := 0 to |arrivals|
        invariant AllCaughtUp(arrivals[..i], strip)
      {
        assert arrivals[..i + 1] == arrivals[..i] + [arrivals[i]];
        var s := arrivals[i].stream;
        if s !in streams {
          forall t | t in pipes ensures CaughtUp(arrivals[..i + 1], strip, t) {
            OtherStream(arrivals[..i], arrivals[i], t, strip);
          }
        } else {
          match arrivals[i]
          case Text(_, text) => Receive(s, text, strip, arrivals[..i]);
          case End(_) => EndOfStream(s, strip, arrivals[..i]);
        }
      }
      assert arrivals[..|arrivals|] == arrivals;
      Flush(strip, arrivals);
    }
  }
}
