/**
 The Wi-Fi scan of the web setup: unescaping an SSID, and merging the scan's
 access points into one entry per network.

 A line is taken as what its patterns matched; characters outside ASCII go
 through `utf8`, their encoding.
 */
module WifiScan {
  import opened Wrappers

  // ---------- iw's SSID escapes ----------

  type Byte = b: int | 0 <= b < 256

  function HexValue(c: char): Option<int> {
    if '0' <= c <= '9' then Some(c as int - '0' as int)
    else if 'a' <= c <= 'f' then Some(c as int - 'a' as int + 10)
    else if 'A' <= c <= 'F' then Some(c as int - 'A' as int + 10)
    else None
  }

  predicate HexEscape(s: string) {
    |s| >= 4 && s[0] == '\\' && s[1] == 'x' && HexValue(s[2]).Some? && HexValue(s[3]).Some?
  }

  lemma HexRange(c: char)
    ensures HexValue(c).Some? ==> 0 <= HexValue(c).value < 16
  {
  }

  function HexByte(hi: char, lo: char): Byte
    requires HexValue(hi).Some? && HexValue(lo).Some?
  {
    HexRange(hi);
    HexRange(lo);
    16 * HexValue(hi).value + HexValue(lo).value
  }

  /** The bytes of the rest of the text, escape by escape. */
  function Unescaped(s: string, utf8: char -> seq<Byte>): seq<Byte>
    decreases |s|
  {
    if s == "" then []
    else if HexEscape(s) then [HexByte(s[2], s[3])] + Unescaped(s[4..], utf8)
    else if |s| >= 2 && s[0] == '\\' && s[1] == '\\' then ['\\' as int] + Unescaped(s[2..], utf8)
    else utf8(s[0]) + Unescaped(s[1..], utf8)
  }

  function SsidBytes(value: string, utf8: char -> seq<Byte>): seq<Byte> {
    Unescaped(if value != "" && value[0] == ' ' then value[1..] else value, utf8)
  }

  /** How an escaping may write one byte: as itself, as two hex digits of either case, or a doubled backslash. */
  datatype Unit = Literal(c: char) | Hex(hi: char, lo: char) | Backslash

  predicate Legal(u: Unit) {
    match u
    case Literal(c) => ' ' <= c <= '~' && c != '\\'
    case Hex(hi, lo) => HexValue(hi).Some? && HexValue(lo).Some?
    case Backslash => true
  }

  function UnitText(u: Unit): string {
    match u
    case Literal(c) => [c]
    case Hex(hi, lo) => ['\\', 'x', hi, lo]
    case Backslash => ['\\', '\\']
  }

  function UnitByte(u: Unit): Byte
    requires Legal(u)
  {
    match u
    case Literal(c) => c as int
    case Hex(hi, lo) => HexByte(hi, lo)
    case Backslash => '\\' as int
  }

  function TextOf(units: seq<Unit>): string {
    if units == [] then "" else UnitText(units[0]) + TextOf(units[1..])
  }

  function BytesOf(units: seq<Unit>): seq<Byte>
    requires forall u | u in units :: Legal(u)
  {
    if units == [] then [] else [UnitByte(units[0])] + BytesOf(units[1..])
  }

  ghost predicate KeepsAscii(utf8: char -> seq<Byte>) {
    forall c | ' ' <= c <= '~' :: utf8(c) == [c as int]
  }

  /** Decoding undoes every such escaping. */
  lemma {:induction false} UnescapeInvertsEscape(units: seq<Unit>, utf8: char -> seq<Byte>)
    requires KeepsAscii(utf8) && forall u | u in units :: Legal(u)
    ensures Unescaped(TextOf(units), utf8) == BytesOf(units)
  {
    if units != [] {
      var u, rest := units[0], TextOf(units[1..]);
      UnescapeInvertsEscape(units[1..], utf8);
      assert Legal(u);
      var s := UnitText(u) + rest;
      match u
      case Literal(c) => assert s[0] == c && s[1..] == rest;
      case Hex(hi, lo) => assert s[0] == '\\' && s[1] == 'x' && s[2] == hi && s[3] == lo && s[4..] == rest;
      case Backslash => assert s[0] == '\\' && s[1] == '\\' && s[2..] == rest;
    }
  }

  /** With the separator space in front nothing of the SSID is trimmed, not even its own leading spaces. */
  lemma SsidRoundTrip(units: seq<Unit>, utf8: char -> seq<Byte>)
    requires KeepsAscii(utf8) && forall u | u in units :: Legal(u)
    ensures SsidBytes(" " + TextOf(units), utf8) == BytesOf(units)
  {
    UnescapeInvertsEscape(units, utf8);
    assert (" " + TextOf(units))[1..] == TextOf(units);
  }

  method DecodeIwSsid(value: string, utf8: char -> seq<Byte>) returns (decoded: seq<Byte>)
    ensures decoded == SsidBytes(value, utf8)
  {
    var text := if value != "" && value[0] == ' ' then value[1..] else value;
    decoded := [];
    var index := 0;
    while index < |text|
      invariant 0 <= index <= |text|
      invariant decoded + Unescaped(text[index..], utf8) == Unescaped(text, utf8)
    {
      var unit, length := DecodeOne(text[index..], utf8);
      assert text[index..][length..] == text[index + length..];
      decoded, index := decoded + unit, index + length;
    }
  }

  /** The escape or the character a text begins with, and how many characters it takes. */
  method DecodeOne(rest: string, utf8: char -> seq<Byte>) returns (unit: seq<Byte>, length: nat)
    requires rest != ""
    ensures 1 <= length <= |rest| && Unescaped(rest, utf8) == unit + Unescaped(rest[length..], utf8)
  {
    if HexEscape(rest) {
      return [HexByte(rest[2], rest[3])], 4;
    } else if |rest| >= 2 && rest[0] == '\\' && rest[1] == '\\' {
      return ['\\' as int], 2;
    } else {
      return utf8(rest[0]), 1;
    }
  }

  // ---------- one entry per network ----------

  /** What one scan line means; a line whose pattern does not match is Other. */
  datatype Line = Bss | Ssid(ssid: string) | Signal(dbm: int) | Country(code: string) | Secured | Other

  datatype Record = Record(ssid: string, signal: Option<int>, country: string, secured: bool)

  const NEW_RECORD := Record("", None, "", false)

  function Noted(r: Record, line: Line): Record {
    match line
    case Ssid(ssid) => r.(ssid := ssid)
    case Signal(dbm) => r.(signal := Some(dbm))
    case Country(code) => r.(country := code)
    case Secured => r.(secured := true)
    case _ => r
  }

  /** The access points of a scan, one record each; what precedes the first one counts for nothing. */
  function Records(lines: seq<Line>): seq<Record> {
    if lines == [] then []
    else
      var before, line := Records(lines[..|lines| - 1]), lines[|lines| - 1];
      if line.Bss? then before + [NEW_RECORD]
      else if before == [] then []
      else before[|before| - 1 := Noted(before[|before| - 1], line)]
  }

  // ---------- an access point's block of lines ----------

  predicate IsBss(lines: seq<Line>, i: nat) { i < |lines| && lines[i].Bss? }

  /** How many access points these lines begin. */
  function Points(lines: seq<Line>): nat {
    if lines == [] then 0 else Points(lines[..|lines| - 1]) + if lines[|lines| - 1].Bss? then 1 else 0
  }

  /** Line i belongs to the access point that line b begins. */
  ghost predicate InBlock(lines: seq<Line>, b: nat, i: nat) {
    b < i < |lines| && forall j: nat | b < j <= i :: !IsBss(lines, j)
  }

  /** Of the block's lines of this kind the last one. */
  ghost predicate LastAt(lines: seq<Line>, b: nat, i: nat, kind: Line -> bool) {
    InBlock(lines, b, i) && kind(lines[i]) && forall j: nat | i < j && InBlock(lines, b, j) :: !kind(lines[j])
  }

  ghost predicate NoneIn(lines: seq<Line>, b: nat, kind: Line -> bool) {
    forall i: nat | InBlock(lines, b, i) :: !kind(lines[i])
  }

  /** The record of a block: its last SSID, signal and country lines, and whether any line of it names a security
      suite. */
  ghost predicate Describes(lines: seq<Line>, b: nat, r: Record) {
    && (if NoneIn(lines, b, IsSsid) then r.ssid == ""
        else exists i: nat :: LastAt(lines, b, i, IsSsid) && lines[i] == Ssid(r.ssid))
    && (if NoneIn(lines, b, IsSignal) then r.signal.None?
        else r.signal.Some? && exists i: nat :: LastAt(lines, b, i, IsSignal) && lines[i] == Signal(r.signal.value))
    && (if NoneIn(lines, b, IsCountry) then r.country == ""
        else exists i: nat :: LastAt(lines, b, i, IsCountry) && lines[i] == Country(r.country))
    && (r.secured <==> !NoneIn(lines, b, IsSecured))
  }

  predicate IsSsid(line: Line) { line.Ssid? }
  predicate IsSignal(line: Line) { line.Signal? }
  predicate IsCountry(line: Line) { line.Country? }
  predicate IsSecured(line: Line) { line.Secured? }

  ghost predicate RecordOf(lines: seq<Line>, k: nat, b: nat, r: Record) {
    IsBss(lines, b) && Points(lines[..b]) == k && Describes(lines, b, r)
  }

  /** A line after a block's end says nothing about it. */
  lemma ClosedBlock(lines: seq<Line>, line: Line, b: nat, r: Record)
    requires Describes(lines, b, r) && b < |lines|
    requires line.Bss? || exists j: nat :: b < j && IsBss(lines, j)
    ensures Describes(lines + [line], b, r)
  {
    var more := lines + [line];
    assert forall j: nat | j < |lines| :: more[j] == lines[j] && (IsBss(more, j) <==> IsBss(lines, j));
    assert !InBlock(more, b, |lines|) by { Closed(lines, line, b); }
    assert forall i: nat :: InBlock(more, b, i) <==> InBlock(lines, b, i);
    SameBlock(lines, more, b);
  }

  lemma Closed(lines: seq<Line>, line: Line, b: nat)
    requires line.Bss? || exists j: nat :: b < j && IsBss(lines, j)
    ensures !InBlock(lines + [line], b, |lines|)
  {
    var more := lines + [line];
    if line.Bss? {
      assert IsBss(more, |lines|);
    } else {
      var j: nat :| b < j && IsBss(lines, j);
      assert IsBss(more, j);
    }
  }

  lemma SameBlock(lines: seq<Line>, more: seq<Line>, b: nat)
    requires lines <= more && forall i: nat :: InBlock(more, b, i) <==> InBlock(lines, b, i)
    ensures forall kind :: NoneIn(more, b, kind) <==> NoneIn(lines, b, kind)
    ensures forall i: nat, kind :: LastAt(more, b, i, kind) <==> LastAt(lines, b, i, kind)
  {
  }

  /** One more line of the open block: of its own kind it is the last one. */
  lemma OpenBlock(lines: seq<Line>, line: Line, b: nat, r: Record)
    requires Describes(lines, b, r) && b < |lines| && !line.Bss? && forall j: nat | b < j :: !IsBss(lines, j)
    ensures Describes(lines + [line], b, Noted(r, line))
  {
    var more := lines + [line];
    assert forall j: nat | j < |lines| :: more[j] == lines[j] && (IsBss(more, j) <==> IsBss(lines, j));
    assert forall i: nat | i < |lines| :: InBlock(more, b, i) <==> InBlock(lines, b, i);
    assert InBlock(more, b, |lines|);
    OneMoreLine(lines, line, b, IsSsid);
    OneMoreLine(lines, line, b, IsSignal);
    OneMoreLine(lines, line, b, IsCountry);
    OneMoreLine(lines, line, b, IsSecured);
    hide InBlock, NoneIn, LastAt;
  }

  lemma OneMoreLine(lines: seq<Line>, line: Line, b: nat, kind: Line -> bool)
    requires var more := lines + [line];
             && (forall i: nat | i < |lines| :: InBlock(more, b, i) <==> InBlock(lines, b, i))
             && InBlock(more, b, |lines|)
    ensures var more := lines + [line];
            && (kind(line) ==> LastAt(more, b, |lines|, kind) && !NoneIn(more, b, kind))
            && (!kind(line) ==> (NoneIn(more, b, kind) <==> NoneIn(lines, b, kind))
                                && forall i: nat | LastAt(lines, b, i, kind) :: LastAt(more, b, i, kind))
  {
  }

  ghost predicate HasBlock(lines: seq<Line>, k: nat, r: Record) { exists b: nat :: RecordOf(lines, k, b, r) }

  lemma LineAfter(before: seq<Line>, line: Line)
    ensures var records := Records(before);
            && Points(before + [line]) == Points(before) + (if line.Bss? then 1 else 0)
            && Records(before + [line]) ==
                 if line.Bss? then records + [NEW_RECORD] else if records == [] then []
                 else records[..|records| - 1] + [Noted(records[|records| - 1], line)]
  {
    assert (before + [line])[..|before|] == before;
  }

  /** One record for each access point, in the order of the scan, and each is that of its own block. */
  lemma {:induction false} RecordsAreBlocks(lines: seq<Line>)
    ensures |Records(lines)| == Points(lines)
    ensures forall k: nat | k < |Records(lines)| :: HasBlock(lines, k, Records(lines)[k])
  {
    hide HasBlock, Noted;
    if lines == [] {
      return;
    }
    var before, line := lines[..|lines| - 1], lines[|lines| - 1];
    RecordsAreBlocks(before);
    assert lines == before + [line];
    LineAfter(before, line);
    hide Records, Points;
    var records := Records(before);
    forall k: nat | k < |Records(lines)| ensures HasBlock(lines, k, Records(lines)[k]) {
      if k == |records| {
        NewBlock(before, k);
      } else {
        assert HasBlock(before, k, records[k]);
        BlockStays(before, line, k, records[k]);
      }
    }
  }

  lemma NewBlock(before: seq<Line>, k: nat)
    requires Points(before) == k
    ensures HasBlock(before + [Bss], k, NEW_RECORD)
  {
    var lines := before + [Bss];
    assert lines[..|before|] == before;
    assert RecordOf(lines, k, |before|, NEW_RECORD);
  }

  lemma BlockStays(before: seq<Line>, line: Line, k: nat, r: Record)
    requires HasBlock(before, k, r)
    ensures HasBlock(before + [line], k, if line.Bss? || Points(before) > k + 1 then r else Noted(r, line))
  {
    var b: nat :| RecordOf(before, k, b, r);
    var lines := before + [line];
    assert lines[..b] == before[..b];
    PointsAfter(before, b);
    hide Points;
    if line.Bss? || Points(before) > k + 1 {
      ClosedBlock(before, line, b, r);
      assert RecordOf(lines, k, b, r);
    } else {
      OpenBlock(before, line, b, r);
      assert RecordOf(lines, k, b, Noted(r, line));
    }
  }

  /** An access point is the last one exactly if none begins behind it. */
  lemma {:induction false} PointsAfter(lines: seq<Line>, b: nat)
    requires IsBss(lines, b)
    ensures Points(lines) == Points(lines[..b]) + 1 <==> forall j: nat | b < j :: !IsBss(lines, j)
    ensures Points(lines) >= Points(lines[..b]) + 1
  {
    var init, last := lines[..|lines| - 1], |lines| - 1;
    if b < last {
      PointsAfter(init, b);
      assert init[..b] == lines[..b];
      assert forall j: nat | j < last :: IsBss(init, j) <==> IsBss(lines, j);
      if lines[last].Bss? { assert IsBss(lines, last); }
    }
  }

  datatype Network = Network(ssid: string, signal: Option<int>, country: string, secured: bool)

  ghost predicate Reports(records: seq<Record>, ssid: string, i: nat) { i < |records| && records[i].ssid == ssid }

  ghost predicate Heard(records: seq<Record>, ssid: string) { exists i: nat :: Reports(records, ssid, i) }

  ghost predicate Listed(networks: seq<Network>, ssid: string) { exists n :: n in networks && n.ssid == ssid }

  /** The strongest known signal, whether any is secured, and the first reported country. */
  ghost predicate Summarizes(n: Network, records: seq<Record>) {
    && (forall i: nat | Reports(records, n.ssid, i) && records[i].signal.Some? ::
          n.signal.Some? && records[i].signal.value <= n.signal.value)
    && (n.signal.Some? ==> exists i: nat :: Reports(records, n.ssid, i) && records[i].signal == n.signal)
    && (n.secured <==> exists i: nat :: Reports(records, n.ssid, i) && records[i].secured)
    && (if n.country == "" then forall i: nat | Reports(records, n.ssid, i) :: records[i].country == ""
        else exists i: nat :: Reports(records, n.ssid, i) && records[i].country == n.country
                              && forall k: nat | k < i && Reports(records, n.ssid, k) :: records[k].country == "")
  }

  /** The table holds each reported, non-empty SSID, summarized. */
  ghost predicate Merged(networks: map<string, Network>, records: seq<Record>) {
    && (forall ssid :: ssid in networks <==> ssid != "" && Heard(records, ssid))
    && (forall ssid | ssid in networks :: networks[ssid].ssid == ssid && Summarizes(networks[ssid], records))
  }

  function Combined(previous: Network, r: Record): Network {
    previous.(
      secured := previous.secured || r.secured,
      signal := if previous.signal.None? || (r.signal.Some? && r.signal.value > previous.signal.value)
                then r.signal else previous.signal,
      country := if previous.country == "" && r.country != "" then r.country else previous.country)
  }

  function Committed(networks: map<string, Network>, r: Record): map<string, Network> {
    if r.ssid == "" then networks
    else if r.ssid !in networks then networks[r.ssid := Network(r.ssid, r.signal, r.country, r.secured)]
    else networks[r.ssid := Combined(networks[r.ssid], r)]
  }

  lemma ReportsMore(records: seq<Record>, r: Record, ssid: string)
    ensures forall i: nat :: Reports(records + [r], ssid, i) <==>
            Reports(records, ssid, i) || (i == |records| && r.ssid == ssid)
    ensures forall i: nat | i < |records| :: (records + [r])[i] == records[i]
    ensures (records + [r])[|records|] == r
  {
  }

  lemma SummaryOfOthers(n: Network, records: seq<Record>, r: Record)
    requires Summarizes(n, records) && r.ssid != n.ssid
    ensures Summarizes(n, records + [r])
  {
    ReportsMore(records, r, n.ssid);
  }

  lemma SummaryOfFirst(records: seq<Record>, r: Record)
    requires !Heard(records, r.ssid)
    ensures Summarizes(Network(r.ssid, r.signal, r.country, r.secured), records + [r])
  {
    ReportsMore(records, r, r.ssid);
    assert Reports(records + [r], r.ssid, |records|);
  }

  lemma SummaryOfMore(n: Network, records: seq<Record>, r: Record)
    requires Summarizes(n, records) && r.ssid == n.ssid
    ensures Summarizes(Combined(n, r), records + [r])
  {
    var m, all := Combined(n, r), records + [r];
    ReportsMore(records, r, r.ssid);
    assert Reports(all, r.ssid, |records|);
    if n.signal.Some? && m.signal == n.signal {
      var i: nat :| Reports(records, n.ssid, i) && records[i].signal == n.signal;
      assert Reports(all, n.ssid, i) && all[i].signal == m.signal;
    }
    if n.secured {
      var i: nat :| Reports(records, n.ssid, i) && records[i].secured;
      assert Reports(all, n.ssid, i) && all[i].secured;
    }
    if n.country != "" {
      var i: nat :| Reports(records, n.ssid, i) && records[i].country == n.country
                    && forall k: nat | k < i && Reports(records, n.ssid, k) :: records[k].country == "";
      assert Reports(all, n.ssid, i) && all[i].country == m.country;
    }
  }

  lemma CommitMerges(networks: map<string, Network>, records: seq<Record>, r: Record)
    requires Merged(networks, records)
    ensures Merged(Committed(networks, r), records + [r])
  {
    var all, after := records + [r], Committed(networks, r);
    forall ssid ensures ssid in after <==> ssid != "" && Heard(all, ssid) {
      ReportsMore(records, r, ssid);
      if ssid == r.ssid { assert Reports(all, ssid, |records|); }
      if ssid in networks {
        var i: nat :| Reports(records, ssid, i);
        assert Reports(all, ssid, i);
      }
    }
    forall ssid | ssid in after ensures after[ssid].ssid == ssid && Summarizes(after[ssid], all) {
      if ssid != r.ssid {
        SummaryOfOthers(networks[ssid], records, r);
      } else if ssid in networks {
        SummaryOfMore(networks[ssid], records, r);
      } else {
        SummaryOfFirst(records, r);
      }
    }
  }

  // ---------- the order of the result ----------

  predicate LexLeq(a: string, b: string) {
    a == "" || (b != "" && (a[0] < b[0] || (a[0] == b[0] && LexLeq(a[1..], b[1..]))))
  }

  lemma {:induction false} LexTotal(a: string, b: string)
    ensures LexLeq(a, b) || LexLeq(b, a)
  {
    if a != "" && b != "" && a[0] == b[0] {
      LexTotal(a[1..], b[1..]);
    }
  }

  lemma {:induction false} LexTransitive(a: string, b: string, c: string)
    requires LexLeq(a, b) && LexLeq(b, c)
    ensures LexLeq(a, c)
  {
    if a != "" && b != "" && c != "" && a[0] == b[0] == c[0] {
      LexTransitive(a[1..], b[1..], c[1..]);
    }
  }

  /** Strongest first, unknown signals last, then by folded name. */
  predicate Precedes(a: Network, b: Network, fold: string -> string) {
    if a.signal == b.signal then LexLeq(fold(a.ssid), fold(b.ssid))
    else a.signal.Some? && (b.signal.None? || a.signal.value > b.signal.value)
  }

  ghost predicate Ordered(s: seq<Network>, fold: string -> string) {
    forall i, j | 0 <= i < j < |s| :: Precedes(s[i], s[j], fold)
  }

  lemma PrecedesTotal(a: Network, b: Network, fold: string -> string)
    ensures Precedes(a, b, fold) || Precedes(b, a, fold)
  {
    LexTotal(fold(a.ssid), fold(b.ssid));
  }

  lemma PrecedesTransitive(a: Network, b: Network, c: Network, fold: string -> string)
    requires Precedes(a, b, fold) && Precedes(b, c, fold)
    ensures Precedes(a, c, fold)
  {
    if a.signal == b.signal == c.signal {
      LexTransitive(fold(a.ssid), fold(b.ssid), fold(c.ssid));
    }
  }

  function Inserted(s: seq<Network>, n: Network, fold: string -> string): seq<Network> {
    if s == [] || Precedes(s[|s| - 1], n, fold) then s + [n]
    else Inserted(s[..|s| - 1], n, fold) + [s[|s| - 1]]
  }

  lemma {:induction false} InsertedIsOrdered(s: seq<Network>, n: Network, fold: string -> string)
    requires Ordered(s, fold)
    ensures Ordered(Inserted(s, n, fold), fold) && multiset(Inserted(s, n, fold)) == multiset(s) + multiset{n}
  {
    if s != [] {
      var init, last := s[..|s| - 1], s[|s| - 1];
      assert s == init + [last];
      if Precedes(last, n, fold) {
        forall i | 0 <= i < |s| ensures Precedes(s[i], n, fold) {
          if i < |s| - 1 { PrecedesTransitive(s[i], last, n, fold); }
        }
      } else {
        PrecedesTotal(last, n, fold);
        InsertedIsOrdered(init, n, fold);
        var r := Inserted(init, n, fold);
        forall i | 0 <= i < |r| ensures Precedes(r[i], last, fold) {
          assert r[i] in multiset(r);
          assert r[i] == n || r[i] in multiset(init);
          assert r[i] == n || r[i] in init;
        }
      }
    }
  }

  // ---------- the parser ----------

  ghost predicate InTable(networks: map<string, Network>, order: seq<string>) {
    && (forall ssid :: ssid in order <==> ssid in networks)
    && forall i, j | 0 <= i < j < |order| :: order[i] != order[j]
  }

  /** One pass: every record is committed when the next begins, and the last one at the end. */
  method MergeRecords(lines: seq<Line>) returns (networks: map<string, Network>, order: seq<string>)
    ensures Merged(networks, Records(lines)) && InTable(networks, order)
  {
    networks, order := map[], [];
    var current: Option<Record> := None;
    ghost var committed: seq<Record> := [];
    for n := 0 to |lines|
      invariant Merged(networks, committed) && InTable(networks, order)
      invariant Records(lines[..n]) == committed + if current.Some? then [current.value] else []
      invariant current.None? ==> committed == []
    {
      hide Merged;
      assert lines[..n + 1][..n] == lines[..n];
      if lines[n].Bss? {
        if current.Some? {
          networks, order := Commit(networks, order, current.value, committed);
          committed := committed + [current.value];
        }
        current := Some(NEW_RECORD);
      } else if current.Some? {
        var record := current.value;
        match lines[n] {
          case Ssid(ssid) => record := Record(ssid, record.signal, record.country, record.secured);
          case Signal(dbm) => record := Record(record.ssid, Some(dbm), record.country, record.secured);
          case Country(code) => record := Record(record.ssid, record.signal, code, record.secured);
          case Secured => record := Record(record.ssid, record.signal, record.country, true);
          case _ =>
        }
        current := Some(record);
      }
    }
    assert lines[..|lines|] == lines;
    if current.Some? {
      networks, order := Commit(networks, order, current.value, committed);
    }
  }

  method Commit(networks: map<string, Network>, order: seq<string>, r: Record, ghost records: seq<Record>)
    returns (after: map<string, Network>, afterOrder: seq<string>)
    requires Merged(networks, records) && InTable(networks, order)
    ensures after == Committed(networks, r) && Merged(after, records + [r]) && InTable(after, afterOrder)
  {
    CommitMerges(networks, records, r);
    after, afterOrder := networks, order;
    if r.ssid == "" { return; }
    if r.ssid !in networks {
      after := after[r.ssid := Network(r.ssid, r.signal, r.country, r.secured)];
      afterOrder := afterOrder + [r.ssid];
      return;
    }
    var previous := networks[r.ssid];
    var merged := previous.(secured := previous.secured || r.secured);
    if previous.signal.None? || (r.signal.Some? && r.signal.value > previous.signal.value) {
      merged := merged.(signal := r.signal);
    }
    if previous.country == "" && r.country != "" {
      merged := merged.(country := r.country);
    }
    after := after[r.ssid := merged];
  }

  /** Each network of the scan once, summarized over its access points, in order. */
  ghost predicate IsScanResult(networks: seq<Network>, records: seq<Record>, fold: string -> string) {
    && Ordered(networks, fold)
    && (forall i, j | 0 <= i < j < |networks| :: networks[i].ssid != networks[j].ssid)
    && (forall n | n in networks :: n.ssid != "" && Summarizes(n, records))
    && (forall ssid :: Listed(networks, ssid) <==> ssid != "" && Heard(records, ssid))
  }

  method ParseWifiScan(lines: seq<Line>, fold: string -> string) returns (result: seq<Network>)
    ensures IsScanResult(result, Records(lines), fold)
  {
    var networks, order := MergeRecords(lines);
    result := [];
    for n := 0 to |order|
      invariant Ordered(result, fold)
      invariant multiset(result) == Values(networks, order[..n])
    {
      InsertedIsOrdered(result, networks[order[n]], fold);
      assert order[..n + 1][..n] == order[..n];
      result := Inserted(result, networks[order[n]], fold);
    }
    assert order[..|order|] == order;
    ListedOnce(result, networks, order, Records(lines));
  }

  ghost function Values(networks: map<string, Network>, order: seq<string>): multiset<Network>
    requires forall ssid | ssid in order :: ssid in networks
  {
    if order == [] then multiset{}
    else Values(networks, order[..|order| - 1]) + multiset{networks[order[|order| - 1]]}
  }

  lemma {:induction false} ValuesAre(networks: map<string, Network>, order: seq<string>)
    requires forall ssid | ssid in order :: ssid in networks && networks[ssid].ssid == ssid
    requires forall i, j | 0 <= i < j < |order| :: order[i] != order[j]
    ensures forall n :: Values(networks, order)[n] == if n.ssid in order && networks[n.ssid] == n then 1 else 0
  {
    if order != [] {
      var init, last := order[..|order| - 1], order[|order| - 1];
      assert order == init + [last];
      assert last !in init;
      ValuesAre(networks, init);
    }
  }

  lemma ListedOnce(result: seq<Network>, networks: map<string, Network>, order: seq<string>, records: seq<Record>)
    requires Merged(networks, records) && InTable(networks, order) && multiset(result) == Values(networks, order)
    ensures forall i, j | 0 <= i < j < |result| :: result[i].ssid != result[j].ssid
    ensures forall n | n in result :: n.ssid != "" && Summarizes(n, records)
    ensures forall ssid :: Listed(result, ssid) <==> ssid != "" && Heard(records, ssid)
  {
    ValuesAre(networks, order);
    hide Values, Summarizes;
    forall n ensures n in result <==> n.ssid in networks && networks[n.ssid] == n {
      assert n in result <==> n in multiset(result);
    }
    forall i, j | 0 <= i < j < |result| ensures result[i].ssid != result[j].ssid {
      if result[i].ssid == result[j].ssid {
        assert result[i] in result && result[j] in result;
        assert result[i] == result[j];
        TwiceInMultiset(result, i, j);
      }
    }
    forall ssid ensures Listed(result, ssid) <==> ssid in networks {
      if ssid in networks { assert networks[ssid] in result; }
    }
  }

  lemma TwiceInMultiset(s: seq<Network>, i: nat, j: nat)
    requires i < j < |s| && s[i] == s[j]
    ensures multiset(s)[s[i]] >= 2
  {
    assert s == s[..j] + [s[j]] + s[j + 1..];
    assert s[i] in s[..j];
    assert multiset(s) == multiset(s[..j]) + multiset{s[j]} + multiset(s[j + 1..]);
  }
}
