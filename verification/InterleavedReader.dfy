/** Both streams of a process as one, merged by sequence number
    (src/tui/disk_log_reader.rs, "Both" mode). */
module InterleavedReader {
  import opened Options
  import opened Storage
  import opened LogIndex
  import opened LogWriter
  import opened LogRuns
  import opened DiskLogReader

  datatype LineSource = Stdout | Stderr

  type Line = (LineSource, Bytes)

  // A line by its absolute position in one stream, with its sequence number.
  datatype Merged = Merged(seqNo: nat, source: LineSource, line: nat)

  // --- One line --------------------------------------------------------------------------------

  function SingleRead(files: Files, segments: seq<SegmentInfo>, base: nat, line: nat): Option<Bytes>
    requires base <= line
  {
    if segments == [] then None
    else if line < base + segments[0].lineCount then
      var number := segments[0].number;
      var lines := SegmentRead(files, LogFile(number), IdxFile(number), line - base, 1);
      if lines.None? || lines.value == [] then None else Some(lines.value[0])
    else SingleRead(files, segments[1..], base + segments[0].lineCount, line)
  }

  method ReadSingleLine(files: Files, segments: seq<SegmentInfo>, line: nat) returns (text: Option<Bytes>)
    ensures text == SingleRead(files, segments, 0, line)
  {
    var base: nat := 0;
    assert segments[0..] == segments;
    for i := 0 to |segments|
      invariant base <= line && SingleRead(files, segments[i..], base, line) == SingleRead(files, segments, 0, line)
    {
      var seg := segments[i];
      assert segments[i..][0] == seg && segments[i..][1..] == segments[i + 1..];
      if line < base + seg.lineCount {
        var lines := ReadLinesFromSegment(files, LogFile(seg.number), IdxFile(seg.number), line - base, 1);
        return if lines.None? || lines.value == [] then None else Some(lines.value[0]);
      }
      base := base + seg.lineCount;
    }
    return None;
  }

  lemma {:induction false} SingleIsText(files: Files, segs: seq<Segment>, infos: seq<SegmentInfo>, base: nat, line: nat)
    requires |segs| == |infos| && forall i :: 0 <= i < |segs| ==> Backs(files, segs[i], infos[i])
    requires base <= line < base + |SegmentTexts(segs)|
    ensures SingleRead(files, infos, base, line) == Some(SegmentTexts(segs)[line - base])
  {
    hide SegmentRead;
    if segs != [] {
      assert Backs(files, segs[0], infos[0]);
      if line < base + infos[0].lineCount {
        var number := infos[0].number;
        assert SegmentRead(files, LogFile(number), IdxFile(number), line - base, 1) == Some(Slice(Texts(segs[0].entries), line - base, 1));
      } else {
        SingleIsText(files, segs[1..], infos[1..], base + infos[0].lineCount, line);
      }
    }
  }

  // --- The merged index ----------------------------------------------------------------------

  const U64_MAX: nat := U64_LIMIT - 1

  // The sequence numbers of one segment's lines; lines without an index sort last.
  function SegmentKeys(files: Files, seg: SegmentInfo): seq<nat> {
    var idx := IdxFile(seg.number);
    if idx in files && Open(files[idx]).Some? then
      var records := ReadRange(Open(files[idx]).value, 0, seg.lineCount);
      seq(|records|, i requires 0 <= i < |records| => records[i].seqNo)
    else seq(seg.lineCount, i => U64_MAX)
  }

  // One stream's lines from absolute position `base` on.
  function Tagged(source: LineSource, base: nat, keys: seq<nat>): seq<Merged> {
    seq(|keys|, i requires 0 <= i < |keys| => Merged(keys[i], source, base + i))
  }

  function StreamEntries(files: Files, segments: seq<SegmentInfo>, source: LineSource, base: nat): seq<Merged> {
    if segments == [] then []
    else
      var rest := StreamEntries(files, segments[1..], source, base + segments[0].lineCount);
      Tagged(source, base, SegmentKeys(files, segments[0])) + rest
  }

  // The standard library's stable sort: each element goes after those with the same key.
  function Insert(sorted: seq<Merged>, x: Merged): seq<Merged> {
    if sorted == [] || sorted[|sorted| - 1].seqNo <= x.seqNo then sorted + [x]
    else Insert(sorted[..|sorted| - 1], x) + [sorted[|sorted| - 1]]
  }

  function SortBySeq(s: seq<Merged>): seq<Merged> {
    if s == [] then [] else Insert(SortBySeq(s[..|s| - 1]), s[|s| - 1])
  }

  method BuildMergedIndex(outFiles: Files, outSegments: seq<SegmentInfo>, errFiles: Files, errSegments: seq<SegmentInfo>)
    returns (merged: seq<Merged>)
    ensures merged == SortBySeq(StreamEntries(outFiles, outSegments, Stdout, 0) + StreamEntries(errFiles, errSegments, Stderr, 0))
  {
    var out := CollectEntries(outFiles, outSegments, Stdout);
    var err := CollectEntries(errFiles, errSegments, Stderr);
    merged := SortBySeq(out + err);
  }

  method CollectEntries(files: Files, segments: seq<SegmentInfo>, source: LineSource) returns (entries: seq<Merged>)
    ensures entries == StreamEntries(files, segments, source, 0)
  {
    hide SegmentKeys, Tagged;
    entries := [];
    var lineOffset: nat := 0;
    assert segments[0..] == segments;
    for i := 0 to |segments|
      invariant entries + StreamEntries(files, segments[i..], source, lineOffset) == StreamEntries(files, segments, source, 0)
    {
      var seg := segments[i];
      assert segments[i..][0] == seg && segments[i..][1..] == segments[i + 1..];
      ghost var rest := StreamEntries(files, segments[i + 1..], source, lineOffset + seg.lineCount);
      var part := Tagged(source, lineOffset, SegmentKeys(files, seg));
      assert entries + (part + rest) == entries + part + rest;
      entries := entries + part;
      lineOffset := lineOffset + seg.lineCount;
    }
  }

  // --- Sorting is a permutation in the one stable order ------------------------------------------

  // By sequence number, then standard output first, then by position.
  predicate Before(a: Merged, b: Merged) {
    a.seqNo < b.seqNo
    || (a.seqNo == b.seqNo && (if a.source == b.source then a.line < b.line else a.source == Stdout))
  }

  predicate InOrder(s: seq<Merged>) {
    forall i, j :: 0 <= i < j < |s| ==> Before(s[i], s[j])
  }

  // As the entries are collected: standard output before standard error, each by position.
  predicate Collected(s: seq<Merged>) {
    forall i, j :: 0 <= i < j < |s| ==> if s[i].source == s[j].source then s[i].line < s[j].line else s[i].source == Stdout
  }

  lemma OrderAt(s: seq<Merged>, i: nat, j: nat)
    requires InOrder(s) && i < j < |s|
    ensures Before(s[i], s[j])
  {
  }

  lemma OrderPrefix(s: seq<Merged>, n: nat)
    requires InOrder(s) && n <= |s|
    ensures InOrder(s[..n])
  {
  }

  lemma OrderSnoc(s: seq<Merged>, x: Merged)
    requires InOrder(s) && forall y :: y in s ==> Before(y, x)
    ensures InOrder(s + [x])
  {
  }

  lemma {:induction false} InsertSorts(sorted: seq<Merged>, x: Merged)
    requires InOrder(sorted) && forall y :: y in sorted ==> y.seqNo != x.seqNo || Before(y, x)
    ensures InOrder(Insert(sorted, x)) && multiset(Insert(sorted, x)) == multiset(sorted) + multiset{x}
  {
    hide InOrder;
    if sorted == [] || sorted[|sorted| - 1].seqNo <= x.seqNo {
      forall i: nat | i < |sorted| ensures Before(sorted[i], x) {
        assert sorted[i] in sorted;
        if i < |sorted| - 1 { OrderAt(sorted, i, |sorted| - 1); }
      }
      OrderSnoc(sorted, x);
    } else {
      var front, last := sorted[..|sorted| - 1], sorted[|sorted| - 1];
      assert sorted == front + [last];
      OrderPrefix(sorted, |front|);
      InsertSorts(front, x);
      var placed := Insert(front, x);
      forall y | y in placed ensures Before(y, last) {
        assert y in multiset(placed);
        if y != x {
          var i: nat :| i < |front| && front[i] == y;
          OrderAt(sorted, i, |front|);
        }
      }
      OrderSnoc(placed, last);
    }
  }

  lemma {:induction false} SortSorts(s: seq<Merged>)
    requires Collected(s)
    ensures InOrder(SortBySeq(s)) && multiset(SortBySeq(s)) == multiset(s)
  {
    if s != [] {
      var front, last := s[..|s| - 1], s[|s| - 1];
      assert s == front + [last];
      SortSorts(front);
      forall y | y in SortBySeq(front) ensures y.seqNo != last.seqNo || Before(y, last) {
        assert y in multiset(front);
      }
      InsertSorts(SortBySeq(front), last);
    }
  }

  lemma SameFirst(a: seq<Merged>, b: seq<Merged>)
    requires InOrder(a) && InOrder(b) && multiset(a) == multiset(b) && a != [] && b != []
    ensures a[0] == b[0]
  {
    hide InOrder;
    assert a[0] in multiset(b) && b[0] in multiset(a);
    var i: nat :| i < |b| && b[i] == a[0];
    var j: nat :| j < |a| && a[j] == b[0];
    if i > 0 { OrderAt(b, 0, i); }
    if j > 0 { OrderAt(a, 0, j); }
  }

  // The order leaves no choice: sorting gives the only ordered arrangement of these entries.
  lemma {:induction false} InOrderUnique(a: seq<Merged>, b: seq<Merged>)
    requires InOrder(a) && InOrder(b) && multiset(a) == multiset(b)
    ensures a == b
  {
    assert |a| == |multiset(a)| == |multiset(b)| == |b|;
    if a != [] {
      SameFirst(a, b);
      assert a == [a[0]] + a[1..] && b == [b[0]] + b[1..];
      assert multiset(a[1..]) == multiset(a) - multiset{a[0]} == multiset(b[1..]);
      InOrderUnique(a[1..], b[1..]);
    }
  }

  // --- Reading a window of the merge --------------------------------------------------------------

  // The two streams' directories and segments, as one read sees them.
  datatype Snapshot = Snapshot(outFiles: Files, outSegments: seq<SegmentInfo>, errFiles: Files, errSegments: seq<SegmentInfo>)

  function AllMerged(snap: Snapshot): seq<Merged> {
    SortBySeq(StreamEntries(snap.outFiles, snap.outSegments, Stdout, 0) + StreamEntries(snap.errFiles, snap.errSegments, Stderr, 0))
  }

  lemma KeysWithin(files: Files, seg: SegmentInfo)
    ensures |SegmentKeys(files, seg)| <= seg.lineCount
  {
  }

  // Lines of one stream, by position from `base` on.
  predicate ByPosition(s: seq<Merged>, source: LineSource, base: nat) {
    (forall i :: 0 <= i < |s| ==> s[i].source == source && base <= s[i].line)
    && forall i, j :: 0 <= i < j < |s| ==> s[i].line < s[j].line
  }

  lemma TaggedJoins(source: LineSource, base: nat, keys: seq<nat>, n: nat, rest: seq<Merged>)
    requires |keys| <= n && ByPosition(rest, source, base + n)
    ensures ByPosition(Tagged(source, base, keys) + rest, source, base)
  {
    var first := Tagged(source, base, keys);
    assert forall i :: 0 <= i < |first| ==> first[i] == Merged(keys[i], source, base + i);
  }

  lemma {:induction false} EntriesByPosition(files: Files, segments: seq<SegmentInfo>, source: LineSource, base: nat)
    ensures ByPosition(StreamEntries(files, segments, source, base), source, base)
  {
    if segments != [] {
      hide SegmentKeys, ByPosition, Tagged;
      KeysWithin(files, segments[0]);
      EntriesByPosition(files, segments[1..], source, base + segments[0].lineCount);
      TaggedJoins(source, base, SegmentKeys(files, segments[0]), segments[0].lineCount,
                  StreamEntries(files, segments[1..], source, base + segments[0].lineCount));
    }
  }

  // Whatever the directories hold, the merged view goes by sequence number; lines with the same
  // number come from standard output first, and by position within a stream.
  lemma MergeOrder(snap: Snapshot, i: nat, j: nat)
    requires i < j < |AllMerged(snap)|
    ensures var a, b := AllMerged(snap)[i], AllMerged(snap)[j];
            a.seqNo <= b.seqNo
            && (a.seqNo == b.seqNo ==> (a.source == Stdout && b.source == Stderr) || (a.source == b.source && a.line < b.line))
  {
    hide SortBySeq, StreamEntries;
    var out, err := StreamEntries(snap.outFiles, snap.outSegments, Stdout, 0), StreamEntries(snap.errFiles, snap.errSegments, Stderr, 0);
    EntriesByPosition(snap.outFiles, snap.outSegments, Stdout, 0);
    EntriesByPosition(snap.errFiles, snap.errSegments, Stderr, 0);
    CollectedBoth(out, err);
    SortSorts(out + err);
    OrderAt(AllMerged(snap), i, j);
  }

  lemma CollectedBoth(out: seq<Merged>, err: seq<Merged>)
    requires ByPosition(out, Stdout, 0) && ByPosition(err, Stderr, 0)
    ensures Collected(out + err)
  {
  }

  // Lines of a segment without a readable index carry the largest number there is, so they come
  // last.
  lemma UnindexedLast(files: Files, seg: SegmentInfo, i: nat)
    requires (IdxFile(seg.number) !in files || Open(files[IdxFile(seg.number)]).None?) && i < seg.lineCount
    ensures |SegmentKeys(files, seg)| == seg.lineCount && SegmentKeys(files, seg)[i] == 0xFFFF_FFFF_FFFF_FFFF
  {
    LimitValue();
  }

  lemma LimitValue()
    ensures U64_LIMIT == 0x1_0000_0000_0000_0000
  {
    assert Pow256(2) == 0x1_0000 && Pow256(4) == 0x1_0000_0000;
    assert Pow256(6) == 0x1_0000_0000_0000 && Pow256(8) == 0x1_0000_0000_0000_0000;
  }

  function TextOf(snap: Snapshot, m: Merged): Option<Bytes> {
    if m.source == Stdout then SingleRead(snap.outFiles, snap.outSegments, 0, m.line)
    else SingleRead(snap.errFiles, snap.errSegments, 0, m.line)
  }

  // The window with its texts, or nothing when one of them cannot be read.
  function Rendered(snap: Snapshot, window: seq<Merged>): Option<seq<Line>> {
    if forall i :: 0 <= i < |window| ==> TextOf(snap, window[i]).Some? then
      Some(seq(|window|, i requires 0 <= i < |window| => (window[i].source, TextOf(snap, window[i]).GetOr([]))))
    else None
  }

  lemma RenderedFrom(snap: Snapshot, window: seq<Merged>, lines: seq<Line>)
    requires |lines| == |window|
    requires forall i :: 0 <= i < |window| ==> Some(lines[i].1) == TextOf(snap, window[i]) && lines[i].0 == window[i].source
    ensures Rendered(snap, window) == Some(lines)
  {
    assert forall i :: 0 <= i < |window| ==> lines[i] == (lines[i].0, lines[i].1);
    assert Rendered(snap, window).value == lines;
  }

  // Fills the places of one stream's lines.
  method FillFrom(snap: Snapshot, window: seq<Merged>, source: LineSource, result: seq<Line>)
    returns (filled: Option<seq<Line>>)
    requires |result| == |window|
    ensures filled.None? ==> exists i :: 0 <= i < |window| && TextOf(snap, window[i]).None?
    ensures filled.Some? ==> |filled.value| == |window|
    ensures filled.Some? ==> forall i :: 0 <= i < |window| ==>
              if window[i].source == source
              then TextOf(snap, window[i]).Some? && filled.value[i] == (source, TextOf(snap, window[i]).value)
              else filled.value[i] == result[i]
  {
    var lines := result;
    for i := 0 to |window|
      invariant |lines| == |window|
      invariant forall j :: 0 <= j < |window| ==>
                  if j < i && window[j].source == source
                  then TextOf(snap, window[j]).Some? && lines[j] == (source, TextOf(snap, window[j]).value)
                  else lines[j] == result[j]
    {
      if window[i].source == source {
        var text;
        if source == Stdout {
          text := ReadSingleLine(snap.outFiles, snap.outSegments, window[i].line);
        } else {
          text := ReadSingleLine(snap.errFiles, snap.errSegments, window[i].line);
        }
        if text.None? {
          return None;
        }
        lines := lines[i := (source, text.value)];
      }
    }
    return Some(lines);
  }

  // Standard output's lines are filled in first, then standard error's; together that is the
  // merged window line by line.
  method ReadInterleaved(snap: Snapshot, start: nat, count: nat) returns (lines: Option<seq<Line>>)
    ensures lines == Rendered(snap, Slice(AllMerged(snap), start, count))
  {
    hide TextOf, SortBySeq, StreamEntries;
    var merged := BuildMergedIndex(snap.outFiles, snap.outSegments, snap.errFiles, snap.errSegments);
    var end := Min(start + count, |merged|);
    if start >= end {
      assert Slice(merged, start, count) == [];
      RenderedFrom(snap, [], []);
      return Some([]);
    }
    var window := merged[start..end];
    var blank := seq(end - start, i => (Stdout, []));
    var out := FillFrom(snap, window, Stdout, blank);
    if out.None? {
      return None;
    }
    var both := FillFrom(snap, window, Stderr, out.value);
    if both.Some? {
      RenderedFrom(snap, window, both.value);
    }
    return both;
  }
}
