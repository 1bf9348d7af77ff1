/** Random-access reading of lines through the sidecar index, over rotated files
    (src/tui/disk_log_reader.rs). A read works on one snapshot of the directory. */
module DiskLogReader {
  import opened Options
  import opened Storage
  import opened LogIndex
  import opened LogWriter
  import opened LogRuns

  const CARRIAGE_RETURN: Byte := 13

  // --- Lines of a byte file -----------------------------------------------------------------

  // Just past the next newline at or after `pos`, or the end of the file.
  function LineEnd(bs: Bytes, pos: nat): (end: nat)
    requires pos <= |bs|
    ensures pos <= end <= |bs| && (pos < |bs| ==> pos < end)
    decreases |bs| - pos
  {
    if pos == |bs| then pos
    else if bs[pos] == NEWLINE then pos + 1
    else LineEnd(bs, pos + 1)
  }

  function WithoutLast(chunk: Bytes, c: Byte): Bytes {
    if chunk != [] && chunk[|chunk| - 1] == c then chunk[..|chunk| - 1] else chunk
  }

  // One read: the line and where the next starts.
  function LineAt(bs: Bytes, pos: nat): Bytes {
    if pos > |bs| then [] else WithoutLast(bs[pos..LineEnd(bs, pos)], NEWLINE)
  }

  function AfterLine(bs: Bytes, pos: nat): nat {
    if pos > |bs| then pos else LineEnd(bs, pos)
  }

  // `n` reads of a line from `pos` on, newlines dropped; past the end they give empty lines.
  function ReadFrom(bs: Bytes, pos: nat, n: nat): (lines: seq<Bytes>)
    ensures |lines| == n
    decreases n
  {
    if n == 0 then []
    else [LineAt(bs, pos)] + ReadFrom(bs, AfterLine(bs, pos), n - 1)
  }

  // The library's line iterator also drops a carriage return before the newline.
  function IteratorLine(chunk: Bytes): Bytes {
    if chunk != [] && chunk[|chunk| - 1] == NEWLINE then WithoutLast(WithoutLast(chunk, NEWLINE), CARRIAGE_RETURN) else chunk
  }

  function LinesFrom(bs: Bytes, pos: nat): seq<Bytes>
    requires pos <= |bs|
    decreases |bs| - pos
  {
    if pos == |bs| then [] else [IteratorLine(bs[pos..LineEnd(bs, pos)])] + LinesFrom(bs, LineEnd(bs, pos))
  }

  function Slice<T>(s: seq<T>, start: nat, count: nat): seq<T> {
    s[Min(start, |s|)..Min(start + count, |s|)]
  }

  // --- One segment ----------------------------------------------------------------------------

  // What reading lines [start, start + count) of one segment gives; None for an unreadable log.
  function SegmentRead(files: Files, log: FileName, idx: FileName, start: nat, count: nat): Option<seq<Bytes>> {
    if count == 0 then Some([])
    else if idx in files && Open(files[idx]).Some? then
      var records := ReadRange(Open(files[idx]).value, start, count);
      if records == [] then Some([])
      else if log !in files then None
      else Some(ReadFrom(files[log], records[0].byteOffset, |records|))
    else if log !in files then None
    else Some(Slice(LinesFrom(files[log], 0), start, count))
  }

  lemma ReadFromStep(bs: Bytes, pos: nat, n: nat)
    requires n > 0
    ensures ReadFrom(bs, pos, n) == [LineAt(bs, pos)] + ReadFrom(bs, AfterLine(bs, pos), n - 1)
  {
  }

  // The buffered reader after the seek: one line per record.
  method ReadLinesAt(bs: Bytes, offset: nat, n: nat) returns (lines: seq<Bytes>)
    ensures lines == ReadFrom(bs, offset, n)
  {
    hide WithoutLast, LineEnd;
    lines := [];
    var pos: nat := offset;
    for i := 0 to n
      invariant |lines| == i && lines + ReadFrom(bs, pos, n - i) == ReadFrom(bs, offset, n)
    {
      hide ReadFrom, LineAt, AfterLine;
      ReadFromStep(bs, pos, n - i);
      var line, next := LineAt(bs, pos), AfterLine(bs, pos);
      assert lines + ([line] + ReadFrom(bs, next, n - i - 1)) == lines + [line] + ReadFrom(bs, next, n - i - 1);
      lines, pos := lines + [line], next;
    }
  }

  method ReadLinesFromSegment(files: Files, log: FileName, idx: FileName, start: nat, count: nat)
    returns (lines: Option<seq<Bytes>>)
    ensures lines == SegmentRead(files, log, idx, start, count)
  {
    if count == 0 {
      return Some([]);
    }
    if idx in files && Open(files[idx]).Some? {
      var records := ReadRange(Open(files[idx]).value, start, count);
      if records == [] {
        return Some([]);
      }
      if log !in files {
        return None;
      }
      var result := ReadLinesAt(files[log], records[0].byteOffset, |records|);
      return Some(result);
    }
    if log !in files {
      return None;
    }
    return Some(Slice(LinesFrom(files[log], 0), start, count));
  }

  // --- What is read is what was written -------------------------------------------------------

  function Texts(entries: seq<Entry>): (ts: seq<Bytes>)
    ensures |ts| == |entries| && forall i :: 0 <= i < |ts| ==> ts[i] == entries[i].text
  {
    seq(|entries|, i requires 0 <= i < |entries| => entries[i].text)
  }

  predicate Clean(entries: seq<Entry>) {
    forall e :: e in entries ==> NEWLINE !in e.text
  }

  // Offsets and sequence numbers fit their eight bytes.
  predicate Encodable(seg: Segment) {
    seg.seqBase < U64_LIMIT && (forall r :: r in Records(seg.entries) ==> Fits(r))
  }

  lemma {:induction false} LineEndAt(bs: Bytes, pos: nat, text: Bytes)
    requires pos + |text| < |bs| && NEWLINE !in text
    requires bs[pos..pos + |text|] == text && bs[pos + |text|] == NEWLINE
    ensures LineEnd(bs, pos) == pos + |text| + 1
    decreases |text|
  {
    if text != [] {
      assert bs[pos] == text[0];
      assert bs[pos + 1..pos + 1 + |text[1..]|] == text[1..];
      LineEndAt(bs, pos + 1, text[1..]);
    }
  }

  // Where line `i` starts.
  function Start(entries: seq<Entry>, i: nat): nat
    requires i <= |entries|
  {
    |LogBytes(entries[..i])|
  }

  // Where line `i` lies in a log that starts with these lines.
  lemma LineInPlace(bs: Bytes, entries: seq<Entry>, i: nat)
    requires i < |entries| && NEWLINE !in entries[i].text && LogBytes(entries) <= bs
    ensures Start(entries, i) < |bs| && LineEnd(bs, Start(entries, i)) == Start(entries, i + 1)
    ensures bs[Start(entries, i)..LineEnd(bs, Start(entries, i))] == LineBytes(entries[i])
  {
    hide LogBytes;
    var pos := |LogBytes(entries[..i])|;
    LogPrefix(entries, i + 1);
    LogSnoc(entries[..i], entries[i]);
    assert entries[..i] + [entries[i]] == entries[..i + 1];
    var upTo := LogBytes(entries[..i + 1]);
    assert upTo == LogBytes(entries[..i]) + LineBytes(entries[i]);
    assert bs[..|upTo|] == upTo;
    assert bs[pos..pos + |entries[i].text|] == upTo[pos..pos + |entries[i].text|] == entries[i].text;
    assert bs[pos + |entries[i].text|] == upTo[pos + |entries[i].text|] == NEWLINE;
    LineEndAt(bs, pos, entries[i].text);
  }

  lemma WholeLog(entries: seq<Entry>)
    ensures Start(entries, 0) == 0 && Start(entries, |entries|) == |LogBytes(entries)|
  {
    assert entries[..|entries|] == entries;
  }

  lemma CleanAt(entries: seq<Entry>, i: nat)
    requires Clean(entries) && i < |entries|
    ensures NEWLINE !in entries[i].text
  {
  }

  lemma LineReads(bs: Bytes, entries: seq<Entry>, i: nat)
    requires i < |entries| && NEWLINE !in entries[i].text && LogBytes(entries) <= bs
    ensures LineAt(bs, Start(entries, i)) == entries[i].text && AfterLine(bs, Start(entries, i)) == Start(entries, i + 1)
  {
    hide LogBytes, LineEnd, WithoutLast, LineBytes, Start;
    LineInPlace(bs, entries, i);
    IteratorLineOf(entries[i]);
  }

  // Reading `n` lines from the start of line `i` gives their texts.
  lemma {:induction false} ReadFromGivesTexts(bs: Bytes, entries: seq<Entry>, i: nat, n: nat)
    requires i + n <= |entries| && Clean(entries) && LogBytes(entries) <= bs
    ensures ReadFrom(bs, Start(entries, i), n) == Texts(entries)[i..i + n]
    decreases n
  {
    if n > 0 {
      hide LogBytes, Texts, Clean, Start, ReadFrom, LineAt, AfterLine;
      ReadFromStep(bs, Start(entries, i), n);
      CleanAt(entries, i);
      LineReads(bs, entries, i);
      ReadFromGivesTexts(bs, entries, i + 1, n - 1);
      var t := Texts(entries);
      assert t[i..i + n] == [t[i]] + t[i + 1..i + n];
    }
  }

  lemma EncodableFits(seg: Segment)
    requires Encodable(seg)
    ensures seg.seqBase < U64_LIMIT && forall r :: r in Records(seg.entries) ==> Fits(r)
  {
  }

  // Through header, little-endian records, seek and line reads: exactly the slice asked for,
  // even when the log has more bytes than the index covers and the index a torn record.
  lemma IndexedReadIsSlice(files: Files, log: FileName, idx: FileName, seg: Segment, torn: Bytes, start: nat, count: nat)
    requires Clean(seg.entries) && Encodable(seg) && |torn| < RECORD_SIZE
    requires log in files && LogBytes(seg.entries) <= files[log]
    requires idx in files && files[idx] == IndexOf(seg, |seg.entries|) + torn
    ensures SegmentRead(files, log, idx, start, count) == Some(Slice(Texts(seg.entries), start, count))
  {
    hide LogBytes, ReadFrom, ReadRange, Open;
    hide Records, Texts, Clean, Encodable, IndexFile;
    var rs := Records(seg.entries);
    assert rs[..|seg.entries|] == rs;
    assert seg.seqBase < U64_LIMIT && forall r :: r in rs ==> Fits(r) by { EncodableFits(seg); }
    var slice := Slice(Texts(seg.entries), start, count);
    IndexRoundTrip(seg.seqBase, rs, torn, start, count);
    if start < |rs| && count > 0 {
      RecordsPrefix(seg.entries, start);
      var n := Min(start + count, |rs|) - start;
      ReadFromGivesTexts(files[log], seg.entries, start, n);
      assert rs[start..start + n][0] == rs[start];
      assert slice == Texts(seg.entries)[start..start + n];
    } else {
      assert slice == [];
    }
  }

  // --- Without an index -------------------------------------------------------------------------

  predicate EndsInReturn(text: Bytes) { text != [] && text[|text| - 1] == CARRIAGE_RETURN }

  function Stripped(entries: seq<Entry>): (ts: seq<Bytes>)
    ensures |ts| == |entries| && forall i :: 0 <= i < |ts| ==> ts[i] == WithoutLast(entries[i].text, CARRIAGE_RETURN)
  {
    seq(|entries|, i requires 0 <= i < |entries| => WithoutLast(entries[i].text, CARRIAGE_RETURN))
  }

  lemma IteratorLineOf(e: Entry)
    ensures IteratorLine(LineBytes(e)) == WithoutLast(e.text, CARRIAGE_RETURN)
    ensures WithoutLast(LineBytes(e), NEWLINE) == e.text
  {
  }

  // A scan of a log that starts with these lines gives them first.
  lemma {:induction false} ScanGivesStripped(bs: Bytes, entries: seq<Entry>, i: nat)
    requires i <= |entries| && Clean(entries) && LogBytes(entries) <= bs && Start(entries, i) <= |bs|
    ensures Start(entries, |entries|) <= |bs|
    ensures LinesFrom(bs, Start(entries, i)) == Stripped(entries)[i..] + LinesFrom(bs, Start(entries, |entries|))
    decreases |entries| - i
  {
    hide LineEnd, LogBytes, Stripped, Clean, IteratorLine, WithoutLast, LineBytes, Start;
    WholeLog(entries);
    var t := Stripped(entries);
    if i < |entries| {
      assert NEWLINE !in entries[i].text by { CleanAt(entries, i); }
      LineInPlace(bs, entries, i);
      ScanGivesStripped(bs, entries, i + 1);
      IteratorLineOf(entries[i]);
      assert t[i..] == [t[i]] + t[i + 1..];
    }
  }

  lemma StrippedSliceIff(entries: seq<Entry>, start: nat, count: nat)
    ensures Slice(Stripped(entries), start, count) == Slice(Texts(entries), start, count)
       <==> forall i :: start <= i < start + count && i < |entries| ==> !EndsInReturn(entries[i].text)
  {
    var scanned, indexed := Slice(Stripped(entries), start, count), Slice(Texts(entries), start, count);
    forall i | start <= i < start + count && i < |entries|
      ensures indexed[i - start] == entries[i].text
      ensures scanned[i - start] == WithoutLast(entries[i].text, CARRIAGE_RETURN)
    {
    }
    if scanned == indexed {
      forall i | start <= i < start + count && i < |entries| ensures !EndsInReturn(entries[i].text) {
        assert |scanned[i - start]| == |indexed[i - start]|;
      }
    }
  }

  // A missing or unreadable index changes nothing, exactly when no line asked for ends in a
  // carriage return.
  lemma FallbackAgreesIff(files: Files, log: FileName, idx: FileName, seg: Segment, start: nat, count: nat)
    requires Clean(seg.entries)
    requires log in files && files[log] == LogBytes(seg.entries)
    requires idx !in files || Open(files[idx]).None?
    ensures SegmentRead(files, log, idx, start, count) == Some(Slice(Texts(seg.entries), start, count))
       <==> forall i :: start <= i < start + count && i < |seg.entries| ==> !EndsInReturn(seg.entries[i].text)
  {
    hide LogBytes, LinesFrom, Open, Stripped, Texts, Start, EndsInReturn;
    WholeLog(seg.entries);
    ScanGivesStripped(files[log], seg.entries, 0);
    NothingAfterEnd(files[log]);
    assert LinesFrom(files[log], 0) == Stripped(seg.entries);
    StrippedSliceIff(seg.entries, start, count);
  }

  lemma NothingAfterEnd(bs: Bytes)
    ensures LinesFrom(bs, |bs|) == []
  {
  }

  // --- All segments of a stream ---------------------------------------------------------------

  datatype SegmentInfo = SegmentInfo(number: nat, lineCount: nat)

  // From the size of the index when there is one, otherwise by counting lines.
  function LineCount(files: Files, number: nat): nat {
    var log, idx := LogFile(number), IdxFile(number);
    if idx in files then LineCountFromMetadata(files[idx])
    else if log in files then |LinesFrom(files[log], 0)|
    else 0
  }

  function Info(files: Files, number: nat): SegmentInfo { SegmentInfo(number, LineCount(files, number)) }

  // Rotated segments m, m - 1, .., 1.
  function RotatedInfos(files: Files, m: nat): seq<SegmentInfo> {
    if m == 0 then [] else [Info(files, m)] + RotatedInfos(files, m - 1)
  }

  // Oldest first: the rotated segments, then the current one if it is there.
  function AllInfos(files: Files, m: nat): seq<SegmentInfo> {
    RotatedInfos(files, m) + if LogFile(0) in files then [Info(files, 0)] else []
  }

  // The rotated logs are numbered 1 .. m without a gap, and m + 1 is missing.
  ghost predicate LastRotated(files: Files, m: nat) {
    (forall n :: 1 <= n <= m ==> LogFile(n) in files) && LogFile(m + 1) !in files
  }

  // Probes upwards from number 1 until a log is missing.
  method DiscoverSegments(files: Files) returns (segments: seq<SegmentInfo>)
    ensures exists m :: LastRotated(files, m) && segments == AllInfos(files, m)
  {
    segments := [];
    ghost var m: nat := 0;
    var n: nat := 1;
    while LogFile(n) in files
      invariant n == m + 1 && (forall k :: 1 <= k <= m ==> LogFile(k) in files)
      invariant segments == RotatedInfos(files, m)
      decreases set f | f in files && f.index >= n
    {
      ghost var before := set f | f in files && f.index >= n;
      assert LogFile(n) in before;
      segments := [Info(files, n)] + segments;
      m := n;
      n := n + 1;
    }
    if LogFile(0) in files {
      segments := segments + [Info(files, 0)];
    }
    assert LastRotated(files, m) && segments == AllInfos(files, m);
  }

  function Max(a: nat, b: nat): nat { if a > b then a else b }

  function Joined(a: Option<seq<Bytes>>, b: Option<seq<Bytes>>): Option<seq<Bytes>> {
    if a.None? || b.None? then None else Some(a.value + b.value)
  }

  // Reading absolute lines [start, start + count) of these segments, the first of which begins
  // at absolute line `base`.
  function SpanRead(files: Files, segments: seq<SegmentInfo>, base: nat, start: nat, count: nat): Option<seq<Bytes>> {
    if segments == [] then Some([])
    else
      var seg := segments[0];
      var rest := SpanRead(files, segments[1..], base + seg.lineCount, start, count);
      Joined(PartRead(files, seg, base, start, count), rest)
  }

  // The part of the range that lies in one segment.
  function PartRead(files: Files, seg: SegmentInfo, base: nat, start: nat, count: nat): Option<seq<Bytes>> {
    var segEnd, windowEnd := base + seg.lineCount, start + count;
    if segEnd <= start || base >= windowEnd then Some([])
    else
      var readStart, readEnd := Max(start, base) - base, Min(windowEnd, segEnd) - base;
      SegmentRead(files, LogFile(seg.number), IdxFile(seg.number), readStart, readEnd - readStart)
  }

  lemma JoinedAssociates(a: Option<seq<Bytes>>, b: Option<seq<Bytes>>, c: Option<seq<Bytes>>)
    ensures Joined(Joined(a, b), c) == Joined(a, Joined(b, c))
    ensures Joined(Some([]), a) == a == Joined(a, Some([]))
  {
    if a.Some? && b.Some? && c.Some? {
      assert a.value + b.value + c.value == a.value + (b.value + c.value);
    }
    if a.Some? { assert [] + a.value == a.value == a.value + []; }
  }

  lemma SpanStep(files: Files, segments: seq<SegmentInfo>, i: nat, base: nat, start: nat, count: nat, lines: seq<Bytes>)
    requires i < |segments|
    ensures Joined(Some(lines), SpanRead(files, segments[i..], base, start, count))
         == Joined(Joined(Some(lines), PartRead(files, segments[i], base, start, count)),
                   SpanRead(files, segments[i + 1..], base + segments[i].lineCount, start, count))
  {
    hide PartRead, Joined;
    assert segments[i..][0] == segments[i] && segments[i..][1..] == segments[i + 1..];
    JoinedAssociates(Some(lines), PartRead(files, segments[i], base, start, count),
                     SpanRead(files, segments[i + 1..], base + segments[i].lineCount, start, count));
  }

  method ReadPart(files: Files, seg: SegmentInfo, base: nat, start: nat, count: nat) returns (part: Option<seq<Bytes>>)
    ensures part == PartRead(files, seg, base, start, count)
  {
    var segEnd, windowEnd := base + seg.lineCount, start + count;
    if segEnd <= start || base >= windowEnd {
      return Some([]);
    }
    var readStart, readEnd := Max(start, base) - base, Min(windowEnd, segEnd) - base;
    part := ReadLinesFromSegment(files, LogFile(seg.number), IdxFile(seg.number), readStart, readEnd - readStart);
  }

  method ReadLinesFromSegments(files: Files, segments: seq<SegmentInfo>, start: nat, count: nat)
    returns (result: Option<seq<Bytes>>)
    ensures result == SpanRead(files, segments, 0, start, count)
  {
    hide PartRead, SegmentRead;
    var lines: seq<Bytes> := [];
    var base: nat := 0;
    assert segments[0..] == segments;
    JoinedAssociates(SpanRead(files, segments, 0, start, count), None, None);
    for i := 0 to |segments|
      invariant Joined(Some(lines), SpanRead(files, segments[i..], base, start, count)) == SpanRead(files, segments, 0, start, count)
    {
      SpanStep(files, segments, i, base, start, count, lines);
      var part := ReadPart(files, segments[i], base, start, count);
      if part.None? {
        return None;
      }
      lines := lines + part.value;
      base := base + segments[i].lineCount;
    }
    JoinedAssociates(Some(lines), None, None);
    return Some(lines);
  }

  // --- The whole reader is a slice of the retained lines ------------------------------------------

  // The reader finds these rotated segments; what lies beyond the first missing log is ignored.
  ghost predicate RotatedReadable(files: Files, rotated: seq<Segment>) {
    LogFile(|rotated| + 1) !in files
    && forall f: FileName :: 1 <= f.index <= |rotated| ==> f in files && files[f] == RotatedContent(rotated, f)
  }

  // The directory holds this stream at least as far as its index says: rotated segments are
  // complete, the current log has every indexed line and possibly more.
  ghost predicate Holds(files: Files, st: Stream) {
    RotatedReadable(files, st.rotated)
    && st.indexed <= |st.cur.entries|
    && LogFile(0) in files && LogBytes(st.cur.entries[..st.indexed]) <= files[LogFile(0)]
    && IdxFile(0) in files && files[IdxFile(0)] == IndexOf(st.cur, st.indexed)
  }

  // The segments as far as they are indexed, oldest first.
  function IndexedSegments(st: Stream): seq<Segment>
    requires st.indexed <= |st.cur.entries|
  {
    st.rotated + [st.cur.(entries := st.cur.entries[..st.indexed])]
  }

  ghost predicate Readable(segs: seq<Segment>) {
    forall seg :: seg in segs ==> Clean(seg.entries) && Encodable(seg)
  }

  // Absolute position `x` among `n` elements counted from `base`.
  function Clamp(x: nat, base: nat, n: nat): (k: nat)
    ensures k <= n
  {
    if x <= base then 0 else Min(x - base, n)
  }

  // Elements of `s` whose absolute positions, counted from `base`, lie in [start, end).
  function Window<T>(s: seq<T>, base: nat, start: nat, end: nat): seq<T> {
    var lo, hi := Clamp(start, base, |s|), Clamp(end, base, |s|);
    if lo <= hi then s[lo..hi] else []
  }

  // A slice of a concatenation in its two parts.
  lemma SliceSplits<T>(a: seq<T>, b: seq<T>, lo: nat, hi: nat)
    requires lo <= hi <= |a| + |b|
    ensures (a + b)[lo..hi] == a[Min(lo, |a|)..Min(hi, |a|)] + b[Beyond(lo, |a|)..Beyond(hi, |a|)]
  {
    var left, right := a[Min(lo, |a|)..Min(hi, |a|)], b[Beyond(lo, |a|)..Beyond(hi, |a|)];
    assert |(a + b)[lo..hi]| == |left| + |right|;
    forall k | 0 <= k < hi - lo ensures (a + b)[lo..hi][k] == (left + right)[k] {
      assert (a + b)[lo + k] == if lo + k < |a| then a[lo + k] else b[lo + k - |a|];
    }
  }

  function Beyond(x: nat, n: nat): nat { if x > n then x - n else 0 }

  lemma WindowConcat<T>(a: seq<T>, b: seq<T>, base: nat, start: nat, end: nat)
    requires start <= end
    ensures Window(a + b, base, start, end) == Window(a, base, start, end) + Window(b, base + |a|, start, end)
  {
    hide Clamp, Window, Min, Beyond;
    ClampParts(start, base, |a|, |b|);
    ClampParts(end, base, |a|, |b|);
    WindowAs(a + b, base, start, end);
    WindowAs(a, base, start, end);
    WindowAs(b, base + |a|, start, end);
    SliceSplits(a, b, Clamp(start, base, |a| + |b|), Clamp(end, base, |a| + |b|));
  }

  lemma WindowAs<T>(s: seq<T>, base: nat, start: nat, end: nat)
    requires start <= end
    ensures Clamp(start, base, |s|) <= Clamp(end, base, |s|)
    ensures Window(s, base, start, end) == s[Clamp(start, base, |s|)..Clamp(end, base, |s|)]
  {
  }

  lemma ClampParts(x: nat, base: nat, m: nat, n: nat)
    ensures Clamp(x, base, m) == Min(Clamp(x, base, m + n), m)
    ensures Clamp(x, base + m, n) == Beyond(Clamp(x, base, m + n), m)
  {
  }

  // The directory stands behind segment `k` of the list.
  ghost predicate Backs(files: Files, seg: Segment, info: SegmentInfo) {
    info.lineCount == |seg.entries|
    && forall start, count :: SegmentRead(files, LogFile(info.number), IdxFile(info.number), start, count)
                           == Some(Slice(Texts(seg.entries), start, count))
  }

  lemma WindowIsSlice<T>(s: seq<T>, base: nat, start: nat, end: nat)
    requires start <= end
    ensures Window(s, base, start, end)
         == if base + |s| <= start || base >= end then []
            else Slice(s, Max(start, base) - base, Min(end, base + |s|) - Max(start, base))
  {
  }

  lemma PartIsWindow(files: Files, seg: Segment, info: SegmentInfo, base: nat, start: nat, count: nat)
    requires Backs(files, seg, info)
    ensures PartRead(files, info, base, start, count) == Some(Window(Texts(seg.entries), base, start, start + count))
  {
    hide SegmentRead, Texts, Window;
    WindowIsSlice(Texts(seg.entries), base, start, start + count);
    var segEnd, windowEnd := base + info.lineCount, start + count;
    if !(segEnd <= start || base >= windowEnd) {
      var readStart, readEnd := Max(start, base) - base, Min(windowEnd, segEnd) - base;
      assert SegmentRead(files, LogFile(info.number), IdxFile(info.number), readStart, readEnd - readStart)
          == Some(Slice(Texts(seg.entries), readStart, readEnd - readStart));
    }
  }

  lemma {:induction false} SpanIsWindow(files: Files, segs: seq<Segment>, infos: seq<SegmentInfo>, base: nat, start: nat, count: nat)
    requires |segs| == |infos| && forall i :: 0 <= i < |segs| ==> Backs(files, segs[i], infos[i])
    ensures SpanRead(files, infos, base, start, count) == Some(Window(SegmentTexts(segs), base, start, start + count))
  {
    hide Window, Backs, PartRead;
    if segs != [] {
      PartIsWindow(files, segs[0], infos[0], base, start, count);
      assert infos[0].lineCount == |segs[0].entries| by { BacksCount(files, segs[0], infos[0]); }
      SpanIsWindow(files, segs[1..], infos[1..], base + infos[0].lineCount, start, count);
      WindowConcat(Texts(segs[0].entries), SegmentTexts(segs[1..]), base, start, start + count);
    } else {
      EmptyWindow(base, start, start + count);
    }
  }

  lemma BacksCount(files: Files, seg: Segment, info: SegmentInfo)
    requires Backs(files, seg, info)
    ensures info.lineCount == |seg.entries|
  {
  }

  lemma EmptyWindow(base: nat, start: nat, end: nat)
    ensures Window<Bytes>([], base, start, end) == []
  {
  }

  function SegmentTexts(segs: seq<Segment>): seq<Bytes> {
    if segs == [] then [] else Texts(segs[0].entries) + SegmentTexts(segs[1..])
  }

  // Lines a reader can see: everything rotated, and of the current segment what is indexed.
  function IndexedTexts(st: Stream): seq<Bytes>
    requires st.indexed <= |st.cur.entries|
  {
    SegmentTexts(IndexedSegments(st))
  }

  lemma OnDiskHolds(files: Files, st: Stream)
    requires OnDisk(files, st)
    ensures Holds(files, st)
  {
    LogPrefix(st.cur.entries, st.indexed);
    assert LogFile(|st.rotated| + 1).index == |st.rotated| + 1;
  }

  // Also in the middle of a write, with as many lines as the index then has.
  lemma DurableHolds(files: Files, st: Stream, k: nat)
    requires RotatedOnDisk(files, st.rotated) && DurableAt(files, st.cur, k)
    ensures Holds(files, st.(indexed := k))
  {
    assert LogFile(|st.rotated| + 1).index == |st.rotated| + 1;
  }

  lemma LastRotatedUnique(files: Files, st: Stream, m: nat)
    requires Holds(files, st) && LastRotated(files, m)
    ensures m == |st.rotated|
  {
    assert LogFile(|st.rotated| + 1) !in files;
  }

  lemma {:induction false} RotatedInfosAt(files: Files, m: nat, i: nat)
    requires i < m
    ensures |RotatedInfos(files, m)| == m && RotatedInfos(files, m)[i] == Info(files, m - i)
  {
    if i > 0 { RotatedInfosAt(files, m - 1, i - 1); }
    else if m > 1 { RotatedInfosAt(files, m - 1, 0); }
  }

  lemma SegmentBacked(files: Files, seg: Segment, number: nat)
    requires Clean(seg.entries) && Encodable(seg)
    requires LogFile(number) in files && LogBytes(seg.entries) <= files[LogFile(number)]
    requires IdxFile(number) in files && files[IdxFile(number)] == IndexOf(seg, |seg.entries|)
    ensures Backs(files, seg, Info(files, number))
  {
    hide SegmentRead, LogBytes;
    forall start, count
      ensures SegmentRead(files, LogFile(number), IdxFile(number), start, count) == Some(Slice(Texts(seg.entries), start, count))
    {
      assert IndexOf(seg, |seg.entries|) == IndexOf(seg, |seg.entries|) + [];
      IndexedReadIsSlice(files, LogFile(number), IdxFile(number), seg, [], start, count);
    }
  }

  lemma RotatedBacked(files: Files, rotated: seq<Segment>, n: nat)
    requires RotatedReadable(files, rotated) && 1 <= n <= |rotated|
    requires Clean(Numbered(rotated, n).entries) && Encodable(Numbered(rotated, n))
    ensures LogFile(n) in files && Backs(files, Numbered(rotated, n), Info(files, n))
  {
    hide LogBytes, IndexOf;
    assert LogFile(n) in files && IdxFile(n) in files;
    SegmentBacked(files, Numbered(rotated, n), n);
  }

  lemma CurrentBacked(files: Files, st: Stream)
    requires Holds(files, st)
    requires Clean(st.cur.entries[..st.indexed]) && Encodable(st.cur.(entries := st.cur.entries[..st.indexed]))
    ensures Backs(files, st.cur.(entries := st.cur.entries[..st.indexed]), Info(files, 0))
  {
    var seg := st.cur.(entries := st.cur.entries[..st.indexed]);
    RecordsPrefix(st.cur.entries, st.indexed);
    assert Records(seg.entries)[..|seg.entries|] == Records(st.cur.entries)[..st.indexed];
    SegmentBacked(files, seg, 0);
  }

  lemma InfoAt(files: Files, m: nat, i: nat)
    requires i < |AllInfos(files, m)|
    ensures |AllInfos(files, m)| == m + if LogFile(0) in files then 1 else 0
    ensures AllInfos(files, m)[i] == Info(files, m - i)
  {
    hide Info;
    if m > 0 { RotatedInfosAt(files, m, if i < m then i else 0); }
  }

  // --- What a reader sees ---------------------------------------------------------------------

  // The segments a read works on: each is there and reads as its lines.
  ghost predicate Shown(files: Files, segs: seq<Segment>) {
    exists m :: LastRotated(files, m) && Reads(files, segs, AllInfos(files, m))
  }

  ghost predicate Reads(files: Files, segs: seq<Segment>, infos: seq<SegmentInfo>) {
    |infos| == |segs| && forall i :: 0 <= i < |segs| ==> Backs(files, segs[i], infos[i])
  }

  ghost predicate RotatedBacks(files: Files, rotated: seq<Segment>) {
    LogFile(|rotated| + 1) !in files
    && forall n :: 1 <= n <= |rotated| ==> LogFile(n) in files && Backs(files, Numbered(rotated, n), Info(files, n))
  }

  // The rotated segments, and the current one if its log is there.
  lemma ShownWith(files: Files, rotated: seq<Segment>, current: seq<Segment>)
    requires RotatedBacks(files, rotated)
    requires |current| == if LogFile(0) in files then 1 else 0
    requires current != [] ==> Backs(files, current[0], Info(files, 0))
    ensures LastRotated(files, |rotated|) && Reads(files, rotated + current, AllInfos(files, |rotated|))
    ensures Shown(files, rotated + current)
  {
    hide Backs, Info;
    var m, segs, infos := |rotated|, rotated + current, AllInfos(files, |rotated|);
    if m > 0 { RotatedInfosAt(files, m, 0); }
    assert |infos| == |segs|;
    forall i | 0 <= i < |segs| ensures Backs(files, segs[i], infos[i]) {
      InfoAt(files, m, i);
      if i < m { assert Numbered(rotated, m - i) == segs[i]; }
    }
  }

  lemma RotatedAllBacked(files: Files, rotated: seq<Segment>)
    requires RotatedReadable(files, rotated) && Readable(rotated)
    ensures RotatedBacks(files, rotated)
  {
    hide Backs, Clean, Encodable, Info;
    forall n: nat | 1 <= n <= |rotated| ensures LogFile(n) in files && Backs(files, Numbered(rotated, n), Info(files, n)) {
      assert Numbered(rotated, n) in rotated;
      RotatedBacked(files, rotated, n);
    }
  }

  lemma HoldsReads(files: Files, st: Stream)
    requires Holds(files, st) && Readable(IndexedSegments(st))
    ensures LastRotated(files, |st.rotated|) && Reads(files, IndexedSegments(st), AllInfos(files, |st.rotated|))
    ensures Shown(files, IndexedSegments(st))
  {
    hide Backs, Clean, Encodable, RotatedReadable, LogBytes, Info;
    var segs := IndexedSegments(st);
    assert segs[|st.rotated|] in segs;
    assert Readable(st.rotated) by { forall seg | seg in st.rotated ensures seg in segs {} }
    RotatedAllBacked(files, st.rotated);
    CurrentBacked(files, st);
    ShownWith(files, st.rotated, segs[|st.rotated|..]);
    assert segs == st.rotated + segs[|st.rotated|..];
  }

  lemma HoldsCount(files: Files, st: Stream)
    requires Holds(files, st)
    ensures |AllInfos(files, |st.rotated|)| == |IndexedSegments(st)|
  {
    if |st.rotated| > 0 { RotatedInfosAt(files, |st.rotated|, 0); }
  }

  lemma AllBacked(files: Files, st: Stream, m: nat)
    requires Holds(files, st) && Readable(IndexedSegments(st)) && LastRotated(files, m)
    ensures |AllInfos(files, m)| == |IndexedSegments(st)|
    ensures forall i :: 0 <= i < |IndexedSegments(st)| ==> Backs(files, IndexedSegments(st)[i], AllInfos(files, m)[i])
  {
    LastRotatedUnique(files, st, m);
    hide Backs, Holds, Readable;
    HoldsReads(files, st);
  }

  lemma LastRotatedOnce(files: Files, m: nat, n: nat)
    requires LastRotated(files, m) && LastRotated(files, n)
    ensures m == n
  {
  }

  // Reading one segment fails exactly when there is something to read and no log to read it from.
  lemma ReadFailsIff(files: Files, log: FileName, idx: FileName, start: nat, count: nat)
    ensures SegmentRead(files, log, idx, start, count).None?
       <==> log !in files && count > 0
            && !(idx in files && Open(files[idx]).Some? && LineCountFromMetadata(files[idx]) <= start)
  {
    hide LinesFrom, ReadFrom, RecordAt;
  }

  lemma {:induction false} SpanSucceeds(files: Files, infos: seq<SegmentInfo>, base: nat, start: nat, count: nat)
    requires forall i :: 0 <= i < |infos| ==> LogFile(infos[i].number) in files
    ensures SpanRead(files, infos, base, start, count).Some?
  {
    if infos != [] {
      hide SegmentRead;
      SpanSucceeds(files, infos[1..], base + infos[0].lineCount, start, count);
      var segEnd, windowEnd := base + infos[0].lineCount, start + count;
      if !(segEnd <= start || base >= windowEnd) {
        var readStart, readEnd := Max(start, base) - base, Min(windowEnd, segEnd) - base;
        ReadFailsIff(files, LogFile(infos[0].number), IdxFile(infos[0].number), readStart, readEnd - readStart);
      }
    }
  }

  lemma DiscoveredLogs(files: Files, m: nat, i: nat)
    requires LastRotated(files, m) && i < |AllInfos(files, m)|
    ensures LogFile(AllInfos(files, m)[i].number) in files
  {
    InfoAt(files, m, i);
  }

  // read_lines: any slice of the segments there are, however it is spread over them.
  // It never fails, whatever the directory.
  method ReadLines(files: Files, start: nat, count: nat, ghost segs: seq<Segment>) returns (lines: Option<seq<Bytes>>)
    ensures lines.Some?
    ensures Shown(files, segs) ==> lines == Some(Slice(SegmentTexts(segs), start, count))
  {
    hide Backs, LastRotated, AllInfos;
    var segments := DiscoverSegments(files);
    ghost var m :| LastRotated(files, m) && segments == AllInfos(files, m);
    lines := ReadLinesFromSegments(files, segments, start, count);
    forall i | 0 <= i < |segments| ensures LogFile(segments[i].number) in files { DiscoveredLogs(files, m, i); }
    SpanSucceeds(files, segments, 0, start, count);
    if Shown(files, segs) {
      ghost var n :| LastRotated(files, n) && Reads(files, segs, AllInfos(files, n));
      LastRotatedOnce(files, m, n);
      SpanIsWindow(files, segs, segments, 0, start, count);
      WindowIsSlice(SegmentTexts(segs), 0, start, start + count);
    }
  }

  // --- Line counts ------------------------------------------------------------------------------------

  function TotalLines(segments: seq<SegmentInfo>): nat {
    if segments == [] then 0 else segments[0].lineCount + TotalLines(segments[1..])
  }

  lemma {:induction false} TotalIsLength(files: Files, segs: seq<Segment>, infos: seq<SegmentInfo>)
    requires |segs| == |infos| && forall i :: 0 <= i < |segs| ==> Backs(files, segs[i], infos[i])
    ensures TotalLines(infos) == |SegmentTexts(segs)|
  {
    if segs != [] {
      TotalIsLength(files, segs[1..], infos[1..]);
    }
  }

  method CountLines(files: Files, ghost st: Stream) returns (n: nat)
    ensures Holds(files, st) && Readable(IndexedSegments(st)) ==> n == |IndexedTexts(st)|
  {
    var segments := DiscoverSegments(files);
    ghost var m :| LastRotated(files, m) && segments == AllInfos(files, m);
    n := 0;
    assert segments[0..] == segments;
    for i := 0 to |segments|
      invariant n + TotalLines(segments[i..]) == TotalLines(segments)
    {
      n := n + segments[i].lineCount;
    }
    if Holds(files, st) && Readable(IndexedSegments(st)) {
      AllBacked(files, st, m);
      TotalIsLength(files, IndexedSegments(st), segments);
    }
  }

  // --- The log round trip over histories ------------------------------------------------------------------

  lemma {:induction false} TextsOfAll(segs: seq<Segment>)
    ensures SegmentTexts(segs) == Texts(AllEntries(segs))
  {
    if segs != [] {
      DropFirst(segs);
      TextsOfAll(segs[1..]);
      assert Texts(segs[0].entries + AllEntries(segs[1..])) == Texts(segs[0].entries) + Texts(AllEntries(segs[1..]));
    }
  }

  // With the index flushed, the readable lines are all the retained ones, and those are the
  // latest lines of everything ever written.
  lemma ReadableIsLatestWritten(evs: seq<LogEvent>, lim: Limits)
    requires NothingTruncated(evs, lim)
    ensures var st := Flushed(Run(evs, lim));
            IndexedTexts(st) == Texts(Retained(st)) && IsSuffix(IndexedTexts(st), Texts(Written(evs)))
  {
    var st := Flushed(Run(evs, lim));
    RetainedIsSuffix(evs, lim);
    assert IndexedSegments(st) == st.rotated + [st.cur] by { assert st.cur.entries[..|st.cur.entries|] == st.cur.entries; }
    TextsOfAll(IndexedSegments(st));
    AllEntriesSnoc(st.rotated, st.cur);
    var kept, all := Retained(st), Written(evs);
    assert Retained(Run(evs, lim)) == kept;
    assert Texts(kept) == Texts(all)[|all| - |kept|..];
  }

  // What the bytes of log and index can hold: lines without a newline, and numbers of eight
  // bytes. With a size limit a segment's offsets stay below it, whatever was written in all.
  predicate Storable(written: seq<Entry>, lim: Limits) {
    (forall e :: e in written ==> NEWLINE !in e.text && e.seqNo < U64_LIMIT)
    && (0 < lim.maxBytes < U64_LIMIT || |LogBytes(written)| < U64_LIMIT)
  }

  // A segment of such lines, with no more bytes than were written in all.
  predicate Stored(seg: Segment, written: seq<Entry>) {
    seg.seqBase < U64_LIMIT && |LogBytes(seg.entries)| <= |LogBytes(written)|
    && forall e :: e in seg.entries ==> NEWLINE !in e.text && e.seqNo < U64_LIMIT
  }

  predicate AllStored(st: Stream, written: seq<Entry>) {
    Stored(st.cur, written) && forall seg :: seg in st.rotated ==> Stored(seg, written)
  }

  lemma StoredLonger(st: Stream, written: seq<Entry>, e: Entry)
    requires AllStored(st, written)
    ensures AllStored(st, written + [e])
  {
    LogSnoc(written, e);
  }

  lemma RotateStored(st: Stream, written: seq<Entry>, max: nat, seqBase: nat)
    requires AllStored(st, written) && seqBase < U64_LIMIT
    ensures AllStored(Rotate(st, max, seqBase), written)
  {
    hide Stored;
    assert Stored(Segment(seqBase, []), written) by { NothingStored(seqBase, written); }
    forall seg | seg in Newest(st.rotated + [st.cur], max) ensures Stored(seg, written) {
      assert seg in st.rotated + [st.cur];
    }
  }

  lemma NothingStored(seqBase: nat, written: seq<Entry>)
    requires seqBase < U64_LIMIT
    ensures Stored(Segment(seqBase, []), written)
  {
  }

  lemma AppendStored(st: Stream, written: seq<Entry>, e: Entry)
    requires AllStored(st, written) && NEWLINE !in e.text && e.seqNo < U64_LIMIT
    ensures AllStored(AppendEntry(st, e), written + [e])
  {
    LogSnoc(st.cur.entries, e);
    LogSnoc(written, e);
  }

  lemma {:induction false} RunStored(evs: seq<LogEvent>, lim: Limits)
    requires forall e :: e in Written(evs) ==> NEWLINE !in e.text && e.seqNo < U64_LIMIT
    ensures AllStored(Run(evs, lim), Written(evs))
  {
    if evs == [] {
      NothingStored(0, []);
    } else {
      hide AllStored, Rotate, AppendEntry;
      var before, ev := evs[..|evs| - 1], evs[|evs| - 1];
      var st, written := Run(before, lim), Written(before);
      assert forall e :: e in written ==> e in Written(evs);
      RunStored(before, lim);
      match ev {
        case LineWritten(text, seqNo) =>
          assert Written(evs)[|written|] == Entry(text, seqNo);
          RotateStored(st, written, lim.maxRotated, seqNo);
          AppendStored(if MustRotate(st, text, lim.maxBytes) then Rotate(st, lim.maxRotated, seqNo) else st, written, Entry(text, seqNo));
        case CaptureEnded =>
          FlushStored(st, written);
        case Reopened(rotate) =>
          FlushStored(st, written);
          RotateStored(Flushed(st), written, lim.maxRotated, 0);
          TruncateStored(st, written);
      }
    }
  }

  lemma FlushStored(st: Stream, written: seq<Entry>)
    requires AllStored(st, written)
    ensures AllStored(Flushed(st), written)
  {
  }

  lemma TruncateStored(st: Stream, written: seq<Entry>)
    requires AllStored(st, written)
    ensures AllStored(Stream(st.rotated, Segment(0, []), 0), written)
  {
    NothingStored(0, written);
  }

  // A stored segment within the limits can be read: no offset in it is too large.
  lemma StoredReads(seg: Segment, written: seq<Entry>, lim: Limits)
    requires Stored(seg, written) && Storable(written, lim) && Bounded(seg, lim.maxBytes)
    ensures Clean(seg.entries) && Encodable(seg)
  {
    hide LogBytes, Records;
    var rs := Records(seg.entries);
    forall i: nat | i < |rs| ensures Fits(rs[i]) {
      RecordsPrefix(seg.entries, i);
      LogPrefix(seg.entries, i);
      if i == 0 { NothingLogged(); }
    }
  }

  // Whatever was written, rotated and reopened: if the lines are storable, every segment the
  // files hold can be read, as far as it is indexed.
  lemma RunReadable(evs: seq<LogEvent>, lim: Limits, indexed: nat)
    requires Storable(Written(evs), lim) && indexed <= |Run(evs, lim).cur.entries|
    ensures Readable(IndexedSegments(Run(evs, lim).(indexed := indexed)))
  {
    hide Run, Stored, Bounded, Clean, Encodable;
    var st := Run(evs, lim);
    RunStored(evs, lim);
    SegmentsStayBounded(evs, lim);
    StoredReads(st.cur, Written(evs), lim);
    PrefixReadable(st.cur, indexed);
    forall seg | seg in IndexedSegments(st.(indexed := indexed)) ensures Clean(seg.entries) && Encodable(seg) {
      if seg in st.rotated { StoredReads(seg, Written(evs), lim); }
    }
  }

  lemma PrefixReadable(seg: Segment, k: nat)
    requires k <= |seg.entries| && Clean(seg.entries) && Encodable(seg)
    ensures Clean(seg.entries[..k]) && Encodable(seg.(entries := seg.entries[..k]))
  {
    RecordsPrefix(seg.entries, k);
  }

  // From an empty directory, after any history of storable lines, rotations and restarts that
  // truncated nothing, and a flush of the index: a read gives exactly the slice asked for of the
  // latest lines written.
  lemma LogRoundTrip(evs: seq<LogEvent>, lim: Limits, files: Files, m: nat, start: nat, count: nat)
    requires NothingTruncated(evs, lim) && Storable(Written(evs), lim)
    requires OnDisk(files, Flushed(Run(evs, lim))) && LastRotated(files, m)
    ensures var kept := Texts(Retained(Run(evs, lim)));
            SpanRead(files, AllInfos(files, m), 0, start, count) == Some(Slice(kept, start, count))
            && IsSuffix(kept, Texts(Written(evs)))
  {
    hide Run, Written, OnDisk, Readable, LastRotated, AllInfos, NothingTruncated, SpanRead, Retained, SegmentTexts, IndexedTexts, Slice, Texts, Storable;
    var st := Flushed(Run(evs, lim));
    RunReadable(evs, lim, st.indexed);
    ReadableIsLatestWritten(evs, lim);
    FlushedRetains(Run(evs, lim));
    OnDiskReads(files, st, m, start, count);
  }

  lemma OnDiskReads(files: Files, st: Stream, m: nat, start: nat, count: nat)
    requires OnDisk(files, st) && Readable(IndexedSegments(st)) && LastRotated(files, m)
    ensures SpanRead(files, AllInfos(files, m), 0, start, count) == Some(Slice(IndexedTexts(st), start, count))
  {
    hide Readable, LastRotated, AllInfos, Backs, SpanRead, SegmentTexts, Holds, RotatedOnDisk, IndexOf, LogBytes;
    OnDiskHolds(files, st);
    AllBacked(files, st, m);
    SpanIsWindow(files, IndexedSegments(st), AllInfos(files, m), 0, start, count);
    WindowIsSlice(IndexedTexts(st), 0, start, start + count);
  }

  lemma FlushedRetains(st: Stream)
    ensures Retained(Flushed(st)) == Retained(st)
  {
  }

  // The same by the code itself: a writer goes through the history, then a reader reads.
  method WriteThenRead(disk: Disk, evs: seq<LogEvent>, lim: Limits, start: nat, count: nat) returns (lines: Option<seq<Bytes>>)
    requires disk.files == map[] && lim.maxRotated == DEFAULT_MAX_ROTATED_FILES
    modifies disk
    ensures NothingTruncated(evs, lim) && Storable(Written(evs), lim) ==>
              var kept := Texts(Retained(Run(evs, lim)));
              lines == Some(Slice(kept, start, count)) && IsSuffix(kept, Texts(Written(evs)))
  {
    hide Run, Written, OnDisk, Readable, NothingTruncated, Backs, RotatedReadable, LogBytes, Shown, Storable;
    RunHistory(disk, evs, lim);
    ghost var st := Flushed(Run(evs, lim));
    OnDiskHolds(disk.files, st);
    if NothingTruncated(evs, lim) && Storable(Written(evs), lim) {
      RunReadable(evs, lim, st.indexed);
      HoldsReads(disk.files, st);
      ReadableIsLatestWritten(evs, lim);
      assert Retained(st) == Retained(Run(evs, lim));
    }
    lines := ReadLines(disk.files, start, count, IndexedSegments(st));
  }
}
