/** The interleaved view of one incarnation: two writers drawing from one counter. */
module InterleavedRuns {
  import opened Options
  import opened Storage
  import opened LogIndex
  import opened LogWriter
  import opened LogRuns
  import opened DiskLogReader
  import opened InterleavedReader

  function SeqNos(entries: seq<Entry>): (ks: seq<nat>)
    ensures |ks| == |entries| && forall i :: 0 <= i < |ks| ==> ks[i] == entries[i].seqNo
  {
    seq(|entries|, i requires 0 <= i < |entries| => entries[i].seqNo)
  }

  // --- The merged index of two directories ------------------------------------------------------

  lemma {:induction false} RecordsCarrySeqNos(entries: seq<Entry>, i: nat)
    requires i < |entries|
    ensures Records(entries)[i].seqNo == entries[i].seqNo
  {
    RecordsPrefix(entries, i);
  }

  lemma SegmentKeysAreSeqNos(files: Files, seg: Segment, number: nat)
    requires Encodable(seg)
    requires IdxFile(number) in files && files[IdxFile(number)] == IndexOf(seg, |seg.entries|)
    ensures SegmentKeys(files, Info(files, number)) == SeqNos(seg.entries)
    ensures Info(files, number).lineCount == |seg.entries|
  {
    hide ReadRange, Open, Records, IndexFile, LineCountFromMetadata;
    var rs, n := Records(seg.entries), |seg.entries|;
    assert rs[..n] == rs;
    assert seg.seqBase < U64_LIMIT && forall r :: r in rs ==> Fits(r) by { EncodableFits(seg); }
    IndexRoundTrip(seg.seqBase, rs, [], 0, n);
    var file := IndexFile(seg.seqBase, rs);
    assert file + [] == file && rs[0..n] == rs;
    forall i: nat | i < n ensures rs[i].seqNo == seg.entries[i].seqNo { RecordsCarrySeqNos(seg.entries, i); }
  }

  // The directory's index for segment `seg`.
  ghost predicate Keyed(files: Files, seg: Segment, info: SegmentInfo) {
    info.lineCount == |seg.entries| && SegmentKeys(files, info) == SeqNos(seg.entries)
  }

  lemma AllKeyed(files: Files, st: Stream, m: nat)
    requires Holds(files, st) && Readable(IndexedSegments(st)) && LastRotated(files, m)
    ensures |AllInfos(files, m)| == |IndexedSegments(st)|
    ensures forall i :: 0 <= i < |IndexedSegments(st)| ==> Keyed(files, IndexedSegments(st)[i], AllInfos(files, m)[i])
  {
    hide Keyed, AllInfos, LastRotated, Info, Encodable, Clean;
    LastRotatedUnique(files, st, m);
    HoldsCount(files, st);
    forall i | 0 <= i < |IndexedSegments(st)| ensures Keyed(files, IndexedSegments(st)[i], AllInfos(files, m)[i]) {
      hide LogBytes, RotatedReadable;
      assert Encodable(IndexedSegments(st)[i]) by { assert IndexedSegments(st)[i] in IndexedSegments(st); }
      InfoAt(files, m, i);
      KeyedAt(files, st, i);
    }
  }

  lemma KeyedAt(files: Files, st: Stream, i: nat)
    requires Holds(files, st) && i < |IndexedSegments(st)| && Encodable(IndexedSegments(st)[i])
    ensures Keyed(files, IndexedSegments(st)[i], Info(files, |st.rotated| - i))
  {
    hide Encodable, Info, SegmentKeys, LogBytes;
    var n := |st.rotated| - i;
    if i < |st.rotated| {
      assert Numbered(st.rotated, n) == st.rotated[i];
      assert IdxFile(n) in files;
      SegmentKeysAreSeqNos(files, st.rotated[i], n);
    } else {
      var seg := IndexedSegments(st)[i];
      RecordsPrefix(st.cur.entries, st.indexed);
      assert Records(seg.entries)[..|seg.entries|] == Records(st.cur.entries)[..st.indexed];
      SegmentKeysAreSeqNos(files, seg, 0);
    }
  }

  lemma {:induction false} EntriesAreTagged(files: Files, segs: seq<Segment>, infos: seq<SegmentInfo>, source: LineSource, base: nat)
    requires |segs| == |infos| && forall i :: 0 <= i < |segs| ==> Keyed(files, segs[i], infos[i])
    ensures StreamEntries(files, infos, source, base) == Tagged(source, base, SeqNos(AllEntries(segs)))
  {
    if segs == [] {
      NoEntries();
    } else {
      hide Keyed, Tagged, SeqNos, SegmentKeys, AllEntries;
      KeyedMeans(files, segs[0], infos[0]);
      EntriesAreTagged(files, segs[1..], infos[1..], source, base + infos[0].lineCount);
      DropFirst(segs);
      TaggedConcat(source, base, segs[0].entries, AllEntries(segs[1..]));
    }
  }

  lemma KeyedMeans(files: Files, seg: Segment, info: SegmentInfo)
    requires Keyed(files, seg, info)
    ensures info.lineCount == |seg.entries| && SegmentKeys(files, info) == SeqNos(seg.entries)
  {
  }

  lemma TaggedConcat(source: LineSource, base: nat, a: seq<Entry>, b: seq<Entry>)
    ensures Tagged(source, base, SeqNos(a + b)) == Tagged(source, base, SeqNos(a)) + Tagged(source, base + |a|, SeqNos(b))
  {
  }

  // The lines of a stream that its index covers.
  function Indexed(st: Stream): seq<Entry>
    requires st.indexed <= |st.cur.entries|
  {
    AllEntries(IndexedSegments(st))
  }

  // One read of both directories.
  ghost predicate Shows(snap: Snapshot, out: Stream, err: Stream) {
    Holds(snap.outFiles, out) && Readable(IndexedSegments(out))
    && Holds(snap.errFiles, err) && Readable(IndexedSegments(err))
    && (exists m :: LastRotated(snap.outFiles, m) && snap.outSegments == AllInfos(snap.outFiles, m))
    && (exists m :: LastRotated(snap.errFiles, m) && snap.errSegments == AllInfos(snap.errFiles, m))
  }

  // Discovering the segments of both streams gives such a read.
  method TakeSnapshot(outFiles: Files, errFiles: Files, ghost out: Stream, ghost err: Stream) returns (snap: Snapshot)
    ensures snap.outFiles == outFiles && snap.errFiles == errFiles
    ensures Holds(outFiles, out) && Readable(IndexedSegments(out)) && Holds(errFiles, err) && Readable(IndexedSegments(err))
        ==> Shows(snap, out, err)
  {
    var outSegments := DiscoverSegments(outFiles);
    var errSegments := DiscoverSegments(errFiles);
    snap := Snapshot(outFiles, outSegments, errFiles, errSegments);
  }

  function BothTagged(out: seq<Entry>, err: seq<Entry>): seq<Merged> {
    Tagged(Stdout, 0, SeqNos(out)) + Tagged(Stderr, 0, SeqNos(err))
  }

  // The merge is a permutation of all indexed lines of both streams, in the stable order of
  // their sequence numbers.
  lemma MergeIsPermutation(snap: Snapshot, out: Stream, err: Stream)
    requires Shows(snap, out, err)
    ensures InOrder(AllMerged(snap))
    ensures multiset(AllMerged(snap)) == multiset(BothTagged(Indexed(out), Indexed(err)))
  {
    hide SortBySeq, StreamEntries, Keyed, LastRotated, AllInfos, Readable, RotatedReadable, LogBytes;
    var mo :| LastRotated(snap.outFiles, mo) && snap.outSegments == AllInfos(snap.outFiles, mo);
    var me :| LastRotated(snap.errFiles, me) && snap.errSegments == AllInfos(snap.errFiles, me);
    AllKeyed(snap.outFiles, out, mo);
    AllKeyed(snap.errFiles, err, me);
    EntriesAreTagged(snap.outFiles, IndexedSegments(out), snap.outSegments, Stdout, 0);
    EntriesAreTagged(snap.errFiles, IndexedSegments(err), snap.errSegments, Stderr, 0);
    assert Collected(BothTagged(Indexed(out), Indexed(err)));
    SortSorts(BothTagged(Indexed(out), Indexed(err)));
  }

  // Every merged line reads as the text its stream holds at that position.
  lemma MergedReads(snap: Snapshot, out: Stream, err: Stream, m: Merged)
    requires Shows(snap, out, err)
    requires m.line < |Chosen(m.source, Indexed(out), Indexed(err))|
    ensures TextOf(snap, m) == Some(Chosen(m.source, Indexed(out), Indexed(err))[m.line].text)
  {
    hide Backs, LastRotated, AllInfos, Readable, RotatedReadable, LogBytes;
    if m.source == Stdout {
      var mo :| LastRotated(snap.outFiles, mo) && snap.outSegments == AllInfos(snap.outFiles, mo);
      SingleReadsIndexed(snap.outFiles, out, mo, m.line);
    } else {
      var me :| LastRotated(snap.errFiles, me) && snap.errSegments == AllInfos(snap.errFiles, me);
      SingleReadsIndexed(snap.errFiles, err, me, m.line);
    }
  }

  lemma SingleReadsIndexed(files: Files, st: Stream, m: nat, line: nat)
    requires Holds(files, st) && Readable(IndexedSegments(st)) && LastRotated(files, m)
    requires line < |Indexed(st)|
    ensures SingleRead(files, AllInfos(files, m), 0, line) == Some(Indexed(st)[line].text)
  {
    hide Backs, LastRotated, AllInfos, Readable, RotatedReadable, LogBytes;
    AllBacked(files, st, m);
    TextsOfAll(IndexedSegments(st));
    SingleIsText(files, IndexedSegments(st), AllInfos(files, m), 0, line);
  }

  // --- One incarnation -----------------------------------------------------------------------------

  // The two streams after these lines, in the order the writers drew their numbers.
  function PairRun(h: seq<Line>, lim: Limits): (Stream, Stream) {
    if h == [] then (OPENED, OPENED)
    else
      var seqNo, line := |h| - 1, h[|h| - 1];
      var (out, err) := PairRun(h[..|h| - 1], lim);
      if line.0 == Stdout then (Write(out, line.1, seqNo, lim.maxBytes, lim.maxRotated), err)
      else (out, Write(err, line.1, seqNo, lim.maxBytes, lim.maxRotated))
  }

  lemma PairSnoc(h: seq<Line>, line: Line, lim: Limits)
    ensures PairRun([], lim) == (OPENED, OPENED)
    ensures PairRun(h + [line], lim) ==
              var (out, err) := PairRun(h, lim);
              if line.0 == Stdout then (Write(out, line.1, |h|, lim.maxBytes, lim.maxRotated), err)
              else (out, Write(err, line.1, |h|, lim.maxBytes, lim.maxRotated))
  {
    assert (h + [line])[..|h|] == h;
  }

  // Entries stand for lines of the history, by their sequence number and in its order.
  predicate Tracks(entries: seq<Entry>, source: LineSource, h: seq<Line>) {
    (forall i :: 0 <= i < |entries| ==> entries[i].seqNo < |h| && h[entries[i].seqNo] == (source, entries[i].text))
    && (forall i, j :: 0 <= i < j < |entries| ==> entries[i].seqNo < entries[j].seqNo)
  }

  lemma WriteTracks(st: Stream, source: LineSource, h: seq<Line>, text: Bytes, lim: Limits)
    requires Tracks(Retained(st), source, h)
    ensures Tracks(Retained(Write(st, text, |h|, lim.maxBytes, lim.maxRotated)), source, h + [(source, text)])
  {
    hide AllEntries, Retained, Tracks, IsSuffix;
    RotateKeepsSuffix(st, lim.maxRotated, |h|);
    var base := if MustRotate(st, text, lim.maxBytes) then Rotate(st, lim.maxRotated, |h|) else st;
    AppendKeeps(base, Entry(text, |h|));
    if MustRotate(st, text, lim.maxBytes) {
      TracksSuffix(Retained(base), Retained(st), source, h);
    }
    TracksSnoc(Retained(base), source, h, text);
  }

  lemma TracksSuffix(recent: seq<Entry>, entries: seq<Entry>, source: LineSource, h: seq<Line>)
    requires Tracks(entries, source, h) && IsSuffix(recent, entries)
    ensures Tracks(recent, source, h)
  {
    var skip := |entries| - |recent|;
    assert forall i :: 0 <= i < |recent| ==> recent[i] == entries[skip + i];
  }

  lemma TracksSnoc(entries: seq<Entry>, source: LineSource, h: seq<Line>, text: Bytes)
    requires Tracks(entries, source, h)
    ensures Tracks(entries + [Entry(text, |h|)], source, h + [(source, text)])
  {
  }

  lemma {:induction false} PairTracks(h: seq<Line>, lim: Limits)
    ensures Tracks(Retained(PairRun(h, lim).0), Stdout, h) && Tracks(Retained(PairRun(h, lim).1), Stderr, h)
  {
    if h != [] {
      hide Write, Retained;
      var before, line := h[..|h| - 1], h[|h| - 1];
      assert h == before + [line];
      PairTracks(before, lim);
      var (out, err) := PairRun(before, lim);
      if line.0 == Stdout {
        WriteTracks(out, Stdout, before, line.1, lim);
        TracksLonger(Retained(err), Stderr, before, line);
      } else {
        WriteTracks(err, Stderr, before, line.1, lim);
        TracksLonger(Retained(out), Stdout, before, line);
      }
    }
  }

  lemma TracksLonger(entries: seq<Entry>, source: LineSource, h: seq<Line>, line: Line)
    requires Tracks(entries, source, h)
    ensures Tracks(entries, source, h + [line])
  {
  }

  lemma IndexedTracks(st: Stream, source: LineSource, h: seq<Line>)
    requires Tracks(Retained(st), source, h) && st.indexed <= |st.cur.entries|
    ensures Tracks(Indexed(st), source, h)
  {
    hide Tracks;
    AllEntriesSnoc(st.rotated, st.cur.(entries := st.cur.entries[..st.indexed]));
    var all, n := Retained(st), |AllEntries(st.rotated)| + st.indexed;
    assert Indexed(st) == all[..n];
    TracksPrefix(all, n, source, h);
  }

  lemma TracksPrefix(entries: seq<Entry>, n: nat, source: LineSource, h: seq<Line>)
    requires Tracks(entries, source, h) && n <= |entries|
    ensures Tracks(entries[..n], source, h)
  {
  }

  lemma ShowsIndexed(snap: Snapshot, out: Stream, err: Stream)
    requires Shows(snap, out, err)
    ensures out.indexed <= |out.cur.entries| && err.indexed <= |err.cur.entries|
  {
  }

  // A merge that tracks a history is that history's lines, in its order, each read back whole.
  lemma MergedTracksHistory(snap: Snapshot, out: Stream, err: Stream, h: seq<Line>)
    requires Shows(snap, out, err) && Tracks(Indexed(out), Stdout, h) && Tracks(Indexed(err), Stderr, h)
    ensures var ms := AllMerged(snap);
            (forall i :: 0 <= i < |ms| ==> ms[i].seqNo < |h| && h[ms[i].seqNo].0 == ms[i].source
                                           && TextOf(snap, ms[i]) == Some(h[ms[i].seqNo].1))
            && (forall i, j :: 0 <= i < j < |ms| ==> ms[i].seqNo < ms[j].seqNo)
            && |ms| == |Indexed(out)| + |Indexed(err)|
  {
    hide SortBySeq, StreamEntries, Shows, TextOf, Indexed;
    ShowsIndexed(snap, out, err);
    MergeIsPermutation(snap, out, err);
    var ms, all := AllMerged(snap), BothTagged(Indexed(out), Indexed(err));
    assert |ms| == |multiset(ms)| == |multiset(all)| == |all|;
    forall i | 0 <= i < |ms|
      ensures ms[i].seqNo < |h| && h[ms[i].seqNo].0 == ms[i].source && TextOf(snap, ms[i]) == Some(h[ms[i].seqNo].1)
      ensures ms[i] in all
    {
      assert ms[i] in multiset(all);
      MergedReads(snap, out, err, ms[i]);
    }
    forall i, j | 0 <= i < j < |ms| ensures ms[i].seqNo < ms[j].seqNo {
      SameLineOnce(Indexed(out), Indexed(err), h, ms[i], ms[j]);
    }
  }

  // Two lines with one sequence number are one line.
  lemma SameLineOnce(out: seq<Entry>, err: seq<Entry>, h: seq<Line>, a: Merged, b: Merged)
    requires Tracks(out, Stdout, h) && Tracks(err, Stderr, h)
    requires a in BothTagged(out, err) && b in BothTagged(out, err) && Before(a, b)
    ensures a.seqNo < b.seqNo
  {
  }

  // Within one incarnation the interleaved view is the order in which the two writers drew
  // their numbers, whatever was rotated away or is not indexed yet: each merged line is the
  // line of the history with its number, once, in increasing order.
  lemma IncarnationMerge(snap: Snapshot, h: seq<Line>, lim: Limits, outIndexed: nat, errIndexed: nat)
    requires var (out, err) := PairRun(h, lim);
             outIndexed <= |out.cur.entries| && errIndexed <= |err.cur.entries|
             && Shows(snap, out.(indexed := outIndexed), err.(indexed := errIndexed))
    ensures var ms := AllMerged(snap);
            (forall i :: 0 <= i < |ms| ==> ms[i].seqNo < |h| && h[ms[i].seqNo].0 == ms[i].source
                                           && TextOf(snap, ms[i]) == Some(h[ms[i].seqNo].1))
            && (forall i, j :: 0 <= i < j < |ms| ==> ms[i].seqNo < ms[j].seqNo)
  {
    hide SortBySeq, StreamEntries, Shows, TextOf, Tracks;
    var (out, err) := PairRun(h, lim);
    var out', err' := out.(indexed := outIndexed), err.(indexed := errIndexed);
    PairTracks(h, lim);
    assert Retained(out') == Retained(out) && Retained(err') == Retained(err);
    IndexedTracks(out', Stdout, h);
    IndexedTracks(err', Stderr, h);
    MergedTracksHistory(snap, out', err', h);
  }

  lemma {:induction false} IncreasingFills(ms: seq<Merged>, n: nat, i: nat)
    requires |ms| == n && i < n
    requires forall j :: 0 <= j < n ==> ms[j].seqNo < n
    requires forall j, k :: 0 <= j < k < n ==> ms[j].seqNo < ms[k].seqNo
    ensures ms[i].seqNo == i
  {
    AtLeast(ms, i);
    AtMost(ms, n, i);
  }

  lemma {:induction false} AtLeast(ms: seq<Merged>, i: nat)
    requires i < |ms| && forall j, k :: 0 <= j < k < |ms| ==> ms[j].seqNo < ms[k].seqNo
    ensures ms[i].seqNo >= i
  {
    if i > 0 { AtLeast(ms, i - 1); }
  }

  lemma {:induction false} AtMost(ms: seq<Merged>, n: nat, i: nat)
    requires i < |ms| == n && (forall j :: 0 <= j < n ==> ms[j].seqNo < n)
    requires forall j, k :: 0 <= j < k < n ==> ms[j].seqNo < ms[k].seqNo
    ensures ms[i].seqNo <= i
    decreases n - i
  {
    if i + 1 < n { AtMost(ms, n, i + 1); }
  }

  // With nothing rotated away and both indexes flushed, it is the history itself.
  lemma CompleteMergeIsHistory(snap: Snapshot, h: seq<Line>, lim: Limits)
    requires var (out, err) := PairRun(h, lim);
             Shows(snap, Flushed(out), Flushed(err)) && |Retained(out)| + |Retained(err)| == |h|
    ensures Rendered(snap, AllMerged(snap)) == Some(h)
  {
    hide SortBySeq, StreamEntries, Shows, TextOf, Tracks, Rendered;
    var (out, err) := PairRun(h, lim);
    PairTracks(h, lim);
    FlushedIsIndexed(out);
    FlushedIsIndexed(err);
    var ms := AllMerged(snap);
    MergedTracksHistory(snap, Flushed(out), Flushed(err), h);
    forall i | 0 <= i < |ms| ensures ms[i].seqNo == i { IncreasingFills(ms, |h|, i); }
    RenderedFrom(snap, ms, h);
  }

  lemma FlushedIsIndexed(st: Stream)
    ensures Indexed(Flushed(st)) == Retained(st)
  {
    assert st.cur.entries[..|st.cur.entries|] == st.cur.entries;
    AllEntriesSnoc(st.rotated, st.cur);
  }

  lemma OneSegment(st: Stream)
    requires st.rotated == [] && st.indexed <= |st.cur.entries|
    ensures Indexed(st) == st.cur.entries[..st.indexed]
  {
    AllEntriesSnoc([], st.cur.(entries := st.cur.entries[..st.indexed]));
    assert [] + [st.cur.(entries := st.cur.entries[..st.indexed])] == IndexedSegments(st);
  }

  // --- Across restarts -------------------------------------------------------------------------------

  predicate Nondecreasing(ks: seq<nat>) {
    forall i, j :: 0 <= i < j < |ks| ==> ks[i] <= ks[j]
  }

  predicate StreamOrderKept(ms: seq<Merged>, source: LineSource) {
    forall i, j :: 0 <= i < j < |ms| && ms[i].source == source == ms[j].source ==> ms[i].line < ms[j].line
  }

  function Chosen<T>(source: LineSource, out: T, err: T): T { if source == Stdout then out else err }

  lemma TaggedIn(out: seq<Entry>, err: seq<Entry>, x: Merged)
    ensures x in BothTagged(out, err)
       <==> x.line < |Chosen(x.source, out, err)| && x.seqNo == Chosen(x.source, out, err)[x.line].seqNo
  {
    var all := BothTagged(out, err);
    if x.line < |Chosen(x.source, out, err)| && x.seqNo == Chosen(x.source, out, err)[x.line].seqNo {
      assert all[Chosen(x.source, 0, |out|) + x.line] == x;
    }
  }

  lemma KeptOrderNeedsNondecreasing(ms: seq<Merged>, out: seq<Entry>, err: seq<Entry>, source: LineSource, a: nat, b: nat)
    requires InOrder(ms) && multiset(ms) == multiset(BothTagged(out, err)) && StreamOrderKept(ms, source)
    requires a < b < |Chosen(source, out, err)|
    ensures Chosen(source, out, err)[a].seqNo <= Chosen(source, out, err)[b].seqNo
  {
    hide BothTagged;
    var x, y := Merged(Chosen(source, out, err)[a].seqNo, source, a), Merged(Chosen(source, out, err)[b].seqNo, source, b);
    TaggedIn(out, err, x);
    TaggedIn(out, err, y);
    assert x in multiset(ms) && y in multiset(ms);
    var i :| 0 <= i < |ms| && ms[i] == x;
    var j :| 0 <= j < |ms| && ms[j] == y;
    assert i < j;
  }

  lemma NondecreasingKeepsOrder(ms: seq<Merged>, out: seq<Entry>, err: seq<Entry>, source: LineSource, i: nat, j: nat)
    requires InOrder(ms) && multiset(ms) == multiset(BothTagged(out, err))
    requires Nondecreasing(SeqNos(Chosen(source, out, err)))
    requires i < j < |ms| && ms[i].source == source == ms[j].source
    ensures ms[i].line < ms[j].line
  {
    hide BothTagged;
    assert ms[i] in multiset(BothTagged(out, err)) && ms[j] in multiset(BothTagged(out, err));
    TaggedIn(out, err, ms[i]);
    TaggedIn(out, err, ms[j]);
    var ks := SeqNos(Chosen(source, out, err));
  }

  // Sequence numbers start again at zero with each incarnation, so the merge need not keep a
  // stream's own order. It does exactly when that stream's numbers never go down.
  lemma StreamOrderKeptIff(ms: seq<Merged>, out: seq<Entry>, err: seq<Entry>, source: LineSource)
    requires InOrder(ms) && multiset(ms) == multiset(BothTagged(out, err))
    ensures StreamOrderKept(ms, source) <==> Nondecreasing(SeqNos(Chosen(source, out, err)))
  {
    hide InOrder, BothTagged;
    var ks := SeqNos(Chosen(source, out, err));
    if StreamOrderKept(ms, source) {
      forall a, b | 0 <= a < b < |ks| ensures ks[a] <= ks[b] {
        KeptOrderNeedsNondecreasing(ms, out, err, source, a, b);
      }
    }
    if Nondecreasing(ks) {
      forall i, j | 0 <= i < j < |ms| && ms[i].source == source == ms[j].source ensures ms[i].line < ms[j].line {
        NondecreasingKeepsOrder(ms, out, err, source, i, j);
      }
    }
  }
}
