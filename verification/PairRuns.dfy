/** Both streams of one incarnation through the writers and back: two writers on one counter,
    then the interleaved reader. */
module PairRuns {
  import opened Options
  import opened Storage
  import opened LogIndex
  import opened LogWriter
  import opened LogRuns
  import opened DiskLogReader
  import opened InterleavedReader
  import opened InterleavedRuns

  // --- Each side is a history of its own --------------------------------------------------------

  // The lines of one stream, with the numbers they drew.
  function EventsOf(h: seq<Line>, source: LineSource): seq<LogEvent> {
    if h == [] then []
    else
      var last := h[|h| - 1];
      EventsOf(h[..|h| - 1], source) + if last.0 == source then [LineWritten(last.1, |h| - 1)] else []
  }

  lemma EventsSnoc(h: seq<Line>, line: Line, source: LineSource)
    ensures EventsOf(h + [line], source) == EventsOf(h, source) + if line.0 == source then [LineWritten(line.1, |h|)] else []
  {
    assert (h + [line])[..|h|] == h;
  }

  // One line more: its own stream's history grows by it, the other's stays.
  lemma RunOfSnoc(h: seq<Line>, line: Line, source: LineSource, lim: Limits)
    ensures Run(EventsOf(h + [line], source), lim)
         == if line.0 == source then Write(Run(EventsOf(h, source), lim), line.1, |h|, lim.maxBytes, lim.maxRotated)
            else Run(EventsOf(h, source), lim)
    ensures Written(EventsOf(h + [line], source))
         == Written(EventsOf(h, source)) + if line.0 == source then [Entry(line.1, |h|)] else []
    ensures NothingTruncated(EventsOf(h, source), lim) ==> NothingTruncated(EventsOf(h + [line], source), lim)
  {
    hide EventsOf, Run, Write, Written;
    EventsSnoc(h, line, source);
    var before, ev := EventsOf(h, source), LineWritten(line.1, |h|);
    RunSnoc(before, ev, lim);
    assert (before + [ev])[..|before|] == before;
    assert before + [] == before && Written(before) + [] == Written(before);
  }

  lemma {:induction false} PairIsRuns(h: seq<Line>, lim: Limits)
    ensures PairRun(h, lim) == (Run(EventsOf(h, Stdout), lim), Run(EventsOf(h, Stderr), lim))
  {
    if h == [] {
      NothingRun(lim);
      assert EventsOf(h, Stdout) == [] == EventsOf(h, Stderr);
    } else {
      hide Run, Write, EventsOf, PairRun, Written, NothingTruncated;
      var before, last := h[..|h| - 1], h[|h| - 1];
      assert h == before + [last];
      PairSnoc(before, last, lim);
      PairIsRuns(before, lim);
      RunOfSnoc(before, last, Stdout, lim);
      RunOfSnoc(before, last, Stderr, lim);
    }
  }

  lemma {:induction false} EventsTruncateNothing(h: seq<Line>, source: LineSource, lim: Limits)
    ensures NothingTruncated(EventsOf(h, source), lim)
  {
    if h != [] {
      hide Run, EventsOf, NothingTruncated;
      assert h == h[..|h| - 1] + [h[|h| - 1]];
      EventsTruncateNothing(h[..|h| - 1], source, lim);
      RunOfSnoc(h[..|h| - 1], h[|h| - 1], source, lim);
    }
  }

  // What all lines take in the log files.
  function TotalBytes(h: seq<Line>): nat {
    if h == [] then 0 else TotalBytes(h[..|h| - 1]) + |h[|h| - 1].1| + 1
  }

  // Lines without a newline, and numbers of eight bytes.
  predicate PairStorable(h: seq<Line>, lim: Limits) {
    |h| <= U64_LIMIT && (forall i :: 0 <= i < |h| ==> NEWLINE !in h[i].1)
    && (0 < lim.maxBytes < U64_LIMIT || TotalBytes(h) < U64_LIMIT)
  }

  lemma {:induction false} BytesWritten(h: seq<Line>, source: LineSource)
    ensures |LogBytes(Written(EventsOf(h, source)))| <= TotalBytes(h)
  {
    if h == [] {
      NothingLogged();
      assert EventsOf(h, source) == [];
    } else {
      hide LogBytes, EventsOf, Written, Run, Write, NothingTruncated;
      var before, last := h[..|h| - 1], h[|h| - 1];
      assert h == before + [last];
      BytesWritten(before, source);
      RunOfSnoc(before, last, source, Limits(0, 0));
      LogSnoc(Written(EventsOf(before, source)), Entry(last.1, |before|));
      assert Written(EventsOf(before, source)) + [] == Written(EventsOf(before, source));
    }
  }

  lemma {:induction false} LinesWritten(h: seq<Line>, source: LineSource)
    ensures forall e :: e in Written(EventsOf(h, source)) ==> e.seqNo < |h| && h[e.seqNo] == (source, e.text)
  {
    if h == [] {
      assert EventsOf(h, source) == [];
    } else {
      hide EventsOf, Written, Run, Write, NothingTruncated;
      var before, last := h[..|h| - 1], h[|h| - 1];
      assert h == before + [last];
      LinesWritten(before, source);
      RunOfSnoc(before, last, source, Limits(0, 0));
      forall e | e in Written(EventsOf(h, source)) ensures e.seqNo < |h| && h[e.seqNo] == (source, e.text) {
        if e in Written(EventsOf(before, source)) { assert h[e.seqNo] == before[e.seqNo]; }
      }
    }
  }

  lemma SideStorable(h: seq<Line>, source: LineSource, lim: Limits)
    requires PairStorable(h, lim)
    ensures Storable(Written(EventsOf(h, source)), lim)
  {
    hide LogBytes, Written, EventsOf, TotalBytes;
    BytesWritten(h, source);
    LinesWritten(h, source);
  }

  // --- Two writers --------------------------------------------------------------------------------

  // The captures that have ended have flushed their index.
  function Ended(st: Stream, ended: bool): Stream { if ended then Flushed(st) else st }

  // The two writers of an incarnation after these lines.
  ghost predicate Writing(out: LogWriteState, err: LogWriteState, h: seq<Line>, lim: Limits)
    reads out, out.disk, out.idxWriter, err, err.disk, err.idxWriter, out.counter
  {
    out != err && out.disk != err.disk && out.idxWriter != err.idxWriter && out.counter == err.counter
    && Under(out, out.disk, lim) && Under(err, err.disk, lim)
    && out.Valid() && err.Valid()
    && out.counter.next == |h| && (out.stream, err.stream) == PairRun(h, lim)
  }

  // A line goes to its stream's writer and draws its number from the shared counter.
  method WriteTo(out: LogWriteState, err: LogWriteState, line: Line, ghost h: seq<Line>, lim: Limits)
    requires Writing(out, err, h, lim)
    modifies out, out.disk, out.idxWriter, err, err.disk, err.idxWriter, out.counter
    ensures out.idxWriter == old(out.idxWriter) || fresh(out.idxWriter)
    ensures err.idxWriter == old(err.idxWriter) || fresh(err.idxWriter)
    ensures Writing(out, err, h + [line], lim)
  {
    hide PairRun, OnDisk, RotatedOnDisk, Write, LogBytes, Records, AllRecords, WriteEffects, IndexSound, Unindexed, MustRotate;
    PairSnoc(h, line, lim);
    match line.0 {
      case Stdout => out.WriteLine(line.1);
      case Stderr => err.WriteLine(line.1);
    }
  }

  method OpenBoth(outDisk: Disk, errDisk: Disk, lim: Limits) returns (out: LogWriteState, err: LogWriteState)
    requires outDisk != errDisk && outDisk.files == map[] == errDisk.files
    modifies outDisk, errDisk
    ensures fresh(out) && fresh(out.idxWriter) && out.disk == outDisk && fresh(out.counter)
    ensures fresh(err) && fresh(err.idxWriter) && err.disk == errDisk
    ensures Writing(out, err, [], lim)
  {
    hide OnDisk, RotatedOnDisk, LogBytes;
    NothingRotated(outDisk.files);
    var counter := new SeqCounter();
    var outSink := OpenSink(outDisk, 0, []);
    var errSink := OpenSink(errDisk, 0, []);
    out := new LogWriteState(outDisk, outSink, lim.maxBytes, lim.maxRotated, counter, OPENED);
    err := new LogWriteState(errDisk, errSink, lim.maxBytes, lim.maxRotated, counter, OPENED);
  }

  // An incarnation from its opening in two empty directories; in the end each capture may have
  // ended.
  method WriteBoth(outDisk: Disk, errDisk: Disk, h: seq<Line>, lim: Limits, outEnds: bool, errEnds: bool)
    requires outDisk != errDisk && outDisk.files == map[] == errDisk.files
    modifies outDisk, errDisk
    ensures OnDisk(outDisk.files, Ended(PairRun(h, lim).0, outEnds))
    ensures OnDisk(errDisk.files, Ended(PairRun(h, lim).1, errEnds))
  {
    hide PairRun, OnDisk, Writing;
    var out, err := OpenBoth(outDisk, errDisk, lim);
    for i := 0 to |h|
      invariant fresh(out) && fresh(out.idxWriter) && out.disk == outDisk
      invariant fresh(err) && fresh(err.idxWriter) && err.disk == errDisk && fresh(out.counter)
      invariant Writing(out, err, h[..i], lim)
    {
      assert h[..i + 1] == h[..i] + [h[i]];
      WriteTo(out, err, h[i], h[..i], lim);
    }
    assert h[..|h|] == h;
    EndCaptures(out, err, h, lim, outEnds, errEnds);
  }

  method EndCaptures(out: LogWriteState, err: LogWriteState, ghost h: seq<Line>, lim: Limits, outEnds: bool, errEnds: bool)
    requires Writing(out, err, h, lim)
    modifies out, out.disk, out.idxWriter, err, err.disk, err.idxWriter
    ensures OnDisk(out.disk.files, Ended(PairRun(h, lim).0, outEnds))
    ensures OnDisk(err.disk.files, Ended(PairRun(h, lim).1, errEnds))
  {
    hide PairRun, OnDisk, LogBytes, Records, AllRecords;
    if outEnds {
      out.Finish();
    }
    if errEnds {
      err.Finish();
    }
  }

  // --- And back -------------------------------------------------------------------------------------

  lemma SideReadable(h: seq<Line>, source: LineSource, lim: Limits, ended: bool)
    requires PairStorable(h, lim)
    ensures var st := Ended(Run(EventsOf(h, source), lim), ended);
            st.indexed <= |st.cur.entries| && Readable(IndexedSegments(st))
  {
    hide Run, EventsOf, Written, Storable, Readable;
    var st := Run(EventsOf(h, source), lim);
    SideStorable(h, source, lim);
    IndexLagsByLessThan64(EventsOf(h, source), lim);
    RunReadable(EventsOf(h, source), lim, Ended(st, ended).indexed);
    assert st.(indexed := Ended(st, ended).indexed) == Ended(st, ended);
  }

  // The line of the history with this number is kept and has its index record.
  ghost predicate Visible(out: Stream, err: Stream, k: nat)
    requires out.indexed <= |out.cur.entries| && err.indexed <= |err.cur.entries|
  {
    exists e :: (e in Indexed(out) || e in Indexed(err)) && e.seqNo == k
  }

  function Numbers(ms: seq<Merged>): (ks: seq<nat>)
    ensures |ks| == |ms| && forall i :: 0 <= i < |ks| ==> ks[i] == ms[i].seqNo
  {
    seq(|ms|, i requires 0 <= i < |ms| => ms[i].seqNo)
  }

  predicate Increasing(ks: seq<nat>) { forall i, j :: 0 <= i < j < |ks| ==> ks[i] < ks[j] }

  // The lines of the history with these numbers.
  function LinesAt(h: seq<Line>, ks: seq<nat>): (lines: seq<Line>)
    requires forall i :: 0 <= i < |ks| ==> ks[i] < |h|
    ensures |lines| == |ks| && forall i :: 0 <= i < |ks| ==> lines[i] == h[ks[i]]
  {
    seq(|ks|, i requires 0 <= i < |ks| => h[ks[i]])
  }

  // These are the numbers of exactly the visible lines of the history, in its order.
  ghost predicate Selects(shown: seq<nat>, out: Stream, err: Stream, h: seq<Line>)
    requires out.indexed <= |out.cur.entries| && err.indexed <= |err.cur.entries|
  {
    Increasing(shown) && (forall k :: k in shown <==> Visible(out, err, k)) && (forall i :: 0 <= i < |shown| ==> shown[i] < |h|)
  }

  lemma NumbersVisible(out: Stream, err: Stream, ms: seq<Merged>, k: nat)
    requires out.indexed <= |out.cur.entries| && err.indexed <= |err.cur.entries|
    requires multiset(ms) == multiset(BothTagged(Indexed(out), Indexed(err)))
    ensures k in Numbers(ms) <==> Visible(out, err, k)
  {
    hide BothTagged, Indexed;
    var a, b := Indexed(out), Indexed(err);
    if k in Numbers(ms) {
      var i: nat :| i < |ms| && Numbers(ms)[i] == k;
      assert ms[i] in multiset(ms);
      TaggedIn(a, b, ms[i]);
      var e := Chosen(ms[i].source, a, b)[ms[i].line];
      assert (e in a || e in b) && e.seqNo == k;
    }
    if Visible(out, err, k) {
      var e :| (e in a || e in b) && e.seqNo == k;
      var source := if e in a then Stdout else Stderr;
      var j: nat :| j < |Chosen(source, a, b)| && Chosen(source, a, b)[j] == e;
      TaggedIn(a, b, Merged(k, source, j));
      assert Merged(k, source, j) in multiset(ms);
      var i: nat :| i < |ms| && ms[i] == Merged(k, source, j);
      assert Numbers(ms)[i] == k;
    }
  }

  // The merged view of what two writers left: the visible lines of the history, in its order.
  lemma MergeShowsVisible(snap: Snapshot, out: Stream, err: Stream, h: seq<Line>, start: nat, count: nat)
    requires Shows(snap, out, err) && Tracks(Indexed(out), Stdout, h) && Tracks(Indexed(err), Stderr, h)
    ensures out.indexed <= |out.cur.entries| && err.indexed <= |err.cur.entries|
    ensures var shown := Numbers(AllMerged(snap));
            Selects(shown, out, err, h)
            && Rendered(snap, Slice(AllMerged(snap), start, count)) == Some(Slice(LinesAt(h, shown), start, count))
            && (LinesAt(h, shown) == h <==> |Indexed(out)| + |Indexed(err)| == |h|)
  {
    hide Shows, TextOf, Tracks, AllMerged, Visible, Indexed;
    ShowsIndexed(snap, out, err);
    MergeIsPermutation(snap, out, err);
    MergedTracksHistory(snap, out, err, h);
    var ms := AllMerged(snap);
    forall k ensures k in Numbers(ms) <==> Visible(out, err, k) { NumbersVisible(out, err, ms, k); }
    var lines := LinesAt(h, Numbers(ms));
    RenderedFrom(snap, Slice(ms, start, count), Slice(lines, start, count));
    if |ms| == |h| {
      forall i | 0 <= i < |ms| ensures ms[i].seqNo == i { IncreasingFills(ms, |h|, i); }
      assert lines == h;
    }
  }

  // The same by the code itself, for any history of both streams, any rotation and any lag of
  // either index: two writers go through it, then the interleaved reader reads. What it reads
  // from is the history itself exactly when all lines are kept and indexed.
  method WriteBothThenRead(outDisk: Disk, errDisk: Disk, h: seq<Line>, lim: Limits, outEnds: bool, errEnds: bool,
                           start: nat, count: nat)
    returns (lines: Option<seq<Line>>, ghost out: Stream, ghost err: Stream, ghost shown: seq<nat>)
    requires outDisk != errDisk && outDisk.files == map[] == errDisk.files
    modifies outDisk, errDisk
    ensures (out, err) == (Ended(PairRun(h, lim).0, outEnds), Ended(PairRun(h, lim).1, errEnds))
    ensures out.indexed <= |out.cur.entries| && err.indexed <= |err.cur.entries|
    ensures PairStorable(h, lim) ==>
              && Selects(shown, out, err, h)
              && lines == Some(Slice(LinesAt(h, shown), start, count))
              && (LinesAt(h, shown) == h <==> |Indexed(out)| + |Indexed(err)| == |h|)
  {
    hide PairRun, OnDisk, Readable, Run, EventsOf, Visible, Rendered, AllMerged, Shows, PairStorable, Tracks, Retained, Holds;
    WriteBoth(outDisk, errDisk, h, lim, outEnds, errEnds);
    out, err := Ended(PairRun(h, lim).0, outEnds), Ended(PairRun(h, lim).1, errEnds);
    OnDiskHolds(outDisk.files, out);
    OnDiskHolds(errDisk.files, err);
    PairIsRuns(h, lim);
    var snap := TakeSnapshot(outDisk.files, errDisk.files, out, err);
    lines := ReadInterleaved(snap, start, count);
    shown := Numbers(AllMerged(snap));
    if PairStorable(h, lim) {
      SideReadable(h, Stdout, lim, outEnds);
      SideReadable(h, Stderr, lim, errEnds);
      EndedTracks(h, lim, outEnds, errEnds);
      MergeShowsVisible(snap, out, err, h, start, count);
    }
  }

  lemma EndedTracks(h: seq<Line>, lim: Limits, outEnds: bool, errEnds: bool)
    requires var (out, err) := PairRun(h, lim);
             Ended(out, outEnds).indexed <= |Ended(out, outEnds).cur.entries|
             && Ended(err, errEnds).indexed <= |Ended(err, errEnds).cur.entries|
    ensures Tracks(Indexed(Ended(PairRun(h, lim).0, outEnds)), Stdout, h)
    ensures Tracks(Indexed(Ended(PairRun(h, lim).1, errEnds)), Stderr, h)
  {
    hide PairRun, Tracks;
    var (out, err) := PairRun(h, lim);
    PairTracks(h, lim);
    assert Retained(Ended(out, outEnds)) == Retained(out) && Retained(Ended(err, errEnds)) == Retained(err);
    IndexedTracks(Ended(out, outEnds), Stdout, h);
    IndexedTracks(Ended(err, errEnds), Stderr, h);
  }

  // All are when both captures have ended and the lines fit one file.
  lemma {:induction false} SmallPairWhole(h: seq<Line>, lim: Limits)
    requires lim.maxBytes == 0 || TotalBytes(h) <= lim.maxBytes
    ensures var (out, err) := PairRun(h, lim);
            out.rotated == [] == err.rotated && |out.cur.entries| + |err.cur.entries| == |h|
            && |LogBytes(out.cur.entries)| + |LogBytes(err.cur.entries)| == TotalBytes(h)
            && |Indexed(Flushed(out))| + |Indexed(Flushed(err))| == |h|
  {
    var (out, err) := PairRun(h, lim);
    if h == [] {
      NothingLogged();
    } else {
      hide LogBytes, Indexed;
      var before, last := h[..|h| - 1], h[|h| - 1];
      SmallPairWhole(before, lim);
      LogSnoc(PairRun(before, lim).0.cur.entries, Entry(last.1, |before|));
      LogSnoc(PairRun(before, lim).1.cur.entries, Entry(last.1, |before|));
    }
    OneSegment(Flushed(out));
    OneSegment(Flushed(err));
  }
}
