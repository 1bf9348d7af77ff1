/** What is on disk after any history of writes, flushes and restarts of one stream. */
module LogRuns {
  import opened Storage
  import opened LogIndex
  import opened LogWriter

  datatype LogEvent =
    | LineWritten(text: Bytes, seqNo: nat)
    | CaptureEnded
    | Reopened(rotate: bool)

  datatype Limits = Limits(maxBytes: nat, maxRotated: nat)

  function Next(st: Stream, ev: LogEvent, lim: Limits): Stream {
    match ev
    case LineWritten(text, seqNo) => Write(st, text, seqNo, lim.maxBytes, lim.maxRotated)
    case CaptureEnded => Flushed(st)
    case Reopened(rotate) => Reopen(st, rotate, lim.maxRotated)
  }

  // From the first opening in an empty directory.
  function Run(evs: seq<LogEvent>, lim: Limits): Stream {
    if evs == [] then OPENED else Next(Run(evs[..|evs| - 1], lim), evs[|evs| - 1], lim)
  }

  function Written(evs: seq<LogEvent>): seq<Entry> {
    if evs == [] then []
    else
      var before, ev := Written(evs[..|evs| - 1]), evs[|evs| - 1];
      if ev.LineWritten? then before + [Entry(ev.text, ev.seqNo)] else before
  }

  function AllEntries(segs: seq<Segment>): seq<Entry> {
    if segs == [] then [] else AllEntries(segs[..|segs| - 1]) + segs[|segs| - 1].entries
  }

  // Oldest first, over all files there are.
  function Retained(st: Stream): seq<Entry> { AllEntries(st.rotated) + st.cur.entries }

  predicate IsSuffix<T(==)>(a: seq<T>, b: seq<T>) { |a| <= |b| && a == b[|b| - |a|..] }

  // A manual restart truncates the current log without rotating; it is harmless here when it
  // finds that log empty.
  predicate NothingTruncated(evs: seq<LogEvent>, lim: Limits) {
    evs == []
    || (NothingTruncated(evs[..|evs| - 1], lim)
        && (evs[|evs| - 1] == Reopened(false) ==> Run(evs[..|evs| - 1], lim).cur.entries == []))
  }

  lemma AllEntriesSnoc(segs: seq<Segment>, seg: Segment)
    ensures AllEntries(segs + [seg]) == AllEntries(segs) + seg.entries
  {
    assert (segs + [seg])[..|segs|] == segs;
  }

  lemma {:induction false} DropFirst(segs: seq<Segment>)
    requires segs != []
    ensures AllEntries(segs) == segs[0].entries + AllEntries(segs[1..])
  {
    hide AllEntries;
    var front, last := segs[..|segs| - 1], segs[|segs| - 1];
    assert segs == front + [last];
    AllEntriesSnoc(front, last);
    NoEntries();
    if front == [] {
      assert segs[1..] == [];
      assert [] + last.entries == last.entries == last.entries + [];
    } else {
      DropFirst(front);
      AllEntriesSnoc(front[1..], last);
      assert segs[1..] == front[1..] + [last];
      assert segs[0].entries + AllEntries(front[1..]) + last.entries == segs[0].entries + (AllEntries(front[1..]) + last.entries);
    }
  }

  lemma NoEntries()
    ensures AllEntries([]) == []
  {
  }

  // Only whole segments go, from the oldest end.
  lemma {:induction false} NewestIsSuffix(segs: seq<Segment>, max: nat)
    ensures IsSuffix(AllEntries(Newest(segs, max)), AllEntries(segs))
    decreases |segs|
  {
    hide AllEntries;
    if |segs| > max {
      DropFirst(segs);
      NewestIsSuffix(segs[1..], max);
      assert segs[1..][|segs| - 1 - max..] == segs[|segs| - max..];
    }
  }

  lemma RotateKeepsSuffix(st: Stream, max: nat, seqBase: nat)
    ensures IsSuffix(Retained(Rotate(st, max, seqBase)), Retained(st))
  {
    AllEntriesSnoc(st.rotated, st.cur);
    NewestIsSuffix(st.rotated + [st.cur], max);
  }

  lemma SuffixSnoc<T>(a: seq<T>, b: seq<T>, x: T)
    requires IsSuffix(a, b)
    ensures IsSuffix(a + [x], b + [x])
  {
  }

  lemma AppendKeeps(st: Stream, e: Entry)
    ensures Retained(AppendEntry(st, e)) == Retained(st) + [e]
  {
  }

  // Lines are lost only from the oldest end: what the directory holds is the most recent part
  // of everything written, in at most `maxRotated` + 1 segments.
  lemma {:induction false} RetainedIsSuffix(evs: seq<LogEvent>, lim: Limits)
    requires NothingTruncated(evs, lim)
    ensures IsSuffix(Retained(Run(evs, lim)), Written(evs))
    ensures |Run(evs, lim).rotated| <= lim.maxRotated
  {
    if evs != [] {
      var before, ev := evs[..|evs| - 1], evs[|evs| - 1];
      RetainedIsSuffix(before, lim);
      var st := Run(before, lim);
      match ev {
        case LineWritten(text, seqNo) =>
          RotateKeepsSuffix(st, lim.maxRotated, seqNo);
          var base := if MustRotate(st, text, lim.maxBytes) then Rotate(st, lim.maxRotated, seqNo) else st;
          AppendKeeps(base, Entry(text, seqNo));
          SuffixSnoc(Retained(base), Written(before), Entry(text, seqNo));
        case CaptureEnded =>
        case Reopened(rotate) =>
          RotateKeepsSuffix(Flushed(st), lim.maxRotated, 0);
      }
    }
  }

  predicate Under(writer: LogWriteState, disk: Disk, lim: Limits) {
    writer.disk == disk && writer.maxBytes == lim.maxBytes && writer.maxRotatedFiles == lim.maxRotated
  }

  // A respawn: the capture ends, the files are opened again, a new capture begins.
  method Restart(writer: LogWriteState, rotate: bool, lim: Limits) returns (next: LogWriteState)
    requires writer.Valid() && Under(writer, writer.disk, lim) && lim.maxRotated == DEFAULT_MAX_ROTATED_FILES
    modifies writer, writer.disk, writer.idxWriter
    ensures fresh(next) && fresh(next.idxWriter) && fresh(next.counter)
    ensures next.Valid() && Under(next, writer.disk, lim)
    ensures next.stream == Reopen(old(writer.stream), rotate, lim.maxRotated)
  {
    hide OnDisk, Reopen;
    ghost var st := writer.stream;
    assert Reopen(Flushed(st), rotate, lim.maxRotated) == Reopen(st, rotate, lim.maxRotated) by { FlushedReopens(st, rotate, lim.maxRotated); }
    ReopensEmpty(st, rotate, lim.maxRotated);
    writer.Finish();
    var sink := ReopenLog(writer.disk, rotate, st);
    var counter := new SeqCounter();
    next := new LogWriteState(writer.disk, sink, lim.maxBytes, lim.maxRotated, counter, Reopen(st, rotate, lim.maxRotated));
  }

  lemma FlushedReopens(st: Stream, rotate: bool, max: nat)
    ensures Reopen(Flushed(st), rotate, max) == Reopen(st, rotate, max)
  {
  }

  lemma ReopensEmpty(st: Stream, rotate: bool, max: nat)
    requires |st.rotated| <= max
    ensures Reopen(st, rotate, max).cur.entries == [] && |Reopen(st, rotate, max).rotated| <= max
  {
  }

  // One event on the files. Before a line the shared counter stands at the number the line
  // draws, wherever the other stream has left it.
  method Perform(writer: LogWriteState, ev: LogEvent, lim: Limits) returns (next: LogWriteState)
    requires writer.Valid() && Under(writer, writer.disk, lim) && lim.maxRotated == DEFAULT_MAX_ROTATED_FILES
    modifies writer, writer.disk, writer.idxWriter, writer.counter
    ensures next == writer || fresh(next)
    ensures next.idxWriter == old(writer.idxWriter) || fresh(next.idxWriter)
    ensures next.counter == writer.counter || fresh(next.counter)
    ensures next.Valid() && Under(next, writer.disk, lim)
    ensures next.stream == Next(old(writer.stream), ev, lim)
  {
    hide OnDisk, Write, Reopen;
    next := writer;
    match ev {
      case LineWritten(text, seqNo) =>
        writer.counter.next := seqNo;
        writer.WriteLine(text);
      case CaptureEnded =>
        writer.Finish();
      case Reopened(rotate) =>
        next := Restart(writer, rotate, lim);
    }
  }

  // The files of one stream over a whole history, from an empty directory.
  method RunHistory(disk: Disk, evs: seq<LogEvent>, lim: Limits)
    requires disk.files == map[] && lim.maxRotated == DEFAULT_MAX_ROTATED_FILES
    modifies disk
    ensures OnDisk(disk.files, Flushed(Run(evs, lim)))
  {
    hide Run, OnDisk, RotatedOnDisk, Next;
    NothingRun(lim);
    NothingRotated(disk.files);
    var counter := new SeqCounter();
    var sink := OpenSink(disk, 0, []);
    var writer := new LogWriteState(disk, sink, lim.maxBytes, lim.maxRotated, counter, OPENED);
    for i := 0 to |evs|
      invariant fresh(writer) && fresh(writer.counter) && fresh(writer.idxWriter) && Under(writer, disk, lim)
      invariant writer.Valid() && writer.stream == Run(evs[..i], lim)
    {
      assert evs[..i + 1] == evs[..i] + [evs[i]];
      RunSnoc(evs[..i], evs[i], lim);
      writer := Perform(writer, evs[i], lim);
    }
    assert evs[..|evs|] == evs;
    writer.Finish();
  }

  lemma NothingRotated(files: Files)
    requires files == map[]
    ensures RotatedOnDisk(files, [])
  {
  }

  // --- Manual restarts -------------------------------------------------------------------------

  // A manual restart that finds the current log empty, or nothing older, keeps the latest lines.
  lemma ManualRestartKeepsSuffix(st: Stream, written: seq<Entry>, max: nat)
    requires IsSuffix(Retained(st), written) && (st.cur.entries == [] || AllEntries(st.rotated) == [])
    ensures IsSuffix(Retained(Reopen(st, false, max)), written)
  {
  }

  // Any other leaves a gap, when lines can be told apart.
  lemma ManualRestartLosesSuffix(st: Stream, written: seq<Entry>, max: nat)
    requires IsSuffix(Retained(st), written) && st.cur.entries != [] && AllEntries(st.rotated) != []
    requires forall i, j :: 0 <= i < j < |written| ==> written[i] != written[j]
    ensures !IsSuffix(Retained(Reopen(st, false, max)), written)
  {
    var older, cur := AllEntries(st.rotated), st.cur.entries;
    assert Retained(Reopen(st, false, max)) == older;
    assert Retained(st)[|older| - 1] == written[|written| - |cur| - 1];
  }

  // The same history with each line named by its place in it, so that no two are alike.
  function Named(evs: seq<LogEvent>): seq<LogEvent> {
    if evs == [] then []
    else
      var before, ev := evs[..|evs| - 1], evs[|evs| - 1];
      Named(before) + [if ev.LineWritten? then LineWritten(ev.text, |Written(before)|) else ev]
  }

  predicate AlikeSegments(a: Segment, b: Segment) {
    |a.entries| == |b.entries| && forall i :: 0 <= i < |a.entries| ==> a.entries[i].text == b.entries[i].text
  }

  // The same lines in the same files, whatever their numbers.
  predicate Alike(s: Stream, t: Stream) {
    |s.rotated| == |t.rotated| && s.indexed == t.indexed && AlikeSegments(s.cur, t.cur)
    && forall i :: 0 <= i < |s.rotated| ==> AlikeSegments(s.rotated[i], t.rotated[i])
  }

  lemma {:induction false} AlikeBytes(a: seq<Entry>, b: seq<Entry>)
    requires |a| == |b| && forall i :: 0 <= i < |a| ==> a[i].text == b[i].text
    ensures LogBytes(a) == LogBytes(b)
  {
    if a != [] { AlikeBytes(a[..|a| - 1], b[..|b| - 1]); }
  }

  lemma AlikeRotate(s: Stream, t: Stream, max: nat, m: nat, n: nat)
    requires Alike(s, t)
    ensures Alike(Rotate(s, max, m), Rotate(t, max, n))
  {
    hide AlikeSegments;
    assert AlikeSegments(Segment(m, []), Segment(n, [])) by { NoLinesAlike(m, n); }
    var a, b := s.rotated + [s.cur], t.rotated + [t.cur];
    assert forall i :: 0 <= i < |a| ==> AlikeSegments(a[i], b[i]);
  }

  lemma NoLinesAlike(m: nat, n: nat)
    ensures AlikeSegments(Segment(m, []), Segment(n, []))
  {
  }

  lemma AlikeAppend(s: Stream, t: Stream, text: Bytes, m: nat, n: nat)
    requires Alike(s, t)
    ensures Alike(AppendEntry(s, Entry(text, m)), AppendEntry(t, Entry(text, n)))
  {
  }

  lemma AlikeNext(s: Stream, t: Stream, ev: LogEvent, n: nat, lim: Limits)
    requires Alike(s, t)
    ensures Alike(Next(s, ev, lim), Next(t, if ev.LineWritten? then LineWritten(ev.text, n) else ev, lim))
  {
    hide Alike, Rotate, AppendEntry;
    match ev {
      case LineWritten(text, m) =>
        AlikeMustRotate(s, t, text, lim.maxBytes);
        AlikeRotate(s, t, lim.maxRotated, m, n);
        if MustRotate(s, text, lim.maxBytes) {
          AlikeAppend(Rotate(s, lim.maxRotated, m), Rotate(t, lim.maxRotated, n), text, m, n);
        } else {
          AlikeAppend(s, t, text, m, n);
        }
      case CaptureEnded =>
        AlikeFlushed(s, t);
      case Reopened(rotate) =>
        AlikeFlushed(s, t);
        AlikeRotate(Flushed(s), Flushed(t), lim.maxRotated, 0, 0);
        AlikeTruncated(s, t);
    }
  }

  lemma AlikeMustRotate(s: Stream, t: Stream, text: Bytes, maxBytes: nat)
    requires Alike(s, t)
    ensures MustRotate(s, text, maxBytes) == MustRotate(t, text, maxBytes)
  {
    AlikeBytes(s.cur.entries, t.cur.entries);
  }

  lemma AlikeFlushed(s: Stream, t: Stream)
    requires Alike(s, t)
    ensures Alike(Flushed(s), Flushed(t))
  {
  }

  lemma AlikeTruncated(s: Stream, t: Stream)
    requires Alike(s, t)
    ensures Alike(Stream(s.rotated, Segment(0, []), 0), Stream(t.rotated, Segment(0, []), 0))
  {
  }

  lemma {:induction false} NamedRunsAlike(evs: seq<LogEvent>, lim: Limits)
    ensures Alike(Run(evs, lim), Run(Named(evs), lim))
    ensures NothingTruncated(evs, lim) ==> NothingTruncated(Named(evs), lim)
    ensures |Written(Named(evs))| == |Written(evs)|
    ensures forall i :: 0 <= i < |Written(evs)| ==> Written(Named(evs))[i] == Entry(Written(evs)[i].text, i)
  {
    if evs != [] {
      var before, ev := evs[..|evs| - 1], evs[|evs| - 1];
      var named := if ev.LineWritten? then LineWritten(ev.text, |Written(before)|) else ev;
      NamedRunsAlike(before, lim);
      assert Named(evs)[..|Named(before)|] == Named(before) && Named(evs) == Named(before) + [named];
      RunSnoc(Named(before), named, lim);
      hide Alike, Next;
      AlikeNext(Run(before, lim), Run(Named(before), lim), ev, |Written(before)|, lim);
      AlikeEmpty(Run(before, lim), Run(Named(before), lim));
    } else {
      NothingRun(lim);
    }
  }

  lemma AlikeEmpty(s: Stream, t: Stream)
    requires Alike(s, t)
    ensures s.cur.entries == [] <==> t.cur.entries == []
  {
  }

  lemma {:induction false} AlikeAll(a: seq<Segment>, b: seq<Segment>)
    requires |a| == |b| && forall i :: 0 <= i < |a| ==> AlikeSegments(a[i], b[i])
    ensures |AllEntries(a)| == |AllEntries(b)|
  {
    if a != [] {
      AlikeAll(a[..|a| - 1], b[..|b| - 1]);
      assert AlikeSegments(a[|a| - 1], b[|b| - 1]);
    }
  }

  // Exactly when a manual restart leaves a gap, after any history that left none: lines are
  // told apart by their place in it.
  lemma ManualRestartKeepsSuffixIff(evs: seq<LogEvent>, lim: Limits)
    requires NothingTruncated(evs, lim)
    ensures IsSuffix(Retained(Run(Named(evs) + [Reopened(false)], lim)), Written(Named(evs) + [Reopened(false)]))
       <==> Run(evs, lim).cur.entries == [] || AllEntries(Run(evs, lim).rotated) == []
  {
    hide Run, Written, Named, AllEntries, NothingTruncated, IsSuffix;
    var named, st := Named(evs), Run(Named(evs), lim);
    NamedRunsAlike(evs, lim);
    RunSnoc(named, Reopened(false), lim);
    RetainedIsSuffix(named, lim);
    AlikeAll(Run(evs, lim).rotated, st.rotated);
    assert Written(named) + [] == Written(named);
    if st.cur.entries == [] || AllEntries(st.rotated) == [] {
      ManualRestartKeepsSuffix(st, Written(named), lim.maxRotated);
    } else {
      ManualRestartLosesSuffix(st, Written(named), lim.maxRotated);
    }
  }

  // The gap is real: one line, a rotation, another line, a manual restart.
  lemma ManualRestartCanLose()
    ensures var evs, lim := [LineWritten([65], 0), LineWritten([66], 1), Reopened(false)], Limits(2, 5);
            Written(evs) == [Entry([65], 0), Entry([66], 1)] && Retained(Run(evs, lim)) == [Entry([65], 0)]
  {
    hide Run, Written, AllEntries, LogBytes;
    var e0, e1, lim := Entry([65], 0), Entry([66], 1), Limits(2, 5);
    var w0, w1, r := LineWritten([65], 0), LineWritten([66], 1), Reopened(false);
    var s0, s1, s2 := Segment(0, []), Segment(0, [e0]), Segment(1, [e1]);
    NothingRun(lim);
    NoEntries();
    assert [] + [w0] == [w0] && [w0] + [w1] == [w0, w1] && [w0, w1] + [r] == [w0, w1, r];
    RunSnoc([], w0, lim);
    RunSnoc([w0], w1, lim);
    RunSnoc([w0, w1], r, lim);
    LogSnoc([], e0);
    NothingLogged();
    assert [] + [e0] == [e0] && [] + [e1] == [e1] && [] + [s1] == [s1];
    assert Run([w0], lim) == Stream([], s1, 0);
    assert Run([w0, w1], lim) == Stream([s1], s2, 0);
    AllEntriesSnoc([], s1);
  }

  lemma NothingLogged()
    ensures LogBytes([]) == []
  {
  }

  lemma NothingRun(lim: Limits)
    ensures Run([], lim) == OPENED && Written([]) == []
  {
  }

  lemma RunSnoc(evs: seq<LogEvent>, ev: LogEvent, lim: Limits)
    ensures Run(evs + [ev], lim) == Next(Run(evs, lim), ev, lim)
    ensures Written(evs + [ev]) == Written(evs) + if ev.LineWritten? then [Entry(ev.text, ev.seqNo)] else []
  {
    assert (evs + [ev])[..|evs|] == evs;
  }

  // One line and the end of its capture.
  lemma OneLineRun(text: Bytes, lim: Limits)
    ensures Run([LineWritten(text, 0), CaptureEnded], lim).cur.entries == [Entry(text, 0)]
  {
    hide Run;
    NothingRun(lim);
    RunSnoc([], LineWritten(text, 0), lim);
    RunSnoc([LineWritten(text, 0)], CaptureEnded, lim);
    assert [] + [LineWritten(text, 0)] == [LineWritten(text, 0)];
    assert [LineWritten(text, 0)] + [CaptureEnded] == [LineWritten(text, 0), CaptureEnded];
  }

  // --- Sizes and lag, over all histories ------------------------------------------------------

  // Within the limit, or a single line that does not fit anywhere.
  predicate Bounded(seg: Segment, maxBytes: nat) {
    maxBytes > 0 ==> |LogBytes(seg.entries)| <= maxBytes || |seg.entries| <= 1
  }

  predicate AllBounded(st: Stream, maxBytes: nat) {
    Bounded(st.cur, maxBytes) && (forall seg :: seg in st.rotated ==> Bounded(seg, maxBytes))
  }

  lemma RotateBounded(st: Stream, max: nat, seqBase: nat, maxBytes: nat)
    requires AllBounded(st, maxBytes)
    ensures AllBounded(Rotate(st, max, seqBase), maxBytes)
  {
    hide Bounded;
    assert Bounded(Segment(seqBase, []), maxBytes) by { EmptyBounded(seqBase, maxBytes); }
    forall seg | seg in Newest(st.rotated + [st.cur], max) ensures Bounded(seg, maxBytes) {
      assert seg in st.rotated + [st.cur];
    }
  }

  lemma EmptyBounded(seqBase: nat, maxBytes: nat)
    ensures Bounded(Segment(seqBase, []), maxBytes)
  {
  }

  lemma AppendBounded(st: Stream, e: Entry, maxBytes: nat)
    requires AllBounded(st, maxBytes) && (MustRotate(st, e.text, maxBytes) ==> st.cur.entries == [])
    ensures AllBounded(AppendEntry(st, e), maxBytes)
  {
    LogSnoc(st.cur.entries, e);
  }

  lemma {:induction false} SegmentsStayBounded(evs: seq<LogEvent>, lim: Limits)
    ensures AllBounded(Run(evs, lim), lim.maxBytes)
  {
    if evs != [] {
      var before, ev := evs[..|evs| - 1], evs[|evs| - 1];
      SegmentsStayBounded(before, lim);
      var st := Run(before, lim);
      match ev {
        case LineWritten(text, seqNo) =>
          RotateBounded(st, lim.maxRotated, seqNo, lim.maxBytes);
          var base := if MustRotate(st, text, lim.maxBytes) then Rotate(st, lim.maxRotated, seqNo) else st;
          AppendBounded(base, Entry(text, seqNo), lim.maxBytes);
        case CaptureEnded =>
        case Reopened(rotate) =>
          RotateBounded(Flushed(st), lim.maxRotated, 0, lim.maxBytes);
          EmptyBounded(0, lim.maxBytes);
      }
    }
  }

  // The first line of `next` did not fit behind those of `seg`; its number is the base of `next`.
  predicate Overflows(seg: Segment, next: Segment, maxBytes: nat) {
    next.entries != [] && next.seqBase == next.entries[0].seqNo
    && 0 < maxBytes < |LogBytes(seg.entries)| + |next.entries[0].text| + 1
  }

  // The segment that came after the i-th rotated one.
  function Following(st: Stream, i: nat): Segment
    requires i < |st.rotated|
  {
    if i + 1 < |st.rotated| then st.rotated[i + 1] else st.cur
  }

  // Each segment was followed by the next one only because of that.
  predicate RotatedWhenFull(st: Stream, maxBytes: nat) {
    forall i: nat :: i < |st.rotated| ==> Overflows(st.rotated[i], Following(st, i), maxBytes)
  }

  lemma AppendKeepsFull(st: Stream, e: Entry, maxBytes: nat)
    requires RotatedWhenFull(st, maxBytes) && (st.rotated != [] ==> st.cur.entries != [])
    ensures RotatedWhenFull(AppendEntry(st, e), maxBytes)
  {
    hide LogBytes;
    var after := AppendEntry(st, e);
    forall i: nat | i < |after.rotated| ensures Overflows(after.rotated[i], Following(after, i), maxBytes) {
      assert Overflows(st.rotated[i], Following(st, i), maxBytes);
    }
  }

  lemma RotateKeepsFull(st: Stream, e: Entry, max: nat, maxBytes: nat)
    requires RotatedWhenFull(st, maxBytes) && 0 < maxBytes < |LogBytes(st.cur.entries)| + |e.text| + 1
    ensures RotatedWhenFull(AppendEntry(Rotate(st, max, e.seqNo), e), maxBytes)
  {
    hide LogBytes;
    var all, after := st.rotated + [st.cur], AppendEntry(Rotate(st, max, e.seqNo), e);
    var skip := |all| - |after.rotated|;
    assert after.cur == Segment(e.seqNo, [e]);
    forall i: nat | i < |after.rotated| ensures Overflows(after.rotated[i], Following(after, i), maxBytes) {
      assert after.rotated[i] == all[skip + i];
      if i + 1 < |after.rotated| {
        assert after.rotated[i + 1] == all[skip + i + 1];
        assert Overflows(st.rotated[skip + i], Following(st, skip + i), maxBytes);
      }
    }
  }

  // Within one incarnation a log is rotated only when the next line does not fit any more.
  lemma {:induction false} RotatedOnlyWhenFull(evs: seq<LogEvent>, lim: Limits)
    requires forall i :: 0 <= i < |evs| ==> !evs[i].Reopened?
    ensures RotatedWhenFull(Run(evs, lim), lim.maxBytes)
    ensures Run(evs, lim).rotated != [] ==> Run(evs, lim).cur.entries != []
  {
    if evs != [] {
      hide RotatedWhenFull, LogBytes;
      var before, ev := evs[..|evs| - 1], evs[|evs| - 1];
      RotatedOnlyWhenFull(before, lim);
      var st := Run(before, lim);
      match ev {
        case LineWritten(text, seqNo) =>
          var e := Entry(text, seqNo);
          if lim.maxBytes > 0 && |LogBytes(st.cur.entries)| + |text| + 1 > lim.maxBytes {
            RotateKeepsFull(st, e, lim.maxRotated, lim.maxBytes);
          } else {
            AppendKeepsFull(st, e, lim.maxBytes);
          }
        case CaptureEnded =>
          FlushKeepsFull(st, lim.maxBytes);
        case Reopened(_) =>
          assert false;
      }
    } else {
      NothingFull(lim);
    }
  }

  lemma FlushKeepsFull(st: Stream, maxBytes: nat)
    requires RotatedWhenFull(st, maxBytes)
    ensures RotatedWhenFull(Flushed(st), maxBytes)
  {
    assert forall i: nat :: i < |st.rotated| ==> Following(Flushed(st), i) == Following(st, i);
  }

  lemma NothingFull(lim: Limits)
    ensures RotatedWhenFull(Run([], lim), lim.maxBytes) && Run([], lim).rotated == []
  {
  }

  lemma {:induction false} IndexLagsByLessThan64(evs: seq<LogEvent>, lim: Limits)
    ensures var st := Run(evs, lim); st.indexed <= |st.cur.entries| <= st.indexed + 63
  {
    if evs != [] { IndexLagsByLessThan64(evs[..|evs| - 1], lim); }
  }
}
