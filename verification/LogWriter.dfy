/** Writing captured lines with their index, and rotating the files
    (src/daemon/log_writer.rs). */
module LogWriter {
  import opened Options
  import opened Storage
  import opened LogIndex

  const NEWLINE: Byte := 10
  const FLUSH_EVERY: nat := 64
  const DEFAULT_MAX_ROTATED_FILES: nat := 5

  // --- What the files mean --------------------------------------------------------------

  datatype Entry = Entry(text: Bytes, seqNo: nat)

  // One log file and its index, as the lines in it.
  datatype Segment = Segment(seqBase: nat, entries: seq<Entry>)

  // The rotated segments, oldest first, and the one being written; `indexed` of its lines
  // have an index record on disk.
  datatype Stream = Stream(rotated: seq<Segment>, cur: Segment, indexed: nat)

  function LineBytes(e: Entry): (bs: Bytes)
    ensures |bs| == |e.text| + 1
  {
    e.text + [NEWLINE]
  }

  function LogBytes(entries: seq<Entry>): Bytes {
    if entries == [] then [] else LogBytes(entries[..|entries| - 1]) + LineBytes(entries[|entries| - 1])
  }

  // The true index of these lines: where each starts, and its sequence number.
  function Records(entries: seq<Entry>): (rs: seq<IndexRecord>)
    ensures |rs| == |entries|
  {
    if entries == [] then []
    else
      var before := entries[..|entries| - 1];
      Records(before) + [IndexRecord(|LogBytes(before)|, entries[|entries| - 1].seqNo)]
  }

  // The index of the first `k` of these lines.
  function IndexOf(seg: Segment, k: nat): Bytes
    requires k <= |seg.entries|
  {
    IndexFile(seg.seqBase, Records(seg.entries)[..k])
  }

  // The rotated segment with this number: 1 is the newest.
  function Numbered(rotated: seq<Segment>, n: nat): Segment
    requires 1 <= n <= |rotated|
  {
    rotated[|rotated| - n]
  }

  function RotatedContent(rotated: seq<Segment>, f: FileName): Bytes
    requires 1 <= f.index <= |rotated|
  {
    var seg := Numbered(rotated, f.index);
    if f.LogFile? then LogBytes(seg.entries) else IndexOf(seg, |seg.entries|)
  }

  ghost predicate RotatedOnDisk(files: Files, rotated: seq<Segment>) {
    forall f: FileName :: f.index > 0 ==>
      (f in files <==> f.index <= |rotated|)
      && (f.index <= |rotated| && f in files ==> files[f] == RotatedContent(rotated, f))
  }

  // The directory holds exactly this stream.
  ghost predicate OnDisk(files: Files, st: Stream) {
    RotatedOnDisk(files, st.rotated)
    && st.indexed <= |st.cur.entries|
    && LogFile(0) in files && files[LogFile(0)] == LogBytes(st.cur.entries)
    && IdxFile(0) in files && files[IdxFile(0)] == IndexOf(st.cur, st.indexed)
  }

  // --- What the operations do ---------------------------------------------------------------

  // Keeps the newest `max` segments.
  function Newest(segs: seq<Segment>, max: nat): seq<Segment> {
    if |segs| > max then segs[|segs| - max..] else segs
  }

  function Rotate(st: Stream, max: nat, seqBase: nat): Stream {
    Stream(Newest(st.rotated + [st.cur], max), Segment(seqBase, []), 0)
  }

  function AppendEntry(st: Stream, e: Entry): Stream {
    var n := |st.cur.entries| + 1;
    Stream(st.rotated, st.cur.(entries := st.cur.entries + [e]), if n >= st.indexed + FLUSH_EVERY then n else st.indexed)
  }

  predicate MustRotate(st: Stream, text: Bytes, maxBytes: nat) {
    maxBytes > 0 && |LogBytes(st.cur.entries)| + |text| + 1 > maxBytes
  }

  function Write(st: Stream, text: Bytes, seqNo: nat, maxBytes: nat, max: nat): Stream {
    AppendEntry(if MustRotate(st, text, maxBytes) then Rotate(st, max, seqNo) else st, Entry(text, seqNo))
  }

  // The end of a capture flushes the index.
  function Flushed(st: Stream): Stream { st.(indexed := |st.cur.entries|) }

  // A new incarnation opens its log afresh; an automatic or watch restart rotates first.
  function Reopen(st: Stream, rotate: bool, max: nat): Stream {
    if rotate then Rotate(Flushed(st), max, 0) else Stream(st.rotated, Segment(0, []), 0)
  }

  const OPENED: Stream := Stream([], Segment(0, []), 0)

  // --- Lemmas about files -----------------------------------------------------------------

  lemma LogSnoc(entries: seq<Entry>, e: Entry)
    ensures LogBytes(entries + [e]) == LogBytes(entries) + LineBytes(e)
    ensures Records(entries + [e]) == Records(entries) + [IndexRecord(|LogBytes(entries)|, e.seqNo)]
  {
    assert (entries + [e])[..|entries|] == entries;
  }

  lemma {:induction false} LogConcat(a: seq<Entry>, b: seq<Entry>)
    ensures LogBytes(a + b) == LogBytes(a) + LogBytes(b)
    decreases |b|
  {
    if b == [] {
      assert a + b == a;
    } else {
      assert (a + b)[..|a + b| - 1] == a + b[..|b| - 1];
      LogConcat(a, b[..|b| - 1]);
    }
  }

  // Records of a prefix are a prefix of the records, and each points at the start of its line.
  lemma {:induction false} RecordsPrefix(entries: seq<Entry>, k: nat)
    requires k <= |entries|
    ensures Records(entries)[..k] == Records(entries[..k])
    ensures k < |entries| ==> Records(entries)[k] == IndexRecord(|LogBytes(entries[..k])|, entries[k].seqNo)
    decreases |entries|
  {
    if k < |entries| {
      var before := entries[..|entries| - 1];
      RecordsPrefix(before, k);
      assert before[..k] == entries[..k];
    } else {
      assert entries[..k] == entries;
    }
  }

  // --- Rotation -----------------------------------------------------------------------------

  function Previous(f: FileName): FileName
    requires f.index > 0
  {
    f.(index := f.index - 1)
  }

  // Files 0 .. n-1 are there, each log with its index.
  ghost predicate Contiguous(files: Files, n: nat) {
    forall f: FileName :: f in files <==> f.index < n
  }

  // After a rotation: every file has moved one number up, those beyond `max` are gone and
  // number 0 is free.
  ghost predicate Shifted(before: Files, after: Files, n: nat, max: nat) {
    (forall f: FileName :: f in after <==> 1 <= f.index <= n && f.index <= max)
    && (forall f: FileName :: f in after && f.index > 0 && Previous(f) in before ==> after[f] == before[Previous(f)])
  }

  // What file `f` is when the cascade has done numbers above `i`: those above i + 1 have moved,
  // i + 1 is free but for the oldest, the rest are as before.
  ghost predicate MovedAt(before: Files, now: Files, i: nat, max: nat, f: FileName) {
    if f.index <= i then
      (f in now <==> f in before) && (f in now && f in before ==> now[f] == before[f])
    else if f.index == i + 1 then
      f in now ==> i + 1 == max && f in before
    else
      (f in now <==> f.index <= max && Previous(f) in before)
      && (f in now && Previous(f) in before ==> now[f] == before[Previous(f)])
  }

  ghost predicate Moved(before: Files, now: Files, i: nat, max: nat) {
    forall f: FileName :: MovedAt(before, now, i, max, f)
  }

  function MoveUp(files: Files, i: nat): Files {
    Renamed(Renamed(files, LogFile(i), LogFile(i + 1)), IdxFile(i), IdxFile(i + 1))
  }

  lemma CascadeStep(before: Files, now: Files, n: nat, i: nat, max: nat)
    requires Contiguous(before, n) && n <= max + 1 && 1 <= i < max && Moved(before, now, i, max)
    ensures Moved(before, MoveUp(now, i), i - 1, max)
  {
    var up, below := MoveUp(now, i), i - 1;
    forall f: FileName ensures MovedAt(before, up, below, max, f) {
      assert MovedAt(before, now, i, max, f);
      if f.index == i + 1 { assert MovedAt(before, now, i, max, Previous(f)); }
    }
  }

  lemma LastStep(before: Files, now: Files, n: nat, max: nat)
    requires Contiguous(before, n) && n <= max + 1 && Moved(before, now, 0, max)
    ensures Shifted(before, MoveUp(now, 0) - {LogFile(max + 1)} - {IdxFile(max + 1)}, n, max)
  {
    var after := MoveUp(now, 0) - {LogFile(max + 1)} - {IdxFile(max + 1)};
    forall f: FileName
      ensures (f in after <==> 1 <= f.index <= n && f.index <= max)
      ensures f in after && f.index > 0 && Previous(f) in before ==> after[f] == before[Previous(f)]
    {
      assert MovedAt(before, now, 0, max, f);
      if f.index > 0 { assert MovedAt(before, now, 0, max, Previous(f)); }
    }
  }

  // In the middle of the cascade: below `j` nothing has moved yet, and there is no log `j`.
  ghost predicate PartlyMoved(before: Files, files: Files, j: nat) {
    LogFile(j) !in files
    && forall f: FileName :: f.index < j ==> (f in files <==> f in before) && (f in files && f in before ==> files[f] == before[f])
  }

  ghost predicate Cascading(before: Files, files: Files, max: nat) {
    exists j :: 1 <= j < max && PartlyMoved(before, files, j)
  }

  // Log and index of every number above 0 that moves.
  function CascadeLength(max: nat): nat { if max == 0 then 0 else 2 * (max - 1) }

  // The last four effects of a rotation: log and index leave number 0, the oldest are removed.
  function LastEffects(now: Files, max: nat): seq<Files> {
    var log, both := Renamed(now, LogFile(0), LogFile(1)), MoveUp(now, 0);
    [log, both, both - {LogFile(max + 1)}, both - {LogFile(max + 1)} - {IdxFile(max + 1)}]
  }

  // The directories a rotation goes through: the cascade, then the last four.
  ghost predicate RotationEffects(added: seq<Files>, before: Files, max: nat) {
    var c := CascadeLength(max);
    |added| == c + 4
    && (forall i :: 0 <= i < c ==> Cascading(before, added[i], max))
    && exists now :: Moved(before, now, 0, max) && added[c..] == LastEffects(now, max)
  }

  lemma MovedMeans(before: Files, now: Files, i: nat, max: nat, f: FileName)
    requires Moved(before, now, i, max)
    ensures MovedAt(before, now, i, max, f)
  {
  }

  lemma CascadeMoves(before: Files, now: Files, i: nat, max: nat)
    requires 1 <= i < max && Moved(before, now, i, max)
    ensures Cascading(before, Renamed(now, LogFile(i), LogFile(i + 1)), max)
    ensures Cascading(before, MoveUp(now, i), max)
  {
    var half, whole := Renamed(now, LogFile(i), LogFile(i + 1)), MoveUp(now, i);
    forall f: FileName | f.index < i
      ensures f in half <==> f in before
      ensures f in whole <==> f in before
      ensures f in before ==> half[f] == before[f] == whole[f]
    {
      assert MovedAt(before, now, i, max, f);
    }
    assert PartlyMoved(before, half, i) && PartlyMoved(before, whole, i);
  }

  // The cascade, from the highest number down: log and index move in lockstep.
  method Cascade(disk: Disk, max: nat, ghost n: nat)
    requires Contiguous(disk.files, n) && n <= max + 1
    modifies disk
    ensures Moved(old(disk.files), disk.files, 0, max)
    ensures old(disk.history) <= disk.history && |disk.history| == |old(disk.history)| + CascadeLength(max)
    ensures forall k :: |old(disk.history)| <= k < |disk.history| ==> Cascading(old(disk.files), disk.history[k], max)
  {
    ghost var before, past := disk.files, |disk.history|;
    var i: nat := if max == 0 then 0 else max - 1;
    while i >= 1
      invariant max > 0 ==> i < max
      invariant Moved(before, disk.files, i, max)
      invariant old(disk.history) <= disk.history && |disk.history| + 2 * i == past + CascadeLength(max)
      invariant forall k :: past <= k < |disk.history| ==> Cascading(before, disk.history[k], max)
    {
      hide Moved, Cascading;
      CascadeStep(before, disk.files, n, i, max);
      CascadeMoves(before, disk.files, i, max);
      disk.Rename(LogFile(i), LogFile(i + 1));
      disk.Rename(IdxFile(i), IdxFile(i + 1));
      i := i - 1;
    }
  }

  lemma RotationFollows(before: Files, now: Files, moves: seq<Files>, max: nat)
    requires Moved(before, now, 0, max)
    requires |moves| == CascadeLength(max) && forall k :: 0 <= k < |moves| ==> Cascading(before, moves[k], max)
    ensures RotationEffects(moves + LastEffects(now, max), before, max)
  {
    hide Cascading, Moved, LastEffects;
    var all := moves + LastEffects(now, max);
    assert |LastEffects(now, max)| == 4 by { FourEffects(now, max); }
    assert all[|moves|..] == LastEffects(now, max);
  }

  lemma FourEffects(now: Files, max: nat)
    ensures |LastEffects(now, max)| == 4
  {
  }

  method RotateLogFiles(disk: Disk, max: nat, ghost n: nat)
    requires Contiguous(disk.files, n) && n <= max + 1
    modifies disk
    ensures Shifted(old(disk.files), disk.files, n, max)
    ensures old(disk.history) < disk.history && disk.history[|disk.history| - 1] == disk.files
    ensures RotationEffects(disk.history[|old(disk.history)|..], old(disk.files), max)
  {
    ghost var before, past := disk.files, |disk.history|;
    Cascade(disk, max, n);
    hide Moved, Cascading, Shifted, RotationEffects;
    ghost var now, moves := disk.files, disk.history[past..];
    LastStep(before, now, n, max);
    disk.Rename(LogFile(0), LogFile(1));
    disk.Rename(IdxFile(0), IdxFile(1));
    disk.Remove(LogFile(max + 1));
    disk.Remove(IdxFile(max + 1));
    assert disk.history[past..] == moves + LastEffects(now, max);
    RotationFollows(before, now, moves, max);
  }

  lemma OnDiskContiguous(files: Files, st: Stream)
    requires OnDisk(files, st)
    ensures Contiguous(files, |st.rotated| + 1)
  {
    assert LogFile(0) in files && IdxFile(0) in files;
    forall f: FileName ensures f in files <==> f.index < |st.rotated| + 1 {
      assert f.index == 0 ==> f == LogFile(0) || f == IdxFile(0);
    }
  }

  lemma NewestSize(segs: seq<Segment>, max: nat)
    ensures |Newest(segs, max)| == Min(|segs|, max)
  {
  }

  lemma NewestNumbered(rotated: seq<Segment>, cur: Segment, max: nat, n: nat)
    requires 1 <= n <= |Newest(rotated + [cur], max)|
    ensures Numbered(Newest(rotated + [cur], max), n) == if n == 1 then cur else Numbered(rotated, n - 1)
  {
  }

  lemma RotatedAt(files: Files, after: Files, st: Stream, max: nat, f: FileName)
    requires OnDisk(files, Flushed(st)) && |st.rotated| <= max
    requires Contiguous(files, |st.rotated| + 1) && Shifted(files, after, |st.rotated| + 1, max)
    requires 1 <= f.index <= |Newest(st.rotated + [st.cur], max)|
    ensures f in after && after[f] == RotatedContent(Newest(st.rotated + [st.cur], max), f)
  {
    hide LogBytes, IndexOf, Newest, Numbered, Shifted, Contiguous;
    var was := Previous(f);
    NewestSize(st.rotated + [st.cur], max);
    ShiftedAt(files, after, |st.rotated| + 1, max, f);
    NewestNumbered(st.rotated, st.cur, max, f.index);
    assert f.index == 1 ==> was == LogFile(0) || was == IdxFile(0);
  }

  lemma ShiftedAt(files: Files, after: Files, n: nat, max: nat, f: FileName)
    requires Contiguous(files, n) && Shifted(files, after, n, max) && 1 <= f.index <= n && f.index <= max
    ensures f in after && Previous(f) in files && after[f] == files[Previous(f)]
  {
  }

  // Rotation and fresh files for number 0 give the stream with its oldest segment dropped.
  lemma RotationOnDisk(files: Files, after: Files, st: Stream, max: nat, seqBase: nat)
    requires OnDisk(files, Flushed(st)) && |st.rotated| <= max
    requires Shifted(files, after, |st.rotated| + 1, max)
    ensures OnDisk(after[LogFile(0) := []][IdxFile(0) := Header(seqBase)], Rotate(st, max, seqBase))
  {
    hide RotatedContent, Header, IndexOf, OnDisk, Newest;
    var kept, log := Newest(st.rotated + [st.cur], max), after[LogFile(0) := []];
    RotatedAfter(files, after, st, max);
    RotatedUnder(after, kept, LogFile(0), []);
    RotatedUnder(log, kept, IdxFile(0), Header(seqBase));
    FreshIndex(seqBase);
    FreshOnDisk(log[IdxFile(0) := Header(seqBase)], kept, seqBase);
  }

  lemma RotatedAfter(files: Files, after: Files, st: Stream, max: nat)
    requires OnDisk(files, Flushed(st)) && |st.rotated| <= max
    requires Shifted(files, after, |st.rotated| + 1, max)
    ensures RotatedOnDisk(after, Newest(st.rotated + [st.cur], max))
  {
    hide RotatedContent, OnDisk, Newest;
    OnDiskContiguous(files, Flushed(st));
    NewestSize(st.rotated + [st.cur], max);
    var kept := Newest(st.rotated + [st.cur], max);
    forall f: FileName | 1 <= f.index <= |kept| ensures f in after && after[f] == RotatedContent(kept, f) {
      hide Shifted, Contiguous;
      RotatedAt(files, after, st, max, f);
    }
  }

  // The rotated files do not change with a current one.
  lemma RotatedUnder(files: Files, rotated: seq<Segment>, f: FileName, bs: Bytes)
    requires RotatedOnDisk(files, rotated) && f.index == 0
    ensures RotatedOnDisk(files[f := bs], rotated)
  {
    hide RotatedContent;
  }

  lemma FreshOnDisk(files: Files, rotated: seq<Segment>, seqBase: nat)
    requires RotatedOnDisk(files, rotated)
    requires LogFile(0) in files && files[LogFile(0)] == []
    requires IdxFile(0) in files && files[IdxFile(0)] == IndexOf(Segment(seqBase, []), 0)
    ensures OnDisk(files, Stream(rotated, Segment(seqBase, []), 0))
  {
    hide RotatedOnDisk, IndexFile;
  }

  lemma FreshIndex(seqBase: nat)
    ensures IndexOf(Segment(seqBase, []), 0) == Header(seqBase)
  {
    assert Header(seqBase) + [] == Header(seqBase);
  }

  // A line that has reached the log leaves the index behind by one more.
  lemma LineOnDisk(files: Files, st: Stream, e: Entry)
    requires OnDisk(files, st)
    ensures OnDisk(files[LogFile(0) := files[LogFile(0)] + LineBytes(e)],
                   st.(cur := st.cur.(entries := st.cur.entries + [e])))
  {
    LogSnoc(st.cur.entries, e);
    assert Records(st.cur.entries + [e])[..st.indexed] == Records(st.cur.entries)[..st.indexed];
  }

  lemma PendingSnoc(entries: seq<Entry>, indexed: nat, e: Entry)
    requires indexed <= |entries|
    ensures AllRecords(Records(entries + [e])[indexed..])
         == AllRecords(Records(entries)[indexed..]) + RecordBytes(IndexRecord(|LogBytes(entries)|, e.seqNo))
  {
    LogSnoc(entries, e);
    var pending, r := Records(entries)[indexed..], IndexRecord(|LogBytes(entries)|, e.seqNo);
    assert Records(entries + [e])[indexed..] == pending + [r];
    AllRecordsAppend(pending, [r]);
    AllRecordsOne(r);
  }

  // Flushing the pending records completes the index.
  lemma FlushOnDisk(files: Files, st: Stream)
    requires OnDisk(files, st)
    ensures OnDisk(files[IdxFile(0) := files[IdxFile(0)] + AllRecords(Records(st.cur.entries)[st.indexed..])], Flushed(st))
  {
    hide Records, AllRecords, LogBytes, Header;
    var rs := Records(st.cur.entries);
    AllRecordsAppend(rs[..st.indexed], rs[st.indexed..]);
    assert rs[..st.indexed] + rs[st.indexed..] == rs == rs[..|rs|];
    assert IndexOf(st.cur, |rs|) == IndexOf(st.cur, st.indexed) + AllRecords(rs[st.indexed..]);
  }

  // What a crash or a concurrent reader finds while the current segment grows to `seg`: whole
  // index records for the first `k` lines, all of those lines complete in the log, and of the
  // rest at most a beginning.
  predicate DurableAt(files: Files, seg: Segment, k: nat) {
    k <= |seg.entries| <= k + FLUSH_EVERY
    && LogFile(0) in files && IdxFile(0) in files
    && files[IdxFile(0)] == IndexOf(seg, k)
    && LogBytes(seg.entries[..k]) <= files[LogFile(0)] <= LogBytes(seg.entries)
  }

  ghost predicate Durable(files: Files, st: Stream) {
    RotatedOnDisk(files, st.rotated) && exists k :: DurableAt(files, st.cur, k)
  }

  // The current index is missing, or too short for a header.
  predicate Unindexed(files: Files) {
    IdxFile(0) !in files || |files[IdxFile(0)]| < HEADER_SIZE
  }

  // The current index, if there is one, is a header and whole records for the first lines of
  // `seg`, at most 64 short of all; those lines are complete in the current log, if that is there.
  ghost predicate IndexSound(files: Files, seg: Segment) {
    Unindexed(files)
    || exists k: nat :: k <= |seg.entries| <= k + FLUSH_EVERY
         && files[IdxFile(0)] == IndexOf(seg, k)
         && (LogFile(0) in files ==> LogBytes(seg.entries[..k]) <= files[LogFile(0)])
  }

  lemma DurableIsSound(files: Files, st: Stream)
    requires Durable(files, st)
    ensures IndexSound(files, st.cur) && !Unindexed(files)
  {
    hide IndexFile, LogBytes, RotatedOnDisk;
    var k :| DurableAt(files, st.cur, k);
  }

  // The new log, the new index, and its header.
  function FreshFiles(now: Files, seqBase: nat): seq<Files> {
    var log := now[LogFile(0) := []];
    [log, log[IdxFile(0) := []], log[IdxFile(0) := Header(seqBase)]]
  }

  // From the first renaming of a current file to the header of the new index.
  function Turnover(now: Files, max: nat, seqBase: nat): seq<Files> {
    LastEffects(now, max) + FreshFiles(LastEffects(now, max)[3], seqBase)
  }

  // The directories a rotating write goes through before it writes its line: the index is
  // completed, the older files move up, and the current ones are turned over.
  ghost predicate RolloverEffects(added: seq<Files>, was: Stream, max: nat, seqBase: nat) {
    var c := CascadeLength(max);
    |added| == c + 8
    && OnDisk(added[0], Flushed(was))
    && (forall i :: 1 <= i <= c ==> Cascading(added[0], added[i], max))
    && exists now :: Moved(added[0], now, 0, max) && added[c + 1..] == Turnover(now, max, seqBase)
  }

  lemma CascadeKeepsCurrent(before: Files, files: Files, was: Stream, max: nat)
    requires OnDisk(before, Flushed(was)) && Cascading(before, files, max)
    ensures IndexSound(files, was.cur) && !Unindexed(files)
  {
    hide IndexFile, LogBytes, RotatedOnDisk;
    var j :| 1 <= j < max && PartlyMoved(before, files, j);
    assert IdxFile(0) in files && LogFile(0) in files;
    assert was.cur.entries[..|was.cur.entries|] == was.cur.entries;
    assert files[IdxFile(0)] == IndexOf(was.cur, |was.cur.entries|);
  }

  lemma RolloverFollows(before: Files, moves: seq<Files>, was: Stream, max: nat, seqBase: nat)
    requires OnDisk(before, Flushed(was)) && RotationEffects(moves, before, max)
    ensures RolloverEffects([before] + moves + FreshFiles(moves[|moves| - 1], seqBase), was, max, seqBase)
  {
    hide Cascading, Moved, Header, OnDisk;
    var c, all := CascadeLength(max), [before] + moves + FreshFiles(moves[|moves| - 1], seqBase);
    var now :| Moved(before, now, 0, max) && moves[c..] == LastEffects(now, max);
    assert moves[|moves| - 1] == moves[c..][3];
    assert forall i :: 0 <= i < |moves| ==> all[i + 1] == moves[i];
    assert all[c + 1..] == moves[c..] + FreshFiles(moves[|moves| - 1], seqBase);
  }

  // The old index is complete until it is renamed, and there is none, or an empty one, from
  // there to the new header.
  lemma TurnoverKeepsIndexSound(before: Files, now: Files, was: Stream, max: nat, seqBase: nat, i: nat)
    requires OnDisk(before, Flushed(was)) && Moved(before, now, 0, max) && i < 6
    ensures |Turnover(now, max, seqBase)| == 7
    ensures IndexSound(Turnover(now, max, seqBase)[i], was.cur)
    ensures Unindexed(Turnover(now, max, seqBase)[i]) <==> i >= 1
  {
    hide IndexFile, LogBytes, RotatedOnDisk, Header, Moved;
    assert MovedAt(before, now, 0, max, IdxFile(0)) by { MovedMeans(before, now, 0, max, IdxFile(0)); }
    var n := |was.cur.entries|;
    assert was.cur.entries[..n] == was.cur.entries;
    assert now[IdxFile(0)] == IndexOf(was.cur, n);
  }

  // At each of them but the last the index of number 0 is sound for the old segment; it is
  // missing or empty exactly from its renaming until the new header is written.
  lemma RolloverKeepsIndexSound(added: seq<Files>, was: Stream, max: nat, seqBase: nat, i: nat)
    requires RolloverEffects(added, was, max, seqBase) && i < CascadeLength(max) + 7
    ensures i < |added| && IndexSound(added[i], was.cur)
    ensures Unindexed(added[i]) <==> CascadeLength(max) + 2 <= i
  {
    hide IndexFile, LogBytes, RotatedOnDisk, Cascading, Moved, Turnover;
    var c, n := CascadeLength(max), |was.cur.entries|;
    assert was.cur.entries[..n] == was.cur.entries;
    if i == 0 {
    } else if i <= c {
      CascadeKeepsCurrent(added[0], added[i], was, max);
    } else {
      var now :| Moved(added[0], now, 0, max) && added[c + 1..] == Turnover(now, max, seqBase);
      TurnoverKeepsIndexSound(added[0], now, was, max, seqBase, i - c - 1);
      assert added[i] == added[c + 1..][i - c - 1];
    }
  }

  lemma {:induction false} LogPrefix(entries: seq<Entry>, k: nat)
    requires k <= |entries|
    ensures LogBytes(entries[..k]) <= LogBytes(entries)
  {
    LogConcat(entries[..k], entries[k..]);
    assert entries == entries[..k] + entries[k..];
  }

  lemma DurableFromFresh(files: Files, st: Stream, e: Entry)
    requires OnDisk(files, st) && st.cur.entries == []
    ensures Durable(files, AppendEntry(st, e))
  {
    DurableWhileWriting(files, st, e, []);
    assert files[LogFile(0) := files[LogFile(0)] + []] == files;
  }

  // The effects of one write: those of its rotation, if any, and then, from the header of the
  // new index on, directories that hold complete lines of the new stream.
  ghost predicate WriteEffects(added: seq<Files>, was: Stream, now: Stream, max: nat, seqBase: nat, rotates: bool) {
    var r := if rotates then CascadeLength(max) + 8 else 0;
    |added| > r
    && (rotates ==> RolloverEffects(added[..r], was, max, seqBase))
    && forall i :: (if rotates then r - 1 else r) <= i < |added| ==> Durable(added[i], now)
  }

  lemma WriteIsSound(added: seq<Files>, was: Stream, now: Stream, max: nat, seqBase: nat, rotates: bool, i: nat)
    requires WriteEffects(added, was, now, max, seqBase, rotates) && i < |added|
    ensures IndexSound(added[i], was.cur) || IndexSound(added[i], now.cur)
    ensures Unindexed(added[i]) <==> rotates && 2 <= i - CascadeLength(max) <= 6
  {
    hide Durable, IndexSound, Unindexed, RolloverEffects, CascadeLength;
    var r := CascadeLength(max) + 8;
    if rotates && i < r - 1 {
      RolloverKeepsIndexSound(added[..r], was, max, seqBase, i);
    } else {
      DurableIsSound(added[i], now);
    }
  }

  // The effects of a write from its two parts: the rotation's, if any, and those after it.
  lemma WriteFollows(turned: seq<Files>, rest: seq<Files>, was: Stream, now: Stream, max: nat, seqBase: nat, rotates: bool)
    requires if rotates then turned != [] && RolloverEffects(turned, was, max, seqBase) && Durable(turned[|turned| - 1], now)
             else turned == []
    requires rest != [] && forall i :: 0 <= i < |rest| ==> Durable(rest[i], now)
    ensures WriteEffects(turned + rest, was, now, max, seqBase, rotates)
  {
    var added, r := turned + rest, |turned|;
    if rotates { RolloverCount(turned, was, max, seqBase); }
    hide Durable, RolloverEffects, CascadeLength;
    assert added[..r] == turned;
    forall i | (if rotates then r - 1 else r) <= i < |added| ensures Durable(added[i], now) {
      if i >= r { assert added[i] == rest[i - r]; }
    }
  }

  lemma WriteAllSound(added: seq<Files>, was: Stream, now: Stream, max: nat, seqBase: nat, rotates: bool)
    requires WriteEffects(added, was, now, max, seqBase, rotates)
    ensures forall i :: 0 <= i < |added| ==>
              (IndexSound(added[i], was.cur) || IndexSound(added[i], now.cur))
              && (Unindexed(added[i]) <==> rotates && 2 <= i - CascadeLength(max) <= 6)
  {
    hide WriteEffects, IndexSound, Unindexed, CascadeLength;
    forall i: nat | i < |added|
      ensures IndexSound(added[i], was.cur) || IndexSound(added[i], now.cur)
      ensures Unindexed(added[i]) <==> rotates && 2 <= i - CascadeLength(max) <= 6
    {
      WriteIsSound(added, was, now, max, seqBase, rotates, i);
    }
  }

  lemma RolloverCount(added: seq<Files>, was: Stream, max: nat, seqBase: nat)
    requires RolloverEffects(added, was, max, seqBase)
    ensures |added| == CascadeLength(max) + 8
  {
  }

  lemma AppendedTwice(files: Files, f: FileName, a: Bytes, b: Bytes)
    requires f in files
    ensures files[f := files[f] + []] == files
    ensures files[f := files[f] + a][f := files[f] + a + b] == files[f := files[f] + (a + b)]
  {
    assert files[f] + [] == files[f] && files[f] + a + b == files[f] + (a + b);
  }

  lemma CurrentOnDisk(files: Files, st: Stream)
    requires OnDisk(files, st)
    ensures LogFile(0) in files && files[LogFile(0)] == LogBytes(st.cur.entries)
    ensures st.indexed <= |st.cur.entries|
    ensures IdxFile(0) in files && files[IdxFile(0)] == IndexOf(st.cur, st.indexed)
  {
  }

  // While `e` is being written, however much of it has reached the log.
  lemma DurableWhileWriting(files: Files, st: Stream, e: Entry, part: Bytes)
    requires OnDisk(files, st) && |st.cur.entries| < st.indexed + FLUSH_EVERY && part <= LineBytes(e)
    ensures Durable(files[LogFile(0) := files[LogFile(0)] + part], AppendEntry(st, e))
  {
    hide IndexFile;
    var entries := st.cur.entries;
    LogSnoc(entries, e);
    LogPrefix(entries, st.indexed);
    assert (entries + [e])[..st.indexed] == entries[..st.indexed];
    assert Records(entries + [e])[..st.indexed] == Records(entries)[..st.indexed];
    assert DurableAt(files[LogFile(0) := files[LogFile(0)] + part], AppendEntry(st, e).cur, st.indexed);
  }

  lemma DurableWhenFlushed(files: Files, st: Stream)
    requires OnDisk(files, st) && st.indexed == |st.cur.entries|
    ensures Durable(files, st)
  {
    assert st.cur.entries[..st.indexed] == st.cur.entries;
    assert DurableAt(files, st.cur, st.indexed);
  }

  // --- What a write does to the files, in bytes -------------------------------------------------

  // A line that fits is appended to the current log and nothing else of the logs changes.
  ghost predicate AppendedInPlace(before: Files, after: Files, line: Bytes) {
    (forall f: FileName :: f.index > 0 ==> (f in after <==> f in before) && (f in after && f in before ==> after[f] == before[f]))
    && LogFile(0) in before && LogFile(0) in after && after[LogFile(0)] == before[LogFile(0)] + line + [NEWLINE]
  }

  // One that does not starts a log of its own; each log there was moves up one number, as far as
  // numbers go.
  ghost predicate MovedToFresh(before: Files, after: Files, line: Bytes, max: nat) {
    LogFile(0) in after && after[LogFile(0)] == line + [NEWLINE]
    && forall n :: n > 0 ==>
         (LogFile(n) in after <==> n <= max && LogFile(n - 1) in before)
         && (LogFile(n) in after && LogFile(n - 1) in before ==> after[LogFile(n)] == before[LogFile(n - 1)])
  }

  lemma AppendsInPlace(before: Files, after: Files, st: Stream, e: Entry)
    requires OnDisk(before, st) && OnDisk(after, AppendEntry(st, e))
    ensures AppendedInPlace(before, after, e.text)
  {
    hide RotatedContent, IndexOf, LogBytes;
    LogSnoc(st.cur.entries, e);
    assert LogBytes(st.cur.entries) + LineBytes(e) == LogBytes(st.cur.entries) + e.text + [NEWLINE];
  }

  lemma MovesToFresh(before: Files, after: Files, st: Stream, max: nat, e: Entry)
    requires OnDisk(before, st) && OnDisk(after, AppendEntry(Rotate(st, max, e.seqNo), e)) && |st.rotated| <= max
    ensures MovedToFresh(before, after, e.text, max)
  {
    hide RotatedContent, IndexOf, LogBytes, Newest, Numbered;
    LogSnoc([], e);
    NothingPending();
    assert [] + [e] == [e];
    var kept := Newest(st.rotated + [st.cur], max);
    NewestSize(st.rotated + [st.cur], max);
    forall n | n > 0
      ensures LogFile(n) in after <==> n <= max && LogFile(n - 1) in before
      ensures LogFile(n) in after && LogFile(n - 1) in before ==> after[LogFile(n)] == before[LogFile(n - 1)]
    {
      assert LogFile(n).index == n && LogFile(n - 1).index == n - 1;
      if n <= |kept| {
        NewestNumbered(st.rotated, st.cur, max, n);
        LogAt(kept, n);
        if n > 1 { LogAt(st.rotated, n - 1); }
      }
    }
  }

  lemma LogAt(rotated: seq<Segment>, n: nat)
    requires 1 <= n <= |rotated|
    ensures RotatedContent(rotated, LogFile(n)) == LogBytes(Numbered(rotated, n).entries)
  {
  }

  lemma NothingPending()
    ensures LogBytes([]) == [] && AllRecords(Records([])[0..]) == []
  {
  }

  // --- Opening the files of an incarnation ---------------------------------------------------

  // LogSink::open: both files are created afresh.
  method OpenSink(disk: Disk, seqBase: nat, ghost rotated: seq<Segment>) returns (idxWriter: IndexWriter)
    requires RotatedOnDisk(disk.files, rotated)
    modifies disk
    ensures fresh(idxWriter) && idxWriter.disk == disk && idxWriter.path == IdxFile(0) && idxWriter.buffer == []
    ensures OnDisk(disk.files, Stream(rotated, Segment(seqBase, []), 0))
  {
    disk.Create(LogFile(0));
    idxWriter := new IndexWriter.Create(disk, IdxFile(0), seqBase);
    FreshIndex(seqBase);
  }

  // Nothing happens when there is no current log.
  method RotateIfExists(disk: Disk, ghost st: Stream)
    requires LogFile(0) in disk.files ==> OnDisk(disk.files, Flushed(st)) && |st.rotated| <= DEFAULT_MAX_ROTATED_FILES
    modifies disk
    ensures if LogFile(0) in old(disk.files)
            then RotatedOnDisk(disk.files, Newest(st.rotated + [st.cur], DEFAULT_MAX_ROTATED_FILES))
            else disk.files == old(disk.files)
  {
    if LogFile(0) in disk.files {
      hide OnDisk, RotatedOnDisk, Shifted, Contiguous, RotationEffects, Newest;
      ghost var before := disk.files;
      OnDiskContiguous(before, Flushed(st));
      RotateLogFiles(disk, DEFAULT_MAX_ROTATED_FILES, |st.rotated| + 1);
      RotatedAfter(before, disk.files, st, DEFAULT_MAX_ROTATED_FILES);
    }
  }

  // What a respawn does to the files of one stream, the previous capture having ended.
  method ReopenLog(disk: Disk, rotate: bool, ghost st: Stream) returns (idxWriter: IndexWriter)
    requires OnDisk(disk.files, Flushed(st)) && |st.rotated| <= DEFAULT_MAX_ROTATED_FILES
    modifies disk
    ensures fresh(idxWriter) && idxWriter.disk == disk && idxWriter.path == IdxFile(0) && idxWriter.buffer == []
    ensures OnDisk(disk.files, Reopen(st, rotate, DEFAULT_MAX_ROTATED_FILES))
  {
    CurrentOnDisk(disk.files, Flushed(st));
    if rotate {
      RotateIfExists(disk, st);
    }
    idxWriter := OpenSink(disk, 0, Reopen(st, rotate, DEFAULT_MAX_ROTATED_FILES).rotated);
  }

  // --- The writer ------------------------------------------------------------------------------

  // The counter the two streams of one incarnation share.
  class SeqCounter {
    var next: nat

    constructor ()
      ensures next == 0
    {
      next := 0;
    }

    method FetchAdd() returns (value: nat)
      modifies this
      ensures value == old(next) && next == old(next) + 1
    {
      value := next;
      next := next + 1;
    }
  }

  class LogWriteState {
    const disk: Disk
    var idxWriter: IndexWriter
    var bytesWritten: nat
    var linesSinceIdxFlush: nat
    const maxBytes: nat
    const maxRotatedFiles: nat
    const counter: SeqCounter
    // The lines broadcast to subscribers so far.
    var sent: seq<Bytes>
    // What the files hold.
    ghost var stream: Stream

    // Takes over a freshly opened log and index.
    constructor (disk: Disk, sink: IndexWriter, maxBytes: nat, maxRotatedFiles: nat, counter: SeqCounter, ghost st: Stream)
      requires sink.disk == disk && sink.path == IdxFile(0) && sink.buffer == []
      requires OnDisk(disk.files, st) && st.cur.entries == [] && |st.rotated| <= maxRotatedFiles
      ensures Valid() && stream == st && sent == []
      ensures this.disk == disk && this.counter == counter && idxWriter == sink
      ensures this.maxBytes == maxBytes && this.maxRotatedFiles == maxRotatedFiles
    {
      this.disk, this.idxWriter, this.counter := disk, sink, counter;
      this.maxBytes, this.maxRotatedFiles := maxBytes, maxRotatedFiles;
      bytesWritten, linesSinceIdxFlush, sent := 0, 0, [];
      stream := st;
    }

    ghost predicate Valid()
      reads this, disk, idxWriter
    {
      idxWriter.disk == disk && idxWriter.path == IdxFile(0)
      && OnDisk(disk.files, stream)
      && |stream.rotated| <= maxRotatedFiles
      && bytesWritten == |LogBytes(stream.cur.entries)|
      && |stream.cur.entries| == stream.indexed + linesSinceIdxFlush
      && linesSinceIdxFlush < FLUSH_EVERY
      && idxWriter.buffer == AllRecords(Records(stream.cur.entries)[stream.indexed..])
    }

    // The rotation inside write_line.
    method Rollover()
      requires Valid()
      modifies this, disk, idxWriter
      ensures Valid() && fresh(idxWriter)
      ensures stream == Rotate(old(stream), maxRotatedFiles, counter.next)
      ensures sent == old(sent) && linesSinceIdxFlush == 0
      ensures old(disk.history) < disk.history && disk.history[|disk.history| - 1] == disk.files
      ensures RolloverEffects(disk.history[|old(disk.history)|..], old(stream), maxRotatedFiles, counter.next)
    {
      hide OnDisk, LogBytes, Records, AllRecords, Header, Shifted, RotationEffects, RolloverEffects;
      ghost var was, past := stream, |disk.history|;
      CurrentOnDisk(disk.files, stream);
      FlushOnDisk(disk.files, stream);
      NothingPending();
      NewestSize(stream.rotated + [stream.cur], maxRotatedFiles);
      idxWriter.Flush();
      ghost var before := disk.files;
      CurrentOnDisk(before, Flushed(was));
      OnDiskContiguous(before, Flushed(stream));
      RotateLogFiles(disk, maxRotatedFiles, |stream.rotated| + 1);
      RotationOnDisk(before, disk.files, stream, maxRotatedFiles, counter.next);
      ghost var moves, now := disk.history[past + 1..], disk.files;
      RolloverFollows(before, moves, was, maxRotatedFiles, counter.next);
      disk.Create(LogFile(0));
      idxWriter := new IndexWriter.Create(disk, IdxFile(0), counter.next);
      bytesWritten := 0;
      linesSinceIdxFlush := 0;
      stream := Rotate(stream, maxRotatedFiles, counter.next);
      assert disk.history[past..] == [before] + moves + FreshFiles(now, counter.next);
    }

    // The line goes into the current log exactly when it fits there, and otherwise starts a new one.
    // Whatever the line, and at every effect of its write: the index on disk is sound for the
    // old or the new segment, and it is missing or without a header only in the middle of a
    // rotation.
    method WriteLine(line: Bytes)
      requires Valid()
      modifies this, disk, idxWriter, counter
      ensures Valid() && (idxWriter == old(idxWriter) || fresh(idxWriter))
      ensures stream == Write(old(stream), line, old(counter.next), maxBytes, maxRotatedFiles)
      ensures counter.next == old(counter.next) + 1
      ensures sent == old(sent) + [line]
      ensures LogFile(0) in old(disk.files)
      ensures maxBytes == 0 || |old(disk.files)[LogFile(0)]| + |line| + 1 <= maxBytes ==>
                AppendedInPlace(old(disk.files), disk.files, line) && stream.rotated == old(stream).rotated
                && stream.cur == Segment(old(stream).cur.seqBase, old(stream).cur.entries + [Entry(line, old(counter.next))])
      ensures 0 < maxBytes < |old(disk.files)[LogFile(0)]| + |line| + 1 ==>
                MovedToFresh(old(disk.files), disk.files, line, maxRotatedFiles)
                && stream.cur == Segment(old(counter.next), [Entry(line, old(counter.next))])
      ensures old(disk.history) < disk.history && disk.history[|disk.history| - 1] == disk.files
      ensures WriteEffects(disk.history[|old(disk.history)|..], old(stream), stream, maxRotatedFiles, old(counter.next),
                           MustRotate(old(stream), line, maxBytes))
      ensures var added := disk.history[|old(disk.history)|..];
              forall i :: 0 <= i < |added| ==>
                (IndexSound(added[i], old(stream).cur) || IndexSound(added[i], stream.cur))
                && (Unindexed(added[i]) <==>
                    MustRotate(old(stream), line, maxBytes) && 2 <= i - CascadeLength(maxRotatedFiles) <= 6)
    {
      hide OnDisk, Records, AllRecords, Durable, IndexSound, Unindexed, RolloverEffects, RotatedOnDisk, CascadeLength, LogBytes;
      ghost var was, past, seqBase, before := stream, |disk.history|, counter.next, disk.files;
      CurrentOnDisk(before, was);
      var lineBytes := |line| + 1;
      if maxBytes > 0 && bytesWritten + lineBytes > maxBytes {
        Rollover();
        DurableFromFresh(disk.files, stream, Entry(line, counter.next));
      }
      ghost var rolled := disk.history;
      Append(line);
      sent := sent + [line];
      assert disk.history[past..] == rolled[past..] + disk.history[|rolled|..];
      WriteFollows(rolled[past..], disk.history[|rolled|..], was, stream, maxRotatedFiles, seqBase, MustRotate(was, line, maxBytes));
      WriteAllSound(disk.history[past..], was, stream, maxRotatedFiles, seqBase, MustRotate(was, line, maxBytes));
      if MustRotate(was, line, maxBytes) {
        MovesToFresh(before, disk.files, was, maxRotatedFiles, Entry(line, seqBase));
      } else {
        AppendsInPlace(before, disk.files, was, Entry(line, seqBase));
      }
    }

    // The rest of write_line: record, text, newline, and every 64 lines an index flush.
    method Append(line: Bytes)
      requires Valid()
      modifies this, disk, idxWriter, counter
      ensures Valid() && idxWriter == old(idxWriter)
      ensures stream == AppendEntry(old(stream), Entry(line, old(counter.next)))
      ensures counter.next == old(counter.next) + 1
      ensures sent == old(sent)
      ensures old(disk.history) < disk.history && disk.history[|disk.history| - 1] == disk.files
      ensures forall i :: |old(disk.history)| <= i < |disk.history| ==> Durable(disk.history[i], stream)
    {
      hide OnDisk, Durable, Records, AllRecords, LogBytes;
      Put(line);
      if linesSinceIdxFlush >= FLUSH_EVERY {
        FlushIndex();
        DurableWhenFlushed(disk.files, stream);
      }
    }

    // Record, text and newline.
    method Put(line: Bytes)
      requires Valid()
      modifies this`bytesWritten, this`linesSinceIdxFlush, this`stream, disk, idxWriter, counter
      ensures var e := Entry(line, old(counter.next));
              stream == old(stream).(cur := old(stream).cur.(entries := old(stream).cur.entries + [e]))
              && old(disk.history) < disk.history && |disk.history| == |old(disk.history)| + 2
              && Durable(disk.history[|old(disk.history)|], AppendEntry(old(stream), e))
              && Durable(disk.history[|old(disk.history)| + 1], AppendEntry(old(stream), e))
      ensures disk.history[|disk.history| - 1] == disk.files && OnDisk(disk.files, stream)
      ensures counter.next == old(counter.next) + 1
      ensures bytesWritten == |LogBytes(stream.cur.entries)| && linesSinceIdxFlush == old(linesSinceIdxFlush) + 1
      ensures idxWriter.buffer == AllRecords(Records(stream.cur.entries)[stream.indexed..])
    {
      hide OnDisk, Durable, RotatedOnDisk, Records, AllRecords, LogBytes, RecordBytes, IndexOf;
      ghost var was, before := stream, disk.files;
      CurrentOnDisk(before, was);
      AppendedTwice(before, LogFile(0), line, [NEWLINE]);
      var byteOffset := bytesWritten;
      var lineSeq := counter.FetchAdd();
      ghost var e := Entry(line, lineSeq);
      idxWriter.Append(IndexRecord(byteOffset, lineSeq));
      PendingSnoc(was.cur.entries, was.indexed, e);
      disk.Append(LogFile(0), line);
      DurableWhileWriting(before, was, e, line);
      disk.Append(LogFile(0), [NEWLINE]);
      DurableWhileWriting(before, was, e, LineBytes(e));
      LineOnDisk(before, was, e);
      LogSnoc(was.cur.entries, e);
      bytesWritten := bytesWritten + |line| + 1;
      linesSinceIdxFlush := linesSinceIdxFlush + 1;
      stream := was.(cur := was.cur.(entries := was.cur.entries + [e]));
    }

    // Completes the index.
    method FlushIndex()
      requires idxWriter.disk == disk && idxWriter.path == IdxFile(0) && OnDisk(disk.files, stream)
      requires idxWriter.buffer == AllRecords(Records(stream.cur.entries)[stream.indexed..])
      modifies this`linesSinceIdxFlush, this`stream, disk, idxWriter
      ensures linesSinceIdxFlush == 0 && stream == Flushed(old(stream)) && OnDisk(disk.files, stream)
      ensures idxWriter.buffer == [] && AllRecords(Records(stream.cur.entries)[stream.indexed..]) == []
      ensures disk.history == old(disk.history) + [disk.files]
    {
      hide OnDisk, LogBytes;
      CurrentOnDisk(disk.files, stream);
      FlushOnDisk(disk.files, stream);
      idxWriter.Flush();
      linesSinceIdxFlush := 0;
      stream := Flushed(stream);
    }

    // The flush at the end of a capture.
    method Finish()
      requires Valid()
      modifies this, disk, idxWriter
      ensures Valid() && stream == Flushed(old(stream))
      ensures idxWriter == old(idxWriter) && sent == old(sent)
      ensures disk.history == old(disk.history) + [disk.files]
    {
      hide OnDisk, LogBytes, Records, AllRecords;
      FlushIndex();
    }
  }
}
