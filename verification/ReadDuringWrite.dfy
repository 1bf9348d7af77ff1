/** What a reader sees of the directory at every effect of a write, rotation included. */
module ReadDuringWrite {
  import opened Options
  import opened Storage
  import opened LogIndex
  import opened LogWriter
  import opened LogRuns
  import opened DiskLogReader

  // The reader sees a latest part of the lines retained before the write, or a first part of
  // those retained after it.
  ghost predicate ShowsPartOf(files: Files, was: Stream, now: Stream) {
    exists segs :: Shown(files, segs) && (IsSuffix(AllEntries(segs), Retained(was)) || AllEntries(segs) <= Retained(now))
  }

  // --- Once the new header is written -------------------------------------------------------

  lemma DurableShown(files: Files, was: Stream, now: Stream)
    requires Durable(files, now) && Readable(now.rotated + [now.cur])
    ensures ShowsPartOf(files, was, now)
  {
    hide LogBytes, RotatedContent, IndexOf, Clean, Encodable, Shown;
    var k: nat :| DurableAt(files, now.cur, k);
    var st := now.(indexed := k);
    var all, segs := now.rotated + [now.cur], IndexedSegments(st);
    DurableHolds(files, now, k);
    assert all[|now.rotated|] in all;
    PrefixReadable(now.cur, k);
    forall seg | seg in segs ensures Clean(seg.entries) && Encodable(seg) {
      if seg in now.rotated { assert seg in all; }
    }
    HoldsReads(files, st);
    AllEntriesSnoc(now.rotated, now.cur.(entries := now.cur.entries[..k]));
    assert AllEntries(segs) <= Retained(now);
  }

  // --- While older files move up ----------------------------------------------------------------

  lemma SuffixGrows<T>(a: seq<T>, b: seq<T>, c: seq<T>)
    requires IsSuffix(a, b)
    ensures IsSuffix(a + c, b + c)
  {
  }

  // Whole segments from the newest on are a latest part of what is retained.
  lemma NewestShown(files: Files, was: Stream, now: Stream, max: nat)
    requires Shown(files, Newest(was.rotated, max) + [was.cur])
    ensures ShowsPartOf(files, was, now)
  {
    hide Shown, Newest, AllEntries;
    NewestIsSuffix(was.rotated, max);
    AllEntriesSnoc(Newest(was.rotated, max), was.cur);
    SuffixGrows(AllEntries(Newest(was.rotated, max)), AllEntries(was.rotated), was.cur.entries);
  }

  lemma NewestKept(rotated: seq<Segment>, max: nat, n: nat)
    requires 1 <= n <= |Newest(rotated, max)|
    ensures n <= |rotated| && Numbered(Newest(rotated, max), n) == Numbered(rotated, n)
  {
  }

  lemma UnmovedAt(before: Files, files: Files, j: nat, f: FileName)
    requires PartlyMoved(before, files, j) && f.index < j
    ensures f in files <==> f in before
    ensures f in files ==> files[f] == before[f]
  {
  }

  lemma RotatedFileAt(files: Files, rotated: seq<Segment>, f: FileName)
    requires RotatedOnDisk(files, rotated) && f.index > 0
    ensures f in files <==> f.index <= |rotated|
    ensures f.index <= |rotated| ==> files[f] == RotatedContent(rotated, f)
  {
  }

  lemma NewestContent(rotated: seq<Segment>, max: nat, f: FileName)
    requires 1 <= f.index <= |Newest(rotated, max)|
    ensures f.index <= |rotated| && RotatedContent(Newest(rotated, max), f) == RotatedContent(rotated, f)
  {
    hide LogBytes, IndexOf;
    NewestKept(rotated, max, f.index);
  }

  lemma PartlyMovedRotated(before: Files, files: Files, rotated: seq<Segment>, j: nat)
    requires RotatedOnDisk(before, rotated) && PartlyMoved(before, files, j) && 1 <= j
    ensures RotatedReadable(files, Newest(rotated, j - 1))
  {
    hide RotatedContent, PartlyMoved, RotatedOnDisk, Newest;
    var kept := Newest(rotated, j - 1);
    NewestSize(rotated, j - 1);
    GapAt(before, files, j);
    if |rotated| + 1 < j {
      RotatedFileAt(before, rotated, LogFile(|rotated| + 1));
      UnmovedAt(before, files, j, LogFile(|rotated| + 1));
    }
    forall f: FileName | 1 <= f.index <= |kept| ensures f in files && files[f] == RotatedContent(kept, f) {
      UnmovedRotatedAt(before, files, rotated, j, f);
    }
  }

  lemma GapAt(before: Files, files: Files, j: nat)
    requires PartlyMoved(before, files, j)
    ensures LogFile(j) !in files
  {
  }

  lemma UnmovedRotatedAt(before: Files, files: Files, rotated: seq<Segment>, j: nat, f: FileName)
    requires RotatedOnDisk(before, rotated) && PartlyMoved(before, files, j) && 1 <= j
    requires 1 <= f.index <= |Newest(rotated, j - 1)|
    ensures f in files && files[f] == RotatedContent(Newest(rotated, j - 1), f)
  {
    NewestSize(rotated, j - 1);
    hide RotatedContent, PartlyMoved, RotatedOnDisk, Newest;
    NewestContent(rotated, j - 1, f);
    RotatedFileAt(before, rotated, f);
    UnmovedAt(before, files, j, f);
  }

  // Below the gap nothing has moved: the reader stops there and sees the newest segments.
  lemma PartlyMovedHolds(before: Files, files: Files, was: Stream, j: nat)
    requires OnDisk(before, Flushed(was)) && PartlyMoved(before, files, j) && 1 <= j
    ensures Holds(files, Flushed(was).(rotated := Newest(was.rotated, j - 1)))
  {
    hide LogBytes, IndexOf, PartlyMoved, RotatedOnDisk, RotatedReadable, Newest;
    PartlyMovedRotated(before, files, was.rotated, j);
    UnmovedAt(before, files, j, LogFile(0));
    UnmovedAt(before, files, j, IdxFile(0));
    assert was.cur.entries[..|was.cur.entries|] == was.cur.entries;
  }

  lemma CascadeShown(before: Files, files: Files, was: Stream, now: Stream, max: nat)
    requires OnDisk(before, Flushed(was)) && Cascading(before, files, max) && Readable(was.rotated + [was.cur])
    ensures ShowsPartOf(files, was, now)
  {
    hide OnDisk, PartlyMoved, Clean, Encodable, Holds, Shown, Newest;
    var j: nat :| 1 <= j < max && PartlyMoved(before, files, j);
    var kept, all := Newest(was.rotated, j - 1), was.rotated + [was.cur];
    var st := Flushed(was).(rotated := kept);
    PartlyMovedHolds(before, files, was, j);
    assert was.cur.entries[..|was.cur.entries|] == was.cur.entries;
    assert IndexedSegments(st) == kept + [was.cur];
    forall seg | seg in kept + [was.cur] ensures Clean(seg.entries) && Encodable(seg) {
      NewestMembers(was.rotated, j - 1, seg);
      assert seg in all;
    }
    HoldsReads(files, st);
    NewestShown(files, was, now, j - 1);
  }

  lemma NewestMembers(segs: seq<Segment>, max: nat, seg: Segment)
    ensures seg in Newest(segs, max) ==> seg in segs
  {
  }

  // --- From the renaming of the current files to the new header -------------------------------

  lemma TurnedOver(before: Files, now: Files, was: Stream, max: nat)
    requires OnDisk(before, Flushed(was)) && |was.rotated| <= max && 1 <= max && Moved(before, now, 0, max)
    ensures var moved := MoveUp(now, 0);
            RotatedReadable(moved, Newest(was.rotated + [was.cur], max))
            && LogFile(0) !in moved && IdxFile(0) !in moved
            && moved - {LogFile(max + 1)} == moved && moved - {IdxFile(max + 1)} == moved
  {
    hide RotatedContent, OnDisk, Moved, Shifted, Contiguous, RotatedOnDisk, RotatedReadable, Newest, MoveUp;
    var moved, kept, n := MoveUp(now, 0), Newest(was.rotated + [was.cur], max), |was.rotated| + 1;
    var after := moved - {LogFile(max + 1)} - {IdxFile(max + 1)};
    OnDiskContiguous(before, Flushed(was));
    LastStep(before, now, n, max);
    RotatedAfter(before, after, was, max);
    NothingBeyond(before, now, n, max);
    ShiftedAway(before, after, n, max);
    assert after == moved;
    OnDiskReadable(moved, kept);
  }

  // Nothing has been moved beyond the limit.
  lemma NothingBeyond(before: Files, now: Files, n: nat, max: nat)
    requires Moved(before, now, 0, max) && 1 <= max
    ensures LogFile(max + 1) !in MoveUp(now, 0) && IdxFile(max + 1) !in MoveUp(now, 0)
  {
    hide Moved;
    MovedMeans(before, now, 0, max, LogFile(max + 1));
    MovedMeans(before, now, 0, max, IdxFile(max + 1));
  }

  lemma ShiftedAway(before: Files, after: Files, n: nat, max: nat)
    requires Shifted(before, after, n, max)
    ensures LogFile(0) !in after && IdxFile(0) !in after
  {
  }

  lemma OnDiskReadable(files: Files, rotated: seq<Segment>)
    requires RotatedOnDisk(files, rotated)
    ensures RotatedReadable(files, rotated)
  {
    hide RotatedContent;
    assert LogFile(|rotated| + 1).index == |rotated| + 1;
  }

  // The segment as a scan without an index shows it.
  function Scanned(seg: Segment): Segment {
    seg.(entries := seq(|seg.entries|, i requires 0 <= i < |seg.entries| =>
      seg.entries[i].(text := WithoutLast(seg.entries[i].text, CARRIAGE_RETURN))))
  }

  lemma ScannedTexts(seg: Segment)
    ensures Texts(Scanned(seg).entries) == Stripped(seg.entries)
  {
  }

  // The current log has taken number 1, its index has not; all else stands as after both renames.
  lemma LogMovedFirst(before: Files, turned: Files, was: Stream, max: nat)
    requires OnDisk(before, Flushed(was)) && |was.rotated| <= max && 2 <= max && Moved(before, turned, 0, max)
    ensures var files, kept := Renamed(turned, LogFile(0), LogFile(1)), Newest(was.rotated + [was.cur], max);
            LogFile(0) !in files && IdxFile(1) !in files && LogFile(|kept| + 1) !in files
            && LogFile(1) in files && files[LogFile(1)] == LogBytes(was.cur.entries)
            && forall f: FileName :: 2 <= f.index <= |kept| ==> f in files && files[f] == RotatedContent(kept, f)
  {
    hide RotatedContent, LogBytes, Newest, OnDisk;
    TurnedOver(before, turned, was, max);
    MovedMeans(before, turned, 0, max, IdxFile(1));
    MovedMeans(before, turned, 0, max, LogFile(0));
    NewestSize(was.rotated + [was.cur], max);
    CurrentOnDisk(before, Flushed(was));
  }

  // So that log is scanned, and the others read as before.
  lemma BetweenRenames(before: Files, turned: Files, was: Stream, max: nat)
    requires OnDisk(before, Flushed(was)) && |was.rotated| <= max && 2 <= max && Moved(before, turned, 0, max)
    requires Readable(was.rotated + [was.cur])
    ensures Shown(Renamed(turned, LogFile(0), LogFile(1)), Newest(was.rotated, max - 1) + [Scanned(was.cur)])
  {
    hide Clean, Encodable, RotatedContent, Shown, LogBytes, Scanned, Backs, Moved, Newest, Renamed, OnDisk;
    var files, all := Renamed(turned, LogFile(0), LogFile(1)), was.rotated + [was.cur];
    var kept, shown := Newest(all, max), Newest(was.rotated, max - 1) + [Scanned(was.cur)];
    LogMovedFirst(before, turned, was, max);
    NewestWithCurrent(was.rotated, was.cur, max);
    forall n: nat | 1 <= n <= |shown| ensures LogFile(n) in files && Backs(files, Numbered(shown, n), Info(files, n)) {
      NewestMembers(all, max, Numbered(kept, n));
      if n == 1 {
        ScannedBacks(files, was.cur, 1);
      } else {
        ReadableAt(files, kept, n);
      }
    }
    ShownWith(files, shown, []);
    assert shown + [] == shown;
  }

  lemma NewestWithCurrent(rotated: seq<Segment>, cur: Segment, max: nat)
    requires 1 <= max
    ensures Newest(rotated + [cur], max) == Newest(rotated, max - 1) + [cur]
  {
  }

  // A directory shows one sequence of lines.
  lemma ShownOnce(files: Files, a: seq<Segment>, b: seq<Segment>)
    requires Shown(files, a) && Shown(files, b)
    ensures SegmentTexts(a) == SegmentTexts(b)
  {
    hide LastRotated, AllInfos, Backs, SegmentTexts;
    var m :| LastRotated(files, m) && Reads(files, a, AllInfos(files, m));
    var n :| LastRotated(files, n) && Reads(files, b, AllInfos(files, n));
    LastRotatedOnce(files, m, n);
    var infos, count := AllInfos(files, m), |SegmentTexts(a)| + |SegmentTexts(b)|;
    SpanIsWindow(files, a, infos, 0, 0, count);
    SpanIsWindow(files, b, infos, 0, 0, count);
    WholeWindow(SegmentTexts(a), count);
    WholeWindow(SegmentTexts(b), count);
  }

  lemma WholeWindow(s: seq<Bytes>, count: nat)
    requires |s| <= count
    ensures Window(s, 0, 0, 0 + count) == s
  {
  }

  lemma SuffixEnds(read: seq<Entry>, kept: seq<Entry>, cur: seq<Entry>)
    requires IsSuffix(read, kept + cur) && |cur| <= |read|
    ensures read[|read| - |cur|..] == cur
  {
    var all := kept + cur;
    assert all[|kept|..] == cur;
    assert read[|read| - |cur|..] == all[|all| - |read|..][|read| - |cur|..] == all[|kept|..];
  }

  lemma PrefixEnds(read: seq<Entry>, older: seq<Entry>, cur: seq<Entry>, e: Entry)
    requires read <= older + cur + [e] && |read| == |older| + |cur|
    ensures read[|read| - |cur|..] == cur
  {
    assert read == older + cur;
  }

  // Read as a latest part of what was kept, or a first part of what is, the scanned lines stand
  // where the written ones do.
  lemma ScanMustAgree(read: seq<Entry>, older: seq<Entry>, kept: seq<Entry>, cur: seq<Entry>, e: Entry)
    requires Texts(read) == Texts(older) + Stripped(cur)
    requires IsSuffix(read, kept + cur) || read <= older + cur + [e]
    ensures Stripped(cur) == Texts(cur)
  {
    hide IsSuffix;
    var n := |older|;
    assert |Texts(read)| == n + |cur|;
    if IsSuffix(read, kept + cur) {
      SuffixEnds(read, kept, cur);
    } else {
      PrefixEnds(read, older, cur, e);
    }
    EndTexts(read, n);
    assert (Texts(older) + Stripped(cur))[n..] == Stripped(cur);
  }

  lemma EndTexts(entries: seq<Entry>, n: nat)
    requires n <= |entries|
    ensures Texts(entries)[n..] == Texts(entries[n..])
  {
  }

  lemma StrippedIff(entries: seq<Entry>)
    ensures Stripped(entries) == Texts(entries) <==> forall e :: e in entries ==> !EndsInReturn(e.text)
  {
    StrippedSliceIff(entries, 0, |entries|);
    assert Slice(Stripped(entries), 0, |entries|) == Stripped(entries) && Slice(Texts(entries), 0, |entries|) == Texts(entries);
    if forall e :: e in entries ==> !EndsInReturn(e.text) {
      forall i | 0 <= i < |entries| ensures !EndsInReturn(entries[i].text) { assert entries[i] in entries; }
    }
  }

  // Between the two renames the reader is right exactly when no moved line ends in a carriage
  // return.
  lemma BetweenRenamesIff(before: Files, turned: Files, was: Stream, max: nat, seqBase: nat, e: Entry)
    requires OnDisk(before, Flushed(was)) && |was.rotated| <= max && 2 <= max && Moved(before, turned, 0, max)
    requires Readable(was.rotated + [was.cur])
    ensures ShowsPartOf(Renamed(turned, LogFile(0), LogFile(1)), was, AppendEntry(Rotate(was, max, seqBase), e))
       <==> forall old' :: old' in was.cur.entries ==> !EndsInReturn(old'.text)
  {
    hide OnDisk, Moved, Shown, Renamed, Readable, EndsInReturn, Newest, AllEntries, Scanned, Stripped, Texts, IsSuffix;
    var files, now := Renamed(turned, LogFile(0), LogFile(1)), AppendEntry(Rotate(was, max, seqBase), e);
    var older, cur := Newest(was.rotated, max - 1), was.cur;
    BetweenRenames(before, turned, was, max);
    ScannedTexts(cur);
    ScanTexts(older, cur);
    NewestIsSuffix(was.rotated, max - 1);
    RetainedAfter(was, max, seqBase, e);
    StrippedIff(cur.entries);
    if ShowsPartOf(files, was, now) {
      var segs :| Shown(files, segs) && (IsSuffix(AllEntries(segs), Retained(was)) || AllEntries(segs) <= Retained(now));
      ShownOnce(files, segs, older + [Scanned(cur)]);
      TextsOfAll(segs);
      ScanMustAgree(AllEntries(segs), AllEntries(older), AllEntries(was.rotated), cur.entries, e);
    }
    if forall old' :: old' in cur.entries ==> !EndsInReturn(old'.text) {
      assert Scanned(cur) == cur by { ScannedSame(cur); }
      NewestShown(files, was, now, max - 1);
    }
  }

  lemma ScannedSame(seg: Segment)
    requires forall e :: e in seg.entries ==> !EndsInReturn(e.text)
    ensures Scanned(seg) == seg
  {
    forall i | 0 <= i < |seg.entries| ensures Scanned(seg).entries[i] == seg.entries[i] { assert seg.entries[i] in seg.entries; }
  }

  lemma ScanTexts(older: seq<Segment>, cur: Segment)
    ensures SegmentTexts(older + [Scanned(cur)]) == Texts(AllEntries(older)) + Stripped(cur.entries)
  {
    hide Scanned, Stripped;
    ScannedTexts(cur);
    TextsOfAll(older + [Scanned(cur)]);
    AllEntriesSnoc(older, Scanned(cur));
    assert Texts(AllEntries(older) + Scanned(cur).entries) == Texts(AllEntries(older)) + Texts(Scanned(cur).entries);
  }

  lemma RetainedAfter(was: Stream, max: nat, seqBase: nat, e: Entry)
    requires 1 <= max
    ensures Retained(AppendEntry(Rotate(was, max, seqBase), e))
         == AllEntries(Newest(was.rotated, max - 1)) + was.cur.entries + [e]
  {
    NewestWithCurrent(was.rotated, was.cur, max);
    AllEntriesSnoc(Newest(was.rotated, max - 1), was.cur);
    AppendKeeps(Rotate(was, max, seqBase), e);
  }

  lemma ReadableAt(files: Files, rotated: seq<Segment>, n: nat)
    requires 2 <= n <= |rotated| && Clean(Numbered(rotated, n).entries) && Encodable(Numbered(rotated, n))
    requires forall f: FileName :: 2 <= f.index <= |rotated| ==> f in files && files[f] == RotatedContent(rotated, f)
    ensures LogFile(n) in files && Backs(files, Numbered(rotated, n), Info(files, n))
  {
    hide LogBytes, IndexOf, Backs;
    assert LogFile(n) in files && IdxFile(n) in files;
    SegmentBacked(files, Numbered(rotated, n), n);
  }

  // A log without an index reads as its lines without trailing carriage returns.
  lemma ScannedBacks(files: Files, seg: Segment, n: nat)
    requires Clean(seg.entries)
    requires LogFile(n) in files && files[LogFile(n)] == LogBytes(seg.entries) && IdxFile(n) !in files
    ensures Backs(files, Scanned(seg), Info(files, n))
  {
    hide LogBytes, LinesFrom, Stripped, Clean, Start, Scanned, Texts;
    WholeLog(seg.entries);
    ScanGivesStripped(files[LogFile(n)], seg.entries, 0);
    NothingAfterEnd(files[LogFile(n)]);
    ScannedTexts(seg);
    var lines := Texts(Scanned(seg).entries);
    assert LinesFrom(files[LogFile(n)], 0) == lines;
    forall start, count ensures SegmentRead(files, LogFile(n), IdxFile(n), start, count) == Some(Slice(lines, start, count)) {
      assert Slice(lines, start, 0) == [];
    }
  }

  // An empty log with no index, or with one that has no header yet, reads as no lines.
  lemma EmptyBacks(files: Files)
    requires LogFile(0) in files && files[LogFile(0)] == [] && Unindexed(files)
    ensures Backs(files, Segment(0, []), Info(files, 0))
  {
    NothingAfterEnd([]);
  }

  lemma FreshShown(files: Files, kept: seq<Segment>)
    requires RotatedReadable(files, kept) && Readable(kept) && (LogFile(0) in files ==> files[LogFile(0)] == [] && Unindexed(files))
    ensures exists segs :: Shown(files, segs) && AllEntries(segs) == AllEntries(kept)
  {
    hide Readable, RotatedReadable, Backs, Shown, Unindexed;
    RotatedAllBacked(files, kept);
    if LogFile(0) in files {
      EmptyBacks(files);
      ShownWith(files, kept, [Segment(0, [])]);
      AllEntriesSnoc(kept, Segment(0, []));
      assert AllEntries(kept + [Segment(0, [])]) == AllEntries(kept);
    } else {
      ShownWith(files, kept, []);
      assert kept + [] == kept;
    }
  }

  lemma TurnoverShown(before: Files, turned: Files, was: Stream, now: Stream, max: nat, seqBase: nat, i: nat)
    requires OnDisk(before, Flushed(was)) && |was.rotated| <= max && 2 <= max && Moved(before, turned, 0, max) && 1 <= i < 6
    requires Readable(was.rotated + [was.cur])
    ensures |Turnover(turned, max, seqBase)| == 7 && ShowsPartOf(Turnover(turned, max, seqBase)[i], was, now)
  {
    hide OnDisk, Moved, Shown, Clean, Encodable, Newest, AllEntries, Header, Renamed;
    var files, moved := Turnover(turned, max, seqBase)[i], MoveUp(turned, 0);
    var all := was.rotated + [was.cur];
    var kept := Newest(all, max);
    NewestIsSuffix(all, max);
    AllEntriesSnoc(was.rotated, was.cur);
    TurnedOver(before, turned, was, max);
    forall seg | seg in kept ensures Clean(seg.entries) && Encodable(seg) {
      NewestMembers(all, max, seg);
    }
    assert files == moved || (LogFile(0) in files && files[LogFile(0)] == [] && Unindexed(files));
    assert RotatedReadable(files, kept);
    FreshShown(files, kept);
  }

  // --- Every effect of a write -----------------------------------------------------------------

  // Whenever it looks, even between two renames of a rotation, a reader sees a latest part of
  // what was retained before the write or a first part of what is retained after it: always but
  // for one moment, between the renames of the current log and its index, and there exactly
  // when none of the moved lines ends in a carriage return.
  lemma WriteAlwaysReadable(added: seq<Files>, was: Stream, text: Bytes, lim: Limits, seqBase: nat, i: nat)
    requires 2 <= lim.maxRotated && |was.rotated| <= lim.maxRotated && i < |added|
    requires var now := Write(was, text, seqBase, lim.maxBytes, lim.maxRotated);
             WriteEffects(added, was, now, lim.maxRotated, seqBase, MustRotate(was, text, lim.maxBytes))
             && Readable(was.rotated + [was.cur]) && Readable(now.rotated + [now.cur])
    ensures ShowsPartOf(added[i], was, Write(was, text, seqBase, lim.maxBytes, lim.maxRotated))
       <==> (MustRotate(was, text, lim.maxBytes) && i == CascadeLength(lim.maxRotated) + 1 ==>
               forall e :: e in was.cur.entries ==> !EndsInReturn(e.text))
  {
    hide Durable, OnDisk, Cascading, Moved, Turnover, ShowsPartOf, Readable, EndsInReturn, Rotate, AppendEntry, MustRotate, CascadeLength;
    var max, now, e := lim.maxRotated, Write(was, text, seqBase, lim.maxBytes, lim.maxRotated), Entry(text, seqBase);
    var c := CascadeLength(max);
    if MustRotate(was, text, lim.maxBytes) && i < c + 7 {
      var part := added[..c + 8];
      if i == 0 {
        FlushedShown(added[0], was, now);
      } else if i <= c {
        assert Cascading(part[0], part[i], max);
        CascadeShown(part[0], part[i], was, now, max);
      } else {
        var turned :| Moved(part[0], turned, 0, max) && part[c + 1..] == Turnover(turned, max, seqBase);
        assert added[i] == part[c + 1..][i - c - 1];
        if i == c + 1 {
          FirstTurned(turned, max, seqBase);
          BetweenRenamesIff(part[0], turned, was, max, seqBase, e);
        } else {
          TurnoverShown(part[0], turned, was, now, max, seqBase, i - c - 1);
        }
      }
    } else {
      DurableShown(added[i], was, now);
    }
  }

  lemma FirstTurned(turned: Files, max: nat, seqBase: nat)
    ensures |Turnover(turned, max, seqBase)| == 7
    ensures Turnover(turned, max, seqBase)[0] == Renamed(turned, LogFile(0), LogFile(1))
  {
  }

  lemma FlushedShown(files: Files, was: Stream, now: Stream)
    requires OnDisk(files, Flushed(was)) && Readable(was.rotated + [was.cur])
    ensures ShowsPartOf(files, was, now)
  {
    hide OnDisk, Shown, Readable, Holds;
    OnDiskHolds(files, Flushed(was));
    assert was.cur.entries[..|was.cur.entries|] == was.cur.entries;
    assert IndexedSegments(Flushed(was)) == was.rotated + [was.cur];
    HoldsReads(files, Flushed(was));
    AllEntriesSnoc(was.rotated, was.cur);
  }
}
