/** Searching the whole log for matching lines, a chunk at a time
    (src/tui/disk_log_reader.rs, scan_single_stream and scan_interleaved). What matches is
    left open: any predicate on the text of a line. */
module LineScan {
  import opened Options
  import opened Storage
  import opened LogIndex
  import opened LogWriter
  import opened DiskLogReader
  import opened InterleavedReader
  import opened InterleavedRuns

  const CHUNK: nat := 1000

  type Filter = Bytes -> bool

  // The matching positions in [begin, end), ascending.
  function MatchesIn(lines: seq<Bytes>, begin: nat, end: nat, filter: Filter): seq<nat>
    requires end <= |lines|
  {
    if end <= begin then []
    else MatchesIn(lines, begin, end - 1, filter) + if filter(lines[end - 1]) then [end - 1] else []
  }

  predicate Ascending(xs: seq<nat>) {
    forall i, j :: 0 <= i < j < |xs| ==> xs[i] < xs[j]
  }

  lemma {:induction false} MatchesExactly(lines: seq<Bytes>, begin: nat, end: nat, filter: Filter)
    requires end <= |lines|
    ensures forall x :: x in MatchesIn(lines, begin, end, filter) <==> begin <= x < end && filter(lines[x])
    ensures Ascending(MatchesIn(lines, begin, end, filter))
  {
    if begin < end {
      MatchesExactly(lines, begin, end - 1, filter);
      var before, ms := MatchesIn(lines, begin, end - 1, filter), MatchesIn(lines, begin, end, filter);
      forall i, j | 0 <= i < j < |ms| ensures ms[i] < ms[j] {
        assert before[i] in before && ms[i] == before[i];
      }
    }
  }

  lemma {:induction false} MatchesJoin(lines: seq<Bytes>, begin: nat, mid: nat, end: nat, filter: Filter)
    requires begin <= mid <= end <= |lines|
    ensures MatchesIn(lines, begin, end, filter) == MatchesIn(lines, begin, mid, filter) + MatchesIn(lines, mid, end, filter)
    decreases end
  {
    if mid < end {
      MatchesJoin(lines, begin, mid, end - 1, filter);
    }
  }

  // Matches depend on the lines in the range alone, so they survive appending.
  lemma {:induction false} MatchesOfPrefix(lines: seq<Bytes>, more: seq<Bytes>, begin: nat, end: nat, filter: Filter)
    requires end <= |lines| && lines <= more
    ensures MatchesIn(more, begin, end, filter) == MatchesIn(lines, begin, end, filter)
    decreases end
  {
    if begin < end {
      MatchesOfPrefix(lines, more, begin, end - 1, filter);
      assert lines[end - 1] == more[end - 1];
    }
  }

  // The inner loop: matches of one chunk, at their absolute positions.
  method MatchChunk(chunk: seq<Bytes>, offset: nat, filter: Filter, ghost lines: seq<Bytes>) returns (matching: seq<nat>)
    requires offset + |chunk| <= |lines| && chunk == lines[offset..offset + |chunk|]
    ensures matching == MatchesIn(lines, offset, offset + |chunk|, filter)
  {
    matching := [];
    for i := 0 to |chunk|
      invariant matching == MatchesIn(lines, offset, offset + i, filter)
    {
      assert chunk[i] == lines[offset + i];
      if filter(chunk[i]) {
        matching := matching + [offset + i];
      }
    }
  }

  // `all` is what the reader shows of one stream.
  ghost predicate ServesStream(files: Files, st: Stream, all: seq<Bytes>) {
    Holds(files, st) && Readable(IndexedSegments(st)) && all == IndexedTexts(st)
  }

  method CountServed(files: Files, ghost st: Stream, ghost all: seq<Bytes>) returns (n: nat)
    ensures ServesStream(files, st, all) ==> n == |all|
  {
    n := CountLines(files, st);
  }

  method ReadServed(files: Files, offset: nat, count: nat, ghost st: Stream, ghost all: seq<Bytes>) returns (texts: Option<seq<Bytes>>)
    ensures ServesStream(files, st, all) && offset + count <= |all| ==> texts == Some(all[offset..offset + count])
  {
    hide RotatedReadable, LogBytes, Readable, LastRotated, Reads, Info;
    ghost var segs := if st.indexed <= |st.cur.entries| then IndexedSegments(st) else [];
    if ServesStream(files, st, all) {
      HoldsReads(files, st);
    }
    texts := ReadLines(files, offset, count, segs);
  }

  method ScanSingleStream(files: Files, startFrom: nat, filter: Filter, ghost st: Stream, ghost all: seq<Bytes>)
    returns (matching: seq<nat>)
    ensures ServesStream(files, st, all) ==> matching == MatchesIn(all, startFrom, |all|, filter)
  {
    var total := CountServed(files, st, all);
    ghost var fine := ServesStream(files, st, all);
    hide ServesStream, MatchesIn;
    if total <= startFrom {
      NoneBeyond(all, startFrom, filter);
      return [];
    }
    matching := [];
    var offset := startFrom;
    if fine { NoneIn(all, startFrom, filter); }
    while offset < total
      invariant startFrom <= offset <= total
      invariant fine ==> total == |all| && matching == MatchesIn(all, startFrom, offset, filter)
    {
      var count := Min(CHUNK, total - offset);
      var lines := ReadServed(files, offset, count, st, all);
      if lines.Some? {
        ghost var whole := if fine then all else seq(offset, i => []) + lines.value;
        assert offset + |lines.value| <= |whole| && lines.value == whole[offset..offset + |lines.value|];
        var found := MatchChunk(lines.value, offset, filter, whole);
        if fine { MatchesJoin(all, startFrom, offset, offset + count, filter); }
        matching := matching + found;
      }
      offset := offset + count;
    }
  }

  lemma NoneBeyond(lines: seq<Bytes>, begin: nat, filter: Filter)
    ensures |lines| <= begin ==> MatchesIn(lines, begin, |lines|, filter) == []
  {
  }

  lemma NoneIn(lines: seq<Bytes>, at: nat, filter: Filter)
    requires at <= |lines|
    ensures MatchesIn(lines, at, at, filter) == []
  {
  }

  function TextsOfBoth(lines: seq<Line>): (ts: seq<Bytes>)
    ensures |ts| == |lines| && forall i :: 0 <= i < |ts| ==> ts[i] == lines[i].1
  {
    seq(|lines|, i requires 0 <= i < |lines| => lines[i].1)
  }

  // `all` is what the interleaved reader shows, and the line counts agree with it.
  ghost predicate Serves(snap: Snapshot, all: seq<Bytes>) {
    TotalLines(snap.outSegments) + TotalLines(snap.errSegments) == |all|
    && Rendered(snap, AllMerged(snap)).Some?
    && all == TextsOfBoth(Rendered(snap, AllMerged(snap)).value)
  }

  method ReadChunk(snap: Snapshot, offset: nat, count: nat, ghost all: seq<Bytes>) returns (texts: Option<seq<Bytes>>)
    ensures Serves(snap, all) && offset + count <= |all| ==> texts == Some(all[offset..offset + count])
  {
    hide AllMerged, TextOf;
    var lines := ReadInterleaved(snap, offset, count);
    texts := if lines.Some? then Some(TextsOfBoth(lines.value)) else None;
    if Serves(snap, all) && offset + count <= |all| {
      RenderedSlice(snap, AllMerged(snap), offset, count);
      assert texts.value == all[offset..offset + count];
    }
  }

  method ScanInterleaved(snap: Snapshot, startFrom: nat, filter: Filter, ghost all: seq<Bytes>) returns (matching: seq<nat>)
    ensures Serves(snap, all) ==> matching == MatchesIn(all, startFrom, |all|, filter)
  {
    hide AllMerged, Rendered;
    var total := TotalLines(snap.outSegments) + TotalLines(snap.errSegments);
    if total <= startFrom {
      return [];
    }
    matching := [];
    var offset := startFrom;
    while offset < total
      invariant startFrom <= offset <= total
      invariant Serves(snap, all) ==> matching == MatchesIn(all, startFrom, offset, filter)
    {
      var count := Min(CHUNK, total - offset);
      var texts := ReadChunk(snap, offset, count, all);
      if texts.Some? {
        ghost var whole := if Serves(snap, all) then all else seq(offset, i => []) + texts.value;
        assert offset + |texts.value| <= |whole| && texts.value == whole[offset..offset + |texts.value|];
        var found := MatchChunk(texts.value, offset, filter, whole);
        if Serves(snap, all) { MatchesJoin(all, startFrom, offset, offset + count, filter); }
        matching := matching + found;
      }
      offset := offset + count;
    }
  }

  // The interleaved reader serves every indexed line of both streams.
  lemma ShownIsServed(snap: Snapshot, out: Stream, err: Stream)
    requires Shows(snap, out, err)
    ensures Rendered(snap, AllMerged(snap)).Some?
    ensures |AllMerged(snap)| == |Indexed(out)| + |Indexed(err)|
    ensures Serves(snap, TextsOfBoth(Rendered(snap, AllMerged(snap)).value))
  {
    hide SortBySeq, StreamEntries, TextOf, LastRotated, AllInfos, Readable, RotatedReadable, LogBytes, Backs;
    MergeIsPermutation(snap, out, err);
    var ms, all := AllMerged(snap), BothTagged(Indexed(out), Indexed(err));
    assert |ms| == |multiset(ms)| == |multiset(all)| == |all|;
    forall i | 0 <= i < |ms| ensures TextOf(snap, ms[i]).Some? {
      assert ms[i] in multiset(all);
      MergedReads(snap, out, err, ms[i]);
    }
    var mo :| LastRotated(snap.outFiles, mo) && snap.outSegments == AllInfos(snap.outFiles, mo);
    var me :| LastRotated(snap.errFiles, me) && snap.errSegments == AllInfos(snap.errFiles, me);
    AllBacked(snap.outFiles, out, mo);
    AllBacked(snap.errFiles, err, me);
    TotalIsLength(snap.outFiles, IndexedSegments(out), snap.outSegments);
    TotalIsLength(snap.errFiles, IndexedSegments(err), snap.errSegments);
    TextsOfAll(IndexedSegments(out));
    TextsOfAll(IndexedSegments(err));
  }

  lemma RenderedSlice(snap: Snapshot, merged: seq<Merged>, offset: nat, count: nat)
    requires Rendered(snap, merged).Some? && offset + count <= |merged|
    ensures Rendered(snap, Slice(merged, offset, count)) == Some(Rendered(snap, merged).value[offset..offset + count])
  {
    hide TextOf;
    RenderedFrom(snap, Slice(merged, offset, count), Rendered(snap, merged).value[offset..offset + count]);
  }
}
