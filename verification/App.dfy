/** The output pane of one process: a ring of recent lines in memory, the log on disk behind
    it, and the index of lines that match a filter (src/tui/app.rs). The disk is what the
    readers serve in the current mode, a sequence of lines. */
module App {
  import opened Options
  import opened Storage
  import opened LogIndex
  import opened LogWriter
  import opened DiskLogReader
  import opened InterleavedReader
  import opened LogRuns
  import opened InterleavedRuns
  import opened LineScan
  import opened LogGrowth

  datatype StreamMode = OnlyStdout | OnlyStderr | Both

  predicate InMode(mode: StreamMode, source: LineSource) {
    mode == Both || (mode == OnlyStdout && source == Stdout) || (mode == OnlyStderr && source == Stderr)
  }

  // The lines a mode shows.
  function View(lines: seq<Line>, mode: StreamMode): seq<Line> {
    if lines == [] then []
    else View(lines[..|lines| - 1], mode) + if InMode(mode, lines[|lines| - 1].0) then [lines[|lines| - 1]] else []
  }

  lemma {:induction false} ViewConcat(a: seq<Line>, b: seq<Line>, mode: StreamMode)
    ensures View(a + b, mode) == View(a, mode) + View(b, mode)
    decreases |b|
  {
    if b == [] {
      assert a + b == a;
    } else {
      assert (a + b)[..|a + b| - 1] == a + b[..|b| - 1];
      ViewConcat(a, b[..|b| - 1], mode);
    }
  }

  // Together with the above this says what a view is.
  lemma ViewOne(line: Line, mode: StreamMode)
    ensures View([line], mode) == if InMode(mode, line.0) then [line] else []
    ensures View([line], OnlyStdout) == if line.0 == Stdout then [line] else []
    ensures View([line], OnlyStderr) == if line.0 == Stderr then [line] else []
    ensures View([line], Both) == [line]
  {
    assert [line][..0] == [];
    assert View([], mode) == [] && View([], OnlyStdout) == [] && View([], OnlyStderr) == [] && View([], Both) == [];
  }

  // A view of recent lines is a recent part of the view.
  lemma ViewOfSuffix(recent: seq<Line>, history: seq<Line>, mode: StreamMode)
    requires IsSuffix(recent, history)
    ensures IsSuffix(View(recent, mode), View(history, mode))
  {
    ViewConcat(history[..|history| - |recent|], recent, mode);
    assert history == history[..|history| - |recent|] + recent;
  }

  lemma {:induction false} ViewBothIsAll(lines: seq<Line>)
    ensures View(lines, Both) == lines
  {
    if lines != [] { ViewBothIsAll(lines[..|lines| - 1]); }
  }

  // --- The ring ------------------------------------------------------------------------------

  // What is left of everything pushed. A limit of zero never evicts.
  function Ring(pushed: seq<Line>, maxLines: nat): seq<Line> {
    if maxLines == 0 || |pushed| <= maxLines then pushed else pushed[|pushed| - maxLines..]
  }

  class OutputBuffer {
    var lines: seq<Line>
    const maxLines: nat
    var stdoutCount: nat
    var stderrCount: nat
    ghost var pushed: seq<Line>

    ghost predicate Valid()
      reads this
    {
      lines == Ring(pushed, maxLines)
      && stdoutCount == |View(lines, OnlyStdout)| && stderrCount == |View(lines, OnlyStderr)|
    }

    constructor (maxLines: nat)
      ensures Valid() && pushed == [] && this.maxLines == maxLines
    {
      this.maxLines := maxLines;
      lines, stdoutCount, stderrCount, pushed := [], 0, 0, [];
    }

    method Push(source: LineSource, text: Bytes)
      requires Valid()
      modifies this
      ensures Valid() && pushed == old(pushed) + [(source, text)]
    {
      hide View;
      ghost var before := lines;
      if |lines| == maxLines && lines != [] {
        var evicted := lines[0];
        EvictedCounts(lines);
        lines := lines[1..];
        match evicted.0 {
          case Stdout => stdoutCount := stdoutCount - 1;
          case Stderr => stderrCount := stderrCount - 1;
        }
      }
      PushedCounts(lines, (source, text));
      match source {
        case Stdout => stdoutCount := stdoutCount + 1;
        case Stderr => stderrCount := stderrCount + 1;
      }
      lines := lines + [(source, text)];
      pushed := pushed + [(source, text)];
    }

    // The counters answer without looking at the lines.
    method CountIn(mode: StreamMode) returns (n: nat)
      requires Valid()
      ensures n == |View(lines, mode)|
    {
      ViewBothIsAll(lines);
      n := match mode
        case OnlyStdout => stdoutCount
        case OnlyStderr => stderrCount
        case Both => |lines|;
    }
  }

  lemma EvictedCounts(lines: seq<Line>)
    requires lines != []
    ensures forall mode :: |View(lines, mode)| == |View(lines[1..], mode)| + if InMode(mode, lines[0].0) then 1 else 0
  {
    forall mode ensures |View(lines, mode)| == |View(lines[1..], mode)| + if InMode(mode, lines[0].0) then 1 else 0 {
      assert lines == [lines[0]] + lines[1..];
      ViewConcat([lines[0]], lines[1..], mode);
      ViewOne(lines[0], mode);
    }
  }

  lemma PushedCounts(lines: seq<Line>, line: Line)
    ensures forall mode :: |View(lines + [line], mode)| == |View(lines, mode)| + if InMode(mode, line.0) then 1 else 0
  {
    forall mode ensures |View(lines + [line], mode)| == |View(lines, mode)| + if InMode(mode, line.0) then 1 else 0 {
      ViewConcat(lines, [line], mode);
      ViewOne(line, mode);
    }
  }

  // Every mode's hot lines are the most recent of that mode's lines ever pushed, and of all lines
  // there are as many as the limit allows.
  lemma RingIsRecent(pushed: seq<Line>, maxLines: nat, mode: StreamMode)
    ensures IsSuffix(View(Ring(pushed, maxLines), mode), View(pushed, mode))
    ensures maxLines > 0 ==> |Ring(pushed, maxLines)| == Min(|pushed|, maxLines)
    ensures maxLines == 0 ==> Ring(pushed, maxLines) == pushed
  {
    ViewOfSuffix(Ring(pushed, maxLines), pushed, mode);
  }

  // The ring is bounded exactly when its limit is at least one.
  lemma RingBoundedIff(maxLines: nat)
    ensures (forall pushed :: |Ring(pushed, maxLines)| <= maxLines) <==> maxLines >= 1
  {
    if maxLines == 0 {
      assert |Ring([(Stdout, [])], 0)| == 1;
    }
  }

  // --- The window ------------------------------------------------------------------------------

  function Sub(a: nat, b: nat): nat { if a > b then a - b else 0 }

  // What the pane scrolls over: the log up to where the hot lines take over, then those.
  function Combined(disk: seq<Line>, hot: seq<Line>): seq<Line> {
    disk[..Sub(|disk|, |hot|)] + hot
  }

  // The `height` lines that end `offset` lines above the bottom.
  function ScrollWindow(all: seq<Line>, offset: nat, height: nat): seq<Line> {
    var end := Sub(|all|, offset);
    all[Sub(end, height)..end]
  }

  // A window ends `offset` lines above the bottom and holds the `height` lines before that, or all
  // there are.
  predicate WindowOf(lines: seq<Line>, all: seq<Line>, offset: nat, height: nat) {
    |lines| == Min(height, Sub(|all|, offset))
    && forall i :: 0 <= i < |lines| ==> lines[i] == all[|all| - offset - |lines| + i]
  }

  lemma WindowIs(all: seq<Line>, offset: nat, height: nat)
    ensures WindowOf(ScrollWindow(all, offset, height), all, offset, height)
    ensures offset == 0 ==> IsSuffix(ScrollWindow(all, offset, height), all)
  {
  }

  lemma CombinedLength(disk: seq<Line>, hot: seq<Line>)
    ensures |Combined(disk, hot)| == Max(|disk|, |hot|)
  {
  }

  // A range of it, by where it lies.
  lemma CombinedParts(disk: seq<Line>, hot: seq<Line>, start: nat, end: nat)
    requires start <= end <= Max(|disk|, |hot|)
    ensures var boundary := Sub(|disk|, |hot|);
            |Combined(disk, hot)| == Max(|disk|, |hot|)
            && Combined(disk, hot)[start..end]
            == if start >= boundary then Slice(hot, start - boundary, end - start)
               else if end <= boundary then Slice(disk, start, end - start)
               else Slice(disk, start, boundary - start) + Slice(hot, 0, end - boundary)
  {
    var boundary := Sub(|disk|, |hot|);
    var cold := disk[..boundary];
    CombinedLength(disk, hot);
    SliceOfConcat(cold, hot, start, end);
    if start < boundary {
      var stop := Min(end, boundary);
      assert cold[start..stop] == disk[start..stop];
      assert Slice(disk, start, stop - start) == disk[start..stop];
    }
    if end > boundary {
      assert Slice(hot, Sub(start, boundary), end - Max(start, boundary)) == hot[Sub(start, boundary)..end - boundary];
    }
  }

  // In every mode and for any log: the pane scrolls over the true history if and only if the log
  // reaches as far as the part the ring does not have, and agrees with it there.
  lemma CombinedIsHistoryIff(history: seq<Line>, disk: seq<Line>, hot: seq<Line>)
    requires IsSuffix(hot, history)
    ensures Combined(disk, hot) == history
       <==> Sub(|disk|, |hot|) == |history| - |hot| && disk[..Sub(|disk|, |hot|)] == history[..|history| - |hot|]
  {
    var older := history[..|history| - |hot|];
    assert history == older + hot;
    if Combined(disk, hot) == history {
      CombinedLength(disk, hot);
      assert disk[..Sub(|disk|, |hot|)] == (disk[..Sub(|disk|, |hot|)] + hot)[..|history| - |hot|];
    }
  }

  // In a mode of one stream the log lags by its latest lines: the pane is right if and only if
  // the log has caught up or the ring still has all of it; in between, lines are missing at the
  // seam.
  lemma LaggingPaneIsHistoryIff(pushed: seq<Line>, maxLines: nat, mode: StreamMode, d: nat)
    requires mode != Both && d <= |View(pushed, mode)|
    ensures var history, hot := View(pushed, mode), View(Ring(pushed, maxLines), mode);
            Combined(history[..d], hot) == history <==> d == |history| || |hot| == |history|
  {
    hide View;
    var history, hot := View(pushed, mode), View(Ring(pushed, maxLines), mode);
    RingIsRecent(pushed, maxLines, mode);
    CombinedIsHistoryIff(history, history[..d], hot);
    if d == |history| || |hot| == |history| {
      assert history[..d][..Sub(d, |hot|)] == history[..|history| - |hot|];
    }
  }

  // A log whose older lines were rotated away and a ring: the pane scrolls over the longer part.
  lemma CombinedIsLatest(history: seq<Line>, disk: seq<Line>, hot: seq<Line>)
    requires IsSuffix(disk, history) && IsSuffix(hot, history)
    ensures Max(|disk|, |hot|) <= |history|
    ensures Combined(disk, hot) == Latest(history, Max(|disk|, |hot|))
  {
    if |disk| >= |hot| {
      var n := |disk| - |hot|;
      assert disk == disk[..n] + disk[n..];
      assert disk[n..] == hot;
    }
  }

  function Latest(history: seq<Line>, n: nat): seq<Line>
    requires n <= |history|
  {
    history[|history| - n..]
  }

  const MAX_BUFFER_LINES: nat := 10_000

  function Repeated(n: nat): (lines: seq<Line>)
    ensures |lines| == n && forall i :: 0 <= i < n ==> lines[i] == (Stdout, [])
  {
    seq(n, i => (Stdout, []))
  }

  lemma {:induction false} RepeatedView(n: nat)
    ensures View(Repeated(n), OnlyStdout) == Repeated(n)
  {
    if n > 0 {
      RepeatedView(n - 1);
      assert Repeated(n)[..n - 1] == Repeated(n - 1);
    } else {
      assert Repeated(0) == [];
    }
  }

  // Such a state is reached by more lines than the ring holds, as long as the last batch of 64
  // is not full: the log shows n - n % 64 of them, and the pane fewer than there are.
  lemma LaggingPaneLosesLines(n: nat, lim: Limits)
    requires n > MAX_BUFFER_LINES && n % 64 != 0 && (lim.maxBytes == 0 || n <= lim.maxBytes)
    ensures Run(Blank(n), lim).indexed <= |Run(Blank(n), lim).cur.entries|
    ensures var pushed, disk := Repeated(n), Repeated(|IndexedTexts(Run(Blank(n), lim))|);
            TextsOfBoth(disk) == IndexedTexts(Run(Blank(n), lim))
            && View(pushed, OnlyStdout) == pushed
            && |Combined(disk, View(Ring(pushed, MAX_BUFFER_LINES), OnlyStdout))| < n
  {
    hide Run, View, IndexedTexts;
    BlankTexts(n, lim);
    RepeatedView(n);
    var pushed, disk := Repeated(n), Repeated(n - n % 64);
    var ring := Ring(pushed, MAX_BUFFER_LINES);
    assert ring == Repeated(MAX_BUFFER_LINES);
    RepeatedView(MAX_BUFFER_LINES);
    CombinedLength(disk, ring);
  }

  class Pane {
    const buffer: OutputBuffer
    var mode: StreamMode
    var paused: bool
    var scrollOffset: nat
    var visibleHeight: nat

    ghost predicate Valid()
      reads this, buffer
    {
      buffer.Valid()
    }

    constructor (buffer: OutputBuffer)
      requires buffer.Valid()
      ensures Valid() && this.buffer == buffer && mode == OnlyStdout && !paused && scrollOffset == 0
    {
      this.buffer, mode, paused, scrollOffset, visibleHeight := buffer, OnlyStdout, false, 0, 20;
    }

    ghost function Hot(): seq<Line>
      reads this, buffer
    {
      View(buffer.lines, mode)
    }

    // The offset that counts: a pane that is not paused follows the bottom.
    function Offset(): nat
      reads this
    {
      if paused then scrollOffset else 0
    }

    method TotalLineCount(disk: seq<Line>) returns (total: nat)
      requires Valid()
      ensures total == |Combined(disk, Hot())|
    {
      CombinedLength(disk, Hot());
      var hot := buffer.CountIn(mode);
      total := Max(|disk|, hot);
    }

    method HotBufferRange(start: nat, count: nat) returns (lines: seq<Line>)
      requires Valid()
      ensures lines == Slice(Hot(), start, count)
    {
      var view := View(buffer.lines, mode);
      lines := view[Min(start, |view|)..Min(start + count, |view|)];
    }

    // Three cases: all in memory, all on disk, or split at the boundary; always the same window.
    // Where log and ring are latest parts of what was shown in this mode, so is the window's
    // range, and it is all of it once the log has caught up.
    method VisibleLines(disk: seq<Line>, height: nat) returns (lines: seq<Line>)
      requires Valid()
      ensures lines == ScrollWindow(Combined(disk, Hot()), Offset(), height)
      ensures IsSuffix(disk, View(buffer.pushed, mode)) ==>
                Max(|disk|, |Hot()|) <= |View(buffer.pushed, mode)|
                && lines == ScrollWindow(Latest(View(buffer.pushed, mode), Max(|disk|, |Hot()|)), Offset(), height)
      ensures disk == View(buffer.pushed, mode) ==> lines == ScrollWindow(View(buffer.pushed, mode), Offset(), height)
      ensures WindowOf(lines, Combined(disk, Hot()), if paused then scrollOffset else 0, height)
      ensures disk == View(buffer.pushed, mode) && !paused ==> IsSuffix(lines, View(buffer.pushed, mode))
    {
      hide View, ScrollWindow, Combined, WindowOf;
      WindowIs(Combined(disk, Hot()), Offset(), height);
      WindowIs(View(buffer.pushed, mode), Offset(), height);
      RingIsRecent(buffer.pushed, buffer.maxLines, mode);
      if IsSuffix(disk, View(buffer.pushed, mode)) {
        CombinedIsLatest(View(buffer.pushed, mode), disk, Hot());
      }
      lines := WindowLines(disk, height);
    }

    method WindowLines(disk: seq<Line>, height: nat) returns (lines: seq<Line>)
      requires Valid()
      ensures lines == ScrollWindow(Combined(disk, Hot()), Offset(), height)
    {
      hide View;
      var total := TotalLineCount(disk);
      var windowEnd := Sub(total, Offset());
      var windowStart := Sub(windowEnd, height);
      var count := windowEnd - windowStart;
      if count == 0 {
        return [];
      }
      var hotLen := buffer.CountIn(mode);
      var boundary := Sub(|disk|, hotLen);
      CombinedParts(disk, Hot(), windowStart, windowEnd);
      if windowStart >= boundary {
        lines := HotBufferRange(windowStart - boundary, count);
      } else if windowEnd <= boundary {
        lines := Slice(disk, windowStart, count);
      } else {
        var fromDisk := Slice(disk, windowStart, boundary - windowStart);
        var fromHot := HotBufferRange(0, windowEnd - boundary);
        lines := fromDisk + fromHot;
      }
    }

    // What there is to scroll over: with a filter active, as many lines as its index has matches.
    ghost function Scrollable(disk: seq<Line>, matches: Option<nat>): nat
      reads this, buffer
    {
      if matches.Some? then matches.value else |Combined(disk, Hot())|
    }

    // `matches` is the size of the filter's index, zero while there is none, if a filter is active.
    method LineCountFor(disk: seq<Line>, matches: Option<nat>) returns (total: nat)
      requires Valid()
      ensures total == Scrollable(disk, matches)
    {
      if matches.Some? {
        return matches.value;
      }
      total := TotalLineCount(disk);
    }

    method ScrollUpBy(n: nat, disk: seq<Line>, matches: Option<nat>)
      requires Valid()
      modifies this
      ensures Valid() && mode == old(mode) && visibleHeight == old(visibleHeight) && paused
      ensures scrollOffset == Min(old(scrollOffset) + n, Sub(Scrollable(disk, matches), visibleHeight))
    {
      paused := true;
      var total := LineCountFor(disk, matches);
      scrollOffset := Min(scrollOffset + n, Sub(total, visibleHeight));
    }

    method ScrollDownBy(n: nat)
      requires Valid()
      modifies this
      ensures Valid() && mode == old(mode) && visibleHeight == old(visibleHeight)
      ensures scrollOffset == Sub(old(scrollOffset), n) && paused == (old(paused) && scrollOffset > 0)
    {
      scrollOffset := Sub(scrollOffset, n);
      if scrollOffset == 0 {
        paused := false;
      }
    }

    method ScrollToTop(disk: seq<Line>, matches: Option<nat>)
      requires Valid()
      modifies this
      ensures Valid() && mode == old(mode) && visibleHeight == old(visibleHeight) && paused
      ensures scrollOffset == Scrollable(disk, matches)
    {
      paused := true;
      scrollOffset := LineCountFor(disk, matches);
    }
  }

  // A window shows as many lines as there are to show exactly when its offset leaves room for
  // them. Scrolling up by a number of lines keeps to that.
  lemma WindowFullIff(all: seq<Line>, offset: nat, height: nat)
    requires height > 0 && all != []
    ensures |ScrollWindow(all, offset, height)| == Min(height, |all|) <==> offset <= Sub(|all|, height)
  {
  }

  // The key for the top stores the whole length as the offset, which shows nothing at all.
  lemma TopShowsNothing(all: seq<Line>, height: nat)
    ensures ScrollWindow(all, |all|, height) == []
  {
  }

  // --- The filtered index ------------------------------------------------------------------------

  datatype Matches = Matches(lines: seq<nat>, scannedUpTo: nat)

  // Scans, then asks for the line count; each sees the log as it is at that moment.
  function Built(atScan: seq<Bytes>, atCount: seq<Bytes>, filter: Filter): Matches {
    Matches(MatchesIn(atScan, 0, |atScan|, filter), |atCount|)
  }

  // Asks for the line count, then scans what is new.
  function Updated(ix: Matches, atCount: seq<Bytes>, atScan: seq<Bytes>, filter: Filter): Matches {
    if |atCount| <= ix.scannedUpTo then ix
    else Matches(ix.lines + MatchesIn(atScan, ix.scannedUpTo, |atScan|, filter), |atCount|)
  }

  class FilteredIndex {
    const filter: Filter
    var matchingLines: seq<nat>
    var scannedUpTo: nat

    function Now(): Matches
      reads this
    {
      Matches(matchingLines, scannedUpTo)
    }

    constructor Build(filter: Filter, atScan: seq<Bytes>, atCount: seq<Bytes>)
      ensures Now() == Built(atScan, atCount, filter) && this.filter == filter
    {
      this.filter := filter;
      matchingLines := MatchesIn(atScan, 0, |atScan|, filter);
      scannedUpTo := |atCount|;
    }

    method Update(atCount: seq<Bytes>, atScan: seq<Bytes>)
      modifies this
      ensures Now() == Updated(old(Now()), atCount, atScan, filter)
    {
      var currentTotal := |atCount|;
      if currentTotal <= scannedUpTo {
        return;
      }
      var newMatches := MatchesIn(atScan, scannedUpTo, |atScan|, filter);
      matchingLines := matchingLines + newMatches;
      scannedUpTo := currentTotal;
    }
  }

  // The log only grows from one look to the next.
  predicate Growing(looks: seq<seq<Bytes>>) {
    forall i, j :: 0 <= i <= j < |looks| ==> looks[i] <= looks[j]
  }

  // Built at the first look and updated at each later one, the log holding still during a look.
  function AfterUpdates(looks: seq<seq<Bytes>>, filter: Filter): Matches
    requires looks != []
  {
    var now := looks[|looks| - 1];
    if |looks| == 1 then Built(now, now, filter) else Updated(AfterUpdates(looks[..|looks| - 1], filter), now, now, filter)
  }

  // However many updates it took, the index is what one scan of the whole log gives.
  lemma {:induction false} UpdatesEqualFullScan(looks: seq<seq<Bytes>>, filter: Filter)
    requires looks != [] && Growing(looks)
    ensures var now := looks[|looks| - 1]; AfterUpdates(looks, filter) == Built(now, now, filter)
  {
    if |looks| > 1 {
      var before, now := looks[|looks| - 2], looks[|looks| - 1];
      UpdatesEqualFullScan(looks[..|looks| - 1], filter);
      assert before <= now;
      MatchesOfPrefix(before, now, 0, |before|, filter);
      MatchesJoin(now, 0, |before|, |now|, filter);
      if |before| == |now| { assert before == now; }
    }
  }

  // Of one stream, from a point on at which nothing is dropped any more, the looks do grow.
  lemma LooksGrow(evs: seq<LogEvent>, lim: Limits, cuts: seq<nat>)
    requires forall k :: 0 <= k < |cuts| ==> cuts[k] <= |evs|
    requires forall k, l :: 0 <= k <= l < |cuts| ==> cuts[k] <= cuts[l]
    requires cuts != [] ==> DropsNothingFrom(evs, lim, cuts[0])
    ensures Growing(seq(|cuts|, k requires 0 <= k < |cuts| => ShownAt(evs, lim, cuts[k])))
  {
    hide ShownAt;
    var looks := seq(|cuts|, k requires 0 <= k < |cuts| => ShownAt(evs, lim, cuts[k]));
    forall k, l | 0 <= k <= l < |looks| ensures looks[k] <= looks[l] {
      ShownGrows(evs, lim, cuts[0], cuts[k], cuts[l]);
    }
  }

  // What a reader sees of one stream after the first `n` events.
  function ShownAt(evs: seq<LogEvent>, lim: Limits, n: nat): seq<Bytes>
    requires n <= |evs|
  {
    IndexedTexts(StateAt(evs, lim, n))
  }

  lemma ShownGrows(evs: seq<LogEvent>, lim: Limits, i: nat, j: nat, k: nat)
    requires i <= j <= k <= |evs| && DropsNothingFrom(evs, lim, i)
    ensures ShownAt(evs, lim, j) <= ShownAt(evs, lim, k)
  {
    hide StateAt, IndexedTexts, DropsNothing;
    IndexedTextsGrow(evs, lim, j, k);
  }

  // Whether or not the log grew: an update leaves the index exact if and only if the log is no
  // shorter and every line that had been scanned still matches or not as it did. In the mode of
  // both streams a late index flush may break that.
  lemma UpdateExactIff(before: seq<Bytes>, now: seq<Bytes>, filter: Filter)
    ensures Updated(Built(before, before, filter), now, now, filter) == Built(now, now, filter)
       <==> |before| <= |now| && forall i :: 0 <= i < |before| ==> filter(before[i]) == filter(now[i])
  {
    if |before| <= |now| {
      var old', new' := MatchesIn(before, 0, |before|, filter), MatchesIn(now, 0, |before|, filter);
      MatchesJoin(now, 0, |before|, |now|, filter);
      SameMatchesIff(before, now, |before|, filter);
      NoneBeyond(now, |now|, filter);
      SameWithTail(old', new', MatchesIn(now, |before|, |now|, filter));
    }
  }

  // It does: a line of standard error, a line of standard output, whose capture ends first. A
  // filter on the latter finds it; when the other line's index is flushed, the update finds it
  // again, and still points at its old place.
  lemma LateFlushMisleadsFilter(before: Snapshot, now: Snapshot)
    requires var (out, err) := PairRun([(Stderr, [69]), (Stdout, [79])], Limits(0, 5));
             Shows(before, Flushed(out), err) && Shows(now, Flushed(out), Flushed(err))
    ensures Rendered(before, AllMerged(before)) == Some([(Stdout, [79])])
    ensures Rendered(now, AllMerged(now)) == Some([(Stderr, [69]), (Stdout, [79])])
    ensures var was, shown := TextsOfBoth([(Stdout, [79])]), TextsOfBoth([(Stderr, [69]), (Stdout, [79])]);
            Updated(Built(was, was, OnlyO), shown, shown, OnlyO) == Matches([0, 1], 2)
            && Built(shown, shown, OnlyO) == Matches([1], 2)
  {
    hide Shows, AllMerged, Rendered, TextOf, PairRun, Indexed;
    LateFlushInsertsAbove();
    var out, err := OneLine(Entry([79], 1)), OneLine(Entry([69], 0));
    OneSegment(Flushed(out));
    OneSegment(err);
    MergeIsPermutation(before, Flushed(out), err);
    var only := Merged(1, Stdout, 0);
    assert BothTagged([Entry([79], 1)], []) == [only];
    InOrderUnique(AllMerged(before), [only]);
    MergedReads(before, Flushed(out), err, only);
    RenderedFrom(before, [only], [(Stdout, [79])]);
    NoEntries();
    CompleteMergeIsHistory(now, [(Stderr, [69]), (Stdout, [79])], Limits(0, 5));
    TwoLinesFiltered();
  }

  const OnlyO: Filter := text => text == [79]

  lemma TwoLinesFiltered()
    ensures var was, shown := TextsOfBoth([(Stdout, [79])]), TextsOfBoth([(Stderr, [69]), (Stdout, [79])]);
            Updated(Built(was, was, OnlyO), shown, shown, OnlyO) == Matches([0, 1], 2)
            && Built(shown, shown, OnlyO) == Matches([1], 2)
  {
    var was, shown := TextsOfBoth([(Stdout, [79])]), TextsOfBoth([(Stderr, [69]), (Stdout, [79])]);
    assert was == [[79]] && shown == [[69], [79]];
    assert OnlyO([79]) && !OnlyO([69]);
    assert MatchesIn(was, 0, 0, OnlyO) == [] && MatchesIn(was, 0, 1, OnlyO) == [0];
    assert MatchesIn(shown, 1, 1, OnlyO) == [] && MatchesIn(shown, 1, 2, OnlyO) == [1];
    assert MatchesIn(shown, 0, 0, OnlyO) == [] && MatchesIn(shown, 0, 1, OnlyO) == [] && MatchesIn(shown, 0, 2, OnlyO) == [1];
  }

  lemma SameWithTail(a: seq<nat>, b: seq<nat>, tail: seq<nat>)
    ensures a + tail == b + tail <==> a == b
  {
    if a + tail == b + tail {
      assert |a| == |b|;
      assert a == (a + tail)[..|a|] && b == (b + tail)[..|b|];
    }
  }

  lemma {:induction false} SameMatchesIff(a: seq<Bytes>, b: seq<Bytes>, n: nat, filter: Filter)
    requires n <= |a| && n <= |b|
    ensures MatchesIn(a, 0, n, filter) == MatchesIn(b, 0, n, filter)
       <==> forall i :: 0 <= i < n ==> filter(a[i]) == filter(b[i])
  {
    MatchesExactly(a, 0, n, filter);
    MatchesExactly(b, 0, n, filter);
    if MatchesIn(a, 0, n, filter) == MatchesIn(b, 0, n, filter) {
      forall i | 0 <= i < n ensures filter(a[i]) == filter(b[i]) {
        assert i in MatchesIn(a, 0, n, filter) <==> i in MatchesIn(b, 0, n, filter);
      }
    }
    if forall i :: 0 <= i < n ==> filter(a[i]) == filter(b[i]) {
      AgreeingMatches(a, b, n, filter);
    }
  }

  lemma {:induction false} AgreeingMatches(a: seq<Bytes>, b: seq<Bytes>, n: nat, filter: Filter)
    requires n <= |a| && n <= |b| && forall i :: 0 <= i < n ==> filter(a[i]) == filter(b[i])
    ensures MatchesIn(a, 0, n, filter) == MatchesIn(b, 0, n, filter)
  {
    if n > 0 { AgreeingMatches(a, b, n - 1, filter); }
  }

  // The lines that match, in order.
  function Selected(lines: seq<Line>, filter: Filter): seq<Line> {
    if lines == [] then []
    else
      var last := lines[|lines| - 1];
      Selected(lines[..|lines| - 1], filter) + if filter(last.1) then [last] else []
  }

  lemma {:induction false} MatchesPointAtSelected(lines: seq<Line>, n: nat, filter: Filter)
    requires n <= |lines|
    ensures var ms := MatchesIn(TextsOfBoth(lines), 0, n, filter);
            |ms| == |Selected(lines[..n], filter)|
            && forall k :: 0 <= k < |ms| ==> ms[k] < |lines| && lines[ms[k]] == Selected(lines[..n], filter)[k]
  {
    if n > 0 {
      MatchesPointAtSelected(lines, n - 1, filter);
      assert lines[..n][..n - 1] == lines[..n - 1];
    }
  }

  // Reads lines one by one by their positions; a position past the end gives an empty line.
  method ReadScattered(disk: seq<Line>, positions: seq<nat>, source: LineSource) returns (lines: seq<Line>)
    ensures |lines| == |positions|
    ensures forall k :: 0 <= k < |lines| ==> lines[k] == if positions[k] < |disk| then disk[positions[k]] else (source, [])
  {
    lines := [];
    for i := 0 to |positions|
      invariant |lines| == i
      invariant forall k :: 0 <= k < i ==> lines[k] == if positions[k] < |disk| then disk[positions[k]] else (source, [])
    {
      lines := lines + [if positions[i] < |disk| then disk[positions[i]] else (source, [])];
    }
  }

  // Lines read by a range of the positions of all matches are that range of the matching lines.
  lemma ScatteredAreSelected(disk: seq<Line>, filter: Filter, positions: seq<nat>, lo: nat, hi: nat, lines: seq<Line>)
    requires positions == MatchesIn(TextsOfBoth(disk), 0, |disk|, filter) && lo <= hi <= |positions| && |lines| == hi - lo
    requires forall k :: lo <= k < hi && positions[k] < |disk| ==> lines[k - lo] == disk[positions[k]]
    ensures |Selected(disk, filter)| == |positions| && lines == Selected(disk, filter)[lo..hi]
  {
    hide MatchesIn, Selected;
    MatchesPointAtSelected(disk, |disk|, filter);
    assert disk[..|disk|] == disk;
    var selected := Selected(disk, filter);
    forall k | 0 <= k < hi - lo ensures lines[k] == selected[lo..hi][k] {
      assert positions[lo + k] < |disk| && lines[lo + k - lo] == disk[positions[lo + k]];
    }
  }

  // With an index that is up to date the filtered pane is the same window, over the matching lines.
  method FilteredVisibleLines(ix: FilteredIndex, pane: Pane, disk: seq<Line>, height: nat) returns (lines: seq<Line>)
    ensures ix.Now() == Built(TextsOfBoth(disk), TextsOfBoth(disk), ix.filter)
        ==> lines == ScrollWindow(Selected(disk, ix.filter), pane.Offset(), height)
            && WindowOf(lines, Selected(disk, ix.filter), if pane.paused then pane.scrollOffset else 0, height)
  {
    hide WindowOf, MatchesIn, Selected;
    var windowEnd := Sub(|ix.matchingLines|, pane.Offset());
    var windowStart := Sub(windowEnd, height);
    var positions := ix.matchingLines[windowStart..windowEnd];
    lines := ReadScattered(disk, positions, if pane.mode == OnlyStderr then Stderr else Stdout);
    if ix.Now() == Built(TextsOfBoth(disk), TextsOfBoth(disk), ix.filter) {
      forall k | windowStart <= k < windowEnd && ix.matchingLines[k] < |disk|
        ensures lines[k - windowStart] == disk[ix.matchingLines[k]]
      {
        assert positions[k - windowStart] == ix.matchingLines[k];
      }
      ScatteredAreSelected(disk, ix.filter, ix.matchingLines, windowStart, windowEnd, lines);
      WindowIs(Selected(disk, ix.filter), pane.Offset(), height);
    }
  }

  // When lines arrive between the scan and the count, the index misses the matches among them
  // for good; it is right exactly when there are none.
  lemma BuildRaceExactIff(atScan: seq<Bytes>, atCount: seq<Bytes>, filter: Filter)
    requires atScan <= atCount
    ensures Built(atScan, atCount, filter) == Built(atCount, atCount, filter)
       <==> forall i :: |atScan| <= i < |atCount| ==> !filter(atCount[i])
  {
    MatchesOfPrefix(atScan, atCount, 0, |atScan|, filter);
    MatchesJoin(atCount, 0, |atScan|, |atCount|, filter);
    NoMatchesIff(atCount, |atScan|, filter);
  }

  // When they arrive between the count and the scan of an update, the matches among them are
  // indexed now and once more later; again it is right exactly when there are none.
  lemma UpdateRaceExactIff(before: seq<Bytes>, atCount: seq<Bytes>, atScan: seq<Bytes>, filter: Filter)
    requires before <= atCount <= atScan && |before| < |atCount|
    ensures Updated(Built(before, before, filter), atCount, atScan, filter) == Built(atCount, atCount, filter)
       <==> forall i :: |atCount| <= i < |atScan| ==> !filter(atScan[i])
  {
    MatchesOfPrefix(before, atScan, 0, |before|, filter);
    MatchesJoin(atScan, 0, |before|, |atScan|, filter);
    MatchesOfPrefix(atCount, atScan, 0, |atCount|, filter);
    MatchesJoin(atScan, 0, |atCount|, |atScan|, filter);
    NoMatchesIff(atScan, |atCount|, filter);
  }

  lemma NoMatchesIff(lines: seq<Bytes>, begin: nat, filter: Filter)
    requires begin <= |lines|
    ensures MatchesIn(lines, begin, |lines|, filter) == [] <==> forall i :: begin <= i < |lines| ==> !filter(lines[i])
  {
    var ms := MatchesIn(lines, begin, |lines|, filter);
    MatchesExactly(lines, begin, |lines|, filter);
    if ms != [] { assert ms[0] in ms; }
  }

  // Both happen: a batch of 64 lines reaches the index between the two looks.
  lemma RacesHappen(lim: Limits)
    requires lim.maxBytes == 0 || 128 <= lim.maxBytes
    ensures Run(Blank(0), lim).indexed == 0 == |Run(Blank(0), lim).cur.entries|
    ensures Run(Blank(64), lim).indexed == 64 == |Run(Blank(64), lim).cur.entries|
    ensures Run(Blank(128), lim).indexed == 128 == |Run(Blank(128), lim).cur.entries|
    ensures var none, some, more := IndexedTexts(Run(Blank(0), lim)), IndexedTexts(Run(Blank(64), lim)), IndexedTexts(Run(Blank(128), lim));
            var missed := Built(none, some, line => true);
            var doubled := Updated(Updated(Built(none, none, line => true), some, more, line => true), more, more, line => true);
            missed == Matches([], 64) && |doubled.lines| == 192 && doubled.scannedUpTo == 128
  {
    var every: Filter := line => true;
    hide Run, IndexedTexts;
    BlankTexts(0, lim);
    BlankTexts(64, lim);
    BlankTexts(128, lim);
    BlankRun(0, lim);
    BlankRun(64, lim);
    BlankRun(128, lim);
    var none, some, more := IndexedTexts(Run(Blank(0), lim)), IndexedTexts(Run(Blank(64), lim)), IndexedTexts(Run(Blank(128), lim));
    EveryMatches(more, 0, 128);
    EveryMatches(more, 64, 128);
    assert MatchesIn(none, 0, 0, line => true) == [];
  }

  lemma {:induction false} EveryMatches(lines: seq<Bytes>, begin: nat, end: nat)
    requires begin <= end <= |lines|
    ensures |MatchesIn(lines, begin, end, line => true)| == end - begin
    decreases end
  {
    if begin < end { EveryMatches(lines, begin, end - 1); }
  }
}
