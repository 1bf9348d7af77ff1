/** How what a reader sees changes as a log is written. */
module LogGrowth {
  import opened Options
  import opened Storage
  import opened LogIndex
  import opened LogWriter
  import opened LogRuns
  import opened DiskLogReader
  import opened InterleavedReader
  import opened InterleavedRuns

  // --- One stream only grows ------------------------------------------------------------------

  // The event removes no line: it evicts no segment and truncates nothing.
  predicate DropsNothing(st: Stream, ev: LogEvent, lim: Limits) {
    match ev
    case LineWritten(text, _) => MustRotate(st, text, lim.maxBytes) ==> |st.rotated| < lim.maxRotated
    case CaptureEnded => true
    case Reopened(rotate) => if rotate then |st.rotated| < lim.maxRotated else st.cur.entries == []
  }

  function IndexedEntries(st: Stream): seq<Entry>
    requires st.indexed <= |st.cur.entries|
  {
    AllEntries(st.rotated) + st.cur.entries[..st.indexed]
  }

  lemma IndexedTextsAre(st: Stream)
    requires st.indexed <= |st.cur.entries|
    ensures IndexedTexts(st) == Texts(IndexedEntries(st))
  {
    TextsOfAll(IndexedSegments(st));
    AllEntriesSnoc(st.rotated, st.cur.(entries := st.cur.entries[..st.indexed]));
  }

  lemma RotateGrows(st: Stream, max: nat, seqBase: nat)
    requires st.indexed <= |st.cur.entries| && |st.rotated| < max
    ensures IndexedEntries(st) <= IndexedEntries(Rotate(st, max, seqBase))
  {
    AllEntriesSnoc(st.rotated, st.cur);
  }

  lemma AppendGrows(st: Stream, e: Entry)
    requires st.indexed <= |st.cur.entries|
    ensures AppendEntry(st, e).indexed <= |AppendEntry(st, e).cur.entries|
    ensures IndexedEntries(st) <= IndexedEntries(AppendEntry(st, e))
  {
    var after := AppendEntry(st, e);
    assert after.cur.entries[..st.indexed] == st.cur.entries[..st.indexed];
    assert after.cur.entries[..st.indexed] <= after.cur.entries[..after.indexed];
  }

  lemma PrefixOfTexts(a: seq<Entry>, b: seq<Entry>)
    requires a <= b
    ensures Texts(a) <= Texts(b)
  {
  }

  lemma NextGrows(st: Stream, ev: LogEvent, lim: Limits)
    requires st.indexed <= |st.cur.entries| && DropsNothing(st, ev, lim)
    ensures Next(st, ev, lim).indexed <= |Next(st, ev, lim).cur.entries|
    ensures IndexedEntries(st) <= IndexedEntries(Next(st, ev, lim))
  {
    hide IndexedEntries, Rotate, AppendEntry;
    match ev
    case LineWritten(text, seqNo) =>
      if MustRotate(st, text, lim.maxBytes) {
        RotateGrows(st, lim.maxRotated, seqNo);
        RotatedBound(st, lim.maxRotated, seqNo);
        AppendGrows(Rotate(st, lim.maxRotated, seqNo), Entry(text, seqNo));
      } else {
        AppendGrows(st, Entry(text, seqNo));
      }
    case CaptureEnded =>
      FlushGrows(st);
    case Reopened(rotate) =>
      FlushGrows(st);
      if rotate {
        RotateGrows(Flushed(st), lim.maxRotated, 0);
        RotatedBound(Flushed(st), lim.maxRotated, 0);
      } else {
        TruncateEmptyGrows(st);
      }
  }

  lemma RotatedBound(st: Stream, max: nat, seqBase: nat)
    ensures Rotate(st, max, seqBase).indexed <= |Rotate(st, max, seqBase).cur.entries|
  {
  }

  lemma FlushGrows(st: Stream)
    requires st.indexed <= |st.cur.entries|
    ensures IndexedEntries(st) <= IndexedEntries(Flushed(st))
  {
    assert st.cur.entries[..st.indexed] <= st.cur.entries[..|st.cur.entries|];
  }

  lemma TruncateEmptyGrows(st: Stream)
    requires st.indexed <= |st.cur.entries| && st.cur.entries == []
    ensures IndexedEntries(st) <= IndexedEntries(Stream(st.rotated, Segment(0, []), 0))
  {
  }

  // The stream after the first `j` events.
  function StateAt(evs: seq<LogEvent>, lim: Limits, j: nat): (st: Stream)
    requires j <= |evs|
    ensures st.indexed <= |st.cur.entries|
  {
    IndexLagsByLessThan64(evs[..j], lim);
    Run(evs[..j], lim)
  }

  lemma StateNext(evs: seq<LogEvent>, lim: Limits, j: nat)
    requires j < |evs|
    ensures StateAt(evs, lim, j + 1) == Next(StateAt(evs, lim, j), evs[j], lim)
  {
    hide Run;
    assert evs[..j + 1] == evs[..j] + [evs[j]];
    RunSnoc(evs[..j], evs[j], lim);
  }

  // From event `i` on nothing is dropped.
  predicate DropsNothingFrom(evs: seq<LogEvent>, lim: Limits, i: nat) {
    forall j :: i <= j < |evs| ==> DropsNothing(StateAt(evs, lim, j), evs[j], lim)
  }

  // What a reader sees of one stream at any moment is a first part of what it sees later.
  lemma {:induction false} IndexedTextsGrow(evs: seq<LogEvent>, lim: Limits, i: nat, j: nat)
    requires i <= j <= |evs| && DropsNothingFrom(evs, lim, i)
    ensures IndexedTexts(StateAt(evs, lim, i)) <= IndexedTexts(StateAt(evs, lim, j))
    decreases j
  {
    hide StateAt, Next, DropsNothing, IndexedTexts;
    if i < j {
      IndexedTextsGrow(evs, lim, i, j - 1);
      StateNext(evs, lim, j - 1);
      TextsGrow(StateAt(evs, lim, j - 1), evs[j - 1], lim);
    }
  }

  lemma TextsGrow(st: Stream, ev: LogEvent, lim: Limits)
    requires st.indexed <= |st.cur.entries| && DropsNothing(st, ev, lim)
    ensures Next(st, ev, lim).indexed <= |Next(st, ev, lim).cur.entries|
    ensures IndexedTexts(st) <= IndexedTexts(Next(st, ev, lim))
  {
    hide Next, DropsNothing, IndexedTexts, IndexedEntries;
    NextGrows(st, ev, lim);
    IndexedTextsAre(st);
    IndexedTextsAre(Next(st, ev, lim));
    PrefixOfTexts(IndexedEntries(st), IndexedEntries(Next(st, ev, lim)));
  }

  // --- The merged view need not -------------------------------------------------------------------

  lemma ComingAfterGrows(view: seq<Merged>, added: seq<Merged>, after: seq<Merged>)
    requires InOrder(view) && InOrder(added) && InOrder(after)
    requires multiset(after) == multiset(view) + multiset(added)
    requires forall x, y :: x in view && y in added ==> Before(x, y)
    ensures view <= after
  {
    assert InOrder(view + added);
    hide InOrder;
    InOrderUnique(view + added, after);
  }

  lemma GrownComesAfter(view: seq<Merged>, added: seq<Merged>, after: seq<Merged>, x: Merged, y: Merged)
    requires InOrder(after) && multiset(after) == multiset(view) + multiset(added)
    requires view <= after && x in view && y in added
    ensures Before(x, y)
  {
    hide InOrder, Before;
    var rest := after[|view|..];
    assert after == view + rest;
    assert multiset(rest) == multiset(after) - multiset(view) == multiset(added);
    assert y in multiset(rest);
    var i: nat :| i < |view| && view[i] == x;
    var j: nat :| j < |rest| && rest[j] == y;
    assert after[i] == x && after[|view| + j] == y;
    OrderAt(after, i, |view| + j);
  }

  // Adding lines to an ordered view leaves it a first part of the new one if and only if each
  // added line comes after all there were.
  lemma MergeGrowsIff(view: seq<Merged>, added: seq<Merged>, after: seq<Merged>)
    requires InOrder(view) && InOrder(added) && InOrder(after)
    requires multiset(after) == multiset(view) + multiset(added)
    ensures view <= after <==> forall x, y :: x in view && y in added ==> Before(x, y)
  {
    hide InOrder, Before;
    if forall x, y :: x in view && y in added ==> Before(x, y) {
      ComingAfterGrows(view, added, after);
    }
    if view <= after {
      forall x, y | x in view && y in added ensures Before(x, y) {
        GrownComesAfter(view, added, after, x, y);
      }
    }
  }

  // A stream of one line that is not indexed yet.
  function OneLine(e: Entry): Stream { Stream([], Segment(0, [e]), 0) }

  // A line of standard error, a line of standard output, and the latter's capture ends first:
  // the other line appears before it only when its index is flushed.
  lemma LateFlushInsertsAbove()
    ensures var out, err := OneLine(Entry([79], 1)), OneLine(Entry([69], 0));
            PairRun([(Stderr, [69]), (Stdout, [79])], Limits(0, 5)) == (out, err)
            && SortBySeq(BothTagged(Indexed(Flushed(out)), Indexed(err))) == [Merged(1, Stdout, 0)]
            && SortBySeq(BothTagged(Indexed(Flushed(out)), Indexed(Flushed(err)))) == [Merged(0, Stderr, 0), Merged(1, Stdout, 0)]
  {
    hide SortBySeq, PairRun, LogBytes, AllEntries;
    var h, lim := [(Stderr, [69]), (Stdout, [79])], Limits(0, 5);
    var e, o := Entry([69], 0), Entry([79], 1);
    PairSnoc([], (Stderr, [69]), lim);
    PairSnoc([(Stderr, [69])], (Stdout, [79]), lim);
    assert [] + [(Stderr, [69])] == [(Stderr, [69])] && [(Stderr, [69])] + [(Stdout, [79])] == h;
    assert [] + [e] == [e] && [] + [o] == [o];
    var out, err := OneLine(o), OneLine(e);
    assert PairRun(h, lim) == (out, err);
    OneSegment(out);
    OneSegment(err);
    OneSegment(Flushed(out));
    OneSegment(Flushed(err));
    SortOne(Merged(1, Stdout, 0));
    SortTwo(Merged(1, Stdout, 0), Merged(0, Stderr, 0));
    assert Indexed(Flushed(out)) == [o] && Indexed(err) == [] && Indexed(Flushed(err)) == [e];
    assert BothTagged([o], []) == [Merged(1, Stdout, 0)];
    assert BothTagged([o], [e]) == [Merged(1, Stdout, 0), Merged(0, Stderr, 0)];
  }

  lemma SortOne(a: Merged)
    ensures SortBySeq([a]) == [a]
  {
    assert [a][..0] == [] && SortBySeq([]) == [];
  }

  lemma SortTwo(a: Merged, b: Merged)
    ensures SortBySeq([a, b]) == if a.seqNo <= b.seqNo then [a, b] else [b, a]
  {
    SortOne(a);
    assert [a, b][..1] == [a] && [a][..0] == [];
    assert Insert([], b) == [b];
  }

  // --- Across a restart, a stream's own order breaks ------------------------------------------------

  // Two lines, an automatic restart, one more line numbered from zero again: the third line is
  // shown between the first two.
  lemma RestartBreaksOrder()
    ensures var evs := [LineWritten([65], 0), LineWritten([66], 1), Reopened(true), LineWritten([67], 0)];
            var kept := Retained(Run(evs, Limits(0, 5)));
            kept == [Entry([65], 0), Entry([66], 1), Entry([67], 0)]
            && SortBySeq(BothTagged(kept, [])) == [Merged(0, Stdout, 0), Merged(0, Stdout, 2), Merged(1, Stdout, 1)]
  {
    hide Run, AllEntries, SortBySeq;
    var lim, a, b, c := Limits(0, 5), Entry([65], 0), Entry([66], 1), Entry([67], 0);
    var w0, w1, r, w2 := LineWritten([65], 0), LineWritten([66], 1), Reopened(true), LineWritten([67], 0);
    NothingRun(lim);
    NoEntries();
    assert [] + [w0] == [w0] && [w0] + [w1] == [w0, w1] && [w0, w1] + [r] == [w0, w1, r] && [w0, w1, r] + [w2] == [w0, w1, r, w2];
    RunSnoc([], w0, lim);
    RunSnoc([w0], w1, lim);
    RunSnoc([w0, w1], r, lim);
    RunSnoc([w0, w1, r], w2, lim);
    assert [] + [a] == [a] && [a] + [b] == [a, b] && [] + [c] == [c];
    var old' := Segment(0, [a, b]);
    assert Run([w0, w1], lim) == Stream([], old', 0);
    assert [] + [old'] == [old'];
    assert Run([w0, w1, r, w2], lim) == Stream([old'], Segment(0, [c]), 0);
    AllEntriesSnoc([], old');
    var x, y, z := Merged(0, Stdout, 0), Merged(1, Stdout, 1), Merged(0, Stdout, 2);
    assert BothTagged([a, b, c], []) == [x, y, z];
    SortTwo(x, y);
    SortThree(x, y, z);
  }

  lemma SortThree(x: Merged, y: Merged, z: Merged)
    requires x.seqNo <= z.seqNo < y.seqNo
    ensures SortBySeq([x, y, z]) == [x, z, y]
  {
    SortTwo(x, y);
    assert [x, y, z][..2] == [x, y] && [x, y][..1] == [x];
    assert Insert([x], z) == [x, z];
  }

  // --- How far the index lags -----------------------------------------------------------------------

  // A log of `n` empty lines.
  function Blank(n: nat): (evs: seq<LogEvent>)
    ensures |evs| == n
  {
    if n == 0 then [] else Blank(n - 1) + [LineWritten([], n - 1)]
  }

  function BlankEntries(n: nat): (es: seq<Entry>)
    ensures |es| == n && forall i :: 0 <= i < n ==> es[i] == Entry([], i)
  {
    seq(n, i requires 0 <= i < n => Entry([], i))
  }

  lemma BlankSnoc(n: nat)
    requires n > 0
    ensures BlankEntries(n) == BlankEntries(n - 1) + [Entry([], n - 1)]
  {
  }

  lemma {:induction false} BlankBytes(n: nat)
    ensures |LogBytes(BlankEntries(n))| == n
  {
    if n > 0 {
      BlankBytes(n - 1);
      BlankSnoc(n);
      LogSnoc(BlankEntries(n - 1), Entry([], n - 1));
    }
  }

  function BlankStream(n: nat): Stream { Stream([], Segment(0, BlankEntries(n)), n - n % 64) }

  lemma BlankNext(n: nat, lim: Limits)
    requires (lim.maxBytes == 0 || n + 1 <= lim.maxBytes) && |LogBytes(BlankEntries(n))| == n
    ensures Next(BlankStream(n), LineWritten([], n), lim) == BlankStream(n + 1)
  {
    hide LogBytes, BlankEntries;
    BlankSnoc(n + 1);
    BatchOf64(n);
  }

  // Without a rotation the index covers whole batches of 64 lines.
  lemma {:induction false} BlankRun(n: nat, lim: Limits)
    requires lim.maxBytes == 0 || n <= lim.maxBytes
    ensures Run(Blank(n), lim) == BlankStream(n)
  {
    if n == 0 {
      NothingRun(lim);
      assert |BlankEntries(0)| == 0;
    } else {
      hide Run, LogBytes, BlankStream, Next;
      BlankRun(n - 1, lim);
      RunSnoc(Blank(n - 1), LineWritten([], n - 1), lim);
      BlankBytes(n - 1);
      BlankNext(n - 1, lim);
    }
  }

  lemma BatchOf64(n: nat)
    ensures (n + 1) - (n + 1) % 64 == if n + 1 >= n - n % 64 + 64 then n + 1 else n - n % 64
  {
  }

  lemma BlankTexts(n: nat, lim: Limits)
    requires lim.maxBytes == 0 || n <= lim.maxBytes
    ensures Run(Blank(n), lim).indexed <= |Run(Blank(n), lim).cur.entries|
    ensures IndexedTexts(Run(Blank(n), lim)) == seq(n - n % 64, i => [])
  {
    BlankRun(n, lim);
    var st := Run(Blank(n), lim);
    IndexedTextsAre(st);
    NoEntries();
    assert IndexedEntries(st) == BlankEntries(n)[..n - n % 64];
  }
}
