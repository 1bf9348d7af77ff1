/** The sidecar line index: its little-endian format, the buffered writer and the reader
    (src/daemon/log_index.rs). */
module LogIndex {
  import opened Options
  import opened Storage

  const HEADER_SIZE: nat := 16
  const RECORD_SIZE: nat := 16
  const MAGIC: Bytes := [0x4C, 0x49, 0x44, 0x58]
  const VERSION: nat := 1
  // Capacity of the standard library's buffered writer.
  const BUFFER_SIZE: nat := 8192

  datatype IndexRecord = IndexRecord(byteOffset: nat, seqNo: nat)

  // --- Little-endian numbers -----------------------------------------------------------

  function Pow256(k: nat): (p: nat)
    ensures p > 0
  {
    if k == 0 then 1 else 256 * Pow256(k - 1)
  }

  const U64_LIMIT: nat := Pow256(8)

  // The low `k` bytes of `n`, as `to_le_bytes` gives them.
  function ToLe(n: nat, k: nat): (bs: Bytes)
    ensures |bs| == k
  {
    if k == 0 then [] else [n % 256] + ToLe(n / 256, k - 1)
  }

  function FromLe(bs: Bytes): nat {
    if bs == [] then 0 else bs[0] + 256 * FromLe(bs[1..])
  }

  lemma {:induction false} LeRoundTrip(n: nat, k: nat)
    requires n < Pow256(k)
    ensures FromLe(ToLe(n, k)) == n
  {
    if k > 0 {
      assert n / 256 < Pow256(k - 1);
      LeRoundTrip(n / 256, k - 1);
      assert ToLe(n, k)[1..] == ToLe(n / 256, k - 1);
    }
  }

  lemma {:induction false} LeOnto(bs: Bytes)
    ensures FromLe(bs) < Pow256(|bs|) && ToLe(FromLe(bs), |bs|) == bs
  {
    if bs != [] {
      LeOnto(bs[1..]);
      Digit(bs[0], FromLe(bs[1..]));
    }
  }

  lemma Digit(b: Byte, rest: nat)
    ensures (b + 256 * rest) % 256 == b && (b + 256 * rest) / 256 == rest
  {
  }

  // --- Records -----------------------------------------------------------------------

  predicate Fits(r: IndexRecord) { r.byteOffset < U64_LIMIT && r.seqNo < U64_LIMIT }

  function RecordBytes(r: IndexRecord): (bs: Bytes)
    ensures |bs| == RECORD_SIZE
  {
    ToLe(r.byteOffset, 8) + ToLe(r.seqNo, 8)
  }

  function ParseRecord(bs: Bytes): IndexRecord
    requires |bs| == RECORD_SIZE
  {
    IndexRecord(FromLe(bs[0..8]), FromLe(bs[8..16]))
  }

  lemma RecordRoundTrip(r: IndexRecord)
    requires Fits(r)
    ensures ParseRecord(RecordBytes(r)) == r
  {
    assert RecordBytes(r)[0..8] == ToLe(r.byteOffset, 8);
    assert RecordBytes(r)[8..16] == ToLe(r.seqNo, 8);
    LeRoundTrip(r.byteOffset, 8);
    LeRoundTrip(r.seqNo, 8);
  }

  function AllRecords(rs: seq<IndexRecord>): (bs: Bytes)
    ensures |bs| == RECORD_SIZE * |rs|
  {
    if rs == [] then [] else AllRecords(rs[..|rs| - 1]) + RecordBytes(rs[|rs| - 1])
  }

  function Header(seqBase: nat): (bs: Bytes)
    ensures |bs| == HEADER_SIZE
  {
    MAGIC + ToLe(VERSION, 4) + ToLe(seqBase, 8)
  }

  // An index file holding these records.
  function IndexFile(seqBase: nat, rs: seq<IndexRecord>): (bs: Bytes)
    ensures |bs| == HEADER_SIZE + RECORD_SIZE * |rs|
  {
    Header(seqBase) + AllRecords(rs)
  }

  lemma {:induction false} AllRecordsAppend(a: seq<IndexRecord>, b: seq<IndexRecord>)
    ensures AllRecords(a + b) == AllRecords(a) + AllRecords(b)
    decreases |b|
  {
    if b == [] {
      assert a + b == a;
    } else {
      assert (a + b)[..|a + b| - 1] == a + b[..|b| - 1];
      AllRecordsAppend(a, b[..|b| - 1]);
    }
  }

  lemma AllRecordsOne(r: IndexRecord)
    ensures AllRecords([r]) == RecordBytes(r)
  {
    assert [r][..0] == [];
    assert AllRecords([]) == [];
  }

  // --- Reading -------------------------------------------------------------------------

  datatype IndexReader = IndexReader(file: Bytes, lineCount: nat, seqBase: nat)

  // None for a file that is too short, or has another magic or version.
  function Open(file: Bytes): Option<IndexReader> {
    if |file| < HEADER_SIZE then None
    else if file[0..4] != MAGIC then None
    else if FromLe(file[4..8]) != VERSION then None
    else Some(IndexReader(file, (|file| - HEADER_SIZE) / RECORD_SIZE, FromLe(file[8..16])))
  }

  function RecordAt(file: Bytes, line: nat): IndexRecord
    requires HEADER_SIZE + RECORD_SIZE * (line + 1) <= |file|
  {
    var offset := HEADER_SIZE + RECORD_SIZE * line;
    ParseRecord(file[offset..offset + RECORD_SIZE])
  }

  predicate Whole(r: IndexReader) { HEADER_SIZE + RECORD_SIZE * r.lineCount <= |r.file| }

  function ReadRecord(r: IndexReader, line: nat): Option<IndexRecord>
    requires Whole(r)
  {
    if line >= r.lineCount then None else Some(RecordAt(r.file, line))
  }

  function Min(a: nat, b: nat): nat { if a < b then a else b }

  // Records [start, start + count), clamped to the lines there are.
  function ReadRange(r: IndexReader, start: nat, count: nat): seq<IndexRecord>
    requires Whole(r)
  {
    var end := Min(start + count, r.lineCount);
    if end <= start then []
    else seq(end - start, i requires 0 <= i < end - start => RecordAt(r.file, start + i))
  }

  function LineCountFromMetadata(file: Bytes): nat {
    if |file| < HEADER_SIZE then 0 else (|file| - HEADER_SIZE) / RECORD_SIZE
  }

  lemma SliceOfConcat<T>(a: seq<T>, b: seq<T>, lo: nat, hi: nat)
    requires lo <= hi <= |a| + |b|
    ensures (a + b)[lo..hi] == if hi <= |a| then a[lo..hi]
                               else if lo >= |a| then b[lo - |a|..hi - |a|]
                               else a[lo..] + b[..hi - |a|]
  {
    var all := a + b;
    if hi > |a| && lo >= |a| {
      assert |all[lo..hi]| == |b[lo - |a|..hi - |a|]|;
      assert forall k :: lo <= k < hi ==> all[k] == b[k - |a|];
    }
  }

  lemma {:induction false} RecordInPlace(rs: seq<IndexRecord>, i: nat)
    requires i < |rs|
    ensures AllRecords(rs)[RECORD_SIZE * i..RECORD_SIZE * (i + 1)] == RecordBytes(rs[i])
    decreases |rs|
  {
    hide RecordBytes;
    var shorter, last := rs[..|rs| - 1], RecordBytes(rs[|rs| - 1]);
    assert AllRecords(rs) == AllRecords(shorter) + last;
    SliceOfConcat(AllRecords(shorter), last, RECORD_SIZE * i, RECORD_SIZE * (i + 1));
    if i < |rs| - 1 {
      RecordInPlace(shorter, i);
    } else {
      assert last[0..RECORD_SIZE] == last;
    }
  }

  lemma HeaderParts(seqBase: nat)
    ensures [] + [] + MAGIC + ToLe(VERSION, 4) + ToLe(seqBase, 8) == Header(seqBase)
  {
  }

  lemma HeaderParses(seqBase: nat, rest: Bytes)
    requires seqBase < U64_LIMIT
    ensures Open(Header(seqBase) + rest) == Some(IndexReader(Header(seqBase) + rest, |rest| / RECORD_SIZE, seqBase))
  {
    var file := Header(seqBase) + rest;
    assert file[0..4] == MAGIC;
    assert file[4..8] == ToLe(VERSION, 4);
    assert file[8..16] == ToLe(seqBase, 8);
    assert Pow256(4) > 256 by { assert Pow256(1) == 256; }
    LeRoundTrip(VERSION, 4);
    LeRoundTrip(seqBase, 8);
  }

  // The layout: the letters LIDX, the version and the base, then offset and number of each line,
  // all little-endian.
  lemma HeaderLayout(seqBase: nat)
    requires seqBase < U64_LIMIT
    ensures var header := Header(seqBase);
            |header| == 16 && header[0..8] == [0x4C, 0x49, 0x44, 0x58, 1, 0, 0, 0] && FromLe(header[8..16]) == seqBase
  {
    LeRoundTrip(seqBase, 8);
    assert Header(seqBase)[8..16] == ToLe(seqBase, 8);
    assert ToLe(1, 4) == [1] + ToLe(0, 3) && ToLe(0, 3) == [0] + ToLe(0, 2) && ToLe(0, 2) == [0] + ToLe(0, 1);
    assert Header(seqBase)[0..8] == MAGIC + ToLe(VERSION, 4);
  }

  lemma RecordLayout(r: IndexRecord)
    requires Fits(r)
    ensures FromLe(RecordBytes(r)[0..8]) == r.byteOffset && FromLe(RecordBytes(r)[8..16]) == r.seqNo
  {
    hide ToLe, FromLe;
    assert RecordBytes(r)[0..8] == ToLe(r.byteOffset, 8) && RecordBytes(r)[8..16] == ToLe(r.seqNo, 8);
    LeRoundTrip(r.byteOffset, 8);
    LeRoundTrip(r.seqNo, 8);
  }

  // A file opens exactly when it begins with the header of some base.
  lemma OpensIff(file: Bytes)
    ensures Open(file).Some? <==> exists seqBase: nat :: seqBase < U64_LIMIT && Header(seqBase) <= file
  {
    if Open(file).Some? {
      var seqBase := FromLe(file[8..16]);
      LeOnto(file[4..8]);
      LeOnto(file[8..16]);
      assert file[..16] == file[0..4] + file[4..8] + file[8..16];
      assert Header(seqBase) == file[..16];
    }
    if seqBase: nat :| seqBase < U64_LIMIT && Header(seqBase) <= file {
      HeaderParses(seqBase, file[16..]);
      assert file == Header(seqBase) + file[16..];
    }
  }

  lemma RecordReads(seqBase: nat, rs: seq<IndexRecord>, torn: Bytes, i: nat)
    requires i < |rs| && Fits(rs[i])
    ensures RecordAt(IndexFile(seqBase, rs) + torn, i) == rs[i]
  {
    var file := IndexFile(seqBase, rs) + torn;
    var offset := HEADER_SIZE + RECORD_SIZE * i;
    RecordInPlace(rs, i);
    assert file[offset..offset + RECORD_SIZE] == AllRecords(rs)[RECORD_SIZE * i..RECORD_SIZE * (i + 1)];
    RecordRoundTrip(rs[i]);
  }

  // What the writer wrote is what the reader reads, even with a torn record at the end.
  lemma IndexRoundTrip(seqBase: nat, rs: seq<IndexRecord>, torn: Bytes, start: nat, count: nat)
    requires seqBase < U64_LIMIT && (forall r :: r in rs ==> Fits(r)) && |torn| < RECORD_SIZE
    ensures var file := IndexFile(seqBase, rs) + torn;
            LineCountFromMetadata(file) == |rs|
            && Open(file) == Some(IndexReader(file, |rs|, seqBase))
            && ReadRange(IndexReader(file, |rs|, seqBase), start, count) == rs[Min(start, |rs|)..Min(start + count, |rs|)]
  {
    hide RecordAt, AllRecords, Header, Open, Fits;
    var file := IndexFile(seqBase, rs) + torn;
    assert file == Header(seqBase) + (AllRecords(rs) + torn);
    HeaderParses(seqBase, AllRecords(rs) + torn);
    WholeRecords(|rs|, |torn|);
    forall i: nat | i < |rs| ensures HEADER_SIZE + RECORD_SIZE * (i + 1) <= |file| && RecordAt(file, i) == rs[i] {
      RecordReads(seqBase, rs, torn, i);
    }
    RangeReads(file, rs, seqBase, start, count);
  }

  lemma WholeRecords(n: nat, torn: nat)
    requires torn < RECORD_SIZE
    ensures (RECORD_SIZE * n + torn) / RECORD_SIZE == n
  {
  }

  lemma RangeReads(file: Bytes, rs: seq<IndexRecord>, seqBase: nat, start: nat, count: nat)
    requires HEADER_SIZE + RECORD_SIZE * |rs| <= |file|
    requires forall i: nat :: i < |rs| ==> RecordAt(file, i) == rs[i]
    ensures ReadRange(IndexReader(file, |rs|, seqBase), start, count) == rs[Min(start, |rs|)..Min(start + count, |rs|)]
  {
    hide RecordAt;
  }

  // Reading one record agrees with reading a range of them, and fails beyond the last.
  lemma ReadRecordAgrees(seqBase: nat, rs: seq<IndexRecord>, torn: Bytes, line: nat)
    requires seqBase < U64_LIMIT && (forall r :: r in rs ==> Fits(r)) && |torn| < RECORD_SIZE
    ensures var reader := IndexReader(IndexFile(seqBase, rs) + torn, |rs|, seqBase);
            ReadRecord(reader, line) == if line < |rs| then Some(rs[line]) else None
  {
    if line < |rs| {
      RecordReads(seqBase, rs, torn, line);
    }
  }

  // --- Writing -------------------------------------------------------------------------

  // The buffered writer over one index file.
  class IndexWriter {
    const disk: Disk
    const path: FileName
    var buffer: Bytes

    // Creates the file and writes its header through to it.
    constructor Create(disk: Disk, path: FileName, seqBase: nat)
      modifies disk
      ensures this.disk == disk && this.path == path && buffer == []
      ensures disk.files == old(disk.files)[path := Header(seqBase)]
      ensures disk.history == old(disk.history) + [old(disk.files)[path := []], disk.files]
    {
      hide ToLe, FromLe, Header;
      this.disk, this.path := disk, path;
      buffer := [];
      new;
      disk.Create(path);
      WriteAll(MAGIC);
      WriteAll(ToLe(VERSION, 4));
      WriteAll(ToLe(seqBase, 8));
      Flush();
      HeaderParts(seqBase);
    }

    // Bytes reach the file in order. The buffer is emptied only when it would overflow, so
    // what fits stays out of the file.
    method WriteAll(bs: Bytes)
      requires path in disk.files && |bs| < BUFFER_SIZE
      modifies this, disk
      ensures path in disk.files && disk.files == old(disk.files)[path := disk.files[path]]
      ensures disk.files[path] + buffer == old(disk.files[path] + buffer) + bs
      ensures old(disk.history) <= disk.history
      ensures |old(buffer)| + |bs| <= BUFFER_SIZE ==>
                disk.files == old(disk.files) && disk.history == old(disk.history) && buffer == old(buffer) + bs
    {
      if |buffer| + |bs| > BUFFER_SIZE {
        Flush();
      }
      buffer := buffer + bs;
    }

    // One write of everything buffered.
    method Flush()
      requires path in disk.files
      modifies this, disk
      ensures disk.files == old(disk.files)[path := old(disk.files[path] + buffer)] && buffer == []
      ensures disk.history == old(disk.history) + [disk.files]
    {
      disk.Append(path, buffer);
      buffer := [];
    }

    // A record that fits the buffer stays out of the file altogether.
    method Append(r: IndexRecord)
      requires path in disk.files
      modifies this, disk
      ensures path in disk.files && disk.files == old(disk.files)[path := disk.files[path]]
      ensures disk.files[path] + buffer == old(disk.files[path] + buffer) + RecordBytes(r)
      ensures old(disk.history) <= disk.history
      ensures |old(buffer)| + RECORD_SIZE <= BUFFER_SIZE ==>
                disk.files == old(disk.files) && disk.history == old(disk.history) && buffer == old(buffer) + RecordBytes(r)
    {
      hide ToLe;
      WriteAll(ToLe(r.byteOffset, 8));
      WriteAll(ToLe(r.seqNo, 8));
      assert old(disk.files[path] + buffer) + ToLe(r.byteOffset, 8) + ToLe(r.seqNo, 8)
          == old(disk.files[path] + buffer) + RecordBytes(r);
    }
  }
}
