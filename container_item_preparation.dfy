/** `ContainerItemPreparation` (spacip): unpacks every record of an ARC
    container into its own HDFS file, writes one `keyfilmapping` line per
    record, and groups the unpacked files into `ptmapredinput` command lines
    of N items each with a down-counter. HDFS, the Hadoop configuration, the
    random file names and the Heritrix ARC reader are inputs. */
module ContainerPreparation {
  import opened Common

  const BufferSize: nat := 8192

  /** What the loop reads from one Heritrix `ArchiveRecord`; `isArc` is false
      for a record that is not an `ARCRecord`, on which the cast fails. */
  datatype ContainerRecord = ContainerRecord(
    mimetype: string,
    readerIdentifier: string,
    recordIdentifier: string,
    isArc: bool,
    bytes: seq<byte>,
    contentBegin: int)

  /** The settings and environment of one `prepareInput` call. */
  datatype Config = Config(
    unpackDir: string,            // normdir(unpack_hdfs_path) + time + "/"
    outputDir: string,            // normdir(tooloutput_hdfs_path) + time + "/"
    home: string,                 // fs.getHomeDirectory()
    sep: char,                    // File.separator
    outputFileSuffix: string,     // output_file_suffix
    scapePlatformInvoke: string,  // scape_platform_invoke
    itemsPerInvocation: int,      // num_items_per_task
    randomName: nat -> string,    // the k-th RandomStringUtils.randomAlphabetic(20)
    pathToString: string -> string) // new Path(s).toString()

  /** What a `ContainerItemPreparation` keeps from call to call: its Hadoop
      configuration's settings and the file system's. */
  datatype Settings = Settings(
    unpackBase: string,           // normdir(unpack_hdfs_path)
    outputBase: string,           // normdir(tooloutput_hdfs_path)
    home: string,
    sep: char,
    outputFileSuffix: string,
    scapePlatformInvoke: string,
    itemsPerInvocation: int,
    pathToString: string -> string)

  /** The settings of one `prepareInput` call: both directories carry the
      call's `currentTimeMillis` stamp, and the call draws its own random
      file names. */
  function CallConfig(settings: Settings, currTM: int, randomName: nat -> string): (conf: Config)
    ensures conf.unpackDir == settings.unpackBase + IntToString(currTM) + "/"
    ensures conf.outputDir == settings.outputBase + IntToString(currTM) + "/"
    ensures conf.randomName == randomName
    ensures conf.itemsPerInvocation == settings.itemsPerInvocation && conf.sep == settings.sep
  {
    Config(settings.unpackBase + IntToString(currTM) + "/", settings.outputBase + IntToString(currTM) + "/",
           settings.home, settings.sep, settings.outputFileSuffix, settings.scapePlatformInvoke,
           settings.itemsPerInvocation, randomName, settings.pathToString)
  }

  /** Two calls made at different times unpack into, and write their tool
      output under, different directories. */
  lemma CallDirsDistinct(settings: Settings, t1: int, t2: int, names1: nat -> string, names2: nat -> string)
    requires InLongRange(t1) && InLongRange(t2) && t1 != t2
    ensures CallConfig(settings, t1, names1).unpackDir != CallConfig(settings, t2, names2).unpackDir
    ensures CallConfig(settings, t1, names1).outputDir != CallConfig(settings, t2, names2).outputDir
  {
    StampedDirDistinct(settings.unpackBase, t1, t2);
    StampedDirDistinct(settings.outputBase, t1, t2);
  }

  lemma StampedDirDistinct(base: string, t1: int, t2: int)
    requires InLongRange(t1) && InLongRange(t2) && t1 != t2
    ensures base + IntToString(t1) + "/" != base + IntToString(t2) + "/"
  {
    ParseLongOfIntToString(t1);
    ParseLongOfIntToString(t2);
    var s1, s2 := IntToString(t1), IntToString(t2);
    var d1, d2 := base + s1 + "/", base + s2 + "/";
    if |s1| == |s2| {
      assert d1[|base|..|base| + |s1|] == s1;
      assert d2[|base|..|base| + |s2|] == s2;
    } else {
      assert |d1| != |d2|;
    }
  }

  /** The RuntimeException that ends the loop, caught and logged. */
  datatype LoopError = ClassCast | StringIndexOutOfBounds

  // ---------------------------------------------------------------------------
  // Names and keys

  /** The file extension for a MIME type: every '/' replaced by '-'. */
  function MimeSuffix(mimetype: string): (r: string)
    ensures |r| == |mimetype| && '/' !in r
    ensures forall i :: 0 <= i < |r| ==> r[i] == if mimetype[i] == '/' then '-' else mimetype[i]
  {
    ReplaceAllChar(mimetype, '/', '-');
    ReplaceAll(mimetype, "/", "-")
  }

  function RecordKey(rec: ContainerRecord): string {
    rec.readerIdentifier + "/" + rec.recordIdentifier
  }

  /** A key whose reader identifier has no '/' splits back at its first '/'
      into the two identifiers. */
  lemma RecordKeySplits(rec: ContainerRecord)
    requires '/' !in rec.readerIdentifier
    ensures var key := RecordKey(rec);
      && IndexOf(key, '/') == Some(|rec.readerIdentifier|)
      && key[..|rec.readerIdentifier|] == rec.readerIdentifier
      && key[|rec.readerIdentifier| + 1..] == rec.recordIdentifier
  {
    var key := RecordKey(rec);
    var n := |rec.readerIdentifier|;
    assert key[..n] == rec.readerIdentifier;
    assert key[n] == '/';
    assert key[n + 1..] == rec.recordIdentifier;
  }

  // ---------------------------------------------------------------------------
  // Copying one record

  /** How far `skip(contentBegin)` moves: not at all for a negative count, at
      most to the end of the record. */
  function Skipped(rec: ContainerRecord): (k: nat)
    ensures k <= |rec.bytes|
  {
    if rec.contentBegin <= 0 then 0
    else if rec.contentBegin >= |rec.bytes| then |rec.bytes|
    else rec.contentBegin
  }

  /** The bytes `arcToOutputStream` writes: everything after the skipped
      header, in order. */
  function Content(rec: ContainerRecord): (out: seq<byte>)
    ensures IsSuffix(out, rec.bytes)
    ensures rec.contentBegin <= 0 ==> out == rec.bytes
    ensures 0 <= rec.contentBegin <= |rec.bytes| ==> |out| == |rec.bytes| - rec.contentBegin
  {
    rec.bytes[Skipped(rec)..]
  }

  /** `InputStream.read(buffer)` at position `pos` of `data`: the number of
      bytes copied into the buffer, or -1 at the end. */
  method ReadInto(data: seq<byte>, pos: nat, buffer: array<byte>) returns (count: int)
    requires pos <= |data| && buffer.Length > 0
    modifies buffer
    ensures count == -1 <==> pos == |data|
    ensures count != -1 ==> 0 < count <= buffer.Length && pos + count <= |data|
    ensures count != -1 ==> buffer[..count] == data[pos..pos + count]
  {
    if pos == |data| {
      return -1;
    }
    count := if |data| - pos < buffer.Length then |data| - pos else buffer.Length;
    var k := 0;
    while k < count
      invariant 0 <= k <= count
      invariant buffer[..k] == data[pos..pos + k]
    {
      buffer[k] := data[pos + k];
      k := k + 1;
    }
  }

  /** Skips the record header, then copies the rest through an 8192-byte
      buffer until the stream is exhausted. */
  method ArcToOutputStream(rec: ContainerRecord) returns (out: seq<byte>)
    ensures out == Content(rec)
  {
    var buffer := new byte[BufferSize];
    var pos := Skipped(rec);
    out := [];
    var bytesRead := ReadInto(rec.bytes, pos, buffer);
    while bytesRead != -1
      invariant Skipped(rec) <= pos <= |rec.bytes|
      invariant out == rec.bytes[Skipped(rec)..pos]
      invariant bytesRead == -1 <==> pos == |rec.bytes|
      invariant bytesRead != -1 ==> 0 < bytesRead && pos + bytesRead <= |rec.bytes|
                                     && bytesRead <= buffer.Length
                                     && buffer[..bytesRead] == rec.bytes[pos..pos + bytesRead]
      decreases |rec.bytes| - pos
    {
      out := out + buffer[..bytesRead];
      pos := pos + bytesRead;
      bytesRead := ReadInto(rec.bytes, pos, buffer);
    }
  }

  // ---------------------------------------------------------------------------
  // The per-record paths and list entries

  function FileName(conf: Config, records: seq<ContainerRecord>, i: nat): string
    requires i < |records|
  {
    conf.randomName(i) + "." + MimeSuffix(records[i].mimetype)
  }

  /** Where record `i` is unpacked. */
  function UnpackPath(conf: Config, records: seq<ContainerRecord>, i: nat): string
    requires i < |records|
  {
    conf.unpackDir + FileName(conf, records, i)
  }

  /** Where the tool is to write its result for record `i`. */
  function OutPath(conf: Config, records: seq<ContainerRecord>, i: nat): string
    requires i < |records|
  {
    conf.outputDir + FileName(conf, records, i) + conf.outputFileSuffix
  }

  function InEntry(conf: Config, records: seq<ContainerRecord>, i: nat): string
    requires i < |records|
  {
    conf.home + [conf.sep] + UnpackPath(conf, records, i)
  }

  function OutEntry(conf: Config, records: seq<ContainerRecord>, i: nat): string
    requires i < |records|
  {
    conf.home + [conf.sep] + OutPath(conf, records, i)
  }

  /** A list as the loop accumulates it: each entry preceded by a comma. */
  function Listed(entries: seq<string>): (r: string)
    ensures entries == [] <==> r == ""
    ensures entries != [] ==> r[0] == ','
  {
    if entries == [] then ""
    else
      Listed(entries[..|entries| - 1]) + ("," + entries[|entries| - 1])
  }

  function InEntries(conf: Config, records: seq<ContainerRecord>, lo: nat, hi: nat): seq<string>
    requires lo <= hi <= |records|
  {
    seq(hi - lo, j requires 0 <= j < hi - lo => InEntry(conf, records, lo + j))
  }

  function OutEntries(conf: Config, records: seq<ContainerRecord>, lo: nat, hi: nat): seq<string>
    requires lo <= hi <= |records|
  {
    seq(hi - lo, j requires 0 <= j < hi - lo => OutEntry(conf, records, lo + j))
  }

  /** The `ptmapredinput` value for one batch. */
  function CommandLine(inputList: string, outputList: string): string {
    "--input=\"hdfs:///./\" "
    + "--inputlist=\"" + inputList + "\" "
    + "--output=\"hdfs:///./\" "
    + "--outputlist=\"" + outputList + "\""
  }

  // ---------------------------------------------------------------------------
  // What a whole run writes

  /** The position of the first record that is not an ARC record, or the
      number of records when they all are. */
  function FirstNonArc(records: seq<ContainerRecord>): (k: nat)
    ensures k <= |records|
    ensures forall j :: 0 <= j < k ==> records[j].isArc
    ensures k < |records| ==> !records[k].isArc
  {
    if records == [] || !records[0].isArc then 0 else 1 + FirstNonArc(records[1..])
  }

  /** How many records are unpacked and get their `keyfilmapping` line before
      the loop ends: all up to the first non-ARC record, and with N = 0 at
      most the first one, since the first batch check fails on it. */
  function Reached(conf: Config, records: seq<ContainerRecord>): (k: nat)
    ensures k <= FirstNonArc(records) <= |records|
  {
    var stop := FirstNonArc(records);
    if conf.itemsPerInvocation == 0 && stop > 0 then 1 else stop
  }

  /** The error the loop ends with, if any. */
  function LoopOutcome(conf: Config, records: seq<ContainerRecord>): Option<LoopError> {
    var stop := FirstNonArc(records);
    if conf.itemsPerInvocation == 0 && stop > 0 then Some(StringIndexOutOfBounds)
    else if stop < |records| then Some(ClassCast)
    else None
  }

  /** How many commands a run emits: one per N + 1 records reached. */
  function CommandCount(conf: Config, records: seq<ContainerRecord>): nat {
    var n := conf.itemsPerInvocation;
    if n > 0 then CompleteBatches(n, Reached(conf, records)) else 0
  }

  /** How many times N records and the record that flushes them fit into
      the first `r` records: `r / (n + 1)`, counted out. */
  function CompleteBatches(n: nat, r: nat): nat
    decreases r
  {
    if r < n + 1 then 0 else 1 + CompleteBatches(n, r - (n + 1))
  }

  /** The record positions batch `k` holds, for N = n. */
  predicate InBatch(n: nat, k: nat, i: nat) {
    k * (n + 1) <= i < k * (n + 1) + n
  }

  /** Where batch `k` starts for N = n: each batch takes n records, and the
      record after it is the one that flushes it. */
  function BatchStart(n: nat, k: nat): nat {
    if k == 0 then 0 else BatchStart(n, k - 1) + n + 1
  }

  lemma {:induction false} BatchStartIsProduct(n: nat, k: nat)
    ensures BatchStart(n, k) == k * (n + 1)
  {
    if k > 0 {
      BatchStartIsProduct(n, k - 1);
      MulSucc(k - 1, n + 1);
    }
  }

  /** Batches start further on the later they come. */
  lemma {:induction false} BatchStartMonotone(n: nat, j: nat, k: nat)
    requires j <= k
    ensures BatchStart(n, j) <= BatchStart(n, k)
    decreases k
  {
    if j < k {
      BatchStartMonotone(n, j, k - 1);
    }
  }

  /** The complete batches in `r` records end at or before `r`. */
  lemma {:induction false} CompleteBatchesFit(n: nat, r: nat)
    ensures BatchStart(n, CompleteBatches(n, r)) <= r
    decreases r
  {
    if r >= n + 1 {
      CompleteBatchesFit(n, r - (n + 1));
    }
  }

  /** A position `extra <= n` records after the start of batch `b` lies
      after exactly `b` complete batches. */
  lemma {:induction false} CompleteBatchesAt(n: nat, b: nat, extra: nat)
    requires extra <= n
    ensures CompleteBatches(n, BatchStart(n, b) + extra) == b
  {
    if b > 0 {
      CompleteBatchesAt(n, b - 1, extra);
    }
  }

  /** `CompleteBatches` is integer division by n + 1. */
  lemma CompleteBatchesIsQuotient(n: nat, r: nat)
    ensures CompleteBatches(n, r) == r / (n + 1)
  {
    var q, m := r / (n + 1), r % (n + 1);
    assert r == BatchStart(n, q) + m && m <= n by {
      BatchStartIsProduct(n, q);
    }
    CompleteBatchesAt(n, q, m);
  }

  /** Command `k`: the n records from `BatchStart(n, k)` on. */
  function Command(conf: Config, records: seq<ContainerRecord>, k: nat): (string, string)
    requires conf.itemsPerInvocation > 0
    requires BatchStart(conf.itemsPerInvocation, k) + conf.itemsPerInvocation <= |records|
  {
    var n := conf.itemsPerInvocation;
    var lo := BatchStart(n, k);
    var inl := Listed(InEntries(conf, records, lo, lo + n));
    var outl := Listed(OutEntries(conf, records, lo, lo + n));
    (conf.scapePlatformInvoke, CommandLine(inl[1..], outl[1..]))
  }

  /** The first `b` commands, in order. */
  function Commands(conf: Config, records: seq<ContainerRecord>, b: nat): (cs: seq<(string, string)>)
    requires conf.itemsPerInvocation > 0
    requires BatchStart(conf.itemsPerInvocation, b) <= |records|
    ensures |cs| == b
  {
    if b == 0 then []
    else
      Commands(conf, records, b - 1) + [Command(conf, records, b - 1)]
  }

  /** The k-th of the first `b` commands is command `k`. */
  lemma {:induction false} CommandsAt(conf: Config, records: seq<ContainerRecord>, b: nat, k: nat)
    requires conf.itemsPerInvocation > 0
    requires BatchStart(conf.itemsPerInvocation, b) <= |records| && k < b
    ensures BatchStart(conf.itemsPerInvocation, k) + conf.itemsPerInvocation <= |records|
    ensures Commands(conf, records, b)[k] == Command(conf, records, k)
  {
    if k < b - 1 {
      CommandsAt(conf, records, b - 1, k);
    }
  }

  /** Every command a run emits. */
  function AllCommands(conf: Config, records: seq<ContainerRecord>): seq<(string, string)> {
    var n := conf.itemsPerInvocation;
    if n <= 0 then []
    else
      var count := CommandCount(conf, records);
      CompleteBatchesFit(n, Reached(conf, records));
      Commands(conf, records, count)
  }

  function KeyFileLine(conf: Config, records: seq<ContainerRecord>, i: nat): (string, string)
    requires i < |records|
  {
    (RecordKey(records[i]), conf.home + [conf.sep] + conf.pathToString(UnpackPath(conf, records, i)))
  }

  function KeyFileLines(conf: Config, records: seq<ContainerRecord>, m: nat): seq<(string, string)>
    requires m <= |records|
  {
    seq(m, i requires 0 <= i < m => KeyFileLine(conf, records, i))
  }

  function UnpackedFile(conf: Config, records: seq<ContainerRecord>, i: nat): (string, seq<byte>)
    requires i < |records|
  {
    (UnpackPath(conf, records, i), Content(records[i]))
  }

  function UnpackedFiles(conf: Config, records: seq<ContainerRecord>, m: nat): seq<(string, seq<byte>)>
    requires m <= |records|
  {
    seq(m, i requires 0 <= i < m => UnpackedFile(conf, records, i))
  }

  // ---------------------------------------------------------------------------
  // Facts about a run

  lemma MulSucc(a: nat, m: nat)
    ensures (a + 1) * m == a * m + m
  {
  }

  /** Multiplying by a positive number keeps the order. */
  lemma MulMonotone(a: nat, b: nat, c: nat)
    requires a <= b
    ensures a * c <= b * c
  {
    assert b * c == a * c + (b - a) * c;
  }

  /** Division by `d` is the unique decomposition into quotient and remainder. */
  lemma DivUnique(i: nat, d: nat, b: nat, r: nat)
    requires d > 0 && i == b * d + r && r < d
    ensures i / d == b && i % d == r
  {
    var q := i / d;
    if q < b {
      MulMonotone(q + 1, b, d);
    } else if q > b {
      MulMonotone(b + 1, q, d);
    }
  }

  /** Every (n + 1)-th record, the one whose turn it is when the counter is
      0, is in no batch; every other record is in the batch of its block and
      in no other. */
  lemma {:induction false} BatchMembership(n: nat, i: nat)
    requires n > 0
    ensures InBatch(n, i / (n + 1), i) <==> i % (n + 1) != n
    ensures forall k: nat :: InBatch(n, k, i) ==> k == i / (n + 1)
  {
    var q, r := i / (n + 1), i % (n + 1);
    forall k: nat | InBatch(n, k, i)
      ensures k == q
    {
      DivUnique(i, n + 1, k, i - k * (n + 1));
    }
  }

  /** Among the first `c` batches, record `i` is in one exactly when it is
      not an (N + 1)-th record and comes before the end of batch `c - 1`. */
  lemma {:induction false} InFirstBatches(n: nat, c: nat, i: nat)
    requires n > 0
    ensures (exists k: nat :: k < c && InBatch(n, k, i)) <==> i % (n + 1) != n && i < c * (n + 1)
  {
    BatchMembership(n, i);
    var q := i / (n + 1);
    assert q * (n + 1) <= i < (q + 1) * (n + 1) by {
      MulSucc(q, n + 1);
    }
    if q < c {
      MulMonotone(q + 1, c, n + 1);
      if i % (n + 1) != n {
        assert InBatch(n, q, i);
      }
    } else {
      MulMonotone(c, q, n + 1);
    }
  }

  /** With N > 0 the commands hold exactly the reached records that are
      neither a skipped (N + 1)-th record nor part of the trailing partial
      batch. */
  lemma CommandsCoverage(conf: Config, records: seq<ContainerRecord>, i: nat)
    requires conf.itemsPerInvocation > 0 && i < Reached(conf, records)
    ensures (exists k: nat :: k < CommandCount(conf, records) && InBatch(conf.itemsPerInvocation, k, i))
            <==> i % (conf.itemsPerInvocation + 1) != conf.itemsPerInvocation
                 && i < CommandCount(conf, records) * (conf.itemsPerInvocation + 1)
  {
    InFirstBatches(conf.itemsPerInvocation, CommandCount(conf, records), i);
  }

  /** The trailing partial batch: fewer than N + 1 records after the last
      command, which no command holds. */
  lemma TrailingBatchDropped(conf: Config, records: seq<ContainerRecord>)
    requires conf.itemsPerInvocation > 0
    ensures var n := conf.itemsPerInvocation;
      Reached(conf, records) - CommandCount(conf, records) * (n + 1) <= n
  {
    CompleteBatchesIsQuotient(conf.itemsPerInvocation, Reached(conf, records));
  }

  /** N = 0: only the first record is unpacked, and no command is emitted. */
  lemma NoBatchesWhenZero(conf: Config, records: seq<ContainerRecord>)
    requires conf.itemsPerInvocation == 0
    ensures CommandCount(conf, records) == 0 && Reached(conf, records) <= 1
    ensures records != [] && records[0].isArc <==> LoopOutcome(conf, records) == Some(StringIndexOutOfBounds)
  {
  }

  /** Each command holds exactly N input and N output entries. */
  lemma CommandSize(conf: Config, records: seq<ContainerRecord>, k: nat)
    requires conf.itemsPerInvocation > 0 && k < CommandCount(conf, records)
    ensures BatchStart(conf.itemsPerInvocation, k + 1) <= |records|
    ensures var n := conf.itemsPerInvocation;
      |InEntries(conf, records, BatchStart(n, k), BatchStart(n, k) + n)| == n
  {
    var n := conf.itemsPerInvocation;
    CompleteBatchesFit(n, Reached(conf, records));
    BatchStartMonotone(n, k + 1, CommandCount(conf, records));
  }

  // ---------------------------------------------------------------------------
  // The job

  /** One record of the loop: the record is copied to a freshly named file
      under the unpack directory and given its `keyfilmapping` line, which
      extends the outputs of the records before it; also returns the
      record's entries for the input and output lists. */
  method UnpackRecord(conf: Config, records: seq<ContainerRecord>, i: nat,
                      keys: seq<(string, string)>, files: seq<(string, seq<byte>)>)
    returns (keys': seq<(string, string)>, files': seq<(string, seq<byte>)>, inEntry: string, outEntry: string)
    requires i < |records|
    requires keys == KeyFileLines(conf, records, i) && files == UnpackedFiles(conf, records, i)
    ensures keys' == KeyFileLines(conf, records, i + 1)
    ensures files' == UnpackedFiles(conf, records, i + 1)
    ensures inEntry == InEntry(conf, records, i) && outEntry == OutEntry(conf, records, i)
  {
    var rec := records[i];
    var mimeSuffix := MimeSuffix(rec.mimetype);
    var recordKey := RecordKey(rec);
    var fileName := conf.randomName(i) + "." + mimeSuffix;
    var hdfsPathStr := conf.unpackDir + fileName;
    var hdfsOutPathStr := conf.outputDir + fileName + conf.outputFileSuffix;
    var contents := ArcToOutputStream(rec);
    var file := (hdfsPathStr, contents);
    var keyLine := (recordKey, conf.home + [conf.sep] + conf.pathToString(hdfsPathStr));
    OneMoreRecord(conf, records, i);
    files' := files + [file];
    keys' := keys + [keyLine];
    inEntry := conf.home + [conf.sep] + hdfsPathStr;
    outEntry := conf.home + [conf.sep] + hdfsOutPathStr;
  }

  /** The batch bookkeeping for one unpacked record. With the counter
      positive the record's entries join both lists; at 0 the lists lose
      their leading commas and go out as one `ptmapredinput` line, and the
      batch starts again (`substring(1)` of an empty list is the
      StringIndexOutOfBoundsException, `failed`); a negative counter changes
      nothing. The ghost parameters carry the loop's batch position. */
  method Enlist(conf: Config, ghost records: seq<ContainerRecord>, ghost i: nat, ghost batch: nat, ghost inBatch: nat,
                counter: int, inl: string, outl: string, cmds: seq<(string, string)>, inEntry: string, outEntry: string)
    returns (counter': int, inl': string, outl': string, cmds': seq<(string, string)>, failed: bool,
             ghost batch': nat, ghost inBatch': nat)
    requires i < |records|
    requires inEntry == InEntry(conf, records, i) && outEntry == OutEntry(conf, records, i)
    requires Batching(conf, records, i, batch, inBatch, counter, inl, outl, cmds)
    ensures failed <==> counter == 0 && |inl| == 0
    ensures failed ==> conf.itemsPerInvocation == 0 && i == 0 && cmds' == cmds == []
    ensures counter == 0 && |inl| > 0 ==>
              |outl| > 0 && cmds' == cmds + [(conf.scapePlatformInvoke, CommandLine(inl[1..], outl[1..]))]
    ensures counter != 0 ==> cmds' == cmds
    ensures !failed ==> Batching(conf, records, i + 1, batch', inBatch', counter', inl', outl', cmds')
  {
    counter', inl', outl', cmds', failed := counter, inl, outl, cmds, false;
    batch', inBatch' := batch, inBatch;
    if counter > 0 {
      StepGrows(conf, records, i, batch, inBatch, counter, inl, outl, cmds);
      inl' := inl + ("," + inEntry);
      outl' := outl + ("," + outEntry);
      counter' := counter - 1;
      inBatch' := inBatch + 1;
    } else if counter == 0 {
      if |inl| == 0 {
        StepFails(conf, records, i, batch, inBatch, counter, inl, outl, cmds);
        failed := true;
        return;
      }
      StepFlushes(conf, records, i, batch, inBatch, counter, inl, outl, cmds);
      var inList, outList := inl[1..], outl[1..];
      var ptMrStr := CommandLine(inList, outList);
      cmds' := cmds + [(conf.scapePlatformInvoke, ptMrStr)];
      counter' := conf.itemsPerInvocation;
      inl', outl' := "", "";
      batch', inBatch' := batch + 1, 0;
    } else {
      StepPasses(conf, records, i, batch, inBatch, counter, inl, outl, cmds);
    }
  }

  /** The loop of `prepareInput` over the records of one container, in
      order: the `keyfilmapping` lines, the unpacked files and the
      `ptmapredinput` lines it writes, and the RuntimeException it ends with. */
  method UnpackContainer(conf: Config, records: seq<ContainerRecord>)
    returns (logged: Option<LoopError>, keys: seq<(string, string)>, files: seq<(string, seq<byte>)>,
             cmds: seq<(string, string)>)
    ensures logged == LoopOutcome(conf, records)
    ensures keys == KeyFileLines(conf, records, Reached(conf, records))
    ensures files == UnpackedFiles(conf, records, Reached(conf, records))
    ensures cmds == AllCommands(conf, records)
  {
    var numItemCounter := conf.itemsPerInvocation;
    var inliststr, outliststr := "", "";
    ghost var batch: nat, inBatch: nat := 0, 0;  // the current batch and how far it has filled
    keys, files, cmds := [], [], [];
    var i := 0;
    logged := None;
    while i < |records|
      invariant ArcPrefix(records, i)
      invariant keys == KeyFileLines(conf, records, i)
      invariant files == UnpackedFiles(conf, records, i)
      invariant Batching(conf, records, i, batch, inBatch, numItemCounter, inliststr, outliststr, cmds)
      invariant logged == None
    {
      if !records[i].isArc {
        LoopEnds(conf, records, i, batch, inBatch, numItemCounter, inliststr, outliststr, cmds);
        logged := Some(ClassCast);
        return;
      }
      ArcPrefixGrows(records, i);
      var inEntry, outEntry;
      keys, files, inEntry, outEntry := UnpackRecord(conf, records, i, keys, files);
      var failed;
      numItemCounter, inliststr, outliststr, cmds, failed, batch, inBatch :=
        Enlist(conf, records, i, batch, inBatch, numItemCounter, inliststr, outliststr, cmds, inEntry, outEntry);
      if failed {
        LoopFails(conf, records);
        logged := Some(StringIndexOutOfBounds);
        return;
      }
      i := i + 1;
    }
    LoopEnds(conf, records, i, batch, inBatch, numItemCounter, inliststr, outliststr, cmds);
  }

  class ContainerItemPreparation {
    const settings: Settings
    /** The `keyfilmapping` named output: record key, unpacked file. */
    var keyFileMapping: seq<(string, string)>
    /** The `ptmapredinput` named output: invocation key, command line. */
    var ptMapRedInput: seq<(string, string)>
    /** The files created on HDFS, with their contents. */
    var unpacked: seq<(string, seq<byte>)>

    constructor (settings: Settings)
      ensures this.settings == settings
      ensures keyFileMapping == [] && ptMapRedInput == [] && unpacked == []
    {
      this.settings := settings;
      keyFileMapping, ptMapRedInput, unpacked := [], [], [];
    }

    /** Unpacks the records of one container and writes their lines to the
        two named outputs. `currTM` is the call's `currentTimeMillis` and
        `randomName` the call's sequence of random file names. */
    method PrepareInput(records: seq<ContainerRecord>, currTM: int, randomName: nat -> string)
      returns (logged: Option<LoopError>)
      modifies this
      ensures var conf := CallConfig(settings, currTM, randomName);
        && logged == LoopOutcome(conf, records)
        && keyFileMapping == old(keyFileMapping) + KeyFileLines(conf, records, Reached(conf, records))
        && unpacked == old(unpacked) + UnpackedFiles(conf, records, Reached(conf, records))
        && ptMapRedInput == old(ptMapRedInput) + AllCommands(conf, records)
    {
      var conf := CallConfig(settings, currTM, randomName);
      var keys, files, cmds;
      logged, keys, files, cmds := UnpackContainer(conf, records);
      keyFileMapping := keyFileMapping + keys;
      unpacked := unpacked + files;
      ptMapRedInput := ptMapRedInput + cmds;
    }
  }

  /** The first `i` records are all ARC records. */
  ghost predicate ArcPrefix(records: seq<ContainerRecord>, i: nat) {
    i <= |records| && forall j :: 0 <= j < i ==> records[j].isArc
  }

  lemma ArcPrefixGrows(records: seq<ContainerRecord>, i: nat)
    requires ArcPrefix(records, i) && i < |records| && records[i].isArc
    ensures ArcPrefix(records, i + 1)
  {
  }

  /** Where a scan that has seen only ARC records stands relative to the
      first non-ARC record. */
  lemma FirstNonArcAt(records: seq<ContainerRecord>, i: nat)
    requires ArcPrefix(records, i)
    ensures i <= FirstNonArc(records)
    ensures i == |records| || !records[i].isArc ==> FirstNonArc(records) == i
  {
  }

  lemma OneMoreRecord(conf: Config, records: seq<ContainerRecord>, i: nat)
    requires i < |records|
    ensures KeyFileLines(conf, records, i + 1) == KeyFileLines(conf, records, i) + [KeyFileLine(conf, records, i)]
    ensures UnpackedFiles(conf, records, i + 1) == UnpackedFiles(conf, records, i) + [UnpackedFile(conf, records, i)]
  {
  }

  /** The loop's batch variables after `i` records, for N > 0: `batch`
      commands are out, the current batch holds `inBatch` records, the
      counter is down by as many, and the lists hold their entries. */
  ghost predicate BatchState(conf: Config, records: seq<ContainerRecord>, i: nat, batch: nat, inBatch: nat,
                             counter: int, inl: string, outl: string)
  {
    var n := conf.itemsPerInvocation;
    && n > 0 && i <= |records|
    && i == BatchStart(n, batch) + inBatch && inBatch <= n
    && counter == n - inBatch
    && inl == Listed(InEntries(conf, records, BatchStart(n, batch), i))
    && outl == Listed(OutEntries(conf, records, BatchStart(n, batch), i))
  }

  /** A record that finds the counter positive joins the current batch: its
      entries are appended to both lists and the counter goes down by one. */
  lemma {:induction false} BatchGrows(conf: Config, records: seq<ContainerRecord>, i: nat, batch: nat, inBatch: nat,
                                      counter: int, inl: string, outl: string)
    requires i < |records| && counter > 0
    requires BatchState(conf, records, i, batch, inBatch, counter, inl, outl)
    ensures BatchState(conf, records, i + 1, batch, inBatch + 1, counter - 1,
                       inl + ("," + InEntry(conf, records, i)), outl + ("," + OutEntry(conf, records, i)))
  {
    var lo := BatchStart(conf.itemsPerInvocation, batch);
    assert InEntries(conf, records, lo, i + 1) == InEntries(conf, records, lo, i) + [InEntry(conf, records, i)];
    assert OutEntries(conf, records, lo, i + 1) == OutEntries(conf, records, lo, i) + [OutEntry(conf, records, i)];
  }

  /** The record that finds the counter at 0 flushes the full batch before
      it as the next command, without the leading commas, and starts an
      empty batch. */
  lemma {:induction false} BatchFlushes(conf: Config, records: seq<ContainerRecord>, i: nat, batch: nat, inBatch: nat,
                                        counter: int, inl: string, outl: string)
    requires i < |records| && counter == 0
    requires BatchState(conf, records, i, batch, inBatch, counter, inl, outl)
    ensures |inl| > 0 && |outl| > 0
    ensures BatchStart(conf.itemsPerInvocation, batch + 1) <= |records|
    ensures Command(conf, records, batch) == (conf.scapePlatformInvoke, CommandLine(inl[1..], outl[1..]))
    ensures Commands(conf, records, batch + 1) == Commands(conf, records, batch) + [Command(conf, records, batch)]
    ensures BatchState(conf, records, i + 1, batch + 1, 0, conf.itemsPerInvocation, "", "")
  {
  }

  /** The loop's batch variables and emitted commands after `i` records:
      for N > 0 as `BatchState` says, with the first `batch` commands out;
      otherwise the counter never moves, the lists stay empty, nothing is
      emitted, and with N = 0 no record has been finished yet. */
  ghost predicate Batching(conf: Config, records: seq<ContainerRecord>, i: nat, batch: nat, inBatch: nat,
                           counter: int, inl: string, outl: string,
                           cmds: seq<(string, string)>)
  {
    var n := conf.itemsPerInvocation;
    if n > 0 then
      && BatchState(conf, records, i, batch, inBatch, counter, inl, outl)
      && cmds == Commands(conf, records, batch)
    else
      counter == n && inl == "" && cmds == [] && (n == 0 ==> i == 0)
  }

  /** The counter is positive: the record joins the current batch. */
  lemma StepGrows(conf: Config, records: seq<ContainerRecord>, i: nat, batch: nat, inBatch: nat,
                  counter: int, inl: string, outl: string, cmds: seq<(string, string)>)
    requires i < |records| && counter > 0
    requires Batching(conf, records, i, batch, inBatch, counter, inl, outl, cmds)
    ensures Batching(conf, records, i + 1, batch, inBatch + 1, counter - 1,
                     inl + ("," + InEntry(conf, records, i)), outl + ("," + OutEntry(conf, records, i)), cmds)
  {
    BatchGrows(conf, records, i, batch, inBatch, counter, inl, outl);
  }

  /** The counter is 0 and the lists are not empty: N > 0, and the batch
      before the record goes out as the next command. */
  lemma StepFlushes(conf: Config, records: seq<ContainerRecord>, i: nat, batch: nat, inBatch: nat,
                    counter: int, inl: string, outl: string, cmds: seq<(string, string)>)
    requires i < |records| && counter == 0 && |inl| > 0
    requires Batching(conf, records, i, batch, inBatch, counter, inl, outl, cmds)
    ensures |outl| > 0
    ensures Batching(conf, records, i + 1, batch + 1, 0, conf.itemsPerInvocation, "", "",
                     cmds + [(conf.scapePlatformInvoke, CommandLine(inl[1..], outl[1..]))])
  {
  }

  /** The counter is 0 and the input list is empty: only with N = 0, at the
      first record. */
  lemma StepFails(conf: Config, records: seq<ContainerRecord>, i: nat, batch: nat, inBatch: nat,
                  counter: int, inl: string, outl: string, cmds: seq<(string, string)>)
    requires counter == 0 && |inl| == 0
    requires Batching(conf, records, i, batch, inBatch, counter, inl, outl, cmds)
    ensures conf.itemsPerInvocation == 0 && i == 0 && cmds == []
  {
  }

  /** The counter is negative: only with N < 0, and nothing changes. */
  lemma StepPasses(conf: Config, records: seq<ContainerRecord>, i: nat, batch: nat, inBatch: nat,
                   counter: int, inl: string, outl: string, cmds: seq<(string, string)>)
    requires counter < 0
    requires Batching(conf, records, i, batch, inBatch, counter, inl, outl, cmds)
    ensures conf.itemsPerInvocation < 0
    ensures Batching(conf, records, i + 1, batch, inBatch, counter, inl, outl, cmds)
  {
  }

  /** The loop stops at the first non-ARC record or at the end of the
      container: that is where the run has reached, and the commands out so
      far are all it emits. */
  lemma LoopEnds(conf: Config, records: seq<ContainerRecord>, i: nat, batch: nat, inBatch: nat,
                 counter: int, inl: string, outl: string, cmds: seq<(string, string)>)
    requires ArcPrefix(records, i) && (i == |records| || !records[i].isArc)
    requires Batching(conf, records, i, batch, inBatch, counter, inl, outl, cmds)
    ensures Reached(conf, records) == i
    ensures LoopOutcome(conf, records) == if i < |records| then Some(ClassCast) else None
    ensures AllCommands(conf, records) == cmds
  {
    FirstNonArcAt(records, i);
    ReachedIsWhereTheLoopStops(conf, records, i, batch, inBatch);
  }

  /** With N = 0 the first ARC record ends the loop: its lists are empty
      when the counter is found at 0. */
  lemma LoopFails(conf: Config, records: seq<ContainerRecord>)
    requires conf.itemsPerInvocation == 0 && |records| > 0 && records[0].isArc
    ensures Reached(conf, records) == 1
    ensures LoopOutcome(conf, records) == Some(StringIndexOutOfBounds)
    ensures AllCommands(conf, records) == []
  {
  }

  lemma ReachedIsWhereTheLoopStops(conf: Config, records: seq<ContainerRecord>, i: nat, batch: nat, inBatch: nat)
    requires i == Reached(conf, records)
    requires conf.itemsPerInvocation > 0 ==> i == BatchStart(conf.itemsPerInvocation, batch) + inBatch
                                             && inBatch <= conf.itemsPerInvocation
    ensures conf.itemsPerInvocation > 0 ==> CommandCount(conf, records) == batch
    ensures conf.itemsPerInvocation > 0 ==> AllCommands(conf, records) == Commands(conf, records, batch)
  {
    if conf.itemsPerInvocation > 0 {
      CompleteBatchesAt(conf.itemsPerInvocation, batch, inBatch);
    }
  }
}
