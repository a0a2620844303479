# hawarp web-archive record handling, modelled in Dafny

hawarp is a set of Hadoop tools for web archives. It migrates ARC files to
WARC, builds CDX indexes, unpacks the records of a container to HDFS for
per-item processing, and identifies file formats with DROID, Tika and the
Unix `file` tool. This project models the sequential decision logic of
those tools. The libraries they call are parameters of the model: JWAT,
DROID, Tika, Hadoop and the file system. The modules are:

- `WarcCreation` (`warc_creator.dfy`): the WARC writer. It emits one
  `warcinfo` record, then one record per migrated ARC record. The record
  after `warcinfo` is forced to `metadata` and linked to the `warcinfo`
  record. The writer is an append-only log of (header lines, payload)
  records. Record types and fields are those of ISO 28500 (WARC 1.0),
  sections 5 and 6.
- `ArchiveRecords` (`archive_record.dfy`): the flat `ArchiveRecord` and its
  two adapters, from an ARC record and from a WARC record.
  - Both constructors are `constructor`s of a class. They assign the fields
    in the source's order, later steps overwriting earlier ones.
  - Each is proved equal to a declarative field function, `FromArc` or
    `FromWarc`. The properties are stated on those functions.
- `ArcReading` (`arc_archive_reader.dfy`): the ARC reader. It is a cursor
  over the records the JWAT reader delivers.
- `ContainerPreparation` (`container_item_preparation.dfy`): the spacip
  unpacking loop.
  - Every record is copied to its own file and gets a `keyfilmapping` line.
  - Batches of N files become `ptmapredinput` command lines, counted with a
    down-counter.
  - Copying a record skips its header, then copies through an 8192-byte
    buffer.
- `UnixIdentification` (`unix_file_identification.dfy`): builds the
  `file --mime-type` command line and parses the tool's output into the
  result map.
- `DroidResults`, `ArchiventoryDroid`, `DroidIdentify`: choosing the first
  MIME type and PUID that DROID reports, in both DROID identifiers. The
  droid-identify one also caches its identifier per signature file.
- `Tifowa` (`tifowa_cli.dfy`): the type histogram and its call, good and
  failed counters, and the content-type normalisation filter.
- `CdxCreation` (`cdx_creation_task.dfy`): the name and path of a CDX file.
- `DirStrings` (`string_utils.dfy`): `normdir`.
- `Common` (`common.dfy`): shared definitions.
  - Java nulls are `Option`; exceptions are `Result` errors.
  - `Long.toString` and `Long.parseLong` are modelled together with their
    round trip.
  - It also has trimming, splitting in the manner of `Scanner` and
    `StringTokenizer`, and `replaceAll` on literal patterns.

Behaviour of the code worth noting:

- With digesting off, the ARC adapter leaves `payloadDigestStr` null. It
  also stays null when the payload cannot be read. It is not the "-"
  sentinel. The WARC adapter does start from "-".
- In the ARC adapter, a status found by the payload probe overrides the ARC
  result code. The probe runs after the result code has been assigned, but
  only when the record has no parsed HTTP header.
- The metadata record's Content-Type is `text/xml`, as `WarcCreator` forces
  it. The CLI test expects `text/plain`.
- `createTypeDistributionContentType` does not increment `countAllCalls`.
  Only `processFile` does, and it calls the detection variant.

## Model

| member | source | states |
|---|---|---|
| WarcCreation.WarcCreator.constructor | arc2warc-migration-hdp/src/main/java/eu/scape_project/arc2warc/warc/WarcCreator.java:57-61 | A new writer has written nothing, has no warcinfo ID, and is in "next content record is the metadata record" mode. |
| WarcCreation.WarcInfoRecordFields | arc2warc-migration-hdp/src/main/java/eu/scape_project/arc2warc/warc/WarcCreator.java:67-83 | The warcinfo record has type `warcinfo`, the generated ID, the writer's file name and Content-Type `application/warc-fields`. It has no WARC-Concurrent-To. Its payload is the description's bytes (133 of them), and its Content-Length is "133". |
| WarcCreation.WarcCreator.CreateWarcInfoRecord | arc2warc-migration-hdp/src/main/java/eu/scape_project/arc2warc/warc/WarcCreator.java:67-83 | Appends exactly the warcinfo record and stores its ID as `warcInfoId`. It keeps the invariant: at most one metadata record, none while the flag is set, and every written record carries WARC-Concurrent-To iff it is a metadata record. |
| WarcCreation.ContentRecord | arc2warc-migration-hdp/src/main/java/eu/scape_project/arc2warc/warc/WarcCreator.java:96-108 | The header names come in the fixed order. WARC-Concurrent-To sits after WARC-Record-ID exactly on the metadata record. |
| WarcCreation.ContentRecordType | arc2warc-migration-hdp/src/main/java/eu/scape_project/arc2warc/warc/WarcCreator.java:89-95 | A content record is `metadata` iff it is the first. It is `resource` iff it is a later one whose source MIME is `text/dns`. It is `response` iff it is a later one with any other MIME, or a null one. |
| WarcCreation.ContentRecordFields | arc2warc-migration-hdp/src/main/java/eu/scape_project/arc2warc/warc/WarcCreator.java:89-111 | Content-Type is `text/xml` on the metadata record. Otherwise it is the source MIME, or "no-type" for null. The link to warcinfo is on the metadata record only. The payload is the source contents, and Content-Length is their length. |
| WarcCreation.ContentLengthReadsBack | arc2warc-migration-hdp/src/main/java/eu/scape_project/arc2warc/warc/WarcCreator.java:108-111 | The Content-Length text parses back with `Long.parseLong` to the number of payload bytes streamed. |
| WarcCreation.WarcCreator.CreateContentRecord | arc2warc-migration-hdp/src/main/java/eu/scape_project/arc2warc/warc/WarcCreator.java:86-114 | Appends exactly the content record built with the flag as it was. Afterwards the flag is false, so at most one metadata record is ever written (the invariant is kept). |
| WarcCreation.WarcCreator.IsPayloadIdentification | arc2warc-migration-hdp/src/main/java/eu/scape_project/arc2warc/warc/WarcCreator.java:116-118 | Returns the flag. |
| WarcCreation.WarcCreator.SetPayloadIdentification | arc2warc-migration-hdp/src/main/java/eu/scape_project/arc2warc/warc/WarcCreator.java:120-122 | Sets the flag and leaves the log and the record state unchanged. |
| ArchiveRecords.ArchiveRecord.Empty | hawarp-core/src/main/java/eu/scape_project/hawarp/webarchive/ArchiveRecord.java:49-51 | The public constructor leaves every field unset. |
| ArchiveRecords.Digested | hawarp-core/src/main/java/eu/scape_project/hawarp/webarchive/ArchiveRecord.java:119-136 | With digesting off or an unreadable payload, the field keeps its value. Otherwise it is non-empty: the SHA-1 text, or "-" when that is null or empty. |
| ArchiveRecords.FromArc | hawarp-core/src/main/java/eu/scape_project/hawarp/webarchive/ArchiveRecord.java:53-137 | The ARC fields when the adapter completes. `url` is the canonicalised `origUrl`, and `origUrl` is the raw URL. The type is always "response". The IP is set iff the header IP is non-empty. The MIME type is always set: the normalised header Content-Type, or "no-type" when that is empty, except that without a parsed HTTP header a Content-Type found by the payload probe wins. The status is the result code, else the header status; without a parsed HTTP header a status found by the probe overrides the result code. The date is the archive date. The offset is in decimal, and the six sentinels are set. The digest is unset when digesting is off or the payload cannot be read, otherwise the SHA-1 text or "-"; it is never "". |
| ArchiveRecords.ArchiveRecord.FromArcRecord | hawarp-core/src/main/java/eu/scape_project/hawarp/webarchive/ArchiveRecord.java:53-137 | On a record whose payload it does not need or that has one, it assigns in the source's order, probe overrides included, and ends with exactly the fields of `FromArc`. |
| ArchiveRecords.NewFromArc | hawarp-core/src/main/java/eu/scape_project/hawarp/webarchive/ArchiveRecord.java:53-137 | `new ArchiveRecord(arcRecord, …)` throws a NullPointerException iff the record has no payload and either has no parsed HTTP header (the probe at 98-99) or digesting is on and the payload read returns (126); a failing read is the IOException caught at 133. Otherwise it is a fresh record with exactly the fields of `FromArc`. |
| ArchiveRecords.WarcContentLength | hawarp-core/src/main/java/eu/scape_project/hawarp/webarchive/ArchiveRecord.java:157-164 | A Content-Length made of an optional sign and ASCII decimal digits within the long range is exactly that value. Anything else is -1, the NumberFormatException's value. |
| ArchiveRecords.WarcContentLengthReadsBack | hawarp-core/src/main/java/eu/scape_project/hawarp/webarchive/ArchiveRecord.java:157-164 | A Content-Length written by `Long.toString(n)` is read back as exactly `n`. |
| ArchiveRecords.FromWarc | hawarp-core/src/main/java/eu/scape_project/hawarp/webarchive/ArchiveRecord.java:139-238 | These are the fields when the adapter completes. A null header list sets nothing. The type is never set. The MIME type is present iff Content-Type is, and is its normalised form. `origUrl` is the raw WARC-Target-URI value, present exactly when that line is, and `url` is its canonical form. The IP is the WARC-IP-Address value. The sentinels and the decimal offset are set. The digest starts from "-", so it is "-" unless it was freshly computed, and is never the header's WARC-Payload-Digest value. Content-Length is its value when it is an ASCII decimal long, and -1 otherwise. WARC-Date is its parsed date, or the epoch when parsing fails. The status is always the one the probe finds, or none. |
| ArchiveRecords.ArchiveRecord.FromWarcRecord | hawarp-core/src/main/java/eu/scape_project/hawarp/webarchive/ArchiveRecord.java:139-238 | On a record without header lines or with a payload, it assigns in the source's order, including the digest read at 167 and overwritten at 185. It ends with exactly the fields of `FromWarc`. |
| ArchiveRecords.NewFromWarc | hawarp-core/src/main/java/eu/scape_project/hawarp/webarchive/ArchiveRecord.java:139-238 | `new ArchiveRecord(warcRecord, …)` throws a NullPointerException iff the record has header lines but no payload. The probe at 192-193 dereferences `getPayload()`, and its handler catches only IOException. Otherwise it is a fresh record with exactly the fields of `FromWarc`. |
| ArchiveRecords.ReadWarcHeaders | hawarp-core/src/main/java/eu/scape_project/hawarp/webarchive/ArchiveRecord.java:149-183 | Each header-derived field is set exactly when its header line is present, from that line's value. |
| ArchiveRecords.ParseContentLength | hawarp-core/src/main/java/eu/scape_project/hawarp/webarchive/ArchiveRecord.java:159-163 | Returns the parsed length of an ASCII decimal long, or -1 on a NumberFormatException. |
| ArchiveRecords.ParseDate | hawarp-core/src/main/java/eu/scape_project/hawarp/webarchive/ArchiveRecord.java:178-182 | Returns the parsed date, or the epoch on a ParseException. |
| ArchiveRecords.ProbeStatus | hawarp-core/src/main/java/eu/scape_project/hawarp/webarchive/ArchiveRecord.java:191-206 | Returns the status of the probed header, and nothing when the probe throws or finds none. |
| ArchiveRecords.DigestPayload | hawarp-core/src/main/java/eu/scape_project/hawarp/webarchive/ArchiveRecord.java:209-226 | Runs the digesting step as `Digested` specifies. |
| ArcReading.ArcArchiveReader.constructor | hawarp-core/src/main/java/eu/scape_project/hawarp/webarchive/ArcArchiveReader.java:39-46 | The iterator is always assigned, at the first record, and digesting is off. |
| ArcReading.ArcArchiveReader.HasNext | hawarp-core/src/main/java/eu/scape_project/hawarp/webarchive/ArcArchiveReader.java:49-54 | IllegalState iff the iterator is null. Otherwise it returns whether a record is left, and consumes nothing. |
| ArcReading.ArcArchiveReader.Next | hawarp-core/src/main/java/eu/scape_project/hawarp/webarchive/ArcArchiveReader.java:57-64 | IllegalState on a null iterator, and NoSuchElement past the end. Otherwise it advances by exactly one record. It throws NullPointer iff the adapter needs that record's missing payload. Otherwise it returns a fresh record whose fields are `FromArc` of that record, under the current digest flag. |
| ArcReading.ArcArchiveReader.Remove | hawarp-core/src/main/java/eu/scape_project/hawarp/webarchive/ArcArchiveReader.java:67-72 | Always fails: IllegalState on a null iterator, otherwise the JWAT iterator's UnsupportedOperation. |
| ArcReading.ArcArchiveReader.SetComputePayloadDigest | hawarp-core/src/main/java/eu/scape_project/hawarp/webarchive/ArcArchiveReader.java:75-77 | Sets the flag and leaves the cursor unchanged. |
| ArcReading.ReadAll | hawarp-core/src/main/java/eu/scape_project/hawarp/webarchive/ArcArchiveReader.java:48-64 | Reading a new reader until `hasNext` is false returns `FromArc` of the source records, in order. It stops with NullPointer exactly at the first record whose missing payload the adapter needs, and otherwise reads every record. |
| ContainerPreparation.MimeSuffix | src/main/java/eu/scape_project/spacip/unpacker/ContainerItemPreparation.java:134 | The suffix is the MIME type with every '/' replaced by '-', character for character. |
| ContainerPreparation.RecordKeySplits | src/main/java/eu/scape_project/spacip/unpacker/ContainerItemPreparation.java:135-138 | The record key splits at its first '/' back into the reader and record identifiers, when the reader identifier has no '/'. |
| ContainerPreparation.Skipped | src/main/java/eu/scape_project/spacip/unpacker/ContainerItemPreparation.java:91-95 | `skip(contentBegin)` moves at most to the end of the record, and not at all for a negative count. |
| ContainerPreparation.Content | src/main/java/eu/scape_project/spacip/unpacker/ContainerItemPreparation.java:91-98 | The copied bytes are a suffix of the record. They are the whole record for a non-positive `contentBegin`, and otherwise all but the first `contentBegin` bytes. |
| ContainerPreparation.ReadInto | src/main/java/eu/scape_project/spacip/unpacker/ContainerItemPreparation.java:96 | Returns -1 iff the stream is exhausted. Otherwise it returns 1 to 8192 bytes, which are the next bytes of the stream. |
| ContainerPreparation.ArcToOutputStream | src/main/java/eu/scape_project/spacip/unpacker/ContainerItemPreparation.java:88-102 | The skip-then-copy buffer loop writes exactly `Content(rec)`. |
| ContainerPreparation.Listed | src/main/java/eu/scape_project/spacip/unpacker/ContainerItemPreparation.java:154-155 | An accumulated list is empty iff it has no entries, and otherwise starts with a comma. |
| ContainerPreparation.BatchStartIsProduct | src/main/java/eu/scape_project/spacip/unpacker/ContainerItemPreparation.java:153-169 | Batch k starts at record k(N+1). |
| ContainerPreparation.CompleteBatchesIsQuotient | src/main/java/eu/scape_project/spacip/unpacker/ContainerItemPreparation.java:153-169 | The number of commands for r records is r / (N+1). |
| ContainerPreparation.BatchMembership | src/main/java/eu/scape_project/spacip/unpacker/ContainerItemPreparation.java:153-169 | Every (N+1)-th record is in no batch. Every other record is in the batch of its block and in no other batch. |
| ContainerPreparation.CommandsCoverage | src/main/java/eu/scape_project/spacip/unpacker/ContainerItemPreparation.java:131-170 | For N > 0, a reached record is in an emitted command iff it is not an (N+1)-th record and is not in the trailing partial batch. |
| ContainerPreparation.TrailingBatchDropped | src/main/java/eu/scape_project/spacip/unpacker/ContainerItemPreparation.java:131-170 | At most N records are left after the last command, and no command holds them. |
| ContainerPreparation.NoBatchesWhenZero | src/main/java/eu/scape_project/spacip/unpacker/ContainerItemPreparation.java:153-159 | With N = 0 no command is emitted and at most one record is unpacked. The loop ends on `substring(1)` iff the first record is an ARC record. |
| ContainerPreparation.CommandSize | src/main/java/eu/scape_project/spacip/unpacker/ContainerItemPreparation.java:153-165 | Every emitted command holds exactly N entries. |
| ContainerPreparation.BatchGrows | src/main/java/eu/scape_project/spacip/unpacker/ContainerItemPreparation.java:153-156 | With the counter positive, the record's entries are appended with a leading comma and the counter drops by one. |
| ContainerPreparation.BatchFlushes | src/main/java/eu/scape_project/spacip/unpacker/ContainerItemPreparation.java:157-169 | With the counter at 0, the record is not added. The previous N entries, without their leading commas, go out as the next command, and the batch restarts empty at N. |
| ContainerPreparation.StepFails | src/main/java/eu/scape_project/spacip/unpacker/ContainerItemPreparation.java:157-158 | An empty list at counter 0 happens only for N = 0, at the first record, before any command. |
| ContainerPreparation.StepPasses | src/main/java/eu/scape_project/spacip/unpacker/ContainerItemPreparation.java:153-169 | A negative counter happens only for N < 0, and the batch state never changes. |
| ContainerPreparation.LoopEnds | src/main/java/eu/scape_project/spacip/unpacker/ContainerItemPreparation.java:131-173 | The loop stops at the first non-ARC record (ClassCastException) or at the end. Either way, the commands emitted so far are all the run emits. |
| ContainerPreparation.LoopFails | src/main/java/eu/scape_project/spacip/unpacker/ContainerItemPreparation.java:157-173 | With N = 0 the first ARC record ends the loop with StringIndexOutOfBounds, after one record and no command. |
| ContainerPreparation.UnpackRecord | src/main/java/eu/scape_project/spacip/unpacker/ContainerItemPreparation.java:133-148 | One record adds exactly one unpacked file and one `keyfilmapping` line, whatever the batch state. |
| ContainerPreparation.Enlist | src/main/java/eu/scape_project/spacip/unpacker/ContainerItemPreparation.java:153-169 | The counter's three cases: append, flush one command, or do nothing. It fails iff the counter is 0 with an empty list. |
| ContainerPreparation.UnpackContainer | src/main/java/eu/scape_project/spacip/unpacker/ContainerItemPreparation.java:114-174 | The loop writes the key lines and files of exactly the reached records, in order. It emits exactly the specified commands and ends with the specified exception. |
| ContainerPreparation.ContainerItemPreparation.constructor | src/main/java/eu/scape_project/spacip/unpacker/ContainerItemPreparation.java:68-72 | Keeps the Hadoop configuration's settings; both named outputs start empty. |
| ContainerPreparation.CallDirsDistinct | src/main/java/eu/scape_project/spacip/unpacker/ContainerItemPreparation.java:120-124 | Two calls made at different `currentTimeMillis` values unpack into different directories and write their tool output under different directories. |
| ContainerPreparation.ContainerItemPreparation.PrepareInput | src/main/java/eu/scape_project/spacip/unpacker/ContainerItemPreparation.java:114-174 | Each call stamps its unpack and output directories with that call's `currentTimeMillis` (120-124) and draws its own random file names. It appends that call's key lines, files and commands to the named outputs and logs its exception. |
| UnixIdentification.BaseCommand | unpack2temp-identify/src/main/java/eu/scape_project/up2ti/identifiers/UnixFileIdentification.java:60-62 | An empty command becomes "file --mime-type". A non-empty command is kept. |
| UnixIdentification.PathListAppend | unpack2temp-identify/src/main/java/eu/scape_project/up2ti/identifiers/UnixFileIdentification.java:66-69 | The path list of two collections is the concatenation of theirs. |
| UnixIdentification.PathListLength | unpack2temp-identify/src/main/java/eu/scape_project/up2ti/identifiers/UnixFileIdentification.java:66-69 | Each file adds its absolute path and one space. |
| UnixIdentification.Values | unpack2temp-identify/src/main/java/eu/scape_project/up2ti/identifiers/UnixFileIdentification.java:113 | The map's values, one per entry, in order. |
| UnixIdentification.GetKey | unpack2temp-identify/src/main/java/eu/scape_project/up2ti/identifiers/UnixFileIdentification.java:122-123 | A found key is paired with the value in the map. No key means no entry has that value. |
| UnixIdentification.GetKeyOfEntry | unpack2temp-identify/src/main/java/eu/scape_project/up2ti/identifiers/UnixFileIdentification.java:122 | In a bidirectional map, the reverse lookup of an entry's value is its key. |
| UnixIdentification.SplitKey | unpack2temp-identify/src/main/java/eu/scape_project/up2ti/identifiers/UnixFileIdentification.java:124-125 | A key splits iff it has a '/'. It splits at the first one, and the parts join back to the key. |
| UnixIdentification.SplitKeyOfJoin | unpack2temp-identify/src/main/java/eu/scape_project/up2ti/identifiers/UnixFileIdentification.java:124-125 | Joining a container name without '/' and an identifier with '/' splits back into the two. |
| UnixIdentification.ParseLinesAppend | unpack2temp-identify/src/main/java/eu/scape_project/up2ti/identifiers/UnixFileIdentification.java:117-136 | Parsing one more line continues from the map the earlier lines built, and stops at the first failure. |
| UnixIdentification.UnknownFileAddsNothing | unpack2temp-identify/src/main/java/eu/scape_project/up2ti/identifiers/UnixFileIdentification.java:122-135 | A line whose file name is no value of the map leaves the result unchanged. |
| UnixIdentification.LastLineWins | unpack2temp-identify/src/main/java/eu/scape_project/up2ti/identifiers/UnixFileIdentification.java:124-133 | After a line for a known file, its output key maps to exactly that line's one formatted value, replacing earlier ones. |
| UnixIdentification.OneValuePerKey | unpack2temp-identify/src/main/java/eu/scape_project/up2ti/identifiers/UnixFileIdentification.java:131-133 | Every result list holds exactly one string. |
| UnixIdentification.ReadLine | unpack2temp-identify/src/main/java/eu/scape_project/up2ti/identifiers/UnixFileIdentification.java:119-135 | One loop iteration computes `ParseLine`, including its NoSuchElement and StringIndexOutOfBounds failures. |
| UnixIdentification.ParseToolOutput | unpack2temp-identify/src/main/java/eu/scape_project/up2ti/identifiers/UnixFileIdentification.java:112-137 | The Scanner loop computes `ParseOutput` of the tool's output. |
| UnixIdentification.UnixFileIdentification.constructor | unpack2temp-identify/src/main/java/eu/scape_project/up2ti/identifiers/UnixFileIdentification.java:39-41 | The command starts null. |
| UnixIdentification.UnixFileIdentification.SetCommand | unpack2temp-identify/src/main/java/eu/scape_project/up2ti/identifiers/UnixFileIdentification.java:47-49 | Sets the command. |
| UnixIdentification.UnixFileIdentification.IdentifyAll | unpack2temp-identify/src/main/java/eu/scape_project/up2ti/identifiers/UnixFileIdentification.java:59-71 | NullPointer on a null command. Otherwise the field becomes the base command, a space, and each absolute path with a trailing space. The result is the tool's output for that command. A non-empty earlier command stays a prefix, so calls accumulate. |
| UnixIdentification.UnixFileIdentification.IdentifyFile | unpack2temp-identify/src/main/java/eu/scape_project/up2ti/identifiers/UnixFileIdentification.java:82-91 | NullPointer on a null command. Otherwise the command gains a space and the path, with no trailing space. The result map's only key is "mime". |
| UnixIdentification.UnixFileIdentification.IdentifyFileList | unpack2temp-identify/src/main/java/eu/scape_project/up2ti/identifiers/UnixFileIdentification.java:110-138 | Runs the command on all of the map's values and returns `ParseOutput` of the output. |
| DroidResults.FirstPresent | droid-identify/src/main/java/eu/scape_project/droid_identify/droid/DroidIdentification.java:169-176 | The pick is never empty. There is none iff every entry is null or empty. |
| DroidResults.FirstPresentAt | droid-identify/src/main/java/eu/scape_project/droid_identify/droid/DroidIdentification.java:169-175 | The first non-null, non-empty entry in result order is the pick. |
| DroidResults.FirstPresentIgnoresLater | src/main/java/eu/scape_project/archiventory/identifiers/DroidIdentification.java:110-119 | Once a pick exists, later results do not change it. |
| DroidResults.FirstPresentSnoc | src/main/java/eu/scape_project/archiventory/identifiers/DroidIdentification.java:106-121 | One more result is picked only when there is no pick yet and it is present. |
| ArchiventoryDroid.ChoiceSnoc | src/main/java/eu/scape_project/archiventory/identifiers/DroidIdentification.java:106-121 | The MIME and PUID choices advance independently, one result at a time. |
| ArchiventoryDroid.Identify | src/main/java/eu/scape_project/archiventory/identifiers/DroidIdentification.java:83-142 | NullPointer iff the file cannot be opened. Otherwise the map has exactly the keys "mime" and "puid". They hold the first present MIME type and PUID, or "application/octet-stream" and "fmt/0". Both values are non-empty, and a read failure gives the defaults. |
| DroidIdentify.DroidIdentification.constructor | droid-identify/src/main/java/eu/scape_project/droid_identify/droid/DroidIdentification.java:121-124 | The identifier keeps its signature file path. |
| DroidIdentify.DroidIdentification.Identify | droid-identify/src/main/java/eu/scape_project/droid_identify/droid/DroidIdentification.java:145-199 | Returns the first non-null, non-empty PUID and stops there. Returns "fmt/0" when there is none or on a failure. The result is never empty. |
| DroidIdentify.InstanceCache.constructor | droid-identify/src/main/java/eu/scape_project/droid_identify/droid/DroidIdentification.java:63 | No identifier is cached at first. |
| DroidIdentify.InstanceCache.GetInstance | droid-identify/src/main/java/eu/scape_project/droid_identify/droid/DroidIdentification.java:72-77 | Creates an identifier once. Afterwards it returns the cached one, whatever its signature file. |
| DroidIdentify.InstanceCache.GetInstanceFor | droid-identify/src/main/java/eu/scape_project/droid_identify/droid/DroidIdentification.java:87-96 | Returns an identifier for the requested signature file. It replaces the cached one iff that one's path differs, and otherwise returns it. |
| DroidIdentify.SameFileSameInstance | droid-identify/src/main/java/eu/scape_project/droid_identify/droid/DroidIdentification.java:87-96 | Two requests for the same signature file return the same identifier. |
| Tifowa.TotalIncrement | tika-identify/src/main/java/eu/scape_project/tika_identify/cli/TifowaCli.java:162-169 | Counting one more file of a type raises the sum of all counts by exactly one. |
| Tifowa.HistogramCount | tika-identify/src/main/java/eu/scape_project/tika_identify/cli/TifowaCli.java:128-172 | A type's count is the number of processed files detected with that type. |
| Tifowa.HistogramTotal | tika-identify/src/main/java/eu/scape_project/tika_identify/cli/TifowaCli.java:128-172 | The counts add up to the number of successful detections. |
| Tifowa.Lower | tika-identify/src/main/java/eu/scape_project/tika_identify/cli/TifowaCli.java:187 | Lower-cases character by character, keeping the length. |
| Tifowa.StripTags | tika-identify/src/main/java/eu/scape_project/tika_identify/cli/TifowaCli.java:188 | Keeps only characters of `[A-Za-z-/;=0-9]` that were in the input. |
| Tifowa.StripTagsKeepsTagChars | tika-identify/src/main/java/eu/scape_project/tika_identify/cli/TifowaCli.java:188 | A string of such characters that does not end in ';' passes unchanged. |
| Tifowa.OnlyLastSemicolonStripped | tika-identify/src/main/java/eu/scape_project/tika_identify/cli/TifowaCli.java:188 | `;$` removes only a ';' that ends the input. For any prefix s, s + ";" keeps just the tag characters of s, and s + ";;" keeps those followed by one ';'. |
| Tifowa.ReplaceAllAbsent | tika-identify/src/main/java/eu/scape_project/tika_identify/cli/TifowaCli.java:189 | Replacing a pattern that does not occur changes nothing. |
| Tifowa.NormaliseContentType | tika-identify/src/main/java/eu/scape_project/tika_identify/cli/TifowaCli.java:187-189 | The result holds only a-z, 0-9, '-', '/', ';' and '='. |
| Tifowa.NormalisedIsFixed | tika-identify/src/main/java/eu/scape_project/tika_identify/cli/TifowaCli.java:187-189 | An already normal content type without "text-html" is its own normalisation. |
| Tifowa.TifowaCli.constructor | tika-identify/src/main/java/eu/scape_project/tika_identify/cli/TifowaCli.java:58-61 | An empty histogram and zero counters, balanced. |
| Tifowa.TifowaCli.CountType | tika-identify/src/main/java/eu/scape_project/tika_identify/cli/TifowaCli.java:162-172 | The type's count rises by one (an unseen type ends at 1) and good items rise by one. Nothing else changes, and the histogram still sums to the good items. |
| Tifowa.TifowaCli.ProcessFile | tika-identify/src/main/java/eu/scape_project/tika_identify/cli/TifowaCli.java:140-179 | One call more. On detection: one count and one good item more. On an exception: one failed item more, with the histogram unchanged. Calls stay equal to good plus failed. |
| Tifowa.TifowaCli.CountContentType | tika-identify/src/main/java/eu/scape_project/tika_identify/cli/TifowaCli.java:181-216 | Counts the normalised Content-Type as a good item. A parse failure or a null value counts as a failed item. Calls are untouched. |
| Tifowa.ProcessFiles | tika-identify/src/main/java/eu/scape_project/tika_identify/cli/TifowaCli.java:128-138 | Over a walk's files: the histogram of their detections, one call per file, and as many good items as detections. |
| CdxCreation.AfterLastSeparator | cdx-creator/src/main/java/eu/scape_project/cdx_creator/CDXCreationTask.java:79-83 | The name is a suffix of the path without separators, and is the whole path when it has none. |
| CdxCreation.NewTarget | cdx-creator/src/main/java/eu/scape_project/cdx_creator/CDXCreationTask.java:63-86 | Covers the three branches. In every branch the name is a suffix of the path. With directory input, or with no output given, the name is the archive name with ".cdx.csv". With an output given, the path is the output verbatim. |
| CdxCreation.OutputNameIsLastComponent | cdx-creator/src/main/java/eu/scape_project/cdx_creator/CDXCreationTask.java:77-83 | With an output given, the path is a directory part that is empty or ends in a separator, followed by the name. |
| DirStrings.NormPart | src/main/java/eu/scape_project/arc2warc/utils/StringUtils.java:52-53 | Every part ends in the separator. |
| DirStrings.Normdir | src/main/java/eu/scape_project/arc2warc/utils/StringUtils.java:49-56 | The loop computes the parts' contributions, concatenated in argument order. |
| DirStrings.NormDirAppend | src/main/java/eu/scape_project/arc2warc/utils/StringUtils.java:51-54 | `normdir(a ++ b)` is `normdir(a) + normdir(b)`. |
| DirStrings.NormDirEnd | src/main/java/eu/scape_project/arc2warc/utils/StringUtils.java:50-55 | No argument gives "". With at least one argument, the result ends in the separator. |
| DirStrings.EmptyPartIsSeparator | src/main/java/eu/scape_project/arc2warc/utils/StringUtils.java:52-53 | An empty part, or one that is just the separator, contributes exactly one separator. |
| DirStrings.DoubledLeadingSeparatorKept | src/main/java/eu/scape_project/arc2warc/utils/StringUtils.java:52 | Only one leading separator is stripped. |
| DirStrings.PlainPart | src/main/java/eu/scape_project/arc2warc/utils/StringUtils.java:52-53 | A part with no separator at either end gets exactly one trailing separator. |

## Left out

- JWAT, Heritrix, DROID, Tika and Hadoop internals:
  - ARC/WARC framing, `HttpHeader.processPayload`, push-back streams and writer compression;
  - signature matching, media-type detection and HDFS.
  - Their results are inputs. For example, a probe outcome, a payload read or a DROID result list.
- The push-back count in the payload probes is computed before the probe reads. Byte-level stream positions are not modelled, so this is not checked.
- `UrlUtils.canonicalize`, `StringUtils.normaliseMimetype`, `DigestUtils.SHAsum`, the `SimpleDateFormat` formatting and parsing, `File.getAbsolutePath` and `new Path(s).toString()` are uninterpreted functions. `ensureTrailSep` is not part of this model either.
- The record IDs, the clock, `RandomStringUtils` names and the `currentTimeMillis` directory stamps are parameters. Record-ID uniqueness is not modelled.
- The output formats of the `Identification` base class, `outputKeyFormat`, `outputValueFormat` and `tool`, are not part of this model. They are parameters.
- I/O failures outside the modelled branches are not modelled. This covers:
  - failure to start the `file` process;
  - the signature download in `getInstance()`;
  - exceptions from the DROID constructors;
  - IOExceptions from `prepareInput`'s HDFS calls;
  - `close` and `flush` of the WARC writer.
- The Heritrix iterator's own RuntimeExceptions are not modelled. A record the reader cannot parse is not modelled; only the cast failure and `substring(1)` end the loop.
- ContainerPreparation.UnpackContainer: it returns its `keyfilmapping` lines, files and commands at the end. The source writes them to the named outputs during the loop; the contents and order are the same.
- ArcReading.ArcArchiveReader.Remove: the JWAT record iterator is taken not to support removal. Its code is not part of this model.
- ArcReading.ArcArchiveReader.Next: `next()` past the end is the JWAT iterator's NoSuchElementException. The source does not check this itself.
- Tifowa: the counters are unbounded. Java `int` overflow of the counters and the histogram values is not modelled.
- Tifowa: `toLowerCase` is modelled on ASCII letters only. Locale and Unicode case mapping are not modelled.
- Tifowa: the `processFiles` directory walk is a sequence of detections in walk order. `checkDirectory`, `main` and the percentage display are not modelled (file system and floating point).
- `CDXCreationTask.createIndex` is not modelled: it is CSV writing over a reader, which is I/O.
- DirStrings: a null argument to `normdir`, which throws, is not modelled.
- UnixIdentification: `DualHashBidiMap.values()` is modelled as a sequence in the map's iteration order. Java's `HashMap` order is not modelled.
- The `synchronized` modifiers are not modelled; the model is sequential.
- WarcCreation.WarcCreator.CreateContentRecord: an IOException from `writeHeader`, `streamPayload` or `closeRecord` is not modelled. In the source it leaves `isArcMetadataRecord` set, so a retry after it would write a second metadata record.
- WarcCreation.WarcCreator.CreateContentRecord: a null `getDate()` or `getContents()` throws a NullPointerException in the source. The model's source record always has both.
- ArchiveRecords.WarcContentLength: `Long.parseLong` also accepts non-ASCII Unicode decimal digits (`Character.digit`), such as "١٢٣" or fullwidth "１２". The model parses ASCII digits only and gives -1 for those values.
- ArchiveRecords.ParseContentLength: non-ASCII Unicode decimal digits are not modelled and give -1, as for `WarcContentLength`.
- ArchiveRecords.FromWarc: a Content-Length of non-ASCII Unicode decimal digits gives -1 in the model, where the source stores its value.
- ArchiveRecords.ArchiveRecord.FromWarcRecord: the same non-ASCII Content-Length restriction as `FromWarc`.
- ArchiveRecords.ArchiveRecord.FromArcRecord: it is called only on records that do not throw. The NullPointerException on a missing payload is the error case of `NewFromArc`, which models `new ArchiveRecord(arcRecord, …)`.
- ArchiveRecords.ArchiveRecord.FromWarcRecord: it is called only on records that do not throw. The NullPointerException on a missing payload is the error case of `NewFromWarc`, which models `new ArchiveRecord(warcRecord, …)`.
- ArchiveRecords: the ARC record's `Long` start offset and the `(int)` casts of push-back counts are not checked for overflow.
