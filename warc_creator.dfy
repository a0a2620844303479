/** The arc2warc `WarcCreator`: writes one synthetic `warcinfo` record, then
    one WARC record per migrated ARC record. The JWAT `WarcWriter` is modelled
    as the append-only log of the records it is handed. Record types and header
    fields are those of ISO 28500 (WARC 1.0): section 6 for `warcinfo`,
    `response`, `resource` and `metadata`, section 5 for the named fields
    (5.6 for WARC-Concurrent-To). */
module WarcCreation {
  import opened Common

  /** The payload of every `warcinfo` record. */
  const Description: string :=
    "software: JWAT Version 1.0.0 https://sbforge.org/display/JWAT/JWAT-Tools\n"
    + "description: migrated from ARC "
    + "format: WARC file version 1.0"

  /** `String.getBytes()` for text that is all ASCII, which every default
      charset encodes as one byte per character. */
  function EncodeAscii(s: string): (b: seq<byte>)
    ensures |b| == |s|
  {
    seq(|s|, i requires 0 <= i < |s| => (s[i] as int % 256) as byte)
  }

  /** One WARC header line; a Java null value is None. */
  datatype HeaderLine = HeaderLine(name: string, value: Option<string>)

  /** A record as handed to the writer: its header lines in order, then the
      streamed payload. */
  datatype WarcRecord = WarcRecord(header: seq<HeaderLine>, payload: seq<byte>)

  /** What `createContentRecord` reads from a `HadoopWebArchiveRecord`. */
  datatype SourceRecord = SourceRecord(
    url: Option<string>,
    date: Date,
    ipAddress: Option<string>,
    mimeType: Option<string>,
    contents: seq<byte>,
    payloadDigest: Option<string>,
    identifiedPayloadType: Option<string>)

  /** The value of the first header line called `name`, if there is one. */
  function Lookup(h: seq<HeaderLine>, name: string): Option<Option<string>> {
    if h == [] then None
    else if h[0].name == name then Some(h[0].value)
    else Lookup(h[1..], name)
  }

  predicate FieldIs(h: seq<HeaderLine>, name: string, v: string) {
    Lookup(h, name) == Some(Some(v))
  }

  function Names(h: seq<HeaderLine>): seq<string> {
    seq(|h|, i requires 0 <= i < |h| => h[i].name)
  }

  /** The line at `i` is the one found when no earlier line has its name. */
  lemma {:induction false} LookupAt(h: seq<HeaderLine>, i: nat)
    requires i < |h|
    requires forall j :: 0 <= j < i ==> h[j].name != h[i].name
    ensures Lookup(h, h[i].name) == Some(h[i].value)
  {
    if i > 0 {
      LookupAt(h[1..], i - 1);
    }
  }

  /** No line has the name: nothing is found. */
  lemma {:induction false} LookupAbsent(h: seq<HeaderLine>, name: string)
    requires forall j :: 0 <= j < |h| ==> h[j].name != name
    ensures Lookup(h, name) == None
  {
    if h != [] {
      LookupAbsent(h[1..], name);
    }
  }

  /** The `warcinfo` record written by `createWarcInfoRecord`. */
  function WarcInfoRecord(fileName: Option<string>, date: string, recordId: string): WarcRecord {
    var payload := EncodeAscii(Description);
    WarcRecord(
      [ HeaderLine("WARC-Type", Some("warcinfo")),
        HeaderLine("WARC-Date", Some(date)),
        HeaderLine("WARC-Record-ID", Some(recordId)),
        HeaderLine("WARC-Filename", fileName),
        HeaderLine("Content-Type", Some("application/warc-fields")),
        HeaderLine("Content-Length", Some(NatToString(|payload|))) ],
      payload)
  }

  /** The `warcinfo` record carries its type, ID, file name and content type,
      no WARC-Concurrent-To, and the 133-byte description with a matching
      Content-Length. */
  lemma WarcInfoRecordFields(fileName: Option<string>, date: string, recordId: string)
    ensures var r := WarcInfoRecord(fileName, date, recordId);
      && FieldIs(r.header, "WARC-Type", "warcinfo")
      && FieldIs(r.header, "WARC-Record-ID", recordId)
      && Lookup(r.header, "WARC-Filename") == Some(fileName)
      && FieldIs(r.header, "Content-Type", "application/warc-fields")
      && Lookup(r.header, "WARC-Concurrent-To") == None
      && r.payload == EncodeAscii(Description) && |r.payload| == 133
      && FieldIs(r.header, "Content-Length", "133")
  {
    var header := WarcInfoRecord(fileName, date, recordId).header;
    LookupAt(header, 0);
    LookupAt(header, 2);
    LookupAt(header, 3);
    LookupAt(header, 4);
    LookupAt(header, 5);
    LookupAbsent(header, "WARC-Concurrent-To");
    assert NatToString(133) == "133" by {
      assert NatToString(1) == "1";
      assert NatToString(13) == NatToString(1) + "3";
    }
  }

  /** The Content-Type a content record is written with: the forced `text/xml`
      for the record after `warcinfo`, otherwise the source MIME type or
      "no-type" when that is null. */
  function ContentMime(isArcMetadataRecord: bool, src: SourceRecord): string {
    if isArcMetadataRecord then "text/xml" else src.mimeType.GetOr(MimeUnknown)
  }

  /** The WARC-Type of a content record: `metadata` for the record after
      `warcinfo`, then `resource` exactly for `text/dns`, else `response`. */
  function ContentWarcType(isArcMetadataRecord: bool, mime: string): string {
    var positional := if isArcMetadataRecord then "metadata" else "response";
    if mime == "text/dns" then "resource" else positional
  }

  /** The record written by `createContentRecord`; its header lines come in
      a fixed order, with WARC-Concurrent-To exactly on the metadata record. */
  function ContentRecord(src: SourceRecord, recordId: string, isArcMetadataRecord: bool,
                         warcInfoId: Option<string>, date: string): (r: WarcRecord)
    ensures Names(r.header)
            == ["WARC-Type", "WARC-Target-URI", "WARC-Date", "WARC-Record-ID"]
               + (if isArcMetadataRecord then ["WARC-Concurrent-To"] else [])
               + ["WARC-IP-Address", "Content-Type", "WARC-Payload-Digest",
                  "WARC-Identified-Payload-Type", "Content-Length"]
  {
    var mime := ContentMime(isArcMetadataRecord, src);
    var lead := [ HeaderLine("WARC-Type", Some(ContentWarcType(isArcMetadataRecord, mime))),
                  HeaderLine("WARC-Target-URI", src.url),
                  HeaderLine("WARC-Date", Some(date)),
                  HeaderLine("WARC-Record-ID", Some(recordId)) ];
    var link := if isArcMetadataRecord then [HeaderLine("WARC-Concurrent-To", warcInfoId)] else [];
    var tail := [ HeaderLine("WARC-IP-Address", src.ipAddress),
                  HeaderLine("Content-Type", Some(mime)),
                  HeaderLine("WARC-Payload-Digest", src.payloadDigest),
                  HeaderLine("WARC-Identified-Payload-Type", src.identifiedPayloadType),
                  HeaderLine("Content-Length", Some(NatToString(|src.contents|))) ];
    WarcRecord(lead + link + tail, src.contents)
  }

  /** A content record is `metadata` exactly when it is the record after
      `warcinfo`; otherwise it is `resource` exactly for `text/dns` and
      `response` for everything else. */
  lemma ContentRecordType(src: SourceRecord, recordId: string, isArcMetadataRecord: bool,
                          warcInfoId: Option<string>, date: string)
    ensures var r := ContentRecord(src, recordId, isArcMetadataRecord, warcInfoId, date);
      && (FieldIs(r.header, "WARC-Type", "metadata") <==> isArcMetadataRecord)
      && (FieldIs(r.header, "WARC-Type", "resource")
          <==> !isArcMetadataRecord && src.mimeType == Some("text/dns"))
      && (FieldIs(r.header, "WARC-Type", "response")
          <==> !isArcMetadataRecord && src.mimeType != Some("text/dns"))
  {
  }

  /** The other fields of a content record: its Content-Type, the link to the
      `warcinfo` record on the metadata record only, its ID, and a
      Content-Length equal to the number of payload bytes, which are the
      source contents. */
  lemma ContentRecordFields(src: SourceRecord, recordId: string, isArcMetadataRecord: bool,
                            warcInfoId: Option<string>, date: string)
    ensures var r := ContentRecord(src, recordId, isArcMetadataRecord, warcInfoId, date);
      && FieldIs(r.header, "Content-Type", if isArcMetadataRecord then "text/xml" else src.mimeType.GetOr(MimeUnknown))
      && Lookup(r.header, "WARC-Concurrent-To") == (if isArcMetadataRecord then Some(warcInfoId) else None)
      && FieldIs(r.header, "WARC-Record-ID", recordId)
      && r.payload == src.contents
      && FieldIs(r.header, "Content-Length", NatToString(|r.payload|))
  {
    var header := ContentRecord(src, recordId, isArcMetadataRecord, warcInfoId, date).header;
    var k := if isArcMetadataRecord then 1 else 0;
    LookupAt(header, 3);
    LookupAt(header, 5 + k);
    LookupAt(header, 8 + k);
    if isArcMetadataRecord {
      LookupAt(header, 4);
    } else {
      LookupAbsent(header, "WARC-Concurrent-To");
    }
  }

  /** The Content-Length the writer emits reads back as the number of payload
      bytes streamed. */
  lemma ContentLengthReadsBack(src: SourceRecord, recordId: string, isArcMetadataRecord: bool,
                               warcInfoId: Option<string>, date: string)
    requires |src.contents| <= LongMax
    ensures var r := ContentRecord(src, recordId, isArcMetadataRecord, warcInfoId, date);
            exists v :: FieldIs(r.header, "Content-Length", v) && ParseLong(v) == Some(|r.payload|)
  {
    var r := ContentRecord(src, recordId, isArcMetadataRecord, warcInfoId, date);
    ContentRecordFields(src, recordId, isArcMetadataRecord, warcInfoId, date);
    ParseLongOfIntToString(|r.payload|);
    assert FieldIs(r.header, "Content-Length", IntToString(|r.payload|));
  }

  /** How many records of the log carry `WARC-Type: t`. */
  function CountType(log: seq<WarcRecord>, t: string): nat {
    if log == [] then 0
    else (if FieldIs(log[0].header, "WARC-Type", t) then 1 else 0) + CountType(log[1..], t)
  }

  /** A record links back to `warcinfo` exactly when it is the metadata record. */
  predicate LinkedIffMetadata(r: WarcRecord) {
    Lookup(r.header, "WARC-Concurrent-To").Some? <==> FieldIs(r.header, "WARC-Type", "metadata")
  }

  lemma {:induction false} CountTypeAppend(log: seq<WarcRecord>, r: WarcRecord, t: string)
    ensures CountType(log + [r], t) == CountType(log, t) + if FieldIs(r.header, "WARC-Type", t) then 1 else 0
  {
    if log != [] {
      assert (log + [r])[1..] == log[1..] + [r];
      CountTypeAppend(log[1..], r, t);
    }
  }

  class WarcCreator {
    /** The records handed to the JWAT `WarcWriter`, in the order written. */
    var written: seq<WarcRecord>
    const fileName: Option<string>
    /** The static `SimpleDateFormat` "yyyy-MM-dd'T'HH:mm:ss'Z'". */
    const formatDate: Date -> string
    var isArcMetadataRecord: bool
    var payloadIdentification: bool
    var warcInfoId: Option<string>

    /** At most one `metadata` record, none while the next content record is
        still to be the metadata record, and WARC-Concurrent-To on exactly the
        `metadata` records. */
    ghost predicate Valid()
      reads this
    {
      && CountType(written, "metadata") <= 1
      && (isArcMetadataRecord ==> CountType(written, "metadata") == 0)
      && (forall i :: 0 <= i < |written| ==> LinkedIffMetadata(written[i]))
    }

    constructor(fileName: Option<string>, formatDate: Date -> string)
      ensures Valid()
      ensures written == [] && isArcMetadataRecord && warcInfoId == None && !payloadIdentification
      ensures this.fileName == fileName && this.formatDate == formatDate
    {
      this.written := [];
      this.fileName := fileName;
      this.formatDate := formatDate;
      this.isArcMetadataRecord := true;
      this.payloadIdentification := false;
      this.warcInfoId := None;
    }

    /** Writes the `warcinfo` record, stamped with the current time `now`,
        under the freshly generated `recordId`, and keeps that ID. */
    method CreateWarcInfoRecord(now: Date, recordId: string)
      requires Valid()
      modifies this
      ensures Valid()
      ensures written == old(written) + [WarcInfoRecord(fileName, formatDate(now), recordId)]
      ensures warcInfoId == Some(recordId)
      ensures isArcMetadataRecord == old(isArcMetadataRecord)
      ensures payloadIdentification == old(payloadIdentification)
    {
      var record := WarcInfoRecord(fileName, formatDate(now), recordId);
      WarcInfoRecordFields(fileName, formatDate(now), recordId);
      warcInfoId := Some(recordId);
      CountTypeAppend(written, record, "metadata");
      written := written + [record];
    }

    /** Writes one content record under the freshly generated `recordId`;
        afterwards no later record is the metadata record. */
    method CreateContentRecord(src: SourceRecord, recordId: string)
      requires Valid()
      modifies this
      ensures Valid()
      ensures written == old(written)
                         + [ContentRecord(src, recordId, old(isArcMetadataRecord), warcInfoId, formatDate(src.date))]
      ensures !isArcMetadataRecord
      ensures warcInfoId == old(warcInfoId)
      ensures payloadIdentification == old(payloadIdentification)
    {
      var record := ContentRecord(src, recordId, isArcMetadataRecord, warcInfoId, formatDate(src.date));
      ContentRecordType(src, recordId, isArcMetadataRecord, warcInfoId, formatDate(src.date));
      ContentRecordFields(src, recordId, isArcMetadataRecord, warcInfoId, formatDate(src.date));
      CountTypeAppend(written, record, "metadata");
      written := written + [record];
      isArcMetadataRecord := false;
    }

    method IsPayloadIdentification() returns (b: bool)
      ensures b == payloadIdentification
    {
      b := payloadIdentification;
    }

    method SetPayloadIdentification(b: bool)
      modifies this
      ensures payloadIdentification == b
      ensures written == old(written) && isArcMetadataRecord == old(isArcMetadataRecord)
      ensures warcInfoId == old(warcInfoId)
    {
      payloadIdentification := b;
    }
  }
}
