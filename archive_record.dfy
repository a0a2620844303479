/** `ArchiveRecord`, hawarp's flat record, and its two adapters: one fills it
    from a JWAT ARC record, the other from a JWAT WARC record. The JWAT
    records, the HTTP-header probe on the payload, URL canonicalisation, MIME
    normalisation, SHA-1 digesting and date parsing are inputs: the model
    checks the field logic around them. */
module ArchiveRecords {
  import opened Common

  /** The parts of a JWAT `HttpHeader` the adapters read; null fields are None. */
  datatype HttpHeader = HttpHeader(statusCode: Option<int>, contentType: Option<string>)

  /** What `HttpHeader.processPayload` does on the record's payload: an
      IOException, or a returned header (null when none could be parsed). */
  datatype Probe = ProbeFailed | Probed(header: Option<HttpHeader>)

  /** Reading the whole payload for digesting: an IOException, or the bytes. */
  datatype PayloadRead = ReadFailed | ReadBytes(bytes: seq<byte>)

  /** The helpers the adapters call and whose code is not part of this model. */
  datatype Helpers = Helpers(
    canonicalize: string -> string,        // UrlUtils.canonicalize
    normaliseMimetype: string -> string,   // StringUtils.normaliseMimetype
    shaSum: seq<byte> -> Option<string>,   // DigestUtils.SHAsum(bytes, false, true); None is null
    parseWarcDate: string -> Option<Date>) // GMTUTCUnixTsFormat.parse; None is a ParseException

  /** What the ARC adapter reads from a JWAT `ArcRecordBase`. `hasPayload`
      is false when `getPayload()` returns null. */
  datatype ArcSource = ArcSource(
    urlStr: string,
    ipAddressStr: string,
    contentTypeStr: string,
    archiveDate: Option<Date>,
    resultCode: Option<int>,
    httpHeader: Option<HttpHeader>,
    startOffset: int,
    hasPayload: bool,
    probe: Probe,
    payload: PayloadRead)

  /** What the WARC adapter reads from a JWAT `WarcRecord`: its header lines by
      field name (None when the header list is null), and its payload.
      `hasPayload` is false when JWAT's `getPayload()` returns null, in
      which case `probe` and `payload` are never looked at. */
  datatype WarcSource = WarcSource(
    headers: Option<map<string, string>>,
    startOffset: int,
    hasPayload: bool,
    probe: Probe,
    payload: PayloadRead)

  /** The fields of an `ArchiveRecord`. None is a field an adapter left as
      the base class initialised it, or set to null. */
  datatype Fields = Fields(
    url: Option<string>,
    origUrl: Option<string>,
    ipAddress: Option<string>,
    mimeType: Option<string>,
    recordType: Option<string>,
    date: Option<Date>,
    httpReturnCode: Option<int>,
    contentLengthLong: Option<int>,
    payloadDigestStr: Option<string>,
    payloadDigestOldStr: Option<string>,
    redirectUrl: Option<string>,
    offsetCompressedStr: Option<string>,
    offsetUncompressedStr: Option<string>,
    compressedDatFileOffset: Option<string>,
    uncompressedDatFileOffset: Option<string>,
    metaTags: Option<string>)

  const Unset: Fields := Fields(None, None, None, None, None, None, None, None,
                                None, None, None, None, None, None, None, None)

  /** The six fields both adapters set to the "-" sentinel. */
  predicate HasSentinels(f: Fields) {
    && f.payloadDigestOldStr == Some("-")
    && f.redirectUrl == Some("-")
    && f.offsetUncompressedStr == Some("-")
    && f.compressedDatFileOffset == Some("-")
    && f.uncompressedDatFileOffset == Some("-")
    && f.metaTags == Some("-")
  }

  /** The adapters' one failure: `getPayload()` dereferenced while null. */
  datatype AdapterError = MissingPayload

  /** Whether the ARC adapter dereferences a null payload: it reads the
      payload to probe it when the record has no parsed HTTP header, and
      when digesting is on it reads the payload's length once the payload
      content has been read. A failing content read is an IOException the
      digest step catches before that point. */
  predicate ArcPayloadMissing(src: ArcSource, computePayloadDigest: bool) {
    !src.hasPayload && (src.httpHeader.None? || (computePayloadDigest && src.payload.ReadBytes?))
  }

  /** Whether the WARC adapter dereferences a null payload: the probe reads
      the payload of every record with a header list, and its handler catches
      only IOException. */
  predicate WarcPayloadMissing(src: WarcSource) {
    src.headers.Some? && !src.hasPayload
  }

  /** The header the payload probe returned, if it returned one. */
  function ProbedHeader(p: Probe): Option<HttpHeader> {
    if p.Probed? then p.header else None
  }

  function ProbedStatus(p: Probe): Option<int> {
    match ProbedHeader(p)
    case Some(hh) => hh.statusCode
    case None => None
  }

  function ProbedContentType(p: Probe): Option<string> {
    match ProbedHeader(p)
    case Some(hh) => hh.contentType
    case None => None
  }

  /** The payload digest after the optional digesting step, given its value
      before that step: unchanged when digesting is off or the payload cannot
      be read, else the SHA-1 text, or "-" when that is null or empty. */
  function Digested(current: Option<string>, compute: bool, read: PayloadRead,
                    shaSum: seq<byte> -> Option<string>): (r: Option<string>)
    ensures !compute || read.ReadFailed? ==> r == current
    ensures compute && read.ReadBytes? ==> r.Some? && r.value != ""
    ensures compute && read.ReadBytes? && r != shaSum(read.bytes) ==> r == Some("-")
  {
    if compute && read.ReadBytes? then
      var digest := shaSum(read.bytes);
      if digest.None? || digest.value == "" then Some("-") else digest
    else current
  }

  /** The MIME type of an ARC record: the payload probe's Content-Type when
      the record has no parsed HTTP header and the probe found one; otherwise
      the normalised header Content-Type, or "no-type" when that is empty. */
  function ArcMimeType(src: ArcSource, h: Helpers): string {
    if src.httpHeader.None? && ProbedContentType(src.probe).Some? then
      h.normaliseMimetype(ProbedContentType(src.probe).value)
    else if src.contentTypeStr != "" then h.normaliseMimetype(src.contentTypeStr)
    else MimeUnknown
  }

  /** The HTTP status of an ARC record. When the record has no parsed HTTP
      header the payload probe runs after the result code was taken, and a
      status it finds replaces the result code. */
  function ArcStatus(src: ArcSource): Option<int> {
    var fromHeaders :=
      if src.resultCode.Some? then src.resultCode
      else if src.httpHeader.Some? then src.httpHeader.value.statusCode
      else None;
    if src.httpHeader.None? && ProbedStatus(src.probe).Some? then ProbedStatus(src.probe)
    else fromHeaders
  }

  /** The fields the ARC adapter sets when it completes, that is when
      `ArcPayloadMissing` does not hold. */
  function FromArc(src: ArcSource, h: Helpers, computePayloadDigest: bool): (r: Fields)
    ensures r.url == Some(h.canonicalize(src.urlStr)) && r.origUrl == Some(src.urlStr)
    ensures r.recordType == Some("response")
    ensures r.ipAddress.Some? <==> src.ipAddressStr != ""
    ensures r.mimeType.Some?
    ensures r.mimeType == Some(MimeUnknown) && h.normaliseMimetype(src.contentTypeStr) != MimeUnknown
            ==> src.contentTypeStr == "" || ProbedContentType(src.probe).Some?
    // The header Content-Type decides, unless the probe ran and found one.
    ensures src.httpHeader.Some? || ProbedContentType(src.probe).None?
            ==> r.mimeType == Some(if src.contentTypeStr != "" then h.normaliseMimetype(src.contentTypeStr)
                                   else MimeUnknown)
    ensures src.httpHeader.None? && ProbedContentType(src.probe).Some?
            ==> r.mimeType == Some(h.normaliseMimetype(ProbedContentType(src.probe).value))
    // Status precedence: the result code, then the header status; the probe,
    // which runs only without a header, overrides both.
    ensures src.httpHeader.Some?
            ==> r.httpReturnCode == (if src.resultCode.Some? then src.resultCode
                                     else src.httpHeader.value.statusCode)
    ensures src.httpHeader.None?
            ==> r.httpReturnCode == (if ProbedStatus(src.probe).Some? then ProbedStatus(src.probe)
                                     else src.resultCode)
    ensures src.resultCode.Some? && ProbedStatus(src.probe).None? ==> r.httpReturnCode == src.resultCode
    ensures src.httpHeader.Some?
            ==> (r.httpReturnCode.Some? <==> src.resultCode.Some? || src.httpHeader.value.statusCode.Some?)
    ensures r.date == src.archiveDate
    ensures r.offsetCompressedStr == Some(IntToString(src.startOffset))
    ensures HasSentinels(r)
    ensures r.contentLengthLong == None
    ensures !computePayloadDigest ==> r.payloadDigestStr == None
    ensures r.payloadDigestStr == Digested(None, computePayloadDigest, src.payload, h.shaSum)
    ensures r.payloadDigestStr != Some("")
  {
    Fields(
      url := Some(h.canonicalize(src.urlStr)),
      origUrl := Some(src.urlStr),
      ipAddress := if src.ipAddressStr != "" then Some(src.ipAddressStr) else None,
      mimeType := Some(ArcMimeType(src, h)),
      recordType := Some("response"),
      date := src.archiveDate,
      httpReturnCode := ArcStatus(src),
      contentLengthLong := None,
      payloadDigestStr := Digested(None, computePayloadDigest, src.payload, h.shaSum),
      payloadDigestOldStr := Some("-"),
      redirectUrl := Some("-"),
      offsetCompressedStr := Some(IntToString(src.startOffset)),
      offsetUncompressedStr := Some("-"),
      compressedDatFileOffset := Some("-"),
      uncompressedDatFileOffset := Some("-"),
      metaTags := Some("-"))
  }

  /** `Long.parseLong` of a Content-Length value, -1 when it is not a number. */
  function WarcContentLength(v: string): (n: int)
    ensures n == -1 || ParseLong(v) == Some(n)
    ensures ParseLong(v).Some? ==> n == ParseLong(v).value
    ensures ParseLong(v).None? ==> n == -1
  {
    match ParseLong(v)
    case Some(n) => n
    case None => -1
  }

  /** The value of a WARC header field, if present. */
  function Header(m: map<string, string>, name: string): Option<string> {
    if name in m then Some(m[name]) else None
  }

  /** The fields the WARC adapter sets when it completes, that is when
      `WarcPayloadMissing` does not hold. */
  function FromWarc(src: WarcSource, h: Helpers, computePayloadDigest: bool): (r: Fields)
    ensures src.headers.None? ==> r == Unset
    ensures r.recordType == None
    ensures r.mimeType.Some? <==> src.headers.Some? && "Content-Type" in src.headers.value
    ensures r.mimeType.Some? ==> r.mimeType.value == h.normaliseMimetype(src.headers.value["Content-Type"])
    ensures r.url.Some? <==> r.origUrl.Some?
    ensures r.origUrl.Some? ==> r.url == Some(h.canonicalize(r.origUrl.value))
    // `origUrl` is the raw WARC-Target-URI, present exactly when that line is.
    ensures src.headers.Some? ==> r.origUrl == Header(src.headers.value, "WARC-Target-URI")
    ensures src.headers.Some? ==> r.ipAddress == Header(src.headers.value, "WARC-IP-Address")
    // The probe always runs on a WARC record, so its status is always taken.
    ensures src.headers.Some? ==> r.httpReturnCode == ProbedStatus(src.probe)
    ensures src.headers.Some? ==> r.payloadDigestStr == Digested(Some("-"), computePayloadDigest, src.payload, h.shaSum)
    ensures (src.headers.Some? && "WARC-Date" in src.headers.value
             && h.parseWarcDate(src.headers.value["WARC-Date"]).Some?)
            ==> r.date == h.parseWarcDate(src.headers.value["WARC-Date"])
    ensures src.headers.Some? && "WARC-Date" !in src.headers.value ==> r.date == None
    ensures src.headers.Some? ==> HasSentinels(r) && r.offsetCompressedStr == Some(IntToString(src.startOffset))
    ensures src.headers.Some? ==> r.payloadDigestStr.Some?
    ensures src.headers.Some? && r.payloadDigestStr != Some("-")
            ==> computePayloadDigest && src.payload.ReadBytes? && r.payloadDigestStr == h.shaSum(src.payload.bytes)
    ensures src.headers.Some? && "Content-Length" in src.headers.value
            ==> r.contentLengthLong.Some?
                && (r.contentLengthLong.value == -1 || ParseLong(src.headers.value["Content-Length"]) == r.contentLengthLong)
                && (ParseLong(src.headers.value["Content-Length"]).Some?
                    ==> r.contentLengthLong == ParseLong(src.headers.value["Content-Length"]))
    ensures (src.headers.Some? && "WARC-Date" in src.headers.value
             && h.parseWarcDate(src.headers.value["WARC-Date"]).None?) ==> r.date == Some(0)
    ensures r.httpReturnCode.Some? ==> r.httpReturnCode == ProbedStatus(src.probe)
  {
    match src.headers
    case None => Unset
    case Some(m) =>
      var target := Header(m, "WARC-Target-URI");
      var contentType := Header(m, "Content-Type");
      var contentLength := Header(m, "Content-Length");
      var date := Header(m, "WARC-Date");
      Fields(
        url := if target.Some? then Some(h.canonicalize(target.value)) else None,
        origUrl := target,
        ipAddress := Header(m, "WARC-IP-Address"),
        mimeType := if contentType.Some? then Some(h.normaliseMimetype(contentType.value)) else None,
        recordType := None,
        date := if date.Some? then Some(h.parseWarcDate(date.value).GetOr(0)) else None,
        httpReturnCode := ProbedStatus(src.probe),
        contentLengthLong := if contentLength.Some? then Some(WarcContentLength(contentLength.value)) else None,
        payloadDigestStr := Digested(Some("-"), computePayloadDigest, src.payload, h.shaSum),
        payloadDigestOldStr := Some("-"),
        redirectUrl := Some("-"),
        offsetCompressedStr := Some(IntToString(src.startOffset)),
        offsetUncompressedStr := Some("-"),
        compressedDatFileOffset := Some("-"),
        uncompressedDatFileOffset := Some("-"),
        metaTags := Some("-"))
  }

  /** A Content-Length written by `Long.toString` is read back exactly. */
  lemma WarcContentLengthReadsBack(src: WarcSource, h: Helpers, compute: bool, n: int)
    requires src.headers.Some? && InLongRange(n)
    requires Header(src.headers.value, "Content-Length") == Some(IntToString(n))
    ensures FromWarc(src, h, compute).contentLengthLong == Some(n)
  {
    ParseLongOfIntToString(n);
  }

  class ArchiveRecord {
    var url: Option<string>
    var origUrl: Option<string>
    var ipAddress: Option<string>
    var mimeType: Option<string>
    var recordType: Option<string>
    var date: Option<Date>
    var httpReturnCode: Option<int>
    var contentLengthLong: Option<int>
    var payloadDigestStr: Option<string>
    var payloadDigestOldStr: Option<string>
    var redirectUrl: Option<string>
    var offsetCompressedStr: Option<string>
    var offsetUncompressedStr: Option<string>
    var compressedDatFileOffset: Option<string>
    var uncompressedDatFileOffset: Option<string>
    var metaTags: Option<string>

    function AllFields(): Fields
      reads this
    {
      Fields(url, origUrl, ipAddress, mimeType, recordType, date, httpReturnCode, contentLengthLong,
             payloadDigestStr, payloadDigestOldStr, redirectUrl, offsetCompressedStr,
             offsetUncompressedStr, compressedDatFileOffset, uncompressedDatFileOffset, metaTags)
    }

    /** The empty record of the public no-argument constructor. */
    constructor Empty()
      ensures AllFields() == Unset
    {
      url, origUrl, ipAddress, mimeType, recordType := None, None, None, None, None;
      date, httpReturnCode, contentLengthLong := None, None, None;
      payloadDigestStr, payloadDigestOldStr, redirectUrl := None, None, None;
      offsetCompressedStr, offsetUncompressedStr := None, None;
      compressedDatFileOffset, uncompressedDatFileOffset, metaTags := None, None, None;
    }

    /** The ARC adapter on a record it can read, assigning the fields in the
        order the source does, later steps overwriting earlier ones. The
        other records are `NewFromArc`'s error case. */
    constructor FromArcRecord(src: ArcSource, h: Helpers, computePayloadDigest: bool)
      requires !ArcPayloadMissing(src, computePayloadDigest)
      ensures AllFields() == FromArc(src, h, computePayloadDigest)
    {
      url, origUrl, ipAddress, mimeType, recordType := None, None, None, None, None;
      date, httpReturnCode, contentLengthLong := None, None, None;
      payloadDigestStr, payloadDigestOldStr, redirectUrl := None, None, None;
      offsetCompressedStr, offsetUncompressedStr := None, None;
      compressedDatFileOffset, uncompressedDatFileOffset, metaTags := None, None, None;
      url := Some(h.canonicalize(src.urlStr));
      origUrl := Some(src.urlStr);
      if src.ipAddressStr != "" {
        ipAddress := Some(src.ipAddressStr);
      }
      if src.contentTypeStr != "" {
        mimeType := Some(h.normaliseMimetype(src.contentTypeStr));
      } else {
        mimeType := Some(MimeUnknown);
      }
      recordType := Some("response");
      date := src.archiveDate;
      if src.resultCode.Some? {
        httpReturnCode := src.resultCode;
      } else if src.httpHeader.Some? && src.httpHeader.value.statusCode.Some? {
        httpReturnCode := src.httpHeader.value.statusCode;
      }
      payloadDigestOldStr := Some("-");
      redirectUrl := Some("-");
      offsetCompressedStr := Some(IntToString(src.startOffset));
      offsetUncompressedStr := Some("-");
      compressedDatFileOffset := Some("-");
      uncompressedDatFileOffset := Some("-");
      metaTags := Some("-");
      // HTTP response metadata stored in the payload
      if src.httpHeader.None? {
        match src.probe {
          case ProbeFailed =>
          case Probed(header) =>
            if header.Some? && header.value.statusCode.Some? {
              httpReturnCode := header.value.statusCode;
            }
            if header.Some? && header.value.contentType.Some? {
              mimeType := Some(h.normaliseMimetype(header.value.contentType.value));
            }
        }
      }
      var digest := DigestPayload(None, computePayloadDigest, src.payload, h.shaSum);
      payloadDigestStr := digest;
    }

    /** The WARC adapter, assigning the fields in the order the source does;
        the WARC-Payload-Digest header value is overwritten with "-" before
        digesting. It is called only on a record it can read; the other
        records are `NewFromWarc`'s error case. */
    constructor FromWarcRecord(src: WarcSource, h: Helpers, computePayloadDigest: bool)
      requires !WarcPayloadMissing(src)
      ensures AllFields() == FromWarc(src, h, computePayloadDigest)
    {
      url, origUrl, ipAddress, mimeType, recordType := None, None, None, None, None;
      date, httpReturnCode, contentLengthLong := None, None, None;
      payloadDigestStr, payloadDigestOldStr, redirectUrl := None, None, None;
      offsetCompressedStr, offsetUncompressedStr := None, None;
      compressedDatFileOffset, uncompressedDatFileOffset, metaTags := None, None, None;
      if src.headers.Some? {
        var lines := ReadWarcHeaders(src.headers.value, h);
        url, origUrl, ipAddress := lines.url, lines.origUrl, lines.ipAddress;
        mimeType, contentLengthLong, date := lines.mimeType, lines.contentLengthLong, lines.date;
        payloadDigestStr := lines.payloadDigestStr;
        // the WARC-Payload-Digest value read above is replaced here
        payloadDigestStr := Some("-");
        payloadDigestOldStr := Some("-");
        redirectUrl := Some("-");
        var status := ProbeStatus(src.probe);
        httpReturnCode := status;
        var digest := DigestPayload(Some("-"), computePayloadDigest, src.payload, h.shaSum);
        payloadDigestStr := digest;
        offsetCompressedStr := Some(IntToString(src.startOffset));
        offsetUncompressedStr := Some("-");
        compressedDatFileOffset := Some("-");
        uncompressedDatFileOffset := Some("-");
        metaTags := Some("-");
      } else {
        assert FromWarc(src, h, computePayloadDigest) == Unset;
      }
    }
  }

  /** `new ArchiveRecord(arcRecord, computePayloadDigest)`: the
      NullPointerException on a payload the adapter needs but the record
      lacks, otherwise a new record holding the ARC fields. */
  method NewFromArc(src: ArcSource, h: Helpers, computePayloadDigest: bool)
    returns (r: Result<ArchiveRecord, AdapterError>)
    ensures r.Err? <==> ArcPayloadMissing(src, computePayloadDigest)
    ensures r.Err? ==> r.error == MissingPayload
    ensures r.Ok? ==> fresh(r.value) && r.value.AllFields() == FromArc(src, h, computePayloadDigest)
  {
    if ArcPayloadMissing(src, computePayloadDigest) {
      return Err(MissingPayload);
    }
    var archiveRecord := new ArchiveRecord.FromArcRecord(src, h, computePayloadDigest);
    return Ok(archiveRecord);
  }

  /** `new ArchiveRecord(warcRecord, computePayloadDigest)`: the
      NullPointerException for a record with header lines but no payload,
      otherwise a new record holding the WARC fields. */
  method NewFromWarc(src: WarcSource, h: Helpers, computePayloadDigest: bool)
    returns (r: Result<ArchiveRecord, AdapterError>)
    ensures r.Err? <==> WarcPayloadMissing(src)
    ensures r.Err? ==> r.error == MissingPayload
    ensures r.Ok? ==> fresh(r.value) && r.value.AllFields() == FromWarc(src, h, computePayloadDigest)
  {
    if WarcPayloadMissing(src) {
      return Err(MissingPayload);
    }
    var archiveRecord := new ArchiveRecord.FromWarcRecord(src, h, computePayloadDigest);
    return Ok(archiveRecord);
  }

  /** The fields the WARC adapter reads from the header lines, each only when
      its line is present (the others stay as in `Unset`). The
      WARC-Payload-Digest line is read too, but the adapter overwrites it. */
  method ReadWarcHeaders(m: map<string, string>, h: Helpers) returns (f: Fields)
    ensures f.ipAddress == Header(m, "WARC-IP-Address")
    ensures f.origUrl == Header(m, "WARC-Target-URI")
    ensures f.url == (if "WARC-Target-URI" in m then Some(h.canonicalize(m["WARC-Target-URI"])) else None)
    ensures f.mimeType == (if "Content-Type" in m then Some(h.normaliseMimetype(m["Content-Type"])) else None)
    ensures f.contentLengthLong == (if "Content-Length" in m then Some(WarcContentLength(m["Content-Length"])) else None)
    ensures f.date == (if "WARC-Date" in m then Some(h.parseWarcDate(m["WARC-Date"]).GetOr(0)) else None)
    ensures f.payloadDigestStr == Header(m, "WARC-Payload-Digest")
  {
    var ip, mime, length, digest, target, origTarget, when := None, None, None, None, None, None, None;
    if "WARC-IP-Address" in m {
      ip := Some(m["WARC-IP-Address"]);
    }
    if "Content-Type" in m {
      mime := Some(h.normaliseMimetype(m["Content-Type"]));
    }
    if "Content-Length" in m {
      var n := ParseContentLength(m["Content-Length"]);
      length := Some(n);
    }
    if "WARC-Payload-Digest" in m {
      digest := Some(m["WARC-Payload-Digest"]);
    }
    if "WARC-Target-URI" in m {
      target := Some(m["WARC-Target-URI"]);
      target := Some(h.canonicalize(target.value));
      origTarget := Some(m["WARC-Target-URI"]);
    }
    if "WARC-Date" in m {
      var d := ParseDate(m["WARC-Date"], h.parseWarcDate);
      when := Some(d);
    }
    f := Unset.(url := target, origUrl := origTarget, ipAddress := ip, mimeType := mime,
                date := when, contentLengthLong := length, payloadDigestStr := digest);
  }

  /** `Long.parseLong`, with -1 for a NumberFormatException. */
  method ParseContentLength(v: string) returns (n: int)
    ensures n == WarcContentLength(v)
  {
    match ParseLong(v) {
      case Some(x) => n := x;
      case None => n := -1;
    }
  }

  /** The WARC-Date parser, with the epoch for a ParseException. */
  method ParseDate(v: string, parse: string -> Option<Date>) returns (d: Date)
    ensures d == parse(v).GetOr(0)
  {
    match parse(v) {
      case Some(x) => d := x;
      case None => d := 0;
    }
  }

  /** The status the payload probe finds, if it finds one. */
  method ProbeStatus(probe: Probe) returns (status: Option<int>)
    ensures status == ProbedStatus(probe)
  {
    status := None;
    match probe {
      case ProbeFailed =>
      case Probed(header) =>
        if header.Some? && header.value.statusCode.Some? {
          status := header.value.statusCode;
        }
    }
  }

  /** The optional digesting step, given the field's value before it. */
  method DigestPayload(current: Option<string>, compute: bool, payload: PayloadRead,
                       shaSum: seq<byte> -> Option<string>) returns (digest: Option<string>)
    ensures digest == Digested(current, compute, payload, shaSum)
  {
    digest := current;
    if compute {
      match payload {
        case ReadFailed =>
        case ReadBytes(bytes) =>
          digest := shaSum(bytes);
          if digest.None? || digest.value == "" {
            digest := Some("-");
          }
      }
    }
  }
}
