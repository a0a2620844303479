/** `ArcArchiveReader`: a cursor over the records of an ARC file that turns
    each one into an `ArchiveRecord`. The JWAT reader is modelled as the
    sequence of records it would deliver, and its iterator as the position of
    the next one. */
module ArcReading {
  import opened Common
  import opened ArchiveRecords

  /** The exceptions the reader's methods end with. */
  datatype ReaderError =
    | IllegalState        // "Iterator not initialised!"
    | NoSuchElement       // `next()` past the last record
    | UnsupportedOperation  // JWAT's record iterator does not remove
    | NullPointer         // the adapter on a record without the payload it reads

  class ArcArchiveReader {
    /** The records the JWAT reader delivers, in file order. */
    const records: seq<ArcSource>
    const compressed: bool
    const helpers: Helpers
    /** The JWAT `iterator`: the position of the next record, None while null. */
    var iter: Option<nat>
    var computePayloadDigest: bool

    ghost predicate Valid()
      reads this
    {
      iter.Some? ==> iter.value <= |records|
    }

    /** Opens a reader; the iterator is always assigned and digesting is off. */
    constructor (records: seq<ArcSource>, compressed: bool, helpers: Helpers)
      ensures Valid()
      ensures this.records == records && this.compressed == compressed && this.helpers == helpers
      ensures iter == Some(0)
      ensures !computePayloadDigest
    {
      this.records := records;
      this.compressed := compressed;
      this.helpers := helpers;
      iter := Some(0);
      computePayloadDigest := false;
    }

    /** Whether a record is left; consumes nothing. */
    method HasNext() returns (r: Result<bool, ReaderError>)
      requires Valid()
      ensures r.Err? <==> iter.None?
      ensures r.Err? ==> r.error == IllegalState
      ensures r.Ok? ==> (r.value <==> iter.value < |records|)
    {
      if iter.None? {
        return Err(IllegalState);
      }
      return Ok(iter.value < |records|);
    }

    /** The next record, converted with the digest flag as it is now. */
    method Next() returns (r: Result<ArchiveRecord, ReaderError>)
      requires Valid()
      modifies this
      ensures Valid()
      ensures computePayloadDigest == old(computePayloadDigest)
      ensures old(iter).None? ==> r == Err(IllegalState) && iter == old(iter)
      ensures old(iter).Some? && old(iter).value == |records|
              ==> r == Err(NoSuchElement) && iter == old(iter)
      ensures old(iter).Some? && old(iter).value < |records|
              ==> && iter == Some(old(iter).value + 1)
                  && (r.Err? <==> ArcPayloadMissing(records[old(iter).value], computePayloadDigest))
                  && (r.Err? ==> r.error == NullPointer)
                  && (r.Ok? ==> && fresh(r.value)
                                && r.value.AllFields() == FromArc(records[old(iter).value], helpers, computePayloadDigest))
    {
      if iter.None? {
        return Err(IllegalState);
      }
      var position := iter.value;
      if position == |records| {
        return Err(NoSuchElement);
      }
      iter := Some(position + 1);
      var archiveRecord := NewFromArc(records[position], helpers, computePayloadDigest);
      if archiveRecord.Err? {
        return Err(NullPointer);
      }
      return Ok(archiveRecord.value);
    }

    /** Removing through the JWAT iterator is not supported. */
    method Remove() returns (r: Result<(), ReaderError>)
      requires Valid()
      ensures r.Err?
      ensures r.error == (if iter.None? then IllegalState else UnsupportedOperation)
    {
      if iter.None? {
        return Err(IllegalState);
      }
      return Err(UnsupportedOperation);
    }

    method SetComputePayloadDigest(computePayloadDigest: bool)
      modifies this
      ensures this.computePayloadDigest == computePayloadDigest
      ensures iter == old(iter)
    {
      this.computePayloadDigest := computePayloadDigest;
    }
  }

  /** What `next()` gives for one record: the NullPointerException when the
      adapter needs the record's missing payload, otherwise its fields. */
  function ReadResult(src: ArcSource, helpers: Helpers, digest: bool): Result<Fields, ReaderError> {
    if ArcPayloadMissing(src, digest) then Err(NullPointer) else Ok(FromArc(src, helpers, digest))
  }

  /** One `next()` on a reader with a record left, giving the new record's
      fields. */
  method NextFields(reader: ArcArchiveReader) returns (r: Result<Fields, ReaderError>)
    requires reader.Valid() && reader.iter.Some? && reader.iter.value < |reader.records|
    modifies reader
    ensures reader.Valid() && reader.iter == Some(old(reader.iter).value + 1)
    ensures reader.computePayloadDigest == old(reader.computePayloadDigest)
    ensures r == ReadResult(reader.records[old(reader.iter).value], reader.helpers, reader.computePayloadDigest)
  {
    var next := reader.Next();
    if next.Err? {
      return Err(next.error);
    }
    return Ok(next.value.AllFields());
  }

  /** A freshly opened reader reads its records in file order: the k-th
      successful `next()` converts the k-th record, and `hasNext` is false
      exactly after the last one. Reading stops at the first record whose
      conversion throws, with that exception. */
  method ReadAll(records: seq<ArcSource>, compressed: bool, helpers: Helpers, digest: bool)
    returns (out: seq<Fields>, error: Option<ReaderError>)
    ensures |out| <= |records|
    ensures forall k :: 0 <= k < |out| ==> !ArcPayloadMissing(records[k], digest)
    ensures forall k :: 0 <= k < |out| ==> out[k] == FromArc(records[k], helpers, digest)
    ensures error.None? <==> |out| == |records|
    ensures error.Some? ==> error.value == NullPointer && ArcPayloadMissing(records[|out|], digest)
  {
    var reader := new ArcArchiveReader(records, compressed, helpers);
    reader.SetComputePayloadDigest(digest);
    out, error := [], None;
    var more := reader.HasNext();
    while more == Ok(true)
      invariant reader.Valid() && reader.records == records && reader.helpers == helpers
      invariant reader.computePayloadDigest == digest
      invariant reader.iter == Some(|out|)
      invariant more.Ok? && (more.value <==> |out| < |records|)
      invariant forall k :: 0 <= k < |out| ==> ReadResult(records[k], helpers, digest) == Ok(out[k])
      decreases |records| - |out|
    {
      var r := NextFields(reader);
      if r.Err? {
        error := Some(r.error);
        return;
      }
      out := out + [r.value];
      more := reader.HasNext();
    }
  }
}
