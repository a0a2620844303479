/** The archiventory `DroidIdentification.identify(File)`: a map with the
    first MIME type and the first PUID DROID reports, each defaulted when
    DROID reports none. */
module ArchiventoryDroid {
  import opened Common
  import opened DroidResults

  /** `identify` ends with a NullPointerException when the file cannot be
      opened: the `finally` block closes the stream that was never assigned. */
  datatype IdentifyError = NullPointer

  const DefaultMime: string := "application/octet-stream"
  const DefaultPuid: string := "fmt/0"

  /** `m` holds `key` exactly when a choice was made, and then holds the choice. */
  predicate Holds(m: map<string, string>, key: string, choice: Option<string>) {
    (key in m <==> choice.Some?) && (key in m ==> m[key] == choice.value)
  }

  /** The first present MIME type and PUID of the results. */
  function MimeChoice(results: seq<IdentificationResult>): Option<string> {
    FirstPresent(MimeTypes(results))
  }

  function PuidChoice(results: seq<IdentificationResult>): Option<string> {
    FirstPresent(Puids(results))
  }

  /** One more result: each choice stands once made, and otherwise the new
      result's entry is chosen when it is present. */
  lemma ChoiceSnoc(results: seq<IdentificationResult>, r: IdentificationResult)
    ensures MimeChoice(results + [r]) ==
              if MimeChoice(results).Some? then MimeChoice(results) else if Present(r.mimeType) then r.mimeType else None
    ensures PuidChoice(results + [r]) ==
              if PuidChoice(results).Some? then PuidChoice(results) else if Present(r.puid) then r.puid else None
  {
    assert MimeTypes(results + [r]) == MimeTypes(results) + [r.mimeType];
    assert Puids(results + [r]) == Puids(results) + [r.puid];
    FirstPresentSnoc(MimeTypes(results), r.mimeType);
    FirstPresentSnoc(Puids(results), r.puid);
  }

  /** The map `identify` returns: both keys and no other; the first present
      MIME type and PUID in result order, each chosen independently, with
      the defaults in place of those DROID did not report; or the
      NullPointerException. */
  method Identify(run: Run) returns (r: Result<map<string, string>, IdentifyError>)
    ensures r.Err? <==> run.OpenFailed?
    ensures r.Ok? ==> r.value.Keys == {"mime", "puid"}
    ensures r.Ok? ==> r.value["mime"] == MimeChoice(Collected(run)).GetOr(DefaultMime) != ""
    ensures r.Ok? ==> r.value["puid"] == PuidChoice(Collected(run)).GetOr(DefaultPuid) != ""
  {
    var droidIdRes: map<string, string> := map[];
    var streamOpen := false;  // whether `in` was assigned
    match run {
      case OpenFailed =>
      case ReadFailed =>
        streamOpen := true;
      case Matched(results) =>
        streamOpen := true;
        if results.Some? && |results.value| > 0 {
          var result := results.value;
          var k := 0;
          while k < |result|
            invariant k <= |result|
            invariant droidIdRes.Keys <= {"mime", "puid"}
            invariant Holds(droidIdRes, "mime", MimeChoice(result[..k]))
            invariant Holds(droidIdRes, "puid", PuidChoice(result[..k]))
          {
            assert result[..k + 1] == result[..k] + [result[k]];
            ChoiceSnoc(result[..k], result[k]);
            var ir := result[k];
            var mime := ir.mimeType;
            if mime.Some? && mime.value != "" {
              if "mime" !in droidIdRes {
                droidIdRes := droidIdRes["mime" := mime.value];
              }
            }
            var puid := ir.puid;
            if puid.Some? && puid.value != "" {
              if "puid" !in droidIdRes {
                droidIdRes := droidIdRes["puid" := puid.value];
              }
            }
            k := k + 1;
          }
          assert result[..k] == result;
        }
    }
    if !streamOpen {
      return Err(NullPointer);
    }
    if "mime" !in droidIdRes {
      droidIdRes := droidIdRes["mime" := DefaultMime];
    }
    if "puid" !in droidIdRes {
      droidIdRes := droidIdRes["puid" := DefaultPuid];
    }
    return Ok(droidIdRes);
  }
}
