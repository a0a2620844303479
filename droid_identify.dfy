/** The droid-identify `DroidIdentification`: a cached identifier per
    signature file, and `identify`, which returns the first PUID DROID
    reports or "fmt/0". Downloading and parsing the signature file are
    outside the model. */
module DroidIdentify {
  import opened Common
  import opened DroidResults

  /** The PUID of an unidentified file. */
  const UnknownPuid: string := "fmt/0"

  class DroidIdentification {
    /** The signature file the identifier was initialised with. */
    const sigFilePath: string

    constructor (sigFilePath: string)
      ensures this.sigFilePath == sigFilePath
    {
      this.sigFilePath := sigFilePath;
    }

    /** `identify(filePath)`: the first PUID in result order that is neither
        null nor empty, and "fmt/0" when there is none, when the file cannot
        be opened, or when reading it fails. */
    method Identify(run: Run) returns (puid: string)
      ensures puid == FirstPresent(Puids(Collected(run))).GetOr(UnknownPuid)
      ensures puid != ""
    {
      puid := UnknownPuid;
      if run.Matched? && run.results.Some? && |run.results.value| > 0 {
        var result := run.results.value;
        var k := 0;
        while k < |result|
          invariant k <= |result|
          invariant forall j :: 0 <= j < k ==> !Present(result[j].puid)
        {
          var id := result[k].puid;
          if id.Some? && id.value != "" {
            FirstPresentAt(Puids(result), k);
            puid := id.value;
            break;
          }
          k := k + 1;
        }
        if puid == "" {
          puid := UnknownPuid;
        }
      }
    }
  }

  /** The static `instance` field: the identifier handed out last, if any. */
  class InstanceCache {
    var instance: Option<DroidIdentification>

    constructor ()
      ensures instance == None
    {
      instance := None;
    }

    /** `getInstance()`: the cached identifier, whatever signature file it
        uses; the first call creates one on the default signature file,
        downloaded to `downloadPath`. */
    method GetInstance(downloadPath: string) returns (r: DroidIdentification)
      modifies this
      ensures old(instance).Some? ==> r == old(instance).value
      ensures old(instance).None? ==> fresh(r) && r.sigFilePath == downloadPath
      ensures instance == Some(r)
    {
      if instance.None? {
        var created := new DroidIdentification(downloadPath);
        instance := Some(created);
      }
      return instance.value;
    }

    /** `getInstance(sigFilePath)`: the cached identifier when it uses the
        same signature file, and a new one that replaces it otherwise. */
    method GetInstanceFor(sigFilePath: string) returns (r: DroidIdentification)
      modifies this
      ensures r.sigFilePath == sigFilePath
      ensures instance == Some(r)
      ensures old(instance).Some? && old(instance).value.sigFilePath == sigFilePath ==> r == old(instance).value
      ensures !(old(instance).Some? && old(instance).value.sigFilePath == sigFilePath) ==> fresh(r)
    {
      if instance.Some? && instance.value.sigFilePath != sigFilePath {
        instance := None;
      }
      if instance.None? {
        var created := new DroidIdentification(sigFilePath);
        instance := Some(created);
      }
      return instance.value;
    }
  }

  /** Asking twice for the same signature file yields the same identifier. */
  method SameFileSameInstance(cache: InstanceCache, sigFilePath: string)
    returns (first: DroidIdentification, second: DroidIdentification)
    modifies cache
    ensures first == second && first.sigFilePath == sigFilePath
  {
    first := cache.GetInstanceFor(sigFilePath);
    second := cache.GetInstanceFor(sigFilePath);
  }
}
