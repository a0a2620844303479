/** What a DROID run delivers to the two `DroidIdentification` classes, and
    the rule both apply to it: the first MIME type or PUID (PRONOM Unique
    Identifier) that is neither null nor empty wins. */
module DroidResults {
  import opened Common

  /** One `IdentificationResult`: its MIME type and PUID, either may be null. */
  datatype IdentificationResult = IdentificationResult(mimeType: Option<string>, puid: Option<string>)

  /** How reading a file with DROID ends: the file cannot be opened, an
      IOException after opening, or the result list left after
      `removeLowerPriorityHits` (None when the collection or its list is null). */
  datatype Run =
    | OpenFailed
    | ReadFailed
    | Matched(results: Option<seq<IdentificationResult>>)

  /** The results the selection loop walks over: none unless DROID matched. */
  function Collected(run: Run): seq<IdentificationResult> {
    match run
    case Matched(Some(results)) => results
    case _ => []
  }

  /** Neither null nor empty. */
  predicate Present(s: Option<string>) {
    s.Some? && s.value != ""
  }

  function MimeTypes(results: seq<IdentificationResult>): (ms: seq<Option<string>>)
    ensures |ms| == |results| && forall k :: 0 <= k < |results| ==> ms[k] == results[k].mimeType
  {
    seq(|results|, k requires 0 <= k < |results| => results[k].mimeType)
  }

  function Puids(results: seq<IdentificationResult>): (ps: seq<Option<string>>)
    ensures |ps| == |results| && forall k :: 0 <= k < |results| ==> ps[k] == results[k].puid
  {
    seq(|results|, k requires 0 <= k < |results| => results[k].puid)
  }

  /** The first entry that is neither null nor empty, if any. */
  function FirstPresent(xs: seq<Option<string>>): (r: Option<string>)
    ensures r.Some? ==> r.value != ""
    ensures r.None? <==> forall k :: 0 <= k < |xs| ==> !Present(xs[k])
  {
    if xs == [] then None
    else if Present(xs[0]) then xs[0]
    else
      assert forall k :: 1 <= k < |xs| ==> xs[k] == xs[1..][k - 1];
      FirstPresent(xs[1..])
  }

  /** The entry `FirstPresent` picks is the one at the first present position,
      and that position is the one it picks. */
  lemma {:induction false} FirstPresentAt(xs: seq<Option<string>>, k: nat)
    requires k < |xs| && Present(xs[k])
    requires forall j :: 0 <= j < k ==> !Present(xs[j])
    ensures FirstPresent(xs) == xs[k]
  {
    if k > 0 {
      assert !Present(xs[0]);
      FirstPresentAt(xs[1..], k - 1);
    }
  }

  /** Entries after a present one are ignored. */
  lemma {:induction false} FirstPresentIgnoresLater(xs: seq<Option<string>>, ys: seq<Option<string>>)
    requires FirstPresent(xs).Some?
    ensures FirstPresent(xs + ys) == FirstPresent(xs)
  {
    assert xs != [];
    if !Present(xs[0]) {
      assert (xs + ys)[1..] == xs[1..] + ys;
      FirstPresentIgnoresLater(xs[1..], ys);
    }
  }

  /** Looking at one entry more: the earlier choice stands, or else the new
      entry is chosen when it is present. */
  lemma {:induction false} FirstPresentSnoc(xs: seq<Option<string>>, x: Option<string>)
    ensures FirstPresent(xs + [x]) ==
            if FirstPresent(xs).Some? then FirstPresent(xs) else if Present(x) then x else None
  {
    if FirstPresent(xs).Some? {
      FirstPresentIgnoresLater(xs, [x]);
    } else if Present(x) {
      FirstPresentAt(xs + [x], |xs|);
    } else {
      assert forall k :: 0 <= k < |xs + [x]| ==> !Present((xs + [x])[k]);
    }
  }
}
