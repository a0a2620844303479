/** `TifowaCli`: the type histogram the Tika command-line tool builds while
    it walks a directory. The detector and the parser are outside the
    model: each file's detected media type, or the exception, is an input. */
module Tifowa {
  import opened Common

  // ---------------------------------------------------------------------------
  // The histogram

  /** The sum of the counts of `keys` in `m`. */
  ghost function SumOf(m: map<string, nat>, keys: set<string>): nat
    requires keys <= m.Keys
    decreases keys
  {
    if keys == {} then 0
    else
      var k :| k in keys;
      m[k] + SumOf(m, keys - {k})
  }

  /** The sum of all counts of a histogram. */
  ghost function Total(m: map<string, nat>): nat {
    SumOf(m, m.Keys)
  }

  /** Any key can be taken out of the sum first. */
  lemma {:induction false} SumOfRemove(m: map<string, nat>, keys: set<string>, k: string)
    requires keys <= m.Keys && k in keys
    ensures SumOf(m, keys) == m[k] + SumOf(m, keys - {k})
    decreases keys
  {
    var j :| j in keys && SumOf(m, keys) == m[j] + SumOf(m, keys - {j});
    if j != k {
      SumOfRemove(m, keys - {j}, k);
      SumOfRemove(m, keys - {k}, j);
      assert keys - {j} - {k} == keys - {k} - {j};
    }
  }

  /** The sum only depends on the counts of the keys summed. */
  lemma {:induction false} SumOfFrame(m: map<string, nat>, m': map<string, nat>, keys: set<string>)
    requires keys <= m.Keys && keys <= m'.Keys
    requires forall k :: k in keys ==> m[k] == m'[k]
    ensures SumOf(m, keys) == SumOf(m', keys)
    decreases keys
  {
    if keys != {} {
      var k :| k in keys && SumOf(m, keys) == m[k] + SumOf(m, keys - {k});
      SumOfRemove(m', keys, k);
      SumOfFrame(m, m', keys - {k});
    }
  }

  /** A type's count, 0 for a type not seen yet. */
  function CountOf(m: map<string, nat>, t: string): nat {
    if t in m then m[t] else 0
  }

  /** Counting one more file of type `t` raises the total by one. */
  lemma TotalIncrement(m: map<string, nat>, t: string)
    ensures Total(m[t := CountOf(m, t) + 1]) == Total(m) + 1
  {
    var m' := m[t := CountOf(m, t) + 1];
    SumOfRemove(m', m'.Keys, t);
    var rest := m.Keys - {t};
    assert m'.Keys - {t} == rest;
    SumOfFrame(m, m', rest);
    if t in m {
      SumOfRemove(m, m.Keys, t);
    } else {
      assert rest == m.Keys;
    }
  }

  /** The histogram of a sequence of detections: one count per detected type. */
  function Histogram(detections: seq<Option<string>>): map<string, nat>
    decreases |detections|
  {
    if detections == [] then map[]
    else
      var before := Histogram(detections[..|detections| - 1]);
      match detections[|detections| - 1]
      case None => before
      case Some(t) => before[t := CountOf(before, t) + 1]
  }

  /** How many detections succeeded. */
  function Successes(detections: seq<Option<string>>): nat
    decreases |detections|
  {
    if detections == [] then 0
    else Successes(detections[..|detections| - 1]) + (if detections[|detections| - 1].Some? then 1 else 0)
  }

  /** A type's count in the histogram is the number of files detected with
      that type. */
  lemma {:induction false} HistogramCount(detections: seq<Option<string>>, t: string)
    ensures CountOf(Histogram(detections), t) == |set k | 0 <= k < |detections| && detections[k] == Some(t)|
    decreases |detections|
  {
    if detections != [] {
      var n := |detections| - 1;
      var init := detections[..n];
      HistogramCount(init, t);
      var before := set k | 0 <= k < n && init[k] == Some(t);
      var after := set k | 0 <= k < |detections| && detections[k] == Some(t);
      assert forall k :: 0 <= k < n ==> init[k] == detections[k];
      if detections[n] == Some(t) {
        assert after == before + {n};
      } else {
        assert after == before;
      }
    }
  }

  /** The counts of the histogram add up to the successful detections. */
  lemma {:induction false} HistogramTotal(detections: seq<Option<string>>)
    ensures Total(Histogram(detections)) == Successes(detections)
    decreases |detections|
  {
    if detections != [] {
      var init := detections[..|detections| - 1];
      HistogramTotal(init);
      match detections[|detections| - 1]
      case None =>
      case Some(u) => TotalIncrement(Histogram(init), u);
    }
  }

  // ---------------------------------------------------------------------------
  // Content-type normalisation

  function LowerChar(c: char): char {
    if 'A' <= c <= 'Z' then (c as int + 32) as char else c
  }

  /** `toLowerCase` on ASCII letters. */
  function Lower(s: string): (r: string)
    ensures |r| == |s| && forall i :: 0 <= i < |s| ==> r[i] == LowerChar(s[i])
  {
    seq(|s|, i requires 0 <= i < |s| => LowerChar(s[i]))
  }

  /** The characters the pattern `[^A-Za-z-/;=0-9]` does not remove. */
  predicate TagChar(c: char) {
    'A' <= c <= 'Z' || 'a' <= c <= 'z' || '0' <= c <= '9' || c == '-' || c == '/' || c == ';' || c == '='
  }

  /** Where `$` matches without the MULTILINE flag: at the end of the input,
      or before a line terminator that ends the input. */
  predicate AtEnd(rest: string) {
    rest == "" || rest == "\n" || rest == "\r\n" || rest == "\r"
    || rest == "\U{0085}" || rest == "\U{2028}" || rest == "\U{2029}"
  }

  /** `replaceAll("([^A-Za-z-/;=0-9]|;$)", "")`: every match is one
      character, so the result keeps the characters the pattern does not
      match at their position in the original string. */
  function StripTags(s: string): (r: string)
    ensures forall c :: c in r ==> TagChar(c) && c in s
    decreases |s|
  {
    if s == [] then []
    else
      var keep := TagChar(s[0]) && !(s[0] == ';' && AtEnd(s[1..]));
      var tail := StripTags(s[1..]);
      assert forall c :: c in s[1..] ==> c in s;
      if keep then [s[0]] + tail else tail
  }

  /** The normalisation of a "Content-Type" value in
      `createTypeDistributionContentType`. */
  function NormaliseContentType(contentType: string): (r: string)
    ensures forall c :: c in r ==> ('a' <= c <= 'z' || '0' <= c <= '9' || c == '-' || c == '/' || c == ';' || c == '=')
  {
    var stripped := StripTags(Lower(contentType));
    assert forall c :: c in stripped ==> !('A' <= c <= 'Z') by {
      forall c | c in stripped ensures !('A' <= c <= 'Z') {
        var i :| 0 <= i < |Lower(contentType)| && Lower(contentType)[i] == c;
      }
    }
    ReplaceAll(stripped, "text-html", "text/html")
  }

  /** A string free of anything the filter removes: lower-case tag
      characters only and no ';' at its end. */
  predicate Clean(s: string) {
    (forall i :: 0 <= i < |s| ==> TagChar(s[i]) && !('A' <= s[i] <= 'Z')) && !(|s| > 0 && s[|s| - 1] == ';')
  }

  lemma {:induction false} StripTagsKeepsTagChars(s: string)
    requires forall i :: 0 <= i < |s| ==> TagChar(s[i])
    requires !(|s| > 0 && s[|s| - 1] == ';')
    ensures StripTags(s) == s
    decreases |s|
  {
    if s != [] {
      assert !(s[0] == ';' && AtEnd(s[1..])) by {
        if |s| > 1 {
          assert s[1..][0] == s[1] && TagChar(s[1]);
        }
      }
      assert forall i :: 0 <= i < |s[1..]| ==> s[1..][i] == s[i + 1];
      StripTagsKeepsTagChars(s[1..]);
    }
  }

  /** `pat` occurs in `s` at position `i`. */
  predicate OccursAt(s: string, pat: string, i: nat) {
    i + |pat| <= |s| && s[i..i + |pat|] == pat
  }

  /** No occurrence of the pattern: `replaceAll` changes nothing. */
  lemma {:induction false} ReplaceAllAbsent(s: string, pat: string, rep: string)
    requires |pat| > 0
    requires forall i: nat :: !OccursAt(s, pat, i)
    ensures ReplaceAll(s, pat, rep) == s
    decreases |s|
  {
    if |s| > 0 {
      assert !IsPrefix(pat, s) by {
        assert !OccursAt(s, pat, 0);
      }
      forall i: nat
        ensures !OccursAt(s[1..], pat, i)
      {
        assert !OccursAt(s, pat, i + 1);
        if i + |pat| <= |s[1..]| {
          assert s[1..][i..i + |pat|] == s[i + 1..i + 1 + |pat|];
        }
      }
      ReplaceAllAbsent(s[1..], pat, rep);
    }
  }

  /** A clean content type without "text-html" is already normal. */
  lemma NormalisedIsFixed(s: string)
    requires Clean(s)
    requires forall i: nat :: !OccursAt(s, "text-html", i)
    ensures NormaliseContentType(s) == s
  {
    assert Lower(s) == s by {
      forall i | 0 <= i < |s| ensures Lower(s)[i] == s[i] {
        assert !('A' <= s[i] <= 'Z');
      }
    }
    StripTagsKeepsTagChars(s);
    ReplaceAllAbsent(s, "text-html", "text/html");
  }

  /** The tag characters of `s`, in order: what the filter keeps when no
      `;` of `s` ends the input. */
  function TagCharsOf(s: string): string {
    if s == [] then [] else (if TagChar(s[0]) then [s[0]] else []) + TagCharsOf(s[1..])
  }

  /** Only a `;` that ends the input is stripped: after any prefix, one
      trailing `;` disappears and of two the first stays. */
  lemma {:induction false} OnlyLastSemicolonStripped(s: string)
    ensures StripTags(s + ";") == TagCharsOf(s)
    ensures StripTags(s + ";;") == TagCharsOf(s) + ";"
  {
    if s == [] {
      assert StripTags(";") == "";
      assert ";;"[1..] == ";";
      assert !AtEnd(";");
    } else {
      OnlyLastSemicolonStripped(s[1..]);
      var one, two := s + ";", s + ";;";
      assert one[1..] == s[1..] + ";" && two[1..] == s[1..] + ";;";
      assert one[|one| - 1] == ';' && two[|two| - 1] == ';';
      assert !AtEnd(one[1..]) && !AtEnd(two[1..]);
    }
  }

  // ---------------------------------------------------------------------------
  // The counters

  /** What `createTypeDistributionContentType` gets from Tika's parser: a
      failed parse, or the metadata's "Content-Type" value (None for null). */
  datatype ParseOutcome = ParseFailed | Parsed(contentType: Option<string>)

  class TifowaCli {
    /** `myCollection`: files per detected type. */
    var myCollection: map<string, nat>
    var countAllCalls: nat
    var countAllGoodItems: nat
    var countAllFailedItems: nat

    /** The histogram counts exactly the good items, and every type in it
        was seen at least once. */
    ghost predicate Valid()
      reads this
    {
      && Total(myCollection) == countAllGoodItems
      && forall t :: t in myCollection ==> myCollection[t] > 0
    }

    /** Every call ends as either a good or a failed item. */
    ghost predicate Balanced()
      reads this
    {
      countAllCalls == countAllGoodItems + countAllFailedItems
    }

    constructor ()
      ensures Valid() && Balanced()
      ensures myCollection == map[] && countAllCalls == 0 && countAllGoodItems == 0 && countAllFailedItems == 0
    {
      myCollection := map[];
      countAllCalls, countAllGoodItems, countAllFailedItems := 0, 0, 0;
    }

    /** Counts one more file of type `myType`: a type not seen yet is put
        in at 0 first, then its count rises by one. */
    method CountType(myType: string)
      requires Valid()
      modifies this
      ensures Valid()
      ensures myCollection == old(myCollection)[myType := CountOf(old(myCollection), myType) + 1]
      ensures countAllGoodItems == old(countAllGoodItems) + 1
      ensures countAllCalls == old(countAllCalls) && countAllFailedItems == old(countAllFailedItems)
    {
      TotalIncrement(myCollection, myType);
      if myType !in myCollection {
        myCollection := myCollection[myType := 0];
      }
      myCollection := myCollection[myType := myCollection[myType] + 1];
      assert myCollection == old(myCollection)[myType := CountOf(old(myCollection), myType) + 1];
      countAllGoodItems := countAllGoodItems + 1;
    }

    /** `processFile`: one call more, then `createTypeDistributionDetect` with
        the detected media type, or None when detection threw. */
    method ProcessFile(detected: Option<string>)
      requires Valid()
      modifies this
      ensures Valid()
      ensures old(Balanced()) ==> Balanced()
      ensures countAllCalls == old(countAllCalls) + 1
      ensures detected.Some? ==> && myCollection == old(myCollection)[detected.value := CountOf(old(myCollection), detected.value) + 1]
                                 && countAllGoodItems == old(countAllGoodItems) + 1
                                 && countAllFailedItems == old(countAllFailedItems)
      ensures detected.None? ==> && myCollection == old(myCollection)
                                 && countAllGoodItems == old(countAllGoodItems)
                                 && countAllFailedItems == old(countAllFailedItems) + 1
    {
      countAllCalls := countAllCalls + 1;
      if detected.None? {
        countAllFailedItems := countAllFailedItems + 1;
        return;
      }
      CountType(detected.value);
    }

    /** `createTypeDistributionContentType`: counts the normalised
        "Content-Type" value; a failed parse or a missing value counts as a
        failed item. It is not a call of `processFile` and leaves
        `countAllCalls` alone. */
    method CountContentType(parsed: ParseOutcome)
      requires Valid()
      modifies this
      ensures Valid()
      ensures countAllCalls == old(countAllCalls)
      ensures parsed.Parsed? && parsed.contentType.Some? ==>
                && myCollection == old(myCollection)[NormaliseContentType(parsed.contentType.value) :=
                                                       CountOf(old(myCollection), NormaliseContentType(parsed.contentType.value)) + 1]
                && countAllGoodItems == old(countAllGoodItems) + 1
                && countAllFailedItems == old(countAllFailedItems)
      ensures !(parsed.Parsed? && parsed.contentType.Some?) ==>
                && myCollection == old(myCollection)
                && countAllGoodItems == old(countAllGoodItems)
                && countAllFailedItems == old(countAllFailedItems) + 1
    {
      if parsed.ParseFailed? || parsed.contentType.None? {
        countAllFailedItems := countAllFailedItems + 1;
        return;
      }
      var myType := NormaliseContentType(parsed.contentType.value);
      CountType(myType);
    }
  }

  /** `processFiles` over the files a directory walk finds, in walk order:
      the histogram of their detections, one call per file. */
  method ProcessFiles(cli: TifowaCli, detections: seq<Option<string>>)
    requires cli.Valid() && cli.Balanced()
    requires cli.myCollection == map[] && cli.countAllCalls == 0
    modifies cli
    ensures cli.Valid() && cli.Balanced()
    ensures cli.myCollection == Histogram(detections)
    ensures cli.countAllCalls == |detections|
    ensures cli.countAllGoodItems == Successes(detections)
  {
    var i := 0;
    while i < |detections|
      invariant i <= |detections|
      invariant cli.Valid() && cli.Balanced()
      invariant cli.myCollection == Histogram(detections[..i])
      invariant cli.countAllCalls == i
      invariant cli.countAllGoodItems == Successes(detections[..i])
    {
      assert detections[..i + 1][..i] == detections[..i];
      cli.ProcessFile(detections[i]);
      i := i + 1;
    }
    assert detections[..i] == detections;
  }
}
