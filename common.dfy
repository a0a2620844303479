/** Values and string rules shared by the modelled Java classes: Java's
    nullable references, exceptions, bytes, `Long.toString` / `Long.parseLong`,
    `String.trim`, literal `replaceAll`, `StringTokenizer` and `Scanner` splitting. */
module Common {

  /** A Java reference that may be null. */
  datatype Option<+T> = None | Some(value: T) {
    function GetOr(default: T): T {
      match this
      case Some(v) => v
      case None => default
    }
  }

  /** A normal return value, or the exception the Java method ends with. */
  datatype Result<+T, +E> = Ok(value: T) | Err(error: E)

  newtype byte = x: int | 0 <= x < 256

  /** A `java.util.Date`, as milliseconds since the epoch. */
  type Date = int

  /** `Identifier.MIME_UNKNOWN`: the MIME type of a record whose type is not known. */
  const MimeUnknown: string := "no-type"

  const LongMin: int := -0x8000_0000_0000_0000
  const LongMax: int := 0x7FFF_FFFF_FFFF_FFFF

  predicate InLongRange(x: int) { LongMin <= x <= LongMax }

  // ---------------------------------------------------------------------------
  // Decimal text of integers

  predicate IsDigit(c: char) { '0' <= c <= '9' }

  predicate AllDigits(s: string) { forall i :: 0 <= i < |s| ==> IsDigit(s[i]) }

  function DigitChar(d: nat): (c: char)
    requires d < 10
    ensures IsDigit(c)
  {
    (('0' as int) + d) as char
  }

  function DigitValue(c: char): (d: nat)
    requires IsDigit(c)
    ensures d < 10 && DigitChar(d) == c
  {
    (c as int) - ('0' as int)
  }

  /** The decimal digits of `n`, most significant first, without leading zeros. */
  function NatToString(n: nat): (s: string)
    ensures |s| >= 1 && AllDigits(s)
    ensures |s| > 1 ==> s[0] != '0'
  {
    if n < 10 then [DigitChar(n)] else NatToString(n / 10) + [DigitChar(n % 10)]
  }

  /** The value of a string of decimal digits (leading zeros allowed). */
  function DigitsValue(s: string): nat
    requires AllDigits(s)
  {
    if s == [] then 0 else DigitsValue(s[..|s| - 1]) * 10 + DigitValue(s[|s| - 1])
  }

  lemma {:induction false} DigitsValueOfNatToString(n: nat)
    ensures DigitsValue(NatToString(n)) == n
  {
    if n >= 10 {
      var s := NatToString(n);
      assert s[..|s| - 1] == NatToString(n / 10);
      DigitsValueOfNatToString(n / 10);
    }
  }

  /** `Long.toString`: an optional minus sign, then the decimal digits. */
  function IntToString(x: int): string {
    if x < 0 then "-" + NatToString(-x) else NatToString(x)
  }

  /** `Long.parseLong` on ASCII text: an optional sign, at least one decimal
      digit, and a value inside the 64-bit range; anything else is the
      NumberFormatException, here None. Java also accepts the other Unicode
      decimal digits; here they are not digits. */
  function ParseLong(s: string): (r: Option<int>)
    ensures r.Some? ==> InLongRange(r.value)
    ensures r.Some? ==> |s| > 0
  {
    if |s| == 0 then None
    else
      var negative := s[0] == '-';
      var digits := if s[0] == '-' || s[0] == '+' then s[1..] else s;
      if |digits| == 0 || !AllDigits(digits) then None
      else
        var v: int := if negative then -(DigitsValue(digits) as int) else DigitsValue(digits);
        if InLongRange(v) then Some(v) else None
  }

  /** What `Long.toString` writes, `Long.parseLong` reads back. */
  lemma ParseLongOfIntToString(x: int)
    requires InLongRange(x)
    ensures ParseLong(IntToString(x)) == Some(x)
  {
    var s := IntToString(x);
    if x < 0 {
      var digits := NatToString(-x);
      assert s == "-" + digits && s[0] == '-' && s[1..] == digits;
      DigitsValueOfNatToString(-x);
      assert DigitsValue(digits) == -x;
    } else {
      var digits := NatToString(x);
      assert s == digits && s[0] != '-' && s[0] != '+';
      DigitsValueOfNatToString(x);
      assert DigitsValue(digits) == x;
    }
  }

  // ---------------------------------------------------------------------------
  // Prefixes, suffixes, search

  predicate IsPrefix<T(==)>(p: seq<T>, s: seq<T>) { |p| <= |s| && s[..|p|] == p }

  predicate IsSuffix<T(==)>(p: seq<T>, s: seq<T>) { |p| <= |s| && s[|s| - |p|..] == p }

  /** `s.indexOf(c)`: the first position of `c`, or None for Java's -1. */
  function IndexOf(s: string, c: char): (r: Option<nat>)
    ensures r.Some? ==> r.value < |s| && s[r.value] == c && c !in s[..r.value]
    ensures r.None? ==> c !in s
  {
    if |s| == 0 then None
    else if s[0] == c then Some(0)
    else match IndexOf(s[1..], c)
      case None => None
      case Some(i) => assert s[1..][..i] == s[1..i + 1]; Some(i + 1)
  }

  /** `s.lastIndexOf(c)`: the last position of `c`, or None for Java's -1. */
  function LastIndexOf(s: string, c: char): (r: Option<nat>)
    ensures r.Some? ==> r.value < |s| && s[r.value] == c && c !in s[r.value + 1..]
    ensures r.None? ==> c !in s
  {
    if |s| == 0 then None
    else if s[|s| - 1] == c then Some(|s| - 1)
    else
      var r := LastIndexOf(s[..|s| - 1], c);
      assert r.Some? ==> s[r.value + 1..] == s[..|s| - 1][r.value + 1..] + [s[|s| - 1]];
      assert r.None? ==> s == s[..|s| - 1] + [s[|s| - 1]];
      r
  }

  // ---------------------------------------------------------------------------
  // String.trim, String.replaceAll with a literal pattern

  /** `String.trim`: drops every leading and trailing character at or below U+0020. */
  function Trim(s: string): (r: string)
    ensures |r| > 0 ==> r[0] > ' ' && r[|r| - 1] > ' '
  {
    TrimEnd(TrimStart(s))
  }

  function TrimStart(s: string): (r: string)
    ensures IsSuffix(r, s)
    ensures |r| > 0 ==> r[0] > ' '
    ensures forall i :: 0 <= i < |s| - |r| ==> s[i] <= ' '
  {
    if |s| > 0 && s[0] <= ' ' then TrimStart(s[1..]) else s
  }

  function TrimEnd(s: string): (r: string)
    ensures IsPrefix(r, s)
    ensures |r| > 0 ==> r[|r| - 1] > ' '
    ensures forall i :: |r| <= i < |s| ==> s[i] <= ' '
  {
    if |s| > 0 && s[|s| - 1] <= ' ' then TrimEnd(s[..|s| - 1]) else s
  }

  /** `s.replaceAll(pat, rep)` for a pattern without regular-expression
      operators: leftmost, non-overlapping occurrences, scanned once. */
  function ReplaceAll(s: string, pat: string, rep: string): (r: string)
    requires |pat| > 0
    ensures forall c :: c in r ==> c in s || c in rep
    decreases |s|
  {
    if |s| == 0 then []
    else if IsPrefix(pat, s) then
      var tail := ReplaceAll(s[|pat|..], pat, rep);
      assert forall c :: c in s[|pat|..] ==> c in s;
      rep + tail
    else
      var tail := ReplaceAll(s[1..], pat, rep);
      assert forall c :: c in s[1..] ==> c in s;
      [s[0]] + tail
  }

  /** Replacing a one-character pattern by a one-character replacement maps
      the string character by character. */
  lemma {:induction false} ReplaceAllChar(s: string, c: char, d: char)
    ensures |ReplaceAll(s, [c], [d])| == |s|
    ensures forall i :: 0 <= i < |s| ==> ReplaceAll(s, [c], [d])[i] == if s[i] == c then d else s[i]
    decreases |s|
  {
    if |s| > 0 {
      ReplaceAllChar(s[1..], c, d);
      var tail := ReplaceAll(s[1..], [c], [d]);
      assert IsPrefix([c], s) <==> s[0] == c;
      assert s[|[c]|..] == s[1..];
      assert ReplaceAll(s, [c], [d]) == [if s[0] == c then d else s[0]] + tail;
    }
  }

  // ---------------------------------------------------------------------------
  // Splitting

  /** Cuts `s` at every `d`: one piece more than there are delimiters. */
  function SplitOn(s: string, d: char): (pieces: seq<string>)
    ensures |pieces| >= 1
    ensures forall k :: 0 <= k < |pieces| ==> d !in pieces[k]
    decreases |s|
  {
    match IndexOf(s, d)
    case None => [s]
    case Some(i) => [s[..i]] + SplitOn(s[i + 1..], d)
  }

  /** The tokens a `java.util.Scanner` with delimiter "\n" returns: a
      delimiter at the very start is skipped, and nothing follows a delimiter
      at the very end, while two delimiters in a row enclose an empty token. */
  function ScannerTokens(s: string): (lines: seq<string>)
    ensures forall k :: 0 <= k < |lines| ==> '\n' !in lines[k]
  {
    var pieces := SplitOn(s, '\n');
    var afterStart := if |s| > 0 && s[0] == '\n' then pieces[1..] else pieces;
    if |afterStart| > 0 && afterStart[|afterStart| - 1] == "" then afterStart[..|afterStart| - 1]
    else afterStart
  }

  /** The tokens of a `java.util.StringTokenizer` with one delimiter
      character: the maximal non-empty runs of other characters. */
  function Tokens(s: string, d: char): (ts: seq<string>)
    ensures forall k :: 0 <= k < |ts| ==> |ts[k]| > 0 && d !in ts[k]
  {
    var pieces := SplitOn(s, d);
    NonEmpty(pieces)
  }

  function NonEmpty(pieces: seq<string>): (r: seq<string>)
    ensures forall k :: 0 <= k < |r| ==> r[k] in pieces && |r[k]| > 0
  {
    if pieces == [] then []
    else if pieces[0] == "" then NonEmpty(pieces[1..])
    else [pieces[0]] + NonEmpty(pieces[1..])
  }
}
