/** `StringUtils.normdir`: joins directory names into one path in which
    every part ends with exactly the separator the loop gives it. */
module DirStrings {
  import opened Common

  /** One argument's contribution: one leading separator dropped, and a
      separator added unless the part already ends with one. */
  function NormPart(sep: char, dir: string): (part: string)
    ensures |part| > 0 && part[|part| - 1] == sep
  {
    var dirPart := if |dir| > 0 && dir[0] == sep then dir[1..] else dir;
    if |dirPart| > 0 && dirPart[|dirPart| - 1] == sep then dirPart else dirPart + [sep]
  }

  /** The result of `normdir(dirs)`: the parts' contributions in argument order. */
  function NormDir(sep: char, dirs: seq<string>): string
    decreases |dirs|
  {
    if dirs == [] then "" else NormDir(sep, dirs[..|dirs| - 1]) + NormPart(sep, dirs[|dirs| - 1])
  }

  /** `normdir`: the loop over the arguments. */
  method Normdir(sep: char, dirs: seq<string>) returns (outDir: string)
    ensures outDir == NormDir(sep, dirs)
  {
    outDir := "";
    var i := 0;
    while i < |dirs|
      invariant i <= |dirs|
      invariant outDir == NormDir(sep, dirs[..i])
    {
      assert dirs[..i + 1][..i] == dirs[..i];
      var dir := dirs[i];
      var dirPart := if |dir| > 0 && dir[0] == sep then dir[1..] else dir;
      outDir := outDir + (if |dirPart| > 0 && dirPart[|dirPart| - 1] == sep then dirPart else dirPart + [sep]);
      i := i + 1;
    }
    assert dirs[..i] == dirs;
  }

  /** Normalising the arguments of two calls one after the other gives the
      result of one call on all of them. */
  lemma {:induction false} NormDirAppend(sep: char, a: seq<string>, b: seq<string>)
    ensures NormDir(sep, a + b) == NormDir(sep, a) + NormDir(sep, b)
    decreases |b|
  {
    if b == [] {
      assert a + b == a;
    } else {
      var ab, init, last := a + b, b[..|b| - 1], b[|b| - 1];
      assert ab[..|ab| - 1] == a + init && ab[|ab| - 1] == last;
      var p := NormPart(sep, last);
      assert NormDir(sep, ab) == NormDir(sep, ab[..|ab| - 1]) + NormPart(sep, ab[|ab| - 1]);
      calc {
        NormDir(sep, ab);
        NormDir(sep, a + init) + p;
        { NormDirAppend(sep, a, init); }
        (NormDir(sep, a) + NormDir(sep, init)) + p;
        NormDir(sep, a) + (NormDir(sep, init) + p);
        NormDir(sep, a) + NormDir(sep, b);
      }
    }
  }

  /** No argument gives the empty string, and at least one gives a path
      ending in the separator. */
  lemma NormDirEnd(sep: char, dirs: seq<string>)
    ensures dirs == [] ==> NormDir(sep, dirs) == ""
    ensures dirs != [] ==> |NormDir(sep, dirs)| > 0 && NormDir(sep, dirs)[|NormDir(sep, dirs)| - 1] == sep
  {
  }

  /** An empty part, or one that is just the separator, contributes one
      separator. */
  lemma EmptyPartIsSeparator(sep: char, dir: string)
    requires dir == "" || dir == [sep]
    ensures NormPart(sep, dir) == [sep]
  {
  }

  /** Only one leading separator is dropped: a part that starts with two
      keeps one of them. */
  lemma DoubledLeadingSeparatorKept(sep: char, rest: string)
    ensures NormPart(sep, [sep, sep] + rest)[0] == sep
  {
  }

  /** A part without separators at either end is wrapped in exactly one
      trailing separator. */
  lemma PlainPart(sep: char, dir: string)
    requires |dir| > 0 && dir[0] != sep && dir[|dir| - 1] != sep
    ensures NormPart(sep, dir) == dir + [sep]
  {
  }
}
