/** `UnixFileIdentification`: builds a command line for the Unix `file`
    tool and parses its output, one `name: type` line per file, into the
    job's result map. Running the process and resolving absolute paths are
    outside the model: they are the functions of an `Environment`. */
module UnixIdentification {
  import opened Common

  /** What the identifier gets from outside: `File.getAbsolutePath` and the
      standard output of the process a command line starts. */
  datatype Environment = Environment(absolutePath: string -> string, run: string -> string)

  /** The output formats and tool name inherited from the `Identification`
      base class (which is not part of this model): `String.format` with
      `outputKeyFormat` and `outputValueFormat`. */
  datatype Formats = Formats(outputKey: (string, string) -> string,
                             outputValue: (string, string, string) -> string,
                             tool: string)

  /** The exceptions the identifier's methods end with. */
  datatype IdError =
    | NullPointer              // `command` was never set
    | NoSuchElement            // a line without the token the parser asks for
    | StringIndexOutOfBounds   // a record key without '/'

  const DefaultCommand: string := "file --mime-type"

  /** The command a call starts from: an empty command becomes the default. */
  function BaseCommand(command: string): (c: string)
    ensures c != ""
    ensures command != "" ==> c == command
  {
    if command == "" then DefaultCommand else command
  }

  /** What `identify(Collection)` appends for its files: each absolute path
      followed by a space, in iteration order. */
  function PathList(env: Environment, names: seq<string>): string
    decreases |names|
  {
    if names == [] then ""
    else PathList(env, names[..|names| - 1]) + env.absolutePath(names[|names| - 1]) + " "
  }

  /** Appending two collections appends their path lists, so successive calls
      write one path list after the other. */
  lemma {:induction false} PathListAppend(env: Environment, a: seq<string>, b: seq<string>)
    ensures PathList(env, a + b) == PathList(env, a) + PathList(env, b)
    decreases |b|
  {
    if b != [] {
      var ab := a + b;
      assert ab[..|ab| - 1] == a + b[..|b| - 1];
      assert ab[|ab| - 1] == b[|b| - 1];
      PathListAppend(env, a, b[..|b| - 1]);
    } else {
      assert a + b == a;
    }
  }

  /** Every file of the collection, and nothing else, contributes its path and
      one space. */
  lemma {:induction false} PathListLength(env: Environment, names: seq<string>)
    ensures |PathList(env, names)| == |names| + PathLengths(env, names)
    decreases |names|
  {
    if names != [] {
      PathListLength(env, names[..|names| - 1]);
    }
  }

  function PathLengths(env: Environment, names: seq<string>): nat
    decreases |names|
  {
    if names == [] then 0
    else PathLengths(env, names[..|names| - 1]) + |env.absolutePath(names[|names| - 1])|
  }

  // ---------------------------------------------------------------------------
  // The bidirectional file/record map

  /** A `DualHashBidiMap` from record keys to file names, as the list of its
      entries in iteration order. */
  type BidiMap = seq<(string, string)>

  /** No key and no value occurs twice, as the bidirectional map ensures. */
  ghost predicate BidiValid(bidi: BidiMap) {
    forall i, j :: 0 <= i < j < |bidi| ==> bidi[i].0 != bidi[j].0 && bidi[i].1 != bidi[j].1
  }

  /** `values()`: the file names, in iteration order. */
  function Values(bidi: BidiMap): (vs: seq<string>)
    ensures |vs| == |bidi|
    ensures forall i :: 0 <= i < |bidi| ==> vs[i] == bidi[i].1
  {
    if bidi == [] then [] else [bidi[0].1] + Values(bidi[1..])
  }

  /** `getKey(value)`: the record key mapped to a file name, None for null. */
  function GetKey(bidi: BidiMap, value: string): (k: Option<string>)
    ensures k.Some? ==> (k.value, value) in bidi
    ensures k.None? ==> forall i :: 0 <= i < |bidi| ==> bidi[i].1 != value
  {
    if bidi == [] then None
    else if bidi[0].1 == value then Some(bidi[0].0)
    else GetKey(bidi[1..], value)
  }

  /** In a valid map, the reverse lookup of an entry's value is its key. */
  lemma {:induction false} GetKeyOfEntry(bidi: BidiMap, key: string, value: string)
    requires BidiValid(bidi) && (key, value) in bidi
    ensures GetKey(bidi, value) == Some(key)
  {
  }

  // ---------------------------------------------------------------------------
  // Parsing the tool's output

  /** A record key cut at its first '/': container file name and identifier. */
  function SplitKey(key: string): (r: Option<(string, string)>)
    ensures r.Some? ==> key == r.value.0 + "/" + r.value.1 && '/' !in r.value.0
    ensures r.None? <==> '/' !in key
  {
    match IndexOf(key, '/')
    case None => None
    case Some(i) =>
      assert key == key[..i] + "/" + key[i + 1..];
      Some((key[..i], key[i + 1..]))
  }

  /** Splitting at the first '/' undoes joining a slash-free container name
      with any identifier. */
  lemma SplitKeyOfJoin(container: string, identifier: string)
    requires '/' !in container
    ensures SplitKey(container + "/" + identifier) == Some((container, identifier))
  {
    var key := container + "/" + identifier;
    assert key[|container|] == '/';
    var i := IndexOf(key, '/').value;
    assert i == |container|;
    assert key[..i] == container && key[i + 1..] == identifier;
  }

  /** One output line: the trimmed text before the first ':' names the file;
      a file that is a value of the map gives its record's output key and
      the trimmed second ':'-token as a one-element value list. */
  function ParseLine(bidi: BidiMap, formats: Formats, acc: map<string, seq<string>>, line: string)
    : Result<map<string, seq<string>>, IdError>
  {
    var tokens := Tokens(line, ':');
    if |tokens| == 0 then Err(NoSuchElement)
    else match GetKey(bidi, Trim(tokens[0]))
      case None => Ok(acc)
      case Some(key) =>
        match SplitKey(key)
        case None => Err(StringIndexOutOfBounds)
        case Some((container, identifier)) =>
          if |tokens| < 2 then Err(NoSuchElement)
          else
            var outputValue := formats.outputValue(formats.tool, "mime", Trim(tokens[1]));
            Ok(acc[formats.outputKey(container, identifier) := [outputValue]])
  }

  /** The lines in order, from the map built so far; the first failing line
      ends the parse. */
  function ParseLines(bidi: BidiMap, formats: Formats, acc: map<string, seq<string>>, lines: seq<string>)
    : Result<map<string, seq<string>>, IdError>
    decreases |lines|
  {
    if lines == [] then Ok(acc)
    else match ParseLine(bidi, formats, acc, lines[0])
      case Err(e) => Err(e)
      case Ok(m) => ParseLines(bidi, formats, m, lines[1..])
  }

  /** The result map `identifyFileList` builds from the tool's output. */
  function ParseOutput(bidi: BidiMap, formats: Formats, output: string): Result<map<string, seq<string>>, IdError> {
    ParseLines(bidi, formats, map[], ScannerTokens(output))
  }

  /** Parsing one more line continues from the map the earlier lines built. */
  lemma {:induction false} ParseLinesAppend(bidi: BidiMap, formats: Formats, acc: map<string, seq<string>>,
                                            lines: seq<string>, line: string)
    ensures ParseLines(bidi, formats, acc, lines + [line]) ==
            match ParseLines(bidi, formats, acc, lines)
            case Err(e) => Err(e)
            case Ok(m) => ParseLine(bidi, formats, m, line)
    decreases |lines|
  {
    if lines == [] {
      assert [line][1..] == [];
    } else {
      assert (lines + [line])[0] == lines[0];
      assert (lines + [line])[1..] == lines[1..] + [line];
      match ParseLine(bidi, formats, acc, lines[0])
      case Err(e) =>
      case Ok(m) => ParseLinesAppend(bidi, formats, m, lines[1..], line);
    }
  }

  /** A line naming a file the map does not hold adds nothing. */
  lemma UnknownFileAddsNothing(bidi: BidiMap, formats: Formats, acc: map<string, seq<string>>, line: string)
    requires |Tokens(line, ':')| > 0
    requires forall i :: 0 <= i < |bidi| ==> bidi[i].1 != Trim(Tokens(line, ':')[0])
    ensures ParseLine(bidi, formats, acc, line) == Ok(acc)
  {
  }

  /** The last line for a record decides its entry: a later line for the same
      key replaces what an earlier one put there. */
  lemma LastLineWins(bidi: BidiMap, formats: Formats, acc: map<string, seq<string>>, lines: seq<string>, line: string,
                     container: string, identifier: string)
    requires |Tokens(line, ':')| >= 2
    requires GetKey(bidi, Trim(Tokens(line, ':')[0])) == Some(container + "/" + identifier)
    requires '/' !in container
    requires ParseLines(bidi, formats, acc, lines + [line]).Ok?
    ensures formats.outputKey(container, identifier) in ParseLines(bidi, formats, acc, lines + [line]).value
    ensures ParseLines(bidi, formats, acc, lines + [line]).value[formats.outputKey(container, identifier)]
            == [formats.outputValue(formats.tool, "mime", Trim(Tokens(line, ':')[1]))]
  {
    ParseLinesAppend(bidi, formats, acc, lines, line);
    SplitKeyOfJoin(container, identifier);
  }

  /** Every value list of the result holds exactly one string. */
  lemma {:induction false} OneValuePerKey(bidi: BidiMap, formats: Formats, acc: map<string, seq<string>>, lines: seq<string>)
    requires forall k :: k in acc ==> |acc[k]| == 1
    requires ParseLines(bidi, formats, acc, lines).Ok?
    ensures forall k :: k in ParseLines(bidi, formats, acc, lines).value ==>
              |ParseLines(bidi, formats, acc, lines).value[k]| == 1
    decreases |lines|
  {
    if lines != [] {
      var m := ParseLine(bidi, formats, acc, lines[0]).value;
      assert forall k :: k in m ==> |m[k]| == 1;
      OneValuePerKey(bidi, formats, m, lines[1..]);
    }
  }

  /** The body of the `Scanner` loop for one line. */
  method ReadLine(bidi: BidiMap, formats: Formats, resultMap: map<string, seq<string>>, line: string)
    returns (r: Result<map<string, seq<string>>, IdError>)
    ensures r == ParseLine(bidi, formats, resultMap, line)
  {
    var st := Tokens(line, ':');
    if |st| == 0 {
      return Err(NoSuchElement);
    }
    var fileName := Trim(st[0]);
    var key := GetKey(bidi, fileName);
    if key.None? {
      return Ok(resultMap);
    }
    var slash := IndexOf(key.value, '/');
    if slash.None? {
      return Err(StringIndexOutOfBounds);
    }
    var containerFileName := key.value[..slash.value];
    var containerIdentifier := key.value[slash.value + 1..];
    var outputKey := formats.outputKey(containerFileName, containerIdentifier);
    if |st| < 2 {
      return Err(NoSuchElement);
    }
    var value := Trim(st[1]);
    var outputValue := formats.outputValue(formats.tool, "mime", value);
    return Ok(resultMap[outputKey := [outputValue]]);
  }

  /** The `Scanner` loop of `identifyFileList`: reads the tool's output
      line by line into a fresh result map; an exception on any line ends
      the method. */
  method ParseToolOutput(bidi: BidiMap, formats: Formats, output: string)
    returns (r: Result<map<string, seq<string>>, IdError>)
    ensures r == ParseOutput(bidi, formats, output)
  {
    var lines := ScannerTokens(output);
    var resultMap: map<string, seq<string>> := map[];
    var i := 0;
    while i < |lines|
      invariant i <= |lines|
      invariant ParseLines(bidi, formats, map[], lines) == ParseLines(bidi, formats, resultMap, lines[i..])
    {
      assert lines[i..][0] == lines[i] && lines[i..][1..] == lines[i + 1..];
      var next := ReadLine(bidi, formats, resultMap, lines[i]);
      if next.Err? {
        return Err(next.error);
      }
      resultMap := next.value;
      i := i + 1;
    }
    return Ok(resultMap);
  }

  // ---------------------------------------------------------------------------
  // The identifier

  class UnixFileIdentification {
    /** The command line; null until set, and extended by every call. */
    var command: Option<string>
    const formats: Formats

    constructor (formats: Formats)
      ensures this.formats == formats && command == None
    {
      this.formats := formats;
      command := None;
    }

    method SetCommand(command: Option<string>)
      modifies this
      ensures this.command == command
    {
      this.command := command;
    }

    /** `identify(Collection)`: appends a space and every absolute path with a
        trailing space to the command, then runs it. The field is never
        reset, so each call extends what the previous ones left. */
    method IdentifyAll(fileNames: seq<string>, env: Environment) returns (r: Result<string, IdError>)
      modifies this
      ensures old(command).None? ==> r == Err(NullPointer) && command == None
      ensures old(command).Some? ==>
                && command == Some(BaseCommand(old(command).value) + " " + PathList(env, fileNames))
                && r == Ok(env.run(command.value))
      ensures old(command).Some? && old(command).value != "" ==> IsPrefix(old(command).value, command.value)
    {
      if command.None? {
        return Err(NullPointer);
      }
      if command.value == "" {
        command := Some(DefaultCommand);
      }
      ghost var base := command.value;
      command := Some(command.value + " ");
      var i := 0;
      assert fileNames[..0] == [];
      assert PathList(env, fileNames[..0]) == "";
      assert command == Some(base + " ");
      assert base + " " + "" == base + " ";
      assert command == Some(base + " " + PathList(env, fileNames[..0]));
      while i < |fileNames|
        invariant i <= |fileNames|
        invariant command == Some(base + " " + PathList(env, fileNames[..i]))
      {
        assert fileNames[..i + 1][..i] == fileNames[..i];
        assert PathList(env, fileNames[..i + 1]) == PathList(env, fileNames[..i]) + env.absolutePath(fileNames[i]) + " ";
        ghost var prefix := PathList(env, fileNames[..i]);
        command := Some(command.value + env.absolutePath(fileNames[i]) + " ");
        assert command.value == base + " " + (prefix + env.absolutePath(fileNames[i]) + " ");
        i := i + 1;
      }
      assert fileNames[..i] == fileNames;
      return Ok(env.run(command.value));
    }

    /** `identify(File)`: appends a space and the absolute path, with no
        trailing space, and returns the tool's output under "mime". */
    method IdentifyFile(fileName: string, env: Environment) returns (r: Result<map<string, string>, IdError>)
      modifies this
      ensures old(command).None? ==> r == Err(NullPointer) && command == None
      ensures old(command).Some? ==>
                && command == Some(BaseCommand(old(command).value) + " " + env.absolutePath(fileName))
                && r == Ok(map["mime" := env.run(command.value)])
    {
      if command.None? {
        return Err(NullPointer);
      }
      if command.value == "" {
        command := Some(DefaultCommand);
      }
      command := Some(command.value + " ");
      command := Some(command.value + env.absolutePath(fileName));
      var idRes: map<string, string> := map[];
      idRes := idRes["mime" := env.run(command.value)];
      return Ok(idRes);
    }

    /** `identifyFileList`: runs the tool on all file names of the map and
        reads its output line by line into the result map. */
    method IdentifyFileList(bidi: BidiMap, env: Environment) returns (r: Result<map<string, seq<string>>, IdError>)
      modifies this
      ensures old(command).None? ==> r == Err(NullPointer) && command == None
      ensures old(command).Some? ==>
                && command == Some(BaseCommand(old(command).value) + " " + PathList(env, Values(bidi)))
                && r == ParseOutput(bidi, formats, env.run(command.value))
    {
      var ufidRes := IdentifyAll(Values(bidi), env);
      if ufidRes.Err? {
        return Err(ufidRes.error);
      }
      r := ParseToolOutput(bidi, formats, ufidRes.value);
    }
  }
}
