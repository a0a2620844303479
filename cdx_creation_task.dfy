/** `CDXCreationTask`: where the CDX index of one archive file goes. The
    constructor derives the index file's name and path from the
    configuration once; both are final. */
module CdxCreation {
  import opened Common

  /** What the constructor reads of `CDXCreatorConfig`. */
  datatype CdxConfig = CdxConfig(directoryInput: bool, outputStr: Option<string>)

  /** What the constructor reads of the archive `File`. */
  datatype ArchiveFile = ArchiveFile(name: string, absolutePath: string)

  /** The two final fields. */
  datatype CdxTarget = CdxTarget(cdxFileName: string, cdxFilePath: string)

  const CdxExtension: string := ".cdx.csv"

  /** The text after the last separator, or all of it when there is none. */
  function AfterLastSeparator(path: string, sep: char): (name: string)
    ensures IsSuffix(name, path) && sep !in name
    ensures sep !in path ==> name == path
  {
    match LastIndexOf(path, sep)
    case None => path
    case Some(i) => path[i + 1..]
  }

  /** The constructor. `ensureTrailSep` (a helper not part of this model)
      receives the configured output, which may be null. */
  function NewTarget(config: CdxConfig, archive: ArchiveFile, sep: char,
                     ensureTrailSep: Option<string> -> string): (t: CdxTarget)
    ensures IsSuffix(t.cdxFileName, t.cdxFilePath)
    ensures config.directoryInput ==>
              t == CdxTarget(archive.name + CdxExtension, ensureTrailSep(config.outputStr) + archive.name + CdxExtension)
    ensures !config.directoryInput && config.outputStr.None? ==>
              t == CdxTarget(archive.name + CdxExtension,
                             ensureTrailSep(Some(archive.absolutePath)) + archive.name + CdxExtension)
    ensures !config.directoryInput && config.outputStr.Some? ==>
              && t.cdxFilePath == config.outputStr.value
              && sep !in t.cdxFileName
              && (sep !in t.cdxFilePath ==> t.cdxFileName == t.cdxFilePath)
  {
    if config.directoryInput then
      var cdxFileName := archive.name + CdxExtension;
      CdxTarget(cdxFileName, ensureTrailSep(config.outputStr) + cdxFileName)
    else if config.outputStr.None? then
      var cdxFileName := archive.name + CdxExtension;
      CdxTarget(cdxFileName, ensureTrailSep(Some(archive.absolutePath)) + cdxFileName)
    else
      var cdxFilePath := config.outputStr.value;
      CdxTarget(AfterLastSeparator(cdxFilePath, sep), cdxFilePath)
  }

  /** With an explicit output path, the name is its last path component: the
      path is a directory part ending in a separator, or nothing, followed
      by the name. */
  lemma OutputNameIsLastComponent(config: CdxConfig, archive: ArchiveFile, sep: char,
                                  ensureTrailSep: Option<string> -> string)
    requires !config.directoryInput && config.outputStr.Some?
    ensures var t := NewTarget(config, archive, sep, ensureTrailSep);
            var dir := t.cdxFilePath[..|t.cdxFilePath| - |t.cdxFileName|];
            t.cdxFilePath == dir + t.cdxFileName && (dir == "" || dir[|dir| - 1] == sep)
  {
  }
}
