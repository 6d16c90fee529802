/**
 * `FastDirectoryUpdateHandler`: directory creations indexed from the
 * message alone, with a document built from the path when the directory
 * cannot be seen on disk.
 */
module FastDirectoryUpdates {
  import opened Wrappers
  import opened PyStr
  import opened PosixPath
  import opened JsonValue
  import opened MolesPaths
  import opened UpdateHandlers

  /** `_generate_doc_from_message(path)`: depth, path and `dir` from the path alone. */
  function GenerateDocFromMessage(path: string): (d: Document)
    ensures d.DirectoryFromPath? && d.path == path
    ensures '/' !in d.dir && EndsWith(path, d.dir)
  {
    DirectoryFromPath(Count(path, '/'), path, Basename(path))
  }

  /**
   * The document built from the message carries the depth, path and
   * directory name that the on-disk document `dir_meta` would carry for the
   * same path, whatever the link and MOLES answers.
   */
  lemma FallbackAgreesWithDirMeta(path: string, isLink: bool, linkTarget: string, record: Json)
    requires DirMeta(path, isLink, linkTarget, record).Ok?
    ensures var d := GenerateDocFromMessage(path);
      var meta := DirMeta(path, isLink, linkTarget, record).value;
      d.depth == meta.depth && d.path == meta.path && d.dir == meta.dir
  {
  }
}
