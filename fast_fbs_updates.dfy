/**
 * `FastFBSUpdateHandler`: the file document built from the ingest message
 * alone, without touching the file system.
 */
module FastFbsUpdates {
  import opened PyStr
  import opened PosixPath
  import opened UpdateHandlers
  import opened IngestMessages

  const NoExtension: string := "File without extension."

  /** `_create_doc_from_message(message)`, the single document of the one-element list it returns. */
  function CreateDocFromMessage(m: IngestMessage): (d: MessageFile)
    ensures d.name == d.nameAuto && '/' !in d.name && EndsWith(m.filepath, d.name)
    ensures StartsWith(m.filepath, d.directory)
    ensures d.fileType == NoExtension || (|d.fileType| > 0 && d.fileType[0] == '.' && EndsWith(d.name, d.fileType))
    ensures d.size == m.filesize && d.location == "on_disk"
  {
    var filename := Basename(m.filepath);
    var dirname := Dirname(m.filepath);
    var fileType := Extension(filename);
    DirnameBasename(m.filepath);
    MessageFile(filename, if |fileType| == 0 then NoExtension else fileType, dirname, m.filesize, filename, "on_disk")
  }

  /**
   * The directory and the name cover the whole path: between them lie only
   * separators, and a name with an extension is typed by that extension.
   */
  lemma DocumentCoversPath(m: IngestMessage)
    ensures var d := CreateDocFromMessage(m);
      && |d.directory| + |d.name| <= |m.filepath|
      && (forall i :: |d.directory| <= i < |m.filepath| - |d.name| ==> m.filepath[i] == '/')
      && (Extension(d.name) != [] ==> d.fileType == Extension(d.name))
  {
    DirnameBasename(m.filepath);
  }
}
