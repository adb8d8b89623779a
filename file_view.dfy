/** `FileView.get_file_type` (explorer/views.py): the icon class of a file,
    from its media type first and its extension second. */
module FileView {
  import opened Strings

  datatype FileType = Image | Video | Audio | Pdf | Word | Excel | Archive | Text | File

  /** The extension of a file name: the lower-cased text after its last
      dot, or "" for a name without a dot. */
  function Extension(fileName: string): string {
    if '.' in fileName then
      var parts := Split(LowerStr(fileName), '.');
      parts[|parts| - 1]
    else []
  }

  /** The extension is exactly what follows the last dot of the lower-cased
      name: a suffix of it, without a dot, right after a dot. */
  lemma {:induction false} ExtensionFollowsLastDot(fileName: string)
    requires '.' in fileName
    ensures var lowered := LowerStr(fileName);
            var ext := Extension(fileName);
            |ext| < |lowered| && EndsWith(lowered, ext) && lowered[|lowered| - |ext| - 1] == '.'
            && '.' !in ext
  {
    LowerKeeps(fileName, '.');
    SplitLastPiece(LowerStr(fileName), '.');
  }

  /** `FileView.get_file_type`: the media type is tried first, image before
      video before audio, and a file is of a media kind exactly when its media
      type is the first of the three it starts with. */
  function GetFileType(fileName: string, mediaType: string): (t: FileType)
    ensures (StartsWith(mediaType, "image") || StartsWith(mediaType, "video") || StartsWith(mediaType, "audio"))
              ==> t in {Image, Video, Audio}
    ensures t == Image <==> StartsWith(mediaType, "image")
    ensures t == Video <==> !StartsWith(mediaType, "image") && StartsWith(mediaType, "video")
    ensures t == Audio <==> !StartsWith(mediaType, "image") && !StartsWith(mediaType, "video") && StartsWith(mediaType, "audio")
  {
    var ext := Extension(fileName);
    if StartsWith(mediaType, "image") then Image
    else if StartsWith(mediaType, "video") then Video
    else if StartsWith(mediaType, "audio") then Audio
    else if ext == "pdf" then Pdf
    else if ext in ["doc", "docx"] then Word
    else if ext in ["xls", "xlsx"] then Excel
    else if ext in ["zip", "rar"] then Archive
    else if ext in ["txt", "md"] then Text
    else File
  }

  /** The extension table, used when the media type is none of image, video
      and audio: each document kind for exactly its extensions, and a plain
      file for every other extension. */
  lemma {:induction false} ExtensionTable(fileName: string, mediaType: string)
    requires !StartsWith(mediaType, "image") && !StartsWith(mediaType, "video") && !StartsWith(mediaType, "audio")
    ensures var ext := Extension(fileName);
            var t := GetFileType(fileName, mediaType);
            (t == Pdf <==> ext == "pdf")
            && (t == Word <==> ext == "doc" || ext == "docx")
            && (t == Excel <==> ext == "xls" || ext == "xlsx")
            && (t == Archive <==> ext == "zip" || ext == "rar")
            && (t == Text <==> ext == "txt" || ext == "md")
            && (t == File <==> ext !in {"pdf", "doc", "docx", "xls", "xlsx", "zip", "rar", "txt", "md"})
  {
  }

  /** Unless the media type is an image, video or audio type, only the
      extension matters: two names with the same extension get the same type. */
  lemma {:induction false} TypeFollowsExtension(name1: string, name2: string, mediaType: string)
    requires Extension(name1) == Extension(name2)
    ensures GetFileType(name1, mediaType) == GetFileType(name2, mediaType)
  {
  }

  /** A name without a dot, under a media type other than image, video and
      audio, is a plain file. */
  lemma {:induction false} NoExtensionIsFile(fileName: string, mediaType: string)
    requires '.' !in fileName
    requires !StartsWith(mediaType, "image") && !StartsWith(mediaType, "video") && !StartsWith(mediaType, "audio")
    ensures GetFileType(fileName, mediaType) == File
  {
  }

  /** The extension is compared after lower-casing: a name and its
      lower-cased form have the same extension, so "REPORT.PDF" is a PDF. */
  lemma {:induction false} ExtensionIgnoresCase(fileName: string)
    ensures Extension(LowerStr(fileName)) == Extension(fileName)
  {
    var lowered := LowerStr(fileName);
    forall i | 0 <= i < |fileName| ensures Lower(lowered[i]) == lowered[i] && (lowered[i] == '.' <==> fileName[i] == '.') {
      LowerIdempotent(fileName[i]);
    }
    assert LowerStr(lowered) == lowered;
    assert ('.' in lowered) == ('.' in fileName) by {
      if '.' in fileName {
        var k :| 0 <= k < |fileName| && fileName[k] == '.';
        assert lowered[k] == '.';
      }
      if '.' in lowered {
        var k :| 0 <= k < |lowered| && lowered[k] == '.';
        assert fileName[k] == '.';
      }
    }
  }
}
