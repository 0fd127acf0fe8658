/**
 * MIME normalisation for the document loader of the workflow engine: a file
 * whose type the loader does not accept is relabelled as one it does
 * (nearly always plain text) and renamed to match.  Everything here is a
 * lookup in one of the constant tables or a string test.
 */
module FileConverter {

  import opened Wrappers
  import opened Strings

  /** The types the document loader accepts. */
  const SupportedMimeTypes: set<string> := {
    "text/plain",
    "text/csv",
    "text/html",
    "application/pdf",
    "application/vnd.openxmlformats-officedocument.wordprocessingml.document",
    "application/vnd.openxmlformats-officedocument.spreadsheetml.sheet",
    "application/vnd.oasis.opendocument.text",
    "application/json"
  }

  /**
   * Unsupported types with a known conversion (markdown, legacy office
   * formats, source code, configuration and markup); the table sends every
   * one of them to plain text.
   */
  const ConvertibleMimeTypes: set<string> := {
    "text/markdown",
    "text/x-markdown",
    "application/msword",
    "application/vnd.ms-excel",
    "text/x-python",
    "text/x-java",
    "text/x-c",
    "text/x-c++",
    "application/javascript",
    "application/typescript",
    "text/x-sh",
    "application/x-yaml",
    "text/yaml",
    "application/toml",
    "text/x-toml",
    "application/xml",
    "text/xml",
    "text/x-rst",
    "text/x-tex"
  }

  const MimeTypeConversions: map<string, string> := map m | m in ConvertibleMimeTypes :: "text/plain"

  /** File extensions and their types, in the order they are tried. */
  const ExtensionToMime: seq<(string, string)> := [
    (".md", "text/markdown"),
    (".markdown", "text/markdown"),
    (".txt", "text/plain"),
    (".pdf", "application/pdf"),
    (".docx", "application/vnd.openxmlformats-officedocument.wordprocessingml.document"),
    (".doc", "application/msword"),
    (".xlsx", "application/vnd.openxmlformats-officedocument.spreadsheetml.sheet"),
    (".xls", "application/vnd.ms-excel"),
    (".csv", "text/csv"),
    (".json", "application/json"),
    (".html", "text/html"),
    (".htm", "text/html"),
    (".py", "text/x-python"),
    (".js", "application/javascript"),
    (".ts", "application/typescript"),
    (".java", "text/x-java"),
    (".c", "text/x-c"),
    (".cpp", "text/x-c++"),
    (".yaml", "application/x-yaml"),
    (".yml", "application/x-yaml"),
    (".toml", "application/toml"),
    (".xml", "application/xml"),
    (".sh", "text/x-sh")
  ]

  /** The extension given to a renamed file of each type. */
  const MimeToExtension: map<string, string> := map[
    "text/plain" := ".txt",
    "text/csv" := ".csv",
    "application/pdf" := ".pdf",
    "application/json" := ".json",
    "text/html" := ".html"
  ]

  /** The extensions a renamed file can end in. */
  const RenamedExtensions: set<string> := {".txt", ".csv", ".pdf", ".json", ".html"}

  /** The first entry of `table`, from index `from` on, whose extension ends `name`. */
  function FirstSuffixMatch(name: string, table: seq<(string, string)>, from: nat): (r: Option<nat>)
    requires from <= |table|
    ensures r.None? <==> forall i :: from <= i < |table| ==> !EndsWith(name, table[i].0)
    ensures r.Some? ==> from <= r.value < |table| && EndsWith(name, table[r.value].0)
                        && forall i :: from <= i < r.value ==> !EndsWith(name, table[i].0)
    decreases |table| - from
  {
    if from == |table| then None
    else if EndsWith(name, table[from].0) then Some(from)
    else FirstSuffixMatch(name, table, from + 1)
  }

  /**
   * `get_mime_type_from_filename`: the type of the first extension, in table
   * order, that the lower-cased name ends with; None when none does.
   */
  function MimeTypeFromFilename(filename: string): (r: Option<string>)
    ensures r.None? <==> forall i :: 0 <= i < |ExtensionToMime| ==> !EndsWith(Lower(filename), ExtensionToMime[i].0)
    ensures r.Some? ==> exists k :: 0 <= k < |ExtensionToMime| && r.value == ExtensionToMime[k].1
                          && EndsWith(Lower(filename), ExtensionToMime[k].0)
                          && forall i :: 0 <= i < k ==> !EndsWith(Lower(filename), ExtensionToMime[i].0)
  {
    match FirstSuffixMatch(Lower(filename), ExtensionToMime, 0)
    case Some(k) => Some(ExtensionToMime[k].1)
    case None => None
  }

  /** `is_supported_mime_type`: a supported type is never empty and never one that is converted. */
  predicate IsSupportedMimeType(mimeType: string): (r: bool)
    ensures r ==> mimeType != "" && mimeType !in MimeTypeConversions
  {
    TablesDisjoint();
    mimeType in SupportedMimeTypes
  }

  /** `filename.rsplit('.', 1)[0] if '.' in filename else filename`. */
  function BaseName(filename: string): (base: string)
    ensures '.' !in filename ==> base == filename
    ensures '.' in filename ==> |base| < |filename| && filename[|base|] == '.'
                                && base == filename[..|base|] && '.' !in filename[|base| + 1..]
  {
    match LastIndexOf(filename, '.')
    case Some(k) => filename[..k]
    case None => filename
  }

  /**
   * `_update_filename_extension`: the name up to its last '.', followed by
   * the extension of the target type (".txt" when the type has none).
   */
  function UpdateFilenameExtension(filename: string, targetMime: string): (r: string)
    ensures BaseName(filename) <= r && r[|BaseName(filename)|..] in RenamedExtensions
    ensures targetMime in MimeToExtension ==> r[|BaseName(filename)|..] == MimeToExtension[targetMime]
    ensures targetMime !in MimeToExtension ==> r[|BaseName(filename)|..] == ".txt"
  {
    var base := BaseName(filename);
    var r := base + (if targetMime in MimeToExtension then MimeToExtension[targetMime] else ".txt");
    assert r[|base|..] == (if targetMime in MimeToExtension then MimeToExtension[targetMime] else ".txt");
    r
  }

  /**
   * The text types reached by the last fallback: a non-empty type under
   * "text/", one with "text" anywhere in its lower-cased form, or the
   * generic binary type.
   */
  predicate TextLike(mime: string)
  {
    mime != "" && (StartsWith(mime, "text/") || Contains(Lower(mime), "text") || mime == "application/octet-stream")
  }

  /** `get_converted_mime_type`: the type to declare and the name to use. */
  function ConvertedMimeType(originalMime: string, filename: string): (r: (string, string))
    ensures IsSupportedMimeType(originalMime) ==> r == (originalMime, filename)
    ensures r.0 != originalMime ==> r == ("text/plain", UpdateFilenameExtension(filename, "text/plain"))
  {
    TablesDisjoint();
    if IsSupportedMimeType(originalMime) then (originalMime, filename)
    else if originalMime in MimeTypeConversions then
      var converted := MimeTypeConversions[originalMime];
      (converted, UpdateFilenameExtension(filename, converted))
    else
      var fromName := MimeTypeFromFilename(filename);
      if fromName.Some? && fromName.value != "" && fromName.value in MimeTypeConversions then
        var converted := MimeTypeConversions[fromName.value];
        (converted, UpdateFilenameExtension(filename, converted))
      else if TextLike(originalMime) then
        ("text/plain", UpdateFilenameExtension(filename, "text/plain"))
      else (originalMime, filename)
  }

  /** `should_convert_file`: an empty type is first resolved from the name, else taken as binary. */
  function ShouldConvertFile(mimeType: string, filename: string): (r: bool)
    ensures mimeType != "" ==> (r <==> !IsSupportedMimeType(mimeType))
    ensures mimeType == "" && MimeTypeFromFilename(filename).None? ==> r
    ensures mimeType == "" && MimeTypeFromFilename(filename).Some? ==>
              (r <==> !IsSupportedMimeType(MimeTypeFromFilename(filename).value))
  {
    var resolved := if mimeType == "" then MimeTypeFromFilename(filename).GetOr("application/octet-stream") else mimeType;
    !IsSupportedMimeType(resolved)
  }

  /** The dict `get_file_info_for_n8n` returns. */
  datatype FileInfo = FileInfo(
    filename: string,
    contentType: string,
    originalFilename: string,
    originalContentType: string,
    converted: bool)

  /**
   * `get_file_info_for_n8n`: the converted name and type beside the original
   * ones; `converted` says whether the type changed.  The file's bytes are
   * not used.
   */
  function FileInfoForN8n(originalMime: string, filename: string): (info: FileInfo)
    ensures info.originalFilename == filename && info.originalContentType == originalMime
    ensures info.converted <==> info.contentType != originalMime
    ensures !info.converted ==> info.filename == filename
  {
    var (mime, name) := ConvertedMimeType(originalMime, filename);
    UnchangedTypeKeepsName(originalMime, filename);
    FileInfo(name, mime, filename, originalMime, mime != originalMime)
  }

  // ---------------------------------------------------------------------------
  // Properties

  /** No type is both supported and in need of conversion, and every conversion is to plain text. */
  lemma TablesDisjoint()
    ensures forall m :: m in MimeTypeConversions ==> m !in SupportedMimeTypes && MimeTypeConversions[m] == "text/plain"
  {
    assert ConvertibleMimeTypes !! SupportedMimeTypes;
  }

  /** A supported type comes back as it is, name included. */
  lemma SupportedUnchanged(originalMime: string, filename: string)
    requires IsSupportedMimeType(originalMime)
    ensures ConvertedMimeType(originalMime, filename) == (originalMime, filename)
  {
  }

  /** The resulting type is supported or the original; a changed type is always plain text. */
  lemma ConvertedIsSupportedOrOriginal(originalMime: string, filename: string)
    ensures var r := ConvertedMimeType(originalMime, filename);
            && (IsSupportedMimeType(r.0) || r.0 == originalMime)
            && (r.0 != originalMime ==> r.0 == "text/plain")
  {
    TablesDisjoint();
  }

  /** When the type is left as it is, so is the name. */
  lemma UnchangedTypeKeepsName(originalMime: string, filename: string)
    ensures ConvertedMimeType(originalMime, filename).0 == originalMime ==>
              ConvertedMimeType(originalMime, filename).1 == filename
  {
    TablesDisjoint();
  }

  /** Converting a second time changes nothing. */
  lemma ConvertedIdempotent(originalMime: string, filename: string)
    ensures var r := ConvertedMimeType(originalMime, filename);
            ConvertedMimeType(r.0, r.1) == r
  {
    ConvertedIsSupportedOrOriginal(originalMime, filename);
    UnchangedTypeKeepsName(originalMime, filename);
  }

  /** An empty type whose name has no known extension needs conversion. */
  lemma EmptyUnknownNeedsConversion(filename: string)
    requires forall i :: 0 <= i < |ExtensionToMime| ==> !EndsWith(Lower(filename), ExtensionToMime[i].0)
    ensures ShouldConvertFile("", filename)
  {
  }

  /** Whenever the type is changed, the file was one that needs conversion. */
  lemma ConvertedAgreesWithFlag(originalMime: string, filename: string)
    requires ConvertedMimeType(originalMime, filename).0 != originalMime
    ensures ShouldConvertFile(originalMime, filename)
  {
    if originalMime == "" {
      EmptyTypeConvertedByName(filename);
    }
  }

  /** An empty type is only ever changed through the type its name gives, which has a conversion. */
  lemma EmptyTypeConvertedByName(filename: string)
    requires ConvertedMimeType("", filename).0 != ""
    ensures MimeTypeFromFilename(filename).Some? && MimeTypeFromFilename(filename).value in MimeTypeConversions
  {
    assert "" !in SupportedMimeTypes && "" !in MimeTypeConversions;
    assert !TextLike("");
  }
}
