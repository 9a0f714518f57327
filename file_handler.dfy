/** The upload helpers of `backend/utils/file_handler.py`: the extension
    check against the configured set, the naming of a stored upload, and an
    upload folder whose files are saved and deleted. The folder is a map from
    path to size; the random hex of `uuid4` and the size the file system
    reports are parameters. */
module FileHandler {
  import opened Wrappers
  import opened Text
  import opened Validators

  /** `ALLOWED_EXTENSIONS` of the application configuration. */
  const AllowedExtensions: set<string> := {"pdf", "docx"}
  const InvalidFileType := "Invalid file type"

  /** `allowed_file`: the configured extension check. */
  predicate AllowedFile(filename: string) {
    ValidateFileExtension(filename, AllowedExtensions)
  }

  /** `get_file_extension`: the lower-cased text after the last '.', or None. */
  function GetFileExtension(filename: string): (r: Option<string>)
    ensures r.None? <==> '.' !in filename
    ensures r.Some? ==> '.' !in r.value && r.value == LowerStr(r.value)
    ensures AllowedFile(filename) <==> r.Some? && r.value in AllowedExtensions
  {
    var r := ExtensionOf(filename);
    if r.Some? then LowerIdempotent(filename[LastIndexOf(filename, '.').value + 1..]); r else r
  }

  lemma LowerIdempotent(s: string)
    ensures LowerStr(LowerStr(s)) == LowerStr(s)
  {
    var low := LowerStr(s);
    forall k | 0 <= k < |s| ensures LowerStr(low)[k] == low[k] {
    }
  }

  /** `f"{user_id}_{uuid.uuid4().hex}.{ext}"`. */
  function StoredName(userId: int, hex: string, ext: string): string {
    IntToString(userId) + "_" + hex + "." + ext
  }

  /** `os.path.join(folder, name)` for a relative `name`. */
  function JoinPath(folder: string, name: string): string {
    if |folder| == 0 then name
    else if folder[|folder| - 1] == '/' then folder + name
    else folder + "/" + name
  }

  lemma NoDotInNumber(n: int)
    ensures '.' !in IntToString(n)
  {
    var digits := if n < 0 then NatToString(-n) else NatToString(n);
    assert forall k :: 0 <= k < |digits| ==> IsDigit(digits[k]);
    assert '.' !in digits;
  }

  /** The stored name keeps the upload's extension: reading the extension of
      the stored name gives it back, so the stored file passes the same check. */
  lemma StoredNameKeepsExtension(userId: int, hex: string, filename: string)
    requires '.' !in hex && AllowedFile(filename)
    ensures var ext := GetFileExtension(filename).value;
      GetFileExtension(StoredName(userId, hex, ext)) == Some(ext) && AllowedFile(StoredName(userId, hex, ext))
  {
    var ext := GetFileExtension(filename).value;
    var name := StoredName(userId, hex, ext);
    var p := |IntToString(userId) + "_" + hex|;
    NoDotInNumber(userId);
    assert name[p] == '.';
    assert name[p + 1..] == ext;
    LastIndexOfIs(name, '.', p);
  }

  class UploadFolder {
    const folder: string
    /** The files in the folder and their sizes. */
    var files: map<string, nat>

    constructor (folder: string)
      ensures this.folder == folder && files == map[]
    {
      this.folder := folder;
      files := map[];
    }

    /** `save_uploaded_file`: `filename` is the upload's name (None without
        a file part), `hex` the random identifier and `size` the size of the
        saved file. A missing or disallowed upload is refused before the
        folder is touched. */
    method SaveUploadedFile(filename: Option<string>, userId: int, hex: string, size: nat)
      returns (r: Result<(string, string, nat), string>)
      modifies this
      ensures r.Failure? <==> filename.None? || !AllowedFile(filename.value)
      ensures r.Failure? ==> r.error == InvalidFileType && files == old(files)
      ensures r.Success? ==>
        var name := StoredName(userId, hex, GetFileExtension(filename.value).value);
        && r.value == (JoinPath(folder, name), name, size)
        && files == old(files)[JoinPath(folder, name) := size]
    {
      if filename.None? || !AllowedFile(filename.value) {
        return Failure(InvalidFileType);
      }
      var ext := GetFileExtension(filename.value).value;
      var uniqueFilename := StoredName(userId, hex, ext);
      var filePath := JoinPath(folder, uniqueFilename);
      files := files[filePath := size];
      return Success((filePath, uniqueFilename, files[filePath]));
    }

    /** `delete_file`: true exactly when the file was there and is now gone. */
    method DeleteFile(filePath: string) returns (deleted: bool)
      modifies this
      ensures deleted <==> filePath in old(files)
      ensures files == old(files) - {filePath}
      ensures filePath !in files
    {
      if filePath in files {
        files := files - {filePath};
        return true;
      }
      return false;
    }
  }
}
