/** The backend's avatar upload endpoint (FileUploadController.java):
    reject an empty file, then a file that is not an image, then store it
    under a fresh name that keeps the original extension and answer with
    its URL. The fresh name's UUID is a parameter; creating the directory
    and copying the bytes are not modelled. */
module FileUpload {
  import opened Wrappers

  /** What the controller reads of the multipart file; absent values are null. */
  datatype UploadedFile = UploadedFile(size: nat, contentType: Option<string>, originalFilename: Option<string>)

  predicate StartsWith(s: string, prefix: string) {
    |prefix| <= |s| && s[..|prefix|] == prefix
  }

  predicate EndsWith(s: string, suffix: string) {
    |suffix| <= |s| && s[|s| - |suffix|..] == suffix
  }

  const EmptyFileMessage := "File is empty"
  const NotImageMessage := "Only image files allowed"
  const UploadsPrefix := "/uploads/"

  /** `contentType != null && contentType.startsWith("image/")`. */
  function IsImage(contentType: Option<string>): (ok: bool)
    ensures contentType.None? ==> !ok
    ensures contentType.Some? ==>
      (ok <==> |contentType.value| >= 6 && contentType.value[..6] == ['i', 'm', 'a', 'g', 'e', '/'])
  {
    contentType.Some? && StartsWith(contentType.value, "image/")
  }

  /** `s.lastIndexOf(c)`. */
  function LastIndexOf(s: string, c: char): (i: int)
    ensures -1 <= i < |s|
    ensures i == -1 <==> c !in s
    ensures i >= 0 ==> s[i] == c && c !in s[i + 1..]
  {
    if s == [] then -1
    else if s[|s| - 1] == c then |s| - 1
    else
      var i := LastIndexOf(s[..|s| - 1], c);
      assert s == s[..|s| - 1] + [s[|s| - 1]];
      assert i >= 0 ==> s[i + 1..] == s[..|s| - 1][i + 1..] + [s[|s| - 1]];
      i
  }

  /** The original name from its last '.' on, or "" when it has none. */
  function Extension(original: Option<string>): (ext: string)
    ensures ext == "" <==> original.None? || '.' !in original.value
    ensures ext != "" ==> ext[0] == '.' && '.' !in ext[1..] && EndsWith(original.value, ext)
  {
    if original.Some? && '.' in original.value then
      var s := original.value;
      var i := LastIndexOf(s, '.');
      assert s[i..][1..] == s[i + 1..];
      s[i..]
    else ""
  }

  /** `uploadAvatar`: the checks in order, then the URL of the stored file
      `uuid + ext`. */
  function UploadAvatar(file: UploadedFile, uuid: string): (r: Result<string, string>)
    ensures file.size == 0 ==> r == Err(EmptyFileMessage)
    ensures file.size > 0 && !IsImage(file.contentType) ==> r == Err(NotImageMessage)
    ensures r.Ok? <==> file.size > 0 && IsImage(file.contentType)
    ensures r.Ok? ==>
      StartsWith(r.value, UploadsPrefix) && EndsWith(r.value, Extension(file.originalFilename)) &&
      r.value[|UploadsPrefix|..] == uuid + Extension(file.originalFilename)
  {
    if file.size == 0 then Err(EmptyFileMessage)
    else if !IsImage(file.contentType) then Err(NotImageMessage)
    else
      var fileName := uuid + Extension(file.originalFilename);
      var url := UploadsPrefix + fileName;
      assert url[|UploadsPrefix|..] == fileName;
      assert url[|url| - |Extension(file.originalFilename)|..] == Extension(file.originalFilename);
      Ok(url)
  }
}
