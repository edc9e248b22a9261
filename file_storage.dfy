/** Naming of stored resume files: the extension of the uploaded file's
    original name, appended to a freshly generated token. The copy to disk
    is an input (it succeeded or it failed); the token is an input chosen by
    the caller (the source draws a random UUID). */
module FileStorage {
  import opened Util

  /** `String.lastIndexOf(c)`: the last position holding `c`, or -1. */
  function LastIndexOf(s: string, c: char): (k: int)
    ensures -1 <= k < |s|
    ensures k == -1 <==> c !in s
    ensures k >= 0 ==> s[k] == c && c !in s[k + 1..]
  {
    if |s| == 0 then -1
    else if s[|s| - 1] == c then |s| - 1
    else
      assert s == s[..|s| - 1] + [s[|s| - 1]];
      LastIndexOf(s[..|s| - 1], c)
  }

  /** The extension kept from the original file name: empty when the name
      is null or has no '.', else everything from the last '.' on. */
  function Extension(originalFilename: Option<string>): (ext: string)
    ensures originalFilename.None? || '.' !in originalFilename.value ==> ext == ""
    ensures originalFilename.Some? && '.' in originalFilename.value ==>
      && IsSuffix(ext, originalFilename.value)
      && |ext| >= 1 && ext[0] == '.' && '.' !in ext[1..]
    ensures originalFilename.Some? ==> IsSuffix(ext, originalFilename.value)
  {
    if originalFilename.Some? && '.' in originalFilename.value then
      var name := originalFilename.value;
      name[LastIndexOf(name, '.')..]
    else
      ""
  }

  /** The name the file is stored under: the token, then the extension. */
  function StoredName(token: string, originalFilename: Option<string>): (fileName: string)
    ensures |fileName| >= |token| && fileName[..|token|] == token
    ensures IsSuffix(Extension(originalFilename), fileName)
  {
    token + Extension(originalFilename)
  }

  /** Result of `storeFile`: the stored name, or the exception raised when
      the copy fails. */
  datatype StoreResult = Stored(fileName: string) | StoreFailed(message: string)

  /** Java's string conversion of a possibly-null string. */
  function JavaString(s: Option<string>): string {
    if s.Some? then s.value else "null"
  }

  /** `storeFile`: a name is returned only when the copy succeeded. */
  function StoreFile(token: string, originalFilename: Option<string>, copySucceeds: bool): (r: StoreResult)
    ensures r.Stored? <==> copySucceeds
    ensures r.Stored? ==> r.fileName == StoredName(token, originalFilename)
    ensures r.StoreFailed? ==>
      r.message == "Could not store file " + JavaString(originalFilename) + ". Please try again!"
  {
    if copySucceeds then Stored(StoredName(token, originalFilename))
    else StoreFailed("Could not store file " + JavaString(originalFilename) + ". Please try again!")
  }

  /** The extension is the only suffix of the name that starts with '.' and
      holds no other '.'. */
  lemma ExtensionIsUniqueDotSuffix(name: string, e: string)
    requires IsSuffix(e, name) && |e| >= 1 && e[0] == '.' && '.' !in e[1..]
    ensures Extension(Some(name)) == e
  {
    assert name[|name| - |e|] == e[0];
  }

  /** The shape of `UUID.toString()`: 36 characters, hyphens at positions
      8, 13, 18 and 23, hexadecimal digits elsewhere. */
  predicate IsUuidText(t: string) {
    && |t| == 36
    && forall i :: 0 <= i < 36 ==>
         if i in {8, 13, 18, 23} then t[i] == '-'
         else '0' <= t[i] <= '9' || 'a' <= t[i] <= 'f'
  }

  /** A stored name keeps the original's extension: taking the extension of
      the stored name again gives back the same extension, for every token
      without a '.', and so for every UUID text. */
  lemma StoredNameKeepsExtension(token: string, originalFilename: Option<string>)
    requires '.' !in token
    ensures Extension(Some(StoredName(token, originalFilename))) == Extension(originalFilename)
  {
    var ext := Extension(originalFilename);
    var stored := StoredName(token, originalFilename);
    if ext == "" {
      assert stored == token;
    } else {
      assert stored[|token|..] == ext;
      ExtensionIsUniqueDotSuffix(stored, ext);
    }
  }

  lemma UuidHasNoDot(t: string)
    requires IsUuidText(t)
    ensures '.' !in t
  {
  }
}
