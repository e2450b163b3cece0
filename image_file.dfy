/** The file a user drops or picks, and the MIME filter the drop zone applies to it. */
module ImageFile {

  /** A browser `File`, reduced to what the page reads from it; the bytes themselves
      are only forwarded to the inference endpoint and are not modelled. */
  datatype File = File(name: string, size: nat, mimeType: string)

  /** The prefix a declared MIME type must carry for a dropped file to be adopted. */
  const ImagePrefix: string := "image/"

  /** JavaScript's `String.prototype.startsWith`, defined character by character. */
  function StartsWith(s: string, prefix: string): (r: bool)
    ensures r <==> |prefix| <= |s| && s[..|prefix|] == prefix
  {
    if prefix == [] then true
    else if s == [] || s[0] != prefix[0] then false
    else
      var r := StartsWith(s[1..], prefix[1..]);
      assert r ==> s[..|prefix|] == [s[0]] + s[1..][..|prefix| - 1];
      assert |prefix| <= |s| && s[..|prefix|] == prefix ==> s[1..][..|prefix| - 1] == prefix[1..];
      r
  }

  /** The drop handler's test `file.type.startsWith("image/")`. */
  predicate IsImageType(mimeType: string)
  {
    StartsWith(mimeType, ImagePrefix)
  }
}
