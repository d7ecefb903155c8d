/** The Supabase upload helper (`uploadImageToSupabase`): it splits the data
    URL, names the file after the clock and a random fragment, uploads the
    payload to the `images` bucket, and collapses every failure into one
    error message. */
module Supabase {
  import opened Wrappers
  import opened Text
  import opened DataUrl

  const Bucket: string := "images"
  const Folder: string := "gera-materias/"
  const CacheControl: string := "3600"
  const UploadFailure: string := "Failed to upload image to Supabase"

  /** The storage `upload` call: bucket, object path, options, and the
      base64 text whose decoding is the uploaded buffer. */
  datatype Upload = Upload(
    bucket: string,
    path: string,
    contentType: string,
    cacheControl: string,
    upsert: bool,
    data: string)

  /** The storage call made, if any, and what the caller gets. */
  datatype Run = Run(call: Option<Upload>, result: Result<string, string>)

  /** `${Date.now()}-${fragment}.${extension}`. */
  function FileName(now: nat, fragment: string, ext: string): string {
    NatToString(now) + "-" + fragment + "." + ext
  }

  function FilePath(now: nat, fragment: string, ext: string): string {
    Folder + FileName(now, fragment, ext)
  }

  /** `uploadImageToSupabase`. `configured` says whether the client exists,
      `now` is the clock in milliseconds, `fragment` the random name part,
      `uploadOk` whether storage accepts the object and `publicUrl` what
      `getPublicUrl` gives for a path. */
  function UploadImage(input: string, configured: bool, now: nat, fragment: string,
                       uploadOk: bool, publicUrl: string -> string): (r: Run)
    ensures r.result.Err? ==> r.result.error == UploadFailure
    ensures r.result.Ok? ==> r.call.Some? && r.result.value == publicUrl(r.call.value.path)
    ensures r.call.Some? ==> r.call.value.bucket == Bucket && !r.call.value.upsert
  {
    if !configured then Run(None, Err(UploadFailure))
    else
      match Parse(input)
      case None => Run(None, Err(UploadFailure))
      case Some(img) =>
        var path := FilePath(now, fragment, img.ext);
        var call := Upload(Bucket, path, "image/" + img.ext, CacheControl, false, img.data);
        if uploadOk then Run(Some(call), Ok(publicUrl(path)))
        else Run(Some(call), Err(UploadFailure))
  }

  /** For a data URL of `img` and a configured client, the object goes to
      `gera-materias/<now>-<fragment>.<ext>` in the `images` bucket with
      content type `image/<ext>`, no overwrite and a one-hour cache, and the
      caller gets the object's public URL or the single failure message. */
  lemma UploadAccepted(input: string, img: Image, now: nat, fragment: string,
                       uploadOk: bool, publicUrl: string -> string)
    requires Matches(input, img)
    ensures var r := UploadImage(input, true, now, fragment, uploadOk, publicUrl);
      && r.call.Some?
      && r.call.value == Upload("images", "gera-materias/" + FileName(now, fragment, img.ext),
                                "image/" + img.ext, "3600", false, img.data)
      && "data:image/" + img.ext + ";base64," + r.call.value.data == input
      && (uploadOk ==> r.result == Ok(publicUrl(r.call.value.path)))
      && (!uploadOk ==> r.result == Err("Failed to upload image to Supabase"))
  {
    ParseComplete(input, img);
  }

  /** An unconfigured client or an input that is not a data URL makes no
      storage call and reports the single failure message. */
  lemma UploadRejected(input: string, configured: bool, now: nat, fragment: string,
                       uploadOk: bool, publicUrl: string -> string)
    requires !configured || !HasImage(input)
    ensures UploadImage(input, configured, now, fragment, uploadOk, publicUrl)
            == Run(None, Err("Failed to upload image to Supabase"))
  {
    ParseNoneIff(input);
  }

  /** The caller gets a URL exactly when the client is configured, the input
      is a data URL and storage accepts it; otherwise the one message. */
  lemma UploadOutcome(input: string, configured: bool, now: nat, fragment: string,
                      uploadOk: bool, publicUrl: string -> string)
    ensures var r := UploadImage(input, configured, now, fragment, uploadOk, publicUrl);
      && (r.result.Ok? <==> configured && HasImage(input) && uploadOk)
      && (r.result.Err? ==> r.result.error == "Failed to upload image to Supabase")
      && (r.call.Some? <==> configured && HasImage(input))
  {
    ParseNoneIff(input);
  }

  /** The file name ends with `.` and the type, and names made at different
      clock readings differ, whatever their fragments and types. */
  lemma FileNameSpec(now: nat, fragment: string, ext: string,
                     later: nat, otherFragment: string, otherExt: string)
    requires later != now
    ensures var name := FileName(now, fragment, ext);
      && |name| > |ext| && name[|name| - |ext| - 1..] == "." + ext
      && FileName(later, otherFragment, otherExt) != name
  {
    var name := FileName(now, fragment, ext);
    assert name == (NatToString(now) + "-" + fragment) + ("." + ext);
    if FileName(later, otherFragment, otherExt) == name {
      assert name == NatToString(now) + "-" + (fragment + "." + ext);
      assert FileName(later, otherFragment, otherExt)
        == NatToString(later) + "-" + (otherFragment + "." + otherExt);
      ClockPrefix(later, now, otherFragment + "." + otherExt, fragment + "." + ext);
      NatToStringInjective(later, now);
    }
  }

  /** The clock reading is the text before the first `-`, since a decimal
      rendering has no `-` in it. */
  lemma ClockPrefix(a: nat, b: nat, r1: string, r2: string)
    requires NatToString(a) + "-" + r1 == NatToString(b) + "-" + r2
    ensures NatToString(a) == NatToString(b)
  {
    var x, y := NatToString(a), NatToString(b);
    var s := x + "-" + r1;
    assert s == y + "-" + r2;
    assert forall k :: 0 <= k < |x| ==> s[k] == x[k];
    assert forall k :: 0 <= k < |y| ==> s[k] == y[k];
    assert s[|x|] == '-' && s[|y|] == '-';
    assert |x| == |y|;
    assert x == s[..|x|];
    assert y == s[..|y|];
  }
}
