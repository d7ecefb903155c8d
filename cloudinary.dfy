/** The local image store (`saveImageLocally`): it splits the data URL,
    names the file with 16 random bytes in hexadecimal, writes it under the
    public uploads directory, and returns its public path. */
module Cloudinary {
  import opened Wrappers
  import opened Text
  import opened DataUrl

  const SaveFailure: string := "Failed to save image"
  const UploadsPath: string := "/uploads/"

  /** A file written to the uploads directory: its name and the base64 text
      whose decoding is its content. */
  datatype Saved = Saved(name: string, data: string)

  datatype Run = Run(saved: Option<Saved>, result: Result<string, string>)

  /** `${crypto.randomBytes(16).toString('hex')}.${extension}`. */
  function FileName(random: seq<byte>, ext: string): string {
    HexEncode(random) + "." + ext
  }

  /** `saveImageLocally`. `random` is the 16 bytes drawn for the name and
      `fsOk` whether creating the directory and writing the file succeed. */
  function SaveImage(input: string, random: seq<byte>, fsOk: bool): (r: Run)
    requires |random| == 16
    ensures r.result.Err? ==> r.result.error == SaveFailure
    ensures r.saved.Some? <==> r.result.Ok?
    ensures r.result.Ok? ==> r.result.value == UploadsPath + r.saved.value.name
  {
    match Parse(input)
    case None => Run(None, Err(SaveFailure))
    case Some(img) =>
      var name := FileName(random, img.ext);
      if fsOk then Run(Some(Saved(name, img.data)), Ok(UploadsPath + name))
      else Run(None, Err(SaveFailure))
  }

  /** For a data URL of `img` the file is named with 32 lowercase hex digits,
      a dot and the type, it holds the payload, and the caller gets
      `/uploads/<name>`; a failing write gives the single failure message. */
  lemma SaveAccepted(input: string, img: Image, random: seq<byte>, fsOk: bool)
    requires |random| == 16 && Matches(input, img)
    ensures var r := SaveImage(input, random, fsOk);
      var name := FileName(random, img.ext);
      && |name| == 33 + |img.ext|
      && (forall k :: 0 <= k < 32 ==> IsLowerHex(name[k]))
      && name[32..] == "." + img.ext
      && (fsOk ==> r == Run(Some(Saved(name, img.data)), Ok("/uploads/" + name)))
      && (!fsOk ==> r == Run(None, Err("Failed to save image")))
  {
    ParseComplete(input, img);
    var name := FileName(random, img.ext);
    assert name == HexEncode(random) + ("." + img.ext);
    assert forall k :: 0 <= k < 32 ==> name[k] == HexEncode(random)[k];
  }

  /** An input that is not a data URL writes nothing and reports the single
      failure message. */
  lemma SaveRejected(input: string, random: seq<byte>, fsOk: bool)
    requires |random| == 16 && !HasImage(input)
    ensures SaveImage(input, random, fsOk) == Run(None, Err("Failed to save image"))
  {
    ParseNoneIff(input);
  }

  /** The caller gets a path exactly when the input is a data URL and the
      write succeeds, and a file is written in exactly those cases. */
  lemma SaveOutcome(input: string, random: seq<byte>, fsOk: bool)
    requires |random| == 16
    ensures var r := SaveImage(input, random, fsOk);
      && (r.result.Ok? <==> HasImage(input) && fsOk)
      && (r.saved.Some? <==> r.result.Ok?)
      && (r.result.Err? ==> r.result.error == "Failed to save image")
      && (r.result.Ok? ==> r.result.value == "/uploads/" + r.saved.value.name)
  {
    ParseNoneIff(input);
  }

  /** Different random bytes give different file names. */
  lemma FileNameInjective(a: seq<byte>, b: seq<byte>, ext: string)
    requires |a| == 16 && |b| == 16 && FileName(a, ext) == FileName(b, ext)
    ensures a == b
  {
    assert HexEncode(a) == FileName(a, ext)[..32];
    assert HexEncode(b) == FileName(b, ext)[..32];
    HexRoundTrip(a);
    HexRoundTrip(b);
  }
}
