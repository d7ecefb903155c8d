/** The data-URL splitting both image helpers share: the pattern
    `^data:image\/(\w+);base64,(.+)$`, written out as a hand-made parser and
    proved to accept exactly the strings of that form. */
module DataUrl {
  import opened Wrappers

  const Scheme: string := "data:image/"
  const Marker: string := ";base64,"

  /** `\w`: an ASCII letter, digit or underscore. */
  predicate IsWordChar(c: char) {
    ('A' <= c <= 'Z') || ('a' <= c <= 'z') || ('0' <= c <= '9') || c == '_'
  }

  /** The characters `.` does not match: the ECMAScript line terminators. */
  predicate IsLineTerminator(c: char) {
    c == '\n' || c == '\r' || c == '\U{2028}' || c == '\U{2029}'
  }

  /** What `(\w+)` captures. */
  predicate IsWord(s: string) {
    |s| > 0 && forall k :: 0 <= k < |s| ==> IsWordChar(s[k])
  }

  /** What `(.+)` captures when followed by the end of the input. */
  predicate IsLine(s: string) {
    |s| > 0 && forall k :: 0 <= k < |s| ==> !IsLineTerminator(s[k])
  }

  /** The two captured groups: the image type and the base64 text. */
  datatype Image = Image(ext: string, data: string)

  /** `s` is the data URL of `img`: the pattern matches `s` with these groups. */
  predicate Matches(s: string, img: Image) {
    IsWord(img.ext) && IsLine(img.data) && s == Scheme + img.ext + Marker + img.data
  }

  /** The pattern matches `s` at all. */
  ghost predicate HasImage(s: string) {
    exists img :: Matches(s, img)
  }

  function Format(img: Image): string {
    Scheme + img.ext + Marker + img.data
  }

  /** The end of the run of word characters starting at `i`. */
  function WordEnd(s: string, i: nat): (j: nat)
    requires i <= |s|
    ensures i <= j <= |s|
    ensures forall k :: i <= k < j ==> IsWordChar(s[k])
    ensures j < |s| ==> !IsWordChar(s[j])
    decreases |s| - i
  {
    if i < |s| && IsWordChar(s[i]) then WordEnd(s, i + 1) else i
  }

  predicate NoLineTerminator(s: string) {
    forall k :: 0 <= k < |s| ==> !IsLineTerminator(s[k])
  }

  /** `s.match(...)`: the captured groups, or `None` when there is no match. */
  function Parse(s: string): (r: Option<Image>)
    ensures r.Some? ==> IsWord(r.value.ext) && IsLine(r.value.data)
  {
    if |s| < |Scheme| || s[..|Scheme|] != Scheme then None
    else
      var e := WordEnd(s, |Scheme|);
      if e == |Scheme| || |s| - e < |Marker| || s[e..e + |Marker|] != Marker then None
      else
        var data := s[e + |Marker|..];
        if data == [] || !NoLineTerminator(data) then None
        else Some(Image(s[|Scheme|..e], data))
  }

  /** Whatever the parser returns is a match. */
  lemma ParseSound(s: string)
    ensures Parse(s).Some? ==> Matches(s, Parse(s).value)
  {
    if Parse(s).Some? {
      var e := WordEnd(s, |Scheme|);
      var img := Parse(s).value;
      assert s == s[..|Scheme|] + s[|Scheme|..e] + s[e..e + |Marker|] + s[e + |Marker|..];
    }
  }

  /** The word run of `ext + rest` ends where `ext` does, since `rest` opens
      with a non-word character. */
  lemma {:induction false} WordEndAt(s: string, i: nat, j: nat)
    requires i <= j < |s|
    requires forall k :: i <= k < j ==> IsWordChar(s[k])
    requires !IsWordChar(s[j])
    ensures WordEnd(s, i) == j
    decreases j - i
  {
    if i < j {
      WordEndAt(s, i + 1, j);
    }
  }

  /** Every match is found, with the same groups. */
  lemma ParseComplete(s: string, img: Image)
    requires Matches(s, img)
    ensures Parse(s) == Some(img)
  {
    var n, m := |Scheme|, |img.ext|;
    assert s == Scheme + (img.ext + (Marker + img.data));
    assert s[..n] == Scheme;
    assert s[n..n + m] == img.ext;
    assert s[n + m..n + m + |Marker|] == Marker;
    assert s[n + m + |Marker|..] == img.data;
    assert s[n + m] == Marker[0] == ';';
    WordEndAt(s, n, n + m);
  }

  /** The parser and the pattern agree in both directions. */
  lemma ParseIff(s: string, img: Image)
    ensures Parse(s) == Some(img) <==> Matches(s, img)
  {
    ParseSound(s);
    if Matches(s, img) {
      ParseComplete(s, img);
    }
  }

  /** The parser fails exactly on strings the pattern does not match. */
  lemma ParseNoneIff(s: string)
    ensures Parse(s).None? <==> !HasImage(s)
  {
    ParseSound(s);
    if HasImage(s) {
      var img :| Matches(s, img);
      ParseComplete(s, img);
    }
  }

  /** The groups are determined by the string: the type is the text
      between the scheme and the first `;`, since a type has no `;` in it. */
  lemma MatchUnique(s: string, a: Image, b: Image)
    requires Matches(s, a) && Matches(s, b)
    ensures a == b
    ensures |Scheme| + |a.ext| < |s| && s[|Scheme| + |a.ext|] == ';'
    ensures forall k :: 0 <= k < |Scheme| + |a.ext| ==> s[k] != ';'
    ensures s[|Scheme|..|Scheme| + |a.ext|] == a.ext
  {
    ParseComplete(s, a);
    ParseComplete(s, b);
    assert s == Scheme + (a.ext + (Marker + a.data));
    assert forall k :: |Scheme| <= k < |Scheme| + |a.ext| ==> s[k] == a.ext[k - |Scheme|];
  }

  /** Formatting a type and a payload of the right shape and parsing the
      result gives them back. */
  lemma FormatRoundTrip(img: Image)
    requires IsWord(img.ext) && IsLine(img.data)
    ensures Parse(Format(img)) == Some(img)
  {
    ParseComplete(Format(img), img);
  }
}
