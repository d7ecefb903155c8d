/** String helpers that the source gets from the JavaScript runtime:
    `String.prototype.trim`, the decimal rendering of a number inside a
    template string, and the lowercase hexadecimal encoding of a byte buffer
    (`Buffer.toString('hex')`). */
module Text {
  import opened Wrappers

  newtype byte = x: int | 0 <= x < 256

  /** JavaScript truthiness of an optional string: present and non-empty. */
  predicate Truthy(v: Option<string>) {
    v.Some? && v.value != ""
  }

  /** `v || d`: the value when it is truthy, the default otherwise. */
  function Or(v: Option<string>, d: string): string {
    if v.None? || v.value == "" then d else v.value
  }

  /** The characters `trim` strips: the ECMAScript WhiteSpace set (tab,
      vertical tab, form feed, space, no-break space, byte order mark and the
      Unicode space separators) and the LineTerminator set. */
  const JsSpaces: set<char> := {
    '\t', '\U{000B}', '\U{000C}', ' ', '\U{00A0}', '\U{FEFF}', '\U{1680}',
    '\U{2000}', '\U{2001}', '\U{2002}', '\U{2003}', '\U{2004}', '\U{2005}',
    '\U{2006}', '\U{2007}', '\U{2008}', '\U{2009}', '\U{200A}',
    '\U{202F}', '\U{205F}', '\U{3000}',
    '\n', '\r', '\U{2028}', '\U{2029}'
  }

  predicate IsJsSpace(c: char) {
    c in JsSpaces
  }

  predicate AllSpace(s: string) {
    forall k :: 0 <= k < |s| ==> IsJsSpace(s[k])
  }

  /** JavaScript's `s.trim()`: `s` without its leading and trailing whitespace. */
  function Trim(s: string): (r: string)
    ensures |r| <= |s|
    ensures r != [] ==> !IsJsSpace(r[0]) && !IsJsSpace(r[|r| - 1])
  {
    if s == [] then s
    else if IsJsSpace(s[0]) then Trim(s[1..])
    else if IsJsSpace(s[|s| - 1]) then Trim(s[..|s| - 1])
    else s
  }

  /** `r` sits in `s` at `lo` with only whitespace before and after it. */
  predicate Core(s: string, lo: nat, r: string) {
    && lo + |r| <= |s|
    && (forall k :: 0 <= k < |r| ==> r[k] == s[lo + k])
    && (forall k :: 0 <= k < lo ==> IsJsSpace(s[k]))
    && (forall k :: lo + |r| <= k < |s| ==> IsJsSpace(s[k]))
  }

  lemma CoreAfterSpace(s: string, lo: nat, r: string)
    requires s != [] && IsJsSpace(s[0]) && Core(s[1..], lo, r)
    ensures Core(s, lo + 1, r)
  {
    assert forall k :: 1 <= k < |s| ==> s[k] == s[1..][k - 1];
  }

  lemma CoreBeforeSpace(s: string, lo: nat, r: string)
    requires s != [] && IsJsSpace(s[|s| - 1]) && Core(s[..|s| - 1], lo, r)
    ensures Core(s, lo, r)
  {
    assert forall k :: 0 <= k < |s| - 1 ==> s[k] == s[..|s| - 1][k];
  }

  /** Where the trim starts inside `s`: before it and after it there is only
      whitespace, and in between `s` agrees with the trim. */
  lemma {:induction false} TrimStart(s: string) returns (lo: nat)
    ensures Core(s, lo, Trim(s))
    decreases |s|
  {
    if s == [] {
      lo := 0;
    } else if IsJsSpace(s[0]) {
      var l := TrimStart(s[1..]);
      CoreAfterSpace(s, l, Trim(s));
      lo := l + 1;
    } else if IsJsSpace(s[|s| - 1]) {
      lo := TrimStart(s[..|s| - 1]);
      CoreBeforeSpace(s, lo, Trim(s));
    } else {
      lo := 0;
    }
  }

  /** The trim is a slice of `s`, and everything cut off is whitespace. */
  lemma TrimSlice(s: string)
    ensures exists lo :: 0 <= lo <= |s| - |Trim(s)| && Trim(s) == s[lo..lo + |Trim(s)|]
                         && AllSpace(s[..lo]) && AllSpace(s[lo + |Trim(s)|..])
  {
    var lo := TrimStart(s);
    var hi := lo + |Trim(s)|;
    assert Trim(s) == s[lo..hi];
    assert AllSpace(s[..lo]);
    assert forall k :: 0 <= k < |s| - hi ==> s[hi..][k] == s[hi + k];
  }

  /** The trim is empty exactly when the string is all whitespace. */
  lemma {:induction false} TrimEmptyIffAllSpace(s: string)
    ensures Trim(s) == [] <==> AllSpace(s)
  {
    if s != [] {
      if IsJsSpace(s[0]) {
        TrimEmptyIffAllSpace(s[1..]);
        assert forall k :: 1 <= k < |s| ==> s[k] == s[1..][k - 1];
      } else if IsJsSpace(s[|s| - 1]) {
        TrimEmptyIffAllSpace(s[..|s| - 1]);
        assert forall k :: 0 <= k < |s| - 1 ==> s[k] == s[..|s| - 1][k];
      }
    }
  }

  /** A string with no whitespace at either end is its own trim. */
  lemma TrimOfTrimmed(s: string)
    requires s != [] ==> !IsJsSpace(s[0]) && !IsJsSpace(s[|s| - 1])
    ensures Trim(s) == s
  {
  }

  /** Trimming twice is trimming once. */
  lemma TrimIdempotent(s: string)
    ensures Trim(Trim(s)) == Trim(s)
  {
    TrimOfTrimmed(Trim(s));
  }

  function DigitChar(d: int): (c: char)
    requires 0 <= d < 10
    ensures '0' <= c <= '9' && c as int - '0' as int == d
  {
    ['0', '1', '2', '3', '4', '5', '6', '7', '8', '9'][d]
  }

  predicate IsDigits(s: string) {
    forall k :: 0 <= k < |s| ==> '0' <= s[k] <= '9'
  }

  /** The decimal rendering of `n`, as `${n}` writes a non-negative integer. */
  function NatToString(n: nat): (r: string)
    ensures |r| > 0 && IsDigits(r)
    ensures r[0] == '0' ==> n == 0
  {
    if n < 10 then [DigitChar(n)] else NatToString(n / 10) + [DigitChar(n % 10)]
  }

  /** The number a string of decimal digits denotes. */
  function DigitsValue(s: string): nat
    requires IsDigits(s)
  {
    if s == [] then 0
    else 10 * DigitsValue(s[..|s| - 1]) + (s[|s| - 1] as int - '0' as int)
  }

  /** Reading back the decimal rendering gives the number again. */
  lemma {:induction false} NatToStringRoundTrip(n: nat)
    ensures DigitsValue(NatToString(n)) == n
  {
    if n >= 10 {
      NatToStringRoundTrip(n / 10);
      var s := NatToString(n);
      assert s[..|s| - 1] == NatToString(n / 10);
    }
  }

  /** Different numbers render differently. */
  lemma NatToStringInjective(m: nat, n: nat)
    requires NatToString(m) == NatToString(n)
    ensures m == n
  {
    NatToStringRoundTrip(m);
    NatToStringRoundTrip(n);
  }

  predicate IsLowerHex(c: char) {
    '0' <= c <= '9' || 'a' <= c <= 'f'
  }

  function HexDigit(v: int): (c: char)
    requires 0 <= v < 16
    ensures IsLowerHex(c)
  {
    "0123456789abcdef"[v]
  }

  function HexValue(c: char): (v: int)
    requires IsLowerHex(c)
    ensures 0 <= v < 16
  {
    if c <= '9' then c as int - '0' as int else c as int - 'a' as int + 10
  }

  /** `Buffer.toString('hex')`: two lowercase hexadecimal digits per byte,
      high nibble first. */
  function HexEncode(b: seq<byte>): (r: string)
    ensures |r| == 2 * |b|
    ensures forall k :: 0 <= k < |r| ==> IsLowerHex(r[k])
  {
    if b == [] then []
    else [HexDigit(b[0] as int / 16), HexDigit(b[0] as int % 16)] + HexEncode(b[1..])
  }

  function HexDecode(s: string): seq<byte>
    requires |s| % 2 == 0
    requires forall k :: 0 <= k < |s| ==> IsLowerHex(s[k])
  {
    if s == [] then [] else [(16 * HexValue(s[0]) + HexValue(s[1])) as byte] + HexDecode(s[2..])
  }

  /** The hexadecimal encoding loses nothing. */
  lemma {:induction false} HexRoundTrip(b: seq<byte>)
    ensures HexDecode(HexEncode(b)) == b
  {
    if b != [] {
      HexRoundTrip(b[1..]);
      var hi, lo := b[0] as int / 16, b[0] as int % 16;
      var e := HexEncode(b);
      assert e == [HexDigit(hi), HexDigit(lo)] + HexEncode(b[1..]);
      assert e[2..] == HexEncode(b[1..]);
      HexDigitValue(hi);
      HexDigitValue(lo);
      assert 16 * hi + lo == b[0] as int;
    }
  }

  lemma HexDigitValue(v: int)
    requires 0 <= v < 16
    ensures HexValue(HexDigit(v)) == v
  {
  }
}
