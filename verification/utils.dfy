/** src/lib/utils.ts: the theme file-name sanitiser, the colour tolerance test
    and the scheme/host check for NFT links. */
module Utils {

  import opened Wrappers
  import opened Text

  // ---------------------------------------------------------------------------
  // makeValidFileName
  // ---------------------------------------------------------------------------

  /** The characters the sanitiser keeps: `[a-z0-9-]`. */
  predicate IsFileNameChar(c: char) {
    ('a' <= c <= 'z') || ('0' <= c <= '9') || c == '-'
  }

  predicate AllFileNameChars(s: string) {
    forall i :: 0 <= i < |s| ==> IsFileNameChar(s[i])
  }

  predicate NoDoubleDash(s: string) {
    forall i :: 0 <= i < |s| - 1 ==> !(s[i] == '-' && s[i + 1] == '-')
  }

  /** What the sanitiser promises of every name it returns. */
  predicate IsValidFileName(s: string) {
    && |s| > 0
    && AllFileNameChars(s)
    && s[0] != '-'
    && s[|s| - 1] != '-'
    && NoDoubleDash(s)
  }

  /** `.replace(/[^a-z0-9-]/g, '-')` */
  function ReplaceInvalid(s: string): (r: string)
    ensures |r| == |s| && AllFileNameChars(r)
    ensures forall i :: 0 <= i < |s| && IsFileNameChar(s[i]) ==> r[i] == s[i]
  {
    seq(|s|, i requires 0 <= i < |s| => if IsFileNameChar(s[i]) then s[i] else '-')
  }

  /** `.replace(/-+/g, '-')`: every run of dashes becomes one dash. */
  function CollapseDashes(s: string): string
    decreases |s|
  {
    if |s| <= 1 then s
    else if s[0] == '-' && s[1] == '-' then CollapseDashes(s[1..])
    else [s[0]] + CollapseDashes(s[1..])
  }

  /** `.replace(/^-|-$/g, '')`: drops one leading and one trailing dash. */
  function StripEdgeDashes(s: string): string {
    var t := if |s| > 0 && s[0] == '-' then s[1..] else s;
    if |t| > 0 && t[|t| - 1] == '-' then t[..|t| - 1] else t
  }

  const FallbackFileName: string := "my-custom-theme"

  function MakeValidFileName(filename: string): string {
    var sanitised := StripEdgeDashes(CollapseDashes(ReplaceInvalid(ToLower(Trim(filename)))));
    if |sanitised| == 0 then FallbackFileName else sanitised
  }

  lemma {:induction false} CollapseKeepsEnds(s: string)
    requires |s| > 0
    ensures |CollapseDashes(s)| > 0
    ensures CollapseDashes(s)[0] == s[0]
    ensures CollapseDashes(s)[|CollapseDashes(s)| - 1] == s[|s| - 1]
    decreases |s|
  {
    if |s| > 1 {
      CollapseKeepsEnds(s[1..]);
    }
  }

  lemma {:induction false} CollapseKeepsChars(s: string)
    requires AllFileNameChars(s)
    ensures AllFileNameChars(CollapseDashes(s))
    decreases |s|
  {
    if |s| > 1 {
      CollapseKeepsChars(s[1..]);
    }
  }

  lemma {:induction false} CollapseNoDoubleDash(s: string)
    ensures NoDoubleDash(CollapseDashes(s))
    decreases |s|
  {
    if |s| > 1 {
      CollapseNoDoubleDash(s[1..]);
      if !(s[0] == '-' && s[1] == '-') {
        CollapseKeepsEnds(s[1..]);
        var r := CollapseDashes(s);
        var tail := CollapseDashes(s[1..]);
        assert r == [s[0]] + tail;
        forall i | 0 <= i < |r| - 1
          ensures !(r[i] == '-' && r[i + 1] == '-')
        {
          if i > 0 {
            assert r[i] == tail[i - 1] && r[i + 1] == tail[i];
          }
        }
      }
    }
  }

  /** A string without runs of dashes is left alone by the collapse. */
  lemma {:induction false} CollapseIdentity(s: string)
    requires NoDoubleDash(s)
    ensures CollapseDashes(s) == s
    decreases |s|
  {
    if |s| > 1 {
      assert NoDoubleDash(s[1..]) by {
        forall i | 0 <= i < |s[1..]| - 1 ensures !(s[1..][i] == '-' && s[1..][i + 1] == '-') {
          assert s[1..][i] == s[i + 1] && s[1..][i + 1] == s[i + 2];
        }
      }
      CollapseIdentity(s[1..]);
      assert !(s[0] == '-' && s[1] == '-');
      assert s == [s[0]] + s[1..];
    }
  }

  lemma StripEdgeDashesValid(s: string)
    requires AllFileNameChars(s) && NoDoubleDash(s)
    ensures var r := StripEdgeDashes(s);
      && AllFileNameChars(r) && NoDoubleDash(r)
      && (|r| > 0 ==> r[0] != '-' && r[|r| - 1] != '-')
  {
    var t := if |s| > 0 && s[0] == '-' then s[1..] else s;
    assert AllFileNameChars(t) && NoDoubleDash(t);
    assert |t| > 0 ==> t[0] != '-' by {
      if |s| > 0 && s[0] == '-' && |t| > 0 {
        assert t[0] == s[1];
      }
    }
    if |t| > 1 && t[|t| - 1] == '-' {
      assert t[|t| - 2] != '-';
    }
  }

  /** makeValidFileName's output uses only `a-z`, `0-9` and `-`, never begins or
      ends with `-`, never holds `--`, and is never empty. */
  lemma MakeValidFileNameIsValid(filename: string)
    ensures IsValidFileName(MakeValidFileName(filename))
  {
    var replaced := ReplaceInvalid(ToLower(Trim(filename)));
    CollapseKeepsChars(replaced);
    CollapseNoDoubleDash(replaced);
    StripEdgeDashesValid(CollapseDashes(replaced));
    assert IsValidFileName(FallbackFileName);
  }

  lemma TrimKeepsFileNameChars(s: string)
    requires |s| > 0 && IsFileNameChar(s[0]) && IsFileNameChar(s[|s| - 1])
    ensures Trim(s) == s
  {
    assert !IsWhitespace(s[0]);
    assert TrimStart(s) == s;
    assert !IsWhitespace(s[|s| - 1]);
  }

  lemma LowerKeepsFileNameChars(s: string)
    requires AllFileNameChars(s)
    ensures ToLower(s) == s && ReplaceInvalid(s) == s
  {
    assert forall i :: 0 <= i < |s| ==> LowerChar(s[i]) == s[i];
  }

  /** A name the sanitiser would return is returned unchanged. */
  lemma MakeValidFileNameFixesValid(name: string)
    requires IsValidFileName(name)
    ensures MakeValidFileName(name) == name
  {
    TrimKeepsFileNameChars(name);
    LowerKeepsFileNameChars(name);
    CollapseIdentity(name);
    assert StripEdgeDashes(name) == name;
  }

  /** Sanitising twice is the same as sanitising once. */
  lemma MakeValidFileNameIdempotent(filename: string)
    ensures MakeValidFileName(MakeValidFileName(filename)) == MakeValidFileName(filename)
  {
    MakeValidFileNameIsValid(filename);
    MakeValidFileNameFixesValid(MakeValidFileName(filename));
  }

  // ---------------------------------------------------------------------------
  // areColorsEqual
  // ---------------------------------------------------------------------------

  /** Channels are JavaScript numbers, so they may be fractional. */
  datatype Rgb = Rgb(r: real, g: real, b: real)

  function Abs(x: real): (r: real)
    ensures r >= 0.0 && (r == x || r == -x)
  {
    if x < 0.0 then -x else x
  }

  /** Each channel differs by at most one. */
  predicate AreColorsEqual(c1: Rgb, c2: Rgb) {
    Abs(c1.r - c2.r) <= 1.0 && Abs(c1.g - c2.g) <= 1.0 && Abs(c1.b - c2.b) <= 1.0
  }

  /** Largest channel difference (Chebyshev distance) between two colours. */
  function ChannelDistance(c1: Rgb, c2: Rgb): (d: real)
    ensures d >= Abs(c1.r - c2.r) && d >= Abs(c1.g - c2.g) && d >= Abs(c1.b - c2.b)
    ensures d == Abs(c1.r - c2.r) || d == Abs(c1.g - c2.g) || d == Abs(c1.b - c2.b)
  {
    var rg := if Abs(c1.r - c2.r) < Abs(c1.g - c2.g) then Abs(c1.g - c2.g) else Abs(c1.r - c2.r);
    if rg < Abs(c1.b - c2.b) then Abs(c1.b - c2.b) else rg
  }

  /** Two colours count as equal exactly when their channel distance is at most
      one; the relation is reflexive and symmetric. */
  lemma AreColorsEqualMeaning(c1: Rgb, c2: Rgb)
    ensures AreColorsEqual(c1, c2) <==> ChannelDistance(c1, c2) <= 1.0
    ensures AreColorsEqual(c1, c1)
    ensures AreColorsEqual(c1, c2) <==> AreColorsEqual(c2, c1)
  {
  }

  // ---------------------------------------------------------------------------
  // isValidUrl
  // ---------------------------------------------------------------------------

  /** The scheme test: the input, left-trimmed and lower-cased, starts with
      `http://` or `https://`. */
  predicate HasHttpScheme(str: string) {
    var trimmed := ToLower(TrimStart(str));
    StartsWith(trimmed, "http://") || StartsWith(trimmed, "https://")
  }

  /** `isValidUrl(str)`. `hostnameOf` stands for `new URL(str).hostname`; `None`
      means the URL constructor throws. The result `None` is the function's
      `undefined` (it falls off the end when the scheme test fails). */
  function IsValidUrl(str: string, hostnameOf: string -> Option<string>): (r: Option<bool>)
    ensures r.None? <==> !HasHttpScheme(str)
    ensures r == Some(true) <==>
      && HasHttpScheme(str)
      && hostnameOf(str).Some?
      && ToLower(hostnameOf(str).value) != "localhost"
      && hostnameOf(str).value != "127.0.0.1"
  {
    if HasHttpScheme(str) then
      match hostnameOf(str)
      case None => Some(false)
      case Some(hostname) => Some(ToLower(hostname) != "localhost" && hostname != "127.0.0.1")
    else None
  }
}
