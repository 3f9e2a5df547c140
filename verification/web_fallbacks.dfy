/** The web fallback of the platform query: a classification of the browser's
    user agent. */
module WebFallbacks {
  import opened Wrappers
  import opened Text

  datatype Platform = Ios | Android | Macos | Windows | Linux | Web

  /** Whether the pattern for `p` tests true on a lower-cased user agent:
      `/iphone|ipad|ipod/`, `/android/`, `/mac/`, `/win/`, `/linux/`. Nothing
      tests for `Web`. */
  predicate Tests(ua: string, p: Platform) {
    match p
    case Ios => Contains(ua, "iphone") || Contains(ua, "ipad") || Contains(ua, "ipod")
    case Android => Contains(ua, "android")
    case Macos => Contains(ua, "mac")
    case Windows => Contains(ua, "win")
    case Linux => Contains(ua, "linux")
    case Web => false
  }

  /** The order in which the patterns are tried. */
  function Rank(p: Platform): nat {
    match p
    case Ios => 0
    case Android => 1
    case Macos => 2
    case Windows => 3
    case Linux => 4
    case Web => 5
  }

  /** `getPlatform`: `None` when there is no `window`, otherwise the user
      agent, which is lower-cased before the tests. */
  function GetPlatform(userAgent: Option<string>): (r: Platform)
    ensures userAgent.None? ==> r == Web
  {
    match userAgent
    case None => Web
    case Some(agent) =>
      var ua := ToLower(agent);
      if Tests(ua, Ios) then Ios
      else if Tests(ua, Android) then Android
      else if Tests(ua, Macos) then Macos
      else if Tests(ua, Windows) then Windows
      else if Tests(ua, Linux) then Linux
      else Web
  }

  /** The first pattern that tests true decides: a user agent classifies as
      `p` exactly when `p`'s pattern matches and no earlier one does. */
  lemma GetPlatformIsFirstMatch(agent: string, p: Platform)
    requires p != Web
    ensures GetPlatform(Some(agent)) == p
      <==> Tests(ToLower(agent), p) && forall q :: Rank(q) < Rank(p) ==> !Tests(ToLower(agent), q)
  {
  }

  /** A user agent matching none of the patterns is `web`, and only such one. */
  lemma GetPlatformWebIffNoMatch(agent: string)
    ensures GetPlatform(Some(agent)) == Web <==> forall q :: !Tests(ToLower(agent), q)
  {
  }

  /** Android user agents also name Linux; they still classify as Android. */
  lemma AndroidBeforeLinux(agent: string)
    requires !Tests(ToLower(agent), Ios)
    requires Contains(ToLower(agent), "android") && Contains(ToLower(agent), "linux")
    ensures GetPlatform(Some(agent)) == Android
  {
  }

  /** iPad user agents also name the Mac; they still classify as iOS. */
  lemma IpadBeforeMac(agent: string)
    requires Contains(ToLower(agent), "ipad") && Contains(ToLower(agent), "mac")
    ensures GetPlatform(Some(agent)) == Ios
  {
  }
}
