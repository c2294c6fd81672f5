/** The redirect decision of `AuthGuard` (app/_layout.tsx:13-26): after the session
    has loaded, a signed-out user outside the `auth` and `onboarding` groups is sent
    to onboarding, and a signed-in user inside one of them is sent to the tabs. */
module AuthGuard {
  import opened Wrappers

  /** The two targets of `router.replace`. */
  datatype Route = Onboarding | Tabs {
    /** The path handed to `router.replace`: the route's one segment after a slash. */
    function Path(): (p: string)
      ensures |Segments()| == 1 && p == "/" + Segments()[0]
    {
      match this
      case Onboarding => "/onboarding"
      case Tabs => "/(tabs)"
    }

    /** The route segments the router reports once it has arrived there. */
    function Segments(): seq<string> {
      match this
      case Onboarding => ["onboarding"]
      case Tabs => ["(tabs)"]
    }
  }

  /** `segments[0] === group`; with no segments, `segments[0]` is `undefined`. */
  predicate InGroup(segments: seq<string>, group: string) {
    |segments| > 0 && segments[0] == group
  }

  /** Whether the current screen is one of the sign-in or onboarding screens. */
  predicate InPublicArea(segments: seq<string>) {
    InGroup(segments, "auth") || InGroup(segments, "onboarding")
  }

  /** The route the guard replaces the current one with, or `None` when it leaves the
      navigation alone. */
  function Redirect(loading: bool, signedIn: bool, segments: seq<string>): (r: Option<Route>)
    ensures loading ==> r.None?
    ensures r == Some(Onboarding) <==> !loading && !signedIn && !InPublicArea(segments)
    ensures r == Some(Tabs) <==> !loading && signedIn && InPublicArea(segments)
  {
    if loading then None
    else
      var inAuthGroup := InGroup(segments, "auth");
      var inOnboardingGroup := InGroup(segments, "onboarding");
      if !signedIn && !inAuthGroup && !inOnboardingGroup then Some(Onboarding)
      else if signedIn && (inAuthGroup || inOnboardingGroup) then Some(Tabs)
      else None
  }

  /** Only the first segment is consulted: two locations that agree on it (or both
      have none) get the same decision. */
  lemma OnlyFirstSegmentMatters(loading: bool, signedIn: bool, a: seq<string>, b: seq<string>)
    requires (|a| == 0 && |b| == 0) || (|a| > 0 && |b| > 0 && a[0] == b[0])
    ensures Redirect(loading, signedIn, a) == Redirect(loading, signedIn, b)
  {
  }

  /** A redirect settles the guard: evaluated again at the screen it sent the user
      to, with the same session, it asks for nothing more. */
  lemma RedirectIsStable(signedIn: bool, segments: seq<string>)
    requires Redirect(false, signedIn, segments).Some?
    ensures Redirect(false, signedIn, Redirect(false, signedIn, segments).value.Segments()).None?
  {
  }

  /** Where the guard leaves the user is consistent with the session: signed out means
      a public screen, signed in means a screen outside them. */
  lemma GuardedLocationMatchesSession(signedIn: bool, segments: seq<string>)
    ensures var here := match Redirect(false, signedIn, segments)
                        case Some(route) => route.Segments()
                        case None => segments;
            signedIn <==> !InPublicArea(here)
  {
  }
}
