/** The authentication guard on App's routes. App wraps `/sign-out` and
    `/change-password` in `AuthenticatedRoute`, which renders the view when a
    user is signed in and otherwise sends the browser to the root path `/`.
    `/sign-up` and `/sign-in` are plain routes that always render. */
module RouteGuard {
  import opened Wrappers
  import opened Session

  /** One route App declares: its path and whether it is an AuthenticatedRoute. */
  datatype Route = Route(path: string, authenticated: bool)

  /** The routes App renders inside `<main>`, in declaration order. */
  const AppRoutes: seq<Route> := [
    Route("/sign-up", false),
    Route("/sign-in", false),
    Route("/sign-out", true),
    Route("/change-password", true)
  ]

  /** What navigating to a path does. */
  datatype Decision = Allow | RedirectTo(path: string)

  /** Some authenticated route of `routes` has exactly this path. */
  function RequiresSignIn(routes: seq<Route>, path: string): (b: bool)
    ensures b <==> exists i :: 0 <= i < |routes| && routes[i].path == path && routes[i].authenticated
  {
    if routes == [] then false
    else (routes[0].authenticated && routes[0].path == path) || RequiresSignIn(routes[1..], path)
  }

  /** The guard's decision for the current `user` and a requested path. */
  function Decide(user: User, path: string): (d: Decision)
    ensures d.RedirectTo? ==> d.path == "/"
    ensures d == Allow <==> user.Some? || !RequiresSignIn(AppRoutes, path)
  {
    if user.None? && RequiresSignIn(AppRoutes, path) then RedirectTo("/") else Allow
  }

  /** The two guarded paths redirect home exactly when nobody is signed in. */
  lemma GuardedPaths(user: User, path: string)
    requires path == "/sign-out" || path == "/change-password"
    ensures user.None? ==> Decide(user, path) == RedirectTo("/")
    ensures user.Some? ==> Decide(user, path) == Allow
  {
    if path == "/sign-out" {
      assert AppRoutes[2].path == path && AppRoutes[2].authenticated;
    } else {
      assert AppRoutes[3].path == path && AppRoutes[3].authenticated;
    }
  }

  /** Every other path, including `/sign-up`, `/sign-in` and `/`, is never guarded. */
  lemma UnguardedPaths(user: User, path: string)
    requires path != "/sign-out" && path != "/change-password"
    ensures Decide(user, path) == Allow
  {
    forall i | 0 <= i < |AppRoutes| && AppRoutes[i].authenticated
      ensures AppRoutes[i].path != path
    {
      assert i == 2 || i == 3;
    }
  }
}
