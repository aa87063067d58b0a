/** The request middleware: it sends a visitor by sign-in state and profile status
    between the landing page, the dashboard and the waiting pages. Whether a user is
    signed in and the answer of the status lookup are inputs. */
module Middleware {
  import opened Strings

  /** The answer of the `profiles.status` lookup for the signed-in user: the row's status
      (`None` for a missing row or a null status), or a thrown error. */
  datatype StatusLookup = Found(status: Option<string>) | Failed

  /** What the middleware answers: pass the request on, or redirect to a path. */
  datatype Decision = Next | Redirect(target: string)

  /** `getStatus()`: the status, `pending` when it is missing or the lookup fails. */
  function StatusOf(lookup: StatusLookup): (r: string)
    ensures lookup.Failed? || lookup.status.None? ==> r == "pending"
    ensures lookup.Found? && lookup.status.Some? ==> r == lookup.status.value
  {
    match lookup
    case Failed => "pending"
    case Found(status) => if status.Some? then status.value else "pending"
  }

  predicate IsDashboard(path: string) { StartsWith(path, "/dashboard") }

  /** The paths the middleware runs on: `/` and `/dashboard/:path*`. */
  predicate Matched(path: string)
  {
    path == "/" || path == "/dashboard" || StartsWith(path, "/dashboard/")
  }

  /** The body of `middleware`. */
  function Route(signedIn: bool, path: string, lookup: StatusLookup): Decision
  {
    if IsDashboard(path) && !signedIn then Redirect("/")
    else if signedIn then
      var status := StatusOf(lookup);
      if path == "/" then
        Redirect(if status == "approved" then "/dashboard" else if status == "denied" then "/denied" else "/pending")
      else if IsDashboard(path) && status == "denied" then Redirect("/denied")
      else if IsDashboard(path) && status != "approved" then Redirect("/pending")
      else Next
    else Next
  }

  /** A request, through the matcher: paths outside it reach the page untouched. */
  function Handle(signedIn: bool, path: string, lookup: StatusLookup): (d: Decision)
    ensures !Matched(path) ==> d == Next
    ensures Matched(path) ==> d == Route(signedIn, path, lookup)
  {
    if Matched(path) then Route(signedIn, path, lookup) else Next
  }

  /** A visitor who is not signed in is sent from the dashboard to `/`. */
  lemma SignedOutDashboard(path: string, lookup: StatusLookup)
    requires IsDashboard(path)
    ensures Route(false, path, lookup) == Redirect("/")
  {
  }

  /** A signed-in user at `/` goes to the dashboard if approved, to `/denied` if denied,
      and to `/pending` otherwise. */
  lemma SignedInRoot(lookup: StatusLookup)
    ensures var status := StatusOf(lookup);
            Route(true, "/", lookup) ==
              if status == "approved" then Redirect("/dashboard")
              else if status == "denied" then Redirect("/denied")
              else Redirect("/pending")
  {
  }

  /** On the dashboard a denied user goes to `/denied`, any other user who is not
      approved to `/pending`, and an approved user passes. */
  lemma SignedInDashboard(path: string, lookup: StatusLookup)
    requires IsDashboard(path)
    ensures var status := StatusOf(lookup);
            && (status == "denied" <==> Route(true, path, lookup) == Redirect("/denied"))
            && (status != "denied" && status != "approved" <==> Route(true, path, lookup) == Redirect("/pending"))
            && (status == "approved" <==> Route(true, path, lookup) == Next)
  {
    assert |"/"| < |"/dashboard"|;
  }

  /** A missing status and a failed lookup both count as `pending`. */
  lemma MissingStatusIsPending(signedIn: bool, path: string)
    ensures Route(signedIn, path, Failed) == Route(signedIn, path, Found(Some("pending")))
    ensures Route(signedIn, path, Found(None)) == Route(signedIn, path, Found(Some("pending")))
  {
  }

  /** Everything else passes: a page outside the dashboard other than `/`, and `/` for
      a visitor who is not signed in. */
  lemma OtherwisePass(signedIn: bool, path: string, lookup: StatusLookup)
    requires !IsDashboard(path)
    requires path != "/" || !signedIn
    ensures Route(signedIn, path, lookup) == Next
  {
  }

  /** The status lookup matters only to a signed-in user. */
  lemma SignedOutIgnoresStatus(path: string, l1: StatusLookup, l2: StatusLookup)
    ensures Route(false, path, l1) == Route(false, path, l2)
  {
  }

  /** Following a redirect settles: the page it leads to is passed for the same visitor
      and status, so the middleware never redirects twice in a row. */
  lemma RedirectSettles(signedIn: bool, path: string, lookup: StatusLookup)
    ensures Route(signedIn, path, lookup).Redirect? ==>
              Handle(signedIn, Route(signedIn, path, lookup).target, lookup) == Next
  {
    assert !IsDashboard("/") && !IsDashboard("/denied") && !IsDashboard("/pending") by {
      assert |"/"| < |"/dashboard"|;
      assert "/denied"[2] != "/dashboard"[2];
      assert "/pending"[1] != "/dashboard"[1];
    }
    assert IsDashboard("/dashboard");
    assert !Matched("/denied") && !Matched("/pending");
  }
}
