/** The view switch and the route table of twidder/static/js/router.js.
    The session probe `session.isSignedIn` answers asynchronously, so a
    route handler only records the probe; its answer arrives later as an
    event. */
module Router {
  import opened JsValues

  /** The two views the application is built with. */
  datatype View = WelcomeView | SignedInView

  /** The continuations the routes run once the user is known to be
      signed in. */
  datatype Action = DisplayHome | DisplayUser(email: Option<string>) | DisplayAccount

  /** What the router does, in order. */
  datatype Effect =
    | Displayed(view: View)           // view.displayView()
    | Probed(continuation: Action)    // session.isSignedIn(...) issued
    | Performed(action: Action)       // the continuation ran
    | ShowedError(message: string)    // messages.newError(...)

  datatype Route = Home | Browse | BrowseUser(email: string) | Account | Unknown

  /** The route table, matched exactly: "/", "/browse", "/browse/:email"
      (one non-empty path segment) and "/account"; anything else is the
      catch-all. */
  function MatchRoute(path: string): (r: Route)
    ensures r == Home <==> path == "/"
    ensures r == Browse <==> path == "/browse"
    ensures r == Account <==> path == "/account"
    ensures r.BrowseUser? <==> |path| > 8 && path[..8] == "/browse/" && '/' !in path[8..]
    ensures r.BrowseUser? ==> path == "/browse/" + r.email
  {
    if path == "/" then Home
    else if path == "/browse" then Browse
    else if path == "/account" then Account
    else if |path| > 8 && path[..8] == "/browse/" && '/' !in path[8..] then BrowseUser(path[8..])
    else Unknown
  }

  /** The continuation a matched route hands to `ifSignedIn`; the
      catch-all has none of its own. */
  function Continuation(route: Route): (a: Option<Action>)
    ensures a.None? <==> route.Unknown?
  {
    match route
    case Home => Some(DisplayHome)
    case Browse => Some(DisplayUser(None))
    case BrowseUser(email) => Some(DisplayUser(Some(email)))
    case Account => Some(DisplayAccount)
    case Unknown => None
  }

  /** "/browse/:email" hands its parameter to `displayUser`, "/browse"
      hands none. */
  lemma BrowseRoutes(email: string)
    requires email != "" && '/' !in email
    ensures Continuation(MatchRoute("/browse/" + email)) == Some(DisplayUser(Some(email)))
    ensures Continuation(MatchRoute("/browse")) == Some(DisplayUser(None))
  {
    var path := "/browse/" + email;
    assert path[..8] == "/browse/" && path[8..] == email;
  }

  /** The views displayed so far, in order. */
  function DisplayedViews(effects: seq<Effect>): (views: seq<View>)
    ensures |views| <= |effects|
  {
    if effects == [] then []
    else
      var last := effects[|effects| - 1];
      DisplayedViews(effects[..|effects| - 1]) + (if last.Displayed? then [last.view] else [])
  }

  /** The view last displayed is the current view, and no view is
      displayed twice in a row. */
  ghost predicate ScreenInvariant(current: Option<View>, effects: seq<Effect>) {
    var views := DisplayedViews(effects);
    && (current.None? <==> views == [])
    && (views != [] ==> current == Some(views[|views| - 1]))
    && (forall i :: 0 < i < |views| ==> views[i - 1] != views[i])
  }

  /** Recording a non-display effect leaves the invariant as it was. */
  lemma OtherEffectKeepsScreen(current: Option<View>, effects: seq<Effect>, e: Effect)
    requires !e.Displayed?
    ensures DisplayedViews(effects + [e]) == DisplayedViews(effects)
    ensures ScreenInvariant(current, effects) ==> ScreenInvariant(current, effects + [e])
  {
    assert (effects + [e])[..|effects|] == effects;
  }

  /** Displaying a view other than the current one keeps the invariant
      with that view as the current one. */
  lemma DisplayKeepsScreen(current: Option<View>, effects: seq<Effect>, v: View)
    requires ScreenInvariant(current, effects) && current != Some(v)
    ensures DisplayedViews(effects + [Displayed(v)]) == DisplayedViews(effects) + [v]
    ensures ScreenInvariant(Some(v), effects + [Displayed(v)])
  {
    assert (effects + [Displayed(v)])[..|effects|] == effects;
  }

  class Twidder {
    var currentView: Option<View>
    var effects: seq<Effect>
    /** The continuations of the probes issued so far, by probe number. */
    var probes: seq<Action>
    /** The probes whose answer has arrived; each request gets one answer. */
    ghost var answered: set<nat>

    ghost predicate Valid()
      reads this
    {
      && ScreenInvariant(currentView, effects)
      && (forall i :: i in answered ==> i < |probes|)
    }

    constructor ()
      ensures currentView == None && effects == [] && probes == [] && answered == {} && Valid()
    {
      currentView, effects, probes := None, [], [];
      answered := {};
    }

    /** `changeTo(view)`: nothing happens when the view is already the
        current one; otherwise it is displayed and becomes current. */
    method ChangeTo(view: View)
      requires Valid()
      modifies this
      ensures Valid()
      ensures old(currentView) == Some(view) ==> effects == old(effects)
      ensures old(currentView) != Some(view) ==> effects == old(effects) + [Displayed(view)]
      ensures currentView == Some(view) && probes == old(probes) && answered == old(answered)
    {
      if currentView == Some(view) {
        return;
      }
      DisplayKeepsScreen(currentView, effects, view);
      effects := effects + [Displayed(view)];
      currentView := Some(view);
    }

    /** `ifSignedIn(continuation)`: issue the session probe. */
    method IfSignedIn(continuation: Action)
      requires Valid()
      modifies this
      ensures Valid()
      ensures probes == old(probes) + [continuation]
      ensures effects == old(effects) + [Probed(continuation)]
      ensures currentView == old(currentView) && answered == old(answered)
    {
      OtherEffectKeepsScreen(currentView, effects, Probed(continuation));
      probes := probes + [continuation];
      effects := effects + [Probed(continuation)];
    }

    /** The route handlers. The catch-all navigates to "/" (whose handler
        probes the session for the home page) and then shows the error. */
    method Navigate(path: string)
      requires Valid()
      modifies this
      ensures Valid() && currentView == old(currentView) && answered == old(answered)
      ensures MatchRoute(path) != Unknown ==>
        && probes == old(probes) + [Continuation(MatchRoute(path)).value]
        && effects == old(effects) + [Probed(Continuation(MatchRoute(path)).value)]
      ensures MatchRoute(path) == Unknown ==>
        && probes == old(probes) + [DisplayHome]
        && effects == old(effects) + [Probed(DisplayHome), ShowedError("Page does not exists!")]
    {
      var route := MatchRoute(path);
      if route == Unknown {
        IfSignedIn(DisplayHome);
        OtherEffectKeepsScreen(currentView, effects, ShowedError("Page does not exists!"));
        effects := effects + [ShowedError("Page does not exists!")];
      } else {
        IfSignedIn(Continuation(route).value);
      }
    }

    /** The one answer to probe `i`: signed in switches to the signed-in view
        and then runs the continuation; not signed in switches to the
        welcome view and never runs it. */
    method ProbeAnswered(i: nat, signedIn: bool)
      requires Valid() && i < |probes| && i !in answered
      modifies this
      ensures Valid() && probes == old(probes) && answered == old(answered) + {i}
      ensures signedIn ==> currentView == Some(SignedInView)
      ensures !signedIn ==> currentView == Some(WelcomeView)
      ensures signedIn ==>
        effects == old(effects)
                   + (if old(currentView) == Some(SignedInView) then [] else [Displayed(SignedInView)])
                   + [Performed(probes[i])]
      ensures !signedIn ==>
        effects == old(effects) + (if old(currentView) == Some(WelcomeView) then [] else [Displayed(WelcomeView)])
    {
      if signedIn {
        ChangeTo(SignedInView);
        OtherEffectKeepsScreen(currentView, effects, Performed(probes[i]));
        effects := effects + [Performed(probes[i])];
      } else {
        ChangeTo(WelcomeView);
      }
      answered := answered + {i};
    }
  }
}
