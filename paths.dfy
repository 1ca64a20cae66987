/**
 * Navigation of the browser application: the fixed set of paths, the pure
 * decision of where a viewer belongs given the user and feature state, and the
 * per-page routing hook that waits for both refreshes before deciding.
 */
module Paths {
  import opened Wrappers

  /** The application's routes (`PATHS`). */
  datatype Path =
    | Login
    | Admin
    | Calling
    | Contacts
    | Transactions
    | VerifyPhoneNumber
    | VerifyPhoneNumberCode
    | VerifyWorkpass
    | RecentCalls

  /** The URL of each route. */
  function PathString(p: Path): (url: string)
    ensures |url| >= 1 && url[0] == '/'
  {
    match p
    case Login => "/"
    case Admin => "/admin"
    case Calling => "/call"
    case Contacts => "/contacts"
    case Transactions => "/transactions"
    case VerifyPhoneNumber => "/verify-phone"
    case VerifyPhoneNumberCode => "/verify-phone/code"
    case VerifyWorkpass => "/verify-workpass"
    case RecentCalls => "/recent-calls"
  }

  /** The URL of a route names it: no two routes share one. */
  lemma PathStringInjective(p: Path, q: Path)
    ensures PathString(p) == PathString(q) <==> p == q
  {
  }

  /** Which verification gates the user has cleared. */
  datatype VerificationState = VerificationState(phoneNumber: bool, workpass: bool, adminGranted: bool)

  datatype User = User(verificationState: VerificationState)

  /** The user service's snapshot: `me` is absent until a successful identity fetch. */
  datatype UserState = UserState(me: Option<User>)

  /** The feature service's snapshot; only its presence matters here. */
  datatype FeatureState = FeatureState(enabled: set<string>)

  /** `isUserVerified`: an admin grant settles it; otherwise both the phone and the work-pass gates must be cleared. */
  predicate IsVerified(v: VerificationState)
    ensures IsVerified(v) <==> v.adminGranted || (v.phoneNumber && v.workpass)
    ensures !v.adminGranted && !v.phoneNumber ==> !IsVerified(v)
  {
    if v.adminGranted then true else v.phoneNumber && v.workpass
  }

  /**
   * `routeFromState`: where the viewer belongs. Login until both the user and
   * the features are known; then contacts for a verified user, and otherwise
   * the first gate still to clear, the phone before the work pass. The final
   * `null` of the source is never reached.
   */
  function RouteFromState(userState: UserState, featureState: Option<FeatureState>): (route: Option<Path>)
    ensures route.Some?
    ensures route == Some(Login) <==> userState.me.None? || featureState.None?
    ensures route == Some(Contacts) <==>
      userState.me.Some? && featureState.Some? && IsVerified(userState.me.value.verificationState)
    ensures route == Some(VerifyPhoneNumber) <==>
      userState.me.Some? && featureState.Some? &&
      !IsVerified(userState.me.value.verificationState) && !userState.me.value.verificationState.phoneNumber
    ensures route == Some(VerifyWorkpass) <==>
      userState.me.Some? && featureState.Some? &&
      !IsVerified(userState.me.value.verificationState) && userState.me.value.verificationState.phoneNumber &&
      !userState.me.value.verificationState.workpass
  {
    if userState.me.None? || featureState.None? then Some(Login)
    else
      var v := userState.me.value.verificationState;
      if IsVerified(v) then Some(Contacts)
      else if !v.phoneNumber then Some(VerifyPhoneNumber)
      else if !v.workpass then Some(VerifyWorkpass)
      else None
  }

  /** An admin grant leads to contacts whatever the phone and work-pass gates say. */
  lemma AdminGoesToContacts(v: VerificationState, w: VerificationState, features: FeatureState)
    requires v.adminGranted && w.adminGranted
    ensures RouteFromState(UserState(Some(User(v))), Some(features)) ==
            RouteFromState(UserState(Some(User(w))), Some(features)) == Some(Contacts)
  {
  }

  /** What the element the hook renders does. */
  datatype RenderElement = NoElement | RedirectTo(path: Path)

  /**
   * `RoutingResult`: when `shouldRender` holds the page shows `renderElement`
   * (nothing while loading, or a redirect) instead of its own content.
   */
  datatype RoutingResult = RoutingResult(shouldRender: bool, renderElement: RenderElement)

  /** Nothing decided yet: render nothing, redirect nowhere. */
  const Pending := RoutingResult(true, NoElement)

  /**
   * The state of `useRouting` for one mounted page: the page's own route, the
   * two in-flight flags and the latest snapshots of the two services.
   */
  class Routing {
    const ownRoute: string
    /** A refresh was started: the user (feature) service was there when its effect last ran. */
    var userRefreshIssued: bool
    var featureRefreshIssued: bool
    var userRequestInFlight: bool
    var featureRequestInFlight: bool
    var userState: Option<UserState>
    var featureState: Option<FeatureState>

    /** A flag only drops once its refresh was started. */
    ghost predicate Valid()
      reads this
    {
      (!userRefreshIssued ==> userRequestInFlight) && (!featureRefreshIssued ==> featureRequestInFlight)
    }

    /** Mounting: both flags start in flight; at the first run of each effect, its refresh starts only if its service is there. */
    constructor (ownRoute: string, hasUserService: bool, hasFeatureService: bool,
                 userState: Option<UserState>, featureState: Option<FeatureState>)
      ensures Valid()
      ensures this.ownRoute == ownRoute
      ensures userRefreshIssued == hasUserService && featureRefreshIssued == hasFeatureService
      ensures userRequestInFlight && featureRequestInFlight
      ensures this.userState == userState && this.featureState == featureState
      ensures Result() == Pending
    {
      this.ownRoute := ownRoute;
      userRefreshIssued := hasUserService;
      featureRefreshIssued := hasFeatureService;
      userRequestInFlight := true;
      featureRequestInFlight := true;
      this.userState := userState;
      this.featureState := featureState;
    }

    /**
     * `refreshSelf()` settled, successfully or not: the user flag drops and the
     * service's snapshot is whatever the refresh left; the feature side is untouched.
     */
    method UserSettled(snapshot: Option<UserState>)
      requires Valid() && userRefreshIssued
      modifies this
      ensures Valid()
      ensures !userRequestInFlight && userState == snapshot
      ensures userRefreshIssued == old(userRefreshIssued) && featureRefreshIssued == old(featureRefreshIssued)
      ensures featureRequestInFlight == old(featureRequestInFlight) && featureState == old(featureState)
    {
      userRequestInFlight := false;
      userState := snapshot;
    }

    /** `refreshFeatures()` settled, successfully or not. */
    method FeatureSettled(snapshot: Option<FeatureState>)
      requires Valid() && featureRefreshIssued
      modifies this
      ensures Valid()
      ensures !featureRequestInFlight && featureState == snapshot
      ensures userRefreshIssued == old(userRefreshIssued) && featureRefreshIssued == old(featureRefreshIssued)
      ensures userRequestInFlight == old(userRequestInFlight) && userState == old(userState)
    {
      featureRequestInFlight := false;
      featureState := snapshot;
    }

    /**
     * The user effect running again because `userService` changed: when the new
     * service is there, a new `refreshSelf()` is issued. The in-flight flag is
     * left as it is, so once an earlier refresh settled, the hook keeps deciding
     * on the old snapshot while the new refresh is outstanding.
     */
    method UserServiceChanged(present: bool)
      requires Valid()
      modifies this
      ensures Valid()
      ensures userRefreshIssued == (old(userRefreshIssued) || present)
      ensures userRequestInFlight == old(userRequestInFlight) && userState == old(userState)
      ensures featureRefreshIssued == old(featureRefreshIssued)
      ensures featureRequestInFlight == old(featureRequestInFlight) && featureState == old(featureState)
      ensures Result() == old(Result())
    {
      if present {
        userRefreshIssued := true;
      }
    }

    /** The feature effect running again because `featureService` changed. */
    method FeatureServiceChanged(present: bool)
      requires Valid()
      modifies this
      ensures Valid()
      ensures featureRefreshIssued == (old(featureRefreshIssued) || present)
      ensures featureRequestInFlight == old(featureRequestInFlight) && featureState == old(featureState)
      ensures userRefreshIssued == old(userRefreshIssued)
      ensures userRequestInFlight == old(userRequestInFlight) && userState == old(userState)
      ensures Result() == old(Result())
    {
      if present {
        featureRefreshIssued := true;
      }
    }

    /** Both refreshes settled and the user snapshot is there: the hook may decide. */
    predicate Settled()
      reads this
      ensures Valid() && Settled() ==> userRefreshIssued && featureRefreshIssued
    {
      !userRequestInFlight && userState.Some? && !featureRequestInFlight
    }

    /**
     * What the hook returns on a render. Until both refreshes settled it is
     * `Pending`. After that it redirects exactly when the decided route is not
     * the page's own, and the page shows its own content otherwise.
     */
    function Result(): (r: RoutingResult)
      reads this
      ensures !Settled() ==> r == Pending
      ensures r.renderElement.RedirectTo? <==>
        Settled() && PathString(RouteFromState(userState.value, featureState).value) != ownRoute
      ensures r.renderElement.RedirectTo? ==> Some(r.renderElement.path) == RouteFromState(userState.value, featureState)
      ensures r.shouldRender <==> r != RoutingResult(false, NoElement)
      ensures r == RoutingResult(false, NoElement) <==>
        Settled() && PathString(RouteFromState(userState.value, featureState).value) == ownRoute
    {
      if userRequestInFlight || userState.None? then Pending
      else if featureRequestInFlight then Pending
      else Decide(RouteFromState(userState.value, featureState), ownRoute)
    }
  }

  /**
   * The decision once both refreshes settled: the page's own route, or no route,
   * lets the page show itself; any other route is a redirect to it.
   */
  function Decide(route: Option<Path>, ownRoute: string): (r: RoutingResult)
    ensures r.renderElement.RedirectTo? <==> route.Some? && PathString(route.value) != ownRoute
    ensures r.renderElement.RedirectTo? ==> route == Some(r.renderElement.path) && r.shouldRender
    ensures !r.renderElement.RedirectTo? ==> r == RoutingResult(false, NoElement)
  {
    if route.Some? && PathString(route.value) == ownRoute then RoutingResult(false, NoElement)
    else if route.Some? then RoutingResult(true, RedirectTo(route.value))
    else RoutingResult(false, NoElement)
  }

  /**
   * The two refreshes settling in either order: nothing is decided after the
   * first, and after the second the result is the decision on both snapshots.
   */
  method SettleInEitherOrder(ownRoute: string, userFirst: bool,
                             user: Option<UserState>, features: Option<FeatureState>)
    returns (afterFirst: RoutingResult, afterBoth: RoutingResult)
    ensures afterFirst == Pending
    ensures user.Some? ==>
      var route := RouteFromState(user.value, features).value;
      afterBoth == if PathString(route) == ownRoute then RoutingResult(false, NoElement) else RoutingResult(true, RedirectTo(route))
    ensures user.None? ==> afterBoth == Pending
  {
    var routing := new Routing(ownRoute, true, true, None, None);
    if userFirst {
      routing.UserSettled(user);
      afterFirst := routing.Result();
      routing.FeatureSettled(features);
    } else {
      routing.FeatureSettled(features);
      afterFirst := routing.Result();
      routing.UserSettled(user);
    }
    afterBoth := routing.Result();
  }

  /** As long as no user refresh has been issued, the hook stays `Pending`, whatever else settles. */
  lemma PendingUntilUserRefreshIssued(r: Routing)
    requires r.Valid() && !r.userRefreshIssued
    ensures r.Result() == Pending
  {
  }

  /**
   * A user service that appears after mount still issues its refresh, and once
   * it and the features settled the hook decides. A later change of service
   * issues a second refresh, and the hook goes on deciding while it is outstanding.
   */
  method LateServiceThenRefreshAgain(ownRoute: string, user: UserState, features: FeatureState)
    returns (beforeService: RoutingResult, decided: RoutingResult, duringSecond: RoutingResult)
    ensures beforeService == Pending
    ensures decided == Decide(RouteFromState(user, Some(features)), ownRoute) && decided != Pending
    ensures duringSecond == decided
  {
    var routing := new Routing(ownRoute, false, true, None, None);
    routing.FeatureSettled(Some(features));
    beforeService := routing.Result();
    routing.UserServiceChanged(true);
    routing.UserSettled(Some(user));
    decided := routing.Result();
    routing.UserServiceChanged(true);
    duringSecond := routing.Result();
  }
}
