/**
 * The routing decision of the hosted edition (src/App.tsx): what `App`
 * shows for the authentication state and the path, and what `AppContent`
 * shows a signed-in user for the profile's onboarding flag, including
 * whether the bottom navigation is drawn. The route guard between the two
 * (src/components/auth/ProtectedRoute.tsx) is not part of this model and is
 * taken to let a signed-in user through.
 */
module AppRoutes {
  import opened Wrappers

  const Root := "/"
  const LoginPath := "/login"
  const SignupPath := "/signup"
  const DashboardPath := "/dashboard"
  const OnboardingPath := "/onboarding"
  const CheckoutPath := "/checkout"

  /** The paths a signed-out user may visit. */
  const PublicPaths: seq<string> := [Root, LoginPath, SignupPath]

  /** The paths rendered without the bottom navigation. */
  const PagesWithoutNav: seq<string> := [OnboardingPath, CheckoutPath]

  /** The pages the signed-in routes render. */
  const AppPages: seq<string> := [OnboardingPath, DashboardPath, "/annual", "/expenses", "/settings", CheckoutPath]

  /** What the app shows. */
  datatype Screen =
    | Spinner
    | PublicPage(path: string)
    | Redirect(to: string)
    | AppPage(page: Option<string>, bottomNav: bool)

  /** `hasCompletedOnboarding`: the profile's flag, false without a profile. */
  function HasCompletedOnboarding(profileFlag: Option<bool>): bool {
    profileFlag.GetOr(false)
  }

  /** `showBottomNav`: onboarded and not on a page without navigation. */
  predicate ShowBottomNav(onboarded: bool, path: string) {
    onboarded && path !in PagesWithoutNav
  }

  /** `AppContent`: the signed-in part, given the profile's loading state and onboarding flag. */
  function Content(profileLoading: bool, profileFlag: Option<bool>, path: string): Screen {
    var onboarded := HasCompletedOnboarding(profileFlag);
    if profileLoading then Spinner
    else if !onboarded && path != OnboardingPath then Redirect(OnboardingPath)
    else if path == Root then Redirect(if onboarded then DashboardPath else OnboardingPath)
    else AppPage(if path in AppPages then Some(path) else None, ShowBottomNav(onboarded, path))
  }

  /** `App`: the spinner while authentication loads, the public routes, the redirects, then `AppContent`. */
  function Decide(authLoading: bool, signedIn: bool, path: string, profileLoading: bool, profileFlag: Option<bool>): Screen {
    if authLoading then Spinner
    else if !signedIn && path in PublicPaths then PublicPage(path)
    else if !signedIn then Redirect(LoginPath)
    else if path == LoginPath || path == SignupPath then Redirect(DashboardPath)
    else Content(profileLoading, profileFlag, path)
  }

  /**
   * The decision, case by case: the spinner while authentication loads;
   * signed out, the public pages on their paths and the login page
   * elsewhere; signed in, no login or signup page; a user who has not
   * finished onboarding is sent to it from every other path once the profile
   * has loaded.
   */
  lemma {:induction false} DecisionRules(authLoading: bool, signedIn: bool, path: string, profileLoading: bool, profileFlag: Option<bool>)
    ensures var s := Decide(authLoading, signedIn, path, profileLoading, profileFlag);
      (authLoading ==> s == Spinner) &&
      (!authLoading && !signedIn ==>
        (s == PublicPage(path) <==> path == Root || path == LoginPath || path == SignupPath) &&
        (s != PublicPage(path) ==> s == Redirect(LoginPath))) &&
      (!authLoading && signedIn && (path == LoginPath || path == SignupPath) ==> s == Redirect(DashboardPath)) &&
      (!authLoading && signedIn && path != LoginPath && path != SignupPath && !profileLoading &&
       !HasCompletedOnboarding(profileFlag) && path != OnboardingPath
       ==> s == Redirect(OnboardingPath)) &&
      (s.PublicPage? ==> !signedIn) &&
      (s.AppPage? ==> signedIn && s.page != Some(LoginPath) && s.page != Some(SignupPath))
  {
  }

  /**
   * The bottom navigation shows exactly for an onboarded user away from the
   * onboarding and checkout pages; a user still onboarding never sees it.
   */
  lemma {:induction false} BottomNavRule(signedIn: bool, path: string, profileFlag: Option<bool>)
    ensures var s := Decide(false, signedIn, path, false, profileFlag);
      s.AppPage? ==>
        (s.bottomNav <==> HasCompletedOnboarding(profileFlag) && path != OnboardingPath && path != CheckoutPath)
    ensures var s := Decide(false, signedIn, path, false, profileFlag);
      s.AppPage? && !HasCompletedOnboarding(profileFlag) ==> !s.bottomNav && s.page == Some(OnboardingPath)
  {
  }

  /**
   * With authentication and profile loaded, following the redirects ends
   * on a page after at most two of them: there is no redirect loop.
   */
  lemma {:induction false} RedirectsSettle(signedIn: bool, path: string, profileFlag: Option<bool>)
    ensures var s0 := Decide(false, signedIn, path, false, profileFlag);
      s0.Redirect? ==>
        var s1 := Decide(false, signedIn, s0.to, false, profileFlag);
        !s1.Spinner? &&
        (s1.Redirect? ==> !Decide(false, signedIn, s1.to, false, profileFlag).Redirect?)
  {
  }
}
