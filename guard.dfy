/** auth.guard.ts: a route may be entered when the session is authenticated
    and its token has not expired; otherwise the user is warned, logged out
    and sent to the login page with the requested URL as `returnUrl`. */
module Guard {
  import opened Common
  import opened Navigation
  import opened Notifications
  import opened Session

  const ExpiredTitle := "Session expirée"
  const ExpiredMessage := "Veuillez vous reconnecter pour continuer"

  /** The navigation the guard itself requests on refusal. */
  function LoginWithReturn(url: string): (n: Navigation)
    ensures n.path == LoginPath && n.query == map["returnUrl" := url]
  {
    Navigation(LoginPath, map["returnUrl" := url])
  }

  class AuthGuard {
    const auth: AuthService
    const notifier: NotificationService

    constructor (auth: AuthService, notifier: NotificationService)
      ensures this.auth == auth && this.notifier == notifier
    {
      this.auth := auth;
      this.notifier := notifier;
    }

    /** `canActivate`; `now` is `Date.now()`. On refusal the router sees two
        navigations: the one `logout()` makes and the guard's own. */
    method CanActivate(url: string, now: int) returns (allowed: bool)
      modifies auth, auth.router, notifier
      ensures allowed == (old(auth.IsAuthenticated()) && !old(auth.IsTokenExpired(now)))
      ensures allowed ==>
                && auth.token == old(auth.token) && auth.user == old(auth.user)
                && auth.storage == old(auth.storage)
                && auth.router.history == old(auth.router.history)
                && notifier.notifications == old(notifier.notifications)
                && notifier.issued == old(notifier.issued)
      ensures !allowed ==>
                && notifier.issued == old(notifier.issued) + 1
                && notifier.notifications == old(notifier.notifications)
                     + [Stamped(Draft(Warning, ExpiredTitle, ExpiredMessage, None), notifier.idSource(old(notifier.issued)))]
                && auth.token == None && auth.user == None
                && auth.storage == old(auth.storage) - {TokenKey, UserKey}
                && auth.router.history == old(auth.router.history) + [To(LoginPath), LoginWithReturn(url)]
    {
      if auth.IsAuthenticated() && !auth.IsTokenExpired(now) {
        return true;
      }
      notifier.NotifyWarning(ExpiredTitle, ExpiredMessage, None);
      auth.Logout();
      auth.router.Navigate(LoginWithReturn(url));
      return false;
    }
  }
}
