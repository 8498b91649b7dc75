/**
 * The admin guard (`AdminGuard`): from the hook's `user`, `loading`,
 * `isAdmin` and `error` it decides what the redirect effect does and which
 * of four views it renders. The cookie write and `router.replace` are
 * returned as an `Effect` value rather than performed.
 */
module AdminGuard {
  import opened Wrappers
  import opened AdminCheck
  import opened Auth

  /** The two targets of `router.replace`. */
  const LoginPath := "/login"
  const HomePath := "/"

  /** The cookie write that expires the `sb_admin` marker. */
  const ClearAdminCookie := "sb_admin=; Path=/; Max-Age=0; SameSite=Lax"

  datatype Effect = NoEffect | ClearCookieAndRedirect(cookie: string, to: string)

  datatype View = CheckingPermissions | Redirecting | ErrorMessage(message: string) | Children

  /** What the redirect effect does when it runs for these values. */
  function RedirectEffect(user: Option<User>, loading: bool, isAdmin: bool): (e: Effect)
    ensures loading ==> e == NoEffect
    ensures !loading && user.None? ==> e == ClearCookieAndRedirect(ClearAdminCookie, LoginPath)
    ensures !loading && user.Some? && !isAdmin ==> e == ClearCookieAndRedirect(ClearAdminCookie, HomePath)
    ensures e == NoEffect <==> loading || (user.Some? && isAdmin)
  {
    if loading then NoEffect
    else if user.None? then ClearCookieAndRedirect(ClearAdminCookie, LoginPath)
    else if !isAdmin then ClearCookieAndRedirect(ClearAdminCookie, HomePath)
    else NoEffect
  }

  /** The view rendered for these values; `if (error)` skips an empty message. */
  function SelectView(user: Option<User>, loading: bool, isAdmin: bool, error: Option<string>): (v: View)
    ensures v == CheckingPermissions <==> loading
    ensures v == Redirecting <==> !loading && (user.None? || !isAdmin)
    ensures v.ErrorMessage? <==> !loading && user.Some? && isAdmin && error.Some? && error.value != ""
    ensures v.ErrorMessage? ==> v.message == error.value
    ensures v == Children <==> !loading && user.Some? && isAdmin && (error.None? || error.value == "")
  {
    if loading then CheckingPermissions
    else if user.None? || !isAdmin then Redirecting
    else if error.Some? && error.value != "" then ErrorMessage(error.value)
    else Children
  }

  /**
   * The effect and the view agree: the guard redirects exactly when it shows
   * "Redirecting...", and whenever it redirects it also clears the cookie.
   */
  lemma EffectMatchesView(user: Option<User>, loading: bool, isAdmin: bool, error: Option<string>)
    ensures RedirectEffect(user, loading, isAdmin).ClearCookieAndRedirect? <==>
            SelectView(user, loading, isAdmin, error) == Redirecting
    ensures RedirectEffect(user, loading, isAdmin).ClearCookieAndRedirect? ==>
            RedirectEffect(user, loading, isAdmin).cookie == ClearAdminCookie
  {
  }

  /**
   * On any state the hook can reach, the guard shows the protected content
   * exactly when the check is settled, a user is signed in, is an admin and
   * no error is recorded; an error is shown only to a signed-in admin.
   */
  lemma GuardOnHookState(h: AdminHook)
    requires h.Valid()
    ensures SelectView(h.user, h.loading, h.isAdmin, h.error) == Children <==>
            !h.loading && h.user.Some? && h.isAdmin && h.error.None?
    ensures SelectView(h.user, h.loading, h.isAdmin, h.error).ErrorMessage? <==>
            !h.loading && h.user.Some? && h.isAdmin && h.error.Some?
  {
  }

  /** A user whose token carries `admin: true` is let in and no document is subscribed. */
  method ClaimedAdminScenario(u: User) returns (v: View, e: Effect, issued: nat, ghost live: set<nat>)
    ensures v == Children && e == NoEffect
    ensures issued == 0 && live == {}
  {
    var h := new AdminHook();
    h.OnAuthStateChanged(Some(u));
    h.OnTokenResult(u, Claims(Bool(true)));
    v, e := SelectView(h.user, h.loading, h.isAdmin, h.error), RedirectEffect(h.user, h.loading, h.isAdmin);
    issued, live := h.nextSubscription, h.liveDocs;
  }

  /** Without the claim, a role " Admin " on the user's document lets the user in. */
  method RoleFallbackScenario(u: User) returns (v: View, e: Effect)
    ensures v == Children && e == NoEffect
  {
    var h := new AdminHook();
    h.OnAuthStateChanged(Some(u));
    h.OnTokenResult(u, Claims(Undefined));
    var role := " " + "Admin" + " ";
    PaddedAdminMatches(" ", "Admin", " ");
    h.OnSnapshot(h.docUnsub.value, Exists(UserDoc(Str(role), Undefined)));
    v, e := SelectView(h.user, h.loading, h.isAdmin, h.error), RedirectEffect(h.user, h.loading, h.isAdmin);
  }

  /** A user with no document is sent home, without an error. */
  method MissingDocScenario(u: User) returns (v: View, e: Effect, err: Option<string>)
    ensures v == Redirecting && e == ClearCookieAndRedirect(ClearAdminCookie, HomePath) && err == None
  {
    var h := new AdminHook();
    h.OnAuthStateChanged(Some(u));
    h.OnTokenResult(u, Claims(Num(1)));
    h.OnSnapshot(h.docUnsub.value, Missing);
    v, e, err := SelectView(h.user, h.loading, h.isAdmin, h.error), RedirectEffect(h.user, h.loading, h.isAdmin), h.error;
  }

  /**
   * Signing out while the document subscription is live disposes it and
   * sends the viewer to the login page.
   */
  method SignOutDuringFallbackScenario(u: User) returns (v: View, e: Effect, ghost liveBefore: set<nat>, ghost liveAfter: set<nat>)
    ensures v == Redirecting && e == ClearCookieAndRedirect(ClearAdminCookie, LoginPath)
    ensures liveBefore == {0} && liveAfter == {}
  {
    var h := new AdminHook();
    h.OnAuthStateChanged(Some(u));
    h.OnTokenResult(u, Claims(Bool(false)));
    liveBefore := h.liveDocs;
    h.OnAuthStateChanged(None);
    liveAfter := h.liveDocs;
    v, e := SelectView(h.user, h.loading, h.isAdmin, h.error), RedirectEffect(h.user, h.loading, h.isAdmin);
  }

  /**
   * A failed token fetch on the first sign-in leaves `loading` true: the
   * guard keeps showing "Checking admin permissions..." with the error
   * recorded but not displayed, and no subscription is opened.
   */
  method TokenFailureScenario(u: User) returns (v: View, err: Option<string>)
    ensures v == CheckingPermissions && err == Some(DefaultError)
  {
    var h := new AdminHook();
    h.OnAuthStateChanged(Some(u));
    h.OnTokenResult(u, FetchFailed(None));
    assert h.liveDocs == {};
    v, err := SelectView(h.user, h.loading, h.isAdmin, h.error), h.error;
  }

  /**
   * A failed token fetch can still end on the error view: when `a`'s admin
   * claim arrives after `b` has signed in, and then `b`'s own fetch fails,
   * `isAdmin` and `loading` are the ones `a`'s claim left.
   */
  method TokenFailureAfterStaleClaimScenario(a: User, b: User) returns (v: View, shown: Option<User>)
    ensures v == ErrorMessage(DefaultError) && shown == Some(b)
  {
    var h := new AdminHook();
    h.OnAuthStateChanged(Some(a));
    h.OnAuthStateChanged(Some(b));
    h.OnTokenResult(a, Claims(Bool(true)));
    h.OnTokenResult(b, FetchFailed(None));
    v, shown := SelectView(h.user, h.loading, h.isAdmin, h.error), h.user;
  }

  /**
   * Signing out ends loading, and signing in again does not restart it: the
   * new user is redirected home before their own check has run.
   */
  method SignInAfterSignOutScenario(a: User, b: User) returns (v: View, e: Effect)
    ensures v == Redirecting && e == ClearCookieAndRedirect(ClearAdminCookie, HomePath)
  {
    var h := new AdminHook();
    h.OnAuthStateChanged(Some(a));
    h.OnAuthStateChanged(None);
    h.OnAuthStateChanged(Some(b));
    v, e := SelectView(h.user, h.loading, h.isAdmin, h.error), RedirectEffect(h.user, h.loading, h.isAdmin);
  }

  /**
   * No generation guard: when user `a` signs in, then `b`, and only then
   * `a`'s admin claim arrives, `b` is shown the protected content until
   * `b`'s own token result arrives.
   */
  method StaleClaimScenario(a: User, b: User) returns (v: View, shown: Option<User>)
    ensures v == Children && shown == Some(b)
  {
    var h := new AdminHook();
    h.OnAuthStateChanged(Some(a));
    h.OnAuthStateChanged(Some(b));
    h.OnTokenResult(a, Claims(Bool(true)));
    v, shown := SelectView(h.user, h.loading, h.isAdmin, h.error), h.user;
  }

  /**
   * A token fetch that settles after the hook's cleanup still opens a
   * document subscription, and nothing is left to dispose of it.
   */
  method LateTokenAfterTeardownScenario(u: User) returns (held: bool, observed: bool, ghost live: set<nat>)
    ensures held && !observed && live == {0}
  {
    var h := new AdminHook();
    h.OnAuthStateChanged(Some(u));
    h.Teardown();
    h.OnTokenResult(u, Claims(Null));
    held, observed, live := h.docUnsub.Some?, h.authObserved, h.liveDocs;
  }

  /**
   * Switching from `a`, whose document grants admin, to `b`: right after the
   * switch `loading` is still false, so `b` is redirected home before `b`'s
   * own check runs, and a snapshot of `a`'s document arriving in that window
   * shows `b` the protected content.
   */
  method UserSwitchScenario(a: User, b: User) returns (afterSwitch: View, staleSnapshot: View)
    ensures afterSwitch == Redirecting && staleSnapshot == Children
  {
    var h := new AdminHook();
    var adminDoc := Exists(UserDoc(Undefined, Bool(true)));
    assert DocGrantsAdmin(adminDoc);
    h.OnAuthStateChanged(Some(a));
    h.OnTokenResult(a, Claims(Undefined));
    var subA := h.docUnsub.value;
    h.OnSnapshot(subA, adminDoc);
    h.OnAuthStateChanged(Some(b));
    assert !h.loading && !h.isAdmin && subA.id in h.liveDocs;
    afterSwitch := SelectView(h.user, h.loading, h.isAdmin, h.error);
    h.OnSnapshot(subA, adminDoc);
    staleSnapshot := SelectView(h.user, h.loading, h.isAdmin, h.error);
  }

  /**
   * Once the next user's token result arrives, the previous user's
   * subscription is disposed, so only the new user's document decides.
   */
  method SwitchSettlesScenario(a: User, b: User) returns (stale: DocSubscription, held: DocSubscription, settled: View)
    ensures stale.uid == a.uid && held.uid == b.uid && held.id != stale.id
    ensures settled == Redirecting
  {
    var h := new AdminHook();
    h.OnAuthStateChanged(Some(a));
    h.OnTokenResult(a, Claims(Undefined));
    stale := h.docUnsub.value;
    h.OnAuthStateChanged(Some(b));
    h.OnTokenResult(b, Claims(Undefined));
    assert h.liveDocs == {h.docUnsub.value.id} && stale.id !in h.liveDocs;
    held := h.docUnsub.value;
    h.OnSnapshot(h.docUnsub.value, Missing);
    settled := SelectView(h.user, h.loading, h.isAdmin, h.error);
  }
}
