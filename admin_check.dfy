/**
 * The admin-permission hook (`useAdmin`): an event-driven state machine over
 * `user`, `isAdmin`, `loading` and `error`, with one mutable handle `docUnsub`
 * for the live subscription to the signed-in user's document.
 *
 * Each callback of the source is one event method of `AdminHook`. The awaited
 * token fetch is split off as its own event, `OnTokenResult`, which carries the
 * user it was started for: the source has no per-user generation guard, so a
 * late result for an earlier user is applied like any other.
 */
module AdminCheck {
  import opened Wrappers
  import opened JsString
  import opened Auth

  /** A loosely typed value read from a document field or a token claim. */
  datatype JsValue = Undefined | Null | Bool(b: bool) | Num(n: int) | Str(s: string)

  /** The two fields of `users/{uid}` the admin check reads. */
  datatype UserDoc = UserDoc(role: JsValue, isAdmin: JsValue)

  datatype Snapshot = Missing | Exists(data: UserDoc)

  /** What `await getIdTokenResult(u, true)` produced: the `admin` claim, or a failure. */
  datatype TokenResult = Claims(admin: JsValue) | FetchFailed(message: Option<string>)

  /** The handle `onSnapshot` returns, for the document of `uid`. */
  datatype DocSubscription = DocSubscription(id: nat, uid: string)

  const DefaultError := "Failed to check admin permissions"

  /** `roleNormalized === 'admin'`: only a string role, trimmed and lower-cased. */
  predicate RoleIsAdmin(role: JsValue) {
    role.Str? && ToLowerAscii(Trim(role.s)) == "admin"
  }

  /** The flag a snapshot yields: a missing document is "not admin", never an error. */
  predicate DocGrantsAdmin(snap: Snapshot) {
    snap.Exists? && (RoleIsAdmin(snap.data.role) || snap.data.isAdmin == Bool(true))
  }

  /** The claim check `token?.claims?.admin === true`. */
  predicate ClaimGrantsAdmin(admin: JsValue) {
    admin == Bool(true)
  }

  /** "admin" in any mix of ASCII upper and lower case. */
  predicate SpellsAdmin(w: string) {
    |w| == 5 && forall k :: 0 <= k < 5 ==> w[k] == "admin"[k] || w[k] == "ADMIN"[k]
  }

  lemma LowerIsAdminIff(w: string)
    ensures ToLowerAscii(w) == "admin" <==> SpellsAdmin(w)
  {
    if ToLowerAscii(w) == "admin" {
      forall k | 0 <= k < 5 ensures w[k] == "admin"[k] || w[k] == "ADMIN"[k] {
        assert LowerChar(w[k]) == "admin"[k];
      }
    }
    if SpellsAdmin(w) {
      assert forall k :: 0 <= k < 5 ==> ToLowerAscii(w)[k] == "admin"[k];
    }
  }

  /** A matching role is "admin", in some casing, padded by white space. */
  lemma RoleIsAdminSplits(s: string) returns (pre: string, w: string, post: string)
    requires RoleIsAdmin(Str(s))
    ensures s == pre + w + post && AllWhitespace(pre) && AllWhitespace(post) && SpellsAdmin(w)
  {
    pre, post := TrimSplits(s);
    w := Trim(s);
    LowerIsAdminIff(w);
  }

  /** "admin", in any casing, padded by white space, is a matching role. */
  lemma PaddedAdminMatches(pre: string, w: string, post: string)
    requires AllWhitespace(pre) && AllWhitespace(post) && SpellsAdmin(w)
    ensures RoleIsAdmin(Str(pre + w + post))
  {
    assert !IsWhitespace(w[0]) && !IsWhitespace(w[4]);
    TrimOfPadded(pre, w, post);
    LowerIsAdminIff(w);
  }

  /**
   * A role string matches exactly when it is the word "admin", in any ASCII
   * casing, padded on either side by white space.
   */
  lemma RoleIsAdminIff(s: string)
    ensures RoleIsAdmin(Str(s)) <==>
      exists pre, w, post :: s == pre + w + post && AllWhitespace(pre) && AllWhitespace(post) && SpellsAdmin(w)
  {
    if RoleIsAdmin(Str(s)) {
      var pre, w, post := RoleIsAdminSplits(s);
    }
    if exists pre, w, post :: s == pre + w + post && AllWhitespace(pre) && AllWhitespace(post) && SpellsAdmin(w) {
      var pre, w, post :| s == pre + w + post && AllWhitespace(pre) && AllWhitespace(post) && SpellsAdmin(w);
      PaddedAdminMatches(pre, w, post);
    }
  }

  /**
   * The snapshot decision against an independent reading of the document:
   * it must exist, and either its role is a string spelling "admin" inside
   * white space, or its `isAdmin` field is the boolean `true`.
   */
  lemma SnapshotDecision(snap: Snapshot)
    ensures DocGrantsAdmin(snap) <==>
      snap.Exists? &&
      ((snap.data.role.Str? &&
        exists pre, w, post :: snap.data.role.s == pre + w + post && AllWhitespace(pre) && AllWhitespace(post) && SpellsAdmin(w))
       || snap.data.isAdmin == Bool(true))
  {
    if snap.Exists? && snap.data.role.Str? {
      RoleIsAdminIff(snap.data.role.s);
    }
  }

  class AdminHook {
    var user: Option<User>
    var isAdmin: bool
    var loading: bool
    var error: Option<string>
    /** `docUnsub`: the handle of the last document subscription opened, or null. */
    var docUnsub: Option<DocSubscription>
    /** The `onAuthStateChanged` observer is registered. */
    var authObserved: bool
    /** The id the next `onSnapshot` call hands out. */
    var nextSubscription: nat
    /** Ids of the document subscriptions opened and not yet disposed. */
    ghost var liveDocs: set<nat>
    /** Users whose `getIdTokenResult` is being awaited by an auth callback. */
    ghost var pendingTokens: multiset<User>

    /** The ids `docUnsub` can dispose of. */
    ghost function HeldIds(): set<nat>
      reads this
    {
      if docUnsub.Some? then {docUnsub.value.id} else {}
    }

    /**
     * The handle discipline: every live subscription is the one `docUnsub`
     * holds (so at most one is live and none is out of reach), handles are
     * fresh, and a reported error is never the empty string.
     */
    ghost predicate Valid()
      reads this
    {
      && liveDocs <= HeldIds()
      && (docUnsub.Some? ==> docUnsub.value.id < nextSubscription)
      && (error.Some? ==> error.value != "")
    }

    constructor ()
      ensures Valid()
      ensures user == None && !isAdmin && loading && error == None
      ensures docUnsub == None && authObserved && nextSubscription == 0
      ensures liveDocs == {} && pendingTokens == multiset{}
    {
      user, isAdmin, loading, error := None, false, true, None;
      docUnsub, authObserved, nextSubscription := None, true, 0;
      liveDocs, pendingTokens := {}, multiset{};
    }

    /** `docUnsub()`: disposes the held subscription, leaving the handle in place. */
    method DisposeHeld()
      modifies this`liveDocs
      ensures liveDocs == old(liveDocs) - HeldIds()
    {
      if docUnsub.Some? {
        liveDocs := liveDocs - {docUnsub.value.id};
      }
    }

    /** The `onAuthStateChanged` callback, up to the awaited token fetch. */
    method OnAuthStateChanged(u: Option<User>)
      requires Valid() && authObserved
      modifies this`user, this`error, this`isAdmin, this`loading, this`liveDocs, this`docUnsub, this`pendingTokens
      ensures Valid()
      ensures user == u && error == None && !isAdmin
      ensures authObserved && nextSubscription == old(nextSubscription)
      ensures u.None? ==>
        && !loading && docUnsub == None && liveDocs == {}
        && pendingTokens == old(pendingTokens)
      ensures u.Some? ==>
        && loading == old(loading) && docUnsub == old(docUnsub) && liveDocs == old(liveDocs)
        && pendingTokens == old(pendingTokens) + multiset{u.value}
    {
      user := u;
      error := None;
      isAdmin := false;
      if u.None? {
        loading := false;
        DisposeHeld();
        docUnsub := None;
        return;
      }
      pendingTokens := pendingTokens + multiset{u.value};
    }

    /**
     * The rest of the auth callback for `u`, once the token fetch settles: a
     * true claim settles the check and drops the document subscription; any
     * other claim replaces the subscription with one on `u`'s document; a
     * failed fetch records the error and changes nothing else.
     */
    method OnTokenResult(u: User, result: TokenResult)
      requires Valid() && u in pendingTokens
      modifies this`pendingTokens, this`error, this`isAdmin, this`loading, this`liveDocs, this`docUnsub, this`nextSubscription
      ensures Valid()
      ensures pendingTokens == old(pendingTokens) - multiset{u}
      ensures user == old(user) && authObserved == old(authObserved)
      ensures result.FetchFailed? ==>
        && error == Some(MessageOr(result.message, DefaultError))
        && isAdmin == old(isAdmin) && loading == old(loading)
        && docUnsub == old(docUnsub) && liveDocs == old(liveDocs)
        && nextSubscription == old(nextSubscription)
      ensures result.Claims? && ClaimGrantsAdmin(result.admin) ==>
        && isAdmin && !loading && error == old(error)
        && docUnsub == None && liveDocs == {}
        && nextSubscription == old(nextSubscription)
      ensures result.Claims? && !ClaimGrantsAdmin(result.admin) ==>
        && loading && isAdmin == old(isAdmin) && error == old(error)
        && old(nextSubscription) !in old(liveDocs)
        && docUnsub == Some(DocSubscription(old(nextSubscription), u.uid))
        && liveDocs == {old(nextSubscription)}
        && nextSubscription == old(nextSubscription) + 1
    {
      pendingTokens := pendingTokens - multiset{u};
      match result
      case FetchFailed(message) =>
        error := Some(MessageOr(message, DefaultError));
      case Claims(admin) =>
        if ClaimGrantsAdmin(admin) {
          SettleAsAdmin();
        } else {
          loading := true;
          Resubscribe(u);
        }
    }

    /** The claim grants admin: the check settles and the held subscription is dropped. */
    method SettleAsAdmin()
      requires Valid()
      modifies this`isAdmin, this`loading, this`liveDocs, this`docUnsub
      ensures Valid()
      ensures isAdmin && !loading && docUnsub == None && liveDocs == {}
    {
      isAdmin := true;
      loading := false;
      DisposeHeld();
      docUnsub := None;
    }

    /** `docUnsub?.()` followed by `docUnsub = onSnapshot(doc(db, 'users', u.uid), …)`. */
    method Resubscribe(u: User)
      requires Valid()
      modifies this`liveDocs, this`docUnsub, this`nextSubscription
      ensures Valid()
      ensures old(nextSubscription) !in old(liveDocs)
      ensures docUnsub == Some(DocSubscription(old(nextSubscription), u.uid))
      ensures liveDocs == {old(nextSubscription)} && nextSubscription == old(nextSubscription) + 1
    {
      DisposeHeld();
      var sub := DocSubscription(nextSubscription, u.uid);
      nextSubscription := nextSubscription + 1;
      liveDocs := liveDocs + {sub.id};
      docUnsub := Some(sub);
    }

    /** The `onSnapshot` callback of the live subscription `sub`. */
    method OnSnapshot(sub: DocSubscription, snap: Snapshot)
      requires Valid() && sub.id in liveDocs
      modifies this`isAdmin, this`loading
      ensures Valid()
      ensures isAdmin == DocGrantsAdmin(snap) && !loading
    {
      isAdmin := DocGrantsAdmin(snap);
      loading := false;
    }

    /**
     * The error callback of the live subscription `sub`. Firestore delivers
     * nothing further on a listener after its error, so it is no longer live.
     */
    method OnSnapshotError(sub: DocSubscription, message: Option<string>)
      requires Valid() && sub.id in liveDocs
      modifies this`error, this`loading, this`liveDocs
      ensures Valid()
      ensures error == Some(MessageOr(message, DefaultError)) && !loading
      ensures liveDocs == old(liveDocs) - {sub.id}
    {
      error := Some(MessageOr(message, DefaultError));
      loading := false;
      liveDocs := liveDocs - {sub.id};
    }

    /** The effect's cleanup: disposes the held subscription, then the auth observer. */
    method Teardown()
      requires Valid() && authObserved
      modifies this`liveDocs, this`authObserved
      ensures Valid()
      ensures liveDocs == {} && !authObserved
    {
      DisposeHeld();
      authObserved := false;
    }
  }

  /** At most one document subscription is live, and it is the one `docUnsub` holds. */
  lemma AtMostOneLiveSubscription(h: AdminHook)
    requires h.Valid()
    ensures |h.liveDocs| <= 1
    ensures h.liveDocs != {} ==> h.docUnsub.Some? && h.liveDocs == {h.docUnsub.value.id}
  {
    if h.liveDocs != {} {
      assert h.liveDocs == h.HeldIds();
    }
  }
}
