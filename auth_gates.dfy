/**
 * The request gates of server/src/middleware/auth.middleware.ts: the Bearer scheme of
 * `authenticate` (section 2.1 of RFC 6750 as this code reads it: the header starts with
 * `Bearer ` and the token is the second space-separated field), `checkSubscription`'s tier
 * ranking, and the guest gates. Token verification and the user lookup are passed in.
 */
module AuthGates {
  import opened Wrappers
  import opened Text
  import opened ApiErrors

  /** The first `sep`-separated field of `s`: everything before the first `sep`, or all of `s`. */
  lemma SplitFirstField(s: string, sep: char)
    ensures sep in s ==> Split(s, sep)[0] == s[..IndexOf(s, sep)] && Split(s, sep)[1..] == Split(s[IndexOf(s, sep) + 1..], sep)
    ensures sep !in s ==> Split(s, sep) == [s]
  {
  }

  /**
   * The token of an `Authorization` header: a missing or empty header, or one not starting with
   * `Bearer `, is refused, and so is an empty second field (as in `Bearer  x`).
   */
  function BearerToken(header: Option<string>): (r: Result<string, ApiError>)
    ensures r.Success? ==> Truthy(header) && StartsWith(header.value, "Bearer ")
    ensures !Truthy(header) || !StartsWith(header.value, "Bearer ") ==> r == Failure(NewApiError(401, "No token provided"))
    ensures r.Failure? ==> r.error == NewApiError(401, "No token provided")
    ensures r.Success? ==> r.value != "" && ' ' !in r.value && StartsWith(header.value[7..], r.value)
  {
    if !Truthy(header) || !StartsWith(header.value, "Bearer ") then Failure(NewApiError(401, "No token provided"))
    else
      var h := header.value;
      var parts := Split(h, ' ');
      assert h[6] == ' ';
      assert IndexOf(h, ' ') == 6 by { IndexOfUnique(h, ' ', 6); }
      SplitFirstField(h, ' ');
      var token := parts[1];
      SplitFirstField(h[7..], ' ');
      if token == "" then Failure(NewApiError(401, "No token provided"))
      else
        assert StartsWith(h[7..], token) by {
          if ' ' in h[7..] {
            assert token == h[7..][..IndexOf(h[7..], ' ')];
          }
        }
        Success(token)
  }

  /** A header `Bearer <rest>` yields the first space-separated field of `rest` when it is not empty. */
  lemma BearerTokenIsField(h: string)
    requires StartsWith(h, "Bearer ") && Split(h[7..], ' ')[0] != ""
    ensures BearerToken(Some(h)) == Success(Split(h[7..], ' ')[0])
  {
    assert h[6] == ' ';
    IndexOfUnique(h, ' ', 6);
    SplitFirstField(h, ' ');
  }

  /** A well-formed header `Bearer <t>` yields its token back. */
  lemma BearerTokenOf(t: string)
    requires t != "" && ' ' !in t
    ensures BearerToken(Some("Bearer " + t)) == Success(t)
  {
    var h := "Bearer " + t;
    assert h[..7] == "Bearer " && h[7..] == t;
    SplitFirstField(t, ' ');
    BearerTokenIsField(h);
  }

  /** Anything after a second space is ignored: `Bearer <t> <rest>` also yields `t`. */
  lemma BearerTokenIgnoresRest(t: string, rest: string)
    requires t != "" && ' ' !in t
    ensures BearerToken(Some("Bearer " + t + " " + rest)) == Success(t)
  {
    var h := "Bearer " + t + " " + rest;
    assert h[..7] == "Bearer " && h[7..] == t + " " + rest;
    FirstFieldIs(h[7..], t, rest);
    BearerTokenIsField(h);
  }

  /** A second space right after the scheme (`Bearer  x`) leaves an empty token, which is refused. */
  lemma DoubleSpaceRefused(h: string)
    requires StartsWith(h, "Bearer ") && |h| > 7 && h[7] == ' '
    ensures BearerToken(Some(h)) == Failure(NewApiError(401, "No token provided"))
  {
    assert h[6] == ' ';
    IndexOfUnique(h, ' ', 6);
    SplitFirstField(h, ' ');
    var tail := h[7..];
    assert tail[0] == ' ';
    IndexOfUnique(tail, ' ', 0);
    SplitFirstField(tail, ' ');
  }

  /** The first space-separated field of `t + " " + rest` is `t`. */
  lemma FirstFieldIs(s: string, t: string, rest: string)
    requires s == t + " " + rest && ' ' !in t
    ensures Split(s, ' ')[0] == t
  {
    assert s[..|t|] == t;
    IndexOfUnique(s, ' ', |t|);
    SplitFirstField(s, ' ');
  }

  /** The user fields `authenticate` selects. */
  datatype UserRecord = UserRecord(id: string, email: string, isGuest: bool, subscription: string)

  /** `req.user`: the token payload rebuilt from the stored user. */
  datatype AuthUser = AuthUser(userId: string, email: string, isGuest: bool, subscription: string)

  /**
   * `authenticate`: the Bearer token, then `verify` (which may throw), then the user by the
   * token's user id (`findUnique`, which may reject), which must exist. Every throw inside the
   * `try` reaches `next(error)` unchanged.
   */
  function Authenticate(header: Option<string>, verify: string -> Result<string, Thrown>,
                        lookup: string -> Result<Option<UserRecord>, Thrown>): (r: Result<AuthUser, Thrown>)
    ensures BearerToken(header).Failure? ==> r == Failure(Api(BearerToken(header).error))
    ensures BearerToken(header).Success? && verify(BearerToken(header).value).Failure? ==>
              r == Failure(verify(BearerToken(header).value).error)
    ensures BearerToken(header).Success? && verify(BearerToken(header).value).Success?
            && lookup(verify(BearerToken(header).value).value).Failure? ==>
              r == Failure(lookup(verify(BearerToken(header).value).value).error)
    ensures BearerToken(header).Success? && verify(BearerToken(header).value).Success?
            && lookup(verify(BearerToken(header).value).value) == Success(None) ==>
              r == Failure(Api(NewApiError(401, "User not found")))
    ensures r.Success? <==>
              BearerToken(header).Success? && verify(BearerToken(header).value).Success?
              && lookup(verify(BearerToken(header).value).value).Success?
              && lookup(verify(BearerToken(header).value).value).value.Some?
    ensures r.Success? ==>
              var u := lookup(verify(BearerToken(header).value).value).value.value;
              r.value == AuthUser(u.id, u.email, u.isGuest, u.subscription)
  {
    match BearerToken(header)
    case Failure(e) => Failure(Api(e))
    case Success(token) =>
      match verify(token)
      case Failure(e) => Failure(e)
      case Success(userId) =>
        match lookup(userId)
        case Failure(e) => Failure(e)
        case Success(None) => Failure(Api(NewApiError(401, "User not found")))
        case Success(Some(u)) => Success(AuthUser(u.id, u.email, u.isGuest, u.subscription))
  }

  // ---------------------------------------------------------------- tiers

  /**
   * `tierHierarchy[t]`: the rank of a known tier, nothing for any other string. A tier named like
   * an `Object.prototype` member (`toString`, `__proto__`) would look up a function there, not
   * `undefined`; the stored tier is a database enum, so no such name reaches this table.
   */
  function TierRank(t: string): Option<nat> {
    if t == "free" then Some(0)
    else if t == "premium" then Some(1)
    else if t == "premium_plus" then Some(2)
    else None
  }

  /** `req.user?.subscription || 'free'`. */
  function UserTier(user: Option<AuthUser>): string {
    if user.Some? && user.value.subscription != "" then user.value.subscription else "free"
  }

  /**
   * `checkSubscription(requiredTier)`: refused with 403 exactly when the required tier is known
   * and outranks the user's tier, an unknown user tier counting as rank 0. A required tier that
   * is not in the table never refuses (a comparison with `undefined` is false).
   */
  function CheckSubscription(user: Option<AuthUser>, requiredTier: string): (r: Option<ApiError>)
    ensures r.Some? <==> TierRank(requiredTier).Some?
                         && (if TierRank(UserTier(user)).Some? then TierRank(UserTier(user)).value else 0)
                            < TierRank(requiredTier).value
    ensures r.Some? ==> r.value == NewApiError(403, "This feature requires " + requiredTier + " subscription or higher")
  {
    var userRank := TierRank(UserTier(user));
    var have := if userRank.Some? then userRank.value else 0;
    var need := TierRank(requiredTier);
    if need.Some? && have < need.value then
      Some(NewApiError(403, "This feature requires " + requiredTier + " subscription or higher"))
    else None
  }

  /** The default tier `free` admits everyone, and a missing user counts as `free`. */
  lemma FreeAdmitsAll(user: Option<AuthUser>)
    ensures CheckSubscription(user, "free").None?
    ensures CheckSubscription(None, "premium").Some?
  {
  }

  /**
   * The stored subscription values are upper case (`PREMIUM`, as the webhook writes them), which
   * the table does not know: such a user ranks 0 and is refused a `premium` route.
   */
  lemma UpperCaseTierRanksZero(u: AuthUser)
    requires u.subscription == "PREMIUM"
    ensures CheckSubscription(Some(u), "premium").Some?
    ensures CheckSubscription(Some(u.(subscription := "premium")), "premium").None?
  {
  }

  /** Higher ranks pass wherever lower ones do. */
  lemma CheckSubscriptionMonotone(a: AuthUser, b: AuthUser, requiredTier: string)
    requires TierRank(a.subscription).Some? && TierRank(b.subscription).Some?
    requires TierRank(a.subscription).value <= TierRank(b.subscription).value
    requires CheckSubscription(Some(a), requiredTier).None?
    ensures CheckSubscription(Some(b), requiredTier).None?
  {
  }

  // ---------------------------------------------------------------- guest gates

  /** `guestOnly`: refused unless there is a user and it is a guest. */
  function GuestOnly(user: Option<AuthUser>): (r: Option<ApiError>)
    ensures r.None? <==> user.Some? && user.value.isGuest
    ensures r.Some? ==> r.value == NewApiError(403, "This route is for guest users only")
  {
    if !(user.Some? && user.value.isGuest) then Some(NewApiError(403, "This route is for guest users only")) else None
  }

  /** `authenticatedOnly`: refused exactly for a guest user; a request without a user passes. */
  function AuthenticatedOnly(user: Option<AuthUser>): (r: Option<ApiError>)
    ensures r.Some? <==> user.Some? && user.value.isGuest
    ensures r.Some? ==> r.value == NewApiError(403, "Guest users cannot access this route")
  {
    if user.Some? && user.value.isGuest then Some(NewApiError(403, "Guest users cannot access this route")) else None
  }

  /** For an authenticated request exactly one of the two gates admits. */
  lemma GatesPartitionUsers(u: AuthUser)
    ensures GuestOnly(Some(u)).None? != AuthenticatedOnly(Some(u)).None?
    ensures GuestOnly(None).Some? && AuthenticatedOnly(None).None?
  {
  }
}
