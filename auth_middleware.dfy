/**
 * The request guards of server/middleware/auth.js: `protect` and
 * `optionalAuth` (bearer token, user lookup, active and lock checks),
 * `authorize` (role list), the e-mail and phone verification gates, and the
 * in-memory sliding-window limiter for sensitive operations.
 *
 * Verifying a JWT is a parameter `verify` that yields the user id the token
 * carries, or nothing for a malformed, forged or expired token.
 */
module AuthMiddleware {
  import opened Common
  import opened Text
  import opened UserModel

  /** Why a guard stopped the request. */
  datatype Denial =
    | NoToken
    | InvalidToken
    | UserNotFound
    | Deactivated
    | AccountLocked
    | NotLoggedIn
    | RoleNotAllowed
    | EmailNotVerified
    | PhoneNotVerified
    | TooManyOperations

  /** The status code each denial is answered with. */
  function DenialStatus(d: Denial): (code: int)
    ensures code == 429 <==> d == TooManyOperations
    ensures code == 403 <==> d.RoleNotAllowed? || d.EmailNotVerified? || d.PhoneNotVerified?
    ensures code == 401 <==> !(d.TooManyOperations? || d.RoleNotAllowed? || d.EmailNotVerified? || d.PhoneNotVerified?)
  {
    match d
    case TooManyOperations => 429
    case RoleNotAllowed => 403
    case EmailNotVerified => 403
    case PhoneNotVerified => 403
    case _ => 401
  }

  /** A guard either passes the request on, with what it attached, or answers it. */
  datatype Gate<T> = Pass(value: T) | Deny(denial: Denial)

  // ---------------------------------------------------------------------------
  // Authentication

  /**
   * The token of the `Authorization` header: the second space-separated piece
   * of a header that starts with "Bearer", when that piece is non-empty.
   */
  function BearerToken(header: Option<string>): (token: Option<string>)
    ensures token.Some? ==> header.Some? && "Bearer" <= header.value && token.value != "" && ' ' !in token.value
  {
    if header.Some? && "Bearer" <= header.value then
      var parts := Split(header.value, ' ');
      SplitPiecesFree(header.value, ' ');
      if |parts| >= 2 && parts[1] != "" then Some(parts[1]) else None
    else None
  }

  /** The header a client sends, "Bearer " followed by the token, yields exactly that token. */
  lemma BearerTokenOfHeader(token: string)
    requires token != "" && ' ' !in token
    ensures BearerToken(Some("Bearer " + token)) == Some(token)
  {
    var header := "Bearer" + [' '] + token;
    assert "Bearer " + token == header;
    assert "Bearer" <= header by {
      assert header[..6] == "Bearer";
    }
    var parts := Split(header, ' ');
    assert parts == ["Bearer", token] by {
      SplitFree("Bearer", ' ');
      SplitAfterSeparator("Bearer", ' ', token);
    }
  }

  /** `protect`: the checks in order, each failure a 401 with its own reason. */
  function Protect(header: Option<string>, verify: string -> Option<UserId>, users: map<UserId, User>, now: int): Gate<User>
  {
    var token := BearerToken(header);
    if token.None? then Deny(NoToken)
    else if verify(token.value).None? then Deny(InvalidToken)
    else if verify(token.value).value !in users then Deny(UserNotFound)
    else
      var user := users[verify(token.value).value];
      if !user.isActive then Deny(Deactivated)
      else if IsLocked(user.lockUntil, now) then Deny(AccountLocked)
      else Pass(user)
  }

  /**
   * `protect` passes exactly an active, unlocked user named by a valid bearer
   * token, and otherwise answers 401 naming the first check that failed.
   */
  lemma ProtectDecides(header: Option<string>, verify: string -> Option<UserId>, users: map<UserId, User>, now: int)
    ensures var g := Protect(header, verify, users, now);
      var token := BearerToken(header);
      && (g.Pass? <==>
            && token.Some? && verify(token.value).Some? && verify(token.value).value in users
            && users[verify(token.value).value].isActive
            && !IsLocked(users[verify(token.value).value].lockUntil, now))
      && (g.Pass? ==> g.value == users[verify(token.value).value])
      && (g.Deny? ==> DenialStatus(g.denial) == 401)
      && (g == Deny(NoToken) <==> token.None?)
      && (g == Deny(AccountLocked) ==> users[verify(token.value).value].isActive)
  {
  }

  /** `optionalAuth`: never answers; attaches the user only if active and unlocked. */
  function OptionalAuth(header: Option<string>, verify: string -> Option<UserId>, users: map<UserId, User>, now: int): Option<User>
  {
    var token := BearerToken(header);
    if token.Some? && verify(token.value).Some? && verify(token.value).value in users then
      var user := users[verify(token.value).value];
      if user.isActive && !IsLocked(user.lockUntil, now) then Some(user) else None
    else None
  }

  /** The optional guard attaches a user exactly when `protect` would have let the request through with it. */
  lemma OptionalAuthAgreesWithProtect(header: Option<string>, verify: string -> Option<UserId>, users: map<UserId, User>, now: int)
    ensures var g := Protect(header, verify, users, now);
      OptionalAuth(header, verify, users, now) == (if g.Pass? then Some(g.value) else None)
  {
  }

  // ---------------------------------------------------------------------------
  // Authorization and verification gates

  /** `authorize(...roles)`: 401 without a user, 403 for a role not in the list. */
  function Authorize(user: Option<User>, roles: seq<Role>): (g: Gate<User>)
    ensures g.Pass? <==> user.Some? && user.value.role in roles
    ensures g.Pass? ==> g.value == user.value
    ensures g.Deny? ==> g.denial == (if user.None? then NotLoggedIn else RoleNotAllowed)
  {
    if user.None? then Deny(NotLoggedIn)
    else if user.value.role !in roles then Deny(RoleNotAllowed)
    else Pass(user.value)
  }

  /** `requireEmailVerification`: 403 exactly when the e-mail is unverified. */
  function RequireEmailVerification(user: User): (g: Gate<User>)
    ensures g.Deny? <==> !user.isEmailVerified
    ensures g.Pass? ==> g.value == user
    ensures g.Deny? ==> DenialStatus(g.denial) == 403
  {
    if !user.isEmailVerified then Deny(EmailNotVerified) else Pass(user)
  }

  /** `requirePhoneVerification`: 403 exactly when the phone is unverified. */
  function RequirePhoneVerification(user: User): (g: Gate<User>)
    ensures g.Deny? <==> !user.isPhoneVerified
    ensures g.Pass? ==> g.value == user
    ensures g.Deny? ==> DenialStatus(g.denial) == 403
  {
    if !user.isPhoneVerified then Deny(PhoneNotVerified) else Pass(user)
  }

  // ---------------------------------------------------------------------------
  // Sliding-window limiter

  const OperationWindow: int := 15 * MsPerMinute
  const MaxOperations: nat := 5

  /** The timestamps that still count at `now`: `now - t < 15 minutes`, in stored order. */
  function Recent(stamps: seq<int>, now: int): (r: seq<int>)
    ensures |r| <= |stamps|
    ensures forall k :: 0 <= k < |r| ==> now - r[k] < OperationWindow
    ensures forall t :: t in r <==> t in stamps && now - t < OperationWindow
  {
    if stamps == [] then []
    else
      var init := Recent(stamps[..|stamps| - 1], now);
      var t := stamps[|stamps| - 1];
      assert forall u :: u in stamps <==> u in stamps[..|stamps| - 1] || u == t;
      if now - t < OperationWindow then init + [t] else init
  }

  /** One sensitive operation by `user` at `now`: the new store and whether it may go ahead. */
  function Limit(store: map<UserId, seq<int>>, user: UserId, now: int): (map<UserId, seq<int>>, bool)
  {
    var recent := Recent(if user in store then store[user] else [], now);
    if |recent| >= MaxOperations then (store, false)
    else (store[user := recent + [now]], true)
  }

  /**
   * A refused operation leaves the store as it was; an allowed one stores
   * at most five timestamps for the user, all inside the window, the last
   * one `now`; no other user's timestamps change.
   */
  lemma LimitFacts(store: map<UserId, seq<int>>, user: UserId, now: int)
    ensures var (store', allowed) := Limit(store, user, now);
      && (!allowed ==> store' == store)
      && (allowed ==>
            && user in store'
            && 1 <= |store'[user]| <= MaxOperations
            && store'[user][|store'[user]| - 1] == now
            && (forall k :: 0 <= k < |store'[user]| ==> now - store'[user][k] < OperationWindow))
      && (forall u :: u != user ==> (u in store' <==> u in store) && (u in store ==> store'[u] == store[u]))
      && (allowed <==> |Recent(if user in store then store[user] else [], now)| < MaxOperations)
  {
  }

  /** Operations by `user` at the given instants, first to last: the store and how many were allowed. */
  function LimitAll(store: map<UserId, seq<int>>, user: UserId, times: seq<int>): (map<UserId, seq<int>>, nat)
  {
    if times == [] then (store, 0)
    else
      var (s, n) := LimitAll(store, user, times[..|times| - 1]);
      var (s', allowed) := Limit(s, user, times[|times| - 1]);
      (s', if allowed then n + 1 else n)
  }

  /** How many of the timestamps are at or after `from`. */
  function CountFrom(stamps: seq<int>, from: int): nat
  {
    if stamps == [] then 0
    else CountFrom(stamps[..|stamps| - 1], from) + (if stamps[|stamps| - 1] >= from then 1 else 0)
  }

  /** The count is of timestamps: all of them exactly when each is at or after `from`, none when each is before. */
  lemma {:induction false} CountFromRange(stamps: seq<int>, from: int)
    ensures CountFrom(stamps, from) <= |stamps|
    ensures CountFrom(stamps, from) == |stamps| <==> forall i :: 0 <= i < |stamps| ==> stamps[i] >= from
    ensures CountFrom(stamps, from) == 0 <==> forall i :: 0 <= i < |stamps| ==> stamps[i] < from
  {
    if stamps != [] {
      var init := stamps[..|stamps| - 1];
      CountFromRange(init, from);
      assert forall i :: 0 <= i < |init| ==> init[i] == stamps[i];
    }
  }

  /** Pruning at a time within one window of `from` keeps every timestamp at or after `from`. */
  lemma {:induction false} RecentKeepsLater(stamps: seq<int>, now: int, from: int)
    requires now < from + OperationWindow
    ensures CountFrom(Recent(stamps, now), from) == CountFrom(stamps, from)
  {
    if stamps != [] {
      var init := stamps[..|stamps| - 1];
      var t := stamps[|stamps| - 1];
      RecentKeepsLater(init, now, from);
      if now - t < OperationWindow {
        assert (Recent(init, now) + [t])[..|Recent(init, now)|] == Recent(init, now);
      }
    }
  }

  /** The allowed operations of a run are all still stored, at or after the run's start. */
  lemma {:induction false} LimitAllRemembers(store: map<UserId, seq<int>>, user: UserId, times: seq<int>, from: int)
    requires forall k :: 0 <= k < |times| ==> from <= times[k] < from + OperationWindow
    ensures var (s, n) := LimitAll(store, user, times);
      n <= CountFrom(if user in s then s[user] else [], from)
  {
    if times != [] {
      var init := times[..|times| - 1];
      var now := times[|times| - 1];
      LimitAllRemembers(store, user, init, from);
      var (s, n) := LimitAll(store, user, init);
      var stored := if user in s then s[user] else [];
      RecentKeepsLater(stored, now, from);
      var recent := Recent(stored, now);
      if |recent| < MaxOperations {
        assert (recent + [now])[..|recent|] == recent;
      }
    }
  }

  /**
   * Within any 15-minute span at most five sensitive operations of one user
   * are allowed, whatever the store held before.
   */
  lemma {:induction false} AtMostFivePerWindow(store: map<UserId, seq<int>>, user: UserId, times: seq<int>, from: int)
    requires forall k :: 0 <= k < |times| ==> from <= times[k] < from + OperationWindow
    ensures LimitAll(store, user, times).1 <= MaxOperations
  {
    if times != [] {
      var init := times[..|times| - 1];
      var now := times[|times| - 1];
      AtMostFivePerWindow(store, user, init, from);
      LimitAllRemembers(store, user, init, from);
      var (s, n) := LimitAll(store, user, init);
      var stored := if user in s then s[user] else [];
      RecentKeepsLater(stored, now, from);
      CountFromRange(Recent(stored, now), from);
      assert n <= CountFrom(Recent(stored, now), from) <= |Recent(stored, now)|;
    }
  }

  /** The limiter's store: `global.sensitiveOperations`, user id to timestamps. */
  class SensitiveOperations {
    var stamps: map<UserId, seq<int>>

    constructor ()
      ensures stamps == map[]
    {
      stamps := map[];
    }

    /** `sensitiveOperationLimit` for `user` at `now`: false means answer 429. */
    method Check(user: UserId, now: int) returns (allowed: bool)
      modifies this
      ensures (stamps, allowed) == Limit(old(stamps), user, now)
    {
      var previous := if user in stamps then stamps[user] else [];
      var recent := Recent(previous, now);
      if |recent| >= MaxOperations {
        return false;
      }
      recent := recent + [now];
      stamps := stamps[user := recent];
      allowed := true;
    }
  }
}
