/** The administrator session: a token and its expiry time kept in the browser's store
    under "authToken" and "tokenExpiration", and the authenticated flag the pages read.
    The clock is a parameter: `now` is the current time in milliseconds. */
module Session {
  import opened JsText

  /** A day in milliseconds: how long a login lasts. */
  const Day: nat := 24 * 60 * 60 * 1000

  /** The two store entries; `None` is an absent key. */
  datatype Store = Store(authToken: Option<string>, tokenExpiration: Option<string>)

  /** A store value is truthy when it is present and not empty. */
  predicate Truthy(v: Option<string>) {
    v.Some? && v.value != ""
  }

  /** What the mount-time check does: the store afterwards, and the flag it sets
      (`None` when it leaves the flag alone). */
  datatype Checked = Checked(store: Store, flag: Option<bool>)

  /** The mount effect. With no token nothing happens. With a token whose expiry is
      present and, read as a number, lies before `now`, the token is removed (the expiry
      stays) and the flag goes down. Otherwise, an expiry that is missing, empty, not a
      number, or not yet passed, the flag goes up. */
  function CheckOnMount(s: Store, now: int): (c: Checked)
    ensures c.flag == None <==> !Truthy(s.authToken)
    ensures c.flag == None ==> c.store == s
    ensures c.flag == Some(false) <==>
      Truthy(s.authToken) && Truthy(s.tokenExpiration)
      && ToNumber(s.tokenExpiration.value).Some?
      && now as real > ToNumber(s.tokenExpiration.value).value
    ensures c.flag == Some(false) ==> c.store == Store(None, s.tokenExpiration)
    ensures c.flag == Some(true) ==> c.store == s
  {
    if !Truthy(s.authToken) then Checked(s, None)
    else if Truthy(s.tokenExpiration) && Expired(s.tokenExpiration.value, now) then
      Checked(Store(None, s.tokenExpiration), Some(false))
    else Checked(s, Some(true))
  }

  /** `now > +expiration`; a NaN expiration is never passed, and one written as the
      digits of `n` is passed exactly at the times after `n`. */
  predicate Expired(expiration: string, now: int)
    ensures Expired(expiration, now) ==> ToNumber(expiration).Some?
    ensures forall n: nat :: expiration == NatToString(n) ==> (Expired(expiration, now) <==> now > n)
  {
    NatTextReadsBack(expiration);
    match ToNumber(expiration)
    case Some(v) => now as real > v
    case None => false
  }

  /** login: the token, and the time a day from now written out. */
  function LoginStore(token: string, now: nat): (s: Store)
    ensures s.authToken == Some(token)
    ensures s.tokenExpiration.Some? && ToNumber(s.tokenExpiration.value) == Some((now + Day) as real)
  {
    NatToStringRoundTrip(now + Day);
    Store(Some(token), Some(IntToString(now + Day)))
  }

  /** logout: both keys removed. */
  function LogoutStore(): (s: Store)
    ensures s.authToken.None? && s.tokenExpiration.None?
  {
    Store(None, None)
  }

  /** A check at any time up to a day after logging in with a non-empty token finds the
      session valid and keeps the store. */
  lemma ValidForADay(token: string, loginTime: nat, now: int)
    requires token != "" && now <= loginTime + Day
    ensures CheckOnMount(LoginStore(token, loginTime), now) == Checked(LoginStore(token, loginTime), Some(true))
  {
  }

  /** A check later than a day after logging in removes the token, keeps the expiry and
      lowers the flag. */
  lemma ExpiresAfterADay(token: string, loginTime: nat, now: int)
    requires token != "" && now > loginTime + Day
    ensures var s := LoginStore(token, loginTime);
      CheckOnMount(s, now) == Checked(Store(None, s.tokenExpiration), Some(false))
  {
  }

  /** The comparison is strict: a check at the very expiry time still passes. */
  lemma ExpiryInstantIsValid(token: string, expiration: nat)
    requires token != ""
    ensures CheckOnMount(Store(Some(token), Some(NatToString(expiration))), expiration).flag == Some(true)
  {
    NatToStringRoundTrip(expiration);
  }

  /** After a logout the check finds no token and does nothing. */
  lemma LogoutThenCheck(now: int)
    ensures CheckOnMount(LogoutStore(), now) == Checked(LogoutStore(), None)
  {
  }

  /** Checking twice in a row gives the same store as checking once. */
  lemma CheckIdempotent(s: Store, now: int)
    ensures CheckOnMount(CheckOnMount(s, now).store, now).store == CheckOnMount(s, now).store
  {
  }

  // ---------------------------------------------------------------------------
  // The provider component
  // ---------------------------------------------------------------------------

  class AuthProvider {
    var store: Store
    var isAuthenticated: bool

    /** The provider starts unauthenticated over whatever the store already holds. */
    constructor (persisted: Store)
      ensures store == persisted && !isAuthenticated
    {
      store, isAuthenticated := persisted, false;
    }

    /** The mount effect at time `now`. */
    method Mount(now: int)
      modifies this
      ensures store == CheckOnMount(old(store), now).store
      ensures isAuthenticated == match CheckOnMount(old(store), now).flag
                                 case Some(b) => b
                                 case None => old(isAuthenticated)
    {
      if Truthy(store.authToken) {
        if Truthy(store.tokenExpiration) && Expired(store.tokenExpiration.value, now) {
          store := store.(authToken := None);
          isAuthenticated := false;
        } else {
          isAuthenticated := true;
        }
      }
    }

    /** login at time `now`. */
    method Login(token: string, now: nat)
      modifies this
      ensures store == LoginStore(token, now) && isAuthenticated
    {
      store := Store(Some(token), Some(IntToString(now + Day)));
      isAuthenticated := true;
    }

    /** logout: removing both keys again changes nothing, so it is idempotent. */
    method Logout()
      modifies this
      ensures store == LogoutStore() && !isAuthenticated
    {
      store := Store(None, None);
      isAuthenticated := false;
    }
  }
}
