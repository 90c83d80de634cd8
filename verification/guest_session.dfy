/** The guest-token hook (apps/web/lib/utils/useGuestToken.tsx): reuse the
    token stored under "jwt", or fetch one from the guest-token route and
    store it. The effect runs once, on mount, from the initial state. */
module GuestSession {
  import opened Base
  import opened WebStorage

  const TokenKey: string := "jwt"

  datatype Session = Session(guestToken: Option<string>, guestId: Option<string>, isLoaded: bool)

  const Unloaded: Session := Session(None, None, false)

  /** What the `fetch` of the guest-token route yields: the response body, or
      a failure (network error or a body that does not parse). */
  datatype FetchOutcome = Fetched(token: string, guestId: string) | FetchFailed

  /** `fetched` tells whether the route was called at all. */
  datatype Run = Run(storage: Storage, session: Session, fetched: bool)

  /** The token already stored, if `getItem("jwt")` is truthy text. */
  function StoredToken(st: Storage): Option<string> {
    if Present(st, TokenKey) && st[TokenKey].Text? then Some(st[TokenKey].text) else None
  }

  /** The mount effect. */
  function LoadGuestToken(st: Storage, fetch: FetchOutcome): (r: Run)
    ensures r.session.isLoaded
    ensures StoredToken(st).Some? ==>
              r == Run(st, Session(StoredToken(st), None, true), false)
    ensures StoredToken(st).None? && fetch.Fetched? ==>
              && r.fetched
              && r.storage == st[TokenKey := Text(fetch.token)]
              && r.session == Session(Some(fetch.token), Some(fetch.guestId), true)
    ensures StoredToken(st).None? && fetch.FetchFailed? ==>
              r.fetched && r.storage == st && r.session.guestToken.None? && r.session.guestId.None?
  {
    match StoredToken(st)
    case Some(existing) => Run(st, Unloaded.(guestToken := Some(existing), isLoaded := true), false)
    case None =>
      match fetch
      case Fetched(token, guestId) =>
        Run(st[TokenKey := Text(token)], Session(Some(token), Some(guestId), true), true)
      case FetchFailed => Run(st, Unloaded.(isLoaded := true), true)
  }

  /** After a successful fetch of a non-empty token, the next mount reuses it
      without calling the route again, whatever that call would return. */
  lemma SecondRunReuses(st: Storage, token: string, guestId: string, next: FetchOutcome)
    requires StoredToken(st).None? && token != ""
    ensures var first := LoadGuestToken(st, Fetched(token, guestId));
            var second := LoadGuestToken(first.storage, next);
            && !second.fetched
            && second.session.guestToken == Some(token)
            && second.session.guestId.None?
            && second.storage == first.storage
  {
  }
}
