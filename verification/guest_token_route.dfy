/** The anonymous-token issuer (apps/web/app/api/guest-token/route.ts):
    mints a guest id and signs a three-hour token for it. */
module GuestTokenRoute {
  import opened Base
  import opened Jwt

  /** "3h" in seconds. */
  const GuestTokenLifetime: nat := 3 * 60 * 60

  /** The JSON body of the response. */
  datatype GuestTokenResponse = GuestTokenResponse(token: SignedToken, guestId: string)

  /** The claims signed for a guest. Note there is no `id` claim. */
  function GuestClaims(guestId: string): Claims {
    Claims(
      id := None,
      name := None,
      userId := Some(guestId),
      userName := Some("Guest"),
      isGuest := Some(true),
      isAuthenticated := Some(false))
  }

  /** `POST /api/guest-token`, given the random UUID the route draws. */
  function IssueGuestToken(uuid: string): (r: GuestTokenResponse)
    ensures StartsWith(r.guestId, GuestPrefix)
    ensures r.guestId[|GuestPrefix|..] == uuid
    ensures r.token.claims.userId == Some(r.guestId)
    ensures r.token.claims.userName == Some("Guest")
    ensures r.token.claims.isGuest == Some(true) && r.token.claims.isAuthenticated == Some(false)
    ensures r.token.claims.id.None? && r.token.claims.name.None?
    ensures r.token.expiresInSeconds == 10800
  {
    var guestId := GuestPrefix + uuid;
    PrefixStartsWith(GuestPrefix, uuid);
    GuestTokenResponse(SignedToken(GuestClaims(guestId), GuestTokenLifetime), guestId)
  }

  /** Distinct UUIDs give distinct guest ids. */
  lemma GuestIdsDistinct(u1: string, u2: string)
    requires u1 != u2
    ensures IssueGuestToken(u1).guestId != IssueGuestToken(u2).guestId
  {
    if IssueGuestToken(u1).guestId == IssueGuestToken(u2).guestId {
      PrefixInjective(GuestPrefix, u1, u2);
    }
  }
}
