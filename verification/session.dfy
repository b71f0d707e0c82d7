/** The logged-in user's profile and credentials. Times are whole seconds on one clock. */
module Sessions {

  /** A user profile, as returned by the profile fetch. */
  datatype User = User(country: string, displayName: string, filterEnabled: bool,
                       profileUrl: string, numberOfFollowers: int, endpointUrl: string, id: string)

  /** The credentials of a logged-in user and the moment the access token expires. */
  datatype Session = Session(user: User, accessToken: string, refreshToken: string, expirationDate: int)

  /**
   * Whether the access token may still be served at time `now`: strictly before
   * the expiration date; at the expiration date itself it is expired.
   */
  function IsValid(s: Session, now: int): (r: bool)
    ensures r <==> now < s.expirationDate
  {
    now < s.expirationDate
  }

  /** A session valid now stays valid at every earlier time, and an expired one stays expired. */
  lemma ValidityMonotone(s: Session, earlier: int, later: int)
    requires earlier <= later
    ensures IsValid(s, later) ==> IsValid(s, earlier)
    ensures !IsValid(s, earlier) ==> !IsValid(s, later)
  {
  }

  /** A session expires at its expiration date: valid one second before, invalid at that instant and after. */
  lemma ExpiresAtExpirationDate(s: Session, now: int)
    ensures IsValid(s, s.expirationDate - 1)
    ensures !IsValid(s, s.expirationDate)
    ensures now >= s.expirationDate ==> !IsValid(s, now)
  {
  }
}
