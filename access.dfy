/**
 * Who may use the gates: `GateSystem.is_authorized`, with its one side
 * effect (the downgrade of an expired premium), and the tier that
 * `gates_command` and the "back" callback display.
 */
module Access {
  import opened Users

  /** What is_authorized answers; Expired is a refusal that also writes the downgrade. */
  datatype Decision = Granted | Denied | Expired

  /**
   * is_authorized: the staff roles first, in the order founder, cofounder,
   * moderator; then `premium is False` refuses, and `premium is True`
   * grants when there is no expiry or the expiry is still ahead. A stored
   * expiry that cannot be parsed reaches the handler, whose test
   * `premium_until is None` never holds there, so it refuses. Any other
   * premium value (truthy or not) refuses.
   */
  function Authorize(u: UserRecord, now: int): (d: Decision)
    ensures d == Granted <==>
      IsStaff(u) || (u.premium == FlagTrue && (u.premiumUntil == NoExpiry || (u.premiumUntil.At? && now < u.premiumUntil.instant)))
    ensures d == Expired <==>
      !IsStaff(u) && u.premium == FlagTrue && u.premiumUntil.At? && u.premiumUntil.instant <= now
  {
    if u.founder then Granted
    else if u.cofounder then Granted
    else if u.moderator then Granted
    else if u.premium == FlagFalse then Denied
    else if u.premium == FlagTrue then
      match u.premiumUntil
      case NoExpiry => Granted
      case At(t) => if now < t then Granted else Expired
      case Unparsable => Denied
    else Denied
  }

  /** The record after is_authorized: only an expired premium is written, and only with the downgrade. */
  function AfterAuthorize(u: UserRecord, now: int): (v: UserRecord)
    ensures v != u ==> Authorize(u, now) == Expired && v == Downgraded(u)
    ensures Authorize(u, now) == Expired ==> v == Downgraded(u)
  {
    if Authorize(u, now) == Expired then Downgraded(u) else u
  }

  /** A staff role grants access whatever the premium fields hold. */
  lemma StaffIgnoresPremium(u: UserRecord, now: int, p: Flag, e: Expiry)
    requires IsStaff(u)
    ensures Authorize(u.(premium := p, premiumUntil := e), now) == Granted
  {
  }

  /** After the downgrade, a second check refuses without writing again. */
  lemma AuthorizeSettles(u: UserRecord, now: int)
    ensures var v := AfterAuthorize(u, now);
      && AfterAuthorize(v, now) == v
      && Authorize(v, now) == (if Authorize(u, now) == Expired then Denied else Authorize(u, now))
  {
  }

  /** Expired premium is refused at every later instant as well, once the downgrade is stored. */
  lemma DowngradeIsFinal(u: UserRecord, now: int, later: int)
    requires Authorize(u, now) == Expired && now <= later
    ensures Authorize(Downgraded(u), later) == Denied
  {
  }

  /** Tiers shown by gates_command, in the order the code tests them. */
  datatype Tier = FounderTier | CofounderTier | ModeratorTier | PremiumTier | StandardTier

  /**
   * `premium_valid` of gates_command and of the "back" callback: a truthy
   * premium flag, and then no expiry, an expiry still ahead, or an expiry
   * that fails to parse (the handler counts that as valid).
   */
  function DisplayValid(u: UserRecord, now: int): (b: bool)
    ensures b <==> Truthy(u.premium) && (u.premiumUntil.At? ==> now < u.premiumUntil.instant)
  {
    if !Truthy(u.premium) then false
    else
      match u.premiumUntil
      case NoExpiry => true
      case At(t) => now < t
      case Unparsable => true
  }

  function DisplayTier(u: UserRecord, now: int): (t: Tier)
    ensures t == FounderTier <==> u.founder
    ensures t == CofounderTier <==> !u.founder && u.cofounder
    ensures t == ModeratorTier <==> !u.founder && !u.cofounder && u.moderator
    ensures t == PremiumTier <==> !IsStaff(u) && DisplayValid(u, now)
  {
    if u.founder then FounderTier
    else if u.cofounder then CofounderTier
    else if u.moderator then ModeratorTier
    else if DisplayValid(u, now) then PremiumTier
    else StandardTier
  }

  /** The downgrade is written only when the display already shows the standard tier, so it never changes the tier. */
  lemma DowngradeKeepsTier(u: UserRecord, now: int)
    ensures DisplayTier(AfterAuthorize(u, now), now) == DisplayTier(u, now)
    ensures Authorize(u, now) == Expired ==> DisplayTier(u, now) == StandardTier
  {
  }

  /**
   * Two checks at instants in order write what the later check alone
   * writes: a premium expired at the first is expired at the second, and
   * the downgraded record has nothing left to downgrade.
   */
  lemma AuthorizeTwice(u: UserRecord, now: int, later: int)
    requires now <= later
    ensures AfterAuthorize(AfterAuthorize(u, now), later) == AfterAuthorize(u, later)
  {
  }

  /** The tier shown at any instant from the check on is the same with or without the check's downgrade. */
  lemma DowngradeKeepsLaterTier(u: UserRecord, now: int, later: int)
    requires now <= later
    ensures DisplayTier(AfterAuthorize(u, now), later) == DisplayTier(u, later)
  {
  }

  /**
   * A premium whose expiry falls between an authorization and a later
   * display read passes the check and is still shown the standard tier.
   */
  lemma ExpiryBetweenReads(u: UserRecord, now: int, later: int)
    requires !IsStaff(u) && u.premium == FlagTrue && u.premiumUntil.At?
    requires now < u.premiumUntil.instant <= later
    ensures Authorize(u, now) == Granted && AfterAuthorize(u, now) == u
    ensures DisplayTier(u, later) == StandardTier
  {
  }

  /** Whoever is_authorized admits is shown a full-access tier. */
  lemma GrantedShowsFullAccess(u: UserRecord, now: int)
    requires Authorize(u, now) == Granted
    ensures DisplayTier(u, now) != StandardTier
  {
  }

  /** With a boolean flag and an expiry that parses (or none), the two readings agree. */
  lemma TierAgreesWithAuthorize(u: UserRecord, now: int)
    requires u.premium == FlagTrue || u.premium == FlagFalse
    requires u.premiumUntil != Unparsable
    ensures DisplayTier(u, now) != StandardTier <==> Authorize(u, now) == Granted
  {
  }

  /** An expiry that fails to parse: is_authorized refuses, the display calls the user premium. */
  lemma UnparsableExpiryDiffers(u: UserRecord, now: int)
    requires !IsStaff(u) && u.premium == FlagTrue && u.premiumUntil == Unparsable
    ensures Authorize(u, now) == Denied
    ensures DisplayTier(u, now) == PremiumTier
  {
  }

  /** A truthy flag that is not True: is_authorized refuses, the display may call the user premium. */
  lemma TruthyFlagDiffers(u: UserRecord, now: int)
    requires !IsStaff(u) && u.premium == FlagOther(true)
    ensures Authorize(u, now) == Denied
    ensures DisplayTier(u, now) == PremiumTier <==> (u.premiumUntil.At? ==> now < u.premiumUntil.instant)
  {
  }
}
