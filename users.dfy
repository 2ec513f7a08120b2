/**
 * The user record the gates read and write in the store: staff roles,
 * credits ("loot"), the premium flag and expiry, and the checking
 * statistics.
 */
module Users {
  import opened Wrappers

  /**
   * The stored `premium` value. is_authorized compares it with `is True` and
   * `is False`, while gates_command and process_gate_card only ask for its
   * truthiness, so a value that is neither boolean keeps its truthiness.
   * A missing key reads as False.
   */
  datatype Flag = FlagTrue | FlagFalse | FlagOther(truthy: bool)

  /** Python truthiness of the stored flag. */
  function Truthy(f: Flag): (b: bool)
    ensures f == FlagTrue ==> b
    ensures f == FlagFalse ==> !b
  {
    match f
    case FlagTrue => true
    case FlagFalse => false
    case FlagOther(t) => t
  }

  /**
   * The stored `premium_until`: falsy (None or empty), an instant that
   * `datetime.fromisoformat` reads (or a datetime object), or a truthy value
   * that raises when it is parsed or compared with the clock.
   */
  datatype Expiry = NoExpiry | At(instant: int) | Unparsable

  /** One gateway's entry in `gateway_stats`. */
  datatype Counter = Counter(success: nat, total: nat)

  /**
   * A user's record. The roles are what `db.is_founder`, `db.is_cofounder`
   * and `db.is_moderator` answer; `totalChecked` is None when the record has no
   * `total_checked` key.
   */
  datatype UserRecord = UserRecord(
    founder: bool,
    cofounder: bool,
    moderator: bool,
    credits: int,
    premium: Flag,
    premiumUntil: Expiry,
    totalChecked: Option<int>,
    gatewayStats: map<string, Counter>)

  predicate IsStaff(u: UserRecord) {
    u.founder || u.cofounder || u.moderator
  }

  /** A second write to the same record replaces the first. */
  lemma Overwrite(store: map<string, UserRecord>, uid: string, a: UserRecord, b: UserRecord)
    ensures store[uid := a][uid := b] == store[uid := b]
  {
  }

  /** Writing a new balance over a balance written before leaves only the last write. */
  lemma RewriteCredits(store: map<string, UserRecord>, uid: string, u: UserRecord, c: int, d: int)
    ensures var s := store[uid := u.(credits := c)];
      s[uid := s[uid].(credits := d)] == store[uid := u.(credits := d)]
  {
  }

  /** The write `{'premium': False, 'premium_until': None}` merged into a record. */
  function Downgraded(u: UserRecord): (d: UserRecord)
    ensures d.premium == FlagFalse && d.premiumUntil == NoExpiry
    ensures d.(premium := u.premium, premiumUntil := u.premiumUntil) == u
  {
    u.(premium := FlagFalse, premiumUntil := NoExpiry)
  }
}
