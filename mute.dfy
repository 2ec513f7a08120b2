/**
 * The moderation commands of run_bot.py: the `ADMIN_IDS` list read from the
 * environment, and the `muted_users` table that `/mute`, `/unmute` and the
 * per-message `check_mute_status` read and write. User ids are integers and
 * instants are whole seconds on the clock that `datetime.now()` reads.
 */
module Moderation {
  import opened Wrappers
  import opened Text

  /** The non-empty fields, in order: the `if admin_id` filter. */
  function Filled(fields: seq<string>): (r: seq<string>)
    ensures forall i :: 0 <= i < |r| ==> r[i] != []
    ensures |r| <= |fields|
    ensures forall x :: x in r <==> x in fields && x != []
  {
    if fields == [] then []
    else if fields[0] == [] then Filled(fields[1..])
    else [fields[0]] + Filled(fields[1..])
  }

  /** `int()` on every field, in order; None as soon as one raises ValueError. */
  function ParseAll(fields: seq<string>): (r: Option<seq<int>>)
    ensures r.Some? <==> forall i :: 0 <= i < |fields| ==> ParseInt(fields[i]).Some?
    ensures r.Some? ==> |r.value| == |fields| && forall i :: 0 <= i < |fields| ==> r.value[i] == ParseInt(fields[i]).value
  {
    if fields == [] then Some([])
    else
      match ParseInt(fields[0])
      case None => None
      case Some(n) =>
        match ParseAll(fields[1..])
        case None => None
        case Some(rest) => Some([n] + rest)
  }

  /**
   * `ADMIN_IDS`: unset or empty gives the empty list; otherwise the
   * comma-separated fields, empty ones skipped, each read with `int()`.
   * None is the ValueError that stops the bot while its module loads.
   */
  function AdminIds(env: Option<string>): (r: Option<seq<int>>)
    ensures env.None? || env == Some([]) ==> r == Some([])
  {
    if env.None? || env.value == [] then Some([])
    else ParseAll(Filled(Split(env.value, ',')))
  }

  /** Decimal renderings of ids, as written into the variable. */
  function ShowAll(ids: seq<nat>): (r: seq<string>)
    ensures |r| == |ids|
    ensures forall i :: 0 <= i < |r| ==> r[i] == ShowNat(ids[i])
  {
    if ids == [] then [] else [ShowNat(ids[0])] + ShowAll(ids[1..])
  }

  /** Fields that are all non-empty pass the filter whole. */
  lemma {:induction false} FilledKeepsNonEmpty(fields: seq<string>)
    requires forall i :: 0 <= i < |fields| ==> fields[i] != []
    ensures Filled(fields) == fields
  {
    if fields != [] {
      FilledKeepsNonEmpty(fields[1..]);
    }
  }

  /** `int()` reads back what `str()` wrote, field by field. */
  lemma ParseAllOfShowAll(ids: seq<nat>)
    ensures ParseAll(ShowAll(ids)) == Some(ids)
  {
    var parts := ShowAll(ids);
    forall i | 0 <= i < |parts|
      ensures ParseInt(parts[i]) == Some(ids[i])
    {
      ParseIntOfShowNat(ids[i]);
    }
    var r := ParseAll(parts);
    assert r.Some?;
    assert r.value == ids;
  }

  /** A comma-joined list of ids reads back as that list. */
  lemma AdminIdsOfJoin(ids: seq<nat>)
    requires ids != []
    ensures AdminIds(Some(Join(ShowAll(ids), ','))) == Some(ids)
  {
    var parts := ShowAll(ids);
    forall i | 0 <= i < |parts|
      ensures ',' !in parts[i] && parts[i] != []
    {
      assert AllDigits(ShowNat(ids[i]));
    }
    SplitOfJoin(parts, ',');
    FilledKeepsNonEmpty(parts);
    ParseAllOfShowAll(ids);
    assert Join(parts, ',') != [] by {
      JoinNonEmpty(parts, ',');
    }
  }

  /** A join whose first part is non-empty is non-empty. */
  lemma JoinNonEmpty(parts: seq<string>, sep: char)
    requires |parts| >= 1 && parts[0] != []
    ensures Join(parts, sep) != []
  {
  }

  /** Empty fields are skipped: a trailing comma, or doubled commas, change nothing. */
  lemma {:induction false} FilledSkipsEmpty(a: seq<string>, b: seq<string>)
    ensures Filled(a + [[]] + b) == Filled(a + b)
  {
    if a == [] {
      assert a + [[]] + b == [[]] + b;
      assert ([[]] + b)[1..] == b;
      assert a + b == b;
    } else {
      assert (a + [[]] + b)[1..] == a[1..] + [[]] + b;
      assert (a + b)[1..] == a[1..] + b;
      FilledSkipsEmpty(a[1..], b);
    }
  }

  /** Seconds per unit for the suffixes `/mute` accepts. */
  function UnitSeconds(c: char): Option<nat> {
    match c
    case 's' => Some(1)
    case 'm' => Some(60)
    case 'h' => Some(3600)
    case 'd' => Some(86400)
    case _ => None
  }

  /** The duration argument of `/mute`: a count of seconds, an unknown suffix, or a count `int()` rejects. */
  datatype Duration = Seconds(n: int) | BadUnit | BadNumber

  /**
   * The suffix is tested first, in the order s, m, h, d; the text before it
   * is read with `int()`, which may also accept a sign (so a negative
   * duration is possible) and rejects anything else.
   */
  function ParseDuration(t: string): Duration {
    if t == [] then BadUnit
    else
      match UnitSeconds(t[|t| - 1])
      case None => BadUnit
      case Some(unit) =>
        match ParseInt(t[..|t| - 1])
        case None => BadNumber
        case Some(count) => Seconds(count * unit)
  }

  /** A known suffix is required; then the count must parse, and the duration is the count times the unit. */
  lemma ParseDurationMeans(t: string)
    ensures ParseDuration(t) == BadUnit <==> t == [] || UnitSeconds(t[|t| - 1]).None?
    ensures ParseDuration(t).Seconds? <==> t != [] && UnitSeconds(t[|t| - 1]).Some? && ParseInt(t[..|t| - 1]).Some?
    ensures ParseDuration(t).Seconds? ==> ParseDuration(t).n == ParseInt(t[..|t| - 1]).value * UnitSeconds(t[|t| - 1]).value
  {
  }

  /**
   * `n` followed by s, m, h or d lasts n, n·60, n·3600 or n·86400 seconds
   * (the table in UnitSeconds); followed by any other character it is
   * refused for its suffix.
   */
  lemma DurationOfCount(n: nat, c: char)
    ensures ParseDuration(ShowNat(n) + [c]) ==
      match UnitSeconds(c)
      case Some(k) => Seconds(n * k)
      case None => BadUnit
  {
    var s := ShowNat(n);
    var t := s + [c];
    assert t[|t| - 1] == c;
    assert t[..|t| - 1] == s;
    ParseIntOfShowNat(n);
  }

  /** A bare number, with no unit, is refused for its suffix. */
  lemma DurationNeedsUnit(n: nat)
    ensures ParseDuration(ShowNat(n)) == BadUnit
  {
    var s := ShowNat(n);
    assert IsDigit(s[|s| - 1]);
    assert UnitSeconds(s[|s| - 1]).None?;
  }

  /** Who a command names: an id, or a reason it names no one. */
  datatype Target = Found(id: int) | NotHandle | LookupFailed

  /**
   * The user argument: `int()` of it when that succeeds; otherwise it must
   * start with `@`, and `lookup` stands for `get_chat` (None when it raises).
   */
  function ResolveTarget(arg: string, lookup: string -> Option<int>): (t: Target)
    ensures ParseInt(arg).Some? ==> t == Found(ParseInt(arg).value)
    ensures t == NotHandle <==> ParseInt(arg).None? && !StartsWith(arg, "@")
    ensures t == LookupFailed <==> ParseInt(arg).None? && StartsWith(arg, "@") && lookup(arg).None?
    ensures ParseInt(arg).None? && StartsWith(arg, "@") && lookup(arg).Some? ==> t == Found(lookup(arg).value)
  {
    match ParseInt(arg)
    case Some(n) => Found(n)
    case None =>
      if !StartsWith(arg, "@") then NotHandle
      else
        match lookup(arg)
        case None => LookupFailed
        case Some(id) => Found(id)
  }

  /** A numeric id is taken as it is, without a lookup. */
  lemma NumericTarget(n: nat, lookup: string -> Option<int>)
    ensures ResolveTarget(ShowNat(n), lookup) == Found(n)
  {
    ParseIntOfShowNat(n);
  }

  /** What `/mute` answers. */
  datatype MuteReply = NotAdmin | MuteUsage | BadTarget(why: Target) | BadDuration | TemporaryError | MutedUntil(user: int, until: int)

  /** What `/unmute` answers. */
  datatype UnmuteReply = NotAllowed | UnmuteUsage | NoTarget(why: Target) | Unmuted(user: int) | NotMuted

  /** The module-level state shared by the handlers: the admin list and `muted_users` (user id to end of the mute). */
  class MuteTable {
    const admins: seq<int>
    var muted: map<int, int>

    /**
     * Module load: `ADMIN_IDS` read from the environment value `env` and an
     * empty `muted_users`. When the read raises, the module never loads, so
     * there is no table.
     */
    constructor (env: Option<string>)
      requires AdminIds(env).Some?
      ensures admins == AdminIds(env).value && muted == map[]
    {
      admins := AdminIds(env).value;
      muted := map[];
    }

    /**
     * `/mute <user> <time>`: only an admin, only with at least two
     * arguments; the user is resolved before the duration is read. A
     * successful mute sets the entry to now plus the duration, replacing any
     * earlier one; every other path leaves the table as it was.
     */
    method Mute(caller: int, args: seq<string>, now: int, lookup: string -> Option<int>) returns (r: MuteReply)
      modifies this
      ensures caller !in admins ==> r == NotAdmin
      ensures caller in admins && |args| < 2 ==> r == MuteUsage
      ensures r.BadTarget? <==> caller in admins && |args| >= 2 && !ResolveTarget(args[0], lookup).Found?
      ensures r.BadTarget? ==> r.why == ResolveTarget(args[0], lookup)
      ensures r == BadDuration <==>
        caller in admins && |args| >= 2 && ResolveTarget(args[0], lookup).Found? && ParseDuration(args[1]) == BadUnit
      ensures r == TemporaryError <==>
        caller in admins && |args| >= 2 && ResolveTarget(args[0], lookup).Found? && ParseDuration(args[1]) == BadNumber
      ensures r.MutedUntil? <==>
        caller in admins && |args| >= 2 && ResolveTarget(args[0], lookup).Found? && ParseDuration(args[1]).Seconds?
      ensures r.MutedUntil? ==>
        && r.user == ResolveTarget(args[0], lookup).id
        && r.until == now + ParseDuration(args[1]).n
        && muted == old(muted)[r.user := r.until]
      ensures !r.MutedUntil? ==> muted == old(muted)
    {
      if caller !in admins {
        return NotAdmin;
      }
      if |args| < 2 {
        return MuteUsage;
      }
      var target := ResolveTarget(args[0], lookup);
      if !target.Found? {
        return BadTarget(target);
      }
      var duration := ParseDuration(args[1]);
      if duration == BadUnit {
        return BadDuration;
      }
      if duration == BadNumber {
        // the ValueError of int() reaches the handler's generic except
        return TemporaryError;
      }
      var until := now + duration.n;
      muted := muted[target.id := until];
      r := MutedUntil(target.id, until);
    }

    /**
     * `/unmute <user>`: only an admin, only with exactly one argument;
     * deletes the user's entry when there is one, and otherwise answers that
     * the user is not muted.
     */
    method Unmute(caller: int, args: seq<string>, lookup: string -> Option<int>) returns (r: UnmuteReply)
      modifies this
      ensures caller !in admins ==> r == NotAllowed
      ensures caller in admins && |args| != 1 ==> r == UnmuteUsage
      ensures r.NoTarget? <==> caller in admins && |args| == 1 && !ResolveTarget(args[0], lookup).Found?
      ensures r.NoTarget? ==> r.why == ResolveTarget(args[0], lookup)
      ensures r.Unmuted? <==>
        caller in admins && |args| == 1 && ResolveTarget(args[0], lookup).Found? && ResolveTarget(args[0], lookup).id in old(muted)
      ensures r == NotMuted <==>
        caller in admins && |args| == 1 && ResolveTarget(args[0], lookup).Found? && ResolveTarget(args[0], lookup).id !in old(muted)
      ensures r.Unmuted? ==> r.user == ResolveTarget(args[0], lookup).id && muted == old(muted) - {r.user}
      ensures !r.Unmuted? ==> muted == old(muted)
    {
      if caller !in admins {
        return NotAllowed;
      }
      if |args| != 1 {
        return UnmuteUsage;
      }
      var target := ResolveTarget(args[0], lookup);
      if !target.Found? {
        return NoTarget(target);
      }
      if target.id in muted {
        muted := muted - {target.id};
        return Unmuted(target.id);
      }
      return NotMuted;
    }

    /**
     * `check_mute_status` on a message from `user`: a mute still running
     * has the message deleted (the answer), an ended one is removed, and no
     * other entry is touched.
     */
    method CheckMuteStatus(user: int, now: int) returns (delete: bool)
      modifies this
      ensures delete <==> user in old(muted) && now < old(muted)[user]
      ensures muted == (if user in old(muted) && old(muted)[user] <= now then old(muted) - {user} else old(muted))
      ensures forall other :: other != user && other in old(muted) ==> other in muted && muted[other] == old(muted)[other]
      ensures muted.Keys <= old(muted).Keys
    {
      delete := false;
      if user in muted {
        var until := muted[user];
        if now < until {
          delete := true;
        } else {
          muted := muted - {user};
        }
      }
    }
  }
}
