/**
 * The `GateSystem` object and the three Telegram handlers built on it:
 * `/gates` (gates_command), the inline-button callbacks
 * (handle_gate_callback) and the message handler that checks cards
 * (process_gate_card). The user store is the database the handlers read and
 * write through `db.get_user` and `db.update_user`, keyed by the user id as
 * a string; `sessions` is `active_sessions`.
 */
module Gates {
  import opened Wrappers
  import opened Users
  import opened Access
  import opened Tokens
  import opened Gateways
  import opened RateGuard
  import opened Batch

  /** Credits a user whom is_authorized refuses needs to open the menu. */
  const MenuCost: nat := 5

  /** An entry of `active_sessions`: the chosen gate's callback key and display name, and when it was opened. */
  datatype Session = Session(gateType: string, gateName: string, openedAt: int)

  /** What /gates answers: the "not enough loot" notice, or the menu with the user's tier. */
  datatype MenuReply = NeedCredits(have: int) | Menu(tier: Tier)

  /** What a button press answers. */
  datatype CallbackReply = Closed | StatusPage | BackMenu(tier: Tier) | AccessDenied | GateOpened(name: string) | Unhandled

  class GateSystem {
    var store: map<string, UserRecord>
    var sessions: map<string, Session>

    /** Only known users hold sessions, and every session names one of the nine gates. */
    predicate Valid()
      reads this
    {
      && sessions.Keys <= store.Keys
      && forall id :: id in sessions ==> sessions[id].gateType in GateKeys
    }

    constructor (users: map<string, UserRecord>)
      ensures Valid()
      ensures store == users && sessions == map[]
    {
      store := users;
      sessions := map[];
    }

    /**
     * GateSystem.is_authorized: staff first, then the premium flag and its
     * expiry; an expired premium is written back as downgraded.
     */
    method IsAuthorized(uid: string, now: int) returns (ok: bool)
      requires uid in store
      modifies this
      ensures ok <==> Authorize(old(store[uid]), now) == Granted
      ensures store == old(store)[uid := AfterAuthorize(old(store[uid]), now)]
      ensures sessions == old(sessions)
      ensures old(Valid()) ==> Valid()
    {
      var u := store[uid];
      if u.founder {
        return true;
      }
      if u.cofounder {
        return true;
      }
      if u.moderator {
        return true;
      }
      if u.premium == FlagFalse {
        return false;
      }
      if u.premium == FlagTrue {
        match u.premiumUntil
        case NoExpiry =>
          return true;
        case At(t) =>
          if now < t {
            return true;
          }
          store := store[uid := u.(premium := FlagFalse, premiumUntil := NoExpiry)];
          return false;
        case Unparsable =>
          return false;
      }
      return false;
    }

    /**
     * gates_command: a user whom is_authorized refuses and who holds fewer
     * than five credits gets the notice; everyone else gets the menu, with
     * the tier of the record as it was. The handler reads the clock three
     * times: `now` in the first is_authorized, `recheck` in the second and
     * `shown` for the menu's premium test.
     */
    method GatesCommand(uid: string, now: int, recheck: int, shown: int) returns (r: MenuReply)
      requires Valid() && uid in store
      requires now <= recheck <= shown
      modifies this
      ensures Valid()
      ensures r.NeedCredits? ==> store == old(store)[uid := AfterAuthorize(old(store[uid]), now)]
      ensures r.Menu? ==> store == old(store)[uid := AfterAuthorize(old(store[uid]), recheck)]
      ensures sessions == old(sessions)
      ensures r.NeedCredits? <==> Authorize(old(store[uid]), now) != Granted && old(store[uid]).credits < MenuCost
      ensures r.NeedCredits? ==> r.have == old(store[uid]).credits
      ensures r.Menu? ==> r.tier == DisplayTier(old(store[uid]), shown)
    {
      var before := store[uid];
      var authorized := IsAuthorized(uid, now);
      if !authorized && before.credits < MenuCost {
        return NeedCredits(before.credits);
      }
      authorized := IsAuthorized(uid, recheck);
      AuthorizeTwice(before, now, recheck);
      var current := store[uid];
      DowngradeKeepsLaterTier(before, recheck, shown);
      r := Menu(DisplayTier(current, shown));
    }

    /**
     * handle_gate_callback: close and status only answer; "back" checks
     * authorization (which may downgrade) and shows the tier of the record
     * read before; a gate button opens a session for an authorized user and
     * refuses anyone else. is_authorized reads the clock at `now`; the
     * "back" premium test and the session's timestamp read it at `later`.
     */
    method HandleGateCallback(uid: string, data: string, now: int, later: int) returns (r: CallbackReply)
      requires Valid() && uid in store
      requires now <= later
      modifies this
      ensures Valid()
      ensures store == (if data == "gates_back" || data in GateKeys
                        then old(store)[uid := AfterAuthorize(old(store[uid]), now)] else old(store))
      ensures sessions == (if data in GateKeys && Authorize(old(store[uid]), now) == Granted
                           then old(sessions)[uid := Session(data, GateName(data).value, later)] else old(sessions))
      ensures r == Closed <==> data == "gates_close"
      ensures r == StatusPage <==> data == "gates_status"
      ensures r.BackMenu? <==> data == "gates_back"
      ensures r.BackMenu? ==> r.tier == DisplayTier(old(store[uid]), later)
      ensures r == AccessDenied <==> data in GateKeys && Authorize(old(store[uid]), now) != Granted
      ensures r.GateOpened? <==> data in GateKeys && Authorize(old(store[uid]), now) == Granted
      ensures r.GateOpened? ==> r.name == GateName(data).value
      ensures r == Unhandled <==>
        data != "gates_close" && data != "gates_status" && data != "gates_back" && data !in GateKeys
    {
      if data == "gates_close" {
        return Closed;
      }
      if data == "gates_status" {
        return StatusPage;
      }
      if data == "gates_back" {
        var before := store[uid];
        var _ := IsAuthorized(uid, now);
        return BackMenu(DisplayTier(before, later));
      }
      var name := GateName(data);
      if name.Some? {
        var authorized := IsAuthorized(uid, now);
        if !authorized {
          return AccessDenied;
        }
        sessions := sessions[uid := Session(data, name.value, later)];
        return GateOpened(name.value);
      }
      return Unhandled;
    }

    /**
     * process_gate_card: without a session nothing happens; otherwise the
     * cards in the message are checked on the session's gate as the Batch
     * function describes, with card `i` using the draws `draw(i)` and the
     * transport answers `calls(i)`.
     */
    method ProcessGateCard(uid: string, text: string, draw: nat -> Draw, calls: nat -> TurnCalls) returns (r: Reply)
      requires Valid()
      modifies this
      ensures Valid()
      ensures uid !in old(sessions) ==> r == Ignored && store == old(store) && sessions == old(sessions)
      ensures uid in old(sessions) ==>
        var e := Process(old(store[uid]), GateOf(old(sessions[uid]).gateType), text, draw, calls);
        && r == e.reply
        && store == old(store)[uid := e.user]
        && sessions == (if e.endsSession then old(sessions) - {uid} else old(sessions))
    {
      if uid !in sessions {
        return Ignored;
      }
      var g := GateOf(sessions[uid].gateType);
      var tokens := ExtractTokens(text);
      r := ProcessTokens(uid, g, tokens, draw, calls);
    }

    /**
     * The handler once the cards are found: the refusals, in the order the
     * code tests them, then the card loop, the rollup and the end of the
     * session.
     */
    method ProcessTokens(uid: string, g: Gateway, tokens: seq<string>, draw: nat -> Draw, calls: nat -> TurnCalls)
      returns (r: Reply)
      requires Valid() && uid in sessions
      modifies this
      ensures Valid()
      ensures var e := Handle(old(store[uid]), tokens, Attempts(g, tokens, draw, calls));
        && r == e.reply
        && store == old(store)[uid := e.user]
        && sessions == (if e.endsSession then old(sessions) - {uid} else old(sessions))
    {
      if tokens == [] {
        return Refused(NoTokens);
      }
      var u := store[uid];
      if !(u.founder || u.cofounder || Truthy(u.premium)) {
        return Refused(NotEntitled);
      }
      if |tokens| > MaxCards {
        return Refused(OverCap(|tokens|));
      }
      var cost := |tokens| * PreflightCost;
      if u.credits < cost {
        return Refused(ShortOfCredits(cost, u.credits));
      }
      r := RunAndRollup(uid, g, tokens, draw, calls);
    }

    /** The card loop; unless it aborts, the statistics and the end of the session. */
    method RunAndRollup(uid: string, g: Gateway, tokens: seq<string>, draw: nat -> Draw, calls: nat -> TurnCalls)
      returns (r: Reply)
      requires Valid() && uid in sessions
      modifies this
      ensures Valid()
      ensures var e := Proceed(old(store[uid]), |tokens|, Attempts(g, tokens, draw, calls));
        && r == e.reply
        && store == old(store)[uid := e.user]
        && sessions == (if e.endsSession then old(sessions) - {uid} else old(sessions))
    {
      var results, stop := RunCards(uid, g, tokens, draw, calls);
      if stop == Aborted || stop == NoticeFailed {
        return Crashed(|results|);
      }
      ghost var debited := store;
      UpdateStats(uid, |tokens|, results);
      Overwrite(old(store), uid, debited[uid], store[uid]);
      sessions := sessions - {uid};
      r := Completed(results, stop == Halted);
    }

    /**
     * The card loop of process_gate_card: before each card, a balance of at
     * least 1 is debited by 1, otherwise the loop sends its notice and stops;
     * the card is checked on gate `g` and its result shown. An exception from
     * the simulator, the malformed record, or a transport call that raises
     * (the notice included) leaves the handler at once.
     */
    method RunCards(uid: string, g: Gateway, tokens: seq<string>, draw: nat -> Draw, calls: nat -> TurnCalls)
      returns (results: seq<Verdict>, stop: Stop)
      requires uid in store
      modifies this
      ensures var run := RunFrom(Attempts(g, tokens, draw, calls), 0, old(store[uid]).credits, []);
        && results == run.results && stop == run.stop
        && store == old(store)[uid := old(store[uid]).(credits := run.credits)]
      ensures sessions == old(sessions)
    {
      var u := store[uid];
      ghost var attempts := Attempts(g, tokens, draw, calls);
      ghost var run := RunFrom(attempts, 0, u.credits, []);
      ghost var credits := u.credits;
      results := [];
      var i := 0;
      while i < |tokens|
        invariant 0 <= i <= |tokens|
        invariant store == old(store)[uid := old(store[uid]).(credits := credits)]
        invariant sessions == old(sessions)
        invariant RunFrom(attempts, i, credits, results) == run
        decreases |tokens| - i
      {
        var current := store[uid];
        if current.credits < 1 {
          // the "insufficient loot" notice, which may raise
          NoticeAt(g, tokens, draw, calls, i);
          RunHalts(attempts, i, credits, results);
          return results, if calls(i).noticeRaises then NoticeFailed else Halted;
        }
        Debit(uid);
        RewriteCredits(old(store), uid, old(store[uid]), credits, credits - 1);
        credits := credits - 1;
        var outcome, raised := CheckCard(g, tokens, draw, calls, i);
        if raised || outcome.None? || outcome.value.Malformed? {
          // a transport call raised, the simulator raised, or the malformed
          // record has no `gateway` to show
          RunAborts(attempts, i, credits + 1, results);
          return results, Aborted;
        }
        RunSteps(attempts, i, credits + 1, results);
        results := results + [outcome.value.verdict];
        i := i + 1;
      }
      stop := Finished;
    }

    /** `update_user(uid, {'credits': credits - 1})`: the debit of one card. */
    method Debit(uid: string)
      requires uid in store
      modifies this
      ensures store == old(store)[uid := old(store[uid]).(credits := old(store[uid]).credits - 1)]
      ensures sessions == old(sessions)
    {
      var current := store[uid];
      store := store[uid := current.(credits := current.credits - 1)];
    }

    /**
     * The statistics block of process_gate_card: tally the results per
     * gateway, then add the tally into the stored `gateway_stats` and write
     * it with the new `total_checked`. A record without `total_checked`
     * raises before the write, and the handler goes on without one.
     */
    method UpdateStats(uid: string, found: nat, results: seq<Verdict>)
      requires uid in store
      modifies this
      ensures store == old(store)[uid := Batch.Rollup(old(store[uid]), found, results)]
      ensures sessions == old(sessions)
    {
      var current := store[uid];
      if current.totalChecked.None? {
        return;
      }
      var tally := TallyOf(results);
      var merged := MergeInto(current.gatewayStats, tally);
      store := store[uid := current.(totalChecked := Some(current.totalChecked.value + found), gatewayStats := merged)];
    }
  }

  /**
   * One card's turn in the loop, in the order of its calls: the "starting"
   * message, the two progress edits, the gate's check (None when it
   * raises), then safe_edit_message showing the result. `raised` says
   * whether one of the transport calls raised.
   */
  method CheckCard(g: Gateway, tokens: seq<string>, draw: nat -> Draw, calls: nat -> TurnCalls, i: nat)
    returns (outcome: Option<Outcome>, raised: bool)
    requires i < |tokens|
    ensures Attempt(outcome, raised, calls(i).noticeRaises) == Attempts(g, tokens, draw, calls)[i]
  {
    AttemptAt(g, tokens, draw, calls, i);
    var c := calls(i);
    raised := c.startRaises;
    if !raised {
      var progress := SafeEdit(c.verifying);
      raised := progress.raised;
    }
    if !raised {
      var progress := SafeEdit(c.processing);
      raised := progress.raised;
    }
    outcome := Simulate(g, tokens[i], draw(i));
    if !raised {
      var shown := SafeEdit(c.result);
      raised := shown.raised;
    }
  }

  /** The rollup's first loop: per gateway, the number of results and of accepted ones. */
  method TallyOf(results: seq<Verdict>) returns (tally: map<string, Counter>)
    ensures tally == Tally(results)
  {
    tally := map[];
    var j := 0;
    while j < |results|
      invariant 0 <= j <= |results|
      invariant TallyInto(tally, results[j..]) == Tally(results)
    {
      var v := results[j];
      assert results[j..][1..] == results[j + 1..];
      tally := Bump(tally, v);
      j := j + 1;
    }
  }

  /** The rollup's second loop: every tallied gateway's counters added into the stored ones, a missing entry counting as zero. */
  method MergeInto(stored: map<string, Counter>, tally: map<string, Counter>) returns (merged: map<string, Counter>)
    ensures merged == Merge(stored, tally)
  {
    merged := stored;
    var todo := tally.Keys;
    MergeOverNothing(stored, tally);
    while todo != {}
      invariant todo <= tally.Keys
      invariant merged == MergeOver(stored, tally, tally.Keys - todo)
      decreases |todo|
    {
      var gateway :| gateway in todo;
      MergeAdvance(stored, tally, todo, gateway);
      merged := merged[gateway := Add(Get(merged, gateway), Get(tally, gateway))];
      todo := todo - {gateway};
    }
    MergeDone(stored, tally, todo);
  }
}
