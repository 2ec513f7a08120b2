/**
 * What `process_gate_card` does with one message, as a function of the
 * user's record, the session's gate, the message text and the random
 * draws: the refusals before any work, the card-by-card loop that debits one
 * credit per card, and the statistics rollup. The GateSystem class runs the
 * same steps imperatively and is proved to agree with this function.
 */
module Batch {
  import opened Wrappers
  import opened Text
  import opened Users
  import opened Tokens
  import opened Gateways
  import opened RateGuard

  /** Cards per message for every tier that may check cards. */
  const MaxCards: nat := 15

  /** Credits the preflight demands per card; the loop itself debits one per card. */
  const PreflightCost: nat := 5

  /** Why a message is turned away before the first card. */
  datatype Refusal = NoTokens | NotEntitled | OverCap(count: nat) | ShortOfCredits(need: int, have: int)

  /**
   * How the loop ended: all cards; the credit check (`break`) after its
   * notice; the credit check whose notice raised; or an exception out of a
   * card's turn. The last two leave the handler.
   */
  datatype Stop = Finished | Halted | NoticeFailed | Aborted

  /** The balance, the verdicts appended to `results`, and how the loop ended. */
  datatype Run = Run(credits: int, results: seq<Verdict>, stop: Stop)

  /** The tier test of process_gate_card: founder, cofounder or a truthy premium flag; the expiry is not read. */
  predicate Entitled(u: UserRecord) {
    u.founder || u.cofounder || Truthy(u.premium)
  }

  /** The checks in front of the loop, in the order the handler makes them. */
  function Preflight(u: UserRecord, tokens: seq<string>): (r: Option<Refusal>)
    ensures r.None? <==>
      tokens != [] && Entitled(u) && |tokens| <= MaxCards && u.credits >= PreflightCost * |tokens|
  {
    if tokens == [] then Some(NoTokens)
    else if !Entitled(u) then Some(NotEntitled)
    else if |tokens| > MaxCards then Some(OverCap(|tokens|))
    else if u.credits < PreflightCost * |tokens| then Some(ShortOfCredits(PreflightCost * |tokens|, u.credits))
    else None
  }

  /**
   * The transport answers of one card's turn, in the order the calls are
   * made: the "insufficient loot" `reply_text` (made only when the balance
   * is short), the "starting" `reply_text`, the two progress edits and the
   * result edit (each a safe_edit_message). A `bool` says whether that
   * `reply_text` raises.
   */
  datatype TurnCalls = TurnCalls(noticeRaises: bool, startRaises: bool, verifying: Transport, processing: Transport, result: Transport)

  /** Whether one of the calls of a turn that starts raises out of the handler. */
  predicate TurnRaises(c: TurnCalls) {
    c.startRaises || SafeEdit(c.verifying).raised || SafeEdit(c.processing).raised || SafeEdit(c.result).raised
  }

  /**
   * One card's turn: the simulator's answer, whether a call of the turn
   * raised, and whether the short-balance notice would raise.
   */
  datatype Attempt = Attempt(outcome: Option<Outcome>, raised: bool, noticeRaised: bool)

  /** The turn of one card on gate `g`, with draws `d` and transport answers `c`. */
  function AttemptOf(g: Gateway, card: string, d: Draw, c: TurnCalls): Attempt {
    Attempt(Simulate(g, card, d), TurnRaises(c), c.noticeRaises)
  }

  /** The turns of the cards, in order; card `i` uses the draws `draw(i)` and the transport answers `calls(i)`. */
  function Attempts(g: Gateway, tokens: seq<string>, draw: nat -> Draw, calls: nat -> TurnCalls): (a: seq<Attempt>)
    ensures |a| == |tokens|
  {
    seq(|tokens|, i requires 0 <= i < |tokens| => AttemptOf(g, tokens[i], draw(i), calls(i)))
  }

  /** Unfolding helper: card `i`'s turn is its simulation, whether one of its calls raised, and its notice answer. */
  lemma AttemptAt(g: Gateway, tokens: seq<string>, draw: nat -> Draw, calls: nat -> TurnCalls, i: nat)
    requires i < |tokens|
    ensures Attempts(g, tokens, draw, calls)[i] == Attempt(Simulate(g, tokens[i], draw(i)), TurnRaises(calls(i)), calls(i).noticeRaises)
  {
  }

  /** Whether card `i`'s short-balance notice raises depends on its transport answers alone. */
  lemma NoticeAt(g: Gateway, tokens: seq<string>, draw: nat -> Draw, calls: nat -> TurnCalls, i: nat)
    requires i < |tokens|
    ensures Attempts(g, tokens, draw, calls)[i].noticeRaised == calls(i).noticeRaises
  {
  }

  /** A turn that completes: a judged card, and no call of the turn raised. */
  predicate Completes(a: Attempt) {
    a.outcome.Some? && a.outcome.value.Judged? && !a.raised
  }

  /**
   * The loop from card `k` on, with balance `credits` and the verdicts of
   * the cards shown so far: a card is started only while the balance is at
   * least 1, and costs exactly 1; a short balance sends the notice and
   * stops, and a notice that raises ends the handler. A simulator exception
   * (None), the malformed record (whose missing `gateway` key raises when
   * the result is shown) or a call of the turn that raises ends the handler
   * after the debit.
   */
  function RunFrom(attempts: seq<Attempt>, k: nat, credits: int, results: seq<Verdict>): Run
    requires k <= |attempts|
    decreases |attempts| - k
  {
    if k == |attempts| then Run(credits, results, Finished)
    else if credits < 1 then Run(credits, results, if attempts[k].noticeRaised then NoticeFailed else Halted)
    else if !Completes(attempts[k]) then Run(credits - 1, results, Aborted)
    else RunFrom(attempts, k + 1, credits - 1, results + [attempts[k].outcome.value.verdict])
  }

  /** The loop on a short balance: the notice, and the run stops with the balance untouched. */
  lemma RunHalts(attempts: seq<Attempt>, k: nat, credits: int, results: seq<Verdict>)
    requires k < |attempts| && credits < 1
    ensures RunFrom(attempts, k, credits, results) == Run(credits, results, if attempts[k].noticeRaised then NoticeFailed else Halted)
  {
  }

  /** The loop on a card that does not complete: its debit stands and the run ends. */
  lemma RunAborts(attempts: seq<Attempt>, k: nat, credits: int, results: seq<Verdict>)
    requires k < |attempts| && credits >= 1 && !Completes(attempts[k])
    ensures RunFrom(attempts, k, credits, results) == Run(credits - 1, results, Aborted)
  {
  }

  /** The loop on a card that completes: its verdict is kept and the run goes on with the next card. */
  lemma RunSteps(attempts: seq<Attempt>, k: nat, credits: int, results: seq<Verdict>)
    requires k < |attempts| && credits >= 1 && Completes(attempts[k])
    ensures RunFrom(attempts, k, credits, results) == RunFrom(attempts, k + 1, credits - 1, results + [attempts[k].outcome.value.verdict])
  {
  }

  /**
   * The loop's accounting: it keeps the verdicts it started with, adds one
   * verdict per completed card in order (the simulator's verdict on that
   * card), lowers the balance by exactly one per card it starts, halts only
   * on a balance below 1, and aborts only on a card that does not complete.
   */
  lemma RunAccounting(attempts: seq<Attempt>, k: nat, credits: int, results: seq<Verdict>)
    requires k <= |attempts|
    ensures var r := RunFrom(attempts, k, credits, results);
      var done := |r.results| - |results|;
      && |results| <= |r.results| <= |results| + |attempts| - k
      && r.results[..|results|] == results
      && (forall j :: k <= j < k + done ==>
            Completes(attempts[j]) && r.results[|results| + j - k] == attempts[j].outcome.value.verdict)
      && r.credits == credits - done - (if r.stop == Aborted then 1 else 0)
      && (r.stop == Finished ==> done == |attempts| - k)
      && (r.stop == Halted ==> r.credits < 1 && k + done < |attempts| && !attempts[k + done].noticeRaised)
      && (r.stop == NoticeFailed ==> r.credits < 1 && k + done < |attempts| && attempts[k + done].noticeRaised)
      && (r.stop == Aborted ==> credits - done >= 1 && k + done < |attempts| && !Completes(attempts[k + done]))
  {
    RunShape(attempts, k, credits, results);
    RunVerdicts(attempts, k, credits, results);
  }

  /** The balance, the number of verdicts and the stop reason of the loop. */
  lemma {:induction false} RunShape(attempts: seq<Attempt>, k: nat, credits: int, results: seq<Verdict>)
    requires k <= |attempts|
    ensures var r := RunFrom(attempts, k, credits, results);
      var done := |r.results| - |results|;
      && |results| <= |r.results| <= |results| + |attempts| - k
      && r.results[..|results|] == results
      && r.credits == credits - done - (if r.stop == Aborted then 1 else 0)
      && (r.stop == Finished ==> done == |attempts| - k)
      && (r.stop == Halted ==> r.credits < 1 && k + done < |attempts| && !attempts[k + done].noticeRaised)
      && (r.stop == NoticeFailed ==> r.credits < 1 && k + done < |attempts| && attempts[k + done].noticeRaised)
      && (r.stop == Aborted ==> credits - done >= 1 && k + done < |attempts| && !Completes(attempts[k + done]))
    decreases |attempts| - k
  {
    if k < |attempts| && credits >= 1 && Completes(attempts[k]) {
      var rs := results + [attempts[k].outcome.value.verdict];
      RunShape(attempts, k + 1, credits - 1, rs);
      var r := RunFrom(attempts, k + 1, credits - 1, rs);
      assert r.results[..|results|] == r.results[..|rs|][..|results|];
    }
  }

  /** The verdicts the loop appends are those of the cards it completes, in order. */
  lemma {:induction false} RunVerdicts(attempts: seq<Attempt>, k: nat, credits: int, results: seq<Verdict>)
    requires k <= |attempts|
    ensures var r := RunFrom(attempts, k, credits, results);
      forall j :: k <= j < |attempts| && j < k + |r.results| - |results| ==>
        Completes(attempts[j]) && r.results[|results| + j - k] == attempts[j].outcome.value.verdict
    decreases |attempts| - k
  {
    if k < |attempts| && credits >= 1 && Completes(attempts[k]) {
      var rs := results + [attempts[k].outcome.value.verdict];
      RunVerdicts(attempts, k + 1, credits - 1, rs);
      RunShape(attempts, k + 1, credits - 1, rs);
      var r := RunFrom(attempts, k + 1, credits - 1, rs);
      forall j | k <= j < |attempts| && j < k + |r.results| - |results|
        ensures Completes(attempts[j]) && r.results[|results| + j - k] == attempts[j].outcome.value.verdict
      {
        if j == k {
          assert r.results[|results|] == r.results[..|rs|][|results|];
        }
      }
    }
  }

  /** A balance that starts non-negative never goes below zero: the loop debits only from 1 up. */
  lemma {:induction false} RunKeepsCreditsNonNegative(attempts: seq<Attempt>, k: nat, credits: int, results: seq<Verdict>)
    requires k <= |attempts| && credits >= 0
    ensures RunFrom(attempts, k, credits, results).credits >= 0
    decreases |attempts| - k
  {
    if k < |attempts| && credits >= 1 && Completes(attempts[k]) {
      RunKeepsCreditsNonNegative(attempts, k + 1, credits - 1, results + [attempts[k].outcome.value.verdict]);
    }
  }

  /** When every card completes and the balance covers one credit per card, the loop processes every card. */
  lemma {:induction false} RunFinishes(attempts: seq<Attempt>, k: nat, credits: int, results: seq<Verdict>)
    requires k <= |attempts| && credits >= |attempts| - k
    requires forall i :: k <= i < |attempts| ==> Completes(attempts[i])
    ensures RunFrom(attempts, k, credits, results).stop == Finished
    decreases |attempts| - k
  {
    if k < |attempts| {
      RunFinishes(attempts, k + 1, credits - 1, results + [attempts[k].outcome.value.verdict]);
    }
  }

  function Get(stats: map<string, Counter>, gateway: string): Counter {
    if gateway in stats then stats[gateway] else Counter(0, 0)
  }

  function Add(a: Counter, b: Counter): Counter {
    Counter(a.success + b.success, a.total + b.total)
  }

  /** One result counted into the handler's `gateway_stats` dict. */
  function Bump(stats: map<string, Counter>, v: Verdict): map<string, Counter> {
    var key := v.gateway;
    var was := Get(stats, key);
    stats[key := Counter(was.success + (if v.live then 1 else 0), was.total + 1)]
  }

  /** `stats` with the results counted into it, first to last: the rollup's first loop. */
  function TallyInto(stats: map<string, Counter>, results: seq<Verdict>): map<string, Counter>
    decreases |results|
  {
    if results == [] then stats else TallyInto(Bump(stats, results[0]), results[1..])
  }

  /** The per-gateway counts of a batch's results, starting from the empty dict. */
  function Tally(results: seq<Verdict>): map<string, Counter> {
    TallyInto(map[], results)
  }

  /** Number of results from `gateway`. */
  function Hits(results: seq<Verdict>, gateway: string): nat
    decreases |results|
  {
    if results == [] then 0
    else (if results[0].gateway == gateway then 1 else 0) + Hits(results[1..], gateway)
  }

  /** Number of accepted results from `gateway`. */
  function LiveHits(results: seq<Verdict>, gateway: string): nat
    decreases |results|
  {
    if results == [] then 0
    else (if results[0].gateway == gateway && results[0].live then 1 else 0) + LiveHits(results[1..], gateway)
  }

  /** Counting one result adds one to its own gateway's `total`, one to its `success` when it was accepted, and that gateway to the keys. */
  lemma BumpGet(stats: map<string, Counter>, v: Verdict, gateway: string)
    ensures Get(Bump(stats, v), gateway).total == Get(stats, gateway).total + (if v.gateway == gateway then 1 else 0)
    ensures Get(Bump(stats, v), gateway).success == Get(stats, gateway).success + (if v.gateway == gateway && v.live then 1 else 0)
    ensures gateway in Bump(stats, v) <==> gateway in stats || v.gateway == gateway
  {
  }

  /** Counting results into a dict adds, per gateway, their number to `total` and their accepted number to `success`. */
  lemma {:induction false} TallyIntoCounts(stats: map<string, Counter>, results: seq<Verdict>, gateway: string)
    ensures Get(TallyInto(stats, results), gateway).total == Get(stats, gateway).total + Hits(results, gateway)
    ensures Get(TallyInto(stats, results), gateway).success == Get(stats, gateway).success + LiveHits(results, gateway)
    ensures gateway in TallyInto(stats, results) <==> gateway in stats || Hits(results, gateway) > 0
    decreases |results|
  {
    if results != [] {
      var first, rest := results[0], results[1..];
      TallyIntoCounts(Bump(stats, first), rest, gateway);
      BumpGet(stats, first, gateway);
    }
  }

  /** The tally holds, for each gateway that occurs, its result count as `total` and its accepted count as `success`. */
  lemma TallyCounts(results: seq<Verdict>, gateway: string)
    ensures Get(Tally(results), gateway) == Counter(LiveHits(results, gateway), Hits(results, gateway))
    ensures gateway in Tally(results) <==> Hits(results, gateway) > 0
  {
    TallyIntoCounts(map[], results, gateway);
  }

  /** No gateway has more accepted results than results. */
  lemma {:induction false} LiveAtMostHits(results: seq<Verdict>, gateway: string)
    ensures LiveHits(results, gateway) <= Hits(results, gateway)
    decreases |results|
  {
    if results != [] {
      LiveAtMostHits(results[1..], gateway);
    }
  }

  /** The stored statistics with the tally added in at the gateways of `done`. */
  function MergeOver(stored: map<string, Counter>, tally: map<string, Counter>, done: set<string>): map<string, Counter> {
    map gateway | gateway in stored.Keys + done ::
      if gateway in done then Add(Get(stored, gateway), Get(tally, gateway)) else stored[gateway]
  }

  /** Before the merge loop has visited any gateway, the stored statistics are unchanged. */
  lemma MergeOverNothing(stored: map<string, Counter>, tally: map<string, Counter>)
    ensures MergeOver(stored, tally, {}) == stored
  {
    assert MergeOver(stored, tally, {}).Keys == stored.Keys;
  }

  /** The rollup's second loop: each tallied gateway's counts added to the stored ones. */
  function Merge(stored: map<string, Counter>, tally: map<string, Counter>): (m: map<string, Counter>)
    ensures m.Keys == stored.Keys + tally.Keys
    ensures forall gateway :: Get(m, gateway) == Add(Get(stored, gateway), Get(tally, gateway))
  {
    MergeOver(stored, tally, tally.Keys)
  }

  /** Adding one more gateway's counts to a partial merge. */
  lemma MergeStep(stored: map<string, Counter>, tally: map<string, Counter>, done: set<string>, gateway: string)
    requires gateway !in done
    ensures var m := MergeOver(stored, tally, done);
      m[gateway := Add(Get(m, gateway), Get(tally, gateway))] == MergeOver(stored, tally, done + {gateway})
  {
    var m := MergeOver(stored, tally, done);
    var lhs := m[gateway := Add(Get(m, gateway), Get(tally, gateway))];
    var rhs := MergeOver(stored, tally, done + {gateway});
    assert Get(m, gateway) == Get(stored, gateway);
    assert lhs.Keys == rhs.Keys;
    forall k | k in lhs.Keys
      ensures lhs[k] == rhs[k]
    {
    }
  }

  /** One loop step: visiting a gateway still to do extends the partial merge by it. */
  lemma MergeAdvance(stored: map<string, Counter>, tally: map<string, Counter>, todo: set<string>, gateway: string)
    requires gateway in todo && todo <= tally.Keys
    ensures var m := MergeOver(stored, tally, tally.Keys - todo);
      m[gateway := Add(Get(m, gateway), Get(tally, gateway))] == MergeOver(stored, tally, tally.Keys - (todo - {gateway}))
  {
    MergeStep(stored, tally, tally.Keys - todo, gateway);
    assert tally.Keys - todo + {gateway} == tally.Keys - (todo - {gateway});
  }

  /** Once every tallied gateway is visited, the partial merge is the merge. */
  lemma MergeDone(stored: map<string, Counter>, tally: map<string, Counter>, todo: set<string>)
    requires todo == {}
    ensures MergeOver(stored, tally, tally.Keys - todo) == Merge(stored, tally)
  {
    assert tally.Keys - todo == tally.Keys;
  }

  /**
   * The rollup: `total_checked` grows by the number of cards found (not the
   * number processed) and the tally is merged into `gateway_stats`. A record
   * without `total_checked` raises, the handler swallows the exception, and
   * nothing is written.
   */
  function Rollup(u: UserRecord, found: nat, results: seq<Verdict>): UserRecord {
    match u.totalChecked
    case None => u
    case Some(n) => u.(totalChecked := Some(n + found), gatewayStats := Merge(u.gatewayStats, Tally(results)))
  }

  /** What the user is told (and whether the handler returned normally). */
  datatype Reply =
    | Ignored
    | Refused(why: Refusal)
    | Completed(results: seq<Verdict>, halted: bool)
    | Crashed(processed: nat)

  /** The handler's result: the user's new record, the reply, and whether the session ends. */
  datatype Effect = Effect(user: UserRecord, reply: Reply, endsSession: bool)

  /**
   * process_gate_card for a user with an open session on gate `g`; card `i`
   * uses the draws `draw(i)` and the transport answers `calls(i)`.
   */
  function Process(u: UserRecord, g: Gateway, text: string, draw: nat -> Draw, calls: nat -> TurnCalls): Effect {
    var tokens := ExtractTokens(text);
    Handle(u, tokens, Attempts(g, tokens, draw, calls))
  }

  /** The handler once the cards have been found in the message; `attempts[i]` is card `i`'s turn. */
  function Handle(u: UserRecord, tokens: seq<string>, attempts: seq<Attempt>): Effect
    requires |attempts| == |tokens|
  {
    match Preflight(u, tokens)
    case Some(why) => Effect(u, Refused(why), false)
    case None => Proceed(u, |tokens|, attempts)
  }

  /** After the preflight: the card loop over `found` cards; unless it aborts, the rollup and the end of the session. */
  function Proceed(u: UserRecord, found: nat, attempts: seq<Attempt>): Effect {
    var r := RunFrom(attempts, 0, u.credits, []);
    var debited := u.(credits := r.credits);
    if r.stop == Aborted || r.stop == NoticeFailed then Effect(debited, Crashed(|r.results|), false)
    else Effect(Rollup(debited, found, r.results), Completed(r.results, r.stop == Halted), true)
  }

  /** Every refusal returns before any debit, statistics write or session removal. */
  lemma RefusalChangesNothing(u: UserRecord, tokens: seq<string>, attempts: seq<Attempt>)
    requires |attempts| == |tokens| && Preflight(u, tokens).Some?
    ensures Handle(u, tokens, attempts) == Effect(u, Refused(Preflight(u, tokens).value), false)
  {
  }

  /** A moderator who is neither founder, cofounder nor premium-flagged is refused, although is_authorized admits them. */
  lemma ModeratorRefused(u: UserRecord, tokens: seq<string>, attempts: seq<Attempt>)
    requires u.moderator && !u.founder && !u.cofounder && !Truthy(u.premium)
    requires |attempts| == |tokens| && tokens != []
    ensures Handle(u, tokens, attempts).reply == Refused(NotEntitled)
  {
  }

  /** The preflight never looks at the premium expiry: an expired premium still passes it. */
  lemma PreflightIgnoresExpiry(u: UserRecord, tokens: seq<string>, e: Expiry)
    ensures Preflight(u.(premiumUntil := e), tokens) == Preflight(u, tokens)
  {
  }

  /**
   * The rollup writes `total_checked` and `gateway_stats` only: the count
   * grows by `found` and each gateway's counters by its tallied results.
   * Without `total_checked` nothing is written.
   */
  lemma RollupEffect(u: UserRecord, found: nat, results: seq<Verdict>)
    ensures var v := Rollup(u, found, results);
      && v.totalChecked == (if u.totalChecked.Some? then Some(u.totalChecked.value + found) else None)
      && (u.totalChecked.None? ==> v == u)
      && v.(totalChecked := u.totalChecked, gatewayStats := u.gatewayStats) == u
    ensures u.totalChecked.Some? ==> forall gateway ::
      Get(Rollup(u, found, results).gatewayStats, gateway) == Add(Get(u.gatewayStats, gateway), Get(Tally(results), gateway))
  {
  }

  /**
   * A handler that aborts keeps the session, skips the rollup, and leaves
   * the record as it was apart from a balance lowered by at least one.
   */
  lemma AbortKeepsSession(u: UserRecord, tokens: seq<string>, attempts: seq<Attempt>)
    requires |attempts| == |tokens| && Handle(u, tokens, attempts).reply.Crashed?
    ensures var e := Handle(u, tokens, attempts);
      && !e.endsSession
      && e.user.credits < u.credits
      && e.user.(credits := u.credits) == u
  {
    RunAccounting(attempts, 0, u.credits, []);
    CreditCheckNeverFires(u, tokens, attempts);
  }

  /**
   * Past the preflight (five credits per card) the balance covers the one
   * credit each card costs, so the loop's credit check never stops it and
   * its notice is never sent.
   */
  lemma CreditCheckNeverFires(u: UserRecord, tokens: seq<string>, attempts: seq<Attempt>)
    requires |attempts| == |tokens| && Preflight(u, tokens).None?
    ensures RunFrom(attempts, 0, u.credits, []).stop != Halted
    ensures RunFrom(attempts, 0, u.credits, []).stop != NoticeFailed
  {
    RunShape(attempts, 0, u.credits, []);
  }

  /** Card tokens are always judged; so when no call of a turn raises, every turn completes. */
  lemma AttemptsComplete(g: Gateway, tokens: seq<string>, draw: nat -> Draw, calls: nat -> TurnCalls)
    requires forall i :: 0 <= i < |tokens| ==> IsCardToken(tokens[i]) && !TurnRaises(calls(i))
    ensures forall i :: 0 <= i < |tokens| ==> Completes(Attempts(g, tokens, draw, calls)[i])
  {
    var attempts := Attempts(g, tokens, draw, calls);
    forall i | 0 <= i < |tokens|
      ensures Completes(attempts[i])
    {
      AttemptAt(g, tokens, draw, calls, i);
      TokenJudged(g, tokens[i], draw(i));
    }
  }

  /** When every card completes and the balance covers them, the loop shows every card's verdict, in order. */
  lemma RunAll(attempts: seq<Attempt>, credits: int)
    requires credits >= |attempts|
    requires forall i :: 0 <= i < |attempts| ==> Completes(attempts[i])
    ensures var r := RunFrom(attempts, 0, credits, []);
      && r.stop == Finished
      && r.credits == credits - |attempts|
      && |r.results| == |attempts|
      && (forall i :: 0 <= i < |attempts| ==> Completes(attempts[i]) && r.results[i] == attempts[i].outcome.value.verdict)
  {
    RunFinishes(attempts, 0, credits, []);
    RunAccounting(attempts, 0, credits, []);
  }

  /**
   * When the preflight passes and every card completes, the balance (five
   * credits per card) covers one credit per card, so the handler reaches the
   * rollup with all the verdicts and a balance lowered by the number of cards.
   */
  lemma HandleRuns(u: UserRecord, tokens: seq<string>, attempts: seq<Attempt>)
    requires |attempts| == |tokens| && Preflight(u, tokens).None?
    requires forall i :: 0 <= i < |attempts| ==> Completes(attempts[i])
    ensures var r := RunFrom(attempts, 0, u.credits, []);
      Handle(u, tokens, attempts) ==
        Effect(Rollup(u.(credits := u.credits - |tokens|), |tokens|, r.results), Completed(r.results, false), true)
  {
    assert u.credits >= |attempts|;
    RunTotals(attempts, u.credits);
    ProceedFinished(u, |tokens|, attempts);
  }

  /** The loop over cards that all complete, with enough balance, ends normally having debited one per card. */
  lemma RunTotals(attempts: seq<Attempt>, credits: int)
    requires credits >= |attempts|
    requires forall i :: 0 <= i < |attempts| ==> Completes(attempts[i])
    ensures RunFrom(attempts, 0, credits, []).stop == Finished
    ensures RunFrom(attempts, 0, credits, []).credits == credits - |attempts|
  {
    RunAll(attempts, credits);
  }

  /** A loop that runs to the end leads to the rollup over its verdicts and closes the session. */
  lemma ProceedFinished(u: UserRecord, found: nat, attempts: seq<Attempt>)
    requires RunFrom(attempts, 0, u.credits, []).stop == Finished
    ensures var r := RunFrom(attempts, 0, u.credits, []);
      Proceed(u, found, attempts) == Effect(Rollup(u.(credits := r.credits), found, r.results), Completed(r.results, false), true)
  {
  }

  /**
   * When the preflight passes and every card completes, the handler shows
   * one verdict per card, lowers the balance by exactly the number of cards,
   * rolls up all of them and closes the session.
   */
  lemma HandleCompletes(u: UserRecord, tokens: seq<string>, attempts: seq<Attempt>)
    requires |attempts| == |tokens| && Preflight(u, tokens).None?
    requires forall i :: 0 <= i < |attempts| ==> Completes(attempts[i])
    ensures var e := Handle(u, tokens, attempts);
      && e.reply.Completed? && !e.reply.halted && e.endsSession
      && |e.reply.results| == |tokens|
      && e.user == Rollup(u.(credits := u.credits - |tokens|), |tokens|, e.reply.results)
  {
    assert u.credits >= |attempts|;
    RunAll(attempts, u.credits);
    HandleRuns(u, tokens, attempts);
  }

  /**
   * A message that passes the preflight, and whose results are all shown,
   * is processed whole: one verdict per card, a balance lowered by exactly
   * the number of cards, the rollup over all of them, and the session
   * closed. The mid-batch credit check never fires.
   */
  lemma ProcessCompletes(u: UserRecord, g: Gateway, text: string, draw: nat -> Draw, calls: nat -> TurnCalls)
    requires Preflight(u, ExtractTokens(text)).None?
    requires forall i :: 0 <= i < |ExtractTokens(text)| ==> !TurnRaises(calls(i))
    ensures var tokens := ExtractTokens(text);
      var e := Process(u, g, text, draw, calls);
      && e.reply.Completed? && !e.reply.halted && e.endsSession
      && |e.reply.results| == |tokens| <= MaxCards
      && u.credits - |tokens| >= 0
      && e.user == Rollup(u.(credits := u.credits - |tokens|), |tokens|, e.reply.results)
  {
    var tokens := ExtractTokens(text);
    ExtractedAreTokens(text);
    AttemptsComplete(g, tokens, draw, calls);
    HandleCompletes(u, tokens, Attempts(g, tokens, draw, calls));
  }

  /** The verdicts of such a message are the simulator's verdicts on its cards, in order. */
  lemma ProcessVerdicts(u: UserRecord, g: Gateway, text: string, draw: nat -> Draw, calls: nat -> TurnCalls)
    requires Preflight(u, ExtractTokens(text)).None?
    requires forall i :: 0 <= i < |ExtractTokens(text)| ==> !TurnRaises(calls(i))
    ensures var tokens := ExtractTokens(text);
      var e := Process(u, g, text, draw, calls);
      && e.reply.Completed? && |e.reply.results| == |tokens|
      && forall i :: 0 <= i < |tokens| ==> Simulate(g, tokens[i], draw(i)) == Some(Judged(e.reply.results[i]))
  {
    var tokens := ExtractTokens(text);
    var attempts := Attempts(g, tokens, draw, calls);
    ExtractedAreTokens(text);
    AttemptsComplete(g, tokens, draw, calls);
    RunAll(Attempts(g, tokens, draw, calls), u.credits);
    HandleRuns(u, tokens, Attempts(g, tokens, draw, calls));
    forall i | 0 <= i < |tokens|
      ensures Simulate(g, tokens[i], draw(i)) == Some(Judged(attempts[i].outcome.value.verdict))
    {
      AttemptAt(g, tokens, draw, calls, i);
    }
  }
}
