# Gates and moderation of the card-checker bot, in Dafny

This project models the "gates" part of a Telegram card-checker bot.
`GateSystem` holds the map of open checking sessions (`active_sessions`) and
nine simulated payment gateways. Three Telegram handlers sit on top of it:
`/gates` (`gates_command`), the inline-button callbacks
(`handle_gate_callback`) and the message handler that checks the cards in a
message (`process_gate_card`). The project also models the moderation state
of `run_bot.py`: the `ADMIN_IDS` list read from the environment and the
`muted_users` table used by `/mute`, `/unmute` and the per-message
`check_mute_status`.

Modules, in dependency order:

- `Text` (text.dfy): Python's `int()` on strings, `str.split`, `str.strip`,
  prefix and suffix tests, digit sums. The module `Wrappers` holds `Option`.
- `Tokens` (tokens.dfy): the card regular expression of `process_gate_card`,
  as a matcher (`MatchAt`, `FindAll`). It is proved equal to an independent
  reference definition by fields (`IsCardToken`).
- `Users` (users.dfy): the stored user record, the premium flag and expiry,
  and the downgrade write.
- `Access` (access.dfy): `GateSystem.is_authorized`, and the tier that `/gates`
  and the "back" button display. Includes where the two disagree.
- `Gateways` (gateways.dfy): the nine simulators, with their base rates,
  bonuses, jitter, ceilings and format checks. The gate keys and the
  dispatch on them are here too.
- `RateGuard` (rate_guard.dfy): `safe_edit_message`. Its retry and fallback
  depend on the transport's answers.
- `Batch` (batch.dfy): `process_gate_card` as a function of the record, the
  gate, the message and the random draws:
  - the preflight refusals;
  - the loop that debits one credit per card;
  - the statistics rollup.
- `Gates` (gate_system.dfy): the `GateSystem` class. Its fields are the user
  store and `active_sessions`; its methods are the handlers, written as loops
  and map updates. Each is proved to agree with the `Access`/`Batch`
  functions.
- `Moderation` (mute.dfy): `ADMIN_IDS` parsing, duration parsing and the
  target lookup, plus the `MuteTable` class for `muted_users`.

Randomness, transport answers, clock readings and `get_chat` are parameters:
- `Draw` holds one simulation's jitter and acceptance sample.
- `Transport` holds the answers of the calls one `safe_edit_message` makes.
- `TurnCalls` holds the answers for one card's turn: whether the
  short-balance notice raises, whether the "starting" message raises, and
  a `Transport` for each of the three edits.
- `now` (with `recheck`, `shown` or `later`) is a clock reading. A handler
  that reads the clock several times takes one instant per read, in order.
- `lookup` stands for `get_chat`.

Rates are whole basis points, so every gateway comparison is exact integer
arithmetic.

The model follows the code, including these behaviours that are easy to
misread:

- **Preflight vs. debit.** The preflight demands 5 credits per card, but the
  loop debits only 1 per card.
- **Moderators.** `is_authorized` admits a moderator, but `process_gate_card`
  refuses one who is neither founder, cofounder nor premium-flagged
  (`Batch.ModeratorRefused`).
- **No format check in two gateways.** PayPal and Auth never answer with the
  "invalid format" record.
- **Unparsable expiry.** `is_authorized` refuses it, while the tier display
  counts it as valid premium (`Access.UnparsableExpiryDiffers`).
- **Expiry not rechecked.** `process_gate_card` does not re-read the premium
  expiry (`Batch.PreflightIgnoresExpiry`).
- **Several clock reads.** `/gates` and the "back" button test the premium
  expiry at a later read than `is_authorized` does. A premium that expires in
  between passes the check and is still shown the standard tier
  (`Access.ExpiryBetweenReads`).
- **`total_checked`.** It grows by the number of cards found, not the number
  processed.
- **Exceptions end the handler.** An exception out of a simulator ends the
  handler, and so does a malformed record (whose missing `gateway` key raises
  while the result is shown). So does any of a card's transport calls that
  raises after the debit: the "starting" `reply_text`, the two progress
  edits and the result edit. The short-balance notice's `reply_text` can
  raise too. The handler then ends without the rollup and keeps the session.

## Model

| member | source | states |
|---|---|---|
| Text.ParseInt | run_bot.py:111 | `int()` of a string: succeeds only on a non-blank string (optional sign, ASCII digits, surrounding space stripped) |
| Text.ParseIntOfShowNat | run_bot.py:153 | reading back the decimal rendering of a natural number gives that number |
| Text.Split | gates_system.py:129 | `str.split` on one separator always yields at least one field |
| Text.SplitOfJoin | run_bot.py:111 | splitting fields joined by a separator that none contains gives the fields back |
| Text.JoinOfSplit | gates_system.py:129 | joining the fields of a split with the separator rebuilds the string |
| Tokens.SplitLayout | gates_system.py:1122 | four digit fields joined by '\|' split back into exactly those fields |
| Tokens.TokenParts | gates_system.py:1122 | every card token is four fields of 13-19, 1-2, 2-4 and 3-4 digits joined by '\|' |
| Tokens.TokenEdges | gates_system.py:1122 | a card token begins and ends with a digit |
| Tokens.MatchAtSound | gates_system.py:1122-1123 | what the matcher accepts at a position is a card token, with a non-word character (or the string edge) on both sides |
| Tokens.MatchAtComplete | gates_system.py:1122-1123 | a card token with non-word characters on both sides is matched where it starts, ending where it ends |
| Tokens.FindAllSound | gates_system.py:1123 | every string `findall` reports is a card token |
| Tokens.ExtractedAreTokens | gates_system.py:1118-1123 | every token extracted from a stripped message is a card token |
| Tokens.SkipNoDigits | gates_system.py:1123 | digit-free text contributes no match and does not disturb the scan |
| Tokens.FindAllInterleave | gates_system.py:1123 | scanning an interleaving of digit-free separators and tokens yields exactly the tokens, in order |
| Tokens.ExtractInterleaved | gates_system.py:1118-1123 | a message made of card tokens separated by digit-free text yields exactly those tokens, in order |
| Users.Truthy | gates_system.py:1138 | the stored flag True is truthy and False is not |
| Users.Downgraded | gates_system.py:72 | the downgrade write sets premium False and the expiry to none and changes no other field |
| Access.Authorize | gates_system.py:27-94 | grants exactly staff, or premium `is True` with no expiry or one still ahead; "expired" exactly for non-staff premium `is True` whose expiry has passed; everything else is refused |
| Access.AfterAuthorize | gates_system.py:66-73 | the record changes only when the premium has expired, and then only by the downgrade |
| Access.StaffIgnoresPremium | gates_system.py:31-41 | a staff role is granted whatever the premium fields hold |
| Access.AuthorizeSettles | gates_system.py:66-73 | a second authorization writes nothing and refuses where the first found the premium expired |
| Access.DowngradeIsFinal | gates_system.py:72 | after the downgrade the user is refused at every later instant |
| Access.DisplayValid | gates_system.py:803-824 | `premium_valid` holds exactly for a truthy flag whose expiry is absent, unparsable or still ahead |
| Access.DisplayTier | gates_system.py:827-856 | founder, cofounder, moderator and premium tiers, each exactly when the earlier roles are absent and its own condition holds |
| Access.AuthorizeTwice | gates_system.py:769-792 | two checks at instants in order write exactly what the later check alone writes |
| Access.DowngradeKeepsLaterTier | gates_system.py:792-856 | a downgrade written at one instant never changes the tier displayed at that instant or later |
| Access.ExpiryBetweenReads | gates_system.py:769-856 | a premium expiring between the check and the display read passes the check, is not downgraded, and is shown the standard tier |
| Access.DowngradeKeepsTier | gates_system.py:792-856 | the downgrade never changes the displayed tier; an expired premium already shows the standard tier |
| Access.GrantedShowsFullAccess | gates_system.py:827-850 | whoever is authorized is shown a full-access tier |
| Access.TierAgreesWithAuthorize | gates_system.py:803-856 | with a boolean flag and a parsable or absent expiry, full access is displayed exactly when authorization grants |
| Access.UnparsableExpiryDiffers | gates_system.py:74-82 | an unparsable expiry is refused by authorization and shown as premium by the display |
| Access.TruthyFlagDiffers | gates_system.py:56 | a truthy non-boolean flag is refused by authorization, yet displayed as premium when the expiry allows |
| Gateways.ProfileOf | gates_system.py:125-727 | every ceiling is at most 75%, the jitter range is ordered, and only PayPal and Auth skip the format check |
| Gateways.Status | gates_system.py:188 | the status is LIVE exactly for an accepted verdict |
| Gateways.Success | gates_system.py:1287 | `success` is true exactly when the status is LIVE |
| Gateways.Threshold | gates_system.py:173 | the capped rate is at most both the product `rate * jitter` and the ceiling, and equals one of them |
| Gateways.JitterBounds | gates_system.py:169-173 | for a jitter inside the gateway's `random.uniform` range the capped rate lies between the rate scaled by the range's two ends, each capped at the ceiling |
| Gateways.StripeBonus | gates_system.py:146-167 | the Stripe bonus is between 0 and 28 points |
| Gateways.AmazonBonus | gates_system.py:211-270 | the Amazon bonus is between 0 and 12 points |
| Gateways.PayPalBonus | gates_system.py:272-325 | the PayPal bonus is between 0 and 15 points |
| Gateways.AydenBonus | gates_system.py:327-386 | the Ayden bonus is between 0 and 12 points |
| Gateways.CcnBonus | gates_system.py:427-486 | the CCN bonus is between 0 and 15 points |
| Gateways.CyberBonus | gates_system.py:488-567 | the CyberSource bonus is between 0 and 9 points |
| Gateways.WorldpayBonus | gates_system.py:569-640 | the Worldpay bonus is between 0 and 9 points |
| Gateways.BraintreeBonus | gates_system.py:642-727 | the Braintree bonus is between -2 and 11 points |
| Gateways.Bonus | gates_system.py:488-567 | a bonus is produced for every gateway except CyberSource on a card number whose last two characters are not an integer |
| Gateways.Simulate | gates_system.py:125-209 | malformed record exactly for a format-checking gateway and fewer than four fields; exception exactly in the CyberSource case; otherwise accepted exactly when the sample is below the capped rate, with the gateway's label and amount |
| Gateways.AcceptedBelowCeiling | gates_system.py:173-175 | no card is accepted with a sample at or above the gateway's ceiling |
| Gateways.AcceptanceMonotone | gates_system.py:175 | an accepted card is also accepted with any smaller sample |
| Gateways.NoFormatCheck | gates_system.py:272-325 | PayPal and Auth never answer with the malformed record |
| Gateways.CyberPatternOfDigits | gates_system.py:488-567 | the last two characters of a digit run of length two or more read as an integer |
| Gateways.JudgedWhenWellFormed | gates_system.py:125-727 | four or more fields and a readable card number give a verdict from every gateway |
| Gateways.TokenFields | gates_system.py:129 | the simulators split a card token into four fields whose first is a digit run of 13 or more |
| Gateways.TokenJudged | gates_system.py:1237-1255 | every extracted token gets a verdict from every gateway: never the malformed record, never an exception |
| Gateways.GateName | gates_system.py:1021-1031 | a display name exists exactly for the nine gate keys |
| Gateways.GateOf | gates_system.py:1237-1255 | any session gate type outside the nine keys runs the Auth simulator |
| Gateways.GateOfInjective | gates_system.py:1237-1255 | the nine gate keys reach nine different simulators |
| RateGuard.SafeEdit | gates_system.py:729-749 | the first call is always the edit, and an exception escapes only from a final `reply_text` |
| RateGuard.FirstAnswer | gates_system.py:729-749 | a successful first edit is the only call; an unexpected failure falls back to sending at once |
| RateGuard.WaitBeforeRetry | gates_system.py:729-749 | at most two edits (first and third call), one wait right after the first edit (`retry_after + 1` or 2 seconds), and a send only as the last call |
| RateGuard.FallbackWhen | gates_system.py:729-749 | `reply_text` is called exactly when the first edit fails for good or both edits fail |
| Batch.Preflight | gates_system.py:1125-1176 | no refusal exactly when there are cards, the user is founder, cofounder or premium-flagged, there are at most 15, and the credits cover 5 per card |
| Batch.Attempts | gates_system.py:1182-1304 | one turn per card found (their order: `Batch.ProcessVerdicts`) |
| Batch.RunAccounting | gates_system.py:1182-1304 | the loop keeps earlier verdicts, appends each completed card's own verdict in order, lowers the balance by one per card started, stops at the short-balance notice only below one credit (ending the handler exactly when that notice raises), aborts only on a card that does not complete |
| Batch.RunShape | gates_system.py:1182-1304 | the loop's balance falls by one per card started, its verdict count is bounded by the cards left, it halts only below one credit and aborts only on a card that does not complete |
| Batch.RunVerdicts | gates_system.py:1257 | each appended verdict is the verdict of the card completed at that step, in order |
| Batch.RunTotals | gates_system.py:1182-1196 | with every card completing and enough balance, the loop ends normally having debited exactly one per card |
| Batch.RunKeepsCreditsNonNegative | gates_system.py:1185-1187 | a non-negative balance never goes below zero |
| Batch.RunFinishes | gates_system.py:1182-1196 | when every card completes and the balance covers one per card, the loop ends normally |
| Batch.BumpGet | gates_system.py:1314-1320 | counting one result adds one to its gateway's total and, if accepted, one to its success count; other gateways are unchanged |
| Batch.TallyIntoCounts | gates_system.py:1313-1320 | counting results into a dict adds each gateway's result count to `total` and accepted count to `success` |
| Batch.TallyCounts | gates_system.py:1313-1320 | the tally holds, for exactly the gateways that occur, their accepted and total counts |
| Batch.LiveAtMostHits | gates_system.py:1318-1320 | no gateway counts more accepted results than results |
| Batch.MergeOverNothing | gates_system.py:1328-1331 | before any gateway is merged the stored statistics are unchanged |
| Batch.Merge | gates_system.py:1333-1337 | the merged keys are the stored and tallied gateways, and each counter is the sum of the stored and tallied ones, a missing entry counting as zero |
| Batch.MergeStep | gates_system.py:1334-1337 | merging one more gateway extends the partial merge by that gateway |
| Batch.MergeAdvance | gates_system.py:1333-1337 | one pass of the merge loop moves one gateway from to-do to done |
| Batch.RefusalChangesNothing | gates_system.py:1125-1176 | every refusal returns before any debit, statistics write or session removal |
| Batch.ModeratorRefused | gates_system.py:1141-1152 | a moderator who is neither founder, cofounder nor premium-flagged is refused at the batch |
| Batch.PreflightIgnoresExpiry | gates_system.py:1134-1176 | the preflight never reads the premium expiry |
| Batch.RollupEffect | gates_system.py:1310-1344 | the rollup writes only `total_checked` (grown by the cards found) and `gateway_stats` (stored plus tallied); without `total_checked` nothing is written |
| Batch.AbortKeepsSession | gates_system.py:1182-1304 | a handler that raises (in a card's turn or in the short-balance notice) keeps the session, skips the rollup, and leaves the record unchanged except a balance lowered by at least one |
| Batch.AttemptsComplete | gates_system.py:1199-1304 | when none of a turn's calls raises (the "starting" `reply_text`, the two progress edits, the result edit), every card's turn completes |
| Batch.RunAll | gates_system.py:1182-1304 | with every card completing and enough balance, the loop shows every card's verdict in order and debits one per card |
| Batch.HandleRuns | gates_system.py:1166-1349 | past the preflight with every card completing, the handler ends normally, debits one per card, rolls up and closes the session |
| Batch.CreditCheckNeverFires | gates_system.py:1166-1196 | past the preflight (5 credits per card) the loop's check for 1 credit never stops it, so the short-balance notice is never sent |
| Batch.HandleCompletes | gates_system.py:1166-1349 | past the preflight with every card completing, the handler shows one verdict per card, debits exactly one per card, rolls up all of them and closes the session |
| Batch.ProceedFinished | gates_system.py:1310-1349 | a loop that runs to the end leads to the rollup over its verdicts and to the end of the session |
| Batch.ProcessCompletes | gates_system.py:1103-1349 | a message that passes the preflight and none of whose turns has a raising transport call is processed whole: one verdict per card, at most 15, balance lowered by the card count and never negative, rollup over all cards, session closed |
| Batch.ProcessVerdicts | gates_system.py:1182-1257 | the verdicts of such a message are the gate's simulations of its cards, in order |
| Gates.GateSystem.constructor | gates_system.py:19-25 | a fresh system over the given users has no open sessions |
| Gates.GateSystem.IsAuthorized | gates_system.py:27-94 | answers true exactly when `Access.Authorize` grants; writes only the downgrade of an expired premium; sessions unchanged |
| Gates.GateSystem.GatesCommand | gates_system.py:754-856 | the credit notice exactly for a user whom the first check refuses and who holds fewer than 5 credits; otherwise the menu with the user's tier at the display read; the store changes only by the downgrade of the last check made |
| Gates.GateSystem.HandleGateCallback | gates_system.py:884-1101 | close and status only answer; back re-checks authorization and shows the tier of the record read before, at the later clock read; a gate key opens a session, stamped at the later read, exactly for an authorized user and refuses anyone else; other data is unhandled |
| Gates.GateSystem.ProcessGateCard | gates_system.py:1103-1349 | no session: nothing changes; otherwise the reply, the user's new record and the session removal are those of `Batch.Process` |
| Gates.GateSystem.ProcessTokens | gates_system.py:1125-1349 | for the cards found, reply, record and session agree with `Batch.Handle` |
| Gates.GateSystem.RunAndRollup | gates_system.py:1178-1349 | after the preflight, reply, record and session agree with `Batch.Proceed` |
| Gates.GateSystem.RunCards | gates_system.py:1181-1308 | the loop's verdicts, stop reason and debited balance agree with `Batch.RunFrom`; no other record or session changes |
| Gates.GateSystem.Debit | gates_system.py:1185-1187 | the user's balance is lowered by one and nothing else changes |
| Gates.GateSystem.UpdateStats | gates_system.py:1310-1344 | the user's record becomes `Batch.Rollup` of it; sessions unchanged |
| Gates.TallyOf | gates_system.py:1312-1320 | the loop builds exactly the tally of the results |
| Gates.MergeInto | gates_system.py:1328-1339 | the loop builds exactly the merge of the tally into the stored statistics |
| Moderation.Filled | run_bot.py:111 | keeps exactly the non-empty fields, no more of them than there were |
| Moderation.ParseAll | run_bot.py:111 | succeeds exactly when every field parses, and then holds each field's value in order |
| Moderation.AdminIds | run_bot.py:111 | an unset or empty variable gives the empty admin list |
| Moderation.ShowAll | run_bot.py:111 | one decimal rendering per id, in order |
| Moderation.FilledKeepsNonEmpty | run_bot.py:111 | fields that are all non-empty pass the filter whole |
| Moderation.ParseAllOfShowAll | run_bot.py:111 | parsing the renderings of ids gives the ids back |
| Moderation.AdminIdsOfJoin | run_bot.py:111 | a non-empty id list written comma-separated is read back exactly |
| Moderation.FilledSkipsEmpty | run_bot.py:111 | an empty field (as from `,,`) is skipped without changing the list |
| Moderation.ParseDurationMeans | run_bot.py:167-177 | unknown or missing suffix is refused; a known suffix with a readable count gives count times unit; an unreadable count raises |
| Moderation.DurationOfCount | run_bot.py:167-177 | a count followed by s, m, h or d lasts 1, 60, 3600 or 86400 seconds per unit; another character is refused |
| Moderation.DurationNeedsUnit | run_bot.py:167-177 | a bare number is refused for its missing suffix |
| Moderation.ResolveTarget | run_bot.py:148-164 | a numeric argument is taken as the id; otherwise it must start with `@` and the lookup must succeed, and then the looked-up id is the target |
| Moderation.NumericTarget | run_bot.py:153 | a numeric id is taken without a lookup |
| Moderation.MuteTable.constructor | run_bot.py:111-114 | the admin list read from the environment (`AdminIds`) and an empty mute table |
| Moderation.MuteTable.Mute | run_bot.py:137-187 | the reply for each of non-admin, usage, bad target, bad unit, unreadable count and success, each as an exact condition; only a success writes, setting the user's end to now plus the duration |
| Moderation.MuteTable.Unmute | run_bot.py:189-225 | the reply for each of non-admin, usage, bad target, not muted and success; only a success writes, removing the user |
| Moderation.MuteTable.CheckMuteStatus | run_bot.py:247-260 | delete the message exactly while the mute is running; an expired entry is removed; no other entry changes |

## Left out

- Telegram I/O: the message texts, keyboards and menus (`create_gates_menu`), logging, and the sleeps between cards and inside the simulators. Only the branch taken and the data written are modelled. Each transport call is modelled by whether it raises (and, for `safe_edit_message`, by the answers its retry sees); the refusal replies, which come before any write, are modelled as returning normally.
- The random choice of a response message in each simulator: it only picks display text.
- Floating-point rates: they are whole basis points and the jitter is in 1/10000. A rate at a binary-float rounding boundary may compare differently.
- Timestamps: instants are whole seconds. The float `datetime.now().timestamp()` of `/mute` and the comparisons with `datetime` objects are integer comparisons here.
- `db.load_data()`, the rebinding of `gate_system.db`, and `get_user` for a user not in the store. The store is a map and the handlers require a known user.
- The module-level `check_user_premium_status` and the module-level `is_authorized(user_id, premium_required)` of gates_system.py: no handler of the core calls them.
- The `run_bot.py` bootstrap (application setup, handler registration, `post_init`) and `start`/`help`. `get_chat` is the `lookup` parameter.
- `/mutelist`: it only reads the table and renders it.
- Concurrency: the handlers are async, but each is modelled as running alone on the store.
- Dict iteration order in the merge loop: the merged result does not depend on it.
- Tokens.MatchAt: reads `\d` as the ASCII digits and `\w`/`\b` by ASCII letters, digits and `_`. Python's `re` on `str` is Unicode-aware, so a non-ASCII digit or letter next to a card changes the match there.
- Text.Strip: strips only space, tab, newline, carriage return, vertical tab and form feed. Python's `str.strip()` also strips `\x1c`-`\x1f` and the other Unicode whitespace.
- Text.ParseInt: ASCII digits only. Python's `int()` also accepts underscores between digits and other Unicode decimal digits.
- Moderation.MuteTable.Mute: does not model a reply that fails after the write (for example `strftime` on an out-of-range instant). That path would answer "temporary error" with the entry already written.
- Moderation.AdminIds: a ValueError while the module loads stops the bot. It is returned as None, without stating what happens next.
