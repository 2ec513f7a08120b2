/**
 * The nine simulated gateways (`process_stripe_gate` ... `process_braintree_gate`).
 * Each splits the card text on '|', answers DEAD without a verdict when it
 * checks the format and finds fewer than four fields, and otherwise starts
 * from a base rate, adds bonuses read off the fields, multiplies by a
 * random jitter, caps the product at a ceiling and accepts when a random
 * sample falls below the capped rate.
 *
 * Rates are in basis points (1/10_000), the jitter factor in 1/10_000 and
 * the sample of `random.random()` in 1/100_000_000, so `rate * jitter` and
 * the sample share one unit and the comparison is exact.
 */
module Gateways {
  import opened Wrappers
  import opened Text
  import opened Tokens

  datatype Gateway = Stripe | Amazon | PayPal | Ayden | Auth | Ccn | CyberSource | Worldpay | Braintree

  /**
   * The fixed part of one simulator: base rate and ceiling (basis points),
   * the range of its `random.uniform` jitter (1/10_000), the `gateway` label,
   * the `amount` of an accepted card, and whether it answers malformed
   * input before rating it.
   */
  datatype Profile = Profile(
    base: nat, ceiling: nat, jitterLo: nat, jitterHi: nat,
    title: string, amount: string, checksFormat: bool)

  function ProfileOf(g: Gateway): (p: Profile)
    ensures p.ceiling <= 7500 && p.jitterLo <= p.jitterHi
    ensures p.checksFormat <==> g != PayPal && g != Auth
  {
    match g
    case Stripe      => Profile(4500, 7500, 8500, 11500, "Stripe Ultra", "$1.00", true)
    case Amazon      => Profile(4000, 6500, 9000, 12500, "Amazon Prime", "$1.00", true)
    case PayPal      => Profile(3500, 6000, 9000, 12000, "PayPal Express", "$1.00", false)
    case Ayden       => Profile(3800, 5800, 8500, 12000, "Ayden EU", "$1.00", true)
    case Auth        => Profile(400, 1600, 5000, 20000, "Auth Check", "$0.01", false)
    case Ccn         => Profile(4200, 6800, 8800, 11800, "CCN Charge", "$1.00", true)
    case CyberSource => Profile(900, 2500, 4000, 16000, "CyberSource AI", "$0.01", true)
    case Worldpay    => Profile(800, 2000, 7000, 14000, "Worldpay UK", "$0.30", true)
    case Braintree   => Profile(1000, 2400, 8000, 15000, "Braintree Pro", "$0.25", true)
  }

  /** The random values one simulation consumes: the jitter factor and the acceptance sample. */
  datatype Draw = Draw(jitter: nat, sample: nat)

  /** The fields of a verdict record: accepted (`is_live`, status LIVE), gateway label and amount. */
  datatype Verdict = Verdict(live: bool, gateway: string, amount: string)

  /** A simulator's record: the DEAD "invalid format" record without gateway or amount, or a verdict. */
  datatype Outcome = Malformed | Judged(verdict: Verdict)

  /** The `status` field of the record. */
  function Status(o: Outcome): (s: string)
    ensures s == "LIVE" <==> o.Judged? && o.verdict.live
  {
    if o.Judged? && o.verdict.live then "LIVE" else "DEAD"
  }

  /** The `success` field of the record. */
  function Success(o: Outcome): (b: bool)
    ensures b <==> Status(o) == "LIVE"
  {
    o.Judged? && o.verdict.live
  }

  function Min(a: int, b: int): (m: int)
    ensures m <= a && m <= b && (m == a || m == b)
  {
    if a <= b then a else b
  }

  /** `min(rate * jitter, ceiling)` in units of 1/100_000_000. */
  function Threshold(g: Gateway, rate: int, jitter: nat): (t: int)
    ensures t <= ProfileOf(g).ceiling * 10000 && t <= rate * jitter
    ensures t == rate * jitter || t == ProfileOf(g).ceiling * 10000
  {
    Min(rate * jitter, ProfileOf(g).ceiling * 10000)
  }

  /**
   * For a jitter within the simulator's `random.uniform` range, the capped
   * rate lies between the rate scaled by the two ends of the range, each
   * capped at the ceiling.
   */
  lemma JitterBounds(g: Gateway, rate: nat, jitter: nat)
    requires ProfileOf(g).jitterLo <= jitter <= ProfileOf(g).jitterHi
    ensures Min(rate * ProfileOf(g).jitterLo, ProfileOf(g).ceiling * 10000) <= Threshold(g, rate, jitter)
    ensures Threshold(g, rate, jitter) <= Min(rate * ProfileOf(g).jitterHi, ProfileOf(g).ceiling * 10000)
  {
    var p := ProfileOf(g);
    assert rate * p.jitterLo <= rate * jitter by { MulLeft(rate, p.jitterLo, jitter); }
    assert rate * jitter <= rate * p.jitterHi by { MulLeft(rate, jitter, p.jitterHi); }
  }

  /** Multiplying by a natural number keeps the order. */
  lemma {:induction false} MulLeft(a: nat, b: nat, c: nat)
    requires b <= c
    ensures a * b <= a * c
  {
    if a > 0 {
      MulLeft(a - 1, b, c);
      assert a * b == (a - 1) * b + b;
      assert a * c == (a - 1) * c + c;
    }
  }

  /** `int(year) if len(year) == 4 else 2000 + int(year)`, None where `int` raises. */
  function StripeYear(year: string): Option<int> {
    if |year| == 4 then ParseInt(year)
    else
      match ParseInt(year)
      case None => None
      case Some(v) => Some(2000 + v)
  }

  function StripeBonus(number: string, year: string, cvv: string): (b: int)
    ensures 0 <= b <= 2800
  {
    var bin :=
      if StartsWithAny(number, ["4532", "4485", "5531", "4539", "4000", "4001", "4242", "5555", "5200"]) then 1500
      else if StartsWithAny(number, ["40", "41", "42", "51", "52", "53"]) then 1000
      else 0;
    var check := if cvv != [] && IsDigit(cvv[|cvv| - 1]) then 500 else 0;
    var expiry :=
      match StripeYear(year)
      case None => 0
      case Some(y) => if y - 2025 >= 2 then 800 else if y - 2025 >= 1 then 500 else 0;
    bin + check + expiry
  }

  function AmazonBonus(number: string): (b: int)
    ensures 0 <= b <= 1200
  {
    if StartsWith(number, "4") then 1200 else if StartsWith(number, "5") then 800 else 0
  }

  /** PayPal rates the card number only when there are four fields, and never refuses the format. */
  function PayPalBonus(fields: seq<string>): (b: int)
    ensures 0 <= b <= 1500
  {
    if |fields| >= 4 then
      if StartsWithAny(fields[0], ["4532", "4485", "5531"]) then 1500
      else if StartsWithAny(fields[0], ["4", "5"]) then 800
      else 0
    else 0
  }

  function AydenBonus(number: string): (b: int)
    ensures 0 <= b <= 1200
  {
    if StartsWithAny(number, ["4000", "4001", "5200", "5201", "4532", "4485"]) then 1200
    else if StartsWithAny(number, ["4", "5"]) then 600
    else 0
  }

  function CcnBonus(number: string): (b: int)
    ensures 0 <= b <= 1500
  {
    if StartsWithAny(number, ["4111", "4242", "5555", "4532", "4485"]) then 1500
    else if StartsWithAny(number, ["4", "5"]) then 800
    else 0
  }

  /**
   * `int(number[-2:]) if len(number) >= 2 else 0`; None where `int` raises,
   * which CyberSource does not catch.
   */
  function CyberPattern(number: string): Option<int> {
    if |number| >= 2 then ParseInt(number[|number| - 2..]) else Some(0)
  }

  /** Python's `%` by a positive divisor agrees with Dafny's on negative operands too. */
  function CyberBonus(pattern: int, year: string, cvv: string): (b: int)
    ensures 0 <= b <= 900
  {
    var digits := if pattern % 17 == 0 then 400 else if pattern % 7 == 0 then 200 else 0;
    var check := if DigitSum(cvv) % 5 == 0 then 200 else 0;
    var expiry :=
      match ParseInt(year)
      case None => 0
      case Some(y) => if y >= 2027 then 300 else 0;
    digits + check + expiry
  }

  function WorldpayBonus(number: string): (b: int)
    ensures 0 <= b <= 900
  {
    var brand :=
      if StartsWith(number, "4") then 500
      else if StartsWith(number, "5") then 300
      else if StartsWith(number, "3") then 200
      else 0;
    var uk := if StartsWithAny(number, ["4000", "4001", "4462", "4486", "5200", "5201"]) then 400 else 0;
    brand + uk
  }

  function BraintreeBonus(number: string, year: string, cvv: string): (b: int)
    ensures -200 <= b <= 1100
  {
    var expiry :=
      match ParseInt(year)
      case None => 0
      case Some(y) =>
        if y - 2025 >= 4 then 600
        else if y - 2025 >= 2 then 400
        else if y - 2025 >= 1 then 200
        else -200;
    var digits := if DigitSum(number) % 13 == 0 then 300 else 0;
    var check := if |cvv| == 3 && AllDigits(cvv) && DigitsValue(cvv) % 11 == 0 then 200 else 0;
    expiry + digits + check
  }

  /** The bonus a gateway adds to its base for well-formed input; None where CyberSource raises. */
  function Bonus(g: Gateway, fields: seq<string>): (b: Option<int>)
    requires |fields| >= 4 || !ProfileOf(g).checksFormat
    ensures b.None? <==> g == CyberSource && CyberPattern(fields[0]).None?
  {
    match g
    case Stripe => Some(StripeBonus(fields[0], fields[2], fields[3]))
    case Amazon => Some(AmazonBonus(fields[0]))
    case PayPal => Some(PayPalBonus(fields))
    case Ayden => Some(AydenBonus(fields[0]))
    case Auth => Some(0)
    case Ccn => Some(CcnBonus(fields[0]))
    case CyberSource =>
      (match CyberPattern(fields[0])
       case None => None
       case Some(pattern) => Some(CyberBonus(pattern, fields[2], fields[3])))
    case Worldpay => Some(WorldpayBonus(fields[0]))
    case Braintree => Some(BraintreeBonus(fields[0], fields[2], fields[3]))
  }

  /** The largest bonus each gateway can add. */
  function MaxBonus(g: Gateway): nat {
    match g
    case Stripe => 2800
    case Amazon => 1200
    case PayPal => 1500
    case Ayden => 1200
    case Auth => 0
    case Ccn => 1500
    case CyberSource => 900
    case Worldpay => 900
    case Braintree => 1100
  }

  /**
   * One simulation. None is the ValueError that escapes CyberSource when the
   * last two characters of the card number are not an integer.
   */
  function Simulate(g: Gateway, card: string, d: Draw): (r: Option<Outcome>)
    ensures r == Some(Malformed) <==> ProfileOf(g).checksFormat && |Split(card, '|')| < 4
    ensures r.None? <==> g == CyberSource && |Split(card, '|')| >= 4 && CyberPattern(Split(card, '|')[0]).None?
    ensures r.Some? && r.value.Judged? ==>
      var fields := Split(card, '|');
      var rate := ProfileOf(g).base + Bonus(g, fields).value;
      && 0 < rate <= ProfileOf(g).base + MaxBonus(g)
      && r.value.verdict.gateway == ProfileOf(g).title
      && (r.value.verdict.live <==> d.sample < Threshold(g, rate, d.jitter))
      && r.value.verdict.amount == (if r.value.verdict.live then ProfileOf(g).amount else "$0.00")
  {
    var fields := Split(card, '|');
    if ProfileOf(g).checksFormat && |fields| < 4 then Some(Malformed)
    else
      match Bonus(g, fields)
      case None => None
      case Some(bonus) =>
        var rate := ProfileOf(g).base + bonus;
        var live := d.sample < Threshold(g, rate, d.jitter);
        Some(Judged(Verdict(live, ProfileOf(g).title, if live then ProfileOf(g).amount else "$0.00")))
  }

  /** No simulator accepts above its ceiling, whatever the jitter. */
  lemma AcceptedBelowCeiling(g: Gateway, card: string, d: Draw)
    requires Simulate(g, card, d) == Some(Judged(Verdict(true, ProfileOf(g).title, ProfileOf(g).amount)))
    ensures d.sample < ProfileOf(g).ceiling * 10000
  {
  }

  /** A smaller sample is accepted whenever a larger one is: acceptance is `sample < threshold`. */
  lemma AcceptanceMonotone(g: Gateway, card: string, d: Draw, smaller: nat)
    requires smaller <= d.sample
    requires Simulate(g, card, d).Some? && Simulate(g, card, d).value.Judged?
    requires Simulate(g, card, d).value.verdict.live
    ensures Simulate(g, card, Draw(d.jitter, smaller)) == Simulate(g, card, d)
  {
  }

  /** PayPal and Auth never answer with the malformed record. */
  lemma NoFormatCheck(g: Gateway, card: string, d: Draw)
    requires g == PayPal || g == Auth
    ensures Simulate(g, card, d) != Some(Malformed)
  {
  }

  /** The last two characters of a long enough digit run are an integer. */
  lemma CyberPatternOfDigits(number: string)
    requires AllDigits(number) && |number| >= 2
    ensures CyberPattern(number).Some?
  {
    var tail := number[|number| - 2..];
    assert forall i :: 0 <= i < |tail| ==> tail[i] == number[|number| - 2 + i];
    ParseIntOfDigits(tail);
  }

  /** Four or more fields and a card number CyberSource can read: a verdict from every gateway. */
  lemma JudgedWhenWellFormed(g: Gateway, card: string, d: Draw)
    requires |Split(card, '|')| >= 4 && CyberPattern(Split(card, '|')[0]).Some?
    ensures Simulate(g, card, d).Some? && Simulate(g, card, d).value.Judged?
  {
  }

  /** The fields of a card token, as the simulators split it. */
  lemma TokenFields(t: string) returns (number: string)
    requires IsCardToken(t)
    ensures |Split(t, '|')| == 4 && number == Split(t, '|')[0]
    ensures AllDigits(number) && |number| >= 13
  {
    number := Split(t, '|')[0];
  }

  /** Every token the extraction yields gets a verdict from every gateway: never the malformed record, never an exception. */
  lemma TokenJudged(g: Gateway, t: string, d: Draw)
    requires IsCardToken(t)
    ensures Simulate(g, t, d).Some? && Simulate(g, t, d).value.Judged?
  {
    var number := TokenFields(t);
    CyberPatternOfDigits(number);
    JudgedWhenWellFormed(g, t, d);
  }

  /** `gate_types` of handle_gate_callback: the callback data of each gate and its display name. */
  const GateKeys: seq<string> := [
    "gate_stripe", "gate_amazon", "gate_paypal", "gate_ayden", "gate_auth",
    "gate_ccn", "gate_cybersource", "gate_worldpay", "gate_braintree"]

  function GateName(key: string): (name: Option<string>)
    ensures name.Some? <==> key in GateKeys
  {
    if key == "gate_stripe" then Some("Stripe Gate")
    else if key == "gate_amazon" then Some("Amazon Gate")
    else if key == "gate_paypal" then Some("PayPal Gate")
    else if key == "gate_ayden" then Some("Ayden Gate")
    else if key == "gate_auth" then Some("Auth Gate")
    else if key == "gate_ccn" then Some("CCN Charge")
    else if key == "gate_cybersource" then Some("CyberSource AI")
    else if key == "gate_worldpay" then Some("Worldpay UK")
    else if key == "gate_braintree" then Some("Braintree Pro")
    else None
  }

  /** The dispatch of process_gate_card on the session's gate type; anything unlisted runs Auth. */
  function GateOf(key: string): (g: Gateway)
    ensures key !in GateKeys ==> g == Auth
  {
    if key == "gate_stripe" then Stripe
    else if key == "gate_amazon" then Amazon
    else if key == "gate_paypal" then PayPal
    else if key == "gate_ayden" then Ayden
    else if key == "gate_ccn" then Ccn
    else if key == "gate_cybersource" then CyberSource
    else if key == "gate_worldpay" then Worldpay
    else if key == "gate_braintree" then Braintree
    else Auth
  }

  /** The nine selectable gate keys reach nine different simulators. */
  lemma GateOfInjective(a: string, b: string)
    requires a in GateKeys && b in GateKeys && a != b
    ensures GateOf(a) != GateOf(b)
  {
  }
}
