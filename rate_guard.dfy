/**
 * `GateSystem.safe_edit_message`: edit a message, and on failure either
 * wait and edit once more or fall back to sending a new message. The
 * transport is abstracted into the answers of its (at most three) calls,
 * in order.
 */
module RateGuard {
  /** The answer of one transport call: success, Telegram's RetryAfter, TimedOut, or any other exception. */
  datatype Answer = Ok | RetryAfter(seconds: nat) | TimedOut | OtherError

  /** What safe_edit_message does: `edit_text`, `reply_text`, or `asyncio.sleep`. */
  datatype Call = Edit | Send | Sleep(seconds: nat)

  /** The answers of the first, second and third transport call, whichever calls those turn out to be. */
  datatype Transport = Transport(first: Answer, second: Answer, third: Answer)

  /** The calls made, in order, and whether an exception escaped (a failed `reply_text`). */
  datatype Trace = Trace(calls: seq<Call>, raised: bool)

  /**
   * After the wait, the second `edit_text` (the second call); any failure
   * falls back to `reply_text` (the third call), whose failure escapes.
   */
  function Retry(transport: Transport, wait: nat): Trace {
    if transport.second == Ok then Trace([Edit, Sleep(wait), Edit], false)
    else Trace([Edit, Sleep(wait), Edit, Send], transport.third != Ok)
  }

  /** safe_edit_message over the given transport answers. */
  function SafeEdit(transport: Transport): (t: Trace)
    ensures |t.calls| >= 1 && t.calls[0] == Edit
    ensures t.raised ==> t.calls[|t.calls| - 1] == Send
  {
    match transport.first
    case Ok => Trace([Edit], false)
    case RetryAfter(s) => Retry(transport, s + 1)
    case TimedOut => Retry(transport, 2)
    case OtherError => Trace([Edit, Send], transport.second != Ok)
  }

  /** A first edit that succeeds is the only call; any failure other than the two transient ones sends at once. */
  lemma FirstAnswer(transport: Transport)
    ensures transport.first == Ok <==> SafeEdit(transport).calls == [Edit]
    ensures transport.first == OtherError ==> SafeEdit(transport).calls == [Edit, Send]
  {
  }

  /**
   * At most two edits (the first call, and the third after a wait), at most
   * one send (the last call), and the only wait right after the first edit:
   * `retry_after + 1` seconds, or 2 after a timeout.
   */
  lemma WaitBeforeRetry(transport: Transport)
    ensures var c := SafeEdit(transport).calls;
      && (forall i :: 0 <= i < |c| && c[i].Sleep? ==> i == 1)
      && (forall i :: 0 <= i < |c| && c[i] == Edit ==> i == 0 || i == 2)
      && (forall i :: 0 <= i < |c| && c[i] == Send ==> i == |c| - 1)
    ensures transport.first.RetryAfter? ==> SafeEdit(transport).calls[1..3] == [Sleep(transport.first.seconds + 1), Edit]
    ensures transport.first == TimedOut ==> SafeEdit(transport).calls[1..3] == [Sleep(2), Edit]
  {
    var c := SafeEdit(transport).calls;
    match transport.first
    case Ok =>
      CallPositions(c, []);
    case OtherError =>
      CallPositions(c, []);
    case RetryAfter(s) =>
      CallPositions(c, [Sleep(s + 1), Edit]);
    case TimedOut =>
      CallPositions(c, [Sleep(2), Edit]);
  }

  /** A trace of one edit, then `middle` (nothing, or a wait and the retry), then possibly one send. */
  lemma CallPositions(c: seq<Call>, middle: seq<Call>)
    requires middle == [] || (|middle| == 2 && middle[0].Sleep? && middle[1] == Edit)
    requires c == [Edit] + middle || c == [Edit] + middle + [Send]
    ensures forall i :: 0 <= i < |c| && c[i].Sleep? ==> i == 1
    ensures forall i :: 0 <= i < |c| && c[i] == Edit ==> i == 0 || i == 2
    ensures forall i :: 0 <= i < |c| && c[i] == Send ==> i == |c| - 1
    ensures middle != [] ==> c[1..3] == middle
  {
    if middle != [] {
      assert c[1..3] == middle;
    }
  }

  /** `reply_text` is called exactly when the first edit fails for good, or both edits fail. */
  lemma FallbackWhen(transport: Transport)
    ensures Send in SafeEdit(transport).calls <==>
      transport.first == OtherError || (transport.first != Ok && transport.second != Ok)
  {
  }
}
