/**
 * The calls the hook makes to the push provider, recorded as a trace, and
 * the silent fan-out: one `send` per silenced token, each in its own
 * try/catch, so that a failed attempt is logged and never stops the others.
 */
module Dispatch {
  import opened JsValue
  import opened Payload

  /**
   * One provider call: the multicast `sendToDevice` of a visible payload to a
   * token list, or the `send` of one silent message together with whether
   * the provider accepted it (a rejection is caught and only logged).
   */
  datatype Call =
    | SendToDevice(tokens: seq<Json>, payload: VisiblePayload)
    | Send(message: SilentMessage, delivered: bool)

  /**
   * `calls` is the silent fan-out of `kind` to `tokens`: exactly one attempt
   * per token, in order, the i-th carrying the i-th token's message and the
   * provider's verdict `delivered(i)` on that attempt alone.
   */
  predicate IsSilentFanOut(calls: seq<Call>, kind: EventKind, body: HookBody, tokens: seq<Json>, delivered: nat -> bool) {
    |calls| == |tokens| &&
    forall i :: 0 <= i < |tokens| ==> calls[i] == Send(SilentMessageFor(kind, body, tokens[i]), delivered(i))
  }

  /**
   * The three `...WithoutNotification` handlers with their `Promise.all`
   * taken one attempt at a time. `delivered(i)` is the provider's answer to
   * the i-th attempt. The fan-out has no failure outcome of its own.
   */
  method SendSilently(kind: EventKind, body: HookBody, tokens: seq<Json>, delivered: nat -> bool)
    returns (calls: seq<Call>)
    ensures IsSilentFanOut(calls, kind, body, tokens, delivered)
  {
    calls := [];
    for i := 0 to |tokens|
      invariant |calls| == i
      invariant forall j :: 0 <= j < i ==> calls[j] == Send(SilentMessageFor(kind, body, tokens[j]), delivered(j))
    {
      var message := SilentMessageFor(kind, body, tokens[i]);
      var ok := delivered(i);
      // try { await send(message) } catch { log }: the outcome is recorded and the loop goes on
      calls := calls + [Send(message, ok)];
    }
  }
}
