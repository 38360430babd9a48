/**
 * The `/hook` handler: it validates the event, reads the server's token and
 * flag hashes, splits the tokens, and for a known event kind makes the
 * visible multicast call and the silent fan-out; for an unknown kind it
 * writes a failure and then, falling out of the `switch`, a success.
 */
module Hook {
  import opened Wrappers
  import opened JsValue
  import opened Http
  import opened RedisHash
  import opened Registry
  import opened Payload
  import opened Partition
  import opened Dispatch

  /** Why the handler threw instead of writing a response (Express then answers with an error). */
  datatype Cause =
    | PreferenceHashMissing   // `null[key]` in the split loop: the server has tokens but no flag hash
    | VisibleSendRejected     // the multicast `sendToDevice` rejected, so `Promise.all` rejected

  const NoTokenMessage := "there is no token associated this server id"
  const UnknownEventMessage := "unknown event type"

  /** The fields `/hook` requires, in the order it checks them. */
  function HookFields(body: HookBody): seq<(string, Json)> {
    [("server uuid", body.server_uuid), ("event name", body.event_name), ("event datetime", body.event_datetime)]
  }

  predicate Distinct(order: seq<string>) {
    forall i, j :: 0 <= i < j < |order| ==> order[i] != order[j]
  }

  /** `order` lists every key of `keys` exactly once: an iteration order of a hash. */
  predicate Enumerates(order: seq<string>, keys: set<string>) {
    Distinct(order) &&
    (forall i :: 0 <= i < |order| ==> order[i] in keys) &&
    (forall k :: k in keys ==> k in order)
  }

  /** An enumeration of a set is as long as the set is large. */
  lemma {:induction false} EnumerationSize(order: seq<string>, keys: set<string>)
    requires Enumerates(order, keys)
    ensures |order| == |keys|
    decreases |order|
  {
    if order == [] {
      assert keys == {};
    } else {
      var n := |order| - 1;
      var rest := order[..n];
      forall k | k in keys - {order[n]}
        ensures k in rest
      {
        var i :| 0 <= i < |order| && order[i] == k;
        assert rest[i] == k;
      }
      EnumerationSize(rest, keys - {order[n]});
    }
  }

  /** `Object.entries` of a hash, visited in the iteration order `order`. */
  function EntriesOf(hash: map<string, Json>, order: seq<string>): seq<Entry>
    requires forall i :: 0 <= i < |order| ==> order[i] in hash
  {
    seq(|order|, i requires 0 <= i < |order| => (order[i], hash[order[i]]))
  }

  /**
   * Splitting a server's whole token hash sends every registered client to
   * exactly one list: the two lists together are as long as the hash is
   * large, and each client's token is in the list its flag selects.
   */
  lemma SplitCoversRegistry(hash: map<string, Json>, order: seq<string>, prefs: map<string, Json>)
    requires Enumerates(order, hash.Keys)
    ensures |VisibleTokens(EntriesOf(hash, order), prefs)| + |SilentTokens(EntriesOf(hash, order), prefs)| == |hash|
    ensures forall client :: client in hash && Silenced(prefs, client) ==>
      hash[client] in SilentTokens(EntriesOf(hash, order), prefs)
    ensures forall client :: client in hash && !Silenced(prefs, client) ==>
      hash[client] in VisibleTokens(EntriesOf(hash, order), prefs)
  {
    var entries := EntriesOf(hash, order);
    EnumerationSize(order, hash.Keys);
    SplitIsPermutation(entries, prefs);
    forall client | client in hash
      ensures Silenced(prefs, client) ==> hash[client] in SilentTokens(entries, prefs)
      ensures !Silenced(prefs, client) ==> hash[client] in VisibleTokens(entries, prefs)
    {
      var i :| 0 <= i < |order| && order[i] == client;
      SplitPlacesEntry(entries, prefs, i);
    }
  }

  /**
   * The part of `/hook` after validation: given the server's token hash and
   * flag hash as HGETALL answered (None for null), it fails when there are
   * no tokens, splits them, and routes the event by kind.
   */
  method RouteEvent(
    tokensAll: Option<map<string, Json>>, prefs: Option<map<string, Json>>, body: HookBody,
    order: seq<string>, visibleAccepted: bool, delivered: nat -> bool)
    returns (written: seq<Response>, thrown: Option<Cause>, calls: seq<Call>)
    requires tokensAll.Some? ==> tokensAll.value != map[] && Enumerates(order, tokensAll.value.Keys)
    ensures tokensAll.None? ==> written == [Failed(NoTokenMessage)] && thrown == None && calls == []
    ensures tokensAll.Some? && prefs.None? ==> written == [] && thrown == Some(PreferenceHashMissing) && calls == []
    ensures tokensAll.Some? && prefs.Some? && Classify(body.event_name).None? ==>
      && written == [Failed(UnknownEventMessage), Succeeded]
      && Reported(written) == Answered(Failed(UnknownEventMessage))
      && thrown == None && calls == []
    ensures tokensAll.Some? && prefs.Some? && Classify(body.event_name).Some? ==>
      var kind := Classify(body.event_name).value;
      var entries := EntriesOf(tokensAll.value, order);
      && |calls| >= 1
      && calls[0] == SendToDevice(VisibleTokens(entries, prefs.value), VisiblePayloadFor(kind, body))
      && IsSilentFanOut(calls[1..], kind, body, SilentTokens(entries, prefs.value), delivered)
      && written == (if visibleAccepted then [Succeeded] else [])
      && thrown == (if visibleAccepted then None else Some(VisibleSendRejected))
  {
    written, thrown, calls := [], None, [];
    if tokensAll.None? {
      written := [Failed(NoTokenMessage)];
      return;
    }
    // The hash is not empty, so the split loop runs at least once.
    ghost var someClient :| someClient in tokensAll.value;
    assert someClient in order;
    var entries := EntriesOf(tokensAll.value, order);
    var visible, silent, threw := SplitTokens(entries, prefs);
    if threw {
      thrown := Some(PreferenceHashMissing);
      return;
    }
    match Classify(body.event_name) {
      case None =>
        // `default:` writes the failure and falls out of the switch
        written := [Failed(UnknownEventMessage)];
      case Some(kind) =>
        // Promise.all([visible, silent]): every call is issued before either settles.
        calls := [SendToDevice(visible, VisiblePayloadFor(kind, body))];
        var silentCalls := SendSilently(kind, body, silent, delivered);
        calls := calls + silentCalls;
        if !visibleAccepted {
          thrown := Some(VisibleSendRejected);
          return;
        }
    }
    written := written + [Succeeded];
  }

  /**
   * `/hook`. `order` is the iteration order of the server's token hash,
   * `visibleAccepted` the provider's answer to the multicast call and
   * `delivered(i)` its answer to the i-th silent attempt. It returns the
   * JSON bodies written in order, what the handler threw, if anything, and
   * the provider calls made.
   */
  method HandleHook(store: TokenStore, body: HookBody, order: seq<string>, visibleAccepted: bool, delivered: nat -> bool)
    returns (written: seq<Response>, thrown: Option<Cause>, calls: seq<Call>)
    requires store.Valid()
    requires ToJsString(body.server_uuid) in store.tokens ==>
      Enumerates(order, store.tokens[ToJsString(body.server_uuid)].Keys)
    // A missing required field: its message, and no store read or provider call matters.
    ensures var missing := FirstMissing(HookFields(body));
      missing.Some? ==> written == [Failed(NotProvided(missing.value))] && thrown == None && calls == []
    // No token hash for the server.
    ensures var server := ToJsString(body.server_uuid);
      FirstMissing(HookFields(body)).None? && server !in store.tokens ==>
        written == [Failed(NoTokenMessage)] && thrown == None && calls == []
    // Tokens but no flag hash: the split loop throws before any call or response.
    ensures var server := ToJsString(body.server_uuid);
      FirstMissing(HookFields(body)).None? && server in store.tokens && server !in store.flags ==>
        written == [] && thrown == Some(PreferenceHashMissing) && calls == []
    // Unknown event kind: two bodies are written, the failure first, and nothing is sent.
    ensures var server := ToJsString(body.server_uuid);
      FirstMissing(HookFields(body)).None? && server in store.tokens && server in store.flags &&
      Classify(body.event_name).None? ==>
        && written == [Failed(UnknownEventMessage), Succeeded]
        && Reported(written) == Answered(Failed(UnknownEventMessage))
        && thrown == None && calls == []
    // A known kind: one multicast to the visible list (even an empty one), then the silent fan-out.
    ensures var server := ToJsString(body.server_uuid);
      FirstMissing(HookFields(body)).None? && server in store.tokens && server in store.flags &&
      Classify(body.event_name).Some? ==>
        var kind := Classify(body.event_name).value;
        var entries := EntriesOf(store.tokens[server], order);
        var prefs := store.flags[server];
        && |calls| >= 1
        && calls[0] == SendToDevice(VisibleTokens(entries, prefs), VisiblePayloadFor(kind, body))
        && IsSilentFanOut(calls[1..], kind, body, SilentTokens(entries, prefs), delivered)
        && written == (if visibleAccepted then [Succeeded] else [])
        && thrown == (if visibleAccepted then None else Some(VisibleSendRejected))
  {
    written, thrown, calls := [], None, [];
    if Falsy(body.server_uuid) {
      written := [Failed(NotProvided("server uuid"))];
      return;
    }
    if Falsy(body.event_name) {
      FirstMissingAt(HookFields(body), 1);
      written := [Failed(NotProvided("event name"))];
      return;
    }
    if Falsy(body.event_datetime) {
      FirstMissingAt(HookFields(body), 2);
      written := [Failed(NotProvided("event datetime"))];
      return;
    }
    var server := ToJsString(body.server_uuid);
    var tokensAll := HGetAll(store.tokens, server);
    var prefs := HGetAll(store.flags, server);
    written, thrown, calls := RouteEvent(tokensAll, prefs, body, order, visibleAccepted, delivered);
  }
}
