# Notification-broker relay: a Dafny model

This project models the core of the Bluecherry mobile notification hook, a small
relay between DVR servers and the phones that follow them. It is written in
JavaScript as a single Express service (`index.js`). The service has three
endpoints:

- `/store-token` registers a client's push token for a server. It keeps three
  Redis hashes per server: token, registration time, and a "disable payload
  notification" flag.
- `/remove-token` deletes those three entries.
- `/hook` receives an event from a server. It validates the event and splits
  the server's registered tokens by the flag. It then makes one visible
  multicast `sendToDevice` call and one silent data-only `send` per flagged
  token. Each silent attempt is isolated in its own try/catch.

The model is organised as follows:

- `js_value.dfy` (`JsValue`): the JavaScript values a request body carries and
  the three operations the handlers apply to them. These are the falsy test
  `!v`, the loose comparison `v == true`, and `String(v)`. `String(v)` also
  forms every Redis key and field name.
- `http.dfy` (`Http`): response bodies, the "first body written is what the
  caller gets" rule, and the shared first-missing-field validation.
- `redis_hash.dfy` (`RedisHash`): the Redis hash commands the handlers use, on
  a keyspace `map<string, map<string, V>>`. The invariant is that no key holds
  an empty hash, and HGETALL answers null for an absent key.
- `registry.dfy` (`Registry`): the class `TokenStore`, whose three fields are
  the three hash families. Its methods `StoreToken` and `RemoveToken` update
  them step by step, as the handlers do.
- `partition.dfy` (`Partition`): the loop that splits tokens into a visible
  list and a silent list. It is proved against two filter functions, and
  lemmas show that the split is a permutation, that each token is placed by
  its flag, and that the split is sound.
- `payload.dfy` (`Payload`): the event kinds, plus the six payload literals
  (visible and silent for each kind) as functions.
- `dispatch.dfy` (`Dispatch`): the provider calls as a trace, and the silent
  fan-out loop.
- `hook.dfy` (`Hook`): the `/hook` handler as one method whose contract covers
  every outcome.
- `scenario.dfy` (`Scenario`): client methods that drive the model through
  three cases. Two clients register and a motion event arrives. An unknown
  event arrives. A server has no flagged client.

The environment is passed in as parameters:

- the clock (`now`);
- the iteration order of `Object.entries` (`order`);
- the provider's answer to the multicast call (`visibleAccepted`);
- its answer to the i-th silent attempt (`delivered(i)`).

Behaviour the model keeps exactly as `index.js` has it:

- The visible multicast call is made even when the visible list is empty.
- For an unknown `event_name`, `/hook` writes `unknown event type` and then
  falls out of the `switch` into the success write. `HandleHook` returns both
  bodies, and `Reported` gives the first, which is what the caller receives.
- `event_datetime` is rejected by a falsy test, so `0` is refused like a
  missing value. No kind-specific field (`device_id`, `device_name`, `state`)
  is checked. A missing `device_id` becomes the text `"undefined"` in the
  payload.
- `/store-token` writes the flag only when `disable_payload_notification == true`.
  Otherwise an earlier flag for the pair is kept, not reset.
- The flag lookup in the split loop is guarded only by
  `typeof prefs === 'object'`, which also holds for `null`. A server that has
  tokens but no flag hash therefore makes the loop throw on its first entry.
  The handler then sends nothing and writes no body (outcome
  `PreferenceHashMissing`). This is the case whenever none of the server's
  clients registered with the flag set.
- If the multicast call is rejected, `Promise.all` rejects after every silent
  attempt has been issued, and the handler throws (outcome
  `VisibleSendRejected`).

Some behaviour one might expect of such a relay is not what `index.js` does, and
the model follows the code:

- an empty visible list is still sent;
- only `server_uuid`, `event_name` and `event_datetime` are validated;
- the handler reports no counts of attempts or failures;
- an absent token hash and an absent flag hash are told apart only as above.

## Model

| member | source | states |
|---|---|---|
| `JsValue.Falsy` | index.js:246-259 | the falsy test `!v` holds exactly for undefined, null, `false`, `0` and the empty string, so a field such as `event_datetime` sent as `0` counts as not provided |
| `JsValue.EqualsTrue` | index.js:212 | the loose comparison `v == true` holds exactly for `true`, the number 1 and a string spelling 1; undefined and null never pass |
| `JsValue.EqualsTrueIsTruthy` | index.js:211-214 | every value that passes `== true` is truthy, so a flag that is written is never a falsy value |
| `JsValue.ToJsString` | index.js:34-35 | `String(v)`: a string is unchanged, `undefined` gives `"undefined"`, and the text of an integer parses back to that same integer, so the timestamp is carried without loss |
| `JsValue.NatToDecimal` | index.js:34 | the decimal text of a number has at least one character, only digits, and no leading zero; zero is `"0"` |
| `JsValue.IntToDecimalRoundTrip` | index.js:34 | parsing the decimal text of any integer gives that integer back |
| `JsValue.DigitsValueOfDecimal` | index.js:34 | the digits NatToDecimal writes denote the number they were written from |
| `Http.FirstMissing` | index.js:195-208 | the result is None exactly when every listed field is truthy; otherwise it names a falsy field all of whose predecessors are truthy |
| `Http.FirstMissingAt` | index.js:244-259 | when the i-th field is the first falsy one, that field is the one reported, so checks made one after another in list order give the message of the first missing field |
| `RedisHash.HSet` | index.js:210-213 | after HSET, the field holds the new value and every other key and field reads as before; the key set only gains the key; no empty hash appears |
| `RedisHash.HDel` | index.js:233-236 | after HDEL, the field is absent and every other key and field reads as before; deleting an absent field leaves the store unchanged; no empty hash is left behind |
| `RedisHash.HGetAll` | index.js:262-265 | HGETALL returns exactly the fields the key holds with their values, or null when the key holds none; a returned hash is never empty |
| `RedisHash.LookupDeterminesDb` | index.js:210-236 | two stores without empty hashes that give the same value for every key and field are equal |
| `RedisHash.DelUndoesSet` | index.js:210-236 | registering a pair that was absent and then removing it restores the store exactly |
| `RedisHash.SetOverwrites` | index.js:210-211 | registering the same pair again replaces the earlier token and time entirely |
| `RedisHash.DelIdempotent` | index.js:233-236 | removing twice is the same as removing once |
| `Registry.TokenStore.StoreToken` | index.js:191-217 | checks `server_id`, `client_id` and `token` in that order; on the first falsy one it returns its own failure message and leaves all three hashes unchanged; otherwise it sets the token and the time (the clock value) for the pair, sets the flag only when it is `== true` (otherwise any earlier flag stays), succeeds, and keeps the no-empty-hash invariant |
| `Registry.TokenStore.RemoveToken` | index.js:219-240 | checks `server_id` then `client_id`, and on a falsy one fails with no change; otherwise it deletes the pair from all three hashes and succeeds; nothing else changes, and removing a pair that was never registered succeeds with the store unchanged |
| `Payload.Classify` | index.js:284-303 | an event name selects a kind exactly when it is strictly equal to that kind's name |
| `Payload.VisiblePayloadFields` | index.js:24-75 | every kind's payload has the following fields: `eventType`, which classifies back to the kind; `serverId`, which is `server_uuid`; `eventDateTime`, which is `String(event_datetime)` and parses back to the timestamp; and `dvrName`. `deviceId` (as `String(device_id)`) and `deviceName` appear exactly for motion and device-state, and `state` exactly for device-state and solo. The titles are `Motion Event`, `Device State Event` and `Solo Event`. The body is `device_name` for motion and `state` otherwise |
| `Payload.SilentMessageFor` | index.js:78-186 | the silent message is addressed to its one token. Its `data` block equals the visible payload's `data` for the same kind, field for field. It has no notification and carries the fixed hints: Android priority `high`, APNs `content-available: 1`, `mutable-content: 1`, push type `background` and priority `5` |
| `Partition.SplitTokens` | index.js:272-282 | the loop yields exactly the visible and silent filters of the entries in iteration order; it throws exactly when the flag hash is null and there is at least one entry |
| `Partition.SplitIsPermutation` | index.js:276-282 | the two lists together hold each token as often as the entries do, and their lengths add up to the number of entries |
| `Partition.SplitPlacesEntry` | index.js:276-282 | each entry's token is in the silent list when its client's flag is `== true`, and in the visible list otherwise |
| `Partition.SplitIsSound` | index.js:276-282 | every token in the silent list comes from a flagged client, and every token in the visible list from an unflagged one |
| `Dispatch.SendSilently` | index.js:79-113 | exactly one attempt per silent token, in order. The i-th attempt carries that token's silent message and only the i-th verdict, so earlier failures change nothing, and the fan-out as a whole cannot fail |
| `Hook.HandleHook` | index.js:242-309 | validates `server_uuid`, `event_name` and `event_datetime` in that order with the falsy test, and on failure writes that field's message and makes no call. An absent token hash gives `there is no token associated this server id` and no call. Tokens without a flag hash throw before any call or body. An unknown kind writes `unknown event type` and then success, makes no call, and the failure is what is reported. A known kind makes one multicast of its visible payload to the visible list, even an empty one, followed by the silent fan-out to the silent list; it succeeds unless the multicast is rejected, in which case it throws |
| `Hook.RouteEvent` | index.js:262-307 | given the token hash and flag hash as HGETALL answered: no token hash gives `there is no token associated this server id` and no call; a null flag hash throws before any call or body; an unknown kind writes the failure and then success and makes no call; a known kind makes one multicast of its visible payload to the visible list, even an empty one, then the silent fan-out to the silent list, and throws only when the multicast is rejected |
| `Hook.SplitCoversRegistry` | index.js:262-282 | splitting a server's whole token hash gives lists whose lengths add up to the number of registered clients, and each client's token is in the list its flag selects |
| `Hook.EnumerationSize` | index.js:276 | an iteration order that lists each key of a hash once is as long as the hash has keys |

## Left out

- HTTP transport: Express, `wrap`, `dotenv`, `app.listen` and `console.log`. Each request is a method call, and a response is a value.
- The Redis client and `lib/redis-promise.js`, a promise wrapper with no logic. The store is the abstract keyspace above.
- Redis failures: a rejected command would make the handler throw. The store is assumed to answer every command.
- Redis keeps field values as text. The model keeps each value as it was handed to HSET. With a real store, a flag written as the JSON boolean `true` reads back as the text `"true"`, which `== true` rejects. The model does not capture this.
- The push provider: the Firebase Admin SDK and its delivery semantics. Each call is a trace entry, and the provider's answers are parameters. The provider's per-token result list for the multicast and its own validation of payloads are not modelled, for example its rejection of a non-string `data` value such as an absent `device_name`. Whether the multicast to an empty visible list is accepted is likewise left to the `visibleAccepted` parameter: the model states that the call is made, not that it succeeds (the provider's SDK is reported to refuse an empty token list, which would make `/hook` throw after the silent sends when every client of a server is flagged).
- Concurrency: the two `Promise.all` calls and concurrent requests. Each request runs alone, and the visible call is recorded before the silent ones. The source does not fix that order.
- `Date.now()` and the iteration order of `Object.entries` are parameters.
- Bodies whose fields are fractional numbers, objects or arrays. `String(n)` in exponent form for integers of magnitude 10^21 or more.
- JsValue.ToJsString: a `Num` holds any integer, but JavaScript numbers are doubles. Above 2^53 not every integer is a number, and `String(n)` prints the shortest digits that identify the double, padded with zeros (`String(2**64)` is `"18446744073709552000"`), whereas the model prints every digit. Timestamps in milliseconds are far below 2^53, so the payloads are unaffected.
- JsValue.EqualsTrue: a string equals `true` when it spells 1 with an optional sign and leading zeros. Other spellings JavaScript also converts to 1 are not modelled: surrounding whitespace, `1.0`, `1e0`, `0x1`.
- Hook.HandleHook: a second `res.json` after a body was sent fails inside Express. This is modelled only as a write that does not reach the caller.
