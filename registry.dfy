/**
 * The token registry behind `/store-token` and `/remove-token`: for each
 * server, three Redis hashes keyed by client id hold the client's push token
 * (`server_token:<server>`), the time it registered
 * (`server_token_time:<server>`) and its "disable payload notification" flag
 * (`server_disable_payload_notification:<server>`).
 */
module Registry {
  import opened Wrappers
  import opened JsValue
  import opened Http
  import opened RedisHash

  /** The body of a `/store-token` request. */
  datatype StoreTokenBody = StoreTokenBody(server_id: Json, client_id: Json, token: Json, disable_payload_notification: Json)

  /** The body of a `/remove-token` request. */
  datatype RemoveTokenBody = RemoveTokenBody(server_id: Json, client_id: Json)

  /** The fields `/store-token` requires, in the order it checks them, with the names its messages use. */
  function StoreTokenFields(body: StoreTokenBody): seq<(string, Json)> {
    [("server id", body.server_id), ("client id", body.client_id), ("token", body.token)]
  }

  /** The fields `/remove-token` requires, in the order it checks them. */
  function RemoveTokenFields(body: RemoveTokenBody): seq<(string, Json)> {
    [("server id", body.server_id), ("client id", body.client_id)]
  }

  class TokenStore {
    /** `server_token:<server>`: client id -> push token. */
    var tokens: Db<Json>
    /** `server_token_time:<server>`: client id -> registration time in milliseconds. */
    var times: Db<int>
    /** `server_disable_payload_notification:<server>`: client id -> flag as written. */
    var flags: Db<Json>

    ghost predicate Valid()
      reads this
    {
      NoEmptyHash(tokens) && NoEmptyHash(times) && NoEmptyHash(flags)
    }

    constructor ()
      ensures Valid()
      ensures tokens == map[] && times == map[] && flags == map[]
    {
      tokens, times, flags := map[], map[], map[];
    }

    /**
     * `/store-token`; `now` is the clock reading the handler takes with `Date.now()`.
     * The key of every hash is `String(server_id)` and the field `String(client_id)`.
     */
    method StoreToken(body: StoreTokenBody, now: int) returns (response: Response)
      requires Valid()
      modifies this
      ensures Valid()
      ensures var missing := FirstMissing(StoreTokenFields(body));
        missing.Some? ==>
          response == Failed(NotProvided(missing.value)) &&
          tokens == old(tokens) && times == old(times) && flags == old(flags)
      ensures var server, client := ToJsString(body.server_id), ToJsString(body.client_id);
        FirstMissing(StoreTokenFields(body)).None? ==>
          && response == Succeeded
          && tokens == HSet(old(tokens), server, client, body.token)
          && times == HSet(old(times), server, client, now)
          && flags == (if EqualsTrue(body.disable_payload_notification)
                       then HSet(old(flags), server, client, body.disable_payload_notification)
                       else old(flags))
    {
      if Falsy(body.server_id) {
        response := Failed(NotProvided("server id"));
        return;
      }
      if Falsy(body.client_id) {
        FirstMissingAt(StoreTokenFields(body), 1);
        response := Failed(NotProvided("client id"));
        return;
      }
      if Falsy(body.token) {
        FirstMissingAt(StoreTokenFields(body), 2);
        response := Failed(NotProvided("token"));
        return;
      }
      var server, client := ToJsString(body.server_id), ToJsString(body.client_id);
      tokens := HSet(tokens, server, client, body.token);
      times := HSet(times, server, client, now);
      if EqualsTrue(body.disable_payload_notification) {
        flags := HSet(flags, server, client, body.disable_payload_notification);
      }
      response := Succeeded;
    }

    /** `/remove-token`: deletes the client's three fields; deleting what is not there is not an error. */
    method RemoveToken(body: RemoveTokenBody) returns (response: Response)
      requires Valid()
      modifies this
      ensures Valid()
      ensures var missing := FirstMissing(RemoveTokenFields(body));
        missing.Some? ==>
          response == Failed(NotProvided(missing.value)) &&
          tokens == old(tokens) && times == old(times) && flags == old(flags)
      ensures var server, client := ToJsString(body.server_id), ToJsString(body.client_id);
        FirstMissing(RemoveTokenFields(body)).None? ==>
          && response == Succeeded
          && tokens == HDel(old(tokens), server, client)
          && times == HDel(old(times), server, client)
          && flags == HDel(old(flags), server, client)
          && Lookup(tokens, server, client).None?
          && Lookup(times, server, client).None?
          && Lookup(flags, server, client).None?
      ensures var server, client := ToJsString(body.server_id), ToJsString(body.client_id);
        && FirstMissing(RemoveTokenFields(body)).None?
        && Lookup(old(tokens), server, client).None?
        && Lookup(old(times), server, client).None?
        && Lookup(old(flags), server, client).None?
        ==> response == Succeeded && tokens == old(tokens) && times == old(times) && flags == old(flags)
    {
      if Falsy(body.server_id) {
        response := Failed(NotProvided("server id"));
        return;
      }
      if Falsy(body.client_id) {
        FirstMissingAt(RemoveTokenFields(body), 1);
        response := Failed(NotProvided("client id"));
        return;
      }
      var server, client := ToJsString(body.server_id), ToJsString(body.client_id);
      tokens := HDel(tokens, server, client);
      times := HDel(times, server, client);
      if HExists(flags, server, client) {
        flags := HDel(flags, server, client);
      }
      response := Succeeded;
    }
  }
}
