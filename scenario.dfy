/**
 * A client of the model: two clients register for server "s1", the second
 * with its payload notification disabled, and a motion event arrives.
 */
module Scenario {
  import opened Wrappers
  import opened JsValue
  import opened Http
  import opened RedisHash
  import opened Registry
  import opened Payload
  import opened Partition
  import opened Dispatch
  import opened Hook

  method MissingTokenIsRefused() {
    var store := new TokenStore();
    var body := StoreTokenBody(Str("s1"), Str("c1"), Undefined, Undefined);
    FirstMissingAt(StoreTokenFields(body), 2);
    var response := store.StoreToken(body, 1000);
    assert response == Failed(NotProvided("token"));
    assert store.tokens == map[] && store.times == map[] && store.flags == map[];
  }

  /** Both registration bodies carry every required field, and their ids are plain strings. */
  lemma RegistrationsAreComplete()
    ensures FirstMissing(StoreTokenFields(StoreTokenBody(Str("s1"), Str("c1"), Str("tok1"), Undefined))) == None
    ensures FirstMissing(StoreTokenFields(StoreTokenBody(Str("s1"), Str("c2"), Str("tok2"), Bool(true)))) == None
    ensures ToJsString(Str("s1")) == "s1" && ToJsString(Str("c1")) == "c1" && ToJsString(Str("c2")) == "c2"
  {
  }

  /** The hashes the two registrations leave behind. */
  lemma RegistrationsWrite()
    ensures HSet(map[], "s1", "c1", Str("tok1")) == map["s1" := map["c1" := Str("tok1")]]
    ensures HSet(map["s1" := map["c1" := Str("tok1")]], "s1", "c2", Str("tok2"))
         == map["s1" := map["c1" := Str("tok1"), "c2" := Str("tok2")]]
    ensures HSet(map[], "s1", "c2", Bool(true)) == map["s1" := map["c2" := Bool(true)]]
  {
  }

  method RegisterTwoClients() returns (store: TokenStore)
    ensures fresh(store) && store.Valid()
    ensures store.tokens == map["s1" := map["c1" := Str("tok1"), "c2" := Str("tok2")]]
    ensures store.flags == map["s1" := map["c2" := Bool(true)]]
  {
    RegistrationsAreComplete();
    RegistrationsWrite();
    store := new TokenStore();
    var first := store.StoreToken(StoreTokenBody(Str("s1"), Str("c1"), Str("tok1"), Undefined), 1000);
    var second := store.StoreToken(StoreTokenBody(Str("s1"), Str("c2"), Str("tok2"), Bool(true)), 1001);
  }

  /** Of the two clients, only the flagged one is silenced. */
  lemma SplitOfTwoClients()
    ensures VisibleTokens([("c1", Str("tok1")), ("c2", Str("tok2"))], map["c2" := Bool(true)]) == [Str("tok1")]
    ensures SilentTokens([("c1", Str("tok1")), ("c2", Str("tok2"))], map["c2" := Bool(true)]) == [Str("tok2")]
  {
    var entries := [("c1", Str("tok1")), ("c2", Str("tok2"))];
    assert entries[..1] == [("c1", Str("tok1"))];
    assert entries[..1][..0] == [];
  }

  /** The three events below carry every required field and name server "s1". */
  lemma EventsAreComplete()
    ensures FirstMissing(HookFields(MotionAtFrontDoor())) == None
    ensures FirstMissing(HookFields(UnknownEvent())) == None
    ensures FirstMissing(HookFields(SoloArmed())) == None
    ensures ToJsString(Str("s1")) == "s1"
  {
  }

  /** The iteration order used below lists each registered client once. */
  lemma OrdersEnumerate()
    ensures Enumerates(["c1", "c2"], {"c1", "c2"})
    ensures Enumerates(["c1"], {"c1"})
  {
  }

  function MotionAtFrontDoor(): HookBody {
    HookBody(Str("motion_event"), Num(1000), Str("s1"), Str("d1"), Str("Front Door"), Undefined, Undefined)
  }

  function UnknownEvent(): HookBody {
    HookBody(Str("unknown"), Num(1000), Str("s1"), Undefined, Undefined, Undefined, Undefined)
  }

  function SoloArmed(): HookBody {
    HookBody(Str("solo"), Num(1000), Str("s1"), Undefined, Undefined, Str("armed"), Undefined)
  }

  /** The unflagged client gets the visible multicast, the flagged one one silent message. */
  method MotionEventReachesBothClasses(delivered: nat -> bool) {
    var store := RegisterTwoClients();
    var event := MotionAtFrontDoor();
    EventsAreComplete();
    OrdersEnumerate();
    assert store.tokens["s1"].Keys == {"c1", "c2"};
    var written, thrown, calls := HandleHook(store, event, ["c1", "c2"], true, delivered);
    assert EntriesOf(store.tokens["s1"], ["c1", "c2"]) == [("c1", Str("tok1")), ("c2", Str("tok2"))];
    SplitOfTwoClients();
    assert calls[0] == SendToDevice([Str("tok1")], VisiblePayloadFor(MotionEvent, event));
    assert |calls| == 2 && calls[1..][0] == Send(SilentMessageFor(MotionEvent, event, Str("tok2")), delivered(0));
    assert Reported(written) == Answered(Succeeded);
  }

  /** An unknown event name is reported as such, and nothing is sent. */
  method UnknownEventSendsNothing(delivered: nat -> bool) {
    var store := RegisterTwoClients();
    EventsAreComplete();
    OrdersEnumerate();
    assert store.tokens["s1"].Keys == {"c1", "c2"};
    var written, thrown, calls := HandleHook(store, UnknownEvent(), ["c1", "c2"], true, delivered);
    assert calls == [] && Reported(written) == Answered(Failed("unknown event type"));
  }

  /** With no client of the server flagged there is no flag hash, and the split loop throws. */
  method UnflaggedServerGetsNoNotification(delivered: nat -> bool) {
    var store := new TokenStore();
    var register := StoreTokenBody(Str("s1"), Str("c1"), Str("tok1"), Bool(false));
    RegistrationsAreComplete();
    RegistrationsWrite();
    assert FirstMissing(StoreTokenFields(register)) == None;
    var stored := store.StoreToken(register, 1000);
    assert store.tokens == map["s1" := map["c1" := Str("tok1")]] && store.flags == map[];
    EventsAreComplete();
    OrdersEnumerate();
    var written, thrown, calls := HandleHook(store, SoloArmed(), ["c1"], true, delivered);
    assert calls == [] && thrown == Some(PreferenceHashMissing) && Reported(written) == ServerError;
  }
}
