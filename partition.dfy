/**
 * The hook's split of a server's registered tokens into those that get the
 * visible notification and those that get only the silent data message.
 */
module Partition {
  import opened Wrappers
  import opened JsValue

  /** One `[client id, token]` pair of `Object.entries` over a server's token hash. */
  type Entry = (string, Json)

  /** A client is silenced when its flag is present and passes `== true`. */
  predicate Silenced(prefs: map<string, Json>, client: string) {
    client in prefs && EqualsTrue(prefs[client])
  }

  /** The tokens of `entries`, in order. */
  function Tokens(entries: seq<Entry>): seq<Json>
    decreases |entries|
  {
    if entries == [] then [] else Tokens(entries[..|entries| - 1]) + [entries[|entries| - 1].1]
  }

  /** The tokens of the entries whose client is not silenced, in iteration order. */
  function VisibleTokens(entries: seq<Entry>, prefs: map<string, Json>): seq<Json>
    decreases |entries|
  {
    if entries == [] then []
    else
      var last := entries[|entries| - 1];
      VisibleTokens(entries[..|entries| - 1], prefs) + (if Silenced(prefs, last.0) then [] else [last.1])
  }

  /** The tokens of the entries whose client is silenced, in iteration order. */
  function SilentTokens(entries: seq<Entry>, prefs: map<string, Json>): seq<Json>
    decreases |entries|
  {
    if entries == [] then []
    else
      var last := entries[|entries| - 1];
      SilentTokens(entries[..|entries| - 1], prefs) + (if Silenced(prefs, last.0) then [last.1] else [])
  }

  /** The two lists together hold every token exactly as often as the entries do. */
  lemma {:induction false} SplitIsPermutation(entries: seq<Entry>, prefs: map<string, Json>)
    ensures multiset(VisibleTokens(entries, prefs)) + multiset(SilentTokens(entries, prefs)) == multiset(Tokens(entries))
    ensures |VisibleTokens(entries, prefs)| + |SilentTokens(entries, prefs)| == |entries|
    decreases |entries|
  {
    if entries != [] {
      SplitIsPermutation(entries[..|entries| - 1], prefs);
    }
  }

  /** Each entry's token lands in the list its client's flag selects. */
  lemma {:induction false} SplitPlacesEntry(entries: seq<Entry>, prefs: map<string, Json>, i: nat)
    requires i < |entries|
    ensures Silenced(prefs, entries[i].0) ==> entries[i].1 in SilentTokens(entries, prefs)
    ensures !Silenced(prefs, entries[i].0) ==> entries[i].1 in VisibleTokens(entries, prefs)
    decreases |entries|
  {
    if i < |entries| - 1 {
      SplitPlacesEntry(entries[..|entries| - 1], prefs, i);
    }
  }

  /** Every token in a list comes from an entry whose client's flag selects that list. */
  lemma {:induction false} SplitIsSound(entries: seq<Entry>, prefs: map<string, Json>)
    ensures forall t :: t in SilentTokens(entries, prefs) ==>
      exists i :: 0 <= i < |entries| && entries[i].1 == t && Silenced(prefs, entries[i].0)
    ensures forall t :: t in VisibleTokens(entries, prefs) ==>
      exists i :: 0 <= i < |entries| && entries[i].1 == t && !Silenced(prefs, entries[i].0)
    decreases |entries|
  {
    if entries != [] {
      var n := |entries| - 1;
      var init := entries[..n];
      SplitIsSound(init, prefs);
      forall t | t in SilentTokens(entries, prefs)
        ensures exists i :: 0 <= i < |entries| && entries[i].1 == t && Silenced(prefs, entries[i].0)
      {
        if t in SilentTokens(init, prefs) {
          var i :| 0 <= i < |init| && init[i].1 == t && Silenced(prefs, init[i].0);
          assert entries[i] == init[i];
        } else {
          assert entries[n].1 == t && Silenced(prefs, entries[n].0);
        }
      }
      forall t | t in VisibleTokens(entries, prefs)
        ensures exists i :: 0 <= i < |entries| && entries[i].1 == t && !Silenced(prefs, entries[i].0)
      {
        if t in VisibleTokens(init, prefs) {
          var i :| 0 <= i < |init| && init[i].1 == t && !Silenced(prefs, init[i].0);
          assert entries[i] == init[i];
        } else {
          assert entries[n].1 == t && !Silenced(prefs, entries[n].0);
        }
      }
    }
  }

  /**
   * The hook's `for` loop over `Object.entries(clientTokensAll)`. `prefs` is
   * the server's flag hash, None when HGETALL answered null: the loop's guard
   * `typeof prefs === 'object'` holds for null as well, so the lookup
   * `prefs[key]` then throws a TypeError on the first entry.
   */
  method SplitTokens(entries: seq<Entry>, prefs: Option<map<string, Json>>)
    returns (visible: seq<Json>, silent: seq<Json>, threw: bool)
    ensures threw <==> prefs.None? && entries != []
    ensures !threw ==>
      visible == VisibleTokens(entries, prefs.GetOr(map[])) &&
      silent == SilentTokens(entries, prefs.GetOr(map[]))
  {
    visible, silent, threw := [], [], false;
    for i := 0 to |entries|
      invariant visible == VisibleTokens(entries[..i], prefs.GetOr(map[]))
      invariant silent == SilentTokens(entries[..i], prefs.GetOr(map[]))
      invariant i > 0 ==> prefs.Some?
    {
      var (client, token) := entries[i];
      if prefs.None? {
        threw := true;
        return;
      }
      assert entries[..i + 1][..i] == entries[..i];
      if Silenced(prefs.value, client) {
        silent := silent + [token];
      } else {
        visible := visible + [token];
      }
    }
    assert entries[..|entries|] == entries;
  }
}
