/**
 * The part of the Redis key-value store the registry uses: a keyspace of
 * hashes, each mapping field names to values, with the commands HSET, HDEL,
 * HEXISTS and HGETALL. Redis never keeps an empty hash: deleting the last
 * field of a hash deletes its key, and HGETALL on an absent key answers null.
 */
module RedisHash {
  import opened Wrappers

  /** A keyspace of hashes: key -> field -> value. */
  type Db<V> = map<string, map<string, V>>

  /** The store-wide invariant: no key holds an empty hash. */
  ghost predicate NoEmptyHash<V>(db: Db<V>) {
    forall key :: key in db ==> db[key] != map[]
  }

  /** HGET: the value of `field` in the hash at `key`, if there is one. */
  function Lookup<V>(db: Db<V>, key: string, field: string): Option<V> {
    if key in db && field in db[key] then Some(db[key][field]) else None
  }

  /** HSET key field value: creates the hash if needed and overwrites the field. */
  function HSet<V>(db: Db<V>, key: string, field: string, value: V): (r: Db<V>)
    ensures NoEmptyHash(db) ==> NoEmptyHash(r)
    ensures r.Keys == db.Keys + {key}
    ensures forall k, f :: Lookup(r, k, f) == if k == key && f == field then Some(value) else Lookup(db, k, f)
  {
    var hash := (if key in db then db[key] else map[])[field := value];
    assert field in hash;
    db[key := hash]
  }

  /** HDEL key field: removes the field, and the key with it when the hash becomes empty. */
  function HDel<V>(db: Db<V>, key: string, field: string): (r: Db<V>)
    ensures NoEmptyHash(db) ==> NoEmptyHash(r)
    ensures forall k, f :: Lookup(r, k, f) == if k == key && f == field then None else Lookup(db, k, f)
    ensures NoEmptyHash(db) && Lookup(db, key, field).None? ==> r == db
  {
    if key !in db then db
    else
      var rest := db[key] - {field};
      assert rest.Keys == db[key].Keys - {field};
      if rest == map[] then
        assert rest.Keys == {};
        assert db[key].Keys <= {field};
        db - {key}
      else
        assert field !in db[key] ==> rest == db[key];
        db[key := rest]
  }

  /** HEXISTS key field. */
  predicate HExists<V>(db: Db<V>, key: string, field: string) {
    key in db && field in db[key]
  }

  /** HGETALL key: every field of the hash, or None (Redis's null reply) when there is no such hash. */
  function HGetAll<V>(db: Db<V>, key: string): (r: Option<map<string, V>>)
    ensures r.Some? ==> forall f :: (f in r.value <==> Lookup(db, key, f).Some?)
    ensures r.Some? ==> forall f :: f in r.value ==> Lookup(db, key, f) == Some(r.value[f])
    ensures r.None? ==> forall f :: Lookup(db, key, f).None?
    ensures NoEmptyHash(db) ==> (r.Some? ==> r.value != map[])
  {
    if key in db then Some(db[key]) else None
  }

  /** Two stores without empty hashes that answer every HGET alike are the same store. */
  lemma LookupDeterminesDb<V>(a: Db<V>, b: Db<V>)
    requires NoEmptyHash(a) && NoEmptyHash(b)
    requires forall k, f :: Lookup(a, k, f) == Lookup(b, k, f)
    ensures a == b
  {
    forall k | k in a
      ensures k in b && a[k] == b[k]
    {
      var f :| f in a[k];
      assert Lookup(a, k, f).Some?;
      forall g ensures (g in a[k] <==> g in b[k]) && (g in a[k] ==> a[k][g] == b[k][g]) {
        assert Lookup(a, k, g) == Lookup(b, k, g);
      }
    }
    forall k | k in b
      ensures k in a
    {
      var f :| f in b[k];
      assert Lookup(b, k, f).Some?;
      assert Lookup(a, k, f) == Lookup(b, k, f);
    }
  }

  /** Setting a field that was absent and then deleting it restores the store exactly. */
  lemma {:induction false} DelUndoesSet<V>(db: Db<V>, key: string, field: string, value: V)
    requires NoEmptyHash(db) && Lookup(db, key, field).None?
    ensures HDel(HSet(db, key, field, value), key, field) == db
  {
    LookupDeterminesDb(HDel(HSet(db, key, field, value), key, field), db);
  }

  /** A second HSET of the same field replaces the first entirely. */
  lemma {:induction false} SetOverwrites<V>(db: Db<V>, key: string, field: string, first: V, second: V)
    requires NoEmptyHash(db)
    ensures HSet(HSet(db, key, field, first), key, field, second) == HSet(db, key, field, second)
  {
    LookupDeterminesDb(HSet(HSet(db, key, field, first), key, field, second), HSet(db, key, field, second));
  }

  /** HDEL is idempotent: a second delete of the same field changes nothing. */
  lemma {:induction false} DelIdempotent<V>(db: Db<V>, key: string, field: string)
    requires NoEmptyHash(db)
    ensures HDel(HDel(db, key, field), key, field) == HDel(db, key, field)
  {
  }
}
