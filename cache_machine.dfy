/**
  The key/value store at the heart of cacheMachine: a map from keys to values
  together with a separately maintained element counter.  Every public call of
  the Go package is forwarded over a channel to one goroutine that runs exactly
  one of the private operations below, so each public call is modelled here as
  one atomic call of a method.  The public `Add` and `Remove` reach the store
  through `addBulk` and `removeBulk` with a one-element argument; `PublicAdd`
  and `PublicRemove` model that route.
 */
module CacheMachine {

  /** The keys of `m` that are not yet keys of `base`: what a bulk insert adds. */
  function NewKeys<K, V>(base: map<K, V>, m: map<K, V>): set<K>
  {
    m.Keys - base.Keys
  }

  /** The set of keys listed in a slice (duplicates collapse). */
  function Listed<K>(keys: seq<K>): set<K>
  {
    set k | k in keys
  }

  /** Removing one more listed key is removing the next longer prefix of the list. */
  lemma RemoveStep<K, V>(m: map<K, V>, keys: seq<K>, i: nat)
    requires i < |keys|
    ensures Listed(keys[..i + 1]) == Listed(keys[..i]) + {keys[i]}
    ensures (m - Listed(keys[..i])) - {keys[i]} == m - Listed(keys[..i + 1])
  {
  }

  /** Removing a set of keys shrinks a map by exactly the removed keys it held:
      absent keys, or keys listed twice, cost nothing. */
  lemma RemovedSize<K, V>(m: map<K, V>, s: set<K>)
    ensures |m - s| == |m| - |m.Keys * s|
  {
  }

  /** The store.  `zero` stands for the zero value of the Go value type, which
      `get` and `getBulk` hand out for keys that are not present. */
  class Cache<K(==), V> {
    var data: map<K, V>
    var counter: int
    const zero: V

    /** The invariant the Go code keeps by hand: the counter is the number of keys. */
    ghost predicate Valid()
      reads this
    {
      counter == |data|
    }

    /** `New`: an empty store with a zero counter. */
    constructor (zero: V)
      ensures Valid()
      ensures data == map[] && counter == 0
      ensures this.zero == zero
    {
      data := map[];
      counter := 0;
      this.zero := zero;
    }

    /** `add`: insert or overwrite; the counter moves only for a new key. */
    method Add(key: K, val: V)
      requires Valid()
      modifies this
      ensures Valid()
      ensures data == old(data)[key := val]
      ensures Get(key) == val && Exist(key)
      ensures counter == old(counter) + (if key in old(data) then 0 else 1)
    {
      if key !in data {
        counter := counter + 1;
      }
      data := data[key := val];
    }

    /** `addBulk`: `add` for every pair of `d`; the result is `d` laid over the old contents. */
    method AddBulk(d: map<K, V>)
      requires Valid()
      modifies this
      ensures Valid()
      ensures data == old(data) + d
      ensures forall k :: k in d ==> Exist(k) && Get(k) == d[k]
      ensures forall k :: k !in d ==> (k in data <==> k in old(data))
      ensures forall k :: k !in d && k in old(data) ==> data[k] == old(data)[k]
      ensures counter == old(counter) + |NewKeys(old(data), d)|
    {
      var todo := d.Keys;
      while todo != {}
        invariant Valid()
        invariant todo <= d.Keys
        invariant data == old(data) + (map k | k in d.Keys - todo :: d[k])
        decreases todo
      {
        var k :| k in todo;
        Add(k, d[k]);
        todo := todo - {k};
      }
      assert (map k | k in d.Keys - todo :: d[k]) == d;
    }

    /** `remove`: idempotent delete; the counter moves only for a present key. */
    method Remove(key: K)
      requires Valid()
      modifies this
      ensures Valid()
      ensures data == old(data) - {key}
      ensures !Exist(key) && Get(key) == zero
      ensures counter == old(counter) - (if key in old(data) then 1 else 0)
    {
      if key !in data {
        return;
      }
      data := data - {key};
      counter := counter - 1;
    }

    /** `removeBulk`: `remove` for every listed key, duplicates included. */
    method RemoveBulk(keys: seq<K>)
      requires Valid()
      modifies this
      ensures Valid()
      ensures data == old(data) - Listed(keys)
      ensures forall k :: k in keys ==> !Exist(k)
      ensures forall k :: k !in keys ==> (k in data <==> k in old(data))
      ensures forall k :: k !in keys && k in old(data) ==> data[k] == old(data)[k]
      ensures counter == old(counter) - |old(data).Keys * Listed(keys)|
    {
      ghost var before := data;
      RemovedSize(before, Listed(keys));
      if |keys| < 1 {
        assert Listed(keys) == {};
        return;
      }
      var i := 0;
      while i < |keys|
        invariant 0 <= i <= |keys|
        invariant Valid()
        invariant data == before - Listed(keys[..i])
      {
        RemoveStep(before, keys, i);
        Remove(keys[i]);
        i := i + 1;
      }
      assert keys[..i] == keys;
    }

    /** Public `Add`: sends the one-pair map `{key: val}`, which the store
        goroutine hands to `addBulk`.  The effect is that of `add`. */
    method PublicAdd(key: K, val: V)
      requires Valid()
      modifies this
      ensures Valid()
      ensures data == old(data)[key := val]
      ensures counter == old(counter) + (if key in old(data) then 0 else 1)
    {
      AddBulk(map[key := val]);
      assert old(data) + map[key := val] == old(data)[key := val];
      assert NewKeys(old(data), map[key := val]) == (if key in old(data) then {} else {key});
    }

    /** Public `Remove`: sends the one-key slice `[key]`, which the store
        goroutine hands to `removeBulk`.  The effect is that of `remove`. */
    method PublicRemove(key: K)
      requires Valid()
      modifies this
      ensures Valid()
      ensures data == old(data) - {key}
      ensures counter == old(counter) - (if key in old(data) then 1 else 0)
    {
      RemoveBulk([key]);
      assert Listed([key]) == {key};
      assert old(data).Keys * {key} == (if key in old(data) then {key} else {});
    }

    /** `get`: the stored value, or the zero value for a missing key. */
    function Get(key: K): (v: V)
      reads this
      ensures key in data ==> v == data[key]
      ensures key !in data ==> v == zero
    {
      if key in data then data[key] else zero
    }

    /** `getBulk`: a fresh map holding exactly the requested keys, each mapped
        to what `get` would return; the store is not touched. */
    method GetBulk(keys: seq<K>) returns (r: map<K, V>)
      ensures r.Keys == Listed(keys)
      ensures forall k :: k in r ==> r[k] == Get(k)
    {
      r := map[];
      if |keys| < 1 {
        return;
      }
      var i := 0;
      while i < |keys|
        invariant 0 <= i <= |keys|
        invariant r.Keys == Listed(keys[..i])
        invariant forall k :: k in r ==> r[k] == Get(k)
      {
        assert Listed(keys[..i + 1]) == Listed(keys[..i]) + {keys[i]};
        r := r[keys[i] := Get(keys[i])];
        i := i + 1;
      }
      assert keys[..i] == keys;
    }

    /** `getAll`: a snapshot copy of every stored pair; the store is not touched. */
    method GetAll() returns (r: map<K, V>)
      ensures r.Keys == data.Keys
      ensures forall k :: k in r ==> r[k] == data[k]
      ensures Valid() ==> |r| == Count()
    {
      r := map[];
      var todo := data.Keys;
      while todo != {}
        invariant todo <= data.Keys
        invariant r.Keys == data.Keys - todo
        invariant forall k :: k in r ==> r[k] == data[k]
        decreases todo
      {
        var k :| k in todo;
        r := r[k := data[k]];
        todo := todo - {k};
      }
      assert r.Keys == data.Keys;
    }

    /** `exist`: whether the key is stored, i.e. whether `get` returns a stored value. */
    function Exist(key: K): (b: bool)
      reads this
      ensures b <==> key in data
      ensures b ==> Get(key) == data[key]
    {
      key in data
    }

    /** `count`: the counter, which under the invariant is the number of stored keys. */
    function Count(): (n: int)
      reads this
      requires Valid()
      ensures n == |data|
      ensures n == 0 <==> data == map[]
    {
      counter
    }

    /** `reset`: drop every pair and zero the counter. */
    method Reset()
      modifies this
      ensures Valid()
      ensures data == map[] && counter == 0
      ensures forall k :: !Exist(k) && Get(k) == zero
    {
      data := map[];
      counter := 0;
    }
  }
}
