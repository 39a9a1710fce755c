/**
  Client programs that drive the store the way the package's tests do, using
  nothing but the contracts of `CacheMachine.Cache`.  Each public call of the
  Go API is one call of the corresponding method here.
 */
module CacheScenarios {
  import opened CacheMachine

  /** What `initializeFullCache(n)` stores: every `i` in `[0, n)` mapped to itself. */
  function Identity(n: nat): map<int, int>
  {
    if n == 0 then map[] else Identity(n - 1)[n - 1 := n - 1]
  }

  /** The identity map on `[0, n)` holds exactly the keys `0 .. n - 1`, each
      mapped to itself, and so has `n` of them. */
  lemma {:induction false} IdentityContents(n: nat)
    ensures forall k :: k in Identity(n) <==> 0 <= k < n
    ensures forall k :: k in Identity(n) ==> Identity(n)[k] == k
    ensures |Identity(n)| == n
  {
    if n > 0 {
      IdentityContents(n - 1);
    }
  }

  /** `initializeFullCache`: a new store filled by `n` single adds of `i -> i`. */
  method InitializeFullCache(n: nat) returns (c: Cache<int, int>)
    ensures fresh(c) && c.Valid() && c.zero == 0
    ensures c.data == Identity(n)
  {
    c := new Cache(0);
    var i := 0;
    while i < n
      invariant 0 <= i <= n
      invariant c.Valid() && c.zero == 0
      invariant c.data == Identity(i)
    {
      c.Add(i, i);
      i := i + 1;
    }
  }

  /** Ten adds: the count, the snapshot, a lookup and a presence check all agree. */
  method FullCacheScenario() returns (count: int, all: map<int, int>, five: int, hasFive: bool)
    ensures count == 10 && |all| == 10
    ensures five == 5 && hasFive
  {
    var c := InitializeFullCache(10);
    IdentityContents(10);
    count := c.Count();
    all := c.GetAll();
    five := c.Get(5);
    hasFive := c.Exist(5);
  }

  /** A bulk insert into an empty store is read back unchanged by `getAll`. */
  method AddBulkRoundTrip<K(==), V>(m: map<K, V>, zero: V) returns (all: map<K, V>, count: int)
    ensures all == m
    ensures count == |m|
  {
    var c := new Cache(zero);
    c.AddBulk(m);
    all := c.GetAll();
    count := c.Count();
  }

  /** Removing one of ten keys: it is gone and the count drops by one. */
  method RemoveScenario() returns (hasFive: bool, count: int)
    ensures !hasFive && count == 9
  {
    var c := InitializeFullCache(10);
    IdentityContents(10);
    c.Remove(5);
    hasFive := c.Exist(5);
    count := c.Count();
  }

  /** Removing a key twice leaves the store as removing it once did. */
  method RemoveTwice<K, V>(c: Cache<K, V>, key: K)
    requires c.Valid()
    modifies c
    ensures c.Valid()
    ensures c.data == old(c.data) - {key}
    ensures c.counter == old(c.counter) - (if key in old(c.data) then 1 else 0)
  {
    c.Remove(key);
    ghost var once, onceCount := c.data, c.counter;
    c.Remove(key);
    assert c.data == once && c.counter == onceCount;
  }

  /** Looking up three stored keys returns exactly those three pairs. */
  method GetBulkScenario() returns (r: map<int, int>)
    ensures r == map[2 := 2, 4 := 4, 6 := 6]
  {
    var c := InitializeFullCache(10);
    IdentityContents(10);
    var wanted := [2, 4, 6];
    assert Listed(wanted) == {2, 4, 6} by {
      forall k | k in {2, 4, 6} ensures k in wanted {
        assert k == wanted[k / 2 - 1];
      }
    }
    r := c.GetBulk(wanted);
  }

  /** The slice of the five even keys below ten lists exactly those five keys. */
  lemma EvensListed()
    ensures Listed([0, 2, 4, 6, 8]) == {0, 2, 4, 6, 8}
    ensures |{0, 2, 4, 6, 8}| == 5
  {
  }

  /** Removing the five even keys of ten leaves five. */
  method RemoveBulkScenario() returns (count: int)
    ensures count == 5
  {
    var c := InitializeFullCache(10);
    IdentityContents(10);
    EvensListed();
    assert c.data.Keys * {0, 2, 4, 6, 8} == {0, 2, 4, 6, 8};
    c.RemoveBulk([0, 2, 4, 6, 8]);
    count := c.Count();
  }

  /** After a reset a full store is empty. */
  method ResetScenario() returns (count: int, all: map<int, int>)
    ensures count == 0 && all == map[]
  {
    var c := InitializeFullCache(10);
    c.Reset();
    count := c.Count();
    all := c.GetAll();
  }
}
