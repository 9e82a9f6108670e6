/**
 * `SafeCounter` of 07-concurrency/09-sync.Mutex.go, run one call at a time. The mutex is a flag:
 * locking a held mutex would block forever without another goroutine to release it, and
 * unlocking a free one is a fatal error in Go, so both are preconditions.
 */
module SafeCounters {

  /** `sync.Mutex`, reduced to whether it is held. */
  class Mutex {
    var locked: bool

    constructor ()
      ensures !locked
    {
      locked := false;
    }

    method Lock()
      requires !locked
      modifies this
      ensures locked
    {
      locked := true;
    }

    method Unlock()
      requires locked
      modifies this
      ensures !locked
    {
      locked := false;
    }
  }

  /** `m[key]` in Go: the stored count, or the zero value 0 for an absent key. */
  function Count(m: map<string, int>, key: string): int
  {
    if key in m then m[key] else 0
  }

  /** The map after `m[key]++`: that key's count is one more (absent counted as 0), the rest as before. */
  function Incremented(m: map<string, int>, key: string): (r: map<string, int>)
    ensures r.Keys == m.Keys + {key}
    ensures Count(r, key) == Count(m, key) + 1
    ensures forall other :: other != key ==> Count(r, other) == Count(m, other)
  {
    m[key := Count(m, key) + 1]
  }

  class SafeCounter {
    const mu: Mutex
    var v: map<string, int>

    /** `SafeCounter{v: make(map[string]int)}`, with its zero-value (unlocked) mutex. */
    constructor ()
      ensures fresh(mu) && !mu.locked && v == map[]
    {
      mu := new Mutex();
      v := map[];
    }

    /** `Inc(key)`: under the lock, `c.v[key]++`; the lock is released again before returning. */
    method Inc(key: string)
      requires !mu.locked
      modifies this, mu
      ensures !mu.locked
      ensures v == Incremented(old(v), key)
    {
      mu.Lock();
      v := v[key := Count(v, key) + 1];
      mu.Unlock();
    }

    /** `Value(key)`: under the lock (released by `defer`), the count for `key`; the map is unchanged. */
    method Value(key: string) returns (r: int)
      requires !mu.locked
      modifies mu
      ensures !mu.locked
      ensures r == Count(v, key)
    {
      mu.Lock();
      r := Count(v, key);
      mu.Unlock();
    }
  }

  /** `RunConcurrency09`: 1000 increments of "somekey" on a fresh counter read back as 1000. */
  method RunConcurrency09() returns (final: int)
    ensures final == 1000
  {
    var c := new SafeCounter();
    var i := 0;
    while i < 1000
      invariant 0 <= i <= 1000
      invariant !c.mu.locked && Count(c.v, "somekey") == i
    {
      c.Inc("somekey");
      i := i + 1;
    }
    final := c.Value("somekey");
  }
}
