/** The key-value backend under the encrypted store, with expiry and compare-and-swap. */
module CryptoStore {
  import opened Options

  /** A stored value and the clock time, in milliseconds, at which it stops existing. */
  datatype Item<V> = Item(value: V, expiresAt: Option<int>)

  predicate Expired<V>(i: Item<V>, now: int) { i.expiresAt.Some? && i.expiresAt.value <= now }

  /** The entries a reader can still see at `now`. */
  function Visible<V>(values: map<string, Item<V>>, now: int): map<string, V> {
    map k | k in values && !Expired(values[k], now) :: values[k].value
  }

  function Lookup<V>(seen: map<string, V>, key: string): Option<V> {
    if key in seen then Some(seen[key]) else None
  }

  class MemoryKeyValueBackend<V(==)> {
    var values: map<string, Item<V>>
    var now: int

    ghost function Seen(): map<string, V>
      reads this
    {
      Visible(values, now)
    }

    constructor (now: int)
      ensures Seen() == map[] && this.now == now
    {
      values, this.now := map[], now;
    }

    /** Reading drops an expired entry and shows nothing else a change. */
    method Get(key: string) returns (found: Option<V>)
      modifies this`values
      ensures found == Lookup(Seen(), key) && Seen() == old(Seen())
    {
      if key !in values { return None; }
      if Expired(values[key], now) {
        values := values - {key};
        return None;
      }
      found := Some(values[key].value);
    }

    method Set(key: string, value: V, ttlSeconds: Option<nat>)
      modifies this`values
      ensures ttlSeconds != Some(0) ==> Seen() == old(Seen())[key := value]
      ensures ttlSeconds == Some(0) ==> Seen() == old(Seen()) - {key}
    {
      values := values[key := Item(value, if ttlSeconds.None? then None else Some(now + ttlSeconds.value * 1000))];
    }

    method Delete(key: string)
      modifies this`values
      ensures Seen() == old(Seen()) - {key}
    {
      values := values - {key};
    }

    method Take(key: string) returns (found: Option<V>)
      modifies this`values
      ensures found == old(Lookup(Seen(), key)) && Seen() == old(Seen()) - {key}
    {
      found := if key in values && !Expired(values[key], now) then Some(values[key].value) else None;
      values := values - {key};
    }

    /** The swap is applied exactly when the visible value is the expected one. */
    method CompareAndSwap(key: string, expected: Option<V>, value: V, ttlSeconds: nat) returns (swapped: bool)
      modifies this`values
      ensures swapped == (old(Lookup(Seen(), key)) == expected)
      ensures Seen() == if !swapped then old(Seen()) else if ttlSeconds > 0 then old(Seen())[key := value] else old(Seen()) - {key}
    {
      var current := if key in values && !Expired(values[key], now) then Some(values[key].value) else None;
      if current != expected { return false; }
      values := values[key := Item(value, Some(now + ttlSeconds * 1000))];
      swapped := true;
    }
  }
}
