/**
 * The front end's response cache: a `localStorage` table of JSON-serialised
 * `{ data, timestamp }` records whose entries expire five minutes after they
 * were written.  The table is the `storage` field of a `Store` object, the
 * clock reading `Date.now()` is the `now` parameter, and the storage calls
 * that throw are the `fails` and `throwing` parameters.
 */
module Cache {
  import opened Wrappers

  /** Five minutes, in milliseconds. */
  const CacheDuration: int := 5 * 60 * 1000

  /** Keys this application owns start with this prefix. */
  const KeyPrefix: string := "nova_"

  /** What `JSON.parse` makes of the text stored under a key. */
  datatype Slot<D> =
    | /** A record written by `set`: the data and the time it was written. */
      Item(data: D, timestamp: int)
    | /** A JSON object without a numeric `timestamp`: its age is `NaN`, which never exceeds the duration. */
      Untimed(data: D)
    | /** Text that is empty, is not JSON, or parses to `null`: reading it fails. */
      Unreadable

  predicate IsOwnKey(k: string) {
    |k| >= |KeyPrefix| && k[..|KeyPrefix|] == KeyPrefix
  }

  /** `if (key)`: a key argument that is present and not the empty string. */
  predicate Truthy(key: Option<string>) {
    key.Some? && key.value != ""
  }

  /** An entry is expired when it is strictly older than the duration. */
  predicate Expired<D>(slot: Slot<D>, now: int) {
    slot.Item? && now - slot.timestamp > CacheDuration
  }

  /** The table after `set(key, data)` at time `now`. */
  function Stored<D>(storage: map<string, Slot<D>>, key: string, data: D, now: int, fails: bool): map<string, Slot<D>> {
    if fails then storage else storage[key := Item(data, now)]
  }

  /** What `get(key)` at time `now` returns: `None` stands for `null`. */
  function Lookup<D>(storage: map<string, Slot<D>>, key: string, now: int): Option<D> {
    if key !in storage then None
    else
      match storage[key]
      case Unreadable => None
      case Untimed(data) => Some(data)
      case Item(data, timestamp) => if now - timestamp > CacheDuration then None else Some(data)
  }

  /** The table after `get(key)` at time `now`: an expired entry is removed. */
  function AfterGet<D>(storage: map<string, Slot<D>>, key: string, now: int): map<string, Slot<D>> {
    if key in storage && Expired(storage[key], now) then storage - {key} else storage
  }

  /** The table after `clear(key)`. */
  function Cleared<D>(storage: map<string, Slot<D>>, key: Option<string>): map<string, Slot<D>> {
    if Truthy(key) then storage - {key.value}
    else map k | k in storage && !IsOwnKey(k) :: storage[k]
  }

  /**
   * Whether `clear(key)` throws, when `removeItem` throws on the keys in
   * `throwing`: on the given key, or on some key of this application.
   */
  predicate ClearThrows<D>(storage: map<string, Slot<D>>, key: Option<string>, throwing: set<string>) {
    if Truthy(key) then key.value in throwing
    else exists k :: k in storage && IsOwnKey(k) && k in throwing
  }

  /** `table` keeps every key of `low`, has no key outside `high`, and holds `high`'s entries. */
  ghost predicate Between<D>(low: map<string, Slot<D>>, table: map<string, Slot<D>>, high: map<string, Slot<D>>) {
    low.Keys <= table.Keys <= high.Keys && forall k :: k in table ==> table[k] == high[k]
  }

  /** The `cache` object over its `localStorage` table. */
  class Store<D> {
    var storage: map<string, Slot<D>>

    constructor(initial: map<string, Slot<D>>)
      ensures storage == initial
    {
      storage := initial;
    }

    /** `cache.set(key, data)`: the write is dropped when the browser refuses it. */
    method Set(key: string, data: D, now: int, fails: bool)
      modifies this
      ensures storage == Stored(old(storage), key, data, now, fails)
    {
      if !fails {
        storage := storage[key := Item(data, now)];
      }
    }

    /**
     * `cache.get(key)`: the data when present and fresh; an expired entry is
     * removed.  When `getItem` or `removeItem` throws (`fails`), the result is
     * `null` and the table is as it was.
     */
    method Get(key: string, now: int, fails: bool) returns (result: Option<D>)
      modifies this
      ensures result == if fails then None else Lookup(old(storage), key, now)
      ensures storage == if fails then old(storage) else AfterGet(old(storage), key, now)
    {
      if fails || key !in storage {
        return None;
      }
      var slot := storage[key];
      match slot
      case Unreadable =>
        result := None;
      case Untimed(data) =>
        result := Some(data);
      case Item(data, timestamp) =>
        var age := now - timestamp;
        if age > CacheDuration {
          storage := storage - {key};
          result := None;
        } else {
          result := Some(data);
        }
    }

    /**
     * `cache.clear(key)`: one key when given, otherwise every key of this
     * application.  `removeItem` throws on the keys in `throwing`; the throw
     * ends the key loop, so the keys visited before it are removed and the
     * rest are kept.
     */
    method Clear(key: Option<string>, throwing: set<string>)
      modifies this
      ensures !ClearThrows(old(storage), key, throwing) ==> storage == Cleared(old(storage), key)
      ensures ClearThrows(old(storage), key, throwing) ==> Between(Cleared(old(storage), key), storage, old(storage))
      ensures ClearThrows(old(storage), key, throwing) && Truthy(key) ==> storage == old(storage)
      ensures ClearThrows(old(storage), key, throwing) && !Truthy(key) ==>
        exists k :: k in storage && IsOwnKey(k) && k in throwing
    {
      if Truthy(key) {
        if key.value !in throwing {
          storage := storage - {key.value};
        }
      } else {
        var keys := storage.Keys;
        ghost var original := storage;
        var failed := false;
        while keys != {} && !failed
          invariant keys <= original.Keys
          invariant storage == map k | k in original && (k in keys || !IsOwnKey(k)) :: original[k]
          invariant failed ==> exists k :: k in keys && IsOwnKey(k) && k in throwing
          invariant !failed ==> forall k :: k in original && k !in keys && IsOwnKey(k) ==> k !in throwing
          decreases keys, !failed
        {
          var k :| k in keys;
          if IsOwnKey(k) {
            if k in throwing {
              failed := true;
            } else {
              storage := storage - {k};
              keys := keys - {k};
            }
          } else {
            keys := keys - {k};
          }
        }
      }
    }
  }

  /**
   * A successful `set` makes the data readable under its key for exactly the
   * duration: a later `get` returns it while the age is at most five minutes
   * (exactly five minutes still counts as fresh) and `null` afterwards.
   */
  lemma SetThenGet<D>(storage: map<string, Slot<D>>, key: string, data: D, now: int, later: int)
    ensures Lookup(Stored(storage, key, data, now, false), key, later) == Some(data) <==> later - now <= CacheDuration
    ensures later - now > CacheDuration ==> Lookup(Stored(storage, key, data, now, false), key, later) == None
  {
  }

  /** `set` overwrites only its own key; a refused `set` changes nothing. */
  lemma SetFrame<D>(storage: map<string, Slot<D>>, key: string, data: D, now: int, fails: bool, other: string)
    requires other != key
    ensures var s := Stored(storage, key, data, now, fails);
      && (other in s <==> other in storage)
      && (other in storage ==> s[other] == storage[other])
    ensures fails ==> Stored(storage, key, data, now, fails) == storage
  {
  }

  /** `get` on an absent key returns `null` and leaves the table as it was. */
  lemma GetAbsent<D>(storage: map<string, Slot<D>>, key: string, now: int)
    requires key !in storage
    ensures Lookup(storage, key, now) == None
    ensures AfterGet(storage, key, now) == storage
  {
  }

  /** `get` on a fresh record returns its data and leaves the table as it was. */
  lemma GetFresh<D>(storage: map<string, Slot<D>>, key: string, now: int)
    requires key in storage && storage[key].Item?
    requires now - storage[key].timestamp <= CacheDuration
    ensures Lookup(storage, key, now) == Some(storage[key].data)
    ensures AfterGet(storage, key, now) == storage
  {
  }

  /**
   * `get` on an expired record returns `null`, removes exactly that key, and
   * every later `get` of the key returns `null` too.
   */
  lemma GetExpired<D>(storage: map<string, Slot<D>>, key: string, now: int, later: int)
    requires key in storage && Expired(storage[key], now)
    ensures Lookup(storage, key, now) == None
    ensures AfterGet(storage, key, now).Keys == storage.Keys - {key}
    ensures Lookup(AfterGet(storage, key, now), key, later) == None
  {
  }

  /** A failed read returns `null` and keeps the unreadable text in place. */
  lemma GetUnreadable<D>(storage: map<string, Slot<D>>, key: string, now: int)
    requires key in storage && storage[key].Unreadable?
    ensures Lookup(storage, key, now) == None
    ensures AfterGet(storage, key, now) == storage
  {
  }

  /** Reading twice at the same moment gives the same answer and the same table as reading once. */
  lemma GetIdempotent<D>(storage: map<string, Slot<D>>, key: string, now: int)
    ensures var s := AfterGet(storage, key, now);
      && Lookup(s, key, now) == Lookup(storage, key, now)
      && AfterGet(s, key, now) == s
  {
  }

  /** `clear(key)` with a key removes that key and keeps every other entry. */
  lemma ClearOne<D>(storage: map<string, Slot<D>>, key: Option<string>)
    requires Truthy(key)
    ensures key.value !in Cleared(storage, key)
    ensures forall k :: k != key.value ==> (k in Cleared(storage, key) <==> k in storage)
    ensures forall k :: k in Cleared(storage, key) ==> Cleared(storage, key)[k] == storage[k]
  {
  }

  /**
   * `clear()` (or `clear('')`) removes exactly the keys that start with
   * `nova_`, keeps every other entry as it was, and is idempotent.
   */
  lemma ClearAll<D>(storage: map<string, Slot<D>>, key: Option<string>)
    requires !Truthy(key)
    ensures forall k :: k in Cleared(storage, key) <==> k in storage && !IsOwnKey(k)
    ensures forall k :: k in Cleared(storage, key) ==> Cleared(storage, key)[k] == storage[k]
    ensures Cleared(Cleared(storage, key), key) == Cleared(storage, key)
  {
  }

  /** The empty key is falsy, so `clear('')` clears every `nova_` key rather than the key `''`. */
  lemma ClearEmptyKey<D>(storage: map<string, Slot<D>>)
    requires "" in storage
    ensures "" in Cleared(storage, Some(""))
    ensures forall k :: k in Cleared(storage, Some("")) ==> !IsOwnKey(k)
  {
    assert !IsOwnKey("");
  }
}
