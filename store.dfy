/**
  The Redis instance every handler shares, reduced to what the core uses:
  string values under string keys, each written with an expiry (`ex=`, in
  seconds). Expiry is recorded, not timed: a key whose time has run out is
  one that is absent.
*/
module KeyValueStore {
  import opened PyValues

  /** The abstract content of the store. */
  datatype Snapshot = Snapshot(values: map<string, string>, ttls: map<string, nat>) {

    /** `GET key`, `None` when the key is absent. */
    function Lookup(key: string): (r: Option<string>)
      ensures r.Some? <==> key in values
      ensures r.Some? ==> r.value == values[key]
    {
      if key in values then Some(values[key]) else None
    }

    /** `SET key value EX ex`: reads its own write and changes no other key. */
    function Put(key: string, value: string, ex: nat): (s: Snapshot)
      ensures s.Lookup(key) == Some(value) && key in s.ttls && s.ttls[key] == ex
      ensures forall k :: k != key ==> s.Lookup(k) == Lookup(k)
      ensures forall k :: k != key && k in ttls ==> k in s.ttls && s.ttls[k] == ttls[k]
      ensures s.ttls.Keys == ttls.Keys + {key}
    {
      Snapshot(values[key := value], ttls[key := ex])
    }

    /** `DEL key`: the key is gone and no other key changes. */
    function Remove(key: string): (s: Snapshot)
      ensures s.Lookup(key) == None && key !in s.ttls
      ensures forall k :: k != key ==> s.Lookup(k) == Lookup(k)
      ensures forall k :: k != key && k in ttls ==> k in s.ttls && s.ttls[k] == ttls[k]
      ensures s.ttls.Keys == ttls.Keys - {key}
    {
      Snapshot(values - {key}, ttls - {key})
    }
  }

  /** The client handle (`redis.Redis(...)`), whose commands update the content in place. */
  class Store {
    var values: map<string, string>
    var ttls: map<string, nat>

    function State(): Snapshot
      reads this
    {
      Snapshot(values, ttls)
    }

    /** Connecting to the server: the client sees whatever content the server holds. */
    constructor (content: Snapshot)
      ensures State() == content
    {
      values, ttls := content.values, content.ttls;
    }

    method Get(key: string) returns (r: Option<string>)
      ensures r == State().Lookup(key)
    {
      r := if key in values then Some(values[key]) else None;
    }

    method Exists(key: string) returns (b: bool)
      ensures b <==> State().Lookup(key).Some?
    {
      b := key in values;
    }

    method Set(key: string, value: string, ex: nat)
      modifies this
      ensures State() == old(State()).Put(key, value, ex)
    {
      values := values[key := value];
      ttls := ttls[key := ex];
    }

    method Delete(key: string)
      modifies this
      ensures State() == old(State()).Remove(key)
    {
      values := values - {key};
      ttls := ttls - {key};
    }
  }
}
