/**
 * `StateImpl`, the property bag behind a transition state: a map from
 * property keys to values in which a key, once set, keeps its first value.
 * `set` on a key that is already present is rejected with an
 * `IllegalArgumentException` ("prop name ... already exists").
 */
module TransitionState {
  import opened Wrappers

  datatype Outcome<E> = Pass | Fail(error: E)

  /** The `IllegalArgumentException` raised by `set` for a key that is already present. */
  datatype StateError<K> = AlreadyExists(key: K)

  /** The property map after `set(key, value)` on `props`. */
  function PutIfAbsent<K, V>(props: map<K, V>, key: K, value: V): (r: map<K, V>)
    ensures r.Keys == props.Keys + {key}
    ensures key in props ==> r == props
    ensures key !in props ==> r[key] == value
    ensures forall k :: k in props ==> r[k] == props[k]
  {
    if key in props then props else props[key := value]
  }

  /** The property map after the writes `writes`, in order. */
  function SetAll<K, V>(props: map<K, V>, writes: seq<(K, V)>): map<K, V>
    decreases |writes|
  {
    if writes == [] then props
    else SetAll(PutIfAbsent(props, writes[0].0, writes[0].1), writes[1..])
  }

  /** The value of the first write of `key` in `writes`, if there is one. */
  function FirstWrite<K(==), V>(writes: seq<(K, V)>, key: K): Option<V>
    decreases |writes|
  {
    if writes == [] then None
    else if writes[0].0 == key then Some(writes[0].1)
    else FirstWrite(writes[1..], key)
  }

  /**
   * First write wins: after any sequence of `set` calls, a key that was
   * already present keeps its value, and an absent key holds the value of
   * its first write (and is present exactly when it was written).
   */
  lemma {:induction false} FirstWriteWins<K, V>(props: map<K, V>, writes: seq<(K, V)>, key: K)
    ensures key in props ==> key in SetAll(props, writes) && SetAll(props, writes)[key] == props[key]
    ensures key !in props ==>
      (key in SetAll(props, writes) <==> FirstWrite(writes, key).Some?) &&
      (key in SetAll(props, writes) ==> SetAll(props, writes)[key] == FirstWrite(writes, key).value)
    decreases |writes|
  {
    if writes != [] {
      FirstWriteWins(PutIfAbsent(props, writes[0].0, writes[0].1), writes[1..], key);
    }
  }

  /** Later writes never remove a key or change its value. */
  lemma {:induction false} SetAllExtends<K, V>(props: map<K, V>, writes: seq<(K, V)>)
    ensures props.Keys <= SetAll(props, writes).Keys
    ensures forall k :: k in props ==> SetAll(props, writes)[k] == props[k]
    decreases |writes|
  {
    if writes != [] {
      SetAllExtends(PutIfAbsent(props, writes[0].0, writes[0].1), writes[1..]);
    }
  }

  class StateImpl<N, K(==), V> {
    /** The state's name, fixed at construction. */
    const name: N
    var props: map<K, V>

    constructor (name: N)
      ensures this.name == name && props == map[]
    {
      this.name := name;
      props := map[];
    }

    /** `set(key, prop)`: stores `prop` under an absent key; fails on a present key and changes nothing. */
    method Set(key: K, prop: V) returns (result: Outcome<StateError<K>>)
      modifies this
      ensures result == if key in old(props) then Fail(AlreadyExists(key)) else Pass
      ensures props == PutIfAbsent(old(props), key, prop)
      ensures result.Pass? ==> props == old(props)[key := prop]
    {
      if key in props {
        return Fail(AlreadyExists(key));
      }
      props := props[key := prop];
      result := Pass;
    }

    /** `get(key)`: the value stored under a present key. */
    method Get(key: K) returns (value: V)
      requires key in props
      ensures value == props[key]
    {
      value := props[key];
    }
  }

  /**
   * A fresh state accepts the first `set` of a key, rejects a second one, and
   * `get` then returns the first value; the name stays the one it was given.
   */
  method SetTwiceThenGet<N, K(==), V>(name: N, key: K, first: V, second: V)
    returns (one: Outcome<StateError<K>>, two: Outcome<StateError<K>>, got: V, stateName: N)
    ensures one == Pass && two == Fail(AlreadyExists(key))
    ensures got == first && stateName == name
  {
    var s := new StateImpl<N, K, V>(name);
    one := s.Set(key, first);
    two := s.Set(key, second);
    got := s.Get(key);
    stateName := s.name;
  }
}
