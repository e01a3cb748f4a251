/** A value that may be absent: the model of a Java reference that may be null. */
module Optional {
  datatype Option<+T> = None | Some(value: T)
}

/**
 * The system settings store as the SystemUI views see it through their
 * ContentResolver: integer values under string keys, and the content
 * observers registered on individual keys.
 */
module Settings {

  /** Settings.System.getInt(resolver, key, def): the stored value, or def when the key is absent. */
  function GetInt(values: map<string, int>, key: string, def: int): int
  {
    if key in values then values[key] else def
  }

  /** A registered content observer: a unique identity and the key whose URI it watches. */
  datatype Observer = Observer(id: nat, key: string)

  class ContentResolver {
    var values: map<string, int>
    var observers: set<Observer>
    var nextId: nat

    /** Every registered observer has an identity below nextId, so new ones are distinct from them. */
    ghost predicate Valid()
      reads this
    {
      forall o :: o in observers ==> o.id < nextId
    }

    constructor (initial: map<string, int>)
      ensures Valid()
      ensures values == initial && observers == {}
    {
      values := initial;
      observers := {};
      nextId := 0;
    }

    /** Settings.System.putInt: stores v under key and touches no other key. */
    method PutInt(key: string, v: int)
      modifies this
      ensures values == old(values)[key := v]
      ensures observers == old(observers) && nextId == old(nextId)
    {
      values := values[key := v];
    }

    /** registerContentObserver on the URI of key: adds a new observer, distinct from every registered one. */
    method RegisterContentObserver(key: string) returns (o: Observer)
      requires Valid()
      modifies this
      ensures Valid()
      ensures o.key == key && o !in old(observers)
      ensures observers == old(observers) + {o}
      ensures values == old(values)
    {
      o := Observer(nextId, key);
      observers := observers + {o};
      nextId := nextId + 1;
    }

    /** unregisterContentObserver: removes exactly o. */
    method UnregisterContentObserver(o: Observer)
      requires Valid()
      modifies this
      ensures Valid()
      ensures observers == old(observers) - {o}
      ensures values == old(values) && nextId == old(nextId)
    {
      observers := observers - {o};
    }
  }
}
