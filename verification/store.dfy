/**
 * The two stores the services share: the document database (inventory,
 * payment and user collections) and the redis key-value store.
 */
module Store {

  import opened Common
  import opened Models

  /** The inventory, payment and user collections. */
  class Database {
    var inventories: map<Id, Inventory>
    var payments: seq<Payment>
    var users: seq<User>

    constructor (inventories: map<Id, Inventory>, payments: seq<Payment>, users: seq<User>)
      ensures this.inventories == inventories && this.payments == payments && this.users == users
    {
      this.inventories := inventories;
      this.payments := payments;
      this.users := users;
    }
  }

  /** The redis client's `setex`, `get` and `del`; expiry is not modelled. */
  class KeyValueStore {
    var entries: map<string, string>

    constructor (entries: map<string, string>)
      ensures this.entries == entries
    {
      this.entries := entries;
    }

    method SetEx(key: string, ttlSeconds: nat, value: string)
      modifies this
      ensures entries == old(entries)[key := value]
    {
      entries := entries[key := value];
    }

    /** `get` answers null (None) for a key that holds nothing. */
    method Get(key: string) returns (value: Option<string>)
      ensures value.Some? <==> key in entries
      ensures value.Some? ==> value.value == entries[key]
    {
      value := if key in entries then Some(entries[key]) else None;
    }

    method Del(key: string)
      modifies this
      ensures entries == old(entries) - {key}
    {
      entries := entries - {key};
    }
  }
}
