/**
 * The cache the handlers talk to (golift.io/cache, and the older
 * pkg/cache API used by pkg/webserver/handlers.go), reduced to the
 * interface they use: Get, Save with a prune flag, and Delete.  Pruning,
 * expiry, hit counting and statistics live in that library and are not
 * part of this model; an entry only records what the handler chose.
 */
module KeyCache {
  import opened Wrappers
  import opened UserInfo

  /** cache.Item: the saved data (nil or a user), when it was saved, and whether it may be pruned early. */
  datatype Item = Item(data: Option<UserInfo>, time: int, prune: bool)

  /** The stored item of `key`, if any. */
  function Lookup(entries: map<string, Item>, key: string): Option<Item>
  {
    if key in entries then Some(entries[key]) else None
  }

  class Store {
    var entries: map<string, Item>

    constructor ()
      ensures entries == map[]
    {
      entries := map[];
    }

    /** Get: the stored item, or none. */
    method Get(key: string) returns (item: Option<Item>)
      ensures item == Lookup(entries, key)
    {
      item := if key in entries then Some(entries[key]) else None;
    }

    /** Save: the key now holds the data, saved at `now` with the given prune flag (false for the older API, which has no options). */
    method Save(key: string, data: Option<UserInfo>, prune: bool, now: int)
      modifies this
      ensures entries == old(entries)[key := Item(data, now, prune)]
    {
      entries := entries[key := Item(data, now, prune)];
    }

    /** Delete: the key is gone; the item it held is returned. */
    method Delete(key: string) returns (item: Option<Item>)
      modifies this
      ensures item == Lookup(old(entries), key)
      ensures entries == old(entries) - {key}
    {
      item := if key in entries then Some(entries[key]) else None;
      entries := entries - {key};
    }
  }
}
