/** The store of state.go. */
module Store {
  import opened World

  class Store {
    var entries: map<string, Entry>

    constructor ()
      ensures entries == map[]
    {
      entries := map[];
    }

    /** A copy of the entry, or the zero entry and false. */
    method Get(id: string) returns (e: Entry, ok: bool)
      ensures ok <==> id in entries
      ensures e == if id in entries then entries[id] else ZERO_ENTRY
    {
      if id !in entries {
        return ZERO_ENTRY, false;
      }
      return entries[id], true;
    }

    method Put(id: string, e: Entry)
      modifies this
      ensures entries == old(entries)[id := e]
    {
      entries := entries[id := e];
    }

    method Delete(id: string)
      modifies this
      ensures entries == old(entries) - {id}
    {
      entries := entries - {id};
    }

    /** A copy that later writes do not reach. */
    method Snapshot() returns (out: map<string, Entry>)
      ensures out == entries
    {
      out := entries;
    }
  }
}
