/** The in-process record of which sessions have a goroutine driving them. */
module TaskRegistry {
  import opened Hop

  class Registry {
    /** Each active session's entry, by the number it was acquired under. */
    var active: map<string, nat>
    var acquired: nat

    /** No two entries are the same one, and no future one is among them. */
    ghost predicate Valid()
      reads this
    {
      && (forall id :: id in active ==> active[id] < acquired)
      && (forall id, other :: id in active && other in active && active[id] == active[other] ==> id == other)
    }

    constructor ()
      ensures Valid() && active == map[]
    {
      active, acquired := map[], 0;
    }

    method Acquire(id: string) returns (entry: Option<nat>)
      requires Valid()
      modifies this
      ensures Valid() && (entry.Some? <==> id !in old(active))
      ensures active == if entry.Some? then old(active)[id := entry.value] else old(active)
      ensures entry.Some? ==> forall other :: other in old(active) ==> old(active)[other] != entry.value
    {
      if id in active {
        return None;
      }
      entry := Some(acquired);
      active := active[id := acquired];
      acquired := acquired + 1;
    }

    /** Frees exactly the entry it was handed out with: called again, it leaves a later holder's entry alone. */
    method Release(id: string, entry: nat)
      requires Valid()
      modifies this`active
      ensures Valid()
      ensures active == if id in old(active) && old(active)[id] == entry then old(active) - {id} else old(active)
    {
      if id in active && active[id] == entry {
        active := active - {id};
      }
    }
  }
}
