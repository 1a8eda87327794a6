/** The process-wide progress table: for every page position, the index of
    the segment that page last moved to with a next or previous move. */
module ProgressState {

  /** Reading a key of the table: the stored value, or 0 when nothing was
      ever stored under that key. */
  function Lookup(m: map<int, int>, key: int): int
  {
    if key in m then m[key] else 0
  }

  /** A key nothing was stored under reads as 0. */
  lemma LookupAbsent(m: map<int, int>, key: int)
    requires key !in m
    ensures Lookup(m, key) == 0
  {
  }

  /** Read after write: a put is seen under its own key and nowhere else. */
  lemma LookupAfterPut(m: map<int, int>, key: int, value: int, other: int)
    ensures Lookup(m[key := value], key) == value
    ensures other != key ==> Lookup(m[key := value], other) == Lookup(m, other)
  {
  }

  /** The shared table itself; every page's cursor writes into this one object. */
  class ProgressTable {
    var entries: map<int, int>

    constructor ()
      ensures entries == map[]
    {
      entries := map[];
    }

    /** Stores `value` under `key`, replacing what was there. */
    method Put(key: int, value: int)
      modifies this
      ensures entries == old(entries)[key := value]
    {
      entries := entries[key := value];
    }
  }
}
