/**
 * The browser's `localStorage` as the term wizard uses it
 * (frontend/app/termo/page.tsx, `loadTerms`, `saveTerms`, `getNextId`): an
 * abstract key/value store with two keys, "termos" (the list of terms) and
 * "nextId" (the id counter). A key that was never written is `None`. The JSON
 * and decimal encodings of the stored strings are not part of this model.
 */
module TermStore {
  import opened Wrappers
  import opened TermRecords

  /** The id `getNextId` hands out for a stored counter: the counter itself, or 1 when the key is absent. */
  function CounterValue(stored: Option<int>): int
  {
    if stored.Some? then stored.value else 1
  }

  class LocalStorage {
    /** The value under key "termos". */
    var termos: Option<seq<Term>>
    /** The value under key "nextId". */
    var nextId: Option<int>

    constructor (termos: Option<seq<Term>>, nextId: Option<int>)
      ensures this.termos == termos && this.nextId == nextId
    {
      this.termos := termos;
      this.nextId := nextId;
    }

    /** `loadTerms`: the stored list, or the empty list when nothing was stored; loading never fails. */
    function LoadTerms(): (r: seq<Term>)
      reads this
      ensures termos.None? ==> r == []
      ensures termos.Some? ==> r == termos.value
    {
      if termos.Some? then termos.value else []
    }

    /** `saveTerms`: overwrites key "termos"; loading afterwards gives back exactly `ts`. */
    method SaveTerms(ts: seq<Term>)
      modifies this
      ensures termos == Some(ts) && nextId == old(nextId)
      ensures LoadTerms() == ts
    {
      termos := Some(ts);
    }

    /**
     * `getNextId`: read the counter (1 when absent), store its successor and
     * return it, so that successive calls return consecutive ids.
     */
    method GetNextId() returns (id: int)
      modifies this
      ensures id == CounterValue(old(nextId))
      ensures nextId == Some(id + 1) && CounterValue(nextId) == id + 1
      ensures termos == old(termos)
    {
      id := if nextId.Some? then nextId.value else 1;
      nextId := Some(id + 1);
    }
  }
}
