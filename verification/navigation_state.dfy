/** The navigation store: the values pages hand back to the page that opened
    them, keyed by page id. */
module NavigationState {
  import opened Wrappers

  datatype ReturnStatus = Success | Completed | Cancelled

  datatype ReturnValue = ReturnValue(status: ReturnStatus, data: Option<string>)

  /** The record spread `{ ...returnValues, [pageId]: value }`. */
  function WithReturnValue(values: map<string, ReturnValue>, pageId: string, value: ReturnValue): (r: map<string, ReturnValue>)
    ensures pageId in r && r[pageId] == value
    ensures r.Keys == values.Keys + {pageId}
    ensures forall p :: p in values && p != pageId ==> r[p] == values[p]
  {
    values[pageId := value]
  }

  /** Setting a page's value twice keeps only the second. */
  lemma LastWriteWins(values: map<string, ReturnValue>, pageId: string, first: ReturnValue, second: ReturnValue)
    ensures WithReturnValue(WithReturnValue(values, pageId, first), pageId, second)
      == WithReturnValue(values, pageId, second)
  {
  }

  /** Values for different pages do not interfere: the order of the two
      updates does not matter. */
  lemma DistinctPagesCommute(values: map<string, ReturnValue>, p: string, v: ReturnValue, q: string, w: ReturnValue)
    requires p != q
    ensures WithReturnValue(WithReturnValue(values, p, v), q, w)
      == WithReturnValue(WithReturnValue(values, q, w), p, v)
  {
  }

  /** The value a page sees after a run of updates: the last one addressed to
      it, or its earlier value when none is. */
  function LastFor(values: map<string, ReturnValue>, updates: seq<(string, ReturnValue)>, pageId: string): Option<ReturnValue>
  {
    if |updates| == 0 then (if pageId in values then Some(values[pageId]) else None)
    else if updates[|updates| - 1].0 == pageId then Some(updates[|updates| - 1].1)
    else LastFor(values, updates[..|updates| - 1], pageId)
  }

  function ApplyAll(values: map<string, ReturnValue>, updates: seq<(string, ReturnValue)>): map<string, ReturnValue>
  {
    if |updates| == 0 then values
    else WithReturnValue(ApplyAll(values, updates[..|updates| - 1]), updates[|updates| - 1].0, updates[|updates| - 1].1)
  }

  /** After any run of `setReturnValue` calls each page holds the last value
      set for it, and pages never addressed keep what they had. */
  lemma {:induction false} ApplyAllKeepsLast(values: map<string, ReturnValue>, updates: seq<(string, ReturnValue)>, pageId: string)
    ensures pageId in ApplyAll(values, updates) <==> LastFor(values, updates, pageId).Some?
    ensures pageId in ApplyAll(values, updates) ==> ApplyAll(values, updates)[pageId] == LastFor(values, updates, pageId).value
  {
    if |updates| > 0 {
      ApplyAllKeepsLast(values, updates[..|updates| - 1], pageId);
    }
  }

  /** The zustand store. */
  class NavigationStore {
    var returnValues: map<string, ReturnValue>

    /** The store starts with no return values. */
    constructor ()
      ensures returnValues == map[]
    {
      returnValues := map[];
    }

    /** `setReturnValue` replaces the map by an updated copy. */
    method SetReturnValue(pageId: string, value: ReturnValue)
      modifies this
      ensures returnValues == WithReturnValue(old(returnValues), pageId, value)
    {
      returnValues := returnValues[pageId := value];
    }
  }
}
