/** Optional callback props, as both the note card and the floating action
    button receive them from their parent. */
module Callbacks {

  /** `callback?.()`: the callback fires when the parent supplied it, and
      nothing happens otherwise. The result is what is added to the log of
      fired callbacks. */
  function Invoke<C(==)>(supplied: set<C>, c: C): (r: seq<C>)
    ensures r == [] || r == [c]
    ensures r == [c] <==> c in supplied
  {
    if c in supplied then [c] else []
  }
}
