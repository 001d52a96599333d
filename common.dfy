/** Types shared by the dispatcher and the taxi models. */
module Common {

  /** Python's `None` or a value. */
  datatype Option<+T> = None | Some(value: T)

  /** A grid location `(x, y)` of the road network. */
  type Coord = (int, int)

  /** A travel time or distance reported by the world: never negative. */
  type Duration = r: real | r >= 0.0

  /** A taxi's income: it starts at 0 and is never lowered. */
  type NonNegReal = r: real | r >= 0.0

  /** Identity of a taxi object (Python compares taxi objects by identity). */
  type TaxiId = nat

  /** Identity of a world object (the `parent` a dispatcher lives in). */
  type WorldRef = nat

  /** Python's `lst[i]`: a negative `i` counts from the end, anything else out of range raises IndexError. */
  function PyIndex<T>(s: seq<T>, i: int): (r: Option<T>)
    ensures r.Some? <==> -|s| <= i < |s|
    ensures 0 <= i < |s| ==> r == Some(s[i])
    ensures -|s| <= i < 0 ==> r == Some(s[|s| + i])
  {
    if 0 <= i < |s| then Some(s[i])
    else if -|s| <= i < 0 then Some(s[|s| + i])
    else None
  }
}
