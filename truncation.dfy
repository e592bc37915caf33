/**
 * "Show the first k, then a +N badge": `items.slice(0, k)` followed by
 * `{items.length > k && <span>+{items.length - k}</span>}`. Tech-tag rows
 * on the project cards (k = 6 and k = 4) and the domain cards of the
 * skills page (k = 5) all render lists this way.
 */
module Truncation {
  import opened Wrappers

  /** `items.slice(0, k)`: the first `k` items, or all of them when there are fewer. */
  function Shown<T>(items: seq<T>, k: nat): (r: seq<T>)
    ensures |r| == if |items| <= k then |items| else k
    ensures r == items[..|r|]
  {
    if |items| <= k then items else items[..k]
  }

  /** The number on the overflow badge, or None when the badge is not rendered. */
  function OverflowBadge(len: nat, k: nat): (badge: Option<nat>)
    ensures badge.Some? <==> len > k
    ensures badge.Some? ==> badge.value == len - k >= 1
  {
    if len > k then Some(len - k) else None
  }

  /**
   * Every item is accounted for exactly once: the shown ones plus the ones the
   * badge counts are all of them, the badge appears exactly when the list is
   * longer than `k`, and a badge never reads +0.
   */
  lemma ShownPlusHidden<T>(items: seq<T>, k: nat)
    ensures |Shown(items, k)| + OverflowBadge(|items|, k).GetOr(0) == |items|
    ensures OverflowBadge(|items|, k).Some? <==> |items| > k
    ensures OverflowBadge(|items|, k).Some? ==> OverflowBadge(|items|, k).value >= 1
    ensures Shown(items, k) + items[|Shown(items, k)|..] == items
  {
  }
}
