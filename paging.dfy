/** The "Load More" / "Load Less" counters shared by the journey timeline
    (`FRONTEND/app/src/pages/Journey.tsx`) and the success stories
    (`FRONTEND/app/src/pages/Motivation.tsx`). */
module Paging {
  function Min(a: int, b: int): int {
    if a < b then a else b
  }

  function Max(a: int, b: int): int {
    if a < b then b else a
  }

  /** `Math.min(visible + 2, total)`: two more entries, capped at the total. */
  function LoadMore(visible: nat, total: nat): (r: nat)
    ensures r <= total && r <= visible + 2
    ensures r == visible + 2 || r == total
  {
    Min(visible + 2, total)
  }

  /** `Math.max(visible - 2, least)`: two fewer entries, but never fewer than `least`. */
  function LoadLess(visible: nat, least: nat): (r: nat)
    ensures r >= least && r + 2 >= visible
    ensures r + 2 == visible || r == least
  {
    Max(visible - 2, least)
  }

  /** The visible count after `clicks` presses of Load More. */
  function LoadMoreTimes(visible: nat, total: nat, clicks: nat): nat {
    if clicks == 0 then visible else LoadMore(LoadMoreTimes(visible, total, clicks - 1), total)
  }

  /** Pressing Load More `clicks` times from a count within range shows
      `min(visible + 2 * clicks, total)` entries: every press adds two until the list
      is exhausted. */
  lemma {:induction false} LoadMoreTimesValue(visible: nat, total: nat, clicks: nat)
    requires visible <= total
    ensures LoadMoreTimes(visible, total, clicks) == Min(visible + 2 * clicks, total)
  {
    if clicks > 0 {
      LoadMoreTimesValue(visible, total, clicks - 1);
    }
  }

  /** Both buttons keep the count within `[least, total]`. */
  lemma StaysInRange(visible: nat, least: nat, total: nat)
    requires least <= visible <= total
    ensures least <= LoadMore(visible, total) <= total
    ensures least <= LoadLess(visible, least) <= total
  {
  }

  /** Load Less undoes a Load More that did not hit the cap. */
  lemma LessUndoesMore(visible: nat, least: nat, total: nat)
    requires least <= visible && visible + 2 <= total
    ensures LoadLess(LoadMore(visible, total), least) == visible
  {
  }
}
