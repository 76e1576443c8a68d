/** The full-screen presentation (`PresentationMode` in frontend/src/App.js):
    a page index over the demands of one section, moved by the previous and
    next buttons, which clamp instead of wrapping. */
module Presentation {

  import opened Domain

  /** Previous: `Math.max(0, currentIndex - 1)`. */
  function PrevIndex(i: int): (j: int)
    requires 0 <= i
    ensures 0 <= j <= i
    ensures j == i <==> i == 0
    ensures i > 0 ==> j == i - 1
  {
    if 0 < i - 1 then i - 1 else 0
  }

  /** Next: `Math.min(demands.length - 1, currentIndex + 1)`. */
  function NextIndex(i: int, n: nat): (j: int)
    requires 0 <= i < n
    ensures i <= j < n
    ensures j == i <==> i == n - 1
    ensures i < n - 1 ==> j == i + 1
  {
    if n - 1 < i + 1 then n - 1 else i + 1
  }

  /** The index after pressing next `k` times. */
  function NextTimes(i: int, n: nat, k: nat): (j: int)
    requires 0 <= i < n
    ensures 0 <= j < n
    decreases k
  {
    if k == 0 then i else NextTimes(NextIndex(i, n), n, k - 1)
  }

  /** The index after pressing previous `k` times. */
  function PrevTimes(i: int, k: nat): (j: int)
    requires 0 <= i
    ensures 0 <= j <= i
    decreases k
  {
    if k == 0 then i else PrevTimes(PrevIndex(i), k - 1)
  }

  /** Pressing next `k` times advances `k` pages, stopping at the last. */
  lemma {:induction false} NextTimesClamps(i: int, n: nat, k: nat)
    requires 0 <= i < n
    ensures NextTimes(i, n, k) == if i + k < n then i + k else n - 1
    decreases k
  {
    if k > 0 {
      NextTimesClamps(NextIndex(i, n), n, k - 1);
    }
  }

  /** Pressing previous `k` times goes back `k` pages, stopping at the first. */
  lemma {:induction false} PrevTimesClamps(i: int, k: nat)
    requires 0 <= i
    ensures PrevTimes(i, k) == if k <= i then i - k else 0
    decreases k
  {
    if k > 0 {
      PrevTimesClamps(PrevIndex(i), k - 1);
    }
  }

  /** From any page, `n` + 5 presses of next land on the last page and
      `n` + 5 presses of previous after that land on the first. */
  lemma {:induction false} OverPaging(i: int, n: nat)
    requires 0 <= i < n
    ensures NextTimes(i, n, n + 5) == n - 1
    ensures PrevTimes(NextTimes(i, n, n + 5), n + 5) == 0
  {
    NextTimesClamps(i, n, n + 5);
    PrevTimesClamps(n - 1, n + 5);
  }

  /** A click on one of the two paging buttons. */
  datatype Click = PrevClick | NextClick

  /** The page shown after a run of clicks, starting from page `i` of `n`:
      always a page of the list, so a non-empty section always has a card on
      screen; clicks in one direction only never move the other way. */
  function AfterClicks(i: int, n: nat, clicks: seq<Click>): (j: int)
    requires 0 <= i < n
    ensures 0 <= j < n
    ensures (forall k :: 0 <= k < |clicks| ==> clicks[k] == NextClick) ==> i <= j
    ensures (forall k :: 0 <= k < |clicks| ==> clicks[k] == PrevClick) ==> j <= i
    decreases |clicks|
  {
    if clicks == [] then i
    else
      var next := if clicks[0] == PrevClick then PrevIndex(i) else NextIndex(i, n);
      AfterClicks(next, n, clicks[1..])
  }

  class PresentationMode {
    /** The section's demands, as handed over when the view opens. */
    const demands: seq<Demand>
    var currentIndex: int

    /** The index is a page of a non-empty list, or 0 for an empty one. */
    ghost predicate Valid()
      reads this
    {
      if demands == [] then currentIndex == 0 else 0 <= currentIndex < |demands|
    }

    /** `useState(0)`: the view opens on the first page. */
    constructor (demands: seq<Demand>)
      ensures Valid()
      ensures this.demands == demands && currentIndex == 0
    {
      this.demands := demands;
      currentIndex := 0;
    }

    /** The previous button (rendered only for a non-empty list). */
    method Prev()
      requires Valid() && demands != []
      modifies this
      ensures Valid()
      ensures currentIndex == PrevIndex(old(currentIndex))
    {
      currentIndex := PrevIndex(currentIndex);
    }

    /** The next button (rendered only for a non-empty list). */
    method Next()
      requires Valid() && demands != []
      modifies this
      ensures Valid()
      ensures currentIndex == NextIndex(old(currentIndex), |demands|)
    {
      currentIndex := NextIndex(currentIndex, |demands|);
    }
  }
}
