/** internal/ui/tabs.go: the tab bar's active index. */
module Tabs {

  /** Go's `%` on int: the remainder truncated toward zero, so its sign
      follows the dividend. */
  function GoRem(a: int, n: int): (r: int)
    requires n > 0
    ensures a >= 0 ==> 0 <= r < n
    ensures a < 0 ==> -n < r <= 0
    ensures a == GoQuot(a, n) * n + r
  {
    if a >= 0 then a % n else -((-a) % n)
  }

  /** Go's `/` on int: the quotient truncated toward zero. */
  function GoQuot(a: int, n: int): int
    requires n > 0
  {
    if a >= 0 then a / n else -((-a) / n)
  }

  /** The index `Next` moves to. */
  function NextIndex(active: int, count: int): (r: int)
    requires count > 0
    ensures 0 <= active < count ==> 0 <= r < count
    ensures 0 <= active < count ==> r == if active + 1 < count then active + 1 else 0
  {
    GoRem(active + 1, count)
  }

  /** The index `Prev` moves to. */
  function PrevIndex(active: int, count: int): (r: int)
    ensures 0 <= active < count ==> 0 <= r < count
    ensures 0 <= active < count ==> r == if active > 0 then active - 1 else count - 1
  {
    if active - 1 < 0 then count - 1 else active - 1
  }

  /** For a valid index, Prev undoes Next and Next undoes Prev. */
  lemma PrevUndoesNext(active: int, count: int)
    requires 0 <= active < count
    ensures PrevIndex(NextIndex(active, count), count) == active
    ensures NextIndex(PrevIndex(active, count), count) == active
  {
  }

  /** From a negative index, Next never wraps into the valid range: Go's
      remainder keeps the dividend's sign, so the result lies in
      (-count, 0], and it is 0 exactly when count divides active + 1. */
  lemma NextFromNegative(active: int, count: int)
    requires count > 0 && active < 0
    ensures -count < NextIndex(active, count) <= 0
    ensures NextIndex(active, count) == 0 <==> (-(active + 1)) % count == 0
  {
  }

  /** TabModel: the tab titles and the active tab. */
  class TabModel {
    var tabs: seq<string>
    var activeTab: int

    /** NewTabModel */
    constructor ()
      ensures tabs == ["Search", "History"] && activeTab == 0
    {
      tabs := ["Search", "History"];
      activeTab := 0;
    }

    predicate Valid()
      reads this
    {
      0 <= activeTab < |tabs|
    }

    /** Next: Go panics on a modulus of zero, so the tab list is non-empty. */
    method Next()
      requires |tabs| > 0
      modifies this`activeTab
      ensures activeTab == NextIndex(old(activeTab), |tabs|)
      ensures old(Valid()) ==> Valid()
    {
      activeTab := GoRem(activeTab + 1, |tabs|);
    }

    method Prev()
      modifies this`activeTab
      ensures activeTab == PrevIndex(old(activeTab), |tabs|)
      ensures old(Valid()) ==> Valid()
    {
      activeTab := activeTab - 1;
      if activeTab < 0 {
        activeTab := |tabs| - 1;
      }
    }
  }
}
