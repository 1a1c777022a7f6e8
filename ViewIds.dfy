/**
 * View ids handed out by `generateViewId` (the same code appears in both
 * YoutubePlayerAdapter.java and AndroidYoutubeContext.java, each with its own
 * static counter). Ids stay below the range whose high byte is non-zero and
 * roll over to 1, never to 0.
 */
module ViewIds {

  /** The largest id handed out. */
  const MaxViewId: int := 0x00FF_FFFF

  /** The counter's value after one id has been handed out. */
  function NextId(id: int): (r: int)
    requires 1 <= id <= MaxViewId
    ensures 1 <= r <= MaxViewId
    ensures r == id % MaxViewId + 1
  {
    var n := id + 1;
    if n > MaxViewId then 1 else n
  }

  /** The counter's value after `k` ids have been handed out, starting from `id`. */
  function Iterate(id: int, k: nat): (r: int)
    requires 1 <= id <= MaxViewId
    ensures 1 <= r <= MaxViewId
  {
    if k == 0 then id else NextId(Iterate(id, k - 1))
  }

  lemma ModSucc(a: nat)
    ensures (a % MaxViewId + 1) % MaxViewId == (a + 1) % MaxViewId
  {
    var q := a / MaxViewId;
    var r := a % MaxViewId;
    assert a == q * MaxViewId + r;
    if r + 1 == MaxViewId {
      assert a + 1 == (q + 1) * MaxViewId;
    } else {
      assert a + 1 == q * MaxViewId + (r + 1);
    }
  }

  /** After `k` steps the counter has advanced by `k` modulo the id range. */
  lemma {:induction false} IterateClosedForm(id: int, k: nat)
    requires 1 <= id <= MaxViewId
    ensures Iterate(id, k) == (id - 1 + k) % MaxViewId + 1
  {
    if k > 0 {
      IterateClosedForm(id, k - 1);
      ModSucc(id - 1 + k - 1);
    }
  }

  /** Within one period of `MaxViewId` calls no id is handed out twice. */
  lemma IdsDistinctWithinPeriod(id: int, i: nat, j: nat)
    requires 1 <= id <= MaxViewId
    requires i < j < MaxViewId
    ensures Iterate(id, i) != Iterate(id, j)
  {
    IterateClosedForm(id, i);
    IterateClosedForm(id, j);
  }

  /** After exactly `MaxViewId` calls the counter is back where it started. */
  lemma PeriodReturns(id: int)
    requires 1 <= id <= MaxViewId
    ensures Iterate(id, MaxViewId) == id
  {
    IterateClosedForm(id, MaxViewId);
    assert (id - 1 + MaxViewId) % MaxViewId == id - 1;
  }

  /**
   * The static `sNextGeneratedId` counter, without the compare-and-set retry
   * loop: calls are sequential here.
   */
  class ViewIdGenerator {
    var next: int
    /** Every id handed out so far, oldest first. */
    ghost var issued: seq<int>

    ghost predicate Valid()
      reads this
    {
      && 1 <= next <= MaxViewId
      && next == Iterate(1, |issued|)
      && forall i :: 0 <= i < |issued| ==> issued[i] == Iterate(1, i)
    }

    /** The counter starts at 1. */
    constructor ()
      ensures Valid() && next == 1 && issued == []
    {
      next := 1;
      issued := [];
    }

    /** Hands out the current value and advances the counter. */
    method Generate() returns (id: int)
      requires Valid()
      modifies this
      ensures Valid()
      ensures id == old(next) && 1 <= id <= MaxViewId
      ensures next == NextId(old(next))
      ensures issued == old(issued) + [id]
    {
      id := next;
      var n := id + 1;
      if n > MaxViewId {
        n := 1;
      }
      next := n;
      issued := issued + [id];
    }
  }

  /** The ids a valid generator has handed out are distinct during its first period. */
  lemma IssuedDistinct(issued: seq<int>)
    requires forall i :: 0 <= i < |issued| ==> issued[i] == Iterate(1, i)
    requires |issued| <= MaxViewId
    ensures forall i, j :: 0 <= i < j < |issued| ==> issued[i] != issued[j]
  {
    forall i, j | 0 <= i < j < |issued|
      ensures issued[i] != issued[j]
    {
      IdsDistinctWithinPeriod(1, i, j);
    }
  }
}
