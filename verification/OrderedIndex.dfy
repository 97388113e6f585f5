/**
  The ordered index `std::set<std::pair<Timestamp, Timer*>>` (TimerQueue.h:32-33): a sequence kept
  strictly increasing in the lexicographic order on (time, address).
 */
module OrderedIndex {

  /** Every cell is below the address UINTPTR_MAX, where no object can live. */
  datatype Address = Cell(n: nat) | UintptrMax {
    predicate Below(that: Address) {
      Cell? && (that.Cell? ==> n < that.n)
    }
  }

  const NULLPTR := Cell(0)

  datatype Entry = Entry(when: int, timer: Address) {
    predicate Below(that: Entry) {
      when < that.when || (when == that.when && timer.Below(that.timer))
    }
  }

  ghost predicate Sorted(s: seq<Entry>) {
    forall i, j :: 0 <= i < j < |s| ==> s[i].Below(s[j])
  }

  /** `lower_bound`: the first position whose entry is not below `e`. */
  function LowerBound(s: seq<Entry>, e: Entry): (i: nat)
    ensures i <= |s|
    ensures forall k :: 0 <= k < i ==> s[k].Below(e)
    ensures i < |s| ==> !s[i].Below(e)
  {
    if s == [] || !s[0].Below(e) then 0 else
      var i := LowerBound(s[1..], e);
      assert forall k :: 1 <= k < i + 1 ==> s[k] == s[1..][k - 1];
      i + 1
  }

  lemma LowerBoundSplits(s: seq<Entry>, e: Entry, k: nat)
    requires Sorted(s) && k < |s|
    ensures s[k].Below(e) <==> k < LowerBound(s, e)
  {}

  function Insert(s: seq<Entry>, e: Entry): seq<Entry> {
    var i := LowerBound(s, e);
    if i < |s| && s[i] == e then s else s[..i] + [e] + s[i..]
  }

  function Erase(s: seq<Entry>, e: Entry): seq<Entry> {
    var i := LowerBound(s, e);
    if i < |s| && s[i] == e then s[..i] + s[i + 1..] else s
  }

  /** Insertion keeps the order, adds exactly the new entry, and puts the earlier time first. */
  lemma InsertAdds(s: seq<Entry>, e: Entry)
    requires Sorted(s)
    ensures Sorted(Insert(s, e))
    ensures forall x :: x in Insert(s, e) <==> x in s || x == e
    ensures |Insert(s, e)| == |s| + (if e in s then 0 else 1)
    ensures Insert(s, e)[0].when == if s == [] || e.when < s[0].when then e.when else s[0].when
  {
    hide LowerBound;
  }

  /** Erasure keeps the order and removes exactly the given entry. */
  lemma EraseRemoves(s: seq<Entry>, e: Entry)
    requires Sorted(s)
    ensures Sorted(Erase(s, e))
    ensures forall x :: x in Erase(s, e) <==> x in s && x != e
    ensures |Erase(s, e)| == |s| - (if e in s then 1 else 0)
    ensures Erase(s, e) != [] ==> s[0].when <= Erase(s, e)[0].when
  {}

  /** The position where `getExpired` splits the index. */
  function ExpiredEnd(s: seq<Entry>, now: int): (end: nat)
    ensures end <= |s|
  {
    LowerBound(s, Entry(now, UintptrMax))
  }

  /**
    The batch taken by `getExpired` is exact for every index and every clock value: all and only the
    entries with a time at most `now` precede the split if and only if the sentry itself, an entry
    expiring now at the address UINTPTR_MAX, is not in the index.
   */
  lemma ExpiredIsExact(s: seq<Entry>, now: int)
    requires Sorted(s)
    ensures Entry(now, UintptrMax) !in s <==>
            forall k :: 0 <= k < |s| ==> (k < ExpiredEnd(s, now) <==> s[k].when <= now)
  {}

  /** Both halves of the split keep the order, and the batch comes out by non-decreasing time. */
  lemma SplitKeepsOrder(s: seq<Entry>, i: nat)
    requires Sorted(s) && i <= |s|
    ensures Sorted(s[..i]) && Sorted(s[i..])
    ensures forall j, k :: 0 <= j < k < i ==> s[j].when <= s[k].when
    ensures forall x :: x in s <==> x in s[..i] || x in s[i..]
    ensures forall x :: !(x in s[..i] && x in s[i..])
  {}
}
