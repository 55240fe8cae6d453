/** The window of most recent samples that every delay filter answers for (filter/filter.h). */
module Window {

  /** The slot after this one on a ring of len slots. */
  function Next(index: nat, len: nat): (next: nat)
    requires index < len
    ensures next < len
  {
    if index + 1 == len then 0 else index + 1
  }

  datatype Event = Sample(value: int) | Reset

  /** The window after one more sample, for a filter of the given length. */
  function Slide(w: seq<int>, value: int, len: nat): (w': seq<int>)
    requires 0 < len && |w| <= len
    ensures 0 < |w'| <= len
  {
    if |w| < len then w + [value] else w[1..] + [value]
  }

  /** All samples since the last reset, oldest first. */
  function Since(events: seq<Event>): seq<int> {
    if events == [] || events[|events| - 1].Reset? then []
    else Since(events[..|events| - 1]) + [events[|events| - 1].value]
  }

  /** The newest min(|h|, len) elements of h. */
  function Recent(h: seq<int>, len: nat): seq<int> {
    if |h| <= len then h else h[|h| - len..]
  }

  lemma SlideRecent(h: seq<int>, value: int, len: nat)
    requires 0 < len
    ensures Slide(Recent(h, len), value, len) == Recent(h + [value], len)
  {
  }

  ghost predicate Within(w: seq<int>, lo: int, hi: int) {
    forall i :: 0 <= i < |w| ==> lo <= w[i] <= hi
  }
}
