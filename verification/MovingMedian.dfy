/** Moving median filter (filter/median/mmedian.c): a ring of samples and the ring's indices kept sorted by value. */
module MovingMedian {
  import opened Tmv
  import opened Sorting
  import opened Window

  /** What the filter stores: the live part of `order` (so cnt == |order|) and all `len` == |samples| slots. */
  datatype State = State(index: nat, order: seq<int>, samples: seq<int>)

  ghost predicate Shape(st: State) {
    && 0 < |st.samples| && st.index < |st.samples| && |st.order| <= |st.samples|
    && (forall i :: 0 <= i < |st.order| ==> 0 <= st.order[i] < |st.samples|)
  }

  // ---- What one sample does to the state --------------------------------------------------

  function IndexOf(s: seq<int>, x: int): (k: nat)
    ensures k <= |s|
    ensures x in s ==> k < |s| && s[k] == x
    ensures x !in s[..k]
  {
    if s == [] || s[0] == x then 0
    else
      assert s == [s[0]] + s[1..];
      var k := IndexOf(s[1..], x);
      assert s[..k + 1] == [s[0]] + s[1..][..k];
      k + 1
  }

  function Without(order: seq<int>, k: nat): seq<int>
    requires k < |order|
  {
    order[..k] + order[k + 1..]
  }

  ghost predicate InRange(order: seq<int>, samples: seq<int>) {
    forall i :: 0 <= i < |order| ==> 0 <= order[i] < |samples|
  }

  /** Where a value goes: behind the last entry that is not larger, searched from the end. */
  ghost function Place(order: seq<int>, samples: seq<int>, value: int): (p: nat)
    requires InRange(order, samples)
    ensures IsPlace(order, samples, value, p)
  {
    if order == [] || samples[order[|order| - 1]] <= value then |order|
    else Place(order[..|order| - 1], samples, value)
  }

  ghost predicate IsPlace(order: seq<int>, samples: seq<int>, value: int, p: nat)
    requires InRange(order, samples)
  {
    && p <= |order|
    && (p > 0 ==> samples[order[p - 1]] <= value)
    && forall i :: p <= i < |order| ==> samples[order[i]] > value
  }

  lemma PlaceIsUnique(order: seq<int>, samples: seq<int>, value: int, p: nat)
    requires InRange(order, samples) && IsPlace(order, samples, value, p)
    ensures Place(order, samples, value) == p
  {
  }

  ghost function Placed(order: seq<int>, samples: seq<int>, slot: nat): seq<int>
    requires InRange(order, samples) && slot < |samples|
  {
    var p := Place(order, samples, samples[slot]);
    order[..p] + [slot] + order[p..]
  }

  /** The entries of `kept`, those from i on moved up by one; entry i is free. */
  ghost predicate Shifted(order: seq<int>, kept: seq<int>, i: nat) {
    i <= |kept| && |order| == |kept| + 1 && order[..i] == kept[..i] && order[i + 1..] == kept[i..]
  }

  lemma ShiftedBy(order: seq<int>, kept: seq<int>, i: nat)
    requires i <= |kept| && |order| == |kept| + 1
    requires forall m :: 0 <= m < i ==> order[m] == kept[m]
    requires forall m :: i < m < |order| ==> order[m] == kept[m - 1]
    ensures Shifted(order, kept, i)
  {
    assert order[..i] == kept[..i];
    assert order[i + 1..] == kept[i..];
  }

  ghost function Kept(st: State): (kept: seq<int>)
    requires Shape(st)
    ensures |kept| < |st.samples| && InRange(kept, st.samples)
  {
    if |st.order| < |st.samples| then st.order
    else if st.index in st.order then Without(st.order, IndexOf(st.order, st.index))
    else st.order[..|st.order| - 1]
  }

  ghost function Step(st: State, value: int): (st': State)
    requires Shape(st)
    ensures Shape(st')
  {
    var samples := st.samples[st.index := value];
    State(Next(st.index, |samples|), Placed(Kept(st), samples, st.index), samples)
  }

  function Middle(sorted: seq<int>): int
    requires sorted != []
  {
    var n := |sorted|;
    if n % 2 == 1 then sorted[n / 2] else Div(Add(sorted[n / 2 - 1], sorted[n / 2]), 2)
  }

  ghost function Values(st: State): (v: seq<int>)
    requires Shape(st)
    ensures |v| == |st.order|
  {
    seq(|st.order|, i requires 0 <= i < |st.order| => st.samples[st.order[i]])
  }

  /** The median by definition: sort the window, take the middle or the mean of the two middles. */
  function Median(w: seq<int>): int
    requires w != []
  {
    Middle(Sort(w))
  }

  // ---- The invariant -----------------------------------------------------------------------

  /** The slot of the oldest live sample. */
  function Oldest(st: State): int {
    if |st.order| < |st.samples| then 0 else st.index
  }

  /** The slot holding the j-th oldest live sample, and back. */
  function SlotOf(st: State, j: int): int {
    if Oldest(st) + j < |st.samples| then Oldest(st) + j else Oldest(st) + j - |st.samples|
  }

  function Age(st: State, slot: int): int {
    if slot >= Oldest(st) then slot - Oldest(st) else slot - Oldest(st) + |st.samples|
  }

  /** Smaller value first; among equal values the older sample first. */
  ghost predicate Before(st: State, a: int, b: int)
    requires 0 <= a < |st.samples| && 0 <= b < |st.samples|
  {
    st.samples[a] < st.samples[b] || (st.samples[a] == st.samples[b] && Age(st, a) < Age(st, b))
  }

  ghost predicate Ordered(st: State)
    requires Shape(st)
  {
    forall i, j :: 0 <= i < j < |st.order| ==> Before(st, st.order[i], st.order[j])
  }

  /** The entries of `order` are exactly the live slots, each once. */
  ghost predicate Permutation(order: seq<int>) {
    && (forall i :: 0 <= i < |order| ==> 0 <= order[i] < |order|)
    && (forall i, j :: 0 <= i < j < |order| ==> order[i] != order[j])
    && (forall s :: 0 <= s < |order| ==> s in order)
  }

  ghost predicate HoldsWindow(st: State, w: seq<int>)
    requires Shape(st)
  {
    && |w| == |st.order|
    && (|st.order| < |st.samples| ==> st.index == |st.order|)
    && (forall j :: 0 <= j < |w| ==> w[j] == st.samples[SlotOf(st, j)])
  }

  ghost predicate Inv(st: State, w: seq<int>) {
    && Shape(st)
    && HoldsWindow(st, w)
    && Permutation(st.order)
    && Ordered(st)
    && multiset(Values(st)) == multiset(w)
  }

  // ---- One sample keeps the invariant ------------------------------------------------------

  /** Where the surviving entries come from. */
  ghost function Source(st: State, i: int): int
    requires Shape(st)
  {
    if |st.order| < |st.samples| || i < IndexOf(st.order, st.index) then i else i + 1
  }

  /** The replaced slot is found, and dropping it leaves the other entries in place. */
  lemma KeptFacts(st: State)
    requires Shape(st) && Permutation(st.order)
    requires |st.order| < |st.samples| ==> st.index == |st.order|
    ensures |Kept(st)| == if |st.order| < |st.samples| then |st.order| else |st.order| - 1
    ensures forall i :: 0 <= i < |Kept(st)| ==> Source(st, i) < |st.order| && Kept(st)[i] == st.order[Source(st, i)]
    ensures forall i :: 0 <= i < |Kept(st)| ==> Kept(st)[i] != st.index
    ensures |st.order| == |st.samples| ==>
              IndexOf(st.order, st.index) < |st.order| && st.order[IndexOf(st.order, st.index)] == st.index
  {
    if |st.order| == |st.samples| {
      assert st.index in st.order;
    }
  }

  lemma KeptCovers(st: State)
    requires Shape(st) && Permutation(st.order)
    requires |st.order| < |st.samples| ==> st.index == |st.order|
    ensures forall s :: 0 <= s <= |Kept(st)| && s != st.index ==> s in Kept(st)
  {
    KeptFacts(st);
    if |st.order| == |st.samples| {
      var order, k := st.order, IndexOf(st.order, st.index);
      forall s | 0 <= s < |order| && s != st.index
        ensures s in Kept(st)
      {
        assert s in order;
        assert order == order[..k] + [order[k]] + order[k + 1..];
      }
    }
  }

  lemma StepPermutation(kept: seq<int>, order: seq<int>, p: nat, slot: nat)
    requires p <= |kept| && order == kept[..p] + [slot] + kept[p..] && slot <= |kept|
    requires forall i, j :: 0 <= i < j < |kept| ==> kept[i] != kept[j]
    requires forall i :: 0 <= i < |kept| ==> 0 <= kept[i] < |kept| + 1 && kept[i] != slot
    requires forall s :: 0 <= s <= |kept| && s != slot ==> s in kept
    ensures Permutation(order)
  {
    forall s | 0 <= s < |order|
      ensures s in order
    {
      StillIn(kept, order, p, slot, s);
    }
    forall i, j | 0 <= i < j < |order|
      ensures order[i] != order[j]
    {
    }
  }

  lemma StillIn(kept: seq<int>, order: seq<int>, p: nat, slot: nat, s: int)
    requires p <= |kept| && order == kept[..p] + [slot] + kept[p..] && (s == slot || s in kept)
    ensures s in order
  {
    if s == slot {
      assert order[p] == s;
    } else {
      assert kept == kept[..p] + kept[p..];
    }
  }

  /** Before and after a sample that overwrites the slot st.index and nothing else. */
  ghost predicate Advanced(st: State, st': State) {
    && Shape(st) && Shape(st') && |st'.samples| == |st.samples|
    && (|st.order| < |st.samples| ==> st.index == |st.order|)
    && |st'.order| == (if |st.order| < |st.samples| then |st.order| + 1 else |st.order|)
    && st'.index == Next(st.index, |st.samples|)
    && (forall s :: 0 <= s < |st.samples| && s != st.index ==> st'.samples[s] == st.samples[s])
  }

  lemma AdvancedHoldsWindow(st: State, st': State, w: seq<int>)
    requires Advanced(st, st') && HoldsWindow(st, w)
    ensures HoldsWindow(st', Slide(w, st'.samples[st.index], |st.samples|))
  {
    var len := |st.samples|;
    var w' := Slide(w, st'.samples[st.index], len);
    forall j | 0 <= j < |w'|
      ensures w'[j] == st'.samples[SlotOf(st', j)]
    {
      if j == |w'| - 1 {
        assert SlotOf(st', j) == st.index;
      } else if |w| == len {
        assert w'[j] == w[j + 1];
        assert SlotOf(st', j) == SlotOf(st, j + 1) != st.index;
      }
    }
  }

  /** All surviving samples age alike, and the new one is the youngest. */
  lemma Aging(st: State, st': State, slot: int)
    requires Advanced(st, st') && 0 <= slot < |st.order| && slot != st.index
    ensures Age(st', slot) == Age(st, slot) - if |st.order| < |st.samples| then 0 else 1
    ensures Age(st', slot) < Age(st', st.index)
  {
  }

  lemma BeforeKept(st: State, st': State, a: int, b: int)
    requires Advanced(st, st') && 0 <= a < |st.order| && 0 <= b < |st.order|
    requires a != st.index && b != st.index && Before(st, a, b)
    ensures Before(st', a, b)
  {
    Aging(st, st', a);
    Aging(st, st', b);
  }

  /** The surviving entries stay in order, whatever their ages have become. */
  lemma KeptOrdered(st: State, st': State, kept: seq<int>)
    requires Advanced(st, st') && Permutation(st.order) && Ordered(st) && kept == Kept(st)
    ensures forall i :: 0 <= i < |kept| ==> 0 <= kept[i] < |st.order| && kept[i] != st.index
    ensures forall i, j :: 0 <= i < j < |kept| ==> Before(st', kept[i], kept[j])
  {
    KeptFacts(st);
    forall i, j | 0 <= i < j < |kept|
      ensures Before(st', kept[i], kept[j])
    {
      BeforeKept(st, st', st.order[Source(st, i)], st.order[Source(st, j)]);
    }
  }

  lemma PlacedOrdered(st: State, st': State, kept: seq<int>, p: nat)
    requires Advanced(st, st')
    requires forall i :: 0 <= i < |kept| ==> 0 <= kept[i] < |st.order| && kept[i] != st.index
    requires forall i, j :: 0 <= i < j < |kept| ==> Before(st', kept[i], kept[j])
    requires InRange(kept, st'.samples) && IsPlace(kept, st'.samples, st'.samples[st.index], p)
    requires st'.order == kept[..p] + [st.index] + kept[p..]
    ensures Ordered(st')
  {
    var order := st'.order;
    forall i, j | 0 <= i < j < |order|
      ensures Before(st', order[i], order[j])
    {
      if j == p {
        Aging(st, st', kept[i]);
        assert i < p - 1 ==> Before(st', kept[i], kept[p - 1]);
      } else if i != p {
        var i', j' := if i < p then i else i - 1, if j < p then j else j - 1;
        assert order[i] == kept[i'] && order[j] == kept[j'];
      }
    }
  }

  /** Taking out one entry takes its value out of the values read through the order. */
  lemma KeptValues(st: State, w: seq<int>, kv: seq<int>)
    requires Shape(st) && HoldsWindow(st, w) && Permutation(st.order)
    requires multiset(Values(st)) == multiset(w)
    requires |kv| == |Kept(st)| && forall i :: 0 <= i < |kv| ==> kv[i] == st.samples[Kept(st)[i]]
    ensures multiset(kv) == multiset(if |w| < |st.samples| then w else w[1..])
  {
    KeptFacts(st);
    var v := Values(st);
    if |w| == |st.samples| {
      var k := IndexOf(st.order, st.index);
      WithoutValue(v, k, kv);
      assert v[k] == w[0] by { assert SlotOf(st, 0) == st.index; }
      WithoutFirst(w);
    } else {
      assert kv == v;
    }
  }

  lemma WithoutFirst(w: seq<int>)
    requires w != []
    ensures multiset(w[1..]) == multiset(w) - multiset{w[0]}
  {
    assert w == [w[0]] + w[1..];
  }

  lemma WithoutValue(v: seq<int>, k: nat, kv: seq<int>)
    requires k < |v| && |kv| == |v| - 1
    requires forall i :: 0 <= i < k ==> kv[i] == v[i]
    requires forall i :: k <= i < |kv| ==> kv[i] == v[i + 1]
    ensures multiset(kv) == multiset(v) - multiset{v[k]}
  {
    assert kv == v[..k] + v[k + 1..];
    assert v == v[..k] + [v[k]] + v[k + 1..];
  }

  lemma PlacedValues(st': State, kept: seq<int>, p: nat, slot: nat, kv: seq<int>)
    requires Shape(st') && InRange(kept, st'.samples) && p <= |kept| && slot < |st'.samples|
    requires st'.order == kept[..p] + [slot] + kept[p..]
    requires |kv| == |kept| && forall i :: 0 <= i < |kv| ==> kv[i] == st'.samples[kept[i]]
    ensures multiset(Values(st')) == multiset(kv) + multiset{st'.samples[slot]}
  {
    assert Values(st') == kv[..p] + [st'.samples[slot]] + kv[p..];
    assert kv == kv[..p] + kv[p..];
  }

  /** One sample slides the window and keeps the order a sorted permutation of the live slots. */
  lemma StepKeepsInv(st: State, w: seq<int>, value: int)
    requires Inv(st, w)
    ensures Inv(Step(st, value), Slide(w, value, |st.samples|))
  {
    StepLength(st);
    AdvancedHoldsWindow(st, Step(st, value), w);
    StepKeepsPermutation(st, value);
    StepKeepsOrder(st, value);
    StepKeepsValues(st, w, value);
  }

  lemma StepLength(st: State)
    requires Shape(st) && Permutation(st.order)
    requires |st.order| < |st.samples| ==> st.index == |st.order|
    ensures forall value :: Advanced(st, Step(st, value))
  {
    KeptFacts(st);
  }

  lemma StepKeepsPermutation(st: State, value: int)
    requires Shape(st) && Permutation(st.order)
    requires |st.order| < |st.samples| ==> st.index == |st.order|
    ensures Permutation(Step(st, value).order)
  {
    KeptFacts(st);
    KeptCovers(st);
    var st', kept := Step(st, value), Kept(st);
    StepPermutation(kept, st'.order, Place(kept, st'.samples, value), st.index);
  }

  lemma StepKeepsOrder(st: State, value: int)
    requires Shape(st) && Permutation(st.order) && Ordered(st)
    requires |st.order| < |st.samples| ==> st.index == |st.order|
    ensures Ordered(Step(st, value))
  {
    StepLength(st);
    var st', kept := Step(st, value), Kept(st);
    KeptOrdered(st, st', kept);
    PlacedOrdered(st, st', kept, Place(kept, st'.samples, value));
  }

  lemma StepKeepsValues(st: State, w: seq<int>, value: int)
    requires Shape(st) && HoldsWindow(st, w) && Permutation(st.order)
    requires multiset(Values(st)) == multiset(w)
    ensures multiset(Values(Step(st, value))) == multiset(Slide(w, value, |st.samples|))
  {
    var st', kept := Step(st, value), Kept(st);
    var kv := seq(|kept|, i requires 0 <= i < |kept| => st'.samples[kept[i]]);
    KeptUnwritten(st, value, kv);
    KeptValues(st, w, kv);
    PlacedValues(st', kept, Place(kept, st'.samples, value), st.index, kv);
  }

  lemma KeptUnwritten(st: State, value: int, kv: seq<int>)
    requires Shape(st) && Permutation(st.order)
    requires |st.order| < |st.samples| ==> st.index == |st.order|
    requires |kv| == |Kept(st)| && forall i :: 0 <= i < |kv| ==> kv[i] == st.samples[st.index := value][Kept(st)[i]]
    ensures forall i :: 0 <= i < |kv| ==> kv[i] == st.samples[Kept(st)[i]]
  {
    KeptFacts(st);
  }

  /** Reading the middle through `order` gives the median of the window. */
  lemma MiddleIsMedian(st: State, w: seq<int>)
    requires Inv(st, w) && w != []
    ensures Middle(Values(st)) == Median(w)
  {
    SortedIsUnique(Values(st), Sort(w));
  }

  // ---- Whole runs --------------------------------------------------------------------------

  function Created(len: nat): State
  {
    State(0, [], seq(len, _ => 0))
  }

  ghost function Run(len: nat, events: seq<Event>): (st: State)
    requires 0 < len
    ensures Shape(st) && |st.samples| == len
  {
    if events == [] then Created(len)
    else
      var st := Run(len, events[..|events| - 1]);
      match events[|events| - 1]
      case Sample(value) => Step(st, value)
      case Reset => State(0, [], st.samples)
  }

  lemma {:induction false} RunKeepsInv(len: nat, events: seq<Event>)
    requires 0 < len
    ensures Inv(Run(len, events), Recent(Since(events), len))
  {
    if events == [] {
      assert Values(Created(len)) == [];
    } else {
      var before := events[..|events| - 1];
      RunKeepsInv(len, before);
      match events[|events| - 1]
      case Sample(value) =>
        StepKeepsInv(Run(len, before), Recent(Since(before), len), value);
        SlideRecent(Since(before), value, len);
      case Reset =>
        assert Values(Run(len, events)) == [];
    }
  }

  /** After any run that ends in a sample, the filter answers the median of the last min(n, len) samples. */
  lemma RunAnswersMedian(len: nat, events: seq<Event>)
    requires 0 < len && events != [] && events[|events| - 1].Sample?
    ensures Recent(Since(events), len) != []
    ensures Values(Run(len, events)) != []
    ensures Middle(Values(Run(len, events))) == Median(Recent(Since(events), len))
  {
    RunKeepsInv(len, events);
    MiddleIsMedian(Run(len, events), Recent(Since(events), len));
  }

  /** All the filter method needs to know about one more sample. */
  lemma RunStep(len: nat, events: seq<Event>, value: int)
    requires 0 < len
    ensures var st := Run(len, events); |st.order| == len ==> st.index in st.order
    ensures var events' := events + [Sample(value)];
            && Run(len, events') == Step(Run(len, events), value)
            && Recent(Since(events'), len) == Slide(Recent(Since(events), len), value, len)
            && Middle(Values(Run(len, events'))) == Median(Recent(Since(events'), len))
  {
    var events' := events + [Sample(value)];
    assert events'[..|events|] == events;
    RunKeepsInv(len, events);
    SlideRecent(Since(events), value, len);
    RunAnswersMedian(len, events');
  }

  // ---- Robustness of the answer ------------------------------------------------------------

  lemma BelowIsCounted(s: seq<int>, k: nat, lo: int, hi: int)
    requires Sorted(s) && k < |s| && s[k] < lo
    ensures Outside(s, lo, hi) >= k + 1
  {
    var a, b := s[..k + 1], s[k + 1..];
    assert s == a + b;
    OutsideAppend(a, b, lo, hi);
    AllOutside(a, lo, hi);
  }

  lemma AboveIsCounted(s: seq<int>, k: nat, lo: int, hi: int)
    requires Sorted(s) && k < |s| && s[k] > hi
    ensures Outside(s, lo, hi) >= |s| - k
  {
    var a, b := s[..k], s[k..];
    assert s == a + b;
    OutsideAppend(a, b, lo, hi);
    AllOutside(b, lo, hi);
  }

  /** In a sorted sequence with fewer than half of its elements outside, the middle ones are inside. */
  lemma MiddleInside(s: seq<int>, k: nat, lo: int, hi: int)
    requires Sorted(s) && k < |s| && 2 * Outside(s, lo, hi) < |s|
    requires |s| - 1 <= 2 * k + 1 && 2 * k <= |s|
    ensures lo <= s[k] <= hi
  {
    if s[k] < lo {
      BelowIsCounted(s, k, lo, hi);
    } else if s[k] > hi {
      AboveIsCounted(s, k, lo, hi);
    }
  }

  lemma SortedBreakdown(s: seq<int>, lo: int, hi: int)
    requires Sorted(s) && 2 * Outside(s, lo, hi) < |s|
    requires |s| % 2 == 0 ==> Fits(2 * lo) && Fits(2 * hi)
    ensures lo <= Middle(s) <= hi
  {
    var n := |s|;
    MiddleInside(s, n / 2, lo, hi);
    if n % 2 == 0 {
      MiddleInside(s, n / 2 - 1, lo, hi);
      DivBetween(s[n / 2 - 1] + s[n / 2], 2, lo, hi);
    }
  }

  /** Breakdown point: fewer than half of the samples outside [lo, hi] cannot push the median outside. */
  lemma MedianBreakdown(w: seq<int>, lo: int, hi: int)
    requires 2 * Outside(w, lo, hi) < |w|
    requires |w| % 2 == 0 ==> Fits(2 * lo) && Fits(2 * hi)
    ensures lo <= Median(w) <= hi
  {
    OutsideSort(w, lo, hi);
    SortedBreakdown(Sort(w), lo, hi);
  }

  /** The range of a 64-bit value that has been halved. */
  const RAW_MIN := -0x4000_0000_0000_0000
  const RAW_MAX := 0x3fff_ffff_ffff_ffff

  predicate RawRange(n: int) {
    RAW_MIN <= n <= RAW_MAX
  }

  function Copies(n: nat, x: int): (s: seq<int>)
    ensures |s| == n
  {
    seq(n, _ => x)
  }

  /** The breakdown bound is tight at every length: from half of the samples on, any number k of them outside can pull
      the median out of the range. */
  lemma BreakdownIsTight(n: nat, k: nat, lo: int, hi: int) returns (w: seq<int>)
    requires 0 < n <= 2 * k <= 2 * n && lo <= hi && RawRange(lo) && RawRange(2 * hi - lo + 2)
    ensures |w| == n && Outside(w, lo, hi) == k && Median(w) > hi
  {
    var x := 2 * hi - lo + 2;
    var inside, outside := Copies(n - k, lo), Copies(k, x);
    w := inside + outside;
    OutsideAppend(inside, outside, lo, hi);
    NoneOutside(inside, lo, hi);
    AllOutside(outside, lo, hi);
    TwoLevelsSorted(inside, outside, lo, x);
    TwoLevelMiddle(n, k, lo, x);
  }

  lemma TwoLevelsSorted(inside: seq<int>, outside: seq<int>, low: int, high: int)
    requires low <= high && inside == Copies(|inside|, low) && outside == Copies(|outside|, high)
    ensures Sort(inside + outside) == inside + outside
  {
    SortedIsUnique(inside + outside, Sort(inside + outside));
  }

  lemma TwoLevelMiddle(n: nat, k: nat, low: int, high: int)
    requires 0 < n <= 2 * k <= 2 * n && low <= high && RawRange(low) && RawRange(high)
    ensures Middle(Copies(n - k, low) + Copies(k, high)) >= Div(low + high, 2)
  {
    var w := Copies(n - k, low) + Copies(k, high);
    assert w[n / 2] == high;
    if n % 2 == 0 {
      DivBetween(low + high, 2, low, high);
      assert w[n / 2 - 1] == low || w[n / 2 - 1] == high;
    } else {
      DivBetween(low + high, 2, low, high);
    }
  }

  // ---- The mean of two middles ---------------------------------------------------------------

  /** The middle of a sorted sequence, and the median, without wrap-around. */
  function ExactMiddle(sorted: seq<int>): int
    requires sorted != []
  {
    var n := |sorted|;
    if n % 2 == 1 then sorted[n / 2] else Div(sorted[n / 2 - 1] + sorted[n / 2], 2)
  }

  function ExactMedian(w: seq<int>): int
    requires w != []
  {
    ExactMiddle(Sort(w))
  }

  /** The two values in the middle of an even sequence. */
  function MiddleSum(sorted: seq<int>): int
    requires sorted != [] && |sorted| % 2 == 0
  {
    sorted[|sorted| / 2 - 1] + sorted[|sorted| / 2]
  }

  lemma MiddleExact(s: seq<int>)
    requires s != [] && |s| % 2 == 0
    ensures Middle(s) == ExactMiddle(s) <==> Fits(MiddleSum(s))
  {
    WrappedQuotient(MiddleSum(s), 2);
  }

  /** An even window answers the truncated mean of the two middles exactly when their sum fits. */
  lemma EvenMiddleExact(w: seq<int>)
    requires w != [] && |w| % 2 == 0
    ensures Median(w) == ExactMedian(w) <==> Fits(MiddleSum(Sort(w)))
  {
    MiddleExact(Sort(w));
  }

  lemma SortedWithin(w: seq<int>, lo: int, hi: int)
    requires Within(w, lo, hi)
    ensures Within(Sort(w), lo, hi)
  {
    var s := Sort(w);
    forall i | 0 <= i < |s|
      ensures lo <= s[i] <= hi
    {
      assert s[i] in multiset(w);
    }
  }

  lemma RawMiddleExact(s: seq<int>)
    requires s != [] && Within(s, RAW_MIN, RAW_MAX)
    ensures Middle(s) == ExactMiddle(s)
  {
    if |s| % 2 == 0 {
      MiddleExact(s);
    }
  }

  lemma ExactMiddleBetween(s: seq<int>, lo: int, hi: int)
    requires s != [] && Within(s, lo, hi)
    ensures lo <= ExactMiddle(s) <= hi
  {
    if |s| % 2 == 0 {
      DivBetween(MiddleSum(s), 2, lo, hi);
    }
  }

  /** Over halved values the answer is always the exact median. */
  lemma MedianExact(w: seq<int>)
    requires w != [] && Within(w, RAW_MIN, RAW_MAX)
    ensures Median(w) == ExactMedian(w)
  {
    SortedWithin(w, RAW_MIN, RAW_MAX);
    RawMiddleExact(Sort(w));
  }

  /** The median stays between the bounds of such samples. */
  lemma MedianBetween(w: seq<int>, lo: int, hi: int)
    requires w != [] && Within(w, lo, hi) && Within(w, RAW_MIN, RAW_MAX)
    ensures lo <= Median(w) <= hi
  {
    MedianExact(w);
    SortedWithin(w, lo, hi);
    ExactMiddleBetween(Sort(w), lo, hi);
  }

  // ---- The filter itself -------------------------------------------------------------------

  class MovingMedian {
    var cnt: nat
    const len: nat
    var index: nat
    const order: array<int>
    const samples: array<int>
    /** All calls so far, and the samples they leave to answer for. */
    ghost var history: seq<Event>
    ghost var window: seq<int>

    ghost predicate Allocated()
      reads this
    {
      0 < len == order.Length == samples.Length && order != samples && cnt <= len && index < len
    }

    ghost function View(): State
      reads this, order, samples
      requires Allocated()
    {
      State(index, order[..cnt], samples[..])
    }

    ghost predicate Valid()
      reads this, order, samples
    {
      Allocated() && View() == Run(len, history) && window == Recent(Since(history), len)
    }

    constructor (length: nat)
      requires 1 <= length
      ensures Valid() && len == length && history == [] && window == []
      ensures fresh(order) && fresh(samples)
    {
      cnt, len, index := 0, length, 0;
      order := new int[length](_ => 0);
      samples := new int[length](_ => 0);
      history, window := [], [];
      new;
      assert samples[..] == Created(length).samples;
    }

    /** mmedian_create: no filter for a length below 1. */
    static method Create(length: int) returns (m: MovingMedian?)
      ensures m == null <==> length < 1
      ensures m != null ==> fresh(m) && fresh(m.order) && fresh(m.samples) && m.Valid() && m.len == length
      ensures m != null ==> m.window == []
    {
      m := null;
      if length >= 1 {
        m := new MovingMedian(length);
      }
    }

    method Reset()
      requires Valid()
      modifies this`cnt, this`index, this`history, this`window
      ensures Valid() && history == old(history) + [Event.Reset] && window == []
    {
      cnt, index := 0, 0;
      history, window := history + [Event.Reset], [];
    }

    /** The place of the replaced slot in the order. */
    method FindReplaced() returns (i: nat)
      requires Allocated() && index in order[..cnt]
      ensures i == IndexOf(order[..cnt], index)
    {
      ghost var was := order[..cnt];
      i := 0;
      while i < cnt && order[i] != index
        invariant i <= IndexOf(was, index)
      {
        assert was[i] == order[i];
        i := i + 1;
      }
      assert i < cnt && was[i] == index;
    }

    /** Takes entry k out of the order, closing the gap. */
    method CloseGap(k: nat)
      requires k < cnt <= order.Length
      modifies order
      ensures order[..cnt - 1] == Without(old(order[..cnt]), k)
    {
      ghost var was := order[..cnt];
      var i := k;
      while i + 1 < cnt
        invariant k <= i < cnt
        invariant forall m :: 0 <= m < k || i < m < cnt ==> order[m] == was[m]
        invariant forall m :: k <= m < i ==> order[m] == was[m + 1]
      {
        order[i] := order[i + 1];
        i := i + 1;
      }
    }

    /** Moves the entries with larger values up by one and answers the place this leaves free. */
    method ShiftUp() returns (i: nat)
      requires 0 < cnt <= len == order.Length == samples.Length && order != samples && index < len
      requires InRange(order[..cnt - 1], samples[..])
      modifies order
      ensures i < cnt
      ensures forall m :: 0 <= m < i ==> order[m] == old(order[m])
      ensures forall m :: i < m < cnt ==> order[m] == old(order[m - 1])
      ensures i > 0 ==> samples[old(order[i - 1])] <= samples[index]
      ensures forall m :: i <= m < cnt - 1 ==> samples[old(order[m])] > samples[index]
    {
      ghost var kept := order[..cnt - 1];
      i := cnt - 1;
      while i > 0 && Cmp(samples[order[i - 1]], samples[index]) > 0
        invariant 0 <= i < cnt
        invariant forall m :: 0 <= m < i ==> order[m] == kept[m]
        invariant forall m :: i < m < cnt ==> order[m] == kept[m - 1]
        invariant forall m :: i <= m < |kept| ==> samples[kept[m]] > samples[index]
      {
        order[i] := order[i - 1];
        i := i - 1;
      }
    }

    method MakeRoom() returns (i: nat)
      requires 0 < cnt <= len == order.Length == samples.Length && order != samples && index < len
      requires InRange(order[..cnt - 1], samples[..])
      modifies order
      ensures Shifted(order[..cnt], old(order[..cnt - 1]), i)
      ensures IsPlace(old(order[..cnt - 1]), samples[..], samples[index], i)
    {
      ghost var kept := order[..cnt - 1];
      i := ShiftUp();
      ShiftedBy(order[..cnt], kept, i);
    }

    /** Puts the new slot in its place. */
    method InsertNewest()
      requires 0 < cnt <= len == order.Length == samples.Length && order != samples && index < len
      requires InRange(order[..cnt - 1], samples[..])
      modifies order
      ensures order[..cnt] == Placed(old(order[..cnt - 1]), samples[..], index)
    {
      var i := MakeRoom();
      PlaceIsUnique(old(order[..cnt - 1]), samples[..], samples[index], i);
      ghost var was := order[..cnt];
      order[i] := index;
      assert order[..cnt] == was[..i] + [index] + was[i + 1..];
    }

    /** Writes the sample to its slot and files the slot in the order. */
    method File(sample: int)
      requires Allocated() && Shape(View()) && (cnt == len ==> index in order[..cnt])
      modifies this`cnt, order, samples
      ensures cnt == if old(cnt) < len then old(cnt) + 1 else len
      ensures samples[..] == old(samples[..])[index := sample]
      ensures order[..cnt] == Placed(Kept(old(View())), samples[..], index)
    {
      ghost var st := View();
      samples[index] := sample;
      if cnt < len {
        cnt := cnt + 1;
      } else {
        var i := FindReplaced();
        CloseGap(i);
      }
      assert order[..cnt - 1] == Kept(st);
      InsertNewest();
    }

    method Advance()
      requires index < len
      modifies this`index
      ensures index == Next(old(index), len)
    {
      index := (1 + index) % len;
    }

    method Store(sample: int)
      requires Allocated() && Shape(View()) && (cnt == len ==> index in order[..cnt])
      modifies this`cnt, this`index, order, samples
      ensures Allocated() && cnt > 0
      ensures View() == Step(old(View()), sample)
    {
      File(sample);
      Advance();
    }

    /** Reads the middle of the live samples through the order. */
    method ReadMiddle() returns (r: int)
      requires Allocated() && Shape(View()) && cnt > 0
      ensures r == Middle(Values(View()))
    {
      assert forall i :: 0 <= i < cnt ==> order[i] == View().order[i];
      if cnt % 2 != 0 {
        r := samples[order[cnt / 2]];
      } else {
        r := Div(Add(samples[order[cnt / 2 - 1]], samples[order[cnt / 2]]), 2);
      }
    }

    method Take(sample: int) returns (r: int)
      requires Allocated() && Shape(View()) && (cnt == len ==> index in order[..cnt])
      modifies this`cnt, this`index, order, samples
      ensures Allocated() && View() == Step(old(View()), sample) && View().order != []
      ensures r == Middle(Values(View()))
    {
      Store(sample);
      r := ReadMiddle();
    }

    ghost method Remember(sample: int)
      requires Allocated() && View() == Run(len, history + [Event.Sample(sample)])
      modifies this`history, this`window
      ensures Valid() && history == old(history) + [Event.Sample(sample)] && window == Recent(Since(history), len)
    {
      history := history + [Event.Sample(sample)];
      window := Recent(Since(history), len);
    }

    method Sample(sample: int) returns (r: int)
      requires Valid()
      modifies this`cnt, this`index, this`history, this`window, order, samples
      ensures Valid() && history == old(history) + [Event.Sample(sample)]
      ensures window == Slide(old(window), sample, len)
      ensures r == Median(window)
    {
      RunStep(len, history, sample);
      r := Take(sample);
      Remember(sample);
    }
  }
}
