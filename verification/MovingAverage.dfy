/** Moving average filter (filter/average/mave.c): a ring of samples and its running sum, which wraps modulo 2^64. */
module MovingAverage {
  import opened Tmv
  import opened Window

  datatype State = State(index: nat, cnt: nat, sum: int, val: seq<int>)

  ghost predicate Shape(st: State) {
    0 < |st.val| && st.index < |st.val| && st.cnt <= |st.val|
  }

  function Step(st: State, value: int): (st': State)
    requires 0 < |st.val| && st.index < |st.val| && st.cnt <= |st.val|
    ensures Shape(st') && |st'.val| == |st.val| && st'.cnt > 0
  {
    var len := |st.val|;
    State(Next(st.index, len), if st.cnt < len then st.cnt + 1 else len,
          Add(Sub(st.sum, st.val[st.index]), value), st.val[st.index := value])
  }

  // ---- The reference -----------------------------------------------------------------------

  function Sum(w: seq<int>): int {
    if w == [] then 0 else Sum(w[..|w| - 1]) + w[|w| - 1]
  }

  /** The answer by definition: the true sum of the window, wrapped once, divided by its length. */
  function Average(w: seq<int>): int
    requires w != []
  {
    Div(Wrap(Sum(w)), |w|)
  }

  lemma {:induction false} SumDropsFirst(w: seq<int>)
    requires w != []
    ensures Sum(w) == w[0] + Sum(w[1..])
  {
    if |w| > 1 {
      SumDropsFirst(w[..|w| - 1]);
      assert w[1..][..|w| - 2] == w[..|w| - 1][1..];
    }
  }

  // ---- The invariant -----------------------------------------------------------------------

  function SlotOf(st: State, j: int): int {
    var oldest := if st.cnt < |st.val| then 0 else st.index;
    if oldest + j < |st.val| then oldest + j else oldest + j - |st.val|
  }

  /** Live slots hold the window, unfilled slots hold 0, the sum is right modulo 2^64. */
  ghost predicate Inv(st: State, w: seq<int>) {
    && Shape(st) && |w| == st.cnt
    && (st.cnt < |st.val| ==> st.index == st.cnt)
    && (forall j :: 0 <= j < |w| ==> w[j] == st.val[SlotOf(st, j)])
    && (forall i :: st.cnt <= i < |st.val| ==> st.val[i] == 0)
    && st.sum == Wrap(Sum(w))
  }

  lemma StepKeepsWindow(st: State, w: seq<int>, value: int)
    requires Inv(st, w)
    ensures var st', w' := Step(st, value), Slide(w, value, |st.val|);
            |w'| == st'.cnt && forall j :: 0 <= j < |w'| ==> w'[j] == st'.val[SlotOf(st', j)]
  {
    var len := |st.val|;
    var st', w' := Step(st, value), Slide(w, value, len);
    forall j | 0 <= j < |w'|
      ensures w'[j] == st'.val[SlotOf(st', j)]
    {
      if j == |w'| - 1 {
        assert SlotOf(st', j) == st.index;
      } else if |w| == len {
        assert w'[j] == w[j + 1];
        assert SlotOf(st', j) == SlotOf(st, j + 1) != st.index;
      }
    }
  }

  lemma ReplaceInSum(rest: int, gone: int, value: int)
    ensures Add(Sub(Wrap(rest + gone), gone), value) == Wrap(rest + value)
  {
    WrapAbsorbs(rest + gone, gone);
    WrapAbsorbs(rest, value);
  }

  /** The samples that stay in the window when the next one comes. */
  function Kept(w: seq<int>, len: nat): seq<int>
    requires 0 < len
  {
    if |w| < len then w else w[1..]
  }

  lemma SlideSum(w: seq<int>, value: int, len: nat)
    requires 0 < len && |w| <= len
    ensures Sum(Slide(w, value, len)) == Sum(Kept(w, len)) + value
  {
    SumAppend(Kept(w, len), value);
    assert Slide(w, value, len) == Kept(w, len) + [value];
  }

  lemma SumAppend(rest: seq<int>, value: int)
    ensures Sum(rest + [value]) == Sum(rest) + value
  {
    assert (rest + [value])[..|rest|] == rest;
  }

  /** What the window loses is what the slot held: nothing while the ring is not full. */
  lemma SumLoses(st: State, w: seq<int>)
    requires Inv(st, w)
    ensures Sum(w) == Sum(Kept(w, |st.val|)) + st.val[st.index]
  {
    if |w| == |st.val| {
      assert SlotOf(st, 0) == st.index;
      SumDropsFirst(w);
    }
  }

  /** Subtracting the replaced slot and adding the sample keeps the sum right modulo 2^64. */
  lemma StepKeepsSum(st: State, w: seq<int>, value: int)
    requires Inv(st, w)
    ensures Step(st, value).sum == Wrap(Sum(Slide(w, value, |st.val|)))
  {
    SumLoses(st, w);
    SlideSum(w, value, |st.val|);
    StepSum(st, value, Sum(Kept(w, |st.val|)), Sum(w));
  }

  lemma StepSum(st: State, value: int, rest: int, whole: int)
    requires Shape(st) && st.sum == Wrap(whole) && whole == rest + st.val[st.index]
    ensures Step(st, value).sum == Wrap(rest + value)
  {
    ReplaceInSum(rest, st.val[st.index], value);
  }

  lemma StepKeepsInv(st: State, w: seq<int>, value: int)
    requires Inv(st, w)
    ensures Inv(Step(st, value), Slide(w, value, |st.val|))
  {
    StepKeepsWindow(st, w, value);
    StepKeepsSum(st, w, value);
  }

  // ---- Whole runs --------------------------------------------------------------------------

  function Cleared(len: nat): State {
    State(0, 0, 0, seq(len, _ => 0))
  }

  ghost function Run(len: nat, events: seq<Event>): (st: State)
    requires 0 < len
    ensures Shape(st) && |st.val| == len
    ensures events != [] && events[|events| - 1].Sample? ==> st.cnt > 0
  {
    if events == [] || events[|events| - 1].Reset? then Cleared(len)
    else Step(Run(len, events[..|events| - 1]), events[|events| - 1].value)
  }

  lemma {:induction false} RunKeepsInv(len: nat, events: seq<Event>)
    requires 0 < len
    ensures Inv(Run(len, events), Recent(Since(events), len))
  {
    if events != [] && events[|events| - 1].Sample? {
      var before := events[..|events| - 1];
      RunKeepsInv(len, before);
      StepKeepsInv(Run(len, before), Recent(Since(before), len), events[|events| - 1].value);
      SlideRecent(Since(before), events[|events| - 1].value, len);
    }
  }

  /** After any run that ends in a sample, overflowing or not, the answer is the exact truncated mean of the
      last min(n, len) samples if and only if the sum of just these samples fits. */
  lemma RunAnswersMean(len: nat, events: seq<Event>)
    requires 0 < len < TWO_63 && events != [] && events[|events| - 1].Sample?
    ensures Recent(Since(events), len) != []
    ensures var st, w := Run(len, events), Recent(Since(events), len);
            Div(st.sum, st.cnt) == Div(Sum(w), |w|) <==> Fits(Sum(w))
  {
    RunKeepsInv(len, events);
    WrappedQuotient(Sum(Recent(Since(events), len)), Run(len, events).cnt);
  }

  /** All the filter method needs to know about one more sample. */
  lemma RunStep(len: nat, events: seq<Event>, value: int)
    requires 0 < len
    ensures var events' := events + [Sample(value)];
            && Run(len, events') == Step(Run(len, events), value)
            && Recent(Since(events'), len) == Slide(Recent(Since(events), len), value, len)
            && Div(Run(len, events').sum, Run(len, events').cnt) == Average(Recent(Since(events'), len))
  {
    var events' := events + [Sample(value)];
    assert events'[..|events|] == events;
    SlideRecent(Since(events), value, len);
    RunKeepsInv(len, events');
  }

  lemma SumOfEquals(x: int)
    ensures Sum([x, x]) == 2 * x && Sum([x, x, x]) == 3 * x
  {
    assert [x][..0] == [] && [x, x][..1] == [x] && [x, x, x][..2] == [x, x];
    assert Sum([x]) == x;
  }

  lemma {:induction false} SumBetween(w: seq<int>, lo: int, hi: int)
    requires Within(w, lo, hi)
    ensures lo * |w| <= Sum(w) <= hi * |w|
  {
    if w != [] {
      SumBetween(w[..|w| - 1], lo, hi);
      assert lo * |w| == lo * (|w| - 1) + lo && hi * |w| == hi * (|w| - 1) + hi;
    }
  }

  /** The average stays between the bounds of the samples as soon as their own sum fits. */
  lemma AverageBetween(w: seq<int>, lo: int, hi: int)
    requires w != [] && Within(w, lo, hi) && Fits(Sum(w))
    ensures lo <= Average(w) <= hi
  {
    SumBetween(w, lo, hi);
    DivBetween(Sum(w), |w|, lo, hi);
  }

  // ---- The filter itself -------------------------------------------------------------------

  class MovingAverage {
    var cnt: nat
    const len: nat
    var index: nat
    var sum: int
    const val: array<int>
    /** All calls so far, and the samples they leave to answer for. */
    ghost var history: seq<Event>
    ghost var window: seq<int>

    ghost predicate Allocated()
      reads this
    {
      0 < len == val.Length && cnt <= len && index < len
    }

    ghost function View(): State
      reads this, val
    {
      State(index, cnt, sum, val[..])
    }

    ghost predicate Valid()
      reads this, val
    {
      Allocated() && View() == Run(len, history) && window == Recent(Since(history), len)
    }

    constructor (length: nat)
      requires 1 <= length
      ensures Valid() && len == length && history == [] && window == []
      ensures fresh(val)
    {
      cnt, len, index, sum := 0, length, 0, 0;
      val := new int[length](_ => 0);
      history, window := [], [];
      new;
      assert val[..] == Cleared(length).val;
    }

    method Reset()
      requires Valid()
      modifies this`cnt, this`index, this`sum, this`history, this`window, val
      ensures Valid() && history == old(history) + [Event.Reset] && window == []
    {
      cnt, index, sum := 0, 0, 0;
      forall i | 0 <= i < len {
        val[i] := 0;
      }
      history, window := history + [Event.Reset], [];
      assert val[..] == Cleared(len).val;
    }

    method Advance()
      requires index < len
      modifies this`index
      ensures index == Next(old(index), len)
    {
      index := (1 + index) % len;
    }

    method Take(value: int) returns (r: int)
      requires Allocated()
      modifies this`cnt, this`index, this`sum, val
      ensures Allocated() && cnt > 0 && View() == Step(old(View()), value) && r == Div(sum, cnt)
    {
      sum := Sub(sum, val[index]);
      val[index] := value;
      Advance();
      sum := Add(sum, value);
      if cnt < len {
        cnt := cnt + 1;
      }
      r := Div(sum, cnt);
    }

    ghost method Remember(value: int)
      requires Allocated() && View() == Run(len, history + [Event.Sample(value)])
      modifies this`history, this`window
      ensures Valid() && history == old(history) + [Event.Sample(value)] && window == Recent(Since(history), len)
    {
      history := history + [Event.Sample(value)];
      window := Recent(Since(history), len);
    }

    method Sample(value: int) returns (r: int)
      requires Valid()
      modifies this`cnt, this`index, this`sum, this`history, this`window, val
      ensures Valid() && history == old(history) + [Event.Sample(value)]
      ensures window == Slide(old(window), value, len)
      ensures r == Average(window)
    {
      RunStep(len, history, value);
      r := Take(value);
      Remember(value);
    }
  }
}
