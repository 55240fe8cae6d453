/** The NTP shared memory servo (servo/ntpshm/ntpshm.c): a record guarded by a sequence count, written store by
    store. */
module NtpShm {
  import opened Tmv

  const NS_PER_SEC := 1000000000
  const LEAP_NORMAL := 0
  const LEAP_INSERT := 1
  const LEAP_DELETE := 2

  /** The fields a reader copies. */
  datatype Record = Record(
    clockSec: int, clockNSec: int, clockUSec: int, receiveSec: int, receiveNSec: int, receiveUSec: int,
    precision: int, leap: int)

  /** The shared segment. */
  datatype Shm = Shm(mode: int, count: int, valid: bool, record: Record)

  /** One call of the writer. */
  datatype Call = Call(offset: int, localTs: int, leap: int)

  // ---- What one call publishes --------------------------------------------------------------

  function ClockTs(c: Call): int {
    Unsigned(c.localTs - c.offset)
  }

  function Published(c: Call): Record {
    var clockTs := ClockTs(c);
    Record(clockTs / NS_PER_SEC, clockTs % NS_PER_SEC, clockTs % NS_PER_SEC / 1000,
           c.localTs / NS_PER_SEC, c.localTs % NS_PER_SEC, c.localTs % NS_PER_SEC / 1000,
           -30, if c.leap == -1 then LEAP_DELETE else if c.leap == 1 then LEAP_INSERT else LEAP_NORMAL)
  }

  ghost predicate LocalTimeOk(c: Call) {
    0 <= c.localTs < TWO_64
  }

  /** The published fields add up to the two time stamps; the precision is 2^-30 s, and a leap second to be inserted or
      deleted has the codes 1 and 2. */
  lemma PublishedTimes(c: Call)
    requires LocalTimeOk(c) && 0 <= c.localTs - c.offset < TWO_64
    ensures var r := Published(c);
            && r.clockSec * NS_PER_SEC + r.clockNSec == c.localTs - c.offset
            && r.receiveSec * NS_PER_SEC + r.receiveNSec == c.localTs
            && 0 <= r.clockNSec < NS_PER_SEC && 0 <= r.receiveNSec < NS_PER_SEC
            && r.clockUSec == r.clockNSec / 1000 && r.receiveUSec == r.receiveNSec / 1000
            && r.precision == -30 && r.leap == (if c.leap == 1 then 1 else if c.leap == -1 then 2 else 0)
  {
  }

  // ---- The writer, one store at a time ------------------------------------------------------

  const STORES := 13

  /** The pc-th store of ntpshm_sample, in program order. */
  function Store(m: Shm, pc: nat, c: Call): Shm
    requires pc < STORES
  {
    var p := Published(c);
    if pc == 0 then m.(mode := 1)
    else if pc == 1 then m.(count := m.count + 1)
    else if pc == 2 then m.(valid := false)
    else if pc == 3 then m.(record := m.record.(clockSec := p.clockSec))
    else if pc == 4 then m.(record := m.record.(clockNSec := p.clockNSec))
    else if pc == 5 then m.(record := m.record.(clockUSec := p.clockUSec))
    else if pc == 6 then m.(record := m.record.(receiveSec := p.receiveSec))
    else if pc == 7 then m.(record := m.record.(receiveNSec := p.receiveNSec))
    else if pc == 8 then m.(record := m.record.(receiveUSec := p.receiveUSec))
    else if pc == 9 then m.(record := m.record.(precision := p.precision))
    else if pc == 10 then m.(record := m.record.(leap := p.leap))
    else if pc == 11 then m.(count := m.count + 1)
    else m.(valid := true)
  }

  function Stores(m: Shm, c: Call, from: nat, to: nat): Shm
    requires from <= to <= STORES
  {
    if from == to then m else Store(Stores(m, c, from, to - 1), to - 1, c)
  }

  // ---- Writer and reader interleaved --------------------------------------------------------

  /** The fields in the order and number in which some reader copies them: any list. */
  datatype Field = ClockSec | ClockNSec | ClockUSec | ReceiveSec | ReceiveNSec | ReceiveUSec | Precision | LeapField

  function Get(r: Record, f: Field): int {
    match f
    case ClockSec => r.clockSec
    case ClockNSec => r.clockNSec
    case ClockUSec => r.clockUSec
    case ReceiveSec => r.receiveSec
    case ReceiveNSec => r.receiveNSec
    case ReceiveUSec => r.receiveUSec
    case Precision => r.precision
    case LeapField => r.leap
  }

  /** A reader that has read the count, and a copy of the fields read since. */
  datatype Reader = Idle | Reading(count: int, copied: map<Field, int>)

  /** done counts the finished calls of the writer; pc is the next store of the current call. */
  datatype State = State(shm: Shm, pc: nat, call: Call, reader: Reader, last: Record)

  /** One atomic step of either side. The writer starts its next call with any arguments. */
  datatype Step = Write
                | Begin(call: Call)
                | ReadCount
                | ReadField(field: Field)
                | ClearValid
                | GiveUp

  function Next(s: State, step: Step): State {
    match step
    case Begin(call) => if s.pc == STORES then s.(pc := 0, call := call) else s
    case Write =>
      if s.pc >= STORES then s
      else
        var s' := s.(shm := Store(s.shm, s.pc, s.call), pc := s.pc + 1);
        if s.pc == 11 then s'.(last := Published(s.call)) else s'
    case ReadCount => s.(reader := Reading(s.shm.count, map[]))
    case ReadField(f) =>
      if s.reader.Reading? then s.(reader := s.reader.(copied := s.reader.copied[f := Get(s.shm.record, f)])) else s
    case ClearValid => s.(shm := s.shm.(valid := false))
    case GiveUp => s.(reader := Idle)
  }

  function Run(s: State, steps: seq<Step>): State {
    if steps == [] then s else Next(Run(s, steps[..|steps| - 1]), steps[|steps| - 1])
  }

  /** The writer rests, the reader is idle; the record is whatever the segment held. */
  ghost predicate Initial(s: State) {
    s.pc == STORES && s.reader.Idle? && s.shm.count % 2 == 0 && s.last == s.shm.record
  }

  ghost predicate Agrees(copied: map<Field, int>, r: Record) {
    forall f :: f in copied ==> copied[f] == Get(r, f)
  }

  /** The writer is between its two increments exactly while the count is odd; while it is even, the segment holds one
      finished record; a reader whose even count still stands has copied from that record only. */
  ghost predicate Inv(s: State) {
    && s.pc <= STORES
    && (s.shm.count % 2 == 1 <==> 2 <= s.pc <= 11)
    && (s.shm.count % 2 == 0 ==> s.shm.record == s.last)
    && (s.reader.Reading? ==>
          && s.reader.count <= s.shm.count
          && (s.reader.count == s.shm.count && s.shm.count % 2 == 0 ==> Agrees(s.reader.copied, s.last)))
    && (2 <= s.pc <= 11 ==> WrittenUpTo(s.shm.record, s.pc, Published(s.call)))
  }

  /** The stores so far have reached the record. */
  ghost predicate WrittenUpTo(r: Record, pc: nat, p: Record) {
    && (pc > 3 ==> r.clockSec == p.clockSec)
    && (pc > 4 ==> r.clockNSec == p.clockNSec)
    && (pc > 5 ==> r.clockUSec == p.clockUSec)
    && (pc > 6 ==> r.receiveSec == p.receiveSec)
    && (pc > 7 ==> r.receiveNSec == p.receiveNSec)
    && (pc > 8 ==> r.receiveUSec == p.receiveUSec)
    && (pc > 9 ==> r.precision == p.precision)
    && (pc > 10 ==> r.leap == p.leap)
  }

  lemma NextKeepsInv(s: State, step: Step)
    requires Inv(s)
    ensures Inv(Next(s, step))
  {
  }

  lemma {:induction false} RunKeepsInv(s: State, steps: seq<Step>)
    requires Initial(s)
    ensures Inv(Run(s, steps))
  {
    if steps != [] {
      RunKeepsInv(s, steps[..|steps| - 1]);
      NextKeepsInv(Run(s, steps[..|steps| - 1]), steps[|steps| - 1]);
    }
  }

  // ---- Which call a snapshot shows ------------------------------------------------------------

  /** The calls that a resting writer has begun, in order. */
  function Begun(s: State, steps: seq<Step>): seq<Call> {
    if steps == [] then []
    else
      var before, step := steps[..|steps| - 1], steps[|steps| - 1];
      Begun(s, before) + if step.Begin? && Run(s, before).pc == STORES then [step.call] else []
  }

  /** The calls whose record has been published by the second increment of the count, in order. */
  function Finished(s: State, steps: seq<Step>): seq<Call> {
    if steps == [] then []
    else
      var before, step := steps[..|steps| - 1], steps[|steps| - 1];
      Finished(s, before) + if step.Write? && Run(s, before).pc == 11 then [Run(s, before).call] else []
  }

  /** The record that these calls leave behind. */
  function RecordAfter(s: State, calls: seq<Call>): Record {
    if calls == [] then s.shm.record else Published(calls[|calls| - 1])
  }

  /** Calls finish in the order in which they began, and at most one is under way. */
  lemma {:induction false} FinishedIsBegun(s: State, steps: seq<Step>)
    requires Initial(s)
    ensures var t := Run(s, steps);
            t.pc <= STORES && Begun(s, steps) == Finished(s, steps) + if t.pc <= 11 then [t.call] else []
  {
    if steps != [] {
      FinishedIsBegun(s, steps[..|steps| - 1]);
    }
  }

  /** The count says how many calls have finished. */
  lemma {:induction false} CountsFinished(s: State, steps: seq<Step>)
    requires Initial(s)
    ensures var t := Run(s, steps);
            && t.last == RecordAfter(s, Finished(s, steps)) && t.pc <= STORES
            && t.shm.count == s.shm.count + 2 * |Finished(s, steps)| + if 2 <= t.pc <= 11 then 1 else 0
  {
    if steps != [] {
      CountsFinished(s, steps[..|steps| - 1]);
    }
  }

  /** How many steps came before the count was last read. */
  function CountRead(steps: seq<Step>): (k: nat)
    ensures k <= |steps|
  {
    if steps == [] then 0
    else if steps[|steps| - 1].ReadCount? then |steps| - 1
    else CountRead(steps[..|steps| - 1])
  }

  lemma {:induction false} ReaderHoldsCount(s: State, steps: seq<Step>)
    requires Initial(s) && Run(s, steps).reader.Reading?
    ensures Run(s, steps).reader.count == Run(s, steps[..CountRead(steps)]).shm.count
  {
    if !steps[|steps| - 1].ReadCount? {
      var before := steps[..|steps| - 1];
      ReaderHoldsCount(s, before);
      assert before[..CountRead(before)] == steps[..CountRead(steps)];
    }
  }

  lemma {:induction false} FinishedGrows(s: State, steps: seq<Step>, k: nat)
    requires k <= |steps|
    ensures Finished(s, steps[..k]) <= Finished(s, steps)
  {
    if k == |steps| {
      assert steps[..k] == steps;
    } else {
      var before := steps[..|steps| - 1];
      FinishedGrows(s, before, k);
      assert before[..k] == steps[..k];
    }
  }

  /** A reader that finds its even count unchanged holds fields of one record only, in every interleaving: that of the
      last call finished before the count was read, whose number the count itself tells. */
  lemma SnapshotConsistent(s: State, steps: seq<Step>)
    requires Initial(s)
    ensures var t := Run(s, steps);
            t.reader.Reading? && t.reader.count == t.shm.count && t.reader.count % 2 == 0 ==>
            var calls := Finished(s, steps[..CountRead(steps)]);
            t.reader.count == s.shm.count + 2 * |calls| && Agrees(t.reader.copied, RecordAfter(s, calls))
  {
    RunKeepsInv(s, steps);
    CountsFinished(s, steps);
    var t, k := Run(s, steps), CountRead(steps);
    if t.reader.Reading? && t.reader.count == t.shm.count && t.reader.count % 2 == 0 {
      ReaderHoldsCount(s, steps);
      CountsFinished(s, steps[..k]);
      FinishedGrows(s, steps, k);
    }
  }

  // ---- Why the parity of the count matters --------------------------------------------------

  lemma {:induction false} RunAppend(s: State, a: seq<Step>, b: seq<Step>)
    ensures Run(s, a + b) == Run(Run(s, a), b)
  {
    if b == [] {
      assert a + b == a;
    } else {
      assert (a + b)[..|a + b| - 1] == a + b[..|b| - 1];
      RunAppend(s, a, b[..|b| - 1]);
    }
  }

  function Writes(n: nat): seq<Step> {
    seq(n, _ => Write)
  }

  /** A writer that is not interrupted performs its stores in program order. */
  lemma {:induction false} RunWrites(s: State, n: nat)
    requires s.pc + n <= STORES
    ensures var t := Run(s, Writes(n));
            && t.shm == Stores(s.shm, s.call, s.pc, s.pc + n) && t.pc == s.pc + n
            && t.call == s.call && t.reader == s.reader
  {
    if n > 0 {
      assert Writes(n)[..n - 1] == Writes(n - 1);
      RunWrites(s, n - 1);
    }
  }

  /** All stores of one call together publish its record under a count raised by two. */
  lemma WholeCall(m: Shm, c: Call)
    ensures Stores(m, c, 0, STORES) == Shm(1, m.count + 2, true, Published(c))
  {
    var m1 := Stores(m, c, 0, 3);
    assert m1 == Shm(1, m.count + 1, false, m.record) by {
      assert Stores(m, c, 0, 1) == m.(mode := 1);
      assert Stores(m, c, 0, 2) == m.(mode := 1, count := m.count + 1);
    }
    var p := Published(c);
    assert Stores(m, c, 0, 4) == m1.(record := m.record.(clockSec := p.clockSec));
    assert Stores(m, c, 0, 5) == m1.(record := m.record.(clockSec := p.clockSec, clockNSec := p.clockNSec));
    var r6 := m.record.(clockSec := p.clockSec, clockNSec := p.clockNSec, clockUSec := p.clockUSec);
    assert Stores(m, c, 0, 6) == m1.(record := r6);
    assert Stores(m, c, 0, 7) == m1.(record := r6.(receiveSec := p.receiveSec));
    assert Stores(m, c, 0, 8) == m1.(record := r6.(receiveSec := p.receiveSec, receiveNSec := p.receiveNSec));
    var r9 := r6.(receiveSec := p.receiveSec, receiveNSec := p.receiveNSec, receiveUSec := p.receiveUSec);
    assert Stores(m, c, 0, 9) == m1.(record := r9);
    assert Stores(m, c, 0, 10) == m1.(record := r9.(precision := p.precision));
    assert Stores(m, c, 0, 11) == m1.(record := p);
    assert Stores(m, c, 0, 12) == m1.(record := p, count := m.count + 2);
  }

  const ZERO := Record(0, 0, 0, 0, 0, 0, -30, 0)
  const START := State(Shm(1, 0, false, ZERO), STORES, Call(0, 0, 0), Idle, ZERO)
  const EARLIER := Call(0, 0, 0)
  const LATER := Call(0, 1000000001, 0)

  /** One call, then the reader comes between the stores of the next. */
  const TORN: seq<Step> :=
    ([Begin(EARLIER)] + Writes(STORES)) + ([Begin(LATER)] + Writes(2))

  const TORN_READ: seq<Step> :=
    [ReadCount, ReadField(ClockSec), Write, Write, Write, ReadField(ClockNSec)]

  /** Beginning a call and performing its first n stores. */
  lemma BeginAndWrite(s: State, c: Call, n: nat)
    requires s.pc == STORES && n <= STORES
    ensures var t := Run(s, [Begin(c)] + Writes(n));
            t.shm == Stores(s.shm, c, 0, n) && t.pc == n && t.call == c
  {
    RunAppend(s, [Begin(c)], Writes(n));
    assert [Begin(c)][..0] == [];
    assert Run(s, [Begin(c)]) == s.(pc := 0, call := c);
    RunWrites(s.(pc := 0, call := c), n);
  }

  lemma TornState()
    ensures var t := Run(START, TORN);
            t.pc == 2 && t.call == LATER && t.shm == Shm(1, 3, true, Published(EARLIER))
  {
    BeginAndWrite(START, EARLIER, STORES);
    WholeCall(START.shm, EARLIER);
    var s := Run(START, [Begin(EARLIER)] + Writes(STORES));
    RunAppend(START, [Begin(EARLIER)] + Writes(STORES), [Begin(LATER)] + Writes(2));
    BeginAndWrite(s, LATER, 2);
    assert Stores(s.shm, LATER, 0, 1) == s.shm.(mode := 1);
  }

  /** A record that the segment held at first, or that some call of the writer, begun or not, would publish. */
  ghost predicate OfSomeCall(s: State, steps: seq<Step>, r: Record) {
    r == s.shm.record || exists k :: 0 <= k < |steps| && steps[k].Begin? && r == Published(steps[k].call)
  }

  lemma TornRecords(r: Record)
    requires OfSomeCall(START, TORN + TORN_READ, r)
    ensures r == ZERO || r == Published(EARLIER) || r == Published(LATER)
  {
    var steps := TORN + TORN_READ;
    if r != ZERO {
      var k :| 0 <= k < |steps| && steps[k].Begin? && r == Published(steps[k].call);
      assert steps[k] == Begin(EARLIER) || steps[k] == Begin(LATER);
    }
  }

  /** Equal counts alone are not enough, even if the segment is marked valid when the count is first read: the count
      rises before the mark is taken away, and the seconds of one call meet the nanoseconds of the next. */
  lemma EqualCountsAloneAreNotEnough()
    ensures Initial(START)
    ensures Run(START, TORN).shm.valid
    ensures var t := Run(START, TORN + TORN_READ);
            && t.reader.Reading? && t.reader.count == t.shm.count == Run(START, TORN).shm.count
            && forall r :: OfSomeCall(START, TORN + TORN_READ, r) ==> !Agrees(t.reader.copied, r)
  {
    TornState();
    RunAppend(START, TORN, TORN_READ);
    TornRead(Run(START, TORN));
    var t := Run(START, TORN + TORN_READ);
    forall r | OfSomeCall(START, TORN + TORN_READ, r)
      ensures !Agrees(t.reader.copied, r)
    {
      TornRecords(r);
      assert ClockSec in t.reader.copied && ClockNSec in t.reader.copied;
    }
  }

  lemma TornRead(s: State)
    requires s.pc == 2 && s.call == LATER && s.shm == Shm(1, 3, true, Published(EARLIER))
    ensures var t := Run(s, TORN_READ);
            t.reader == Reading(3, map[ClockSec := 0, ClockNSec := 1]) && t.shm.count == 3
  {
    var p := TORN_READ;
    var t1 := Next(s, ReadCount);
    var t2 := Next(t1, ReadField(ClockSec));
    var t3 := Next(t2, Write);
    var t4 := Next(t3, Write);
    var t5 := Next(t4, Write);
    var t6 := Next(t5, ReadField(ClockNSec));
    assert p[..0] == [] && Run(s, p[..0]) == s;
    assert p[..1][..0] == p[..0] && Run(s, p[..1]) == t1;
    assert p[..2][..1] == p[..1] && Run(s, p[..2]) == t2;
    assert p[..3][..2] == p[..2] && Run(s, p[..3]) == t3;
    assert p[..4][..3] == p[..3] && Run(s, p[..4]) == t4;
    assert p[..5][..4] == p[..4] && Run(s, p[..5]) == t5;
    assert p[..5] == p[..|p| - 1] && Run(s, p) == t6;
  }

  // ---- The writer itself ----------------------------------------------------------------------

  class NtpShmServo {
    var mode: int
    var count: int
    var clockSec: int
    var clockUSec: int
    var receiveSec: int
    var receiveUSec: int
    var shmLeap: int
    var precision: int
    var valid: bool
    var clockNSec: int
    var receiveNSec: int
    var leap: int

    function View(): Shm
      reads this
    {
      Shm(mode, count, valid,
          Record(clockSec, clockNSec, clockUSec, receiveSec, receiveNSec, receiveUSec, precision, shmLeap))
    }

    constructor (segment: Shm)
      ensures View() == segment && leap == 0
    {
      mode, count, valid := segment.mode, segment.count, segment.valid;
      clockSec, clockNSec, clockUSec := segment.record.clockSec, segment.record.clockNSec, segment.record.clockUSec;
      receiveSec, receiveNSec := segment.record.receiveSec, segment.record.receiveNSec;
      receiveUSec, precision, shmLeap := segment.record.receiveUSec, segment.record.precision, segment.record.leap;
      leap := 0;
    }

    method SetLeap(newLeap: int)
      modifies this`leap
      ensures leap == newLeap
    {
      leap := newLeap;
    }

    /** The stores of one sample, in program order. */
    method Sample(offset: int, localTs: int)
      modifies this
      ensures View() == Stores(old(View()), Call(offset, localTs, old(leap)), 0, STORES)
      ensures leap == old(leap)
      ensures View() == Shm(1, old(count) + 2, true, Published(Call(offset, localTs, leap)))
    {
      WholeCall(View(), Call(offset, localTs, leap));
      var clockTs := Unsigned(localTs - offset);
      mode := 1;
      count := count + 1;
      valid := false;
      clockSec := clockTs / NS_PER_SEC;
      clockNSec := clockTs % NS_PER_SEC;
      clockUSec := clockNSec / 1000;
      receiveSec := localTs / NS_PER_SEC;
      receiveNSec := localTs % NS_PER_SEC;
      receiveUSec := receiveNSec / 1000;
      precision := -30;
      if leap == -1 {
        shmLeap := LEAP_DELETE;
      } else if leap == 1 {
        shmLeap := LEAP_INSERT;
      } else {
        shmLeap := LEAP_NORMAL;
      }
      count := count + 1;
      valid := true;
    }
  }
}
