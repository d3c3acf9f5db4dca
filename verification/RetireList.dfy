/** Delayed reclamation: `RetireList`, one step per atomic access or clock reading. */
module RetireList {
  const UNIT: nat := 64            // seconds per time unit
  const STAMPS: nat := 0x1_0000    // stamps are 16 bits wide

  /** A retired object: the call that retired it and the second it was linked. */
  datatype Entry = Entry(op: nat, at: nat)

  datatype Op =
    | Loaded(list: seq<Entry>, stamp: nat)               // retire: head read
    | Taking(list: seq<Entry>, stamp: nat, t: nat)       // retire: about to replace an expired list
    | Pushing(list: seq<Entry>, stamp: nat, t: nat)      // retire: about to link in front
    | Linked
    | GcLoaded(list: seq<Entry>, stamp: nat)             // gc: head read
    | GcTaking(list: seq<Entry>, stamp: nat, t: nat)     // gc: about to take an expired list
    | GcDone

  /** The head word is `list` with `stamp`; `top` is the clock reading behind the stamp.
    `linked` logs every linked object, `freed` every freed one with its second in
    `when`. */
  datatype State = State(
    now: nat,
    list: seq<Entry>,
    stamp: nat,
    top: nat,
    linked: seq<Entry>,
    freed: seq<Entry>,
    when: seq<nat>,
    ops: seq<Op>)

  function Stamp(t: nat): nat { (t / UNIT) % STAMPS }

  /** `uint16_t(current - stamp) > 1`. */
  predicate Expired(stamp: nat, current: nat)
    requires stamp < STAMPS && current < STAMPS
  {
    (if stamp <= current then current - stamp else current + STAMPS - stamp) > 1
  }

  // ---------------------------------------------------------------- steps

  ghost predicate Tick(s: State, s': State, d: nat) {
    s' == s.(now := s.now + d)
  }

  ghost predicate BeginRetire(s: State, s': State) {
    s' == s.(ops := s.ops + [Loaded(s.list, s.stamp)])
  }

  ghost predicate ReadClock(s: State, s': State, i: nat) {
    && i < |s.ops| && s.ops[i].Loaded? && s.ops[i].stamp < STAMPS
    && var op := s.ops[i];
    && s' == s.(ops := s.ops[i :=
         if Expired(op.stamp, Stamp(s.now)) then Taking(op.list, op.stamp, s.now)
         else Pushing(op.list, op.stamp, s.now)])
  }

  /** The head becomes `list` with the stamp of clock reading `t`. */
  function Link(s: State, i: nat, list: seq<Entry>, t: nat): State
    requires i < |s.ops|
  {
    s.(list := [Entry(i, s.now)] + list, stamp := Stamp(t), top := t,
       linked := s.linked + [Entry(i, s.now)], ops := s.ops[i := Linked])
  }

  /** The current list is freed. */
  function FreeAll(s: State): State {
    s.(freed := s.freed + s.list, when := s.when + seq(|s.list|, _ => s.now))
  }

  ghost predicate Take(s: State, s': State, i: nat) {
    && i < |s.ops| && s.ops[i].Taking?
    && var op := s.ops[i];
    && s' == if op.list == s.list && op.stamp == s.stamp then Link(FreeAll(s), i, [], op.t)
             else s.(ops := s.ops[i := Pushing(s.list, s.stamp, op.t)])
  }

  ghost predicate Push(s: State, s': State, i: nat) {
    && i < |s.ops| && s.ops[i].Pushing? && s.ops[i].list == s.list && s.ops[i].stamp == s.stamp
    && s' == Link(s, i, s.list, s.ops[i].t)
  }

  /** The weak compare-and-swap fails, possibly spuriously, and reloads the head. */
  ghost predicate PushFails(s: State, s': State, i: nat) {
    && i < |s.ops| && s.ops[i].Pushing?
    && s' == s.(ops := s.ops[i := Pushing(s.list, s.stamp, s.ops[i].t)])
  }

  ghost predicate BeginGc(s: State, s': State) {
    s' == s.(ops := s.ops + [GcLoaded(s.list, s.stamp)])
  }

  ghost predicate GcClock(s: State, s': State, i: nat) {
    && i < |s.ops| && s.ops[i].GcLoaded? && s.ops[i].stamp < STAMPS
    && var op := s.ops[i];
    && s' == s.(ops := s.ops[i :=
         if Expired(op.stamp, Stamp(s.now)) then GcTaking(op.list, op.stamp, s.now) else GcDone])
  }

  ghost predicate GcTake(s: State, s': State, i: nat) {
    && i < |s.ops| && s.ops[i].GcTaking?
    && var op := s.ops[i];
    && s' == if op.list == s.list && op.stamp == s.stamp
             then FreeAll(s).(list := [], stamp := 0, ops := s.ops[i := GcDone])
             else s.(ops := s.ops[i := GcDone])
  }

  datatype Action =
    | DoTick(d: nat) | DoBeginRetire | DoReadClock | DoTake | DoPush | DoPushFails
    | DoBeginGc | DoGcClock | DoGcTake

  ghost predicate Step(s: State, s': State, i: nat, a: Action) {
    match a
    case DoTick(d) => Tick(s, s', d)
    case DoBeginRetire => BeginRetire(s, s')
    case DoReadClock => ReadClock(s, s', i)
    case DoTake => Take(s, s', i)
    case DoPush => Push(s, s', i)
    case DoPushFails => PushFails(s, s', i)
    case DoBeginGc => BeginGc(s, s')
    case DoGcClock => GcClock(s, s', i)
    case DoGcTake => GcTake(s, s', i)
  }

  /** An empty list at some second. */
  ghost predicate Init(s: State) {
    s == State(s.now, [], 0, 0, [], [], [], [])
  }

  ghost predicate Next(s: State, s': State) {
    exists i, a :: Step(s, s', i, a)
  }

  ghost predicate IsRun(run: seq<State>) {
    && |run| > 0 && Init(run[0])
    && forall n :: 0 <= n < |run| - 1 ==> Next(run[n], run[n + 1])
  }

  /** Every retiring call links its object within `lag` seconds of reading the clock. */
  ghost predicate Prompt(s: State, lag: nat) {
    forall i :: 0 <= i < |s.ops| && (s.ops[i].Taking? || s.ops[i].Pushing?) ==> s.now <= s.ops[i].t + lag
  }

  // ------------------------------------------------------------- invariant

  /** Every object of a list was linked by a call that is over. */
  ghost predicate AllLinked(ops: seq<Op>, list: seq<Entry>) {
    forall k :: 0 <= k < |list| ==> list[k].op < |ops| && ops[list[k].op].Linked?
  }

  /** The stamp belongs to a past reading, and nothing in the list is much younger. */
  ghost predicate HeadOk(s: State, lag: nat) {
    && s.stamp < STAMPS
    && (s.list != [] ==> s.stamp == Stamp(s.top) && s.top <= s.now)
    && (forall k :: 0 <= k < |s.list| ==> s.list[k].at <= s.top + lag && s.list[k].at <= s.now)
  }

  /** If the head is still the one that was read, the clock was read after its stamp. */
  ghost predicate TakerOk(s: State, list: seq<Entry>, stamp: nat, t: nat) {
    && stamp < STAMPS && Expired(stamp, Stamp(t)) && t <= s.now
    && (list == s.list && list != [] ==> s.top <= t)
  }

  ghost predicate OpOk(s: State, i: nat)
    requires i < |s.ops|
  {
    var op := s.ops[i];
    match op
    case Loaded(list, stamp) => AllLinked(s.ops, list) && stamp < STAMPS
    case Taking(list, stamp, t) => AllLinked(s.ops, list) && TakerOk(s, list, stamp, t)
    case Pushing(list, stamp, t) => AllLinked(s.ops, list) && t <= s.now
    case Linked => true
    case GcLoaded(list, stamp) => AllLinked(s.ops, list) && stamp < STAMPS
    case GcTaking(list, stamp, t) => AllLinked(s.ops, list) && TakerOk(s, list, stamp, t)
    case GcDone => true
  }

  ghost predicate LinkedOnce(linked: seq<Entry>) {
    forall j, k :: 0 <= j < k < |linked| ==> linked[j].op != linked[k].op
  }

  ghost predicate Logged(linked: seq<Entry>, i: nat) {
    exists k :: 0 <= k < |linked| && linked[k].op == i
  }

  ghost predicate FreedLate(s: State, lag: nat) {
    && |s.when| == |s.freed|
    && forall k :: 0 <= k < |s.freed| ==> s.freed[k].at <= s.when[k] && s.freed[k].at + UNIT < s.when[k] + lag
  }

  ghost predicate Inv(s: State, lag: nat) {
    && HeadOk(s, lag) && AllLinked(s.ops, s.list) && AllLinked(s.ops, s.linked) && LinkedOnce(s.linked)
    && (forall i :: 0 <= i < |s.ops| ==> OpOk(s, i))
    && (forall i :: 0 <= i < |s.ops| && s.ops[i].Linked? ==> Logged(s.linked, i))
    && multiset(s.freed) + multiset(s.list) == multiset(s.linked)
    && FreedLate(s, lag)
  }

  // ----------------------------------------------------------------- proof

  /** Two stamps more than one unit apart mean more than one unit of time. */
  lemma ExpiredIsOld(top: nat, t: nat)
    requires top <= t && Expired(Stamp(top), Stamp(t))
    ensures top + UNIT < t
  {
    var a, b := top / UNIT, t / UNIT;
    assert a <= b;
    NextResidue(a);
    assert b != a && b != a + 1;
  }

  lemma NextResidue(a: nat)
    ensures (a + 1) % STAMPS == if a % STAMPS == STAMPS - 1 then 0 else a % STAMPS + 1
  {
  }

  /** A reading at `t` is two units or more past `top`, but for whole rounds of the stamps. */
  predicate Due(top: nat, t: nat) {
    (t / UNIT - top / UNIT) % STAMPS > 1
  }

  /** The comparison of the 16-bit stamps decides this exactly. */
  lemma ExpiredExactly(top: nat, t: nat)
    ensures Expired(Stamp(top), Stamp(t)) <==> Due(top, t)
  {
    var a, b := top / UNIT, t / UNIT;
    var q := b / STAMPS - a / STAMPS;
    assert b - a == STAMPS * q + (b % STAMPS - a % STAMPS);
    if a % STAMPS <= b % STAMPS {
      assert (b - a) % STAMPS == b % STAMPS - a % STAMPS;
    } else {
      assert b - a == STAMPS * (q - 1) + (b % STAMPS + STAMPS - a % STAMPS);
      assert (b - a) % STAMPS == b % STAMPS + STAMPS - a % STAMPS;
    }
  }

  /** On seconds: two full units and less than a round after the head's reading. */
  lemma OldIsExpired(top: nat, t: nat)
    requires top + 2 * UNIT <= t < top + UNIT * (STAMPS - 1)
    ensures Due(top, t) && Expired(Stamp(top), Stamp(t))
  {
    assert 2 <= t / UNIT - top / UNIT < STAMPS;
    ExpiredExactly(top, t);
  }

  /** A taker that finds the head unchanged frees only old objects. */
  lemma TakeIsLate(s: State, lag: nat, list: seq<Entry>, stamp: nat, t: nat)
    requires HeadOk(s, lag) && TakerOk(s, list, stamp, t) && list == s.list && stamp == s.stamp
    ensures forall k :: 0 <= k < |s.list| ==> s.list[k].at <= s.now && s.list[k].at + UNIT < s.now + lag
  {
    if s.list != [] {
      ExpiredIsOld(s.top, t);
    }
  }

  lemma FreeAllLate(s: State, lag: nat)
    requires FreedLate(s, lag)
    requires forall k :: 0 <= k < |s.list| ==> s.list[k].at <= s.now && s.list[k].at + UNIT < s.now + lag
    ensures FreedLate(FreeAll(s), lag)
  {
  }

  /** Steps that change neither the head nor the logs and link nothing. */
  lemma QuietStep(s: State, s': State, lag: nat, i: nat)
    requires Inv(s, lag) && s' == s.(ops := s'.ops) && |s.ops| <= |s'.ops| <= |s.ops| + 1 && i < |s'.ops|
    requires |s.ops| < |s'.ops| ==> i == |s.ops|
    requires forall j :: 0 <= j < |s.ops| && j != i ==> s'.ops[j] == s.ops[j]
    requires !s'.ops[i].Linked? && (i < |s.ops| ==> !s.ops[i].Linked?)
    requires OpOk(s', i)
    ensures Inv(s', lag)
  {
    forall j | 0 <= j < |s'.ops|
      ensures OpOk(s', j)
    {
      if j != i {
        assert OpOk(s, j);
      }
    }
  }

  lemma TickKeeps(s: State, s': State, lag: nat, d: nat)
    requires Inv(s, lag) && Tick(s, s', d)
    ensures Inv(s', lag)
  {
    forall j | 0 <= j < |s'.ops|
      ensures OpOk(s', j)
    {
      assert OpOk(s, j);
    }
  }

  lemma ReadClockKeeps(s: State, s': State, lag: nat, i: nat)
    requires Inv(s, lag) && (ReadClock(s, s', i) || GcClock(s, s', i))
    ensures Inv(s', lag)
  {
    assert OpOk(s, i);
    QuietStep(s, s', lag, i);
  }

  /** A list that contains a new object is not one that anybody has read. */
  lemma NewHead(s: State, i: nat, list: seq<Entry>, rest: seq<Entry>)
    requires i < |s.ops| && !s.ops[i].Linked? && AllLinked(s.ops, list)
    ensures list != [Entry(i, s.now)] + rest
  {
    assert ([Entry(i, s.now)] + rest)[0].op == i;
    assert list != [] ==> list[0].op != i;
  }

  lemma LinkOps(s: State, s': State, lag: nat, i: nat, rest: seq<Entry>)
    requires Inv(s, lag) && i < |s.ops| && !s.ops[i].Linked?
    requires s'.list == [Entry(i, s.now)] + rest && s'.now == s.now && s'.ops == s.ops[i := Linked]
    ensures forall j :: 0 <= j < |s'.ops| ==> OpOk(s', j)
  {
    forall j | 0 <= j < |s'.ops|
      ensures OpOk(s', j)
    {
      assert OpOk(s, j);
      if j != i && (s.ops[j].Taking? || s.ops[j].GcTaking?) {
        NewHead(s, i, s.ops[j].list, rest);
      }
    }
  }

  lemma LinkLog(s: State, i: nat)
    requires AllLinked(s.ops, s.linked) && LinkedOnce(s.linked) && i < |s.ops| && !s.ops[i].Linked?
    requires forall j :: 0 <= j < |s.ops| && s.ops[j].Linked? ==> Logged(s.linked, j)
    ensures var linked', ops' := s.linked + [Entry(i, s.now)], s.ops[i := Linked];
            && LinkedOnce(linked') && AllLinked(ops', linked')
            && forall j :: 0 <= j < |ops'| && ops'[j].Linked? ==> Logged(linked', j)
  {
    var linked', ops' := s.linked + [Entry(i, s.now)], s.ops[i := Linked];
    forall j | 0 <= j < |ops'| && ops'[j].Linked?
      ensures Logged(linked', j)
    {
      if j == i {
        assert linked'[|s.linked|].op == i;
      } else {
        var k :| 0 <= k < |s.linked| && s.linked[k].op == j;
        assert linked'[k].op == j;
      }
    }
  }

  lemma StampSmall(t: nat)
    ensures Stamp(t) < STAMPS
  {
  }

  lemma PushKeeps(s: State, s': State, lag: nat, i: nat)
    requires Inv(s, lag) && Prompt(s, lag) && Push(s, s', i)
    ensures Inv(s', lag)
  {
    var t := s.ops[i].t;
    assert OpOk(s, i);
    LinkOps(s, s', lag, i, s.list);
    LinkLog(s, i);
    StampSmall(t);
    LinkHead(s, s', lag, i, s.list, t);
  }

  /** The new head is young enough, because the call was prompt. */
  lemma LinkHead(s: State, s': State, lag: nat, i: nat, rest: seq<Entry>, t: nat)
    requires i < |s.ops| && s'.list == [Entry(i, s.now)] + rest && s'.stamp == Stamp(t) && s'.top == t
    requires s'.now == s.now <= t + lag && t <= s.now && AllLinked(s.ops, rest) && s'.ops == s.ops[i := Linked]
    requires forall k :: 0 <= k < |rest| ==> rest[k].at <= s.now
    ensures HeadOk(s', lag) && AllLinked(s'.ops, s'.list)
  {
  }

  lemma TakeKeeps(s: State, s': State, lag: nat, i: nat)
    requires Inv(s, lag) && Prompt(s, lag) && Take(s, s', i)
    ensures Inv(s', lag)
  {
    var op := s.ops[i];
    assert OpOk(s, i);
    if op.list == s.list && op.stamp == s.stamp {
      TakeIsLate(s, lag, op.list, op.stamp, op.t);
      FreeAllLate(s, lag);
      LinkOps(s, s', lag, i, []);
      LinkLog(s, i);
      LinkHead(s, s', lag, i, [], op.t);
      assert s'.list == [Entry(i, s.now)];
    } else {
      QuietStep(s, s', lag, i);
    }
  }

  lemma GcTakeKeeps(s: State, s': State, lag: nat, i: nat)
    requires Inv(s, lag) && GcTake(s, s', i)
    ensures Inv(s', lag)
  {
    var op := s.ops[i];
    assert OpOk(s, i);
    if op.list == s.list && op.stamp == s.stamp {
      TakeIsLate(s, lag, op.list, op.stamp, op.t);
      FreeAllLate(s, lag);
      forall j | 0 <= j < |s'.ops|
        ensures OpOk(s', j)
      {
        assert OpOk(s, j);
      }
    } else {
      QuietStep(s, s', lag, i);
    }
  }

  lemma StepKeeps(s: State, s': State, lag: nat, i: nat, a: Action)
    requires Inv(s, lag) && Prompt(s, lag) && Step(s, s', i, a)
    ensures Inv(s', lag)
  {
    match a {
      case DoTick(d) => TickKeeps(s, s', lag, d);
      case DoBeginRetire => QuietStep(s, s', lag, |s.ops|);
      case DoReadClock => ReadClockKeeps(s, s', lag, i);
      case DoTake => TakeKeeps(s, s', lag, i);
      case DoPush => PushKeeps(s, s', lag, i);
      case DoPushFails =>
        assert OpOk(s, i);
        QuietStep(s, s', lag, i);
      case DoBeginGc => QuietStep(s, s', lag, |s.ops|);
      case DoGcClock => ReadClockKeeps(s, s', lag, i);
      case DoGcTake => GcTakeKeeps(s, s', lag, i);
    }
  }

  // -------------------------------------------------------------- theorems

  lemma {:induction false} RunKeeps(run: seq<State>, lag: nat, n: nat)
    requires IsRun(run) && n < |run| && PromptRun(run, lag)
    ensures Inv(run[n], lag)
  {
    if n > 0 {
      RunKeeps(run, lag, n - 1);
      assert Next(run[n - 1], run[n - 1 + 1]);
      var i, a :| Step(run[n - 1], run[n], i, a);
      StepKeeps(run[n - 1], run[n], lag, i, a);
    }
  }

  /** Every state of the run is prompt. */
  ghost predicate PromptRun(run: seq<State>, lag: nat) {
    forall m :: 0 <= m < |run| ==> Prompt(run[m], lag)
  }

  /** No object is freed until more than `64 - lag` seconds after it was linked. */
  lemma FreedOnlyLate(run: seq<State>, lag: nat, n: nat, k: nat)
    requires IsRun(run) && n < |run| && PromptRun(run, lag) && k < |run[n].freed|
    ensures k < |run[n].when| && run[n].freed[k].at <= run[n].when[k]
    ensures run[n].freed[k].at + UNIT < run[n].when[k] + lag
  {
    RunKeeps(run, lag, n);
  }

  lemma {:induction false} ClockGrows(run: seq<State>, m: nat)
    requires IsRun(run) && m < |run|
    ensures run[m].now <= run[|run| - 1].now
    decreases |run| - m
  {
    if m + 1 < |run| {
      assert Next(run[m], run[m + 1]);
      ClockGrows(run, m + 1);
    }
  }

  /** Every object whose retire call is over is in the list or freed, exactly once. */
  lemma RetiredExactlyOnce(run: seq<State>, n: nat, i: nat) returns (e: Entry)
    requires IsRun(run) && n < |run|
    requires i < |run[n].ops| && run[n].ops[i].Linked?
    ensures e.op == i && multiset(run[n].freed)[e] + multiset(run[n].list)[e] == 1
    ensures forall x :: x in run[n].freed + run[n].list && x.op == i ==> x == e
  {
    var lag := run[|run| - 1].now;
    forall m | 0 <= m < |run|
      ensures Prompt(run[m], lag)
    {
      ClockGrows(run, m);
    }
    RunKeeps(run, lag, n);
    var s := run[n];
    assert Logged(s.linked, i);
    var k :| 0 <= k < |s.linked| && s.linked[k].op == i;
    e := s.linked[k];
    CountsOnce(s.linked, k);
    forall x | x in s.freed + s.list && x.op == i
      ensures x == e
    {
      assert x in multiset(s.freed) + multiset(s.list);
      assert x in s.linked;
    }
  }

  lemma CountsOnce(linked: seq<Entry>, k: nat)
    requires LinkedOnce(linked) && k < |linked|
    ensures multiset(linked)[linked[k]] == 1
  {
    var a, b := linked[..k], linked[k + 1..];
    assert linked == a + [linked[k]] + b;
    assert linked[k] !in a && linked[k] !in b;
  }

  // ------------------------------------------------------------ late calls

  lemma Extend(run: seq<State>, s': State, i: nat, a: Action)
    requires IsRun(run) && Step(run[|run| - 1], s', i, a)
    ensures IsRun(run + [s'])
  {
  }

  lemma ExtendPrompt(run: seq<State>, s': State, i: nat, a: Action, lag: nat)
    requires IsRun(run) && PromptRun(run, lag) && Step(run[|run| - 1], s', i, a) && Prompt(s', lag)
    ensures IsRun(run + [s']) && PromptRun(run + [s'], lag)
  {
    Extend(run, s', i, a);
  }

  /** Call 0 has read the clock in second 63 and is `lag` seconds late. */
  lemma LateClock(lag: nat) returns (run: seq<State>)
    requires lag <= 65
    ensures IsRun(run) && PromptRun(run, lag)
    ensures run[|run| - 1] == State(63 + lag, [], 0, 0, [], [], [], [Pushing([], 0, 63)])
  {
    var s0 := State(63, [], 0, 0, [], [], [], []);
    var s1 := s0.(ops := [Loaded([], 0)]);
    var s2 := s0.(ops := [Pushing([], 0, 63)]);
    var s3 := s2.(now := 63 + lag);
    run := [s0];
    ExtendPrompt(run, s1, 0, DoBeginRetire, lag);
    run := run + [s1];
    assert s2.ops == s1.ops[0 := Pushing([], 0, 63)];
    ExtendPrompt(run, s2, 0, DoReadClock, lag);
    run := run + [s2];
    ExtendPrompt(run, s3, 0, DoTick(lag), lag);
    run := run + [s3];
  }

  /** What call 1 does about the empty list in second `now`. */
  function Decision(now: nat): Op {
    if now == 128 then Taking([], 0, now) else Pushing([], 0, now)
  }

  lemma PromptSteps(now: nat, late: Op, s3: State, s4: State, s5: State, s6: State)
    requires 63 <= now <= 128
    requires s3 == State(now, [], 0, 0, [], [], [], [late]) && s4 == s3.(ops := [late, Loaded([], 0)])
    requires s5 == s3.(ops := [late, Decision(now)])
    requires s6 == State(now, [Entry(1, now)], Stamp(now), now, [Entry(1, now)], [], [], [late, Linked])
    ensures Step(s3, s4, 0, DoBeginRetire) && Step(s4, s5, 1, DoReadClock)
    ensures Step(s5, s6, 1, if now == 128 then DoTake else DoPush)
  {
    assert s4.ops == s3.ops + [Loaded([], 0)];
    assert s5.ops == s4.ops[1 := Decision(now)];
    assert s6.ops == s5.ops[1 := Linked];
    assert FreeAll(s5) == s5 && s6 == Link(s5, 1, [], now);
  }

  /** Call 1 then retires its object at once. */
  lemma LateStart(lag: nat) returns (run: seq<State>)
    requires lag <= 65
    ensures IsRun(run) && PromptRun(run, lag)
    ensures var now := 63 + lag;
      run[|run| - 1] == State(now, [Entry(1, now)], Stamp(now), now, [Entry(1, now)], [], [],
                              [Pushing([], 0, 63), Linked])
  {
    var now := 63 + lag;
    var late := Pushing([], 0, 63);
    run := LateClock(lag);
    var s3 := run[|run| - 1];
    var s4 := s3.(ops := [late, Loaded([], 0)]);
    var s5 := s3.(ops := [late, Decision(now)]);
    var s6 := State(now, [Entry(1, now)], Stamp(now), now, [Entry(1, now)], [], [], [late, Linked]);
    PromptSteps(now, late, s3, s4, s5, s6);
    ExtendPrompt(run, s4, 0, DoBeginRetire, lag);
    run := run + [s4];
    ExtendPrompt(run, s5, 1, DoReadClock, lag);
    run := run + [s5];
    ExtendPrompt(run, s6, 1, if now == 128 then DoTake else DoPush, lag);
    run := run + [s6];
  }

  /** Call 0 then links its own object on top, with the stamp of second 63. */
  lemma LateLink(lag: nat) returns (run: seq<State>)
    requires lag <= 65
    ensures IsRun(run) && PromptRun(run, lag)
    ensures var now := 63 + lag;
      run[|run| - 1] == State(now, [Entry(0, now), Entry(1, now)], 0, 63, [Entry(1, now), Entry(0, now)], [], [],
                              [Linked, Linked])
  {
    run := LateStart(lag);
    var now := 63 + lag;
    var s0 := run[|run| - 1];
    var again := Pushing([Entry(1, now)], Stamp(now), 63);
    var s1 := s0.(ops := [again, Linked]);
    var both := [Entry(0, now), Entry(1, now)];
    var s2 := State(now, both, 0, 63, [Entry(1, now), Entry(0, now)], [], [], [Linked, Linked]);
    assert s1.ops == s0.ops[0 := again];
    ExtendPrompt(run, s1, 0, DoPushFails, lag);
    run := run + [s1];
    assert s2.ops == s1.ops[0 := Linked];
    assert s2 == Link(s1, 0, s1.list, 63);
    ExtendPrompt(run, s2, 0, DoPush, lag);
    run := run + [s2];
  }

  /** The gc of second 128 frees both objects, `65 - lag` seconds after they were linked,
    although call 1 was not late at all. */
  lemma LateCallFreesEarly(lag: nat) returns (run: seq<State>)
    requires lag <= 65
    ensures IsRun(run) && PromptRun(run, lag)
    ensures var s := run[|run| - 1];
      s.freed == [Entry(0, 63 + lag), Entry(1, 63 + lag)] && s.when == [128, 128]
  {
    run := LateLink(lag);
    var both := [Entry(0, 63 + lag), Entry(1, 63 + lag)];
    var s0 := run[|run| - 1];
    var s1 := s0.(now := 128);
    var s2 := s1.(ops := [Linked, Linked, GcLoaded(both, 0)]);
    var s3 := s1.(ops := [Linked, Linked, GcTaking(both, 0, 128)]);
    var s4 := s1.(list := [], stamp := 0, freed := both, when := [128, 128], ops := [Linked, Linked, GcDone]);
    ExtendPrompt(run, s1, 0, DoTick(65 - lag), lag);
    run := run + [s1];
    assert s2.ops == s1.ops + [GcLoaded(both, 0)];
    ExtendPrompt(run, s2, 0, DoBeginGc, lag);
    run := run + [s2];
    assert s3.ops == s2.ops[2 := GcTaking(both, 0, 128)];
    ExtendPrompt(run, s3, 2, DoGcClock, lag);
    run := run + [s3];
    assert s4.ops == s3.ops[2 := GcDone];
    assert s4 == FreeAll(s3).(list := [], stamp := 0, ops := s4.ops);
    ExtendPrompt(run, s4, 2, DoGcTake, lag);
    run := run + [s4];
  }

  /** Every freed object was kept for at least `grace` seconds. */
  ghost predicate Kept(s: State, grace: nat) {
    |s.when| == |s.freed| && forall k :: 0 <= k < |s.freed| ==> s.freed[k].at + grace <= s.when[k]
  }

  /** The grace period when calls may be `lag` seconds late. */
  function Grace(lag: nat): nat { if lag <= 65 then 65 - lag else 0 }

  /** It is exact: `grace` seconds are kept in all executions with calls at most `lag`
    seconds late if and only if `grace` is at most 65 - lag. */
  lemma GraceExactly(lag: nat, grace: nat)
    ensures (forall run: seq<State> :: IsRun(run) && PromptRun(run, lag) ==> Kept(run[|run| - 1], grace))
            <==> grace <= Grace(lag)
  {
    if grace <= Grace(lag) {
      forall run: seq<State> | IsRun(run) && PromptRun(run, lag)
        ensures Kept(run[|run| - 1], grace)
      {
        RunKeeps(run, lag, |run| - 1);
      }
    } else {
      var late := if lag <= 65 then lag else 65;
      var run := LateCallFreesEarly(late);
      assert PromptRun(run, lag) by {
        forall m | 0 <= m < |run|
          ensures Prompt(run[m], lag)
        {
          assert Prompt(run[m], late);
        }
      }
      var s := run[|run| - 1];
      assert s.freed[0].at + grace > s.when[0];
      assert !Kept(s, grace);
    }
  }

  /** The promised 64 seconds and more are kept in all executions with calls at most `lag`
    seconds late if and only if `lag` is 0. */
  lemma FullGraceExactly(lag: nat)
    ensures (forall run: seq<State> :: IsRun(run) && PromptRun(run, lag) ==> Kept(run[|run| - 1], UNIT + 1))
            <==> lag == 0
  {
    GraceExactly(lag, UNIT + 1);
  }
}
