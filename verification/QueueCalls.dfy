/** What one whole call of the queue does in an execution: how many elements it moves, which
  tickets it uses and which values it leaves. */
module QueueCalls {
  import opened Tickets
  import opened QueueProtocol
  import opened QueueInvariant
  import opened QueueWakeups
  import opened QueueTheorems

  /** Step `n` is action `acts[n]` of operation `who[n]`. */
  ghost predicate Takes(run: seq<State>, who: seq<nat>, acts: seq<Action>, n: nat) {
    n < |who| && n < |acts| && n + 1 < |run| && Step(run[n], run[n + 1], who[n], acts[n])
  }

  /** An execution with its actions. */
  ghost predicate Labelled(run: seq<State>, who: seq<nat>, acts: seq<Action>) {
    && |run| == |who| + 1 == |acts| + 1 && Init(run[0])
    && forall n :: 0 <= n < |who| ==> Takes(run, who, acts, n)
  }

  lemma LabelledIsRun(run: seq<State>, who: seq<nat>, acts: seq<Action>)
    requires Labelled(run, who, acts)
    ensures IsRun(run)
  {
    forall n | 0 <= n < |run| - 1
      ensures Next(run[n], run[n + 1])
    {
      assert Takes(run, who, acts, n);
    }
  }

  lemma ExtendLabels(run: seq<State>, s': State, who: seq<nat>, acts: seq<Action>, i: nat, a: Action)
    requires Labelled(run, who, acts) && Step(run[|run| - 1], s', i, a)
    ensures Labelled(run + [s'], who + [i], acts + [a])
  {
    forall n | 0 <= n < |who| + 1
      ensures Takes(run + [s'], who + [i], acts + [a], n)
    {
      assert n < |who| ==> Takes(run, who, acts, n);
    }
  }

  ghost predicate NextAt(run: seq<State>, n: nat) {
    n + 1 < |run| && Next(run[n], run[n + 1])
  }

  lemma {:induction false} LabelsUpTo(run: seq<State>, n: nat) returns (who: seq<nat>, acts: seq<Action>)
    requires n < |run| && Init(run[0]) && forall m :: 0 <= m < n ==> NextAt(run, m)
    ensures Labelled(run[..n + 1], who, acts)
  {
    who, acts := [], [];
    if n > 0 {
      who, acts := LabelsUpTo(run, n - 1);
      assert NextAt(run, n - 1);
      var i, a :| Step(run[n - 1], run[n], i, a);
      ExtendLabels(run[..n], run[n], who, acts, i, a);
      who, acts := who + [i], acts + [a];
      assert run[..n + 1] == run[..n] + [run[n]];
    }
  }

  /** Every execution has actions. */
  lemma RunHasLabels(run: seq<State>) returns (who: seq<nat>, acts: seq<Action>)
    requires IsRun(run)
    ensures Labelled(run, who, acts)
  {
    forall m | 0 <= m < |run| - 1
      ensures NextAt(run, m)
    {
      RunNext(run, m);
    }
    who, acts := LabelsUpTo(run, |run| - 1);
    assert run[..|run|] == run;
  }

  /** The values of the callback accesses of operation `i` in the steps [b, n). */
  function Touches(who: seq<nat>, acts: seq<Action>, i: nat, b: nat, n: nat): seq<Value>
    requires n <= |who| == |acts|
  {
    if n <= b then []
    else
      Touches(who, acts, i, b, n - 1) + if who[n - 1] == i && acts[n - 1].DoTouch? then [acts[n - 1].v] else []
  }

  // --------------------------------------------------------- one operation

  predicate SingleOp(op: Op) { op.Miss? || (!op.Idle? && op.single) }

  /** The ticket of the next callback access. */
  function Front(op: Op): nat
    requires !op.Idle?
  {
    match op
    case Try(_, _, _, idx, _, _, _) => idx
    case Miss(_, _, idx) => idx
    case Own(_, _, _, _, lo, hi, _, _, _, pc) =>
      match pc
      case Touch(at) => at
      case Wait(_) => lo
      case Mark(_, _) => lo
      case Block(_, _) => lo
      case Asleep(_) => lo
      case _ => hi
  }

  /** The tickets drawn so far end here. */
  function DrawnTo(op: Op): nat
    requires !op.Idle?
  {
    if op.Own? then op.end else op.idx
  }

  /** How many elements the call still intends to move. */
  function Remaining(op: Op): int {
    match op
    case Idle => 0
    case Miss(_, _, _) => 1
    case Try(_, _, _, idx, _, _, goal) => goal - idx
    case Own(_, _, _, _, _, _, _, goal, _, _) => goal - Front(op)
  }

  /** The call has drawn all its tickets. */
  predicate Sure(op: Op) { op.Own? && op.goal == op.end }

  /** A batch try finds that the index has moved or that its next ticket cannot be served. */
  ghost predicate Short(s: State, op: Op)
    requires Shape(s)
  {
    && op.Try? && !op.single
    && (|| op.idx != |Owners(s, op.kind)|
        || (op.seen < op.num && Unready(s, op.kind, op.idx + op.seen)))
  }

  /** The call may put its thread to sleep. */
  predicate Blocks(op: Op) { op.Own? && op.block }

  /** It is asleep or about to be. */
  predicate Drowsy(op: Op) { op.Own? && (op.pc.Mark? || op.pc.Block? || op.pc.Asleep?) }

  // ------------------------------------------------------------- its steps

  /** Same call, same tickets. */
  ghost predicate Stays(op: Op, op': Op) {
    && (Blocks(op') ==> Blocks(op)) && (Drowsy(op') ==> Drowsy(op) || Blocks(op))
    && !op.Idle? && !op'.Idle? && op'.kind == op.kind && SingleOp(op') == SingleOp(op)
    && Front(op') == Front(op) && DrawnTo(op') == DrawnTo(op) && Remaining(op') == Remaining(op)
    && (Sure(op) ==> Sure(op')) && (op.Own? && op.single ==> op'.Own?)
  }

  ghost predicate TouchesOne(s: State, s': State, i: nat, v: Value)
    requires i < |s.ops| && i < |s'.ops|
  {
    var op, op' := s.ops[i], s'.ops[i];
    && op.Own? && op'.Own? && op'.kind == op.kind && op'.single == op.single
    && op'.block == op.block && !Drowsy(op')
    && Front(op') == Front(op) + 1 <= DrawnTo(op) == DrawnTo(op') && op'.goal == op.goal
    && Front(op) in History(s', op.kind) && (op.kind.Push? ==> s'.pushed[Front(op)] == v)
  }

  /** A single try starts over with the current index. */
  ghost predicate Rereads(s: State, op: Op, op': Op) {
    && (op.Miss? || (op.Try? && op.single && Remaining(op) == 1)) && op'.Try? && op'.single
    && op'.kind == op.kind && op'.idx == |Owners(s, op.kind)| && Remaining(op') == 1
  }

  ghost predicate Draws(s: State, s': State, i: nat, op: Op, op': Op) {
    && op.Try? && op'.Own? && op'.kind == op.kind && op'.single == op.single && !op'.block && !Drowsy(op')
    && op.idx == |Owners(s, op.kind)| && Front(op') == op.idx <= DrawnTo(op') && Remaining(op') == Remaining(op)
    && Owners(s', op.kind) == Owners(s, op.kind) + seq(DrawnTo(op') - op.idx, _ => i)
  }

  ghost predicate Shrinks(s: State, op: Op, op': Op)
    requires Shape(s)
  {
    && Short(s, op) && op'.Try? && op'.kind == op.kind && !op'.single && op'.idx == op.idx
    && Remaining(op') <= Remaining(op)
  }

  /** The call is over: it has moved all it wanted, it is short, or it gives up after a
    failed test because the index has not moved. */
  ghost predicate Finishes(s: State, op: Op)
    requires Shape(s)
  {
    || (op.Own? && Remaining(op) == 0 && Front(op) == op.end)
    || (Short(s, op) && Remaining(op) >= 0)
    || (op.Miss? && op.idx == |Owners(s, op.kind)|)
  }

  ghost predicate CallStep(s: State, s': State, i: nat)
    requires Shape(s) && i < |s.ops| && i < |s'.ops| && !s.ops[i].Idle?
  {
    var op, op' := s.ops[i], s'.ops[i];
    if op'.Idle? then Finishes(s, op)
    else Stays(op, op') || Rereads(s, op, op') || Draws(s, s', i, op, op') || Shrinks(s, op, op')
  }

  lemma NextRunMoves(s: State, op: Op, op': Op)
    requires Shape(s) && op.Own? && RunShape(s.cap, op) && Front(op) == op.hi && op' == NextRun(op.(next := op.hi))
    ensures if op'.Idle? then Finishes(s, op) else Stays(op, op')
  {
  }

  lemma OthersMove(s: State, s': State, j: nat, a: Action, i: nat)
    requires Inv(s) && Step(s, s', j, a) && i != j && i < |s.ops| == |s'.ops| && !s.ops[i].Idle?
    ensures Stays(s.ops[i], s'.ops[i])
  {
    if Early(a) {
      EarlyStepShape(s, s', j, a);
    } else if !a.DoWakeAll? {
      assert s'.ops[i] == s.ops[i];
    }
  }

  lemma CheckMoves(s: State, s': State, i: nat)
    requires Inv(s) && Near(s) && TryCheck(s, s', i)
    ensures CallStep(s, s', i)
  {
    var op, op' := s.ops[i], s'.ops[i];
    assert OpOk(s, op);
    if !op.single && op.idx == |Owners(s, op.kind)| {
      var t := op.idx + op.seen;
      assert AimsAt(s, op, t);
      SameRound(s.cap, op.idx, t);
      TryTestExact(s, i, t);
      if !Ready(s.cap, s.turns, op.kind, t) {
        NotReadyMeans(s, op.kind, t);
      }
    }
  }

  lemma TryMoves(s: State, s': State, i: nat, a: Action)
    requires Inv(s) && Step(s, s', i, a) && (a.DoTryAgain? || a.DoTryCas? || a.DoTryCasFails?)
    ensures CallStep(s, s', i)
  {
    assert OpOk(s, s.ops[i]);
  }

  lemma OnWordMoves(cap: nat, op: Op, at: nat, word: Word)
    requires cap > 0 && op.Own? && Front(op) == op.lo
    ensures Stays(op, OnWord(cap, op, at, word))
  {
  }

  lemma LoadMoves(s: State, s': State, i: nat)
    requires WaitStep(s, s', i) || MarkStep(s, s', i)
    ensures i < |s.ops| == |s'.ops| && Stays(s.ops[i], s'.ops[i])
  {
    var op := s.ops[i];
    OnWordMoves(s.cap, op, op.pc.at, s.words[Place(s.cap, op.lo, op.pc.at)]);
  }

  lemma SleepMoves(s: State, s': State, i: nat)
    requires FutexWait(s, s', i) || SpuriousWake(s, s', i)
    ensures i < |s.ops| == |s'.ops| && Stays(s.ops[i], s'.ops[i])
  {
  }

  lemma TouchMoves(s: State, s': State, i: nat, v: Value)
    requires Inv(s) && TouchStep(s, s', i, v)
    ensures TouchesOne(s, s', i, v)
  {
    assert OpOk(s, s.ops[i]);
  }

  lemma PublishMoves(s: State, s': State, i: nat, a: Action)
    requires Inv(s) && Step(s, s', i, a) && (a.DoStore? || a.DoExchange?)
    ensures CallStep(s, s', i)
  {
    var op := s.ops[i];
    assert OpOk(s, op);
    if op.next + 1 == op.hi {
      NextRunMoves(s, op, NextRun(op.(next := op.hi)));
    }
  }

  lemma AfterWakeMoves(s: State, op: Op)
    requires Shape(s) && op.Own? && OwnShape(s.cap, op) && (op.pc.WakeLoad? || op.pc.WakeCas? || op.pc.WakeAll?)
    ensures var op' := AfterWake(op, op.pc.at); if op'.Idle? then Finishes(s, op) else Stays(op, op')
  {
    assert op == op.(next := op.hi);
    NextRunMoves(s, op, NextRun(op));
  }

  lemma WakeMoves(s: State, s': State, i: nat)
    requires Inv(s) && (WakeLoadStep(s, s', i) || WakeCasStep(s, s', i) || WakeAllStep(s, s', i))
    ensures CallStep(s, s', i)
  {
    assert OpOk(s, s.ops[i]);
    AfterWakeMoves(s, s.ops[i]);
  }

  lemma StepMoves(s: State, s': State, j: nat, a: Action, i: nat)
    requires Inv(s) && Near(s) && Step(s, s', j, a) && i < |s.ops| == |s'.ops| && !s.ops[i].Idle?
    ensures if j == i && a.DoTouch? then TouchesOne(s, s', i, a.v) else CallStep(s, s', i)
  {
    if i != j {
      OthersMove(s, s', j, a, i);
    } else {
      match a {
        case DoBegin(_, _, _, _, _) =>
        case DoBeginTry(_, _, _, _) =>
        case DoTryCheck => CheckMoves(s, s', i);
        case DoTryAgain => TryMoves(s, s', i, a);
        case DoTryCas => TryMoves(s, s', i, a);
        case DoTryCasFails => TryMoves(s, s', i, a);
        case DoWait => LoadMoves(s, s', i);
        case DoMark => LoadMoves(s, s', i);
        case DoFutexWait => SleepMoves(s, s', i);
        case DoSpuriousWake => SleepMoves(s, s', i);
        case DoTouch(v) => TouchMoves(s, s', i, v);
        case DoStore => PublishMoves(s, s', i, a);
        case DoExchange => PublishMoves(s, s', i, a);
        case DoWakeLoad => WakeMoves(s, s', i);
        case DoWakeCas => WakeMoves(s, s', i);
        case DoWakeAll => WakeMoves(s, s', i);
      }
    }
  }

  /** Tickets issued to `i` at this step are those of a successful index swap. */
  ghost predicate Issues(s: State, s': State, i: nat)
    requires i < |s.ops| && i < |s'.ops| && !s.ops[i].Idle?
  {
    && Extends(s, s')
    && forall k, t: nat :: |Owners(s, k)| <= t < |Owners(s', k)| && Owners(s', k)[t] == i ==>
         k == s.ops[i].kind && Draws(s, s', i, s.ops[i], s'.ops[i])
  }

  lemma CasDraws(s: State, s': State, i: nat)
    requires Inv(s) && TryCas(s, s', i)
    ensures i < |s.ops| == |s'.ops| && Draws(s, s', i, s.ops[i], s'.ops[i])
  {
    assert OpOk(s, s.ops[i]);
  }

  lemma CasLogs(s: State, s': State, j: nat, k: Kind, t: nat)
    requires TryCas(s, s', j) && |Owners(s, k)| <= t < |Owners(s', k)|
    ensures Owners(s', k)[t] == j && k == s.ops[j].kind
  {
  }

  lemma CasIssues(s: State, s': State, j: nat, i: nat)
    requires Inv(s) && TryCas(s, s', j) && Extends(s, s') && i < |s.ops| == |s'.ops| && !s.ops[i].Idle?
    ensures Issues(s, s', i)
  {
    CasDraws(s, s', j);
    forall k, t: nat | |Owners(s, k)| <= t < |Owners(s', k)| && Owners(s', k)[t] == i
      ensures k == s.ops[i].kind && Draws(s, s', i, s.ops[i], s'.ops[i])
    {
      CasLogs(s, s', j, k, t);
    }
  }

  lemma BeginIssues(s: State, s': State, j: nat, a: Action, i: nat)
    requires a.DoBegin? && Step(s, s', j, a) && Extends(s, s') && i < |s.ops| && !s.ops[i].Idle?
    ensures Issues(s, s', i)
  {
  }

  lemma StepIssues(s: State, s': State, j: nat, a: Action, i: nat)
    requires Inv(s) && Step(s, s', j, a) && i < |s.ops| == |s'.ops| && !s.ops[i].Idle?
    ensures Issues(s, s', i)
  {
    StepExtends(s, s', j, a);
    if a.DoTryCas? {
      CasIssues(s, s', j, i);
    } else if a.DoBegin? {
      BeginIssues(s, s', j, a, i);
    } else if !a.DoTouch? {
      LogsStay(s, s', j, a);
    }
  }

  // ------------------------------------------------------------ whole calls

  /** Operation `i` is at work in the states after `b` up to `e`. */
  ghost predicate InCall(run: seq<State>, i: nat, b: nat, e: nat) {
    b < e < |run| && forall n :: b < n <= e ==> i < |run[n].ops| && !run[n].ops[i].Idle?
  }

  /** A whole call of operation `i`: it begins with step `b` and ends with step `e`. */
  ghost predicate WholeCall(run: seq<State>, who: seq<nat>, acts: seq<Action>, i: nat, b: nat, e: nat) {
    && Labelled(run, who, acts) && NearRun(run) && e + 1 < |run| && InCall(run, i, b, e)
    && who[b] == i && (acts[b].DoBegin? || acts[b].DoBeginTry?)
    && i < |run[e + 1].ops| && run[e + 1].ops[i].Idle?
  }

  ghost predicate MovesAt(run: seq<State>, who: seq<nat>, acts: seq<Action>, i: nat, n: nat) {
    && n < |who| == |acts| && n + 1 < |run| && i < |run[n].ops| && i < |run[n + 1].ops|
    && !run[n].ops[i].Idle? && Shape(run[n]) && Issues(run[n], run[n + 1], i)
    && if who[n] == i && acts[n].DoTouch? then TouchesOne(run[n], run[n + 1], i, acts[n].v)
       else CallStep(run[n], run[n + 1], i)
  }

  lemma MovesHere(run: seq<State>, who: seq<nat>, acts: seq<Action>, i: nat, n: nat)
    requires Labelled(run, who, acts) && NearRun(run) && n + 1 < |run|
    requires i < |run[n].ops| && !run[n].ops[i].Idle?
    ensures MovesAt(run, who, acts, i, n)
  {
    LabelledIsRun(run, who, acts);
    RunKeeps(run, n);
    RunKeeps(run, n + 1);
    assert Near(run[n]);
    assert Takes(run, who, acts, n);
    StepMoves(run[n], run[n + 1], who[n], acts[n], i);
    StepIssues(run[n], run[n + 1], who[n], acts[n], i);
  }

  /** From the beginning of the call on. */
  ghost predicate Course(run: seq<State>, who: seq<nat>, acts: seq<Action>, i: nat, b: nat, e: nat) {
    && b < e < |run| == |who| + 1 == |acts| + 1 && !acts[b].DoTouch?
    && (forall n :: b < n <= e ==> i < |run[n].ops| && (n < e ==> !run[n].ops[i].Idle?))
    && (forall n :: b < n < e ==> MovesAt(run, who, acts, i, n))
  }

  lemma CallCourse(run: seq<State>, who: seq<nat>, acts: seq<Action>, i: nat, b: nat, e: nat)
    requires WholeCall(run, who, acts, i, b, e)
    ensures Course(run, who, acts, i, b, e + 1)
  {
    forall n | b < n < e + 1
      ensures MovesAt(run, who, acts, i, n)
    {
      MovesHere(run, who, acts, i, n);
    }
  }

  // -------------------------------------------------------- how many elements

  ghost predicate Shortfall(s: State, i: nat) {
    i < |s.ops| && Shape(s) && (Short(s, s.ops[i]) || Missing(s, i))
  }

  /** The call loses none of the elements it wants to move unless it is short. */
  lemma {:induction false} CountAlong(run: seq<State>, who: seq<nat>, acts: seq<Action>, i: nat, b: nat, n: nat)
      returns (m: nat)
    requires Course(run, who, acts, i, b, n)
    ensures |Touches(who, acts, i, b, n)| + Remaining(run[n].ops[i]) <= Remaining(run[b + 1].ops[i])
    ensures |Touches(who, acts, i, b, n)| + Remaining(run[n].ops[i]) < Remaining(run[b + 1].ops[i]) ==>
              b < m < n && Shortfall(run[m], i)
  {
    m := b;
    if n > b + 1 {
      m := CountAlong(run, who, acts, i, b, n - 1);
      assert MovesAt(run, who, acts, i, n - 1);
      if |Touches(who, acts, i, b, n - 1)| + Remaining(run[n - 1].ops[i]) == Remaining(run[b + 1].ops[i]) {
        m := n - 1;
      }
    }
  }

  lemma {:induction false} SureAlong(run: seq<State>, who: seq<nat>, acts: seq<Action>, i: nat, b: nat, n: nat)
    requires Course(run, who, acts, i, b, n) && Sure(run[b + 1].ops[i])
    ensures run[n].ops[i].Idle? || Sure(run[n].ops[i])
    ensures |Touches(who, acts, i, b, n)| + Remaining(run[n].ops[i]) == Remaining(run[b + 1].ops[i])
  {
    if n > b + 1 {
      SureAlong(run, who, acts, i, b, n - 1);
      assert MovesAt(run, who, acts, i, n - 1);
    }
  }

  /** The kind of a call and its mode stay. */
  lemma {:induction false} SameMode(run: seq<State>, who: seq<nat>, acts: seq<Action>, i: nat, b: nat, n: nat)
    requires Course(run, who, acts, i, b, n) && !run[b + 1].ops[i].Idle? && !run[n].ops[i].Idle?
    ensures run[n].ops[i].kind == run[b + 1].ops[i].kind && SingleOp(run[n].ops[i]) == SingleOp(run[b + 1].ops[i])
  {
    if n > b + 1 {
      assert MovesAt(run, who, acts, i, n - 1);
      SameMode(run, who, acts, i, b, n - 1);
    }
  }

  /** What a beginning call wants, and the tickets it has. */
  ghost predicate Begun(s: State, s': State, i: nat, a: Action) {
    && (a.DoBegin? || a.DoBeginTry?) && i < |s.ops| == |s'.ops| && s.ops[i].Idle? && !s'.ops[i].Idle?
    && var op := s'.ops[i];
    && op.kind == a.k && SingleOp(op) == a.single && Remaining(op) == a.num && (a.DoBegin? ==> Sure(op))
    && Front(op) == |Owners(s, a.k)| <= DrawnTo(op) && !op.Miss? && !Drowsy(op)
    && Blocks(op) == (a.DoBegin? && a.block)
    && Owners(s', a.k) == Owners(s, a.k) + seq(DrawnTo(op) - Front(op), _ => i)
  }

  lemma BeginStep(s: State, s': State, i: nat, a: Action)
    requires Step(s, s', i, a) && (a.DoBegin? || a.DoBeginTry?)
    ensures Begun(s, s', i, a)
  {
  }

  lemma CallBegins(run: seq<State>, who: seq<nat>, acts: seq<Action>, i: nat, b: nat, e: nat)
    requires WholeCall(run, who, acts, i, b, e)
    ensures Begun(run[b], run[b + 1], i, acts[b])
  {
    assert Takes(run, who, acts, b);
    BeginStep(run[b], run[b + 1], i, acts[b]);
  }

  lemma {:induction false} AwakeAlong(run: seq<State>, who: seq<nat>, acts: seq<Action>, i: nat, b: nat, n: nat)
    requires Course(run, who, acts, i, b, n) && Begun(run[b], run[b + 1], i, acts[b])
    requires !(acts[b].DoBegin? && acts[b].block)
    ensures !Blocks(run[n].ops[i]) && !Drowsy(run[n].ops[i])
  {
    if n > b + 1 {
      AwakeAlong(run, who, acts, i, b, n - 1);
      assert MovesAt(run, who, acts, i, n - 1);
    }
  }

  /** Only a call that was allowed to sleeps: try calls and calls without futex waiting
    never do. */
  lemma OnlyBlockingSleep(run: seq<State>, who: seq<nat>, acts: seq<Action>, i: nat, b: nat, e: nat, n: nat)
    requires WholeCall(run, who, acts, i, b, e) && b < n <= e && run[n].ops[i].Own? && run[n].ops[i].pc.Asleep?
    ensures acts[b].DoBegin? && acts[b].block
  {
    CallCourse(run, who, acts, i, b, e);
    CallBegins(run, who, acts, i, b, e);
    PartCourse(run, who, acts, i, b, e + 1, n);
    if !(acts[b].DoBegin? && acts[b].block) {
      AwakeAlong(run, who, acts, i, b, n);
    }
  }

  /** push, pop, push_n and pop_n move as many elements as they were asked to. */
  lemma BlockingCall(run: seq<State>, who: seq<nat>, acts: seq<Action>, i: nat, b: nat, e: nat)
    requires WholeCall(run, who, acts, i, b, e) && acts[b].DoBegin?
    ensures |Touches(who, acts, i, b, e + 1)| == acts[b].num
  {
    CallCourse(run, who, acts, i, b, e);
    CallBegins(run, who, acts, i, b, e);
    SureAlong(run, who, acts, i, b, e + 1);
  }

  /** The failed test of a single try lies in the call. */
  lemma MissedInCall(run: seq<State>, i: nat, b: nat, n: nat) returns (m: nat)
    requires IsRun(run) && NearRun(run) && b < n < |run| && Missing(run[n], i)
    requires i < |run[b].ops| && run[b].ops[i].Idle?
    ensures b < m < n && i < |run[m].ops| && Shape(run[m]) && run[m].ops[i].Try?
    ensures NothingToTake(run[m], run[n].ops[i].kind, run[n].ops[i].idx)
  {
    m := FailedTry(run, n, i);
  }

  /** Why a try call falls short. */
  ghost predicate Reason(s: State, i: nat, k: Kind, single: bool) {
    && i < |s.ops| && Shape(s) && !s.ops[i].Idle?
    && if single then NothingToTake(s, k, |Owners(s, k)|) else s.ops[i].kind == k && Short(s, s.ops[i])
  }

  lemma ShortfallMeans(run: seq<State>, who: seq<nat>, acts: seq<Action>, i: nat, b: nat, n: nat) returns (m: nat)
    requires Labelled(run, who, acts) && NearRun(run) && Course(run, who, acts, i, b, n) && Shortfall(run[n], i)
    requires Begun(run[b], run[b + 1], i, acts[b])
    ensures b < m <= n && Reason(run[m], i, acts[b].k, acts[b].single)
  {
    m := n;
    SameMode(run, who, acts, i, b, n);
    if run[n].ops[i].Miss? {
      LabelledIsRun(run, who, acts);
      m := MissedInCall(run, i, b, n);
    }
  }

  /** A try call moves as many elements as it was asked to, or it was short at an instant `m`
    of the call: try_push and try_pop found that the next ticket of the queue could not be
    served; try_push_n and try_pop_n found this of their own next ticket, or that the
    index had moved on. */
  lemma TryCall(run: seq<State>, who: seq<nat>, acts: seq<Action>, i: nat, b: nat, e: nat) returns (m: nat)
    requires WholeCall(run, who, acts, i, b, e) && acts[b].DoBeginTry?
    ensures |Touches(who, acts, i, b, e + 1)| <= acts[b].num
    ensures |Touches(who, acts, i, b, e + 1)| < acts[b].num ==>
              b < m <= e && Reason(run[m], i, acts[b].k, acts[b].single)
  {
    CallCourse(run, who, acts, i, b, e);
    CallBegins(run, who, acts, i, b, e);
    m := CountAlong(run, who, acts, i, b, e + 1);
    if |Touches(who, acts, i, b, e + 1)| < acts[b].num {
      PartCourse(run, who, acts, i, b, e + 1, m);
      m := ShortfallMeans(run, who, acts, i, b, m);
    }
  }

  lemma PartCourse(run: seq<State>, who: seq<nat>, acts: seq<Action>, i: nat, b: nat, e: nat, n: nat)
    requires Course(run, who, acts, i, b, e) && b < n <= e
    ensures Course(run, who, acts, i, b, n)
  {
  }

  // ------------------------------------------------- which tickets and values

  /** The tickets issued to operation `i` since `s0`, and what its accesses `w` have done
    with them: the first |w| are recorded, in order. */
  ghost predicate Ledger(s0: State, s: State, i: nat, k: Kind, w: seq<Value>) {
    && i < |s.ops| && !s.ops[i].Idle? && s.ops[i].kind == k && |Owners(s0, k)| <= |Owners(s, k)|
    && var op := s.ops[i];
    && |Owners(s0, k)| <= Front(op) - |w| && Front(op) <= DrawnTo(op) <= |Owners(s, k)|
    && (SingleOp(op) && !op.Own? ==> w == [])
    && (forall t :: |Owners(s0, k)| <= t < |Owners(s, k)| ==>
          (Owners(s, k)[t] == i <==> Front(op) - |w| <= t < DrawnTo(op)))
    && Written(s, k, Front(op) - |w|, w)
  }

  /** Ticket `t` is recorded, a push with value `v`. */
  ghost predicate Kept(s: State, k: Kind, t: int, v: Value) {
    t in History(s, k) && (k.Push? ==> s.pushed[t] == v)
  }

  ghost predicate Written(s: State, k: Kind, base: int, w: seq<Value>) {
    forall j :: 0 <= j < |w| ==> Kept(s, k, base + j, w[j])
  }

  lemma LedgerStarts(s: State, s': State, i: nat, a: Action)
    requires Begun(s, s', i, a)
    ensures Ledger(s, s', i, a.k, [])
  {
  }

  lemma LedgerTouch(s0: State, s: State, s': State, i: nat, k: Kind, w: seq<Value>, v: Value)
    requires Ledger(s0, s, i, k, w) && i < |s'.ops| && Issues(s, s', i) && TouchesOne(s, s', i, v)
    ensures Ledger(s0, s', i, k, w + [v])
  {
  }

  lemma LedgerStep(s0: State, s: State, s': State, i: nat, k: Kind, w: seq<Value>)
    requires Shape(s) && Ledger(s0, s, i, k, w) && i < |s'.ops| && Issues(s, s', i) && CallStep(s, s', i)
    requires !s'.ops[i].Idle?
    ensures Ledger(s0, s', i, k, w)
  {
  }

  lemma LedgerMoves(run: seq<State>, who: seq<nat>, acts: seq<Action>, i: nat, b: nat, n: nat, s0: State, k: Kind)
    requires b + 1 < n && MovesAt(run, who, acts, i, n - 1) && !run[n].ops[i].Idle?
    requires Ledger(s0, run[n - 1], i, k, Touches(who, acts, i, b, n - 1))
    ensures Ledger(s0, run[n], i, k, Touches(who, acts, i, b, n))
  {
    var w := Touches(who, acts, i, b, n - 1);
    if who[n - 1] == i && acts[n - 1].DoTouch? {
      assert Touches(who, acts, i, b, n) == w + [acts[n - 1].v];
      LedgerTouch(s0, run[n - 1], run[n], i, k, w, acts[n - 1].v);
    } else {
      assert Touches(who, acts, i, b, n) == w;
      LedgerStep(s0, run[n - 1], run[n], i, k, w);
    }
  }

  /** The ledger at state `n`, or the call is over. */
  ghost predicate LedgerAt(
    run: seq<State>, who: seq<nat>, acts: seq<Action>, i: nat, b: nat, n: nat, s0: State, k: Kind)
  {
    && n < |run| == |who| + 1 == |acts| + 1 && i < |run[n].ops|
    && (!run[n].ops[i].Idle? ==> Ledger(s0, run[n], i, k, Touches(who, acts, i, b, n)))
  }

  lemma LedgerNext(run: seq<State>, who: seq<nat>, acts: seq<Action>, i: nat, b: nat, n: nat, s0: State, k: Kind)
    requires |run| == |who| + 1 == |acts| + 1 && b + 1 < n && MovesAt(run, who, acts, i, n - 1)
    requires LedgerAt(run, who, acts, i, b, n - 1, s0, k)
    ensures LedgerAt(run, who, acts, i, b, n, s0, k)
  {
    if !run[n].ops[i].Idle? {
      LedgerMoves(run, who, acts, i, b, n, s0, k);
    }
  }

  lemma {:induction false} Induct(P: int -> bool, lo: int, hi: int)
    requires lo <= hi && P(lo) && forall m :: lo < m <= hi && P(m - 1) ==> P(m)
    ensures P(hi)
    decreases hi - lo
  {
    if lo < hi {
      Induct(P, lo, hi - 1);
    }
  }

  lemma LedgerFirst(run: seq<State>, who: seq<nat>, acts: seq<Action>, i: nat, b: nat)
    requires b < |who| == |acts| && b + 1 < |run| && Begun(run[b], run[b + 1], i, acts[b])
    ensures Ledger(run[b], run[b + 1], i, acts[b].k, Touches(who, acts, i, b, b + 1))
  {
    LedgerStarts(run[b], run[b + 1], i, acts[b]);
    assert Touches(who, acts, i, b, b + 1) == Touches(who, acts, i, b, b) == [];
  }

  lemma LedgerAlong(run: seq<State>, who: seq<nat>, acts: seq<Action>, i: nat, b: nat, n: nat, s0: State, k: Kind)
    requires Course(run, who, acts, i, b, n)
    requires LedgerAt(run, who, acts, i, b, b + 1, s0, k)
    ensures LedgerAt(run, who, acts, i, b, n, s0, k)
  {
    var P := m => m >= 0 && LedgerAt(run, who, acts, i, b, m, s0, k);
    forall m | b + 1 < m <= n && P(m - 1)
      ensures P(m)
    {
      assert MovesAt(run, who, acts, i, m - 1);
      LedgerNext(run, who, acts, i, b, m, s0, k);
    }
    Induct(P, b + 1, n);
  }

  /** The tickets that a finished call drew since `s0`: consecutive ones from `base`, one
    for each of its accesses `w`, all complete and recorded in order. */
  ghost predicate Settled(s0: State, s: State, i: nat, k: Kind, base: nat, w: seq<Value>) {
    && Shape(s) && |Owners(s0, k)| <= base && base + |w| <= |Owners(s, k)|
    && (forall t :: |Owners(s0, k)| <= t < |Owners(s, k)| ==>
          (Owners(s, k)[t] == i <==> base <= t < base + |w|))
    && Written(s, k, base, w) && (forall t: nat :: base <= t < base + |w| ==> !Open(s.cap, s.turns, k, t))
  }

  /** All tickets of operation `i` are complete. */
  ghost predicate Passed(s: State, i: nat, k: Kind) {
    Shape(s) && forall t: nat :: Drawn(Owners(s, k), t, i) ==> !Open(s.cap, s.turns, k, t)
  }

  lemma IdlePassed(s: State, i: nat, k: Kind)
    requires Inv(s) && i < |s.ops| && s.ops[i].Idle?
    ensures Passed(s, i, k)
  {
    forall t: nat | Drawn(Owners(s, k), t, i)
      ensures !Open(s.cap, s.turns, k, t)
    {
      assert Progress(s, k, t);
    }
  }

  lemma LedgerCloses(s0: State, s: State, s': State, i: nat, k: Kind, w: seq<Value>)
    requires Shape(s) && Ledger(s0, s, i, k, w) && i < |s'.ops| && Issues(s, s', i) && CallStep(s, s', i)
    requires Passed(s', i, k) && s'.ops[i].Idle?
    ensures Settled(s0, s', i, k, Front(s.ops[i]) - |w|, w)
  {
    var base := Front(s.ops[i]) - |w|;
    forall t: nat | base <= t < base + |w|
      ensures !Open(s'.cap, s'.turns, k, t)
    {
      assert Drawn(Owners(s', k), t, i);
    }
  }

  lemma LedgerEnds(run: seq<State>, who: seq<nat>, acts: seq<Action>, i: nat, b: nat, e: nat, s0: State, k: Kind)
      returns (base: nat)
    requires b < e && MovesAt(run, who, acts, i, e) && run[e + 1].ops[i].Idle? && Passed(run[e + 1], i, k)
    requires Ledger(s0, run[e], i, k, Touches(who, acts, i, b, e))
    ensures Settled(s0, run[e + 1], i, k, base, Touches(who, acts, i, b, e + 1))
  {
    EndsUntouched(run, who, acts, i, b, e);
    var w := Touches(who, acts, i, b, e);
    base := Front(run[e].ops[i]) - |w|;
    LedgerCloses(s0, run[e], run[e + 1], i, k, w);
  }

  lemma SettledAfter(run: seq<State>, who: seq<nat>, acts: seq<Action>, i: nat, b: nat, e: nat) returns (base: nat)
    requires b < e && Course(run, who, acts, i, b, e + 1) && Begun(run[b], run[b + 1], i, acts[b])
    requires Passed(run[e + 1], i, acts[b].k) && run[e + 1].ops[i].Idle?
    ensures Settled(run[b], run[e + 1], i, acts[b].k, base, Touches(who, acts, i, b, e + 1))
  {
    LedgerFirst(run, who, acts, i, b);
    PartCourse(run, who, acts, i, b, e + 1, e);
    LedgerAlong(run, who, acts, i, b, e, run[b], acts[b].k);
    assert MovesAt(run, who, acts, i, e);
    base := LedgerEnds(run, who, acts, i, b, e, run[b], acts[b].k);
  }

  /** A call leaves exactly one ticket for each element it moved; they are consecutive, all
    complete, and a push call has left its values there in the order of its accesses. */
  lemma CallTickets(run: seq<State>, who: seq<nat>, acts: seq<Action>, i: nat, b: nat, e: nat) returns (base: nat)
    requires WholeCall(run, who, acts, i, b, e)
    ensures Settled(run[b], run[e + 1], i, acts[b].k, base, Touches(who, acts, i, b, e + 1))
  {
    CallCourse(run, who, acts, i, b, e);
    CallBegins(run, who, acts, i, b, e);
    CallInv(run, who, acts, e + 1);
    IdlePassed(run[e + 1], i, acts[b].k);
    base := SettledAfter(run, who, acts, i, b, e);
  }

  lemma EndsUntouched(run: seq<State>, who: seq<nat>, acts: seq<Action>, i: nat, b: nat, e: nat)
    requires b < e && MovesAt(run, who, acts, i, e) && run[e + 1].ops[i].Idle?
    ensures Touches(who, acts, i, b, e + 1) == Touches(who, acts, i, b, e) && CallStep(run[e], run[e + 1], i)
  {
  }

  lemma CallInv(run: seq<State>, who: seq<nat>, acts: seq<Action>, n: nat)
    requires Labelled(run, who, acts) && NearRun(run) && n < |run|
    ensures Inv(run[n])
  {
    LabelledIsRun(run, who, acts);
    RunKeeps(run, n);
  }
}
