/** The scheduler calls broken into their single accesses to the shared structures, each call up to its last post. */
module MicroCode {
  import opened Options
  import opened ReadyQueue
  import opened WaitList
  import opened Sequences
  import opened SchedulerSpec

  /** What a call wants the caller's record for. */
  datatype Purpose = ForFork(child: Tid) | ForExec | ForWait(event: nat) | ForSignal(event: nat)

  /** Where a thread is inside a call, with the call's local variables. */
  datatype Code =
    // the lookup of the running thread's record
    | ReadRunning(purpose: Purpose)
    | FindRecord(t: Tid, purpose: Purpose)
    // so_fork, from the moment the new thread exists
    | ForkAppend(child: Tid, priority: nat)
    | ForkPush(child: Tid, priority: nat)
    | ForkPut(child: Tid, priority: nat)
    | ForkBranch(child: Tid)
    | ForkCharge(self: Tid, child: Tid)
    | ForkTest(self: Tid, child: Tid)
    | ForkPeek(self: Tid, child: Tid)
    | ForkCompare(head: PQData, self: Tid, child: Tid)
    | PreemptFind(head: PQData, self: Tid, child: Tid)
    | PreemptSetRunning(head: PQData, self: Tid, child: Tid)
    | PreemptPop(next: Tid, self: Tid, child: Tid)
    | PreemptPush(next: Tid, self: Tid, child: Tid)
    | FirstMark(child: Tid)
    | FirstPeek(child: Tid)
    | FirstSetRunning(head: PQData, child: Tid)
    | FirstPop(child: Tid)
    // so_exec
    | ExecEnter
    | ExecCharge(self: Tid)
    | ExecTest(self: Tid)
    // set_fastest_thread_after_quantum
    | Refill(self: Tid, ret: int)
    | Requeue(self: Tid, ret: int)
    // so_wait
    | WaitEnter(event: nat)
    | WaitAppend(self: Tid, event: nat)
    | WaitTest(self: Tid)
    // so_signal
    | SignalEnter(event: nat)
    | SignalCheck(event: nat)
    | SignalPush(self: Tid, event: nat)
    | SignalLoop(self: Tid, event: nat, count: nat)
    | SignalWake(self: Tid, event: nat, count: nat, woken: Waiter)
    // the end of start_thread
    | ExitTest
    // the common hand-over: look at the head, find its record, make it the running thread, take it off the queue
    | Peek(andThen: Then)
    | FindHead(head: PQData, andThen: Then)
    | SetRunning(head: PQData, andThen: Then)
    | PopHead(next: Tid, andThen: Then)
    // the accesses are over; what is left is to post, if there is somebody, and to go on
    | Stop(post: Option<Tid>, andThen: Then)
    | Fail

  function Entry(op: Op): Code {
    match op
    case Exec => ExecEnter
    case Fork(hasFunc, priority, child) =>
      if ValidFork(hasFunc, priority) then ForkAppend(child, priority) else Stop(None, Return(INVALID_TID))
    case Wait(event) => WaitEnter(event)
    case Signal(event) => SignalEnter(event)
    case Exit => ExitTest
  }

  predicate Over(c: Code) {
    c.Stop? || c.Fail?
  }

  predicate InLookup(c: Code) {
    c.ReadRunning? || c.FindRecord?
  }

  function NextLookup(s: Sched, c: Code): (Sched, Code)
    requires InLookup(c)
  {
    match c
    case ReadRunning(purpose) => (s, FindRecord(s.running.tid, purpose))
    case FindRecord(t, purpose) => if t in s.params then (s, Found(t, purpose)) else (s, Fail)
  }

  function Found(self: Tid, purpose: Purpose): Code {
    match purpose
    case ForFork(child) => ForkCharge(self, child)
    case ForExec => ExecCharge(self)
    case ForWait(event) => WaitAppend(self, event)
    case ForSignal(event) => SignalPush(self, event)
  }

  predicate InFork(c: Code) {
    || c.ForkAppend? || c.ForkPush? || c.ForkPut? || c.ForkBranch? || c.ForkCharge? || c.ForkTest?
    || c.ForkPeek? || c.ForkCompare? || c.PreemptFind? || c.PreemptSetRunning? || c.PreemptPop? || c.PreemptPush?
    || c.FirstMark? || c.FirstPeek? || c.FirstSetRunning? || c.FirstPop?
  }

  function NextFork(s: Sched, c: Code): (Sched, Code)
    requires InFork(c)
  {
    match c
    case ForkAppend(child, priority) => (s.(created := s.created + [child]), ForkPush(child, priority))
    case ForkPush(child, priority) => (s.(ready := Push(s.ready, PQData(child, priority))), ForkPut(child, priority))
    case ForkPut(child, priority) =>
      if child in s.params then (s, Fail)
      else (s.(params := s.params[child := Param(priority, s.q)]), ForkBranch(child))
    case ForkBranch(child) => (s, if s.started then ReadRunning(ForFork(child)) else FirstMark(child))
    case ForkCharge(self, child) =>
      if self !in s.params then (s, Fail)
      else (SetQuantum(s, self, Dec(s.params[self].quantum)), ForkTest(self, child))
    case ForkTest(self, child) =>
      if self !in s.params then (s, Fail)
      else (s, if s.params[self].quantum == 0 then Refill(self, child) else ForkPeek(self, child))
    case ForkPeek(self, child) =>
      (s, if s.ready == [] then Stop(None, Return(child)) else ForkCompare(s.ready[0], self, child))
    case ForkCompare(head, self, child) =>
      (s, if head.priority > s.running.priority then PreemptFind(head, self, child) else Stop(None, Return(child)))
    case PreemptFind(head, self, child) =>
      (s, if head.tid in s.params then PreemptSetRunning(head, self, child) else Fail)
    case PreemptSetRunning(head, self, child) => (s.(running := head), PreemptPop(head.tid, self, child))
    case PreemptPop(next, self, child) =>
      (s.(ready := if s.ready == [] then [] else s.ready[1..]), PreemptPush(next, self, child))
    case PreemptPush(next, self, child) =>
      if self !in s.params then (s, Fail)
      else (s.(ready := Push(s.ready, Own(s, self))), Stop(Some(next), Sleep(self, child)))
    case FirstMark(child) => (s.(started := true), FirstPeek(child))
    case FirstPeek(child) => (s, if s.ready == [] then Fail else FirstSetRunning(s.ready[0], child))
    case FirstSetRunning(head, child) => (s.(running := head), FirstPop(child))
    case FirstPop(child) =>
      (s.(ready := if s.ready == [] then [] else s.ready[1..]), Stop(Some(child), Launched(child)))
  }

  predicate InExec(c: Code) {
    || c.ExecEnter? || c.ExecCharge? || c.ExecTest? || c.Refill? || c.Requeue?
  }

  function NextExec(s: Sched, c: Code): (Sched, Code)
    requires InExec(c)
  {
    match c
    case ExecEnter =>
      (s, if s.started then ReadRunning(ForExec) else Stop(None, Return(0)))
    case ExecCharge(self) =>
      if self !in s.params then (s, Fail)
      else (SetQuantum(s, self, Dec(s.params[self].quantum)), ExecTest(self))
    case ExecTest(self) =>
      if self !in s.params then (s, Fail)
      else (s, if s.params[self].quantum == 0 then Refill(self, 0) else Stop(None, Return(0)))
    case Refill(self, ret) =>
      if self !in s.params then (s, Fail) else (SetQuantum(s, self, s.q), Requeue(self, ret))
    case Requeue(self, ret) =>
      if self !in s.params then (s, Fail)
      else (s.(ready := Push(s.ready, Own(s, self))), Peek(Sleep(self, ret)))
  }

  predicate InWait(c: Code) {
    || c.WaitEnter? || c.WaitAppend? || c.WaitTest?
  }

  function NextWait(s: Sched, c: Code): (Sched, Code)
    requires InWait(c)
  {
    match c
    case WaitEnter(event) =>
      if !s.started then (s, Stop(None, Return(0)))
      else (s, if event < s.io then ReadRunning(ForWait(event)) else Stop(None, Return(-1)))
    case WaitAppend(self, event) =>
      if self !in s.params then (s, Fail)
      else (s.(waiting := s.waiting + [Waiter(self, s.params[self].priority, event)]), WaitTest(self))
    case WaitTest(self) =>
      (s, if s.ready == [] then Stop(None, Sleep(self, 0)) else Peek(Sleep(self, 0)))
  }

  predicate InSignal(c: Code) {
    || c.SignalEnter? || c.SignalCheck? || c.SignalPush? || c.SignalLoop? || c.SignalWake?
  }

  function NextSignal(s: Sched, c: Code): (Sched, Code)
    requires InSignal(c)
  {
    match c
    case SignalEnter(event) =>
      if event >= s.io then (s, Stop(None, Return(-1)))
      else (s, if s.started then SignalCheck(event) else Stop(None, Return(0)))
    case SignalCheck(event) =>
      (s, if s.waiting == [] then Stop(None, Return(0)) else ReadRunning(ForSignal(event)))
    case SignalPush(self, event) =>
      if self !in s.params then (s, Fail)
      else (s.(ready := Push(s.ready, Own(s, self))), SignalLoop(self, event, 0))
    case SignalLoop(self, event, count) =>
      var k := FirstFor(s.waiting, event);
      if k == |s.waiting| then (s, Peek(Sleep(self, count)))
      else (s.(waiting := Drop(s.waiting, k)), SignalWake(self, event, count, s.waiting[k]))
    case SignalWake(self, event, count, woken) =>
      (s.(ready := Push(s.ready, PQData(woken.tid, woken.priority))), SignalLoop(self, event, count + 1))
  }

  predicate InLeave(c: Code) {
    || c.ExitTest? || c.Peek? || c.FindHead? || c.SetRunning? || c.PopHead?
  }

  function NextLeave(s: Sched, c: Code): (Sched, Code)
    requires InLeave(c)
  {
    match c
    case ExitTest => (s, if s.ready == [] then Stop(None, Finished) else Peek(Finished))
    case Peek(andThen) =>
      (s, if s.ready == [] then Fail else FindHead(s.ready[0], andThen))
    case FindHead(head, andThen) => (s, if head.tid in s.params then SetRunning(head, andThen) else Fail)
    case SetRunning(head, andThen) => (s.(running := head), PopHead(head.tid, andThen))
    case PopHead(next, andThen) =>
      (s.(ready := if s.ready == [] then [] else s.ready[1..]), Stop(Some(next), andThen))
  }

  /** One access: a lookup, a test, an insertion, a removal or an update in one structure or one record. A null
      dereference fails. */
  function Next(s: Sched, c: Code): (Sched, Code)
    requires !Over(c)
  {
    if InLookup(c) then NextLookup(s, c)
    else if InFork(c) then NextFork(s, c)
    else if InExec(c) then NextExec(s, c)
    else if InWait(c) then NextWait(s, c)
    else if InSignal(c) then NextSignal(s, c)
    else NextLeave(s, c)
  }

  function Rank(c: Code): (r: nat)
    ensures r <= 14
  {
    match c
    case ForkAppend(_, _) => 14
    case ForkPush(_, _) => 13
    case ForkPut(_, _) | SignalEnter(_) => 12
    case ForkBranch(_) | ExecEnter | WaitEnter(_) | SignalCheck(_) => 11
    case ReadRunning(_) => 10
    case FindRecord(_, _) => 9
    case ForkCharge(_, _) | ExecCharge(_) | WaitAppend(_, _) => 8
    case ForkTest(_, _) | ExecTest(_) => 7
    case ForkPeek(_, _) | Refill(_, _) | SignalPush(_, _) | SignalWake(_, _, _, _) => 6
    case ForkCompare(_, _, _) | Requeue(_, _) | WaitTest(_) | SignalLoop(_, _, _) | ExitTest => 5
    case PreemptFind(_, _, _) | FirstMark(_) | Peek(_) => 4
    case PreemptSetRunning(_, _, _) | FirstPeek(_) | FindHead(_, _) => 3
    case PreemptPop(_, _, _) | FirstSetRunning(_, _) | SetRunning(_, _) => 2
    case PreemptPush(_, _, _) | FirstPop(_) | PopHead(_, _) => 1
    case Stop(_, _) | Fail => 0
  }

  /** Bounds the accesses left in a call; a waiter counts for the two accesses that wake it. */
  function Measure(s: Sched, c: Code): nat {
    Rank(c) + 2 * |s.waiting|
  }

  lemma NextLookupDecreases(s: Sched, c: Code)
    requires InLookup(c)
    ensures var (s', c') := NextLookup(s, c); Measure(s', c') < Measure(s, c)
  {
  }

  lemma NextForkDecreases(s: Sched, c: Code)
    requires InFork(c)
    ensures var (s', c') := NextFork(s, c); Measure(s', c') < Measure(s, c)
  {
    hide Push;
  }

  lemma NextExecDecreases(s: Sched, c: Code)
    requires InExec(c)
    ensures var (s', c') := NextExec(s, c); Measure(s', c') < Measure(s, c)
  {
    hide Push;
  }

  lemma NextWaitDecreases(s: Sched, c: Code)
    requires InWait(c)
    ensures var (s', c') := NextWait(s, c); Measure(s', c') < Measure(s, c)
  {
    hide Push;
  }

  lemma NextSignalDecreases(s: Sched, c: Code)
    requires InSignal(c)
    ensures var (s', c') := NextSignal(s, c); Measure(s', c') < Measure(s, c)
  {
    hide Push, Drop;
  }

  lemma NextLeaveDecreases(s: Sched, c: Code)
    requires InLeave(c)
    ensures var (s', c') := NextLeave(s, c); Measure(s', c') < Measure(s, c)
  {
    hide Push;
  }

  lemma NextDecreases(s: Sched, c: Code)
    requires !Over(c)
    ensures var (s', c') := Next(s, c); Measure(s', c') < Measure(s, c)
  {
    hide Push, NextLookup, NextFork, NextExec, NextWait, NextSignal, NextLeave, Measure;
    if InLookup(c) {
      NextLookupDecreases(s, c);
    } else if InFork(c) {
      NextForkDecreases(s, c);
    } else if InExec(c) {
      NextExecDecreases(s, c);
    } else if InWait(c) {
      NextWaitDecreases(s, c);
    } else if InSignal(c) {
      NextSignalDecreases(s, c);
    } else {
      NextLeaveDecreases(s, c);
    }
  }

  /** What the call does if it is left to run to its end undisturbed. */
  function Finish(s: Sched, c: Code): Outcome
    decreases Measure(s, c)
  {
    match c
    case Stop(post, andThen) => Outcome(s, post, andThen)
    case Fail => Crash
    case _ =>
      NextDecreases(s, c);
      var (s', c') := Next(s, c);
      Finish(s', c')
  }

  // ---------- Run to the end, the accesses make the atomic call ----------

  /** One unfolding of Finish, for the chains below. */
  lemma Advance(s: Sched, c: Code, s': Sched, c': Code)
    requires !Over(c) && Next(s, c) == (s', c')
    ensures Finish(s, c) == Finish(s', c')
  {
  }

  lemma Halt(s: Sched, post: Option<Tid>, andThen: Then)
    ensures Finish(s, Stop(post, andThen)) == Outcome(s, post, andThen)
    ensures Finish(s, Fail) == Crash
  {
  }

  /** A call whose first access ends it. */
  lemma EndsAtOnce(s: Sched, c: Code)
    requires !Over(c) && Over(Next(s, c).1)
    ensures var (s', c') := Next(s, c);
            Finish(s, c) == if c'.Fail? then Crash else Outcome(s', c'.post, c'.andThen)
  {
  }

  /** The lookup of the running thread's record finds it, or ends in a null dereference. */
  lemma FinishLookup(s: Sched, purpose: Purpose)
    ensures Finish(s, ReadRunning(purpose)) ==
            if s.running.tid in s.params then Finish(s, Found(s.running.tid, purpose)) else Crash
  {
    hide Finish;
    var t := s.running.tid;
    Advance(s, ReadRunning(purpose), s, FindRecord(t, purpose));
    if t in s.params {
      Advance(s, FindRecord(t, purpose), s, Found(t, purpose));
    } else {
      EndsAtOnce(s, FindRecord(t, purpose));
    }
  }

  lemma FinishHead(s: Sched, andThen: Then)
    requires s.ready != []
    ensures Finish(s, SetRunning(s.ready[0], andThen)) ==
            Outcome(s.(running := s.ready[0], ready := s.ready[1..]), Some(s.ready[0].tid), andThen)
  {
    hide Finish, Push, NextLookup, NextFork, NextExec, NextWait, NextSignal;
    var head, s1 := s.ready[0], s.(running := s.ready[0]);
    Advance(s, SetRunning(head, andThen), s1, PopHead(head.tid, andThen));
    EndsAtOnce(s1, PopHead(head.tid, andThen));
  }

  lemma FinishPeek(s: Sched, andThen: Then)
    ensures Finish(s, Peek(andThen)) == Dispatch(s, andThen)
  {
    hide Finish, Push, NextLookup, NextFork, NextExec, NextWait, NextSignal;
    if s.ready != [] {
      var head := s.ready[0];
      Advance(s, Peek(andThen), s, FindHead(head, andThen));
      if head.tid in s.params {
        Advance(s, FindHead(head, andThen), s, SetRunning(head, andThen));
        FinishHead(s, andThen);
      } else {
        EndsAtOnce(s, FindHead(head, andThen));
      }
    } else {
      EndsAtOnce(s, Peek(andThen));
    }
  }

  lemma FinishRefill(s: Sched, self: Tid, ret: int)
    requires self in s.params
    ensures Finish(s, Refill(self, ret)) == Expire(s, self, ret)
  {
    hide Finish, Push, NextFork, NextWait, NextSignal;
    var s1 := SetQuantum(s, self, s.q);
    var s2 := s1.(ready := Push(s1.ready, Own(s1, self)));
    Advance(s, Refill(self, ret), s1, Requeue(self, ret));
    Advance(s1, Requeue(self, ret), s2, Peek(Sleep(self, ret)));
    FinishPeek(s2, Sleep(self, ret));
  }

  lemma FinishExec(s: Sched)
    ensures Finish(s, ExecEnter) == ExecSpec(s)
  {
    hide Finish, Push;
    if s.started {
      Advance(s, ExecEnter, s, ReadRunning(ForExec));
      FinishLookup(s, ForExec);
      if s.running.tid in s.params {
        var self, s1 := s.running.tid, Charge(s);
        Advance(s, ExecCharge(self), s1, ExecTest(self));
        if s1.params[self].quantum == 0 {
          Advance(s1, ExecTest(self), s1, Refill(self, 0));
          FinishRefill(s1, self, 0);
        } else {
          EndsAtOnce(s1, ExecTest(self));
        }
      }
    } else {
      EndsAtOnce(s, ExecEnter);
    }
  }

  lemma FinishWait(s: Sched, event: nat)
    ensures Finish(s, WaitEnter(event)) == WaitSpec(s, event)
  {
    hide Finish, Push;
    if s.started && event < s.io {
      Advance(s, WaitEnter(event), s, ReadRunning(ForWait(event)));
      FinishLookup(s, ForWait(event));
      if s.running.tid in s.params {
        var self := s.running.tid;
        var s1 := s.(waiting := s.waiting + [Waiter(self, s.params[self].priority, event)]);
        Advance(s, WaitAppend(self, event), s1, WaitTest(self));
        if s1.ready != [] {
          Advance(s1, WaitTest(self), s1, Peek(Sleep(self, 0)));
          FinishPeek(s1, Sleep(self, 0));
        } else {
          EndsAtOnce(s1, WaitTest(self));
        }
      }
    } else {
      EndsAtOnce(s, WaitEnter(event));
    }
  }

  /** The waking loop takes the waiters for the event one by one, in waiting order. */
  lemma {:induction false} FinishLoop(s: Sched, self: Tid, event: nat, count: nat)
    ensures var woken := Woken(s.waiting, event);
            Finish(s, SignalLoop(self, event, count)) ==
            Dispatch(s.(ready := PushAll(s.ready, woken), waiting := Others(s.waiting, event)),
                     Sleep(self, count + |woken|))
    decreases |s.waiting|
  {
    hide Finish, Dispatch, Push, Woken, Others;
    var k := FirstFor(s.waiting, event);
    TakeFirst(s.waiting, event);
    if k == |s.waiting| {
      Advance(s, SignalLoop(self, event, count), s, Peek(Sleep(self, count)));
      FinishPeek(s, Sleep(self, count));
    } else {
      var w := s.waiting[k];
      var e := PQData(w.tid, w.priority);
      var s1 := s.(waiting := Drop(s.waiting, k));
      var s2 := s1.(ready := Push(s.ready, e));
      Advance(s, SignalLoop(self, event, count), s1, SignalWake(self, event, count, w));
      Advance(s1, SignalWake(self, event, count, w), s2, SignalLoop(self, event, count + 1));
      FinishLoop(s2, self, event, count + 1);
      PushAllOne(s.ready, e, Woken(s2.waiting, event));
    }
  }

  lemma FinishSignal(s: Sched, event: nat)
    ensures Finish(s, SignalEnter(event)) == SignalSpec(s, event)
  {
    hide Finish, Dispatch, Push;
    if event < s.io && s.started {
      Advance(s, SignalEnter(event), s, SignalCheck(event));
      if s.waiting != [] {
        Advance(s, SignalCheck(event), s, ReadRunning(ForSignal(event)));
        FinishLookup(s, ForSignal(event));
        if s.running.tid in s.params {
          var self := s.running.tid;
          var s1 := s.(ready := Push(s.ready, Own(s, self)));
          Advance(s, SignalPush(self, event), s1, SignalLoop(self, event, 0));
          FinishLoop(s1, self, event, 0);
        }
      } else {
        EndsAtOnce(s, SignalCheck(event));
      }
    } else {
      EndsAtOnce(s, SignalEnter(event));
    }
  }

  lemma FinishExit(s: Sched)
    ensures Finish(s, ExitTest) == ExitSpec(s)
  {
    if s.ready != [] {
      Advance(s, ExitTest, s, Peek(Finished));
      FinishPeek(s, Finished);
    }
  }

  lemma FinishPreempt(s: Sched, self: Tid, child: Tid)
    requires s.ready != [] && self in s.params
    ensures Finish(s, PreemptSetRunning(s.ready[0], self, child)) ==
            Outcome(s.(running := s.ready[0], ready := Push(s.ready[1..], Own(s, self))),
                    Some(s.ready[0].tid), Sleep(self, child))
  {
    hide Finish, Push, NextExec, NextWait, NextSignal, NextLeave;
    var next := s.ready[0].tid;
    var s1 := s.(running := s.ready[0]);
    var s2 := s1.(ready := s.ready[1..]);
    var s3 := s2.(ready := Push(s2.ready, Own(s, self)));
    Advance(s, PreemptSetRunning(s.ready[0], self, child), s1, PreemptPop(next, self, child));
    Advance(s1, PreemptPop(next, self, child), s2, PreemptPush(next, self, child));
    EndsAtOnce(s2, PreemptPush(next, self, child));
  }

  lemma FinishFirst(s: Sched, child: Tid)
    requires s.ready != []
    ensures Finish(s, FirstMark(child)) ==
            Outcome(s.(started := true, running := s.ready[0], ready := s.ready[1..]), Some(child), Launched(child))
  {
    hide Finish, Push, NextExec, NextWait, NextSignal, NextLeave;
    var head, s1 := s.ready[0], s.(started := true);
    var s2 := s1.(running := head);
    Advance(s, FirstMark(child), s1, FirstPeek(child));
    Advance(s1, FirstPeek(child), s1, FirstSetRunning(head, child));
    Advance(s1, FirstSetRunning(head, child), s2, FirstPop(child));
    EndsAtOnce(s2, FirstPop(child));
  }

  /** The caller's quantum is not used up: make way for a higher head, or go on. */
  lemma FinishCompare(s: Sched, self: Tid, child: Tid)
    requires s.ready != [] && self in s.params
    ensures Finish(s, ForkPeek(self, child)) ==
            if s.ready[0].priority <= s.running.priority then Outcome(s, None, Return(child))
            else if s.ready[0].tid !in s.params then Crash
            else
              Outcome(s.(running := s.ready[0], ready := Push(s.ready[1..], Own(s, self))),
                      Some(s.ready[0].tid), Sleep(self, child))
  {
    hide Finish, Push;
    var head := s.ready[0];
    Advance(s, ForkPeek(self, child), s, ForkCompare(head, self, child));
    if head.priority <= s.running.priority {
      EndsAtOnce(s, ForkCompare(head, self, child));
    } else {
      Advance(s, ForkCompare(head, self, child), s, PreemptFind(head, self, child));
      if head.tid in s.params {
        Advance(s, PreemptFind(head, self, child), s, PreemptSetRunning(head, self, child));
        FinishPreempt(s, self, child);
      } else {
        EndsAtOnce(s, PreemptFind(head, self, child));
      }
    }
  }

  lemma FinishBranch(s: Sched, child: Tid)
    requires s.ready != []
    ensures Finish(s, ForkBranch(child)) == AfterRegister(s, child)
  {
    hide Finish, Push;
    if !s.started {
      Advance(s, ForkBranch(child), s, FirstMark(child));
      FinishFirst(s, child);
    } else {
      Advance(s, ForkBranch(child), s, ReadRunning(ForFork(child)));
      FinishLookup(s, ForFork(child));
      if s.running.tid in s.params {
        var self, s1 := s.running.tid, Charge(s);
        Advance(s, ForkCharge(self, child), s1, ForkTest(self, child));
        if s1.params[self].quantum == 0 {
          Advance(s1, ForkTest(self, child), s1, Refill(self, child));
          FinishRefill(s1, self, child);
        } else {
          Advance(s1, ForkTest(self, child), s1, ForkPeek(self, child));
          FinishCompare(s1, self, child);
        }
      }
    }
  }

  lemma FinishFork(s: Sched, child: Tid, priority: nat)
    requires priority <= MAX_PRIO
    ensures Finish(s, ForkAppend(child, priority)) == ForkSpec(s, true, priority, child)
  {
    hide Finish, NextExec, NextWait, NextSignal, NextLeave;
    var s1 := s.(created := s.created + [child]);
    var s2 := s1.(ready := Push(s.ready, PQData(child, priority)));
    Advance(s, ForkAppend(child, priority), s1, ForkPush(child, priority));
    Advance(s1, ForkPush(child, priority), s2, ForkPut(child, priority));
    if child !in s.params {
      var s3 := Register(s, child, priority);
      Advance(s2, ForkPut(child, priority), s3, ForkBranch(child));
      FinishBranch(s3, child);
    } else {
      EndsAtOnce(s2, ForkPut(child, priority));
    }
  }

  /** Left undisturbed, every call does exactly what its atomic form does, crashes included. */
  lemma FinishIsSpec(op: Op, s: Sched)
    ensures Finish(s, Entry(op)) == Spec(op, s)
  {
    match op
    case Exec => FinishExec(s);
    case Fork(hasFunc, priority, child) =>
      if ValidFork(hasFunc, priority) { FinishFork(s, child, priority); }
    case Wait(event) => FinishWait(s, event);
    case Signal(event) => FinishSignal(s, event);
    case Exit => FinishExit(s);
  }
}
