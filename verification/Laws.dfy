/** What each call answers, who runs next, and in which order the others stand, in terms of the state before the
    call. */
module Laws {
  import opened Options
  import opened ReadyQueue
  import opened WaitList
  import opened SchedulerSpec
  import opened SequentialMachine
  import opened Policy

  // ---------- The order of a queue after insertions ----------

  /** The element at i is the first of highest priority. */
  ghost predicate HighestAt(l: seq<PQData>, i: nat) {
    && i < |l|
    && (forall j :: 0 <= j < i ==> l[j].priority < l[i].priority)
    && (forall j :: 0 <= j < |l| ==> l[j].priority <= l[i].priority)
  }

  /** Who stays in front of x and of es: a later one has to be higher. */
  function Best(x: PQData, es: seq<PQData>): PQData
    decreases |es|
  {
    if es == [] then x else Best(if x.priority < es[0].priority then es[0] else x, es[1..])
  }

  lemma {:induction false} BestIsHighest(x: PQData, es: seq<PQData>) returns (i: nat)
    ensures if forall j :: 0 <= j < |es| ==> es[j].priority <= x.priority then Best(x, es) == x
            else HighestAt(es, i) && Best(x, es) == es[i]
    decreases |es|
  {
    i := 0;
    if es != [] {
      var e, rest := es[0], es[1..];
      assert forall j :: 1 <= j < |es| ==> es[j] == rest[j - 1];
      if x.priority < e.priority {
        var k := BestIsHighest(e, rest);
        i := if Best(e, rest) == e && forall j :: 0 <= j < |rest| ==> rest[j].priority <= e.priority then 0 else k + 1;
      } else {
        var k := BestIsHighest(x, rest);
        i := k + 1;
      }
    }
  }

  /** After any insertions into a queue the head is the best of the old head and the newcomers. */
  lemma {:induction false} HeadAfterPushAll(s: seq<PQData>, es: seq<PQData>)
    requires s != []
    ensures PushAll(s, es) != [] && PushAll(s, es)[0] == Best(s[0], es)
    decreases |es|
  {
    hide Push;
    if es != [] {
      PushHead(s, es[0]);
      PushIsLonger(s, es[0]);
      HeadAfterPushAll(Push(s, es[0]), es[1..]);
    }
  }

  lemma PushIsLonger(s: seq<PQData>, e: PQData)
    ensures |Push(s, e)| == |s| + 1
  {
  }

  /** An insertion keeps the order of the others. */
  lemma PushKeepsOrder(s: seq<PQData>, e: PQData, i: nat, j: nat) returns (i': nat, j': nat)
    requires i < j < |s|
    ensures i' < j' < |Push(s, e)| && Push(s, e)[i'] == s[i] && Push(s, e)[j'] == s[j]
  {
    var k := Position(s, e.priority);
    i', j' := if i < k then i else i + 1, if j < k then j else j + 1;
  }

  lemma {:induction false} PushAllKeepsOrder(s: seq<PQData>, es: seq<PQData>, i: nat, j: nat) returns (i': nat, j': nat)
    requires i < j < |s|
    ensures i' < j' < |PushAll(s, es)| && PushAll(s, es)[i'] == s[i] && PushAll(s, es)[j'] == s[j]
    decreases |es|
  {
    i', j' := i, j;
    if es != [] {
      i', j' := PushKeepsOrder(s, es[0], i, j);
      i', j' := PushAllKeepsOrder(Push(s, es[0]), es[1..], i', j');
    }
  }

  lemma PushTwo(s: seq<PQData>, x: PQData, y: PQData)
    ensures PushAll(s, [x]) == Push(s, x)
    ensures PushAll(s, [x, y]) == Push(Push(s, x), y)
  {
    PushAllOne(s, x, []);
    assert [x, y] == [x] + [y];
    PushAllOne(s, x, [y]);
    PushAllOne(Push(s, x), y, []);
  }

  lemma PushAfterFirst(s: seq<PQData>, y: PQData)
    requires |s| >= 2 && s[0].priority > y.priority && s[1].priority < y.priority && s[|s| - 1].priority < y.priority
    ensures Push(s, y) == [s[0], y] + s[1..]
  {
    assert StopsAt(s, y.priority, 1);
  }

  lemma PushAfterSecond(s: seq<PQData>, y: PQData)
    requires |s| >= 3 && s[0].priority > y.priority == s[1].priority && s[|s| - 1].priority < y.priority
    ensures Push(s, y) == [s[0], s[1], y] + s[2..]
  {
    assert !StopsAt(s, y.priority, 1) && StopsAt(s, y.priority, 2);
    assert Slot(s, y.priority, 1) == 2;
  }

  lemma PushSkipsFirst(s: seq<PQData>, x: PQData, y: PQData)
    requires s != [] && x.priority > y.priority >= s[0].priority >= s[|s| - 1].priority
    ensures Push([x] + s, y) == [x] + Push(s, y)
  {
    hide Push;
    var l := [x] + s;
    assert l[|l| - 1] == s[|s| - 1] && l[1] == s[0];
    if s[|s| - 1].priority >= y.priority {
      PushLast(s, y);
      PushLast(l, y);
      assert l + [y] == [x] + (s + [y]);
    } else if s[0].priority == y.priority {
      PushSecond(s, y);
      PushAfterSecond(l, y);
      assert l[2..] == s[1..];
      assert [x, s[0], y] + s[1..] == [x] + ([s[0], y] + s[1..]);
    } else {
      PushFront(s, y);
      PushAfterFirst(l, y);
      assert l[1..] == s;
      assert [x, y] + s == [x] + ([y] + s);
    }
  }

  /** A newcomer above everybody goes in front, and does not change where the next one goes among the others. */
  lemma PushBehindHigher(s: seq<PQData>, x: PQData, y: PQData)
    requires Sorted(s) && x.priority > y.priority && forall e :: e in s ==> e.priority <= y.priority
    ensures Push(s, x) == [x] + s
    ensures Push([x] + s, y) == [x] + Push(s, y)
  {
    hide Push;
    assert s != [] ==> s[0] in s;
    PushFront(s, x);
    if s == [] {
      PushFront(s, y);
      PushLast([x], y);
      assert [x] + s == [x] && [x] + ([y] + s) == [x] + [y];
    } else {
      PushSkipsFirst(s, x, y);
    }
  }

  // ---------- What a call answers ----------

  lemma WokenCount(ws: seq<Waiter>, io: nat)
    ensures |Woken(ws, io)| == CountFor(ws, io)
  {
  }

  lemma AnswerOfSpec(s: Sched, op: Op)
    requires Spec(op, s).Outcome? && !op.Exit? && (s.started || !Spawns(op)) && (s.started || s.waiting == [])
    ensures FateAfter(Spec(op, s).andThen) ==
            Live(match op
                 case Exec => 0
                 case Fork(hasFunc, priority, child) =>
                   if hasFunc && priority <= 5 then child else INVALID_TID
                 case Wait(event) => if s.started && event >= s.io then -1 else 0
                 case Signal(event) => if event >= s.io then -1 else CountFor(s.waiting, event)
                 case Exit => 0)
  {
    hide Push, PushAll;
    if op.Signal? {
      WokenCount(s.waiting, op.event);
    }
  }

  lemma NobodyBeforeStart(a: Abs)
    requires Inv(a) && !a.s.started
    ensures a.s.ready == [] && a.s.waiting == [] && a.s.created == [] && a.s.params == map[]
  {
    assert a.s.params.Keys == {};
    if a.s.ready != [] {
      PopTids(a.s.ready);
    }
    assert forall w :: w !in a.s.waiting;
  }

  /** What every call returns to its caller, now or when the caller is next let run. An accepted fork gives the id of
      the new thread in all its branches; so_signal counts the waiters for its event; the caller of so_wait hears 0. */
  lemma CallAnswers(a: Abs, e: Event)
    requires Inv(a) && MayAct(a, e) && !e.op.Exit? && (a.s.started || !Spawns(e.op))
    ensures CanAct(a, e) && e.who in Act(a, e).fate
    ensures Act(a, e).fate[e.who] ==
            Live(match e.op
                 case Exec => 0
                 case Fork(hasFunc, priority, child) =>
                   if hasFunc && priority <= 5 then child else INVALID_TID
                 case Wait(event) => if a.s.started && event >= a.s.io then -1 else 0
                 case Signal(event) => if event >= a.s.io then -1 else CountFor(a.s.waiting, event)
                 case Exit => 0)
    ensures forall t :: t in a.fate && t != e.who ==> t in Act(a, e).fate && Act(a, e).fate[t] == a.fate[t]
  {
    ActKeeps(a, e);
    hide Inv, Spec;
    if !a.s.started {
      NobodyBeforeStart(a);
    }
    AnswerOfSpec(a.s, e.op);
    ActFate(a, e);
  }

  // ---------- Calls that change nothing ----------

  /** Any call but a fork before the first thread runs, a rejected call, and a signal while nobody waits for anything,
      change no structure, and their caller goes on. */
  lemma IdleCall(a: Abs, e: Event)
    requires Inv(a) && MayAct(a, e)
    requires match e.op
             case Exec => !a.s.started
             case Fork(hasFunc, priority, _) => priority > MAX_PRIO || !hasFunc
             case Wait(event) => !a.s.started || event >= a.s.io
             case Signal(event) => !a.s.started || event >= a.s.io || a.s.waiting == []
             case Exit => false
    ensures CanAct(a, e) && Act(a, e).s == a.s && Act(a, e).token && Spec(e.op, a.s).post == None
  {
    ActKeeps(a, e);
    hide Inv, Push, PushAll;
  }

  // ---------- The first fork ----------

  /** The first accepted fork makes its thread the only one, running with the priority asked for and a full quantum; the
      thread is posted, and main is told its id. */
  lemma FirstFork(a: Abs, e: Event)
    requires Inv(a) && MayAct(a, e) && !a.s.started && Spawns(e.op)
    ensures CanAct(a, e)
    ensures var s, s' := a.s, Act(a, e).s;
            && s'.started && s'.running == PQData(e.op.child, e.op.priority)
            && s'.ready == [] && s'.waiting == [] && s'.created == [e.op.child]
            && s'.params == map[e.op.child := Param(e.op.priority, s.q)]
            && s'.q == s.q && s'.io == s.io && Act(a, e).token
            && Spec(e.op, s).post == Some(e.op.child) && Spec(e.op, s).andThen == Launched(e.op.child)
  {
    ActKeeps(a, e);
    NobodyBeforeStart(a);
    hide Inv;
  }

  // ---------- Who runs next, and the queue behind ----------

  lemma ExecCore(s: Sched)
    requires s.started && s.running.tid in s.params && ExecSpec(s).Outcome?
    requires s.params[s.running.tid].priority == s.running.priority && s.params[s.running.tid].quantum >= 1 && s.q >= 1
    ensures var s' := ExecSpec(s).s;
            && s'.waiting == s.waiting && s'.created == s.created && s'.started
            && if s.params[s.running.tid].quantum > 1 then s'.running == s.running && s'.ready == s.ready
               else [s'.running] + s'.ready == Push(s.ready, s.running)
  {
    hide Push;
    assert Own(s, s.running.tid) == s.running;
  }

  /** so_exec with quantum left changes only the quantum. With its last unit the caller is queued again behind the same
      queue, and the head of that is next. */
  lemma ExecHandsOver(a: Abs, e: Event)
    requires Inv(a) && MayAct(a, e) && a.s.started && e.op.Exec?
    ensures CanAct(a, e) && a.s.running.tid in a.s.params
    ensures var s, s' := a.s, Act(a, e).s;
            && s'.waiting == s.waiting && s'.created == s.created && s'.started && Act(a, e).token
            && if s.params[s.running.tid].quantum > 1 then s'.running == s.running && s'.ready == s.ready
               else [s'.running] + s'.ready == Push(s.ready, s.running)
  {
    ActKeeps(a, e);
    assert a.s.q >= 1 && a.s.params[a.s.running.tid].quantum >= 1;
    ExecCore(a.s);
  }

  lemma ForkCore(s: Sched, op: Op)
    requires s.started && s.running.tid in s.params && Spawns(op) && op.child !in s.params && Spec(op, s).Outcome?
    requires s.params[s.running.tid].priority == s.running.priority && Dominates(s)
    requires 1 <= s.params[s.running.tid].quantum && s.q >= 1 && Sorted(s.ready)
    ensures var child, o := PQData(op.child, op.priority), Spec(op, s);
            && o.s.waiting == s.waiting && o.s.created == s.created + [op.child] && o.s.started
            && (o.andThen.Return? || o.post.Some?)
            && if s.params[s.running.tid].quantum > 1 && op.priority <= s.running.priority then
                 o.s.running == s.running && o.s.ready == Push(s.ready, child)
               else
                 [o.s.running] + o.s.ready == PushAll(s.ready, [child, s.running])
  {
    hide Push;
    var child, o := PQData(op.child, op.priority), Spec(op, s);
    var self := s.running.tid;
    var s1 := Charge(Register(s, op.child, op.priority));
    assert Own(s1, self) == s.running;
    PushTwo(s.ready, child, s.running);
    if s.params[self].quantum > 1 {
      PushHead(s.ready, child);
      if op.priority > s.running.priority {
        PushBehindHigher(s.ready, child, s.running);
        assert s1.ready[1..] == s.ready;
      } else {
        assert s.ready != [] ==> s.ready[0] in s.ready;
      }
    } else {
      assert Expire(s1, self, op.child) == o;
      assert o.s.running == Push(s1.ready, s.running)[0] && o.s.ready == Push(s1.ready, s.running)[1..];
    }
  }

  /** An accepted fork puts the child into the queue, with a record of its own. The caller goes on if it has quantum
      left and the child is not above it; otherwise, for whichever of the two reasons, the caller is queued after the
      child and the head of the queue is next. */
  lemma ForkHandsOver(a: Abs, e: Event)
    requires Inv(a) && MayAct(a, e) && a.s.started && Spawns(e.op)
    ensures CanAct(a, e) && a.s.running.tid in a.s.params
    ensures var child, s, s' := PQData(e.op.child, e.op.priority), a.s, Act(a, e).s;
            && s'.waiting == s.waiting && s'.created == s.created + [e.op.child] && s'.started && Act(a, e).token
            && e.op.child in s'.params && s'.params[e.op.child] == Param(e.op.priority, s.q)
            && if s.params[s.running.tid].quantum > 1 && e.op.priority <= s.running.priority then
                 s'.running == s.running && s'.ready == Push(s.ready, child)
               else
                 [s'.running] + s'.ready == PushAll(s.ready, [child, s.running])
  {
    hide Inv, Spec, Push, PushAll;
    RunningFacts(a);
    ActKeeps(a, e);
    ActParams(a, e);
    ForkCore(a.s, e.op);
  }

  /** An accepted so_wait puts its caller last in the waiting list, for the event asked for and with its own priority,
      and hands over to the head of the ready queue as it stands. */
  lemma WaitHandsOver(a: Abs, e: Event)
    requires Inv(a) && MayAct(a, e) && a.s.started && e.op.Wait? && e.op.event < a.s.io
    ensures CanAct(a, e)
    ensures var s, s' := a.s, Act(a, e).s;
            && s'.waiting == s.waiting + [Waiter(e.who, s.running.priority, e.op.event)]
            && s'.created == s.created && s'.params == s.params && s'.started
            && if s.ready == [] then s'.ready == [] && !Act(a, e).token && Spec(e.op, s).post == None
               else
                 && s'.running == s.ready[0] && s'.ready == s.ready[1..] && Act(a, e).token
                 && Spec(e.op, s).post == Some(s.ready[0].tid)
  {
    ActKeeps(a, e);
    hide Push;
  }

  lemma ExitCore(s: Sched)
    requires ExitSpec(s).Outcome?
    ensures var o := ExitSpec(s);
            && o.s.waiting == s.waiting && o.s.created == s.created && o.s.params == s.params
            && o.s.started == s.started && o.andThen == Finished
            && if s.ready == [] then o.s.ready == [] && o.post == None
               else o.s.running == s.ready[0] && o.s.ready == s.ready[1..] && o.post == Some(s.ready[0].tid)
  {
  }

  /** The end of a handler hands over to the head of the ready queue as it stands. */
  lemma ExitHandsOver(a: Abs, e: Event)
    requires Inv(a) && MayAct(a, e) && e.op.Exit?
    ensures CanAct(a, e) && e.who in Act(a, e).fate && Act(a, e).fate[e.who] == Ended
    ensures var s, s' := a.s, Act(a, e).s;
            && s'.waiting == s.waiting && s'.created == s.created && s'.params == s.params && s'.started == s.started
            && if s.ready == [] then s'.ready == [] && !Act(a, e).token && Spec(e.op, s).post == None
               else
                 && s'.running == s.ready[0] && s'.ready == s.ready[1..] && Act(a, e).token
                 && Spec(e.op, s).post == Some(s.ready[0].tid)
  {
    hide Inv, ExitSpec, Act;
    ActKeeps(a, e);
    ExitCore(a.s);
    ActFate(a, e);
  }

  lemma SignalCore(s: Sched, event: nat)
    requires s.started && event < s.io && s.waiting != [] && s.running.tid in s.params
    requires s.params[s.running.tid].priority == s.running.priority && SignalSpec(s, event).Outcome?
    ensures var o := SignalSpec(s, event);
            && [o.s.running] + o.s.ready == PushAll(s.ready, [s.running] + Woken(s.waiting, event))
            && o.s.waiting == Others(s.waiting, event)
            && o.s.created == s.created && o.s.params == s.params && o.s.started
  {
    hide Push, PushAll, Woken, Others;
    assert Own(s, s.running.tid) == s.running;
    PushAllOne(s.ready, s.running, Woken(s.waiting, event));
  }

  /** An accepted so_signal with somebody waiting queues its caller and then, in waiting order, the waiters for the
      event; the head of the queue is next, and the waiters for other events keep waiting in their order. */
  lemma SignalHandsOver(a: Abs, e: Event)
    requires Inv(a) && MayAct(a, e) && a.s.started && e.op.Signal? && e.op.event < a.s.io && a.s.waiting != []
    ensures CanAct(a, e)
    ensures var s, s' := a.s, Act(a, e).s;
            && [s'.running] + s'.ready == PushAll(s.ready, [s.running] + Woken(s.waiting, e.op.event))
            && s'.waiting == Others(s.waiting, e.op.event)
            && s'.created == s.created && s'.params == s.params && s'.started && Act(a, e).token
  {
    ActKeeps(a, e);
    SignalCore(a.s, e.op.event);
    hide Inv, Push, PushAll, Woken, Others;
  }

  // ---------- Who runs after a signal ----------

  /** i is the first waiter of highest priority for the event. */
  ghost predicate FirstHighestFor(ws: seq<Waiter>, event: nat, i: nat) {
    && i < |ws| && ws[i].io == event
    && (forall j :: 0 <= j < i && ws[j].io == event ==> ws[j].priority < ws[i].priority)
    && (forall j :: 0 <= j < |ws| && ws[j].io == event ==> ws[j].priority <= ws[i].priority)
  }

  /** The woken, one by one, and the waiters they were. */
  lemma {:induction false} WaiterOf(ws: seq<Waiter>, event: nat, m: nat) returns (i: nat)
    requires m < |Woken(ws, event)|
    ensures i < |ws| && ws[i].io == event && Woken(ws, event)[m] == PQData(ws[i].tid, ws[i].priority)
    ensures CountFor(ws[..i], event) == m
  {
    if ws[0].io == event && m == 0 {
      i := 0;
    } else {
      var k := WaiterOf(ws[1..], event, if ws[0].io == event then m - 1 else m);
      i := k + 1;
      assert ws[..i][1..] == ws[1..][..k];
    }
  }

  lemma {:induction false} CountGrows(ws: seq<Waiter>, event: nat, j: nat, i: nat)
    requires j < i <= |ws| && ws[j].io == event
    ensures CountFor(ws[..j], event) < CountFor(ws[..i], event)
  {
    assert ws[..i][1..] == ws[1..][..i - 1];
    if j > 0 {
      assert ws[..j][1..] == ws[1..][..j - 1];
      CountGrows(ws[1..], event, j - 1, i - 1);
    }
  }

  /** Among the woken, the first of highest priority is the first such waiter. */
  lemma HighestWoken(ws: seq<Waiter>, event: nat, m: nat) returns (i: nat)
    requires HighestAt(Woken(ws, event), m)
    ensures FirstHighestFor(ws, event, i) && Woken(ws, event)[m] == PQData(ws[i].tid, ws[i].priority)
  {
    hide Woken, CountFor;
    i := WaiterOf(ws, event, m);
    forall j | 0 <= j < |ws| && ws[j].io == event
      ensures ws[j].priority <= ws[i].priority && (j < i ==> ws[j].priority < ws[i].priority)
    {
      InWaitingOrder(ws, event, j);
      if j < i {
        CountGrows(ws, event, j, i);
      }
    }
  }

  /** The head of the line a signal forms: x is who it would be with nobody woken. */
  lemma BestOfWoken(x: PQData, ws: seq<Waiter>, event: nat) returns (i: nat)
    ensures if forall j :: 0 <= j < |ws| && ws[j].io == event ==> ws[j].priority <= x.priority then
              Best(x, Woken(ws, event)) == x
            else
              FirstHighestFor(ws, event, i) && Best(x, Woken(ws, event)) == PQData(ws[i].tid, ws[i].priority)
  {
    hide Woken, Best;
    i := 0;
    var woken := Woken(ws, event);
    var m := BestIsHighest(x, woken);
    if k :| 0 <= k < |woken| && woken[k].priority > x.priority {
      i := WaiterOf(ws, event, k);
      assert ws[i].priority > x.priority;
      i := HighestWoken(ws, event, m);
    } else {
      forall j | 0 <= j < |ws| && ws[j].io == event ensures ws[j].priority <= x.priority {
        InWaitingOrder(ws, event, j);
      }
    }
  }

  lemma HeadOfSignal(ready: seq<PQData>, running: PQData, ws: seq<Waiter>, event: nat) returns (i: nat)
    requires forall x :: x in ready ==> x.priority <= running.priority
    ensures var line := PushAll(ready, [running] + Woken(ws, event));
            && line != []
            && if forall j :: 0 <= j < |ws| && ws[j].io == event ==> ws[j].priority <= running.priority then
                 line[0] == if ready != [] && ready[0].priority >= running.priority then ready[0] else running
               else
                 FirstHighestFor(ws, event, i) && line[0] == PQData(ws[i].tid, ws[i].priority)
  {
    hide Push, PushAll, Woken, Best;
    var x := if ready != [] && ready[0].priority >= running.priority then ready[0] else running;
    assert ready != [] ==> ready[0] in ready;
    PushAllOne(ready, running, Woken(ws, event));
    PushHead(ready, running);
    PushIsLonger(ready, running);
    HeadAfterPushAll(Push(ready, running), Woken(ws, event));
    i := BestOfWoken(x, ws, event);
  }

  lemma PostIsRunner(a: Abs, e: Event)
    requires CanAct(a, e) && Proper(e.who, Spec(e.op, a.s)) && Spec(e.op, a.s).post.Some?
    ensures Spec(e.op, a.s).post == Some(Act(a, e).s.running.tid)
  {
  }

  /** Who runs after a signal. A waiter for the event that is above the caller: then it is the first of the highest, in
      waiting order. Otherwise the old head of the ready queue, if it has the caller's priority. Otherwise the caller
      itself. */
  lemma SignalChooses(a: Abs, e: Event) returns (i: nat)
    requires Inv(a) && MayAct(a, e) && a.s.started && e.op.Signal? && e.op.event < a.s.io && a.s.waiting != []
    ensures CanAct(a, e)
    ensures var s, r := a.s, Act(a, e).s.running;
            && Spec(e.op, s).post == Some(r.tid)
            && if forall j :: 0 <= j < |s.waiting| && s.waiting[j].io == e.op.event ==>
                     s.waiting[j].priority <= s.running.priority then
                 r == if s.ready != [] && s.ready[0].priority >= s.running.priority then s.ready[0] else s.running
               else
                 FirstHighestFor(s.waiting, e.op.event, i) && r == PQData(s.waiting[i].tid, s.waiting[i].priority)
  {
    SignalHandsOver(a, e);
    ActKeeps(a, e);
    assert Dominates(a.s);
    hide Inv, Act, CanAct, Push, PushAll, Woken, Others, Spec;
    i := HeadOfSignal(a.s.ready, a.s.running, a.s.waiting, e.op.event);
    var s' := Act(a, e).s;
    assert s'.running == ([s'.running] + s'.ready)[0];
    PostIsRunner(a, e);
  }

  /** If the ready queue's head has the caller's priority, the caller is queued behind it, whoever runs. */
  lemma SignalYields(a: Abs, e: Event) returns (i: nat, j: nat)
    requires Inv(a) && MayAct(a, e) && a.s.started && e.op.Signal? && e.op.event < a.s.io && a.s.waiting != []
    requires a.s.ready != [] && a.s.ready[0].priority >= a.s.running.priority
    ensures CanAct(a, e)
    ensures var line := [Act(a, e).s.running] + Act(a, e).s.ready;
            i < j < |line| && line[i] == a.s.ready[0] && line[j] == a.s.running
  {
    SignalHandsOver(a, e);
    hide Inv, Act, CanAct, Woken, Others;
    var s, woken := a.s, Woken(a.s.waiting, e.op.event);
    var k := Position(s.ready, s.running.priority);
    assert k > 0 && Push(s.ready, s.running)[0] == s.ready[0] && Push(s.ready, s.running)[k] == s.running;
    PushAllOne(s.ready, s.running, woken);
    i, j := PushAllKeepsOrder(Push(s.ready, s.running), woken, 0, k);
  }

  // ---------- From the wait to the signal ----------

  lemma {:induction false} StaysAsleep(a: Abs, run: seq<Event>, w: Waiter)
    requires Inv(a) && IsRun(a, run) && w in a.s.waiting && w.tid in a.fate && w.io < a.s.io
    requires forall x :: x in run ==> x.op != Signal(w.io)
    ensures Inv(After(a, run)) && w in After(a, run).s.waiting && After(a, run).s.io == a.s.io
    ensures w.tid in After(a, run).fate && After(a, run).fate[w.tid] == a.fate[w.tid]
    ensures forall x :: x in run ==> x.who != w.tid
    decreases |run|
  {
    hide Inv, Act, CanAct;
    if run != [] {
      var prefix, last := run[..|run| - 1], run[|run| - 1];
      assert run == prefix + [last];
      StaysAsleep(a, prefix, w);
      var b := After(a, prefix);
      MayIfCan(b, last);
      WaiterMoves(b, last, w);
      ActParams(b, last);
      ActFate(b, last);
      ActKeeps(b, last);
    }
  }

  lemma MayIfCan(a: Abs, e: Event)
    requires CanAct(a, e)
    ensures MayAct(a, e)
  {
  }

  /** From an accepted so_wait on, over any calls of the others but a signal for the event, the caller is in the waiting
      list for that event with its own priority, makes no call, and what it will hear is 0. */
  lemma SleepsUntilSignal(a: Abs, e: Event, run: seq<Event>)
    requires Inv(a) && MayAct(a, e) && a.s.started && e.op.Wait? && e.op.event < a.s.io
    requires CanAct(a, e) && IsRun(Act(a, e), run) && forall x :: x in run ==> x.op != Signal(e.op.event)
    ensures var b := After(Act(a, e), run);
            && Inv(b) && b.s.io == a.s.io
            && Waiter(e.who, a.s.running.priority, e.op.event) in b.s.waiting
            && e.who in b.fate && b.fate[e.who] == Live(0)
    ensures forall x :: x in run ==> x.who != e.who
  {
    hide Inv, Act, CanAct;
    var w := Waiter(e.who, a.s.running.priority, e.op.event);
    MayIfCan(a, e);
    WaitHandsOver(a, e);
    CallAnswers(a, e);
    ActKeeps(a, e);
    ActParams(a, e);
    assert w == Act(a, e).s.waiting[|a.s.waiting|];
    StaysAsleep(Act(a, e), run, w);
  }

  lemma {:induction false} CountsOne(ws: seq<Waiter>, w: Waiter)
    requires w in ws
    ensures CountFor(ws, w.io) >= 1
  {
    if ws[0] != w {
      assert w in ws[1..];
      CountsOne(ws[1..], w);
    }
  }

  /** The first signal for the event after that takes the caller of so_wait out of the list, makes it ready or lets it
      run with its own priority, and counts it; so_wait then returns 0. */
  lemma SignalEndsWait(a: Abs, e: Event, run: seq<Event>, signal: Event)
    requires Inv(a) && MayAct(a, e) && a.s.started && e.op.Wait? && e.op.event < a.s.io
    requires CanAct(a, e) && IsRun(Act(a, e), run) && forall x :: x in run ==> x.op != Signal(e.op.event)
    requires MayAct(After(Act(a, e), run), signal) && signal.op == Signal(e.op.event)
    ensures CanAct(After(Act(a, e), run), signal)
    ensures var b, c := After(Act(a, e), run), Act(After(Act(a, e), run), signal);
            && signal.who != e.who && signal.who in c.fate
            && c.fate[signal.who] == Live(CountFor(b.s.waiting, e.op.event)) && CountFor(b.s.waiting, e.op.event) >= 1
            && Waiter(e.who, a.s.running.priority, e.op.event) !in c.s.waiting
            && PQData(e.who, a.s.running.priority) in [c.s.running] + c.s.ready
            && e.who in c.fate && c.fate[e.who] == Live(0)
  {
    hide Inv, Act, CanAct;
    SleepsUntilSignal(a, e, run);
    var b, w := After(Act(a, e), run), Waiter(e.who, a.s.running.priority, e.op.event);
    WaiterMoves(b, signal, w);
    CallAnswers(b, signal);
    CountsOne(b.s.waiting, w);
  }

  // ---------- The arguments of so_init ----------

  /** The quantum and the number of events are those given to so_init, after any run. */
  lemma {:induction false} ArgumentsHold(q: nat, io: nat, run: seq<Event>)
    requires q >= 1 && IsRun(Start(q, io), run)
    ensures After(Start(q, io), run).s.q == q && After(Start(q, io), run).s.io == io
    decreases |run|
  {
    StartInv(q, io);
    RunKeeps(Start(q, io), run);
    hide Inv, Act, CanAct;
    if run != [] {
      var prefix, last := run[..|run| - 1], run[|run| - 1];
      ArgumentsHold(q, io, prefix);
      RunKeeps(Start(q, io), prefix);
      MayIfCan(After(Start(q, io), prefix), last);
      ActParams(After(Start(q, io), prefix), last);
    }
  }

  /** From so_init(q, io) on, a thread gives up the processor in so_exec exactly at every q-th charge. */
  lemma {:induction false} ExecUsesGivenQuantum(q: nat, io: nat, run: seq<Event>, e: Event)
    requires q >= 1 && IsRun(Start(q, io), run)
    requires MayAct(After(Start(q, io), run), e) && e.op.Exec? && After(Start(q, io), run).s.started
    ensures var s := After(Start(q, io), run).s;
            && e.who in s.params && Spec(e.op, s).Outcome?
            && ClosedAccount(q, CountCharges(Start(q, io), run, e.who), CountExpiries(Start(q, io), run, e.who),
                             s.params[e.who].quantum, Spec(e.op, s).andThen.Sleep?)
  {
    hide Inv, ClosedAccount, Act, Spec, MayAct;
    StartInv(q, io);
    ArgumentsHold(q, io, []);
    ExecGivesUpAtEveryQthCharge(Start(q, io), run, e);
  }

  /** With a thread running, so_wait and so_signal are rejected exactly for an event that so_init(q, io) has no room
      for. */
  lemma {:induction false} EventsAreThoseGiven(q: nat, io: nat, run: seq<Event>, e: Event, event: nat)
    requires q >= 1 && IsRun(Start(q, io), run)
    requires MayAct(After(Start(q, io), run), e) && After(Start(q, io), run).s.started
    requires e.op == Wait(event) || e.op == Signal(event)
    ensures var a := After(Start(q, io), run);
            CanAct(a, e) && e.who in Act(a, e).fate && (Act(a, e).fate[e.who] == Live(-1) <==> event >= io)
  {
    hide Inv, Act, CanAct, MayAct;
    StartInv(q, io);
    RunKeeps(Start(q, io), run);
    ArgumentsHold(q, io, run);
    CallAnswers(After(Start(q, io), run), e);
  }
}
