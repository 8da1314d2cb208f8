/** Who runs, for how long, and who is next: what the atomic machine promises over whole runs. */
module Policy {
  import opened Options
  import opened ReadyQueue
  import opened WaitList
  import opened SchedulerSpec
  import opened SequentialMachine

  // ---------- Quantum accounting ----------

  /** Only so_exec and an accepted so_fork use up quantum, and only once a thread is running. */
  predicate Charges(s: Sched, op: Op) {
    s.started && (op.Exec? || Spawns(op))
  }

  predicate Expires(s: Sched, op: Op) {
    Charges(s, op) && s.running.tid in s.params && s.params[s.running.tid].quantum == 1
  }

  /** The table after a call: at most one quantum changes, and at most one record is new. */
  function ParamsAfter(s: Sched, op: Op): map<Tid, Param>
    requires s.started ==> s.running.tid in s.params
  {
    var grown := if Spawns(op) then s.params[op.child := Param(op.priority, s.q)] else s.params;
    if !Charges(s, op) then grown
    else
      var p := s.params[s.running.tid];
      grown[s.running.tid := p.(quantum := if p.quantum == 1 then s.q else Dec(p.quantum))]
  }

  lemma SpecParams(s: Sched, op: Op)
    requires s.q >= 1 && Spec(op, s).Outcome?
    requires s.started ==> s.running.tid in s.params && s.params[s.running.tid].quantum >= 1
    requires Spawns(op) ==> op.child !in s.params
    ensures var o := Spec(op, s); o.s.params == ParamsAfter(s, op) && o.s.q == s.q && o.s.io == s.io
  {
    if Charges(s, op) {
      var self := s.running.tid;
      var s1 := if Spawns(op) then Register(s, op.child, op.priority) else s;
      var s2 := Charge(s1);
      if s2.params[self].quantum == 0 {
        assert SetQuantum(s2, self, s.q).params == ParamsAfter(s, op);
      }
    }
  }

  lemma ActParams(a: Abs, e: Event)
    requires Inv(a) && MayAct(a, e)
    ensures CanAct(a, e)
    ensures a.s.started ==> a.s.running.tid in a.s.params
    ensures Act(a, e).s.params == ParamsAfter(a.s, e.op)
    ensures Act(a, e).s.q == a.s.q && Act(a, e).s.io == a.s.io
  {
    ActKeeps(a, e);
    SpecParams(a.s, e.op);
  }

  function CountCharges(a: Abs, run: seq<Event>, t: Tid): nat
    requires IsRun(a, run)
  {
    if run == [] then 0
    else
      var prefix, e := run[..|run| - 1], run[|run| - 1];
      CountCharges(a, prefix, t) + if e.who == t && Charges(After(a, prefix).s, e.op) then 1 else 0
  }

  function CountExpiries(a: Abs, run: seq<Event>, t: Tid): nat
    requires IsRun(a, run)
  {
    if run == [] then 0
    else
      var prefix, e := run[..|run| - 1], run[|run| - 1];
      CountExpiries(a, prefix, t) + if e.who == t && Expires(After(a, prefix).s, e.op) then 1 else 0
  }

  /** One call seen from one thread. */
  lemma ChargeOfOne(a: Abs, e: Event, t: Tid)
    requires Inv(a) && CanAct(a, e)
    ensures var s, s' := a.s, Act(a, e).s;
            && s'.q == s.q && s'.io == s.io
            && (t in s.params ==> t in s'.params && 1 <= s.params[t].quantum <= s.q)
            && (t !in s.params ==>
                  !(e.who == t && Charges(s, e.op)) && (t in s'.params ==> s'.params[t].quantum == s.q))
            && (t in s.params ==>
                  s'.params[t].quantum ==
                  if !(e.who == t && Charges(s, e.op)) then s.params[t].quantum
                  else if Expires(s, e.op) then s.q
                  else s.params[t].quantum - 1)
  {
    ActParams(a, e);
  }

  /** The charges are the full quanta used up and the part of the current one that is gone. */
  predicate Balanced(q: nat, charges: nat, expiries: nat, quantum: nat) {
    1 <= quantum <= q && charges == q * expiries + (q - quantum)
  }

  lemma OneMore(q: nat, n: nat)
    ensures q * (n + 1) == q * n + q
  {
  }

  lemma BalancedStep(q: nat, charges: nat, expiries: nat, quantum: nat)
    requires Balanced(q, charges, expiries, quantum)
    ensures if quantum == 1 then Balanced(q, charges + 1, expiries + 1, q)
            else Balanced(q, charges + 1, expiries, quantum - 1)
  {
    OneMore(q, expiries);
  }

  /** The account of a thread, which has not been charged before it is created. */
  predicate Account(q: nat, s: Sched, t: Tid, charges: nat, expiries: nat) {
    if t in s.params then Balanced(q, charges, expiries, s.params[t].quantum) else charges == 0 == expiries
  }

  lemma AccountStep(a: Abs, e: Event, t: Tid, charges: nat, expiries: nat)
    requires Inv(a) && CanAct(a, e) && Account(a.s.q, a.s, t, charges, expiries)
    ensures Account(a.s.q, Act(a, e).s, t,
                    charges + (if e.who == t && Charges(a.s, e.op) then 1 else 0),
                    expiries + (if e.who == t && Expires(a.s, e.op) then 1 else 0))
    ensures Act(a, e).s.q == a.s.q && Act(a, e).s.io == a.s.io
  {
    ChargeOfOne(a, e, t);
    hide Inv, Act, CanAct;
    if t in a.s.params {
      BalancedStep(a.s.q, charges, expiries, a.s.params[t].quantum);
    } else {
      FullQuantum(a.s.q);
    }
  }

  lemma FullQuantum(q: nat)
    requires q >= 1
    ensures Balanced(q, 0, 0, q)
  {
  }

  /** Over any run, and for every thread, the account balances. */
  lemma {:induction false} QuantumAccounts(a: Abs, run: seq<Event>, t: Tid)
    requires Inv(a) && a.s.params == map[] && IsRun(a, run)
    ensures After(a, run).s.q == a.s.q && After(a, run).s.io == a.s.io
    ensures Account(a.s.q, After(a, run).s, t, CountCharges(a, run, t), CountExpiries(a, run, t))
    decreases |run|
  {
    hide Inv, Account, Act, CanAct, Charges, Expires;
    if run == [] {
      assert Account(a.s.q, a.s, t, 0, 0) by { NewAccount(a.s, t); }
    } else {
      var prefix, e := run[..|run| - 1], run[|run| - 1];
      RunKeeps(a, prefix);
      QuantumAccounts(a, prefix, t);
      AccountStep(After(a, prefix), e, t, CountCharges(a, prefix, t), CountExpiries(a, prefix, t));
    }
  }

  lemma NewAccount(s: Sched, t: Tid)
    requires t !in s.params
    ensures Account(s.q, s, t, 0, 0)
  {
  }

  lemma MulGrows(q: nat, d: int)
    requires d >= 1
    ensures q * d >= q
  {
  }

  lemma QuotientAndRest(c: nat, q: nat, n: nat, r: nat)
    requires q >= 1 && c == q * n + r && r < q
    ensures c / q == n && c % q == r
  {
    var d, u := c / q, c % q;
    assert c == q * d + u;
    assert q * (d - n) == q * d - q * n && q * (n - d) == q * n - q * d;
    if d > n {
      MulGrows(q, d - n);
    } else if d < n {
      MulGrows(q, n - d);
    }
  }

  /** The account in closed form; the next charge is the last of its quantum just when next is true. */
  predicate ClosedAccount(q: nat, charges: nat, expiries: nat, quantum: nat, next: bool) {
    && q >= 1 && expiries == charges / q && quantum == q - charges % q
    && (next <==> (charges + 1) % q == 0)
  }

  lemma EveryQth(q: nat, c: nat, n: nat, quantum: nat)
    requires Balanced(q, c, n, quantum)
    ensures ClosedAccount(q, c, n, quantum, quantum == 1)
  {
    var r := q - quantum;
    QuotientAndRest(c, q, n, r);
    OneMore(q, n);
    if r + 1 == q {
      QuotientAndRest(c + 1, q, n + 1, 0);
    } else {
      QuotientAndRest(c + 1, q, n, r + 1);
    }
  }

  lemma ExecSleepsOnLastUnit(a: Abs, e: Event)
    requires Inv(a) && MayAct(a, e) && a.s.started && e.op.Exec?
    ensures e.who in a.s.params && 1 <= a.s.params[e.who].quantum <= a.s.q
    ensures var o := Spec(e.op, a.s);
            o.Outcome? && (o.andThen.Sleep? <==> a.s.params[e.who].quantum == 1)
  {
    ActKeeps(a, e);
  }

  /** The closed form: so_exec gives up the processor exactly at every q-th charge of its caller. */
  lemma {:induction false} ExecGivesUpAtEveryQthCharge(a: Abs, run: seq<Event>, e: Event)
    requires Inv(a) && a.s.params == map[] && IsRun(a, run)
    requires MayAct(After(a, run), e) && e.op.Exec? && After(a, run).s.started
    ensures var s := After(a, run).s;
            && e.who in s.params && Spec(e.op, s).Outcome?
            && ClosedAccount(a.s.q, CountCharges(a, run, e.who), CountExpiries(a, run, e.who),
                             s.params[e.who].quantum, Spec(e.op, s).andThen.Sleep?)
  {
    hide ClosedAccount, Balanced;
    RunKeeps(a, run);
    ExecSleepsOnLastUnit(After(a, run), e);
    QuantumAccounts(a, run, e.who);
    EveryQth(a.s.q, CountCharges(a, run, e.who), CountExpiries(a, run, e.who),
             After(a, run).s.params[e.who].quantum);
  }

  // ---------- Who comes next ----------

  /** A fork that leaves its caller some quantum switches exactly when the child is above it, and then to the child. */
  lemma ForkPreemptsForChild(a: Abs, e: Event)
    requires Inv(a) && MayAct(a, e) && a.s.started && Spawns(e.op)
    requires a.s.running.tid in a.s.params && !Expires(a.s, e.op)
    ensures var o := Spec(e.op, a.s);
            && o.Outcome?
            && (o.andThen.Sleep? <==> e.op.priority > a.s.running.priority)
            && (o.andThen.Sleep? ==> o.post == Some(e.op.child) && o.s.running == PQData(e.op.child, e.op.priority))
            && (!o.andThen.Sleep? ==> o.andThen == Return(e.op.child) && o.s.running == a.s.running)
  {
    ActKeeps(a, e);
    RunningIsElsewhere(a.s, a.fate, e.who);
    PushHead(a.s.ready, PQData(e.op.child, e.op.priority));
    assert a.s.ready != [] ==> a.s.ready[0] in a.s.ready;
  }

  /** The queue a call leaves when the caller's quantum is used up, before the caller joins it. */
  function QueueAtExpiry(s: Sched, op: Op): seq<PQData> {
    if Spawns(op) then Push(s.ready, PQData(op.child, op.priority)) else s.ready
  }

  lemma ExpireChooses(s: Sched, self: Tid, ret: int)
    requires self in s.params && self !in Tids(s.ready) && Own(s, self) == s.running && Expire(s, self, ret).Outcome?
    ensures var o := Expire(s, self, ret);
            && o.andThen == Sleep(self, ret) && o.post == Some(o.s.running.tid)
            && (o.s.running.tid != self <==> s.ready != [] && s.ready[0].priority >= s.running.priority)
            && (o.s.running.tid != self ==> o.s.running == s.ready[0] && self in Tids(o.s.ready))
            && (o.s.running.tid == self ==> o.s.running == s.running && o.s.ready == s.ready)
  {
    var e, pushed, o := s.running, Push(s.ready, s.running), Expire(s, self, ret);
    PushHead(s.ready, e);
    if s.ready != [] && s.ready[0].priority >= e.priority {
      assert s.ready[0].tid in Tids(s.ready) by { assert Tids(s.ready)[0] == s.ready[0].tid; }
      var k := Position(s.ready, e.priority);
      assert k > 0 && pushed[k] == e;
      assert Tids(o.s.ready)[k - 1] == self;
    }
  }

  lemma SomeAtLeast(s: seq<PQData>, p: nat)
    requires Sorted(s)
    ensures (s != [] && s[0].priority >= p) <==> exists x :: x in s && x.priority >= p
  {
    if s != [] {
      assert s[0] in s;
    }
  }

  /** The caller with its last unit used, and the queue it is about to join. */
  lemma AtExpiry(a: Abs, e: Event) returns (s: Sched, ret: int)
    requires Inv(a) && MayAct(a, e) && a.s.started
    requires a.s.running.tid in a.s.params && Expires(a.s, e.op)
    ensures e.who in s.params && e.who !in Tids(s.ready) && Own(s, e.who) == s.running == a.s.running
    ensures s.ready == QueueAtExpiry(a.s, e.op) && Sorted(s.ready) && Expire(s, e.who, ret) == Spec(e.op, a.s)
  {
    RunningIsElsewhere(a.s, a.fate, e.who);
    s := Charge(if Spawns(e.op) then Register(a.s, e.op.child, e.op.priority) else a.s);
    ret := if Spawns(e.op) then e.op.child else 0;
    if Spawns(e.op) {
      PushSorted(a.s.ready, PQData(e.op.child, e.op.priority));
      PushElements(a.s.ready, PQData(e.op.child, e.op.priority));
      assert multiset(Tids(s.ready))[e.who] == multiset(Tids(a.s.ready))[e.who] == 0;
    }
  }

  /** A used-up quantum, in so_exec or so_fork, passes the processor to another thread exactly when a ready thread, or
      the new one, has at least the caller's priority; the head of the queue is next, and otherwise nothing moves. */
  lemma ExpiryPasses(a: Abs, e: Event)
    requires Inv(a) && MayAct(a, e) && a.s.started
    requires a.s.running.tid in a.s.params && Expires(a.s, e.op)
    ensures var o, queue := Spec(e.op, a.s), QueueAtExpiry(a.s, e.op);
            && o.Outcome? && o.andThen.Sleep? && o.andThen.self == e.who && o.post == Some(o.s.running.tid)
            && (o.s.running.tid != e.who <==> exists x :: x in queue && x.priority >= a.s.running.priority)
            && (o.s.running.tid != e.who ==> queue != [] && o.s.running == queue[0] && e.who in Tids(o.s.ready))
            && (o.s.running.tid == e.who ==> o.s.ready == queue && o.s.running == a.s.running)
  {
    hide Inv, Expire, Spec;
    ActKeeps(a, e);
    var s, ret := AtExpiry(a, e);
    ExpireChooses(s, e.who, ret);
    SomeAtLeast(s.ready, a.s.running.priority);
  }

  /** In so_exec that thread has exactly the caller's priority. */
  lemma ExecPassesToEqual(a: Abs, e: Event)
    requires Inv(a) && MayAct(a, e) && a.s.started && e.op.Exec?
    requires a.s.running.tid in a.s.params && Expires(a.s, e.op)
    ensures var o := Spec(e.op, a.s);
            && o.Outcome?
            && (o.s.running.tid != e.who <==> exists x :: x in a.s.ready && x.priority == a.s.running.priority)
  {
    ExpiryPasses(a, e);
    hide Spec;
    assert RunningOk(a.s);
  }

  /** so_signal wakes exactly the waiters for the event, returns how many, and leaves the others waiting in order. */
  lemma SignalWakes(a: Abs, e: Event)
    requires Inv(a) && MayAct(a, e) && a.s.started && e.op.Signal? && e.op.event < a.s.io && a.s.waiting != []
    ensures var o := Spec(e.op, a.s);
            && o.Outcome? && o.andThen.Sleep?
            && o.s.waiting == Others(a.s.waiting, e.op.event)
            && o.andThen.ret == |a.s.waiting| - |o.s.waiting|
            && multiset([o.s.running] + o.s.ready) ==
               multiset(a.s.ready) + multiset{a.s.running} + multiset(Woken(a.s.waiting, e.op.event))
  {
    ActKeeps(a, e);
    RunningIsElsewhere(a.s, a.fate, e.who);
    assert Own(a.s, e.who) == a.s.running;
    SignalMoves(a.s, e.op.event);
  }

  lemma SignalMoves(s: Sched, event: nat)
    requires s.started && event < s.io && s.waiting != [] && s.running.tid in s.params
    requires SignalSpec(s, event).Outcome?
    ensures var o := SignalSpec(s, event);
            && o.s.waiting == Others(s.waiting, event)
            && o.andThen == Sleep(s.running.tid, |s.waiting| - |o.s.waiting|)
            && multiset([o.s.running] + o.s.ready) ==
               multiset(s.ready) + multiset{Own(s, s.running.tid)} + multiset(Woken(s.waiting, event))
  {
    var woken := Woken(s.waiting, event);
    var pushed := Push(s.ready, Own(s, s.running.tid));
    var o := SignalSpec(s, event);
    WokenOnce(s.waiting, event);
    PushElements(s.ready, Own(s, s.running.tid));
    PushAllKeeps(pushed, woken);
    assert [o.s.running] + o.s.ready == PushAll(pushed, woken);
  }

  /** An accepted signal for the event. */
  predicate Signals(s: Sched, op: Op, event: nat) {
    op.Signal? && op.event == event < s.io
  }

  lemma WaiterIsNotRunning(a: Abs, w: Waiter)
    requires Inv(a) && a.token && w in a.s.waiting
    ensures a.s.started && a.s.running.tid != w.tid
  {
    if a.s.started {
      RunningIsElsewhere(a.s, a.fate, a.s.running.tid);
      var i :| 0 <= i < |a.s.waiting| && a.s.waiting[i] == w;
      assert WaitTids(a.s.waiting)[i] == w.tid;
    }
  }

  lemma OthersLeaveWaiters(s: Sched, op: Op, w: Waiter)
    requires Spec(op, s).Outcome? && !op.Signal? && w in s.waiting
    ensures w in Spec(op, s).s.waiting
  {
    hide Push;
  }

  lemma SignalTakesWaiter(s: Sched, event: nat, w: Waiter)
    requires s.started && s.running.tid in s.params && w in s.waiting && SignalSpec(s, event).Outcome?
    ensures var s' := SignalSpec(s, event).s;
            if event == w.io < s.io then
              w !in s'.waiting && PQData(w.tid, w.priority) in [s'.running] + s'.ready
            else w in s'.waiting
  {
    if event < s.io {
      hide Push, PushAll, SignalSpec;
      SignalMoves(s, event);
      WokenAndOthers(s.waiting, event);
      var s' := SignalSpec(s, event).s;
      if event == w.io {
        assert PQData(w.tid, w.priority) in multiset([s'.running] + s'.ready);
      }
    }
  }

  /** A waiter makes no call, and leaves the waiting list exactly at a signal for its event, which makes it ready or
      lets it run at once. */
  lemma WaiterMoves(a: Abs, e: Event, w: Waiter)
    requires Inv(a) && MayAct(a, e) && w in a.s.waiting
    ensures CanAct(a, e) && e.who != w.tid
    ensures var s := Act(a, e).s;
            if Signals(a.s, e.op, w.io) then
              w !in s.waiting && PQData(w.tid, w.priority) in [s.running] + s.ready
            else w in s.waiting
  {
    hide Inv, ExecSpec, ForkSpec, WaitSpec, SignalSpec, ExitSpec;
    ActKeeps(a, e);
    WaiterIsNotRunning(a, w);
    if e.op.Signal? {
      RunningHasRecord(a);
      SignalTakesWaiter(a.s, e.op.event, w);
    } else {
      OthersLeaveWaiters(a.s, e.op, w);
    }
  }

  lemma RunningHasRecord(a: Abs)
    requires Inv(a) && a.token && a.s.started
    ensures a.s.running.tid in a.s.params
  {
  }

  /** Over any run without an accepted signal for its event, a waiter stays in the waiting list and makes no call. */
  lemma {:induction false} WaitsForItsSignal(a: Abs, run: seq<Event>, w: Waiter)
    requires Inv(a) && IsRun(a, run) && w in a.s.waiting
    requires forall e :: e in run ==> !Signals(a.s, e.op, w.io)
    ensures After(a, run).s.io == a.s.io && w in After(a, run).s.waiting
    ensures forall e :: e in run ==> e.who != w.tid
    decreases |run|
  {
    hide Inv, Act;
    if run != [] {
      var prefix, last := run[..|run| - 1], run[|run| - 1];
      assert run == prefix + [last];
      WaitsForItsSignal(a, prefix, w);
      RunKeeps(a, prefix);
      WaiterMoves(After(a, prefix), last, w);
      ActParams(After(a, prefix), last);
    }
  }
}
