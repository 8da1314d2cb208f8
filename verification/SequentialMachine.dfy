/** The scheduler as a machine whose calls are atomic, and what every run of it keeps. */
module SequentialMachine {
  import opened Options
  import opened ReadyQueue
  import opened WaitList
  import opened SchedulerSpec

  /** The thread that calls so_init; the system never gives this id to a thread. */
  const MAIN: Tid := INVALID_TID

  /** A thread has ended, or is alive and its latest call returns, or will return, ret. */
  datatype Fate = Live(ret: int) | Ended

  datatype Abs = Abs(s: Sched, token: bool, fate: map<Tid, Fate>)

  datatype Event = Event(who: Tid, op: Op)

  /** The only thread that may call: the one in the running record, or main before the first fork. */
  function Actor(s: Sched): Tid {
    if s.started then s.running.tid else MAIN
  }

  function FateAfter(andThen: Then): Fate {
    match andThen
    case Return(ret) => Live(ret)
    case Sleep(_, ret) => Live(ret)
    case _ => Ended
  }

  predicate Spawns(op: Op) {
    op.Fork? && ValidFork(op.hasFunc, op.priority)
  }

  /** What the system guarantees of a call: the caller is the actor, and a new thread gets a new id. */
  predicate MayAct(a: Abs, e: Event) {
    && a.token && e.who == Actor(a.s)
    && (Spawns(e.op) ==> e.op.child !in a.fate)
  }

  predicate CanAct(a: Abs, e: Event) {
    MayAct(a, e) && Spec(e.op, a.s).Outcome?
  }

  /** The call's effect: the token survives if the caller returns or somebody is posted. */
  function Act(a: Abs, e: Event): Abs
    requires CanAct(a, e)
  {
    var o := Spec(e.op, a.s);
    var fate := if Spawns(e.op) then a.fate[e.op.child := Live(0)] else a.fate;
    Abs(o.s, o.andThen.Return? || o.post.Some?, fate[e.who := FateAfter(o.andThen)])
  }

  /** A call settles how its caller goes on, brings a new thread to life, and is not heard by anybody else. */
  lemma ActFate(a: Abs, e: Event)
    requires CanAct(a, e)
    ensures var a', o := Act(a, e), Spec(e.op, a.s);
            && a'.s == o.s && a'.token == (o.andThen.Return? || o.post.Some?)
            && a'.fate.Keys == a.fate.Keys + (if Spawns(e.op) then {e.op.child} else {}) + {e.who}
            && a'.fate[e.who] == FateAfter(o.andThen)
            && (Spawns(e.op) && e.op.child != e.who ==> a'.fate[e.op.child] == Live(0))
            && forall x :: x in a.fate && x != e.who ==> x in a'.fate && a'.fate[x] == a.fate[x]
  {
    hide Spec;
  }

  predicate IsRun(a: Abs, run: seq<Event>)
    decreases |run|, 0
  {
    run == [] ||
    var prefix := run[..|run| - 1];
    IsRun(a, prefix) && CanAct(After(a, prefix), run[|run| - 1])
  }

  function After(a: Abs, run: seq<Event>): Abs
    requires IsRun(a, run)
    decreases |run|, 1
  {
    if run == [] then a else Act(After(a, run[..|run| - 1]), run[|run| - 1])
  }

  lemma RunStep(a: Abs, run: seq<Event>, e: Event)
    requires IsRun(a, run) && CanAct(After(a, run), e)
    ensures IsRun(a, run + [e]) && After(a, run + [e]) == Act(After(a, run), e)
  {
    assert (run + [e])[..|run + [e]| - 1] == run;
  }

  lemma {:induction false} RunPrefix(a: Abs, run: seq<Event>, i: nat)
    requires IsRun(a, run) && i <= |run|
    ensures IsRun(a, run[..i])
    decreases |run|
  {
    if i == |run| {
      assert run[..i] == run;
    } else {
      var prefix := run[..|run| - 1];
      RunPrefix(a, prefix, i);
      assert prefix[..i] == run[..i];
    }
  }

  function Start(q: nat, io: nat): Abs {
    Abs(Sched(q, io, false, PQData(MAIN, 0), [], [], [], map[]), true, map[MAIN := Live(0)])
  }

  // ---------- The invariant ----------

  ghost function Gone(fate: map<Tid, Fate>): set<Tid> {
    set t | t in fate && t != MAIN && fate[t].Ended?
  }

  ghost function Members(ts: seq<Tid>): set<Tid> {
    set t | t in ts
  }

  ghost predicate NoRepeats(ts: seq<Tid>) {
    forall t :: multiset(ts)[t] <= 1
  }

  /** Every id names a created thread, and every queued copy of a priority is the recorded one. */
  ghost predicate Resolved(s: Sched, fate: map<Tid, Fate>) {
    && s.params.Keys == Members(s.created)
    && fate.Keys == {MAIN} + Members(s.created)
    && NoRepeats(s.created) && MAIN !in Members(s.created)
    && Known(s.ready, s.params)
    && (forall w :: w in s.waiting ==> w.tid in s.params && s.params[w.tid].priority == w.priority)
  }

  ghost predicate Known(es: seq<PQData>, params: map<Tid, Param>) {
    forall e :: e in es ==> e.tid in params && params[e.tid].priority == e.priority
  }

  /** No quantum is ever 0 between calls, nor above the full one. */
  ghost predicate Charged(s: Sched) {
    s.q >= 1 && forall t :: t in s.params ==> 1 <= s.params[t].quantum <= s.q
  }

  /** Every created thread is in exactly one place; place holds the running one. */
  ghost predicate Partition(s: Sched, fate: map<Tid, Fate>, place: multiset<Tid>) {
    multiset(s.created) ==
    place + multiset(Tids(s.ready)) + multiset(WaitTids(s.waiting)) + multiset(Gone(fate))
  }

  ghost predicate Core(s: Sched, fate: map<Tid, Fate>, place: multiset<Tid>) {
    Resolved(s, fate) && Charged(s) && Sorted(s.ready) && Partition(s, fate, place)
  }

  ghost predicate Dominates(s: Sched) {
    forall e :: e in s.ready ==> s.running.priority >= e.priority
  }

  /** The running thread has a record with the same priority, and no ready thread is above it. */
  ghost predicate RunningOk(s: Sched) {
    && s.running.tid in s.params
    && s.params[s.running.tid].priority == s.running.priority
    && Dominates(s)
  }

  ghost predicate Inv(a: Abs) {
    if !a.s.started then
      && Core(a.s, a.fate, multiset{}) && a.s.created == [] && a.fate[MAIN].Live? == a.token
    else if a.token then
      && Core(a.s, a.fate, multiset{a.s.running.tid}) && RunningOk(a.s) && a.fate[MAIN].Ended?
    else
      && Core(a.s, a.fate, multiset{}) && a.s.ready == [] && a.fate[MAIN].Ended?
  }

  lemma StartInv(q: nat, io: nat)
    requires q >= 1
    ensures Inv(Start(q, io))
  {
    assert Gone(Start(q, io).fate) == {};
  }

  // ---------- Moving one thread ----------

  lemma SameGone(fate: map<Tid, Fate>, t: Tid, f: Fate)
    requires t == MAIN || (f.Live? && t !in Gone(fate))
    ensures Gone(fate[t := f]) == Gone(fate)
  {
  }

  lemma OneMoreGone(fate: map<Tid, Fate>, t: Tid)
    requires t != MAIN && t !in Gone(fate)
    ensures Gone(fate[t := Ended]) == Gone(fate) + {t}
    ensures multiset(Gone(fate[t := Ended])) == multiset(Gone(fate)) + multiset{t}
  {
    assert Gone(fate[t := Ended]) == Gone(fate) + {t};
  }

  lemma RunningIsElsewhere(s: Sched, fate: map<Tid, Fate>, t: Tid)
    requires Core(s, fate, multiset{t})
    ensures t in s.params && t in Members(s.created) && t != MAIN && t in fate && fate[t].Live?
    ensures t !in Tids(s.ready) && t !in WaitTids(s.waiting) && t !in Gone(fate)
  {
    var r, w, g := multiset(Tids(s.ready)), multiset(WaitTids(s.waiting)), multiset(Gone(fate));
    assert multiset(s.created)[t] == 1 + r[t] + w[t] + g[t];
    assert t in multiset(s.created);
    assert r[t] == w[t] == g[t] == 0;
    assert t !in g;
  }

  lemma KnownPush(es: seq<PQData>, e: PQData, params: map<Tid, Param>)
    requires Known(es, params) && e.tid in params && params[e.tid].priority == e.priority
    ensures Known(Push(es, e), params)
  {
    var k := Position(es, e.priority);
    assert forall x :: x in Push(es, e) ==> x in es[..k] || x == e || x in es[k..];
  }

  lemma BelowPush(es: seq<PQData>, e: PQData, p: nat)
    requires e.priority <= p && forall x :: x in es ==> x.priority <= p
    ensures forall x :: x in Push(es, e) ==> x.priority <= p
  {
    var k := Position(es, e.priority);
    assert forall x :: x in Push(es, e) ==> x in es[..k] || x == e || x in es[k..];
  }

  lemma {:induction false} KnownPushAll(es: seq<PQData>, more: seq<PQData>, params: map<Tid, Param>)
    requires Known(es, params) && Known(more, params)
    ensures Known(PushAll(es, more), params)
    decreases |more|
  {
    if more != [] {
      KnownPush(es, more[0], params);
      KnownPushAll(Push(es, more[0]), more[1..], params);
    }
  }

  lemma PopTids(ready: seq<PQData>)
    requires ready != []
    ensures multiset(Tids(ready)) == multiset{ready[0].tid} + multiset(Tids(ready[1..]))
  {
    assert ready == [ready[0]] + ready[1..];
    TidsAppend([ready[0]], ready[1..]);
    TidsOne(ready[0]);
  }

  /** The running thread goes to the ready queue. */
  lemma Requeue(s: Sched, fate: map<Tid, Fate>, t: Tid, s': Sched)
    requires Core(s, fate, multiset{t}) && t in s.params
    requires s'.q == s.q && s'.waiting == s.waiting && s'.created == s.created && s'.params == s.params
    requires s'.ready == Push(s.ready, Own(s, t))
    ensures Core(s', fate, multiset{}) && s'.ready != []
  {
    PushSorted(s.ready, Own(s, t));
    PushElements(s.ready, Own(s, t));
    KnownPush(s.ready, Own(s, t), s.params);
  }

  /** With nobody running, the head of the ready queue becomes the running thread, and no ready thread is above it. */
  lemma DispatchKeeps(s: Sched, fate: map<Tid, Fate>, andThen: Then)
    requires Core(s, fate, multiset{}) && s.ready != []
    ensures var o := Dispatch(s, andThen);
            && o == Outcome(s.(running := s.ready[0], ready := s.ready[1..]), Some(s.ready[0].tid), andThen)
            && Core(o.s, fate, multiset{o.s.running.tid}) && RunningOk(o.s)
  {
    var e, rest := s.ready[0], s.ready[1..];
    assert e in s.ready;
    var s' := Dispatch(s, andThen).s;
    assert Partition(s', fate, multiset{e.tid}) by { PopTids(s.ready); }
    assert Resolved(s', fate) && Dominates(s') by {
      assert forall x :: x in rest ==> x in s.ready;
    }
  }

  lemma FateDoesNotMatter(s: Sched, fate: map<Tid, Fate>, place: multiset<Tid>, t: Tid, r: int)
    requires Core(s, fate, place) && t in fate && t !in Gone(fate)
    ensures Core(s, fate[t := Live(r)], place)
  {
    SameGone(fate, t, Live(r));
  }

  lemma ChargeKeeps(s: Sched, fate: map<Tid, Fate>, t: Tid, n: nat)
    requires Core(s, fate, multiset{t}) && t in s.params && 1 <= n <= s.q
    ensures Core(SetQuantum(s, t, n), fate, multiset{t})
  {
  }

  // ---------- One call ----------

  /** What the caller and the thread it names can rely on after a call. */
  ghost predicate Proper(who: Tid, o: Outcome) {
    && o.Outcome?
    && (o.post.Some? ==> o.s.started && o.post.value == o.s.running.tid)
    && match o.andThen {
         case Return(_) => o.post == None && Actor(o.s) == who
         case Sleep(self, _) => self == who && who != MAIN
         case Launched(ret) => who == MAIN && o.post.Some? && o.post.value == ret
         case Finished => true
       }
  }

  lemma ExecKeeps(a: Abs, e: Event)
    requires Inv(a) && MayAct(a, e) && e.op.Exec?
    ensures CanAct(a, e) && Proper(e.who, Spec(e.op, a.s)) && Inv(Act(a, e))
  {
    if a.s.started {
      RunningIsElsewhere(a.s, a.fate, e.who);
      var s := Charge(a.s);
      if s.params[e.who].quantum == 0 {
        ExpireKeeps(a.s, a.fate, e.who, s, 0);
      } else {
        ChargeKeeps(a.s, a.fate, e.who, s.params[e.who].quantum);
        FateDoesNotMatter(s, a.fate, multiset{e.who}, e.who, 0);
      }
    } else {
      SameGone(a.fate, MAIN, Live(0));
    }
  }

  /** After a charge has used up the last unit. */
  lemma ExpireKeeps(s0: Sched, fate: map<Tid, Fate>, t: Tid, s: Sched, ret: int)
    requires Core(s0, fate, multiset{t}) && t in s0.params && t in fate && t !in Gone(fate)
    requires s == SetQuantum(s0, t, 0)
    ensures var o := Expire(s, t, ret);
            && o.Outcome? && o.andThen == Sleep(t, ret) && o.post == Some(o.s.running.tid)
            && o.s.started == s0.started
            && Core(o.s, fate[t := Live(ret)], multiset{o.s.running.tid}) && RunningOk(o.s)
  {
    var s1 := SetQuantum(s, t, s.q);
    assert s1 == SetQuantum(s0, t, s.q);
    ChargeKeeps(s0, fate, t, s.q);
    FateDoesNotMatter(s1, fate, multiset{t}, t, ret);
    var s2 := s1.(ready := Push(s1.ready, Own(s1, t)));
    Requeue(s1, fate[t := Live(ret)], t, s2);
    DispatchKeeps(s2, fate[t := Live(ret)], Sleep(t, ret));
  }

  lemma RunningEnds(s: Sched, fate: map<Tid, Fate>, t: Tid)
    requires Core(s, fate, multiset{t})
    ensures t != MAIN && Core(s, fate[t := Ended], multiset{})
  {
    RunningIsElsewhere(s, fate, t);
    OneMoreGone(fate, t);
  }

  lemma ExitKeeps(a: Abs, e: Event)
    requires Inv(a) && MayAct(a, e) && e.op.Exit?
    ensures CanAct(a, e) && Proper(e.who, Spec(e.op, a.s)) && Inv(Act(a, e))
    ensures Act(a, e).token <==> a.s.ready != []
  {
    var fate := a.fate[e.who := Ended];
    if a.s.started {
      RunningEnds(a.s, a.fate, e.who);
      if a.s.ready != [] {
        DispatchKeeps(a.s, fate, Finished);
      }
    } else {
      SameGone(a.fate, MAIN, Ended);
      assert multiset(Tids(a.s.ready)) <= multiset{};
      assert a.s.ready == [] by { if a.s.ready != [] { PopTids(a.s.ready); } }
    }
  }

  lemma StartWaiting(s: Sched, fate: map<Tid, Fate>, t: Tid, event: nat, s': Sched)
    requires Core(s, fate, multiset{t}) && t in s.params
    requires s' == s.(waiting := s.waiting + [Waiter(t, s.params[t].priority, event)])
    ensures Core(s', fate, multiset{})
  {
    var w := Waiter(t, s.params[t].priority, event);
    assert Partition(s', fate, multiset{}) by {
      WaitTidsAppend(s.waiting, [w]);
      assert WaitTids([w]) == [t];
    }
  }

  lemma WaitKeeps(a: Abs, e: Event)
    requires Inv(a) && MayAct(a, e) && e.op.Wait?
    ensures CanAct(a, e) && Proper(e.who, Spec(e.op, a.s)) && Inv(Act(a, e))
    ensures Act(a, e).token <==> !(a.s.started && e.op.event < a.s.io && a.s.ready == [])
  {
    var o := Spec(e.op, a.s);
    if !a.s.started {
      SameGone(a.fate, MAIN, FateAfter(o.andThen));
    } else {
      RunningIsElsewhere(a.s, a.fate, e.who);
      FateDoesNotMatter(a.s, a.fate, multiset{e.who}, e.who, if e.op.event >= a.s.io then -1 else 0);
      if e.op.event < a.s.io {
        var s := a.s.(waiting := a.s.waiting + [Waiter(e.who, a.s.params[e.who].priority, e.op.event)]);
        StartWaiting(a.s, a.fate[e.who := Live(0)], e.who, e.op.event, s);
        if s.ready != [] {
          DispatchKeeps(s, a.fate[e.who := Live(0)], Sleep(e.who, 0));
        }
      }
    }
  }

  lemma SignalKeeps(a: Abs, e: Event)
    requires Inv(a) && MayAct(a, e) && e.op.Signal?
    ensures CanAct(a, e) && Proper(e.who, Spec(e.op, a.s)) && Inv(Act(a, e))
  {
    var o, event := Spec(e.op, a.s), e.op.event;
    if !a.s.started {
      SameGone(a.fate, MAIN, FateAfter(o.andThen));
    } else {
      RunningIsElsewhere(a.s, a.fate, e.who);
      var woken := Woken(a.s.waiting, event);
      if event >= a.s.io {
        FateDoesNotMatter(a.s, a.fate, multiset{e.who}, e.who, -1);
      } else if a.s.waiting == [] {
        FateDoesNotMatter(a.s, a.fate, multiset{e.who}, e.who, 0);
      } else {
        var fate := a.fate[e.who := Live(|woken|)];
        FateDoesNotMatter(a.s, a.fate, multiset{e.who}, e.who, |woken|);
        var s1 := a.s.(ready := Push(a.s.ready, Own(a.s, e.who)));
        Requeue(a.s, fate, e.who, s1);
        WakeKeeps(s1, fate, event);
        var s2 := s1.(ready := PushAll(s1.ready, woken), waiting := Others(s1.waiting, event));
        DispatchKeeps(s2, fate, Sleep(e.who, |woken|));
      }
    }
  }

  lemma WakeKeeps(s: Sched, fate: map<Tid, Fate>, event: nat)
    requires Core(s, fate, multiset{}) && s.ready != []
    ensures var s' := s.(ready := PushAll(s.ready, Woken(s.waiting, event)), waiting := Others(s.waiting, event));
            Core(s', fate, multiset{}) && s'.ready != []
  {
    var woken := Woken(s.waiting, event);
    var s' := s.(ready := PushAll(s.ready, woken), waiting := Others(s.waiting, event));
    PushAllKeeps(s.ready, woken);
    WokenOnce(s.waiting, event);
    WokenAndOthers(s.waiting, event);
    assert Known(woken, s.params) by {
      assert forall e :: e in woken ==> Waiter(e.tid, e.priority, event) in s.waiting;
    }
    KnownPushAll(s.ready, woken, s.params);
  }

  lemma AppendMembers(ts: seq<Tid>, t: Tid)
    requires t !in Members(ts) && NoRepeats(ts)
    ensures Members(ts + [t]) == Members(ts) + {t}
    ensures multiset(ts + [t]) == multiset(ts) + multiset{t} && NoRepeats(ts + [t])
  {
    assert t !in ts && multiset(ts)[t] == 0;
  }

  lemma RegisterResolves(s: Sched, fate: map<Tid, Fate>, child: Tid, priority: nat)
    requires Resolved(s, fate) && child !in fate
    ensures Resolved(Register(s, child, priority), fate[child := Live(0)])
  {
    hide Push;
    var e, s' := PQData(child, priority), Register(s, child, priority);
    assert child !in s.params;
    AppendMembers(s.created, child);
    assert forall w :: w in s.waiting ==> s'.params[w.tid] == s.params[w.tid];
    assert Known(s.ready, s'.params);
    KnownPush(s.ready, e, s'.params);
  }

  lemma RegisterShares(s: Sched, fate: map<Tid, Fate>, place: multiset<Tid>, child: Tid, priority: nat)
    requires Partition(s, fate, place) && child !in fate
    ensures Partition(Register(s, child, priority), fate[child := Live(0)], place)
  {
    hide Push;
    PushElements(s.ready, PQData(child, priority));
    assert Gone(fate[child := Live(0)]) == Gone(fate);
  }

  lemma RegisterKeeps(s: Sched, fate: map<Tid, Fate>, place: multiset<Tid>, child: Tid, priority: nat)
    requires Core(s, fate, place) && child !in fate
    ensures Core(Register(s, child, priority), fate[child := Live(0)], place)
  {
    hide Push, Sorted, Resolved, Partition;
    RegisterResolves(s, fate, child, priority);
    RegisterShares(s, fate, place, child, priority);
    PushSorted(s.ready, PQData(child, priority));
  }

  lemma ForkKeeps(a: Abs, e: Event)
    requires Inv(a) && MayAct(a, e) && e.op.Fork?
    ensures CanAct(a, e) && Proper(e.who, Spec(e.op, a.s)) && Inv(Act(a, e))
  {
    var o := Spec(e.op, a.s);
    var child, priority := e.op.child, e.op.priority;
    if !Spawns(e.op) {
      if a.s.started {
        RunningIsElsewhere(a.s, a.fate, e.who);
        FateDoesNotMatter(a.s, a.fate, multiset{e.who}, e.who, INVALID_TID);
      } else {
        SameGone(a.fate, MAIN, FateAfter(o.andThen));
      }
    } else {
      var fate := a.fate[child := Live(0)];
      var s1 := Register(a.s, child, priority);
      if !a.s.started {
        assert a.s.ready == [] by { if a.s.ready != [] { PopTids(a.s.ready); } }
        RegisterKeeps(a.s, a.fate, multiset{}, child, priority);
        DispatchKeeps(s1, fate, Launched(child));
        SameGone(fate, MAIN, Ended);
      } else {
        RunningIsElsewhere(a.s, a.fate, e.who);
        RegisterKeeps(a.s, a.fate, multiset{e.who}, child, priority);
        RunningIsElsewhere(s1, fate, e.who);
        ForkCharges(s1, fate, e.who, child);
      }
    }
  }

  /** The charging part of a fork; s1 and fate are what registering the child leaves. */
  lemma ForkCharges(s1: Sched, fate: map<Tid, Fate>, t: Tid, child: Tid)
    requires s1.started && s1.running.tid == t && s1.ready != []
    requires Core(s1, fate, multiset{t}) && t in s1.params && t in fate && t !in Gone(fate)
    requires s1.params[t].priority == s1.running.priority
    ensures var s2 := Charge(s1);
            if s2.params[t].quantum == 0 then
              var o := Expire(s2, t, child);
              && o.Outcome? && o.andThen == Sleep(t, child) && o.post == Some(o.s.running.tid)
              && o.s.started
              && Core(o.s, fate[t := Live(child)], multiset{o.s.running.tid}) && RunningOk(o.s)
            else if s2.ready[0].priority > s2.running.priority then
              && s2.ready[0].tid in s2.params
              && var s' := s2.(running := s2.ready[0], ready := Push(s2.ready[1..], Own(s2, t)));
                 Core(s', fate[t := Live(child)], multiset{s'.running.tid}) && RunningOk(s')
            else
              Core(s2, fate[t := Live(child)], multiset{t}) && RunningOk(s2)
  {
    var s2 := Charge(s1);
    if s2.params[t].quantum == 0 {
      ExpireKeeps(s1, fate, t, s2, child);
    } else {
      ChargeKeeps(s1, fate, t, s2.params[t].quantum);
      FateDoesNotMatter(s2, fate, multiset{t}, t, child);
      AfterCharge(s2, fate[t := Live(child)], t, child);
    }
  }

  /** The part of a fork that follows a charge with quantum left: preempt, or go on. */
  lemma AfterCharge(s: Sched, fate: map<Tid, Fate>, t: Tid, child: Tid)
    requires Core(s, fate, multiset{t}) && t in s.params && s.running.tid == t
    requires s.params[t].priority == s.running.priority && s.ready != []
    ensures s.ready[0].priority > s.running.priority ==>
              && s.ready[0].tid in s.params
              && var s' := s.(running := s.ready[0], ready := Push(s.ready[1..], Own(s, t)));
                 Core(s', fate, multiset{s'.running.tid}) && RunningOk(s')
    ensures s.ready[0].priority <= s.running.priority ==> RunningOk(s)
  {
    hide Push;
    var e, rest := s.ready[0], s.ready[1..];
    assert e in s.ready;
    if e.priority > s.running.priority {
      var s' := s.(running := e, ready := Push(rest, Own(s, t)));
      assert Partition(s', fate, multiset{e.tid}) by {
        PopTids(s.ready);
        PushElements(rest, Own(s, t));
      }
      assert Sorted(s'.ready) by { PushSorted(rest, Own(s, t)); }
      assert Known(s'.ready, s.params) by { KnownPush(rest, Own(s, t), s.params); }
      assert Dominates(s') by { BelowPush(rest, Own(s, t), e.priority); }
    }
  }

  /** Every call a system makes keeps the invariant and crashes nowhere. */
  lemma {:induction false} ActKeeps(a: Abs, e: Event)
    requires Inv(a) && MayAct(a, e)
    ensures CanAct(a, e) && Proper(e.who, Spec(e.op, a.s)) && Inv(Act(a, e))
  {
    match e.op
    case Exec => ExecKeeps(a, e);
    case Fork(_, _, _) => ForkKeeps(a, e);
    case Wait(_) => WaitKeeps(a, e);
    case Signal(_) => SignalKeeps(a, e);
    case Exit => ExitKeeps(a, e);
  }

  lemma {:induction false} RunKeeps(a: Abs, run: seq<Event>)
    requires Inv(a) && IsRun(a, run)
    ensures Inv(After(a, run))
    decreases |run|
  {
    if run != [] {
      var prefix := run[..|run| - 1];
      RunKeeps(a, prefix);
      ActKeeps(After(a, prefix), run[|run| - 1]);
    }
  }

  lemma RunningFacts(a: Abs)
    requires Inv(a) && a.token && a.s.started
    ensures var s := a.s;
            && s.running.tid in s.params && s.params[s.running.tid].priority == s.running.priority && s.q >= 1
            && 1 <= s.params[s.running.tid].quantum && Dominates(s) && Sorted(s.ready)
            && forall t :: t in s.params ==> t in a.fate
  {
  }

  // ---------- What the invariant says of every run ----------

  /** How many places a thread is in: running with the right to run, ready, waiting, ended. */
  function Places(a: Abs, t: Tid): nat {
    (if a.s.started && a.token && a.s.running.tid == t then 1 else 0)
    + multiset(Tids(a.s.ready))[t] + multiset(WaitTids(a.s.waiting))[t]
    + (if t != MAIN && t in a.fate && a.fate[t].Ended? then 1 else 0)
  }

  lemma PlacesOf(a: Abs, t: Tid)
    requires Inv(a)
    ensures Places(a, t) == multiset(a.s.created)[t] == if t in a.s.created then 1 else 0
  {
    hide Sorted, Charged, RunningOk;
    assert multiset(Gone(a.fate))[t] == if t in Gone(a.fate) then 1 else 0;
    assert t in a.s.created <==> t in multiset(a.s.created);
  }

  /** Conservation over every run: a thread ever created is in exactly one place, any other id in none. */
  lemma {:induction false} EveryThreadInOnePlace(q: nat, io: nat, run: seq<Event>, t: Tid)
    requires q >= 1 && IsRun(Start(q, io), run)
    ensures var a := After(Start(q, io), run);
            Places(a, t) == multiset(a.s.created)[t] == if t in a.s.created then 1 else 0
  {
    hide Inv, Places;
    StartInv(q, io);
    RunKeeps(Start(q, io), run);
    PlacesOf(After(Start(q, io), run), t);
  }

  /** Dominance over every run: whoever may run has the highest priority among the ready, and it is its own. */
  lemma {:induction false} HighestPriorityRuns(q: nat, io: nat, run: seq<Event>)
    requires q >= 1 && IsRun(Start(q, io), run)
    ensures var a := After(Start(q, io), run);
            && Sorted(a.s.ready)
            && (a.s.started && a.token ==>
                  && (forall e :: e in a.s.ready ==> e.priority <= a.s.running.priority)
                  && a.s.running.tid in a.s.params
                  && a.s.params[a.s.running.tid].priority == a.s.running.priority)
            && (!a.token ==> a.s.ready == [])
  {
    StartInv(q, io);
    RunKeeps(Start(q, io), run);
    var a := After(Start(q, io), run);
    if !a.s.started && a.s.ready != [] {
      PopTids(a.s.ready);
    }
  }
}
