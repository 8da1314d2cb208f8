/** Round robin: the threads that take turns while everybody only computes, and when each of them runs. */
module Rotation {
  import opened Options
  import opened ReadyQueue
  import opened WaitList
  import opened SchedulerSpec
  import opened SequentialMachine
  import opened Policy

  // ---------- Who takes turns ----------

  predicate AllExec(run: seq<Event>) {
    forall e :: e in run ==> e.op.Exec?
  }

  /** The threads that take turns: everybody if the whole queue is at the running priority, the running thread
      and the head if only the tail is lower, and the running thread alone if the head is lower already. */
  function Cycle(s: Sched): seq<PQData> {
    if s.ready == [] || s.ready[0].priority != s.running.priority then [s.running]
    else if s.ready[|s.ready| - 1].priority == s.running.priority then [s.running] + s.ready
    else [s.running, s.ready[0]]
  }

  lemma InCycleAt(s: Sched, j: nat)
    requires Sorted(s.ready) && Dominates(s) && j < |s.ready| && s.ready[j].priority == s.running.priority
    requires !JumpsQueue(s.ready, s.running.priority)
    ensures s.ready[j] in Cycle(s)
  {
    assert s.ready[0] in s.ready && s.ready[|s.ready| - 1] in s.ready;
    assert s.ready[0].priority == s.running.priority;
    assert s.ready[|s.ready| - 1].priority < s.running.priority ==> j == 0;
  }

  /** Every ready thread of the running priority is in the cycle exactly when two of them are not queued in front of a
      lower tail. */
  lemma CycleHasEquals(a: Abs)
    requires Inv(a) && a.token && a.s.started
    ensures (forall x :: x in a.s.ready && x.priority == a.s.running.priority ==> x in Cycle(a.s))
            <==> !JumpsQueue(a.s.ready, a.s.running.priority)
  {
    hide Inv, Cycle;
    RunningFacts(a);
    var s, p := a.s, a.s.running.priority;
    if JumpsQueue(s.ready, p) {
      var i, j :| 0 <= i < j < |s.ready| && s.ready[i].priority == s.ready[j].priority == p;
      assert s.ready[j] !in Cycle(s) by { LeftOut(a, j); }
    } else {
      forall x | x in s.ready && x.priority == p ensures x in Cycle(s) {
        var j :| 0 <= j < |s.ready| && s.ready[j] == x;
        InCycleAt(s, j);
      }
    }
  }

  lemma LeftOut(a: Abs, j: nat)
    requires Inv(a) && a.token && a.s.started && 0 < j < |a.s.ready|
    requires a.s.ready[j].priority == a.s.running.priority > a.s.ready[|a.s.ready| - 1].priority
    ensures Cycle(a.s) == [a.s.running, a.s.ready[0]] && a.s.ready[j] !in Cycle(a.s)
  {
    var s := a.s;
    assert s.ready[0] in s.ready;
    DistinctIds(a, 0, j);
    RunningIsElsewhere(s, a.fate, s.running.tid);
    assert Tids(s.ready)[j] == s.ready[j].tid;
  }

  lemma DistinctIds(a: Abs, i: nat, j: nat)
    requires Inv(a) && i < j < |a.s.ready|
    ensures a.s.ready[i].tid != a.s.ready[j].tid
  {
    var ts := Tids(a.s.ready);
    if ts[i] == ts[j] {
      assert multiset(ts)[ts[i]] <= multiset(a.s.created)[ts[i]] <= 1;
      TwiceIn(ts, i, j);
    }
  }

  lemma TwiceIn(ts: seq<Tid>, i: nat, j: nat)
    requires i < j < |ts| && ts[i] == ts[j]
    ensures multiset(ts)[ts[i]] >= 2
  {
    assert ts == ts[..j] + ts[j..];
    assert ts[i] in ts[..j] && ts[i] in ts[j..];
  }

  function Turn(l: seq<PQData>): (r: seq<PQData>)
    requires l != []
    ensures |r| == |l|
  {
    l[1..] + [l[0]]
  }

  function Turns(l: seq<PQData>, n: nat): (r: seq<PQData>)
    requires l != []
    ensures |r| == |l|
  {
    if n == 0 then l else Turn(Turns(l, n - 1))
  }

  lemma ModPlus(x: nat, n: nat)
    requires n >= 1
    ensures (x + n) % n == x % n
  {
    assert x + n == n * (x / n + 1) + x % n by { assert n * (x / n + 1) == n * (x / n) + n; }
    QuotientAndRest(x + n, n, x / n + 1, x % n);
  }

  lemma {:induction false} TurnsAt(l: seq<PQData>, n: nat, i: nat)
    requires i < |l|
    ensures Turns(l, n)[i] == l[(n + i) % |l|]
  {
    if n > 0 {
      if i + 1 < |l| {
        TurnsAt(l, n - 1, i + 1);
      } else {
        TurnsAt(l, n - 1, 0);
        ModPlus(n - 1, |l|);
      }
    }
  }

  /** l takes turns at one priority in front of rest, which an expiry does not touch. */
  ghost predicate TakesTurns(l: seq<PQData>, rest: seq<PQData>) {
    && l != []
    && (forall x :: x in l ==> x.priority == l[0].priority)
    && (|| rest == []
        || (|l| == 1 && rest[0].priority < l[0].priority)
        || (|l| == 2 && rest[|rest| - 1].priority < l[0].priority))
  }

  lemma CycleTakesTurns(s: Sched)
    requires Sorted(s.ready) && Dominates(s)
    ensures var l := Cycle(s);
            TakesTurns(l, s.ready[|l| - 1..]) && [s.running] + s.ready == l + s.ready[|l| - 1..]
  {
    var l, p := Cycle(s), s.running.priority;
    if s.ready == [] {
    } else if s.ready[0].priority != p {
      assert s.ready[0] in s.ready;
    } else if s.ready[|s.ready| - 1].priority == p {
      assert s.ready[|l| - 1..] == [];
      forall x | x in l ensures x.priority == p {
        if x in s.ready {
          var i :| 0 <= i < |s.ready| && s.ready[i] == x;
        }
      }
    } else {
      assert s.ready[|s.ready| - 1] in s.ready;
      assert [s.running] + s.ready == [s.running, s.ready[0]] + s.ready[1..];
    }
  }

  /** Re-queuing the first of l and dispatching moves it to the end of l. */
  lemma ExpiryTurns(l: seq<PQData>, rest: seq<PQData>)
    requires TakesTurns(l, rest)
    ensures Push(l[1..] + rest, l[0]) == Turn(l) + rest
    ensures TakesTurns(Turn(l), rest)
  {
    var ready := l[1..] + rest;
    assert forall i :: 0 <= i < |l| ==> l[i] in l;
    if rest == [] {
      assert ready == l[1..];
      if |l| > 1 {
        PushLast(ready, l[0]);
      }
    } else if |l| == 2 {
      assert ready[0] == l[1] && ready[|ready| - 1] == rest[|rest| - 1];
      PushSecond(ready, l[0]);
      assert ready[1..] == rest;
      assert [l[1], l[0]] + rest == Turn(l) + rest;
    } else {
      assert ready == rest;
    }
    assert forall x :: x in Turn(l) ==> x in l;
  }

  lemma HeadAndTail(x: PQData, xs: seq<PQData>, l: seq<PQData>, rest: seq<PQData>)
    requires l != [] && [x] + xs == l + rest
    ensures x == l[0] && xs == l[1..] + rest
  {
    assert x == ([x] + xs)[0];
    assert xs == ([x] + xs)[1..];
  }

  lemma {:induction false} TurnsKeep(l: seq<PQData>, rest: seq<PQData>, n: nat)
    requires TakesTurns(l, rest)
    ensures TakesTurns(Turns(l, n), rest)
    ensures forall x :: x in Turns(l, n) <==> x in l
  {
    if n > 0 {
      TurnsKeep(l, rest, n - 1);
      var before := Turns(l, n - 1);
      ExpiryTurns(before, rest);
      assert before == [before[0]] + before[1..];
    }
  }

  /** The queue after the running thread's quantum is used up. */
  lemma EndOfTurn(s: Sched, s': Sched, now: seq<PQData>, rest: seq<PQData>)
    requires TakesTurns(now, rest) && [s.running] + s.ready == now + rest
    requires var pushed := Push(s.ready, s.running); s'.running == pushed[0] && s'.ready == pushed[1..]
    ensures [s'.running] + s'.ready == Turn(now) + rest && s'.running == Turn(now)[0]
  {
    HeadAndTail(s.running, s.ready, now, rest);
    ExpiryTurns(now, rest);
    assert [s'.running] + s'.ready == Push(s.ready, s.running);
    HeadAndTail(s'.running, s'.ready, Turn(now), rest);
  }

  // ---------- How long each turn is ----------

  /** The length of turn k: what is left of the quantum of a thread that has not had a turn yet, then full quanta. */
  function Slice(s: Sched, l: seq<PQData>, k: nat): nat {
    if k < |l| && l[k].tid in s.params then s.params[l[k].tid].quantum else s.q
  }

  /** The charges that make up the first k turns. */
  function Elapsed(s: Sched, l: seq<PQData>, k: nat): nat {
    if k == 0 then 0 else Elapsed(s, l, k - 1) + Slice(s, l, k - 1)
  }

  /** The turn that charge number n, from 0, is part of. */
  ghost function TurnNumber(s: Sched, l: seq<PQData>, n: nat): (k: nat)
    requires Charged(s)
    ensures Elapsed(s, l, k) <= n < Elapsed(s, l, k + 1)
  {
    if n == 0 then 0
    else
      var k := TurnNumber(s, l, n - 1);
      if n < Elapsed(s, l, k + 1) then k else k + 1
  }

  lemma {:induction false} ElapsedGrows(s: Sched, l: seq<PQData>, j: nat, k: nat)
    requires j <= k
    ensures Elapsed(s, l, j) <= Elapsed(s, l, k)
    decreases k
  {
    if j < k {
      ElapsedGrows(s, l, j, k - 1);
    }
  }

  lemma TurnIsUnique(s: Sched, l: seq<PQData>, j: nat, k: nat, n: nat)
    requires Elapsed(s, l, j) <= n < Elapsed(s, l, j + 1) && Elapsed(s, l, k) <= n < Elapsed(s, l, k + 1)
    ensures j == k
  {
    if j < k {
      ElapsedGrows(s, l, j + 1, k);
    } else if k < j {
      ElapsedGrows(s, l, k + 1, j);
    }
  }

  /** No turn is longer than a full quantum. */
  lemma {:induction false} ElapsedAtMost(s: Sched, l: seq<PQData>, k: nat)
    requires Charged(s)
    ensures Elapsed(s, l, k) <= s.q * k
  {
    if k > 0 {
      ElapsedAtMost(s, l, k - 1);
      OneMore(s.q, k - 1);
    }
  }

  // ---------- One charge ----------

  /** What is left of the quantum of the thread whose turn is i turns ahead, k turns and u charges after s0. */
  predicate QuantumLeft(s0: Sched, s: Sched, l: seq<PQData>, k: nat, u: nat, i: nat)
    requires i < |l|
  {
    var t := Turns(l, k)[i].tid;
    t in s.params && s.params[t].quantum == Slice(s0, l, k + i) - if i == 0 then u else 0
  }

  ghost predicate Quanta(s0: Sched, s: Sched, l: seq<PQData>, k: nat, u: nat) {
    forall i :: 0 <= i < |l| ==> QuantumLeft(s0, s, l, k, u, i)
  }

  /** k turns and u charges after s0. */
  ghost predicate InTurn(s0: Sched, a: Abs, l: seq<PQData>, rest: seq<PQData>, k: nat, u: nat) {
    && TakesTurns(l, rest)
    && Inv(a) && a.token && a.s.started && a.s.q == s0.q
    && [a.s.running] + a.s.ready == Turns(l, k) + rest
    && u < Slice(s0, l, k) && Quanta(s0, a.s, l, k, u)
  }

  lemma ExecEffect(a: Abs, e: Event)
    requires Inv(a) && CanAct(a, e) && a.s.started && e.op.Exec?
    ensures a.s.running.tid in a.s.params && Inv(Act(a, e))
    ensures var s, s', p := a.s, Act(a, e).s, a.s.params[a.s.running.tid];
            && Act(a, e).token && s'.started && s'.q == s.q && p.quantum >= 1
            && if p.quantum > 1 then s' == SetQuantum(s, s.running.tid, p.quantum - 1)
               else
                 var pushed := Push(s.ready, s.running);
                 && s'.params == SetQuantum(s, s.running.tid, s.q).params
                 && s'.running == pushed[0] && s'.ready == pushed[1..]
  {
    hide Push;
    ActKeeps(a, e);
    ActParams(a, e);
    assert Own(a.s, a.s.running.tid) == a.s.running;
  }

  lemma InCycle(s0: Sched, a: Abs, l: seq<PQData>, rest: seq<PQData>, k: nat, u: nat)
    requires InTurn(s0, a, l, rest, k, u)
    ensures a.s.running == Turns(l, k)[0] && a.s.running.tid in a.s.params
    ensures a.s.params[a.s.running.tid].quantum == Slice(s0, l, k) - u
    ensures forall i :: 1 <= i < |l| ==> Turns(l, k)[i].tid != a.s.running.tid
  {
    assert QuantumLeft(s0, a.s, l, k, u, 0);
    HeadAndTail(a.s.running, a.s.ready, Turns(l, k), rest);
    RunningIsElsewhere(a.s, a.fate, a.s.running.tid);
    forall i | 1 <= i < |l| ensures Turns(l, k)[i].tid != a.s.running.tid {
      assert Turns(l, k)[i] == a.s.ready[i - 1];
      assert Tids(a.s.ready)[i - 1] == Turns(l, k)[i].tid;
    }
  }

  lemma SameTurn(s0: Sched, a: Abs, e: Event, l: seq<PQData>, rest: seq<PQData>, k: nat, u: nat)
    requires InTurn(s0, a, l, rest, k, u) && u + 1 < Slice(s0, l, k)
    requires CanAct(a, e) && e.op.Exec?
    ensures InTurn(s0, Act(a, e), l, rest, k, u + 1)
  {
    hide Inv, Act, CanAct, Turns, Slice;
    InCycle(s0, a, l, rest, k, u);
    ExecEffect(a, e);
    var s', now := Act(a, e).s, u + 1;
    forall i | 0 <= i < |l| ensures QuantumLeft(s0, s', l, k, now, i) {
      assert QuantumLeft(s0, a.s, l, k, u, i);
    }
  }

  lemma QuantaAfterTurn(s0: Sched, s: Sched, s': Sched, l: seq<PQData>, k: nat, u: nat)
    requires l != [] && Quanta(s0, s, l, k, u) && s.q == s0.q
    requires s.running == Turns(l, k)[0] && s.running.tid in s.params
    requires forall i :: 1 <= i < |l| ==> Turns(l, k)[i].tid != s.running.tid
    requires s'.params == SetQuantum(s, s.running.tid, s.q).params
    ensures Quanta(s0, s', l, k + 1, 0)
  {
    assert QuantumLeft(s0, s, l, k, u, 0);
    var next := k + 1;
    forall i | 0 <= i < |l| ensures QuantumLeft(s0, s', l, next, 0, i) {
      if i + 1 < |l| {
        assert QuantumLeft(s0, s, l, k, u, i + 1);
        assert Turns(l, k + 1)[i] == Turns(l, k)[i + 1];
      } else {
        assert Turns(l, k + 1)[i] == Turns(l, k)[0];
      }
    }
  }

  lemma NextTurn(s0: Sched, a: Abs, e: Event, l: seq<PQData>, rest: seq<PQData>, k: nat, u: nat)
    requires InTurn(s0, a, l, rest, k, u) && u + 1 == Slice(s0, l, k)
    requires CanAct(a, e) && e.op.Exec?
    ensures InTurn(s0, Act(a, e), l, rest, k + 1, 0)
  {
    hide Inv, Act, CanAct, Turns, Slice, Push;
    InCycle(s0, a, l, rest, k, u);
    ExecEffect(a, e);
    TurnsKeep(l, rest, k);
    EndOfTurn(a.s, Act(a, e).s, Turns(l, k), rest);
    QuantaAfterTurn(s0, a.s, Act(a, e).s, l, k, u);
    NextOrder(l, k);
    SliceIsPositive(Act(a, e), s0, l, k + 1);
  }

  lemma NextOrder(l: seq<PQData>, k: nat)
    requires l != []
    ensures Turns(l, k + 1) == Turn(Turns(l, k))
  {
  }

  lemma SliceIsPositive(a: Abs, s0: Sched, l: seq<PQData>, k: nat)
    requires Inv(a) && l != [] && Quanta(s0, a.s, l, k, 0)
    ensures Slice(s0, l, k) >= 1
  {
    assert QuantumLeft(s0, a.s, l, k, 0, 0);
  }

  // ---------- Any number of charges ----------

  lemma CycleKnown(a: Abs, i: nat)
    requires Inv(a) && a.token && a.s.started && i < |Cycle(a.s)|
    ensures Cycle(a.s)[i].tid in a.s.params && Slice(a.s, Cycle(a.s), i) >= 1
  {
    RunningFacts(a);
    if i > 0 {
      assert Cycle(a.s)[i] == a.s.ready[i - 1];
      assert a.s.ready[i - 1] in a.s.ready;
    }
  }

  lemma FirstQuanta(s: Sched, l: seq<PQData>)
    requires forall i :: 0 <= i < |l| ==> l[i].tid in s.params
    ensures Quanta(s, s, l, 0, 0)
  {
  }

  lemma FirstTurn(a: Abs)
    requires Inv(a) && a.token && a.s.started
    ensures var l := Cycle(a.s); InTurn(a.s, a, l, a.s.ready[|l| - 1..], 0, 0)
  {
    hide Inv, Cycle, Sorted, Slice, TakesTurns, Quanta;
    var l := Cycle(a.s);
    RunningFacts(a);
    CycleTakesTurns(a.s);
    forall i | 0 <= i < |l| ensures l[i].tid in a.s.params && Slice(a.s, l, i) >= 1 {
      CycleKnown(a, i);
    }
    FirstQuanta(a.s, l);
  }

  lemma {:induction false} ExecsInTurn(a: Abs, run: seq<Event>) returns (k: nat, u: nat)
    requires Inv(a) && a.token && a.s.started && IsRun(a, run) && AllExec(run)
    ensures var l := Cycle(a.s); InTurn(a.s, After(a, run), l, a.s.ready[|l| - 1..], k, u)
    ensures |run| == Elapsed(a.s, Cycle(a.s), k) + u
    decreases |run|
  {
    hide Inv, Act, CanAct, InTurn, Cycle, Slice;
    var l := Cycle(a.s);
    CycleLength(a.s);
    if run == [] {
      k, u := 0, 0;
      FirstTurn(a);
    } else {
      var prefix := run[..|run| - 1];
      assert forall e :: e in prefix ==> e in run;
      k, u := ExecsInTurn(a, prefix);
      ExecsOneMore(a.s, After(a, prefix), run[|run| - 1], l, a.s.ready[|l| - 1..], k, u);
      if u + 1 == Slice(a.s, l, k) {
        k, u := k + 1, 0;
      } else {
        u := u + 1;
      }
    }
  }

  lemma CycleLength(s: Sched)
    ensures 1 <= |Cycle(s)| <= |s.ready| + 1
  {
  }

  lemma ExecsOneMore(s0: Sched, a: Abs, e: Event, l: seq<PQData>, rest: seq<PQData>, k: nat, u: nat)
    requires InTurn(s0, a, l, rest, k, u) && CanAct(a, e) && e.op.Exec?
    ensures u < Slice(s0, l, k)
    ensures if u + 1 == Slice(s0, l, k) then InTurn(s0, Act(a, e), l, rest, k + 1, 0)
            else InTurn(s0, Act(a, e), l, rest, k, u + 1)
  {
    hide Inv, Act, CanAct, Slice;
    if u + 1 == Slice(s0, l, k) {
      NextTurn(s0, a, e, l, rest, k, u);
    } else {
      SameTurn(s0, a, e, l, rest, k, u);
    }
  }

  /** The scheduler s after n charges from s0: the runner is the next in rotation order after the turns that are over,
      it has what is left of its turn, the rest of the cycle is queued in the order of its turns, and whoever is behind
      the cycle has not moved. */
  ghost predicate AfterExecs(s: Sched, s0: Sched, n: nat)
    requires Charged(s0)
  {
    var l := Cycle(s0);
    var k := TurnNumber(s0, l, n);
    && s.running == l[k % |l|]
    && s.ready == Turns(l, k)[1..] + s0.ready[|l| - 1..]
    && s.running.tid in s.params && s.params[s.running.tid].quantum == Elapsed(s0, l, k + 1) - n
  }

  /** Round robin in closed form, from any state and for any number of so_exec calls. */
  lemma {:induction false} RoundRobin(a: Abs, run: seq<Event>)
    requires Inv(a) && a.token && a.s.started && IsRun(a, run) && AllExec(run)
    ensures Charged(a.s) && AfterExecs(After(a, run).s, a.s, |run|)
  {
    hide Inv, After, IsRun, Cycle, Slice;
    AllCharged(a);
    var k, u := ExecsInTurn(a, run);
    var l, b := Cycle(a.s), After(a, run);
    CycleLength(a.s);
    TurnIsUnique(a.s, l, TurnNumber(a.s, l, |run|), k, |run|);
    InCycle(a.s, b, l, a.s.ready[|l| - 1..], k, u);
    TurnsAt(l, k, 0);
    HeadAndTail(b.s.running, b.s.ready, Turns(l, k), a.s.ready[|l| - 1..]);
  }

  lemma AllCharged(a: Abs)
    requires Inv(a)
    ensures Charged(a.s)
  {
  }

  // ---------- Full quanta ----------

  /** Everybody in the cycle but the running thread has a full quantum. */
  ghost predicate FullQuanta(s: Sched) {
    forall i :: 1 <= i < |Cycle(s)| ==> Slice(s, Cycle(s), i) == s.q
  }

  lemma {:induction false} FullElapsed(s: Sched, k: nat)
    requires FullQuanta(s) && k >= 1
    ensures Elapsed(s, Cycle(s), k) == s.q * k - (s.q - Slice(s, Cycle(s), 0))
  {
    hide Cycle;
    if k == 1 {
      assert Elapsed(s, Cycle(s), 0) == 0;
    } else {
      FullElapsed(s, k - 1);
      OneMore(s.q, k - 1);
      assert Slice(s, Cycle(s), k - 1) == s.q;
    }
  }

  /** From full quanta the turn is a quotient: n charges from the start of the running turn are n / q turns. */
  lemma FullTurns(s: Sched, n: nat)
    requires Charged(s) && FullQuanta(s)
    ensures var used := s.q - Slice(s, Cycle(s), 0);
            && used >= 0
            && TurnNumber(s, Cycle(s), n) == (n + used) / s.q
            && Elapsed(s, Cycle(s), TurnNumber(s, Cycle(s), n) + 1) - n == s.q - (n + used) % s.q
  {
    hide Cycle;
    var l := Cycle(s);
    var used, k := s.q - Slice(s, l, 0), TurnNumber(s, l, n);
    FullElapsed(s, k + 1);
    OneMore(s.q, k);
    if k == 0 {
      assert Elapsed(s, l, 0) == 0 && Elapsed(s, l, 1) == Slice(s, l, 0);
    } else {
      FullElapsed(s, k);
    }
    QuotientAndRest(n + used, s.q, k, n + used - s.q * k);
  }

  // ---------- Who gets to run ----------

  /** x runs at some time while everybody only computes. */
  ghost predicate GetsTurn(a: Abs, x: PQData) {
    exists run :: IsRun(a, run) && AllExec(run) && After(a, run).s.running == x
  }

  /** Everybody may go on computing for ever. */
  lemma {:induction false} ExecRun(a: Abs, n: nat) returns (run: seq<Event>)
    requires Inv(a) && a.token && a.s.started
    ensures IsRun(a, run) && AllExec(run) && |run| == n
    ensures Inv(After(a, run)) && After(a, run).token && After(a, run).s.started
  {
    hide Inv, Act;
    run := [];
    if n > 0 {
      run := ExecRun(a, n - 1);
      var b := After(a, run);
      var e := Event(Actor(b.s), Exec);
      ActKeeps(b, e);
      ExecEffect(b, e);
      RunStep(a, run, e);
      run := run + [e];
    }
  }

  lemma RunnerOf(s: Sched, s0: Sched, n: nat, j: nat)
    requires Charged(s0) && AfterExecs(s, s0, n) && j < |Cycle(s0)| && TurnNumber(s0, Cycle(s0), n) == j
    ensures s.running == Cycle(s0)[j]
  {
    hide Cycle, Slice, Turns;
    QuotientAndRest(j, |Cycle(s0)|, 0, j);
  }

  lemma RunnerAt(a: Abs, run: seq<Event>, j: nat)
    requires Inv(a) && a.token && a.s.started && IsRun(a, run) && AllExec(run)
    requires j < |Cycle(a.s)| && |run| == Elapsed(a.s, Cycle(a.s), j)
    ensures After(a, run).s.running == Cycle(a.s)[j]
  {
    hide Inv, After, IsRun, Cycle, AfterExecs, AllExec;
    var l := Cycle(a.s);
    RoundRobin(a, run);
    CycleKnown(a, j);
    TurnIsUnique(a.s, l, TurnNumber(a.s, l, |run|), j, |run|);
    RunnerOf(After(a, run).s, a.s, |run|, j);
  }

  /** The cycle is exactly who gets to run. */
  lemma RunnersAreTheCycle(a: Abs, x: PQData)
    requires Inv(a) && a.token && a.s.started
    ensures GetsTurn(a, x) <==> x in Cycle(a.s)
  {
    hide Inv, After, IsRun, Cycle, AllExec, Elapsed;
    var l := Cycle(a.s);
    CycleLength(a.s);
    if GetsTurn(a, x) {
      var run :| IsRun(a, run) && AllExec(run) && After(a, run).s.running == x;
      RoundRobin(a, run);
    }
    if x in l {
      var j :| 0 <= j < |l| && l[j] == x;
      var run := ExecRun(a, Elapsed(a.s, l, j));
      RunnerAt(a, run, j);
      assert IsRun(a, run) && AllExec(run) && After(a, run).s.running == x;
    }
  }

  /** Every ready thread of the running priority gets to run, as long as everybody only computes, if and only if there
      are not two of them queued in front of a lower tail. */
  lemma FairExactlyWhen(a: Abs)
    requires Inv(a) && a.token && a.s.started
    ensures (forall x :: x in a.s.ready && x.priority == a.s.running.priority ==> GetsTurn(a, x))
            <==> !JumpsQueue(a.s.ready, a.s.running.priority)
  {
    hide Inv, Cycle, GetsTurn;
    CycleHasEquals(a);
    forall x ensures GetsTurn(a, x) <==> x in Cycle(a.s) {
      RunnersAreTheCycle(a, x);
    }
  }

  /** Who gets to run at all does so in any run of so_exec calls that is long enough for a quantum for each thread
      ahead. */
  lemma TurnComesInTime(a: Abs, run: seq<Event>, x: PQData) returns (i: nat)
    requires Inv(a) && a.token && a.s.started && IsRun(a, run) && AllExec(run)
    requires x in Cycle(a.s) && |run| >= a.s.q * (|Cycle(a.s)| - 1)
    ensures i <= |run| && IsRun(a, run[..i]) && After(a, run[..i]).s.running == x
  {
    hide Inv, After, IsRun, Cycle;
    var l := Cycle(a.s);
    var j :| 0 <= j < |l| && l[j] == x;
    i := Elapsed(a.s, l, j);
    AllCharged(a);
    ElapsedAtMost(a.s, l, j);
    MulAtMost(a.s.q, j, |l| - 1);
    RunPrefix(a, run, i);
    assert forall e :: e in run[..i] ==> e in run;
    RunnerAt(a, run[..i], j);
  }

  lemma MulAtMost(q: nat, j: nat, k: nat)
    requires j <= k
    ensures q * j <= q * k
  {
    assert q * k == q * j + q * (k - j);
  }

  // ---------- The unfair case is reached ----------

  /** Main starts thread 1 with priority 2, which starts 2 and 3 with its own priority and 4 with a lower one. */
  function UnfairRun(): seq<Event> {
    [Event(MAIN, Fork(true, 2, 1)), Event(1, Fork(true, 2, 2)), Event(1, Fork(true, 2, 3)), Event(1, Fork(true, 1, 4))]
  }

  lemma RunOfNothing(a: Abs)
    ensures IsRun(a, []) && After(a, []) == a
  {
  }

  lemma UnfairState()
    ensures IsRun(Start(10, 1), UnfairRun())
    ensures var a := After(Start(10, 1), UnfairRun());
            && a.token && a.s.started && a.s.running == PQData(1, 2)
            && a.s.ready == [PQData(2, 2), PQData(3, 2), PQData(4, 1)]
  {
    hide Slot, IsRun, After, Tids, ExecSpec, WaitSpec, SignalSpec, ExitSpec;
    var a0, es := Start(10, 1), UnfairRun();
    assert IsRun(a0, []) && After(a0, []) == a0 by { RunOfNothing(a0); }
    var a1 := Act(a0, es[0]);
    assert a1.s.running == PQData(1, 2) && a1.s.ready == [];
    var a2 := Act(a1, es[1]);
    assert a2.s.running == PQData(1, 2) && a2.s.ready == [PQData(2, 2)];
    var a3 := Act(a2, es[2]);
    assert a3.s.running == PQData(1, 2) && a3.s.ready == [PQData(2, 2), PQData(3, 2)];
    RunStep(a0, [], es[0]);
    RunStep(a0, [] + [es[0]], es[1]);
    RunStep(a0, [] + [es[0]] + [es[1]], es[2]);
    RunStep(a0, [] + [es[0]] + [es[1]] + [es[2]], es[3]);
    assert UnfairRun() == [] + [es[0]] + [es[1]] + [es[2]] + [es[3]];
  }

  /** Thread 3 then never runs as long as everybody computes, although it is ready at the running priority. */
  lemma UnfairRunExists()
    ensures IsRun(Start(10, 1), UnfairRun())
    ensures var a := After(Start(10, 1), UnfairRun());
            && Inv(a) && a.token && a.s.started && JumpsQueue(a.s.ready, a.s.running.priority)
            && PQData(3, 2) in a.s.ready && a.s.running.priority == 2 && !GetsTurn(a, PQData(3, 2))
  {
    hide Inv, IsRun, After, UnfairRun, GetsTurn, Start;
    UnfairState();
    StartInv(10, 1);
    RunKeeps(Start(10, 1), UnfairRun());
    var a := After(Start(10, 1), UnfairRun());
    assert a.s.ready[0].priority == a.s.ready[1].priority == 2;
    assert PQData(3, 2) == a.s.ready[1];
    RunnersAreTheCycle(a, PQData(3, 2));
  }
}
