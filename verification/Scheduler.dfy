/** The scheduler on its heap structures. A method stops where the call has made its last access: it returns the
    thread whose semaphore is posted, if any, and how the caller goes on. */
module Schedulers {
  import opened Options
  import opened ReadyQueue
  import opened WaitList
  import opened Sequences
  import opened SchedulerSpec
  import opened LinkedLists
  import opened PriorityQueues
  import opened HashTables
  import SequentialMachine

  const SO_MAX_NUM_EVENTS: nat := 256
  const HT_CAPACITY: nat := 1000

  class ThreadParam {
    const pthreadId: Tid
    const priority: nat
    var timeQuantum: nat

    constructor (pthreadId: Tid, priority: nat, timeQuantum: nat)
      ensures this.pthreadId == pthreadId && this.priority == priority && this.timeQuantum == timeQuantum
    {
      this.pthreadId, this.priority, this.timeQuantum := pthreadId, priority, timeQuantum;
    }
  }

  lemma FirstForIsFirst(ws: seq<Waiter>, event: nat, k: nat)
    requires IsFirst(ws, (w: Waiter) => w.io == event, k)
    ensures FirstFor(ws, event) == k
  {
  }

  class Scheduler {
    var running: PQData
    const table: HashTable<ThreadParam>
    const ready: LinkedList<PQData>
    const waiting: LinkedList<Waiter>
    const created: LinkedList<Tid>
    const timeQuantum: nat
    const io: nat
    var isAThreadRunning: bool
    ghost var records: set<object>

    ghost function Repr(): set<object>
      reads this, ready, waiting, created, table
    {
      {this, table} + ready.Repr + waiting.Repr + created.Repr + table.parts + records
    }

    /** The four structures and the records share nothing. */
    ghost predicate Apart()
      reads this, ready, waiting, created, table
    {
      && ready in ready.Repr && waiting in waiting.Repr && created in created.Repr
      && this !in ready.Repr && this !in waiting.Repr && this !in created.Repr && this !in table.parts
      && table !in ready.Repr && table !in waiting.Repr && table !in created.Repr && table !in table.parts
      && this !in records && table !in records
      && ready.Repr !! waiting.Repr && ready.Repr !! created.Repr && ready.Repr !! table.parts
      && waiting.Repr !! created.Repr && waiting.Repr !! table.parts && created.Repr !! table.parts
      && records !! ready.Repr && records !! waiting.Repr && records !! created.Repr && records !! table.parts
    }

    /** The structures are well formed and apart, and every key leads to its own record. */
    ghost predicate Valid()
      reads this, ready, waiting, created, table, Repr()
    {
      && Apart()
      && ready.Valid() && waiting.Valid() && created.Valid() && table.Valid()
      && forall t :: t in table.entries ==> table.entries[t] in records && table.entries[t].pthreadId == t
    }

    ghost function Params(): map<Tid, Param>
      reads table, table.entries.Values
    {
      map t | t in table.entries :: Param(table.entries[t].priority, table.entries[t].timeQuantum)
    }

    /** The abstract scheduler these structures stand for. */
    ghost function Model(): Sched
      reads this, ready, waiting, created, table, table.entries.Values
    {
      Sched(timeQuantum, io, isAThreadRunning, running, ready.contents, waiting.contents, created.contents, Params())
    }

    constructor (timeQuantum: nat, io: nat, table: HashTable<ThreadParam>,
                 ready: LinkedList<PQData>, waiting: LinkedList<Waiter>, created: LinkedList<Tid>)
      requires table.Valid() && table.entries == map[] && table !in table.parts
      requires ready.Valid() && ready.contents == [] && ready.Repr == {ready}
      requires waiting.Valid() && waiting.contents == [] && waiting.Repr == {waiting}
      requires created.Valid() && created.contents == [] && created.Repr == {created}
      requires ready !in table.parts && waiting !in table.parts && created !in table.parts
      ensures Valid() && Repr() == {this, table, ready, waiting, created} + table.parts
      ensures Model() == SequentialMachine.Start(timeQuantum, io).s
      ensures this.timeQuantum == timeQuantum && this.io == io
    {
      hide Push, LinkedList.Valid, LinkedList.Linked, HashTable.Valid, HashTable.Shape;
      this.table, this.ready, this.waiting, this.created := table, ready, waiting, created;
      this.timeQuantum, this.io, isAThreadRunning, running := timeQuantum, io, false, PQData(INVALID_TID, 0);
      records := {};
      new;
      assert Params() == map[];
    }

    // ---------- The single accesses ----------

    method PushReady(t: Tid, priority: nat)
      requires Valid()
      modifies Repr()
      ensures Valid() && forall o :: o in Repr() ==> o in old(Repr()) || fresh(o)
      ensures table.entries == old(table.entries)
      ensures Model() == old(Model()).(ready := Push(old(Model()).ready, PQData(t, priority)))
    {
      hide Push, HashTable.Valid, HashTable.Shape;
      PushNode(ready, t, priority);
    }

    method PopReady()
      requires Valid()
      modifies Repr()
      ensures Valid() && Repr() == old(Repr())
      ensures table.entries == old(table.entries)
      ensures var r := old(Model()).ready; Model() == old(Model()).(ready := if r == [] then [] else r[1..])
    {
      hide Push, LinkedList.Valid, LinkedList.Linked, HashTable.Valid, HashTable.Shape;
      PopNode(ready);
    }

    method AddWaiting(w: Waiter)
      requires Valid()
      modifies Repr()
      ensures Valid() && forall o :: o in Repr() ==> o in old(Repr()) || fresh(o)
      ensures table.entries == old(table.entries)
      ensures Model() == old(Model()).(waiting := old(Model()).waiting + [w])
    {
      hide Push, HashTable.Valid, HashTable.Shape;
      waiting.AddLast(w);
    }

    method TakeWaiting(event: nat) returns (w: Option<Waiter>)
      requires Valid()
      modifies Repr()
      ensures Valid() && Repr() == old(Repr())
      ensures table.entries == old(table.entries)
      ensures var ws := old(Model()).waiting;
              var k := FirstFor(ws, event);
              if k == |ws| then w == None && Model() == old(Model())
              else w == Some(ws[k]) && Model() == old(Model()).(waiting := Drop(ws, k))
    {
      hide Push, FirstFor, LinkedList.Valid, LinkedList.Linked, HashTable.Valid, HashTable.Shape;
      ghost var k;
      var node;
      node, k := waiting.PopNode((w: Waiter) => w.io == event);
      FirstForIsFirst(old(waiting.contents), event, k);
      w := if node == null then None else Some(node.data);
    }

    method AddCreated(t: Tid)
      requires Valid()
      modifies Repr()
      ensures Valid() && forall o :: o in Repr() ==> o in old(Repr()) || fresh(o)
      ensures table.entries == old(table.entries)
      ensures Model() == old(Model()).(created := old(Model()).created + [t])
    {
      hide Push, HashTable.Valid, HashTable.Shape;
      created.AddLast(t);
    }

    method PutRecord(rec: ThreadParam)
      requires Valid() && rec !in Repr() && rec.pthreadId !in table.entries
      modifies Repr()
      ensures Valid() && forall o :: o in Repr() ==> o in old(Repr()) || o == rec || fresh(o)
      ensures table.entries == old(table.entries)[rec.pthreadId := rec]
      ensures var m := old(Model());
              Model() == m.(params := m.params[rec.pthreadId := Param(rec.priority, rec.timeQuantum)])
    {
      hide Push, LinkedList.Valid, LinkedList.Linked, HashTable.Valid, HashTable.Shape;
      ghost var before := Params();
      table.Put(rec.pthreadId, rec);
      records := records + {rec};
      assert Apart();
      assert ready.Valid() && waiting.Valid() && created.Valid() && table.Valid();
      assert forall t :: t in before ==> Params()[t] == before[t];
      assert Params() == before[rec.pthreadId := Param(rec.priority, rec.timeQuantum)];
    }

    method SetQuantumOf(rec: ThreadParam, n: nat)
      requires Valid() && rec.pthreadId in table.entries && table.entries[rec.pthreadId] == rec
      modifies Repr()
      ensures Valid() && Repr() == old(Repr()) && table.entries == old(table.entries)
      ensures rec.timeQuantum == n
      ensures rec.pthreadId in old(Model()).params && Model() == SetQuantum(old(Model()), rec.pthreadId, n)
    {
      hide Push, LinkedList.Valid, LinkedList.Linked, HashTable.Valid, HashTable.Shape;
      ghost var before := Params();
      rec.timeQuantum := n;
      assert Params() == before[rec.pthreadId := before[rec.pthreadId].(quantum := n)];
    }

    method SetFastestThread(e: PQData)
      requires Valid()
      modifies Repr()
      ensures Valid() && Repr() == old(Repr()) && table.entries == old(table.entries)
      ensures Model() == old(Model()).(running := e)
    {
      hide Push, LinkedList.Valid, LinkedList.Linked, HashTable.Valid, HashTable.Shape;
      running := e;
    }

    method MarkStarted()
      requires Valid()
      modifies Repr()
      ensures Valid() && Repr() == old(Repr()) && table.entries == old(table.entries)
      ensures Model() == old(Model()).(started := true)
    {
      hide Push, LinkedList.Valid, LinkedList.Linked, HashTable.Valid, HashTable.Shape;
      isAThreadRunning := true;
    }

    method PeekReady() returns (found: bool, e: PQData)
      requires Valid()
      ensures Valid() && Repr() == old(Repr()) && Model() == old(Model()) && table.entries == old(table.entries)
      ensures found <==> Model().ready != []
      ensures found ==> e == Model().ready[0]
    {
      found, e := Peek(ready);
    }

    method NobodyWaits() returns (empty: bool)
      requires Valid()
      ensures Valid() && Repr() == old(Repr()) && Model() == old(Model()) && table.entries == old(table.entries)
      ensures empty <==> Model().waiting == []
    {
      empty := waiting.IsEmpty();
    }

    /** The record of a thread; null if the table has none. */
    method Lookup(t: Tid) returns (rec: ThreadParam?)
      requires Valid()
      ensures Valid() && Repr() == old(Repr()) && Model() == old(Model()) && table.entries == old(table.entries)
      ensures rec != null <==> t in Model().params
      ensures rec != null ==>
                && t in table.entries && table.entries[t] == rec && rec in Repr()
                && rec.pthreadId == t && Model().params[t] == Param(rec.priority, rec.timeQuantum)
    {
      var value := table.GetValue(t);
      rec := if value.Some? then value.value else null;
    }

    lemma RecordOf(rec: ThreadParam)
      requires Valid() && rec.pthreadId in table.entries && table.entries[rec.pthreadId] == rec
      ensures rec.pthreadId in Model().params
      ensures Model().params[rec.pthreadId] == Param(rec.priority, rec.timeQuantum)
    {
    }

    // ---------- The calls ----------

    /** Make the head of the ready queue the running thread, take it off, and name its semaphore. */
    method TakeHead() returns (post: Option<Tid>)
      requires Valid() && Dispatch(Model(), Finished).Outcome?
      modifies Repr()
      ensures Valid() && Repr() == old(Repr())
      ensures forall andThen :: Dispatch(old(Model()), andThen) == Outcome(Model(), post, andThen)
    {
      hide Scheduler.Valid, Scheduler.Repr, Scheduler.Model;
      var found, e := PeekReady();
      var rec := Lookup(e.tid);
      SetFastestThread(e);
      PopReady();
      post := Some(rec.pthreadId);
    }

    /** set_fastest_thread_after_quantum */
    method AfterQuantum(rec: ThreadParam, ret: int) returns (post: Option<Tid>, andThen: Then)
      requires Valid() && rec.pthreadId in table.entries && table.entries[rec.pthreadId] == rec
      requires rec.pthreadId in Model().params && Expire(Model(), rec.pthreadId, ret).Outcome?
      modifies Repr()
      ensures Valid() && forall o :: o in Repr() ==> o in old(Repr()) || fresh(o)
      ensures Outcome(Model(), post, andThen) == Expire(old(Model()), rec.pthreadId, ret)
    {
      hide Scheduler.Valid, Scheduler.Repr, Scheduler.Params, Push;
      RecordOf(rec);
      SetQuantumOf(rec, timeQuantum);
      PushReady(rec.pthreadId, rec.priority);
      post := TakeHead();
      andThen := Sleep(rec.pthreadId, ret);
    }

    method SoExec() returns (post: Option<Tid>, andThen: Then)
      requires Valid() && ExecSpec(Model()).Outcome?
      modifies Repr()
      ensures Valid() && forall o :: o in Repr() ==> o in old(Repr()) || fresh(o)
      ensures Outcome(Model(), post, andThen) == ExecSpec(old(Model()))
    {
      hide Scheduler.Valid, Scheduler.Repr, Scheduler.Params, Push;
      if !isAThreadRunning {
        return None, Return(0);
      }
      var rec := Lookup(running.tid);
      SetQuantumOf(rec, Dec(rec.timeQuantum));
      if rec.timeQuantum == 0 {
        post, andThen := AfterQuantum(rec, 0);
      } else {
        post, andThen := None, Return(0);
      }
    }

    /** t is the id the system gives the new thread. */
    method SoFork(hasFunc: bool, priority: nat, t: Tid) returns (post: Option<Tid>, andThen: Then)
      requires Valid() && ForkSpec(Model(), hasFunc, priority, t).Outcome?
      modifies Repr()
      ensures Valid() && forall o :: o in Repr() ==> o in old(Repr()) || fresh(o)
      ensures Outcome(Model(), post, andThen) == ForkSpec(old(Model()), hasFunc, priority, t)
    {
      hide Scheduler.Valid, Scheduler.Repr, Scheduler.Params;
      if priority > MAX_PRIO || !hasFunc {
        return None, Return(INVALID_TID);
      }
      RegisterThread(priority, t);
      post, andThen := StartOrCharge(t);
    }

    method NewRecord(t: Tid, priority: nat) returns (rec: ThreadParam)
      requires Valid()
      ensures Valid() && Repr() == old(Repr()) && Model() == old(Model()) && table.entries == old(table.entries)
      ensures fresh(rec) && rec !in Repr()
      ensures rec.pthreadId == t && rec.priority == priority && rec.timeQuantum == Model().q
    {
      rec := new ThreadParam(t, priority, timeQuantum);
    }

    method RegisterThread(priority: nat, t: Tid)
      requires Valid() && t !in Model().params
      modifies Repr()
      ensures Valid() && forall o :: o in Repr() ==> o in old(Repr()) || fresh(o)
      ensures Model() == Register(old(Model()), t, priority)
    {
      hide Scheduler.Valid, Scheduler.Repr, Scheduler.Params, Push;
      var rec := NewRecord(t, priority);
      AddCreated(t);
      PushReady(t, priority);
      KeysOfParams();
      PutRecord(rec);
    }

    lemma KeysOfParams()
      ensures Model().params.Keys == table.entries.Keys
    {
    }

    method StartOrCharge(t: Tid) returns (post: Option<Tid>, andThen: Then)
      requires Valid() && Model().ready != [] && AfterRegister(Model(), t).Outcome?
      modifies Repr()
      ensures Valid() && forall o :: o in Repr() ==> o in old(Repr()) || fresh(o)
      ensures Outcome(Model(), post, andThen) == AfterRegister(old(Model()), t)
    {
      hide Scheduler.Valid, Scheduler.Repr, Scheduler.Params, Push;
      if isAThreadRunning {
        var rec := Lookup(running.tid);
        SetQuantumOf(rec, Dec(rec.timeQuantum));
        if rec.timeQuantum == 0 {
          post, andThen := AfterQuantum(rec, t);
        } else {
          var found, e := PeekReady();
          if found && e.priority > running.priority {
            post := PreemptBy(rec, e);
            andThen := Sleep(rec.pthreadId, t);
          } else {
            post, andThen := None, Return(t);
          }
        }
      } else {
        MarkStarted();
        var found, e := PeekReady();
        SetFastestThread(e);
        PopReady();
        post, andThen := Some(t), Launched(t);
      }
    }

    /** The head of the ready queue takes over from the running thread, which is queued after it is off the queue. */
    method PreemptBy(rec: ThreadParam, e: PQData) returns (post: Option<Tid>)
      requires Valid() && Model().ready != [] && e == Model().ready[0] && e.tid in Model().params
      requires rec.pthreadId in table.entries && table.entries[rec.pthreadId] == rec
      modifies Repr()
      ensures Valid() && forall o :: o in Repr() ==> o in old(Repr()) || fresh(o)
      ensures post == Some(e.tid) && rec.pthreadId in old(Model()).params
      ensures var m := old(Model());
              Model() == m.(running := e, ready := Push(m.ready[1..], Own(m, rec.pthreadId)))
    {
      hide Scheduler.Valid, Scheduler.Repr, Scheduler.Params, Push;
      RecordOf(rec);
      var other := Lookup(e.tid);
      SetFastestThread(e);
      PopReady();
      PushReady(rec.pthreadId, rec.priority);
      post := Some(other.pthreadId);
    }

    method SoWait(event: nat) returns (post: Option<Tid>, andThen: Then)
      requires Valid() && WaitSpec(Model(), event).Outcome?
      modifies Repr()
      ensures Valid() && forall o :: o in Repr() ==> o in old(Repr()) || fresh(o)
      ensures Outcome(Model(), post, andThen) == WaitSpec(old(Model()), event)
    {
      hide Scheduler.Valid, Scheduler.Repr, Scheduler.Params, Push;
      if !isAThreadRunning {
        return None, Return(0);
      }
      if event >= io {
        return None, Return(-1);
      }
      var rec := Lookup(running.tid);
      AddWaiting(Waiter(rec.pthreadId, rec.priority, event));
      var found, _ := PeekReady();
      post := None;
      if found {
        post := TakeHead();
      }
      andThen := Sleep(rec.pthreadId, 0);
    }

    method SoSignal(event: nat) returns (post: Option<Tid>, andThen: Then)
      requires Valid() && SignalSpec(Model(), event).Outcome?
      modifies Repr()
      ensures Valid() && forall o :: o in Repr() ==> o in old(Repr()) || fresh(o)
      ensures Outcome(Model(), post, andThen) == SignalSpec(old(Model()), event)
    {
      hide Scheduler.Valid, Scheduler.Repr, Scheduler.Params, Push;
      if event >= io {
        return None, Return(-1);
      }
      var empty := NobodyWaits();
      if !isAThreadRunning || empty {
        return None, Return(0);
      }
      var rec := Lookup(running.tid);
      PushReady(rec.pthreadId, rec.priority);
      var numThreads := WakeAll(event);
      post := TakeHead();
      andThen := Sleep(rec.pthreadId, numThreads);
    }

    /** The loop of so_signal: one waiter for the event after the other goes to the ready queue. */
    method WakeAll(event: nat) returns (numThreads: nat)
      requires Valid()
      modifies Repr()
      ensures Valid() && table.entries == old(table.entries)
      ensures forall o :: o in Repr() ==> o in old(Repr()) || fresh(o)
      ensures var m := old(Model());
              var woken := Woken(m.waiting, event);
              && numThreads == |woken|
              && Model() == m.(ready := PushAll(m.ready, woken), waiting := Others(m.waiting, event))
    {
      hide Scheduler.Valid, Scheduler.Repr, Scheduler.Params, Push, Scheduler.Model;
      numThreads := 0;
      ghost var m := Model();
      TakeFirst(Model().waiting, event);
      var w := TakeWaiting(event);
      while w.Some?
        invariant Valid() && table.entries == old(table.entries)
        invariant forall o :: o in Repr() ==> o in old(Repr()) || fresh(o)
        invariant Model() == m.(ready := Model().ready, waiting := Model().waiting)
        invariant Others(Model().waiting, event) == Others(m.waiting, event)
        invariant w.None? ==> Woken(Model().waiting, event) == [] && Others(Model().waiting, event) == Model().waiting
        invariant var left := (if w.Some? then [PQData(w.value.tid, w.value.priority)] else [])
                              + Woken(Model().waiting, event);
                  && PushAll(Model().ready, left) == PushAll(m.ready, Woken(m.waiting, event))
                  && numThreads + |left| == |Woken(m.waiting, event)|
        decreases |Model().waiting| + if w.Some? then 1 else 0
      {
        ghost var before := Model();
        PushReady(w.value.tid, w.value.priority);
        PushAllOne(before.ready, PQData(w.value.tid, w.value.priority), Woken(before.waiting, event));
        TakeFirst(Model().waiting, event);
        w := TakeWaiting(event);
        numThreads := numThreads + 1;
      }
    }

    /** The end of start_thread, once the handler has returned. */
    method ThreadEnd() returns (post: Option<Tid>, andThen: Then)
      requires Valid() && ExitSpec(Model()).Outcome?
      modifies Repr()
      ensures Valid() && forall o :: o in Repr() ==> o in old(Repr()) || fresh(o)
      ensures Outcome(Model(), post, andThen) == ExitSpec(old(Model()))
    {
      hide Scheduler.Valid, Scheduler.Repr, Scheduler.Params, Push;
      var found, _ := PeekReady();
      post, andThen := None, Finished;
      if found {
        post := TakeHead();
      }
    }

    /** The walk of so_end over the created threads, as it goes once nobody appends any more. */
    method JoinAll() returns (joined: seq<Tid>)
      requires Valid()
      ensures joined == Model().created
    {
      joined := [];
      var curr := created.head;
      while curr != null
        invariant |joined| <= |created.spine| && joined == created.contents[..|joined|]
        invariant curr == if |joined| < |created.spine| then created.spine[|joined|] else null
        decreases |created.spine| - |joined|
      {
        joined := joined + [curr.data];
        curr := curr.next;
      }
    }
  }

  /** Any call the system may make next: on the heap it does what the atomic machine does, and crashes nowhere. */
  method Perform(scheduler: Scheduler, ghost a: SequentialMachine.Abs, e: SequentialMachine.Event)
    returns (post: Option<Tid>, andThen: Then)
    requires scheduler.Valid() && scheduler.Model() == a.s
    requires SequentialMachine.Inv(a) && SequentialMachine.MayAct(a, e)
    modifies scheduler.Repr()
    ensures scheduler.Valid() && forall o :: o in scheduler.Repr() ==> o in old(scheduler.Repr()) || fresh(o)
    ensures SequentialMachine.CanAct(a, e)
    ensures scheduler.Model() == SequentialMachine.Act(a, e).s && SequentialMachine.Inv(SequentialMachine.Act(a, e))
    ensures Outcome(scheduler.Model(), post, andThen) == Spec(e.op, a.s)
  {
    hide Scheduler.Valid, Scheduler.Repr, Scheduler.Model, SequentialMachine.Inv;
    hide ExecSpec, ForkSpec, WaitSpec, SignalSpec, ExitSpec;
    SequentialMachine.ActKeeps(a, e);
    match e.op
    case Exec => post, andThen := scheduler.SoExec();
    case Fork(hasFunc, priority, child) => post, andThen := scheduler.SoFork(hasFunc, priority, child);
    case Wait(event) => post, andThen := scheduler.SoWait(event);
    case Signal(event) => post, andThen := scheduler.SoSignal(event);
    case Exit => post, andThen := scheduler.ThreadEnd();
  }

  /** so_init on the current scheduler, if there is one: rejected for a zero quantum, too many events, or a scheduler
      that is in use already; a rejected call leaves the current one. */
  method SoInit(current: Scheduler?, timeQuantum: nat, io: nat, hash: Tid -> nat) returns (ret: int, s: Scheduler?)
    ensures var inUse := current != null && current.timeQuantum != 0;
            ret == if io > 256 || timeQuantum == 0 || inUse then -1 else 0
    ensures ret == -1 ==> s == current
    ensures ret == 0 ==>
              s != null && s.Valid() && fresh(s.Repr()) && s.Model() == SequentialMachine.Start(timeQuantum, io).s
              && s.timeQuantum == timeQuantum && s.io == io
  {
    hide Push, LinkedList.Valid, LinkedList.Linked, HashTable.Valid, HashTable.Shape;
    hide Scheduler.Valid, Scheduler.Repr, Scheduler.Model, SequentialMachine.Start;
    if io > SO_MAX_NUM_EVENTS || timeQuantum == 0 || (current != null && current.timeQuantum != 0) {
      return -1, current;
    }
    var table := new HashTable(HT_CAPACITY, hash);
    var ready := new LinkedList();
    var created := new LinkedList();
    var waiting := new LinkedList();
    s := new Scheduler(timeQuantum, io, table, ready, waiting, created);
    ret := 0;
  }

  /** Call number i of the run posts and goes on as entry says. */
  ghost predicate Logged(q: nat, io: nat, run: seq<SequentialMachine.Event>, i: nat, entry: (Option<Tid>, Then))
    requires i < |run|
  {
    var start := SequentialMachine.Start(q, io);
    && SequentialMachine.IsRun(start, run[..i])
    && var o := Spec(run[i].op, SequentialMachine.After(start, run[..i]).s);
       o.Outcome? && o.post == entry.0 && o.andThen == entry.1
  }

  lemma LogOne(q: nat, io: nat, run: seq<SequentialMachine.Event>, i: nat, post: Option<Tid>, andThen: Then)
    requires i < |run| && SequentialMachine.IsRun(SequentialMachine.Start(q, io), run[..i])
    requires var o := Spec(run[i].op, SequentialMachine.After(SequentialMachine.Start(q, io), run[..i]).s);
             o.Outcome? && o.post == post && o.andThen == andThen
    ensures Logged(q, io, run, i, (post, andThen))
  {
  }

  lemma RunSoFar(a: SequentialMachine.Abs, run: seq<SequentialMachine.Event>, n: nat)
    requires SequentialMachine.IsRun(a, run) && n < |run|
    ensures SequentialMachine.IsRun(a, run[..n]) && SequentialMachine.IsRun(a, run[..n + 1])
    ensures SequentialMachine.MayAct(SequentialMachine.After(a, run[..n]), run[n])
    ensures SequentialMachine.CanAct(SequentialMachine.After(a, run[..n]), run[n])
    ensures SequentialMachine.After(a, run[..n + 1])
            == SequentialMachine.Act(SequentialMachine.After(a, run[..n]), run[n])
  {
    SequentialMachine.RunPrefix(a, run, n + 1);
    assert run[..n + 1][..n] == run[..n];
  }

  /** From so_init on, any run of calls performed on the heap leaves what it leaves of the atomic machine, and every
      call posts and goes on as there. */
  method Replay(q: nat, io: nat, hash: Tid -> nat, run: seq<SequentialMachine.Event>)
    returns (scheduler: Scheduler, log: seq<(Option<Tid>, Then)>)
    requires 1 <= q && io <= SO_MAX_NUM_EVENTS
    requires SequentialMachine.IsRun(SequentialMachine.Start(q, io), run)
    ensures scheduler.Valid() && fresh(scheduler.Repr())
    ensures scheduler.Model() == SequentialMachine.After(SequentialMachine.Start(q, io), run).s
    ensures |log| == |run| && forall i :: 0 <= i < |run| ==> Logged(q, io, run, i, log[i])
  {
    hide Scheduler.Valid, Scheduler.Repr, Scheduler.Model, Logged;
    hide SequentialMachine.Inv, SequentialMachine.Act, SequentialMachine.CanAct, SequentialMachine.MayAct;
    ghost var start := SequentialMachine.Start(q, io);
    ghost var a := start;
    SequentialMachine.StartInv(q, io);
    var ret, s := SoInit(null, q, io, hash);
    scheduler, log := s, [];
    var n := 0;
    while n < |run|
      invariant n <= |run| && |log| == n
      invariant scheduler.Valid() && fresh(scheduler.Repr()) && SequentialMachine.Inv(a) && scheduler.Model() == a.s
      invariant SequentialMachine.IsRun(start, run[..n]) && a == SequentialMachine.After(start, run[..n])
      invariant forall i :: 0 <= i < n ==> Logged(q, io, run, i, log[i])
    {
      RunSoFar(start, run, n);
      var post, andThen := Perform(scheduler, a, run[n]);
      a := SequentialMachine.Act(a, run[n]);
      LogOne(q, io, run, n, post, andThen);
      log := log + [(post, andThen)];
      n := n + 1;
    }
    assert run[..n] == run;
  }
}
