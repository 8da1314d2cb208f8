/** Each scheduler call as one atomic step on the abstract scheduler. */
module SchedulerSpec {
  import opened Options
  import opened ReadyQueue
  import opened WaitList

  const MAX_PRIO: nat := 5
  const UINT_MAX: nat := 0xFFFF_FFFF
  const INVALID_TID: Tid := 0

  /** What the table holds for a thread, apart from its semaphore and its function. */
  datatype Param = Param(priority: nat, quantum: nat)

  datatype Sched = Sched(
    q: nat,
    io: nat,
    started: bool,
    running: PQData,
    ready: seq<PQData>,
    waiting: seq<Waiter>,
    created: seq<Tid>,
    params: map<Tid, Param>)

  /** A call made by user code. Fork carries the id the system gives the new thread;
      Exit is the return of the handler, or the start of so_end in the main thread. */
  datatype Op =
    | Exec
    | Fork(hasFunc: bool, priority: nat, child: Tid)
    | Wait(event: nat)
    | Signal(event: nat)
    | Exit

  /** How a call goes on once it has posted, if it posts. Sleep names the record whose semaphore it waits on. */
  datatype Then =
    | Return(ret: int)
    | Sleep(self: Tid, ret: int)
    | Launched(ret: int)
    | Finished

  /** Crash is a null dereference, or a put on a key already present. */
  datatype Outcome =
    | Crash
    | Outcome(s: Sched, post: Option<Tid>, andThen: Then)

  // ---------- Shared pieces ----------

  /** The unsigned decrement, wrap-around included. */
  function Dec(n: nat): nat {
    if n == 0 then UINT_MAX else n - 1
  }

  function SetQuantum(s: Sched, t: Tid, n: nat): Sched
    requires t in s.params
  {
    s.(params := s.params[t := s.params[t].(quantum := n)])
  }

  /** The running thread's entry, rebuilt from its record. */
  function Own(s: Sched, t: Tid): PQData
    requires t in s.params
  {
    PQData(t, s.params[t].priority)
  }

  /** Make the head of the ready queue the running thread and post its semaphore. */
  function Dispatch(s: Sched, andThen: Then): Outcome {
    if s.ready == [] || s.ready[0].tid !in s.params then Crash
    else Outcome(s.(running := s.ready[0], ready := s.ready[1..]), Some(s.ready[0].tid), andThen)
  }

  /** The quantum is used up: refill it, queue the running thread and dispatch. */
  function Expire(s: Sched, self: Tid, ret: int): Outcome
    requires self in s.params
  {
    var s := SetQuantum(s, self, s.q);
    Dispatch(s.(ready := Push(s.ready, Own(s, self))), Sleep(self, ret))
  }

  function Charge(s: Sched): Sched
    requires s.running.tid in s.params
  {
    SetQuantum(s, s.running.tid, Dec(s.params[s.running.tid].quantum))
  }

  // ---------- The calls ----------

  function ExecSpec(s: Sched): Outcome {
    if !s.started then Outcome(s, None, Return(0))
    else if s.running.tid !in s.params then Crash
    else
      var self, s := s.running.tid, Charge(s);
      if s.params[self].quantum == 0 then Expire(s, self, 0) else Outcome(s, None, Return(0))
  }

  /** The new thread is recorded, queued and put in the table. */
  function Register(s: Sched, child: Tid, priority: nat): Sched {
    s.(created := s.created + [child],
       ready := Push(s.ready, PQData(child, priority)),
       params := s.params[child := Param(priority, s.q)])
  }

  /** What a fork does once the child is queued: start it, if it is the first; else charge the caller, whose quantum
      may be used up, and make way for a thread of higher priority. */
  function AfterRegister(s: Sched, child: Tid): Outcome
    requires s.ready != []
  {
    if !s.started then
      Outcome(s.(started := true, running := s.ready[0], ready := s.ready[1..]), Some(child), Launched(child))
    else if s.running.tid !in s.params then Crash
    else
      var self, s := s.running.tid, Charge(s);
      if s.params[self].quantum == 0 then Expire(s, self, child)
      else if s.ready[0].priority > s.running.priority then
        if s.ready[0].tid !in s.params then Crash
        else
          Outcome(s.(running := s.ready[0], ready := Push(s.ready[1..], Own(s, self))),
                  Some(s.ready[0].tid), Sleep(self, child))
      else Outcome(s, None, Return(child))
  }

  predicate ValidFork(hasFunc: bool, priority: nat) {
    priority <= MAX_PRIO && hasFunc
  }

  function ForkSpec(s: Sched, hasFunc: bool, priority: nat, child: Tid): Outcome {
    if !ValidFork(hasFunc, priority) then Outcome(s, None, Return(INVALID_TID))
    else if child in s.params then Crash
    else
      AfterRegister(Register(s, child, priority), child)
  }

  function WaitSpec(s: Sched, event: nat): Outcome {
    if !s.started then Outcome(s, None, Return(0))
    else if event >= s.io then Outcome(s, None, Return(-1))
    else if s.running.tid !in s.params then Crash
    else
      var self := s.running.tid;
      var s := s.(waiting := s.waiting + [Waiter(self, s.params[self].priority, event)]);
      if s.ready == [] then Outcome(s, None, Sleep(self, 0)) else Dispatch(s, Sleep(self, 0))
  }

  function SignalSpec(s: Sched, event: nat): Outcome {
    if event >= s.io then Outcome(s, None, Return(-1))
    else if !s.started || s.waiting == [] then Outcome(s, None, Return(0))
    else if s.running.tid !in s.params then Crash
    else
      var self := s.running.tid;
      var woken := Woken(s.waiting, event);
      Dispatch(
        s.(ready := PushAll(Push(s.ready, Own(s, self)), woken), waiting := Others(s.waiting, event)),
        Sleep(self, |woken|))
  }

  function ExitSpec(s: Sched): Outcome {
    if s.ready == [] then Outcome(s, None, Finished) else Dispatch(s, Finished)
  }

  function Spec(op: Op, s: Sched): Outcome {
    match op
    case Exec => ExecSpec(s)
    case Fork(hasFunc, priority, child) => ForkSpec(s, hasFunc, priority, child)
    case Wait(event) => WaitSpec(s, event)
    case Signal(event) => SignalSpec(s, event)
    case Exit => ExitSpec(s)
  }
}
