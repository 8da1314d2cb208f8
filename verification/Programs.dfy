/** Programs that use the scheduler: they do what the atomic machine says, whatever the system does in between. */
module Programs {
  import opened Options
  import opened ReadyQueue
  import opened WaitList
  import opened SchedulerSpec
  import opened SequentialMachine
  import opened MicroCode
  import opened Protocol

  lemma Extend(w: World, steps: seq<Step>, step: Step)
    requires IsExecution(w, steps) && Enabled(Reached(w, steps), step)
    ensures IsExecution(w, steps + [step]) && Reached(w, steps + [step]) == Apply(Reached(w, steps), step)
    ensures Calls(steps + [step]) == Calls(steps) + if step.Call? then [Event(step.t, step.op)] else []
  {
    assert (steps + [step])[..|steps + [step]| - 1] == steps;
  }

  // ---------- Every run of the atomic machine happens ----------

  /** The holder, or the thread that is posted, can go on without a new call until it is in user code. */
  lemma {:induction false} Settle(w0: World, steps0: seq<Step>, token0: Token, a: Abs)
    returns (steps: seq<Step>, token: Token)
    requires IsExecution(w0, steps0) && Related(Reached(w0, steps0), token0, a)
    ensures IsExecution(w0, steps) && Related(Reached(w0, steps), token, a) && Calls(steps) == Calls(steps0)
    ensures token == Lost || (token.Held? && token.t in Reached(w0, steps).pc && Reached(w0, steps).pc[token.t].User?)
    decreases Left(Reached(w0, steps0), token0)
  {
    hide Related, Left, Apply, Reached, IsExecution, Calls, Over;
    var w := Reached(w0, steps0);
    if token0 == Lost || InUser(w, token0) {
      return steps0, token0;
    }
    var step := HolderStep(w, token0, a);
    token := StepKeeps(w, token0, a, step);
    LeftIsNat(Apply(w, step), token, a);
    Extend(w0, steps0, step);
    steps, token := Settle(w0, steps0 + [step], token, a);
  }

  predicate InUser(w: World, token: Token) {
    token.Held? && token.t in w.pc && w.pc[token.t].User?
  }

  lemma HolderStep(w: World, token: Token, a: Abs) returns (step: Step)
    requires Related(w, token, a) && token != Lost && !InUser(w, token)
    ensures Enabled(w, step) && !step.Call?
  {
    hide Inv;
    var t := token.t;
    assert Placed(w, token, a, t);
    step := if token.Posted? then Acquire(t) else if Over(w.pc[t].code) then Post(t) else Access(t);
  }

  lemma NextCall(w: World, token: Token, a: Abs, e: Event)
    requires Related(w, token, a) && CanAct(a, e) && (token == Lost || InUser(w, token))
    ensures Enabled(w, Call(e.who, e.op))
  {
    hide Inv, Spec;
    assert token != Lost;
    assert Placed(w, token, a, token.t);
  }

  /** The converse of the refinement: the calls of the executions are all the runs of the atomic machine. */
  lemma {:induction false} RunsAreExecuted(q: nat, io: nat, run: seq<Event>) returns (steps: seq<Step>, token: Token)
    requires q >= 1 && IsRun(Start(q, io), run)
    ensures IsExecution(Init(q, io), steps) && Calls(steps) == run
    ensures Related(Reached(Init(q, io), steps), token, After(Start(q, io), run))
    decreases |run|
  {
    hide Related, Apply, Reached, IsExecution, Calls, CanAct, Act, Enabled;
    if run == [] {
      steps, token := [], Held(MAIN);
      InitRelated(q, io);
      NoSteps(Init(q, io));
    } else {
      var prefix, e := run[..|run| - 1], run[|run| - 1];
      steps, token := RunsAreExecuted(q, io, prefix);
      var a := After(Start(q, io), prefix);
      steps, token := Settle(Init(q, io), steps, token, a);
      NextCall(Reached(Init(q, io), steps), token, a, e);
      token := StepKeeps(Reached(Init(q, io), steps), token, a, Call(e.who, e.op));
      Extend(Init(q, io), steps, Call(e.who, e.op));
      steps := steps + [Call(e.who, e.op)];
      assert run == prefix + [e];
    }
  }

  lemma NoSteps(w: World)
    ensures IsExecution(w, []) && Reached(w, []) == w && Calls([]) == []
  {
  }

  // ---------- The system has no say ----------

  /** A program: what each thread calls next, given what its calls have returned so far, and the ids of its threads. */
  type Program = (Tid, seq<int>) -> Op

  /** What t was last told by the scheduler before each of its calls. */
  function Heard(w: World, steps: seq<Step>, t: Tid): seq<int>
    requires IsExecution(w, steps)
  {
    if steps == [] then []
    else
      var prefix, last := steps[..|steps| - 1], steps[|steps| - 1];
      Heard(w, prefix, t) + if last.Call? && last.t == t then [Reached(w, prefix).pc[t].ret] else []
  }

  predicate Follows(w: World, steps: seq<Step>, program: Program)
    requires IsExecution(w, steps)
  {
    steps == [] ||
    var prefix, last := steps[..|steps| - 1], steps[|steps| - 1];
    Follows(w, prefix, program) && (last.Call? ==> last.op == program(last.t, Heard(w, steps, last.t)))
  }

  function Told(a: Abs, t: Tid): int {
    if t in a.fate && a.fate[t].Live? then a.fate[t].ret else 0
  }

  function HeardInRun(a: Abs, run: seq<Event>, t: Tid): seq<int>
    requires IsRun(a, run)
  {
    if run == [] then []
    else
      var prefix, last := run[..|run| - 1], run[|run| - 1];
      HeardInRun(a, prefix, t) + if last.who == t then [Told(After(a, prefix), t)] else []
  }

  predicate RunFollows(a: Abs, run: seq<Event>, program: Program)
    requires IsRun(a, run)
  {
    run == [] ||
    var prefix, last := run[..|run| - 1], run[|run| - 1];
    RunFollows(a, prefix, program) && last.op == program(last.who, HeardInRun(a, run, last.who))
  }

  lemma {:induction false} FollowsInRun(q: nat, io: nat, steps: seq<Step>, program: Program)
    requires q >= 1 && IsExecution(Init(q, io), steps) && Follows(Init(q, io), steps, program)
    ensures IsRun(Start(q, io), Calls(steps)) && RunFollows(Start(q, io), Calls(steps), program)
    ensures forall t :: Heard(Init(q, io), steps, t) == HeardInRun(Start(q, io), Calls(steps), t)
    decreases |steps|
  {
    hide Act, Apply, Inv;
    ExecutionsRefineRuns(q, io, steps);
    if steps != [] {
      var prefix, last := steps[..|steps| - 1], steps[|steps| - 1];
      FollowsInRun(q, io, prefix, program);
      ExecutionsRefineRuns(q, io, prefix);
      if last.Call? {
        var e := Event(last.t, last.op);
        var w, a := Reached(Init(q, io), prefix), After(Start(q, io), Calls(prefix));
        assert Calls(steps) == Calls(prefix) + [e];
        assert Calls(steps)[..|Calls(steps)| - 1] == Calls(prefix);
        assert Agrees(w, a, last.t);
        assert Told(a, last.t) == w.pc[last.t].ret;
        forall t ensures Heard(Init(q, io), steps, t) == HeardInRun(Start(q, io), Calls(steps), t) {
          assert Heard(Init(q, io), prefix, t) == HeardInRun(Start(q, io), Calls(prefix), t);
        }
      } else {
        assert Calls(steps) == Calls(prefix);
      }
    }
  }

  lemma {:induction false} RunFollowsPrefix(a: Abs, run: seq<Event>, i: nat, program: Program)
    requires IsRun(a, run) && RunFollows(a, run, program) && i <= |run|
    ensures IsRun(a, run[..i]) && RunFollows(a, run[..i], program)
    decreases |run|
  {
    if i == |run| {
      assert run[..i] == run;
    } else {
      var prefix := run[..|run| - 1];
      RunFollowsPrefix(a, prefix, i, program);
      assert prefix[..i] == run[..i];
    }
  }

  lemma {:induction false} RunsAgree(a: Abs, run1: seq<Event>, run2: seq<Event>, program: Program)
    requires IsRun(a, run1) && RunFollows(a, run1, program)
    requires IsRun(a, run2) && RunFollows(a, run2, program) && |run1| <= |run2|
    ensures run1 == run2[..|run1|]
    decreases |run1|
  {
    hide Act, Spec;
    if run1 != [] {
      var n := |run1| - 1;
      var longer := run2[..n + 1];
      RunFollowsPrefix(a, run2, n + 1, program);
      assert longer[..n] == run2[..n];
      RunsAgree(a, run1[..n], run2, program);
      assert run1[n].who == longer[n].who;
      assert HeardInRun(a, run1, run1[n].who) == HeardInRun(a, longer, run1[n].who);
      assert run1 == run1[..n] + [run1[n]] && longer == longer[..n] + [longer[n]];
    }
  }

  /** Of any two executions of a program, the calls of one are the first calls of the other, in the same order: neither
      the system's choice of who goes on nor the overlap of the threads has any influence on the schedule. */
  lemma {:induction false} ScheduleIsDetermined(q: nat, io: nat, steps1: seq<Step>, steps2: seq<Step>, program: Program)
    requires q >= 1
    requires IsExecution(Init(q, io), steps1) && Follows(Init(q, io), steps1, program)
    requires IsExecution(Init(q, io), steps2) && Follows(Init(q, io), steps2, program)
    ensures Calls(steps1) <= Calls(steps2) || Calls(steps2) <= Calls(steps1)
  {
    hide IsRun, RunFollows;
    FollowsInRun(q, io, steps1, program);
    FollowsInRun(q, io, steps2, program);
    if |Calls(steps1)| <= |Calls(steps2)| {
      RunsAgree(Start(q, io), Calls(steps1), Calls(steps2), program);
    } else {
      RunsAgree(Start(q, io), Calls(steps2), Calls(steps1), program);
    }
  }

  /** And after as many calls the same thread is in user code, has been told the same, and finds the same structures. */
  lemma {:induction false} ViewsAreDetermined(q: nat, io: nat, steps1: seq<Step>, steps2: seq<Step>, program: Program,
                                              t1: Tid, t2: Tid)
    requires q >= 1 && |Calls(steps1)| == |Calls(steps2)|
    requires IsExecution(Init(q, io), steps1) && Follows(Init(q, io), steps1, program)
    requires IsExecution(Init(q, io), steps2) && Follows(Init(q, io), steps2, program)
    requires var pc := Reached(Init(q, io), steps1).pc; t1 in pc && pc[t1].User?
    requires var pc := Reached(Init(q, io), steps2).pc; t2 in pc && pc[t2].User?
    ensures var w1, w2 := Reached(Init(q, io), steps1), Reached(Init(q, io), steps2);
            t1 == t2 && w1.sh == w2.sh && w1.pc[t1] == w2.pc[t2]
  {
    hide Follows, Inv, Reached, After, IsRun;
    ScheduleIsDetermined(q, io, steps1, steps2, program);
    assert Calls(steps1) == Calls(steps2);
    ExecutionsRefineRuns(q, io, steps1);
    ExecutionsRefineRuns(q, io, steps2);
    var a := After(Start(q, io), Calls(steps1));
    assert Agrees(Reached(Init(q, io), steps1), a, t1);
    assert Agrees(Reached(Init(q, io), steps2), a, t2);
  }

  // ---------- Finite programs ----------

  /** A handler that makes finitely many calls. It may test what its latest call returned; a started thread has a
      handler of its own. */
  datatype Handler =
    | Leave
    | Do(instr: Instr, next: Handler)
    | If(test: int -> bool, yes: Handler, no: Handler)

  datatype Instr =
    | Compute
    | Await(event: nat)
    | Raise(event: nat)
    | Spawn(hasFunc: bool, priority: nat, body: Handler)

  /** The calls a handler and the threads it starts make at most, their returns included. */
  function Nodes(h: Handler): (n: nat)
    ensures n >= 1
  {
    match h
    case Leave => 1
    case Do(instr, next) => 1 + (if instr.Spawn? then Nodes(instr.body) else 0) + Nodes(next)
    case If(_, yes, no) => if Nodes(yes) >= Nodes(no) then Nodes(yes) else Nodes(no)
  }

  /** The handler from its next call on. */
  function Now(h: Handler, ret: int): (r: Handler)
    ensures !r.If? && Nodes(r) <= Nodes(h)
  {
    match h
    case If(test, yes, no) => if test(ret) then Now(yes, ret) else Now(no, ret)
    case _ => h
  }

  predicate Asks(h: Handler, op: Op)
    requires !h.If?
  {
    match h
    case Leave => op == Exit
    case Do(Compute, _) => op == Exec
    case Do(Await(event), _) => op == Wait(event)
    case Do(Raise(event), _) => op == Signal(event)
    case Do(Spawn(hasFunc, priority, _), _) => op.Fork? && op.hasFunc == hasFunc && op.priority == priority
  }

  /** The handlers of the threads there are, each from where it is. */
  type Forest = map<Tid, Handler>

  predicate Allows(forest: Forest, w: World, t: Tid, op: Op) {
    && t in w.pc && w.pc[t].User? && t in forest
    && Asks(Now(forest[t], w.pc[t].ret), op)
  }

  /** After a call: its caller goes on with the rest, and a new thread with the handler it is started with. */
  function Rest(forest: Forest, w: World, t: Tid, op: Op): Forest
    requires Allows(forest, w, t, op)
  {
    match Now(forest[t], w.pc[t].ret)
    case Leave => forest - {t}
    case Do(instr, next) =>
      var forest := forest[t := next];
      if instr.Spawn? && Spawns(op) then forest[op.child := instr.body] else forest
  }

  /** The threads make the calls of their handlers. */
  predicate Obeys(w: World, forest: Forest, steps: seq<Step>)
    requires IsExecution(w, steps)
    decreases |steps|, 0
  {
    steps == [] ||
    var prefix, last := steps[..|steps| - 1], steps[|steps| - 1];
    && Obeys(w, forest, prefix)
    && (last.Call? ==> Allows(ForestAfter(w, forest, prefix), Reached(w, prefix), last.t, last.op))
  }

  function ForestAfter(w: World, forest: Forest, steps: seq<Step>): Forest
    requires IsExecution(w, steps) && Obeys(w, forest, steps)
    decreases |steps|, 1
  {
    if steps == [] then forest
    else
      var prefix, last := steps[..|steps| - 1], steps[|steps| - 1];
      if last.Call? then Rest(ForestAfter(w, forest, prefix), Reached(w, prefix), last.t, last.op)
      else ForestAfter(w, forest, prefix)
  }

  /** The calls all the handlers together make at most. */
  ghost function Weight(forest: Forest): nat
    decreases |forest|
  {
    if forest == map[] then 0
    else
      var t :| t in forest;
      Nodes(forest[t]) + Weight(forest - {t})
  }

  lemma {:induction false} WeightWithout(forest: Forest, t: Tid)
    requires t in forest
    ensures Weight(forest) == Nodes(forest[t]) + Weight(forest - {t})
    decreases |forest|
  {
    var x :| x in forest && Weight(forest) == Nodes(forest[x]) + Weight(forest - {x});
    if x != t {
      WeightWithout(forest - {x}, t);
      WeightWithout(forest - {t}, x);
      assert forest - {x} - {t} == forest - {t} - {x};
    }
  }

  lemma WeightWith(forest: Forest, t: Tid, h: Handler)
    ensures Weight(forest[t := h]) == Nodes(h) + Weight(forest - {t})
    ensures Weight(forest - {t}) + (if t in forest then Nodes(forest[t]) else 0) == Weight(forest)
  {
    WeightWithout(forest[t := h], t);
    assert forest[t := h] - {t} == forest - {t};
    if t in forest {
      WeightWithout(forest, t);
    } else {
      assert forest - {t} == forest;
    }
  }

  /** Every call uses up a part of some handler; a fork moves a part to the new thread. */
  lemma RestWeighsLess(forest: Forest, w: World, t: Tid, op: Op)
    requires Allows(forest, w, t, op)
    ensures Weight(Rest(forest, w, t, op)) < Weight(forest)
  {
    match Now(forest[t], w.pc[t].ret)
    case Leave => WeightWithout(forest, t);
    case Do(instr, next) =>
      WeightWith(forest, t, next);
      if instr.Spawn? && Spawns(op) {
        WeightWith(forest[t := next], op.child, instr.body);
      }
  }

  lemma {:induction false} CallsAtMost(w: World, forest: Forest, steps: seq<Step>)
    requires IsExecution(w, steps) && Obeys(w, forest, steps)
    ensures |Calls(steps)| + Weight(ForestAfter(w, forest, steps)) <= Weight(forest)
    decreases |steps|
  {
    hide Weight, Rest, Allows;
    if steps != [] {
      var prefix, last := steps[..|steps| - 1], steps[|steps| - 1];
      CallsAtMost(w, forest, prefix);
      if last.Call? {
        RestWeighsLess(ForestAfter(w, forest, prefix), Reached(w, prefix), last.t, last.op);
      }
    }
  }

  /** Every execution of finite handlers is finite, with a bound in the size of main's handler, which holds those of all
      the threads there will be. */
  lemma {:induction false} FiniteProgramsEnd(q: nat, io: nat, main: Handler, steps: seq<Step>)
    requires q >= 1 && IsExecution(Init(q, io), steps) && Obeys(Init(q, io), map[MAIN := main], steps)
    ensures |Calls(steps)| <= Nodes(main) && |steps| <= 1 + 32 * Nodes(main)
  {
    hide IsExecution, Obeys, ForestAfter, Calls;
    var forest := map[MAIN := main];
    CallsAtMost(Init(q, io), forest, steps);
    WeightWithout(forest, MAIN);
    assert forest - {MAIN} == map[];
    ExecutionsEnd(q, io, steps);
  }

  // ---------- Where finite programs end ----------

  lemma {:induction false} Bound(ts: set<Tid>) returns (n: Tid)
    ensures forall t :: t in ts ==> t < n
    decreases |ts|
  {
    n := 0;
    if ts != {} {
      var t :| t in ts;
      var m := Bound(ts - {t});
      n := if m > t then m else t + 1;
      assert forall x :: x in ts ==> x == t || x in ts - {t};
    }
  }

  /** A thread in its handler always has a next call the system lets it make. */
  lemma SomeCall(forest: Forest, w: World, t: Tid) returns (op: Op)
    requires t in w.pc && w.pc[t].User? && t in forest
    ensures Enabled(w, Call(t, op)) && Allows(forest, w, t, op)
  {
    var n := Bound(w.pc.Keys);
    match Now(forest[t], w.pc[t].ret)
    case Leave => op := Exit;
    case Do(Compute, _) => op := Exec;
    case Do(Await(event), _) => op := Wait(event);
    case Do(Raise(event), _) => op := Signal(event);
    case Do(Spawn(hasFunc, priority, _), _) => op := Fork(hasFunc, priority, n);
  }

  ghost predicate Covers(forest: Forest, a: Abs) {
    forall t :: t in a.fate && a.fate[t].Live? ==> t in forest
  }

  lemma RestCovers(forest: Forest, w: World, a: Abs, t: Tid, op: Op)
    requires Covers(forest, a) && Allows(forest, w, t, op) && CanAct(a, Event(t, op))
    ensures Covers(Rest(forest, w, t, op), Act(a, Event(t, op)))
  {
    hide Act, ExecSpec, ForkSpec, WaitSpec, SignalSpec;
    ActFate(a, Event(t, op));
    if op.Exit? {
      assert FateAfter(Spec(op, a.s).andThen) == Ended;
    }
  }

  /** Every thread that is alive has its handler. */
  lemma {:induction false} AliveIsCovered(q: nat, io: nat, main: Handler, steps: seq<Step>)
    requires q >= 1 && IsExecution(Init(q, io), steps) && Obeys(Init(q, io), map[MAIN := main], steps)
    ensures IsRun(Start(q, io), Calls(steps))
    ensures Covers(ForestAfter(Init(q, io), map[MAIN := main], steps), After(Start(q, io), Calls(steps)))
    decreases |steps|
  {
    hide Act, Apply, Inv, Covers, Rest, Allows, CanAct;
    ExecutionsRefineRuns(q, io, steps);
    if steps == [] {
      assert Covers(map[MAIN := main], Start(q, io)) by { StartCovered(q, io, main); }
    } else {
      var prefix, last := steps[..|steps| - 1], steps[|steps| - 1];
      AliveIsCovered(q, io, main, prefix);
      if last.Call? {
        var e := Event(last.t, last.op);
        assert Calls(steps)[..|Calls(steps)| - 1] == Calls(prefix);
        RestCovers(ForestAfter(Init(q, io), map[MAIN := main], prefix), Reached(Init(q, io), prefix),
                   After(Start(q, io), Calls(prefix)), last.t, last.op);
      } else {
        assert Calls(steps) == Calls(prefix);
      }
    }
  }

  lemma StartCovered(q: nat, io: nat, main: Handler)
    ensures Covers(map[MAIN := main], Start(q, io))
  {
  }

  /** No step the system lets the threads make is one their handlers make. */
  ghost predicate Blocked(w: World, forest: Forest) {
    forall step :: !(Enabled(w, step) && (step.Call? ==> Allows(forest, w, step.t, step.op)))
  }

  lemma BlockedIsStuck(w: World, forest: Forest, a: Abs)
    requires Blocked(w, forest) && Covers(forest, a)
    requires w.pc.Keys == a.fate.Keys && forall t :: t in w.pc ==> Agrees(w, a, t)
    ensures Stuck(w)
  {
    hide Allows;
    forall step ensures !Enabled(w, step) {
      if Enabled(w, step) && step.Call? {
        assert Agrees(w, a, step.t);
        var op := SomeCall(forest, w, step.t);
      }
    }
  }

  /** A program of finite handlers that cannot go on has ended, main included, or is deadlocked: nobody is ready, and
      every thread that has not ended is asleep in the waiting list. */
  lemma {:induction false} FiniteProgramsEndProperly(q: nat, io: nat, main: Handler, steps: seq<Step>)
    requires q >= 1 && IsExecution(Init(q, io), steps) && Obeys(Init(q, io), map[MAIN := main], steps)
    requires Blocked(Reached(Init(q, io), steps), ForestAfter(Init(q, io), map[MAIN := main], steps))
    ensures StuckProperly(Reached(Init(q, io), steps))
  {
    hide Blocked, Covers, Stuck, StuckProperly, After, Reached, ForestAfter, Obeys, IsExecution, Calls, Agrees;
    AliveIsCovered(q, io, main, steps);
    ExecutionsRefineRuns(q, io, steps);
    BlockedIsStuck(Reached(Init(q, io), steps), ForestAfter(Init(q, io), map[MAIN := main], steps),
                   After(Start(q, io), Calls(steps)));
    StuckShape(q, io, steps);
  }
}
