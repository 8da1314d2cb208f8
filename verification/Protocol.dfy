/** Threads that run on their own and hand each other one processor through semaphores. Every post, every wait and
    every single access to the shared structures is a step of its own, and any enabled step may come next. */
module Protocol {
  import opened Options
  import opened ReadyQueue
  import opened WaitList
  import opened SchedulerSpec
  import opened SequentialMachine
  import opened MicroCode

  /** Where a thread is. */
  datatype Pc =
    | User(ret: int)                  // in its handler, or main before so_end; ret is what the latest call returned
    | Inside(code: Code)              // in a call, up to and including its last post
    | Sleeping(self: Tid, ret: int)   // about to wait, or blocked, on the semaphore in self's record
    | Leaving                         // past the last post of start_thread, before its return
    | Joining(k: nat)                 // main in so_end, with the first k created threads joined
    | Dead
    | Broken                          // after a null dereference

  /** The shared structures, the semaphores and the threads. The value of the semaphore in t's record is
      permits[t], so the sum of all the semaphores is |permits|. */
  datatype World = World(sh: Sched, permits: multiset<Tid>, pc: map<Tid, Pc>)

  datatype Step =
    | Call(t: Tid, op: Op)
    | Access(t: Tid)
    | Post(t: Tid)
    | Acquire(t: Tid)
    | Quit(t: Tid)
    | Join
    | End

  /** Where a thread goes on once a call has posted what it had to post. */
  function Resume(t: Tid, andThen: Then): Pc {
    match andThen
    case Return(ret) => User(ret)
    case Sleep(self, ret) => Sleeping(self, ret)
    case Launched(_) => Joining(0)
    case Finished => if t == MAIN then Joining(0) else Leaving
  }

  function Landing(t: Tid, c: Code): Pc {
    match c
    case Stop(None, andThen) => Resume(t, andThen)
    case Fail => Broken
    case _ => Inside(c)
  }

  predicate Enabled(w: World, step: Step) {
    match step
    case Call(t, op) => t in w.pc && w.pc[t].User? && (Spawns(op) ==> op.child !in w.pc)
    case Access(t) => t in w.pc && w.pc[t].Inside? && !Over(w.pc[t].code)
    case Post(t) => t in w.pc && w.pc[t].Inside? && w.pc[t].code.Stop? && w.pc[t].code.post.Some?
    case Acquire(t) => t in w.pc && w.pc[t].Sleeping? && w.pc[t].self in w.permits
    case Quit(t) => t in w.pc && w.pc[t].Leaving?
    case Join =>
      && MAIN in w.pc && w.pc[MAIN].Joining? && w.pc[MAIN].k < |w.sh.created|
      && var target := w.sh.created[w.pc[MAIN].k]; target in w.pc && w.pc[target].Dead?
    case End => MAIN in w.pc && w.pc[MAIN].Joining? && w.pc[MAIN].k == |w.sh.created|
  }

  function Apply(w: World, step: Step): World
    requires Enabled(w, step)
  {
    match step
    case Call(t, op) =>
      var pc := if Spawns(op) then w.pc[op.child := Sleeping(op.child, 0)] else w.pc;
      w.(pc := pc[t := Landing(t, Entry(op))])
    case Access(t) =>
      var (sh, c) := Next(w.sh, w.pc[t].code);
      w.(sh := sh, pc := w.pc[t := Landing(t, c)])
    case Post(t) =>
      var c := w.pc[t].code;
      w.(permits := w.permits + multiset{c.post.value}, pc := w.pc[t := Resume(t, c.andThen)])
    case Acquire(t) =>
      w.(permits := w.permits - multiset{w.pc[t].self}, pc := w.pc[t := User(w.pc[t].ret)])
    case Quit(t) => w.(pc := w.pc[t := Dead])
    case Join => w.(pc := w.pc[MAIN := Joining(w.pc[MAIN].k + 1)])
    case End => w.(pc := w.pc[MAIN := Dead])
  }

  function Init(q: nat, io: nat): World {
    World(Start(q, io).s, multiset{}, map[MAIN := User(0)])
  }

  predicate IsExecution(w: World, steps: seq<Step>)
    decreases |steps|, 0
  {
    steps == [] ||
    var prefix := steps[..|steps| - 1];
    IsExecution(w, prefix) && Enabled(Reached(w, prefix), steps[|steps| - 1])
  }

  function Reached(w: World, steps: seq<Step>): World
    requires IsExecution(w, steps)
    decreases |steps|, 1
  {
    if steps == [] then w else Apply(Reached(w, steps[..|steps| - 1]), steps[|steps| - 1])
  }

  /** The calls of an execution, in the order in which they are entered. */
  function Calls(steps: seq<Step>): seq<Event> {
    if steps == [] then []
    else
      var last := steps[|steps| - 1];
      Calls(steps[..|steps| - 1]) + if last.Call? then [Event(last.t, last.op)] else []
  }

  // ---------- The relation with the atomic machine ----------

  /** Where the right to run is: with a thread, in a semaphore, or lost for good. */
  datatype Token = Held(t: Tid) | Posted(t: Tid) | Lost

  /** What the holder still owes: left to itself, it brings the shared structures to a.s. */
  ghost predicate Owes(w: World, t: Tid, c: Code, a: Abs)
    requires t in a.fate
  {
    var o := Finish(w.sh, c);
    && Proper(t, o) && o.s == a.s
    && a.token == (o.andThen.Return? || o.post.Some?)
    && a.fate[t] == FateAfter(o.andThen)
    && (c.Stop? ==> c.post.Some?) && !c.Fail?
    && (c.ForkAppend? ==> c.child != t)
  }

  ghost predicate JoinedAll(w: World, k: nat) {
    k <= |w.sh.created| && forall i :: 0 <= i < k ==> w.sh.created[i] in w.pc && w.pc[w.sh.created[i]].Dead?
  }

  /** A thread without the right to run touches nothing, and if it sleeps it does so on its own semaphore. */
  ghost predicate Resting(w: World, a: Abs, t: Tid)
    requires t in w.pc && t in a.fate
  {
    match w.pc[t]
    case Sleeping(self, ret) => self == t && t != MAIN && a.fate[t] == Live(ret)
    case Leaving => t != MAIN && a.fate[t].Ended?
    case Dead => a.fate[t].Ended? && (t == MAIN ==> JoinedAll(w, |w.sh.created|))
    case Joining(k) => t == MAIN && a.fate[t].Ended? && JoinedAll(w, k)
    case _ => false
  }

  /** A thread with the right to run is the one in the running record, or owes a hand-over. */
  ghost predicate Holding(w: World, a: Abs, t: Tid)
    requires t in w.pc && t in a.fate
  {
    match w.pc[t]
    case User(ret) => w.sh == a.s && a.token && t == Actor(a.s) && a.fate[t] == Live(ret)
    case Inside(c) => Owes(w, t, c, a)
    case _ => false
  }

  ghost predicate Placed(w: World, token: Token, a: Abs, t: Tid)
    requires t in w.pc && t in a.fate
  {
    if token == Held(t) then Holding(w, a, t) else Resting(w, a, t)
  }

  ghost predicate TokenOk(w: World, token: Token, a: Abs) {
    match token
    case Held(t) => t in w.pc && w.permits == multiset{}
    case Posted(t) =>
      && w.permits == multiset{t} && w.sh == a.s && a.token && a.s.started
      && t == a.s.running.tid && t in w.pc && w.pc[t].Sleeping?
    case Lost => w.permits == multiset{} && w.sh == a.s && !a.token
  }

  ghost predicate Related(w: World, token: Token, a: Abs) {
    && Inv(a)
    && w.pc.Keys == a.fate.Keys && MAIN in w.pc
    && TokenOk(w, token, a)
    && forall t :: t in w.pc ==> Placed(w, token, a, t)
  }

  lemma InitRelated(q: nat, io: nat)
    requires q >= 1
    ensures Related(Init(q, io), Held(MAIN), Start(q, io))
  {
    StartInv(q, io);
  }

  lemma ForkCreates(s: Sched, c: Code)
    requires InFork(c)
    ensures NextFork(s, c).0.created == s.created + if c.ForkAppend? then [c.child] else []
    ensures !NextFork(s, c).1.ForkAppend?
  {
    hide Push;
  }

  /** Only so_fork appends to the list of created threads, and that is its first access. */
  lemma AccessCreates(s: Sched, c: Code)
    requires !Over(c)
    ensures Next(s, c).0.created == s.created + if c.ForkAppend? then [c.child] else []
    ensures !Next(s, c).1.ForkAppend?
  {
    hide Push, NextFork;
    if InFork(c) {
      ForkCreates(s, c);
    }
  }

  lemma FinishOver(s: Sched, c: Code)
    requires Over(c)
    ensures Finish(s, c) == if c.Fail? then Crash else Outcome(s, c.post, c.andThen)
    ensures !c.ForkAppend?
  {
  }

  lemma {:induction false} FinishCreated(s: Sched, c: Code)
    requires Finish(s, c).Outcome?
    ensures Finish(s, c).s.created == s.created + if c.ForkAppend? then [c.child] else []
    decreases Measure(s, c)
  {
    hide Push, Next, Rank, Finish;
    if Over(c) {
      FinishOver(s, c);
    } else {
      var (s', c') := Next(s, c);
      NextDecreases(s, c);
      AccessCreates(s, c);
      Advance(s, c, s', c');
      FinishCreated(s', c');
    }
  }

  // ---------- One step ----------

  /** What the steps below use of the sequential invariant. */
  lemma Facts(a: Abs)
    requires Inv(a)
    ensures a.fate.Keys == {MAIN} + Members(a.s.created) && MAIN !in Members(a.s.created)
    ensures !a.token ==> a.s.ready == []
    ensures a.token && a.s.started ==>
              a.s.running.tid in a.fate && a.fate[a.s.running.tid].Live? && a.s.running.tid != MAIN
  {
    if a.token && a.s.started {
      RunningIsElsewhere(a.s, a.fate, a.s.running.tid);
    }
    if !a.s.started && a.s.ready != [] {
      PopTids(a.s.ready);
    }
  }

  /** A step of t leaves the others placed, as long as main has not returned from so_end. */
  lemma OthersRest(w: World, token: Token, a: Abs, w': World, a': Abs, t: Tid)
    requires Related(w, token, a) && (token.Held? ==> token == Held(t))
    requires t in w.pc && !w.pc[t].Dead? && !w.pc[MAIN].Dead?
    requires forall x :: x in w.pc && x != t ==> x in w'.pc && w'.pc[x] == w.pc[x]
    requires forall x :: x in w.pc && x != t ==> x in a'.fate && a'.fate[x] == a.fate[x]
    requires w.sh.created <= w'.sh.created
    ensures forall x :: x in w.pc && x != t ==> Resting(w', a', x)
  {
    hide Inv, TokenOk;
    forall x | x in w.pc && x != t ensures Resting(w', a', x) {
      assert Placed(w, token, a, x);
    }
  }

  /** Only the holder is in user code, and it is the caller the atomic machine expects. */
  lemma CallerIsActor(w: World, token: Token, a: Abs, t: Tid, op: Op)
    requires Related(w, token, a) && Enabled(w, Call(t, op))
    ensures token == Held(t) && w.sh == a.s && w.permits == multiset{} && MayAct(a, Event(t, op))
  {
    hide Inv, Owes;
    assert Placed(w, token, a, t);
  }

  /** The caller after its call has started: it has returned already, or owes what the atomic call promised. */
  lemma CallerHolds(w: World, w': World, a: Abs, e: Event)
    requires CanAct(a, e) && Proper(e.who, Spec(e.op, a.s)) && w.sh == a.s == w'.sh
    requires e.who in a.fate && (Spawns(e.op) ==> e.op.child != e.who)
    requires e.who in w'.pc && w'.pc[e.who] == Landing(e.who, Entry(e.op))
    ensures e.who in Act(a, e).fate && Holding(w', Act(a, e), e.who)
  {
    FinishIsSpec(e.op, w.sh);
    ActFate(a, e);
    hide Finish, Push, Act, ExecSpec, WaitSpec, SignalSpec, ExitSpec;
  }

  lemma CallKeeps(w: World, token: Token, a: Abs, t: Tid, op: Op)
    requires Related(w, token, a) && Enabled(w, Call(t, op)) && !w.pc[MAIN].Dead?
    ensures CanAct(a, Event(t, op))
    ensures Related(Apply(w, Call(t, op)), Held(t), Act(a, Event(t, op)))
  {
    hide Inv, Spec, Act, Holding, Push, Finish;
    var e := Event(t, op);
    CallerIsActor(w, token, a, t, op);
    ActKeeps(a, e);
    ActFate(a, e);
    var a', w' := Act(a, e), Apply(w, Call(t, op));
    CallerHolds(w, w', a, e);
    OthersRest(w, token, a, w', a', t);
    Facts(a');
    forall x | x in w'.pc ensures Placed(w', Held(t), a', x) {
      if x !in w.pc {
        assert x == op.child && x != MAIN;
      }
    }
  }

  /** One access brings the debt nearer and does not change it. */
  lemma AccessOwes(w: World, w': World, t: Tid, c: Code, a: Abs)
    requires t in a.fate && !Over(c) && Owes(w, t, c, a) && w'.sh == Next(w.sh, c).0
    ensures var c' := Next(w.sh, c).1;
            if c'.Stop? && c'.post.None? then
              && w'.sh == a.s && Proper(t, Outcome(w'.sh, None, c'.andThen))
              && a.token == c'.andThen.Return? && a.fate[t] == FateAfter(c'.andThen)
            else Owes(w', t, c', a)
  {
    hide Push, Next, Finish;
    var (sh', c') := Next(w.sh, c);
    Advance(w.sh, c, sh', c');
    AccessCreates(w.sh, c);
    if Over(c') {
      EndsAtOnce(w.sh, c);
    }
  }

  /** Where the right to run is after an access of t that leads to pc. */
  function TokenAfter(t: Tid, pc: Pc): Token {
    if pc.User? || pc.Inside? then Held(t) else Lost
  }

  lemma InsideHolds(w: World, token: Token, a: Abs, t: Tid)
    requires Related(w, token, a) && t in w.pc && w.pc[t].Inside?
    ensures token == Held(t) && w.permits == multiset{} && t in a.fate && Owes(w, t, w.pc[t].code, a)
  {
    hide Inv, Owes;
    assert Placed(w, token, a, t);
  }

  lemma AccessKeeps(w: World, token: Token, a: Abs, t: Tid)
    requires Related(w, token, a) && Enabled(w, Access(t)) && !w.pc[MAIN].Dead?
    ensures var w' := Apply(w, Access(t)); Related(w', TokenAfter(t, w'.pc[t]), a)
  {
    hide Inv, Owes, Next, Finish, Push, Resting, Holding, Proper;
    var c, w' := w.pc[t].code, Apply(w, Access(t));
    InsideHolds(w, token, a, t);
    AccessOwes(w, w', t, c, a);
    AccessCreates(w.sh, c);
    OthersRest(w, token, a, w', a, t);
    AccessLands(w', a, t, Next(w.sh, c).1);
  }

  lemma AccessLands(w: World, a: Abs, t: Tid, c: Code)
    requires t in w.pc && t in a.fate && w.pc[t] == Landing(t, c)
    requires if c.Stop? && c.post.None? then
               && w.sh == a.s && Proper(t, Outcome(w.sh, None, c.andThen))
               && a.token == c.andThen.Return? && a.fate[t] == FateAfter(c.andThen)
             else Owes(w, t, c, a)
    ensures if TokenAfter(t, w.pc[t]) == Held(t) then Holding(w, a, t)
            else Resting(w, a, t) && w.sh == a.s && !a.token
  {
    hide Finish;
  }

  /** A holder about to post has paid its debt, and rests once it has posted. */
  lemma PostLands(w: World, w': World, a: Abs, t: Tid, c: Code)
    requires t in a.fate && c.Stop? && Owes(w, t, c, a) && w'.sh == w.sh
    requires t in w'.pc && w'.pc[t] == Resume(t, c.andThen)
    ensures c.post.Some? && w.sh == a.s && a.token && a.s.started && c.post.value == a.s.running.tid
    ensures Resting(w', a, t)
  {
    hide Finish, Push;
    Halt(w.sh, c.post, c.andThen);
  }

  lemma PostKeeps(w: World, token: Token, a: Abs, t: Tid)
    requires Related(w, token, a) && Enabled(w, Post(t)) && !w.pc[MAIN].Dead?
    ensures var w' := Apply(w, Post(t)); Related(w', Posted(w.pc[t].code.post.value), a)
    ensures w.permits == multiset{}
  {
    hide Inv, Owes, Finish, Push, Holding, Proper, Resume;
    var c, w' := w.pc[t].code, Apply(w, Post(t));
    InsideHolds(w, token, a, t);
    PostLands(w, w', a, t, c);
    OthersRest(w, token, a, w', a, t);
    Facts(a);
    var n := c.post.value;
    assert n in w'.pc && Resting(w', a, n);
  }

  lemma AcquireKeeps(w: World, token: Token, a: Abs, t: Tid)
    requires Related(w, token, a) && Enabled(w, Acquire(t)) && !w.pc[MAIN].Dead?
    ensures token == Posted(t) && Related(Apply(w, Acquire(t)), Held(t), a)
  {
    hide Inv, Push;
    assert Placed(w, token, a, t);
    var w' := Apply(w, Acquire(t));
    OthersRest(w, token, a, w', a, t);
  }

  lemma QuitKeeps(w: World, token: Token, a: Abs, t: Tid)
    requires Related(w, token, a) && Enabled(w, Quit(t)) && !w.pc[MAIN].Dead?
    ensures Related(Apply(w, Quit(t)), token, a)
  {
    hide Inv, Push, Finish, Proper;
    var w' := Apply(w, Quit(t));
    forall x | x in w'.pc ensures Placed(w', token, a, x) {
      assert Placed(w, token, a, x);
    }
  }

  lemma JoinKeeps(w: World, token: Token, a: Abs)
    requires Related(w, token, a) && Enabled(w, Join)
    ensures Related(Apply(w, Join), token, a)
  {
    hide Inv, Push, Finish, Proper;
    var w' := Apply(w, Join);
    forall x | x in w'.pc ensures Placed(w', token, a, x) {
      assert Placed(w, token, a, x) && Placed(w, token, a, MAIN);
    }
  }

  lemma EndKeeps(w: World, token: Token, a: Abs)
    requires Related(w, token, a) && Enabled(w, End)
    ensures Related(Apply(w, End), token, a)
  {
    hide Inv, Push, Finish, Proper;
    var w' := Apply(w, End);
    forall x | x in w'.pc ensures Placed(w', token, a, x) {
      assert Placed(w, token, a, x) && Placed(w, token, a, MAIN);
    }
  }

  /** so_end gets past its last join only when every thread there is has ended and the right to run is gone: a thread
      that could still append to the list it walks would itself be on the list, and alive. */
  lemma JoinIsComplete(w: World, token: Token, a: Abs)
    requires Related(w, token, a)
    requires w.pc[MAIN] == Joining(|w.sh.created|) || w.pc[MAIN].Dead?
    ensures token == Lost && w.sh == a.s
    ensures forall t :: t in w.pc && t != MAIN ==> w.pc[t].Dead? && t in w.sh.created
  {
    hide Inv, Push;
    Facts(a);
    assert Placed(w, token, a, MAIN);
    assert JoinedAll(w, |w.sh.created|);
    if token.Held? {
      assert Placed(w, token, a, token.t);
      HolderIsListed(w, a, token.t);
    } else {
      assert forall t :: t in w.pc && t != MAIN ==> t in a.s.created;
    }
  }

  lemma HolderIsListed(w: World, a: Abs, t: Tid)
    requires t in w.pc && t in a.fate && Holding(w, a, t) && t != MAIN
    requires a.fate.Keys == {MAIN} + Members(a.s.created)
    ensures t in w.sh.created
  {
    hide Push;
    if w.pc[t].Inside? {
      FinishCreated(w.sh, w.pc[t].code);
    }
    assert t in a.s.created;
  }

  lemma NothingAfterTheEnd(w: World, token: Token, a: Abs, step: Step)
    requires Related(w, token, a) && w.pc[MAIN].Dead?
    ensures !Enabled(w, step)
  {
    JoinIsComplete(w, token, a);
  }

  // ---------- How much is left to do ----------

  ghost function Leavers(w: World): set<Tid> {
    set t | t in w.pc && w.pc[t].Leaving?
  }

  function HolderLeft(w: World, token: Token): nat {
    if token.Held? && token.t in w.pc && w.pc[token.t].Inside? then 2 * Rank(w.pc[token.t].code) + 3 else 0
  }

  function MainLeft(w: World): int {
    if MAIN !in w.pc || w.pc[MAIN].Dead? then 0
    else |w.sh.created| + 1 - if w.pc[MAIN].Joining? then w.pc[MAIN].k else 0
  }

  /** Bounds the steps left until user code has to make its next call. */
  ghost function Left(w: World, token: Token): int {
    HolderLeft(w, token) + 4 * |w.sh.waiting| + |w.permits| + |Leavers(w)| + MainLeft(w)
  }

  lemma LeaversChange(w: World, w': World, t: Tid)
    requires t in w.pc && forall x :: x in w'.pc && w'.pc[x].Leaving? ==> x == t || (x in w.pc && w.pc[x].Leaving?)
    ensures |Leavers(w')| <= |Leavers(w)| + 1
    ensures t !in w'.pc || !w'.pc[t].Leaving? || w.pc[t].Leaving? ==> |Leavers(w')| <= |Leavers(w)|
    ensures w.pc[t].Leaving? && (t !in w'.pc || !w'.pc[t].Leaving?) ==> |Leavers(w')| + 1 <= |Leavers(w)|
  {
    Subset(Leavers(w'), Leavers(w) + {t});
    if t !in w'.pc || !w'.pc[t].Leaving? {
      Subset(Leavers(w'), Leavers(w) - {t});
    } else if w.pc[t].Leaving? {
      Subset(Leavers(w'), Leavers(w));
    }
  }

  lemma Subset(s: set<Tid>, t: set<Tid>)
    requires s <= t
    ensures |s| <= |t|
  {
    if s != t {
      assert t == s + (t - s);
    }
  }

  lemma CallLeft(w: World, token: Token, a: Abs, t: Tid, op: Op)
    requires Related(w, token, a) && Enabled(w, Call(t, op))
    ensures Left(Apply(w, Call(t, op)), Held(t)) <= Left(w, token) + 31
  {
    hide Inv, Owes;
    CallerIsActor(w, token, a, t, op);
    var w' := Apply(w, Call(t, op));
    LeaversChange(w, w', t);
  }

  lemma AccessLeft(w: World, token: Token, a: Abs, t: Tid)
    requires Related(w, token, a) && Enabled(w, Access(t))
    ensures var w' := Apply(w, Access(t)); Left(w', TokenAfter(t, w'.pc[t])) < Left(w, token)
  {
    hide Inv, Owes, Next, Rank, Push;
    assert Placed(w, token, a, t);
    var w' := Apply(w, Access(t));
    NextDecreases(w.sh, w.pc[t].code);
    AccessCreates(w.sh, w.pc[t].code);
    LeaversChange(w, w', t);
  }

  lemma PostLeft(w: World, token: Token, a: Abs, t: Tid)
    requires Related(w, token, a) && Enabled(w, Post(t))
    ensures Left(Apply(w, Post(t)), Posted(w.pc[t].code.post.value)) < Left(w, token)
  {
    hide Inv, Owes, Rank;
    assert Placed(w, token, a, t);
    var w' := Apply(w, Post(t));
    LeaversChange(w, w', t);
    assert |w'.permits| == |w.permits| + 1;
  }

  lemma AcquireLeft(w: World, token: Token, a: Abs, t: Tid)
    requires Related(w, token, a) && Enabled(w, Acquire(t))
    ensures Left(Apply(w, Acquire(t)), Held(t)) < Left(w, token)
  {
    hide Inv, Owes, Rank;
    assert Placed(w, token, a, t);
    var w' := Apply(w, Acquire(t));
    LeaversChange(w, w', t);
    assert |w'.permits| == |w.permits| - 1;
  }

  lemma RestLeft(w: World, token: Token, a: Abs, step: Step)
    requires Related(w, token, a) && Enabled(w, step) && (step.Quit? || step.Join? || step.End?)
    ensures Left(Apply(w, step), token) < Left(w, token)
  {
    hide Inv, Owes, Rank;
    var t := if step.Quit? then step.t else MAIN;
    assert Placed(w, token, a, t);
    LeaversChange(w, Apply(w, step), t);
  }

  lemma LeftIsNat(w: World, token: Token, a: Abs)
    requires Related(w, token, a)
    ensures Left(w, token) >= 0
  {
    hide Inv, Owes, Rank;
    assert Placed(w, token, a, MAIN);
  }

  // ---------- Every execution ----------

  /** Any step of a related state is matched: a call by the same call of the atomic machine, any other by nothing. */
  lemma StepKeeps(w: World, token: Token, a: Abs, step: Step) returns (token': Token)
    requires Related(w, token, a) && Enabled(w, step)
    ensures step.Call? ==>
              CanAct(a, Event(step.t, step.op))
              && Related(Apply(w, step), token', Act(a, Event(step.t, step.op)))
              && Left(Apply(w, step), token') <= Left(w, token) + 31
    ensures !step.Call? ==> Related(Apply(w, step), token', a) && Left(Apply(w, step), token') < Left(w, token)
  {
    hide Inv, Owes, Apply, Left, Act, Placed, TokenOk;
    if w.pc[MAIN].Dead? {
      NothingAfterTheEnd(w, token, a, step);
    }
    match step
    case Call(t, op) => CallKeeps(w, token, a, t, op); CallLeft(w, token, a, t, op); token' := Held(t);
    case Access(t) =>
      AccessKeeps(w, token, a, t);
      AccessLeft(w, token, a, t);
      token' := AccessToken(w, t);
    case Post(t) =>
      PostKeeps(w, token, a, t);
      PostLeft(w, token, a, t);
      token' := Posted(w.pc[t].code.post.value);
    case Acquire(t) => AcquireKeeps(w, token, a, t); AcquireLeft(w, token, a, t); token' := Held(t);
    case Quit(t) => QuitKeeps(w, token, a, t); RestLeft(w, token, a, step); token' := token;
    case Join => JoinKeeps(w, token, a); RestLeft(w, token, a, step); token' := token;
    case End => EndKeeps(w, token, a); RestLeft(w, token, a, step); token' := token;
  }

  ghost function AccessToken(w: World, t: Tid): Token
    requires Enabled(w, Access(t))
  {
    TokenAfter(t, Apply(w, Access(t)).pc[t])
  }

  lemma {:induction false} ExecutionKeeps(q: nat, io: nat, steps: seq<Step>) returns (token: Token)
    requires q >= 1 && IsExecution(Init(q, io), steps)
    ensures IsRun(Start(q, io), Calls(steps))
    ensures Related(Reached(Init(q, io), steps), token, After(Start(q, io), Calls(steps)))
    ensures |steps| + Left(Reached(Init(q, io), steps), token) <= 1 + 32 * |Calls(steps)|
    decreases |steps|
  {
    hide Related, Act, Apply, Left;
    if steps == [] {
      token := Held(MAIN);
      InitRelated(q, io);
      InitLeft(q, io);
    } else {
      var prefix, last := steps[..|steps| - 1], steps[|steps| - 1];
      token := ExecutionKeeps(q, io, prefix);
      var w, a := Reached(Init(q, io), prefix), After(Start(q, io), Calls(prefix));
      token := StepKeeps(w, token, a, last);
      if last.Call? {
        var e := Event(last.t, last.op);
        assert Calls(steps) == Calls(prefix) + [e];
        assert Calls(steps)[..|Calls(steps)| - 1] == Calls(prefix);
      } else {
        assert Calls(steps) == Calls(prefix);
      }
    }
  }

  lemma InitLeft(q: nat, io: nat)
    ensures Left(Init(q, io), Held(MAIN)) == 1
  {
    assert Leavers(Init(q, io)) == {};
  }

  // ---------- What it comes to ----------

  /** The threads that may touch the shared structures: those in user code or inside a call. */
  ghost function Holders(w: World): set<Tid> {
    set t | t in w.pc && (w.pc[t].User? || w.pc[t].Inside?)
  }

  /** What thread t can see of the world is what the atomic machine says of it. */
  predicate Agrees(w: World, a: Abs, t: Tid)
    requires t in w.pc && t in a.fate
  {
    match w.pc[t]
    case User(ret) => w.sh == a.s && a.token && t == Actor(w.sh) && a.fate[t] == Live(ret)
    case Sleeping(self, ret) => self == t && a.fate[t] == Live(ret)
    case Inside(_) => true
    case Broken => false
    case _ => a.fate[t].Ended?
  }

  lemma RelatedAgrees(w: World, token: Token, a: Abs)
    requires Related(w, token, a)
    ensures Inv(a) && w.pc.Keys == a.fate.Keys && forall t :: t in w.pc ==> Agrees(w, a, t)
  {
    hide Inv, Owes;
    forall t | t in w.pc ensures Agrees(w, a, t) {
      assert Placed(w, token, a, t);
    }
  }

  /** Every interleaved execution is a run of the atomic machine on the calls in the order of their entry. Whenever a
      thread is in user code the shared structures are exactly the atomic ones and the thread is the one in the running
      record; every value a call returns is the atomic one; every sleeper waits on its own semaphore; none crashes. */
  lemma {:induction false} ExecutionsRefineRuns(q: nat, io: nat, steps: seq<Step>)
    requires q >= 1 && IsExecution(Init(q, io), steps)
    ensures IsRun(Start(q, io), Calls(steps))
    ensures var w, a := Reached(Init(q, io), steps), After(Start(q, io), Calls(steps));
            Inv(a) && w.pc.Keys == a.fate.Keys && forall t :: t in w.pc ==> Agrees(w, a, t)
  {
    hide Inv, Related, Agrees, After, Reached;
    var token := ExecutionKeeps(q, io, steps);
    RelatedAgrees(Reached(Init(q, io), steps), token, After(Start(q, io), Calls(steps)));
  }

  lemma HoldersOf(w: World, token: Token, a: Abs)
    requires Related(w, token, a)
    ensures Holders(w) == if token.Held? then {token.t} else {}
    ensures token == Lost ==> w.permits == multiset{} && w.sh.ready == []
  {
    hide Inv, Owes;
    Facts(a);
    assert forall t :: t in w.pc ==> Placed(w, token, a, t);
  }

  ghost predicate OneToken(w: World) {
    && (|| |w.permits| + |Holders(w)| == 1
        || (|w.permits| + |Holders(w)| == 0 && w.sh.ready == []))
    && (forall t :: w.permits[t] <= 1)
    && (forall t :: Enabled(w, Post(t)) ==> w.permits[w.pc[t].code.post.value] == 0)
    && (forall t :: t in w.permits ==> t == w.sh.running.tid && t in w.pc && w.pc[t].Sleeping?)
  }

  lemma {:induction false} RelatedOneToken(w: World, token: Token, a: Abs)
    requires Related(w, token, a)
    ensures OneToken(w)
  {
    hide Inv, Owes;
    HoldersOf(w, token, a);
    forall t | Enabled(w, Post(t)) ensures w.permits == multiset{} {
      assert t in Holders(w);
    }
  }

  /** The semaphores and the holders together always hold one permit, until it is lost with nobody ready. So at most
      one thread is in user code or inside a call, no semaphore exceeds 1, a post always finds its semaphore at 0, and
      a permit is always for the thread in the running record, which is about to take it. */
  lemma {:induction false} TokenIsConserved(q: nat, io: nat, steps: seq<Step>)
    requires q >= 1 && IsExecution(Init(q, io), steps)
    ensures OneToken(Reached(Init(q, io), steps))
  {
    hide Related, OneToken, After, Reached;
    var token := ExecutionKeeps(q, io, steps);
    RelatedOneToken(Reached(Init(q, io), steps), token, After(Start(q, io), Calls(steps)));
  }

  /** Two threads are never both about to touch the shared structures. */
  lemma {:induction false} OneAtATime(q: nat, io: nat, steps: seq<Step>, t1: Tid, t2: Tid)
    requires q >= 1 && IsExecution(Init(q, io), steps)
    requires var h := Holders(Reached(Init(q, io), steps)); t1 in h && t2 in h
    ensures t1 == t2
  {
    hide Related, Holders, After, Reached;
    var token := ExecutionKeeps(q, io, steps);
    HoldersOf(Reached(Init(q, io), steps), token, After(Start(q, io), Calls(steps)));
  }

  /** Main has nobody left to join in so_end, or has returned from it. */
  predicate PastLastJoin(w: World) {
    MAIN in w.pc && (w.pc[MAIN].Dead? || w.pc[MAIN] == Joining(|w.sh.created|))
  }

  ghost predicate EverybodyEnded(w: World) {
    && (forall t :: t in w.pc && t != MAIN ==> w.pc[t].Dead? && t in w.sh.created)
    && w.sh.ready == [] && Holders(w) == {} && w.permits == multiset{}
  }

  lemma {:induction false} RelatedEnded(w: World, token: Token, a: Abs)
    requires Related(w, token, a) && PastLastJoin(w)
    ensures EverybodyEnded(w)
  {
    hide Inv, Owes;
    JoinIsComplete(w, token, a);
    HoldersOf(w, token, a);
  }

  /** so_end is past its last join only when every thread ever created has ended, however its walk over the list and
      the appends of running threads interleave. */
  lemma {:induction false} EndJoinsEverybody(q: nat, io: nat, steps: seq<Step>)
    requires q >= 1 && IsExecution(Init(q, io), steps) && PastLastJoin(Reached(Init(q, io), steps))
    ensures EverybodyEnded(Reached(Init(q, io), steps))
  {
    hide Related, EverybodyEnded, After, Reached, PastLastJoin;
    var token := ExecutionKeeps(q, io, steps);
    RelatedEnded(Reached(Init(q, io), steps), token, After(Start(q, io), Calls(steps)));
  }

  /** If user code makes finitely many calls, returns of handlers included, the execution is finite. */
  lemma {:induction false} ExecutionsEnd(q: nat, io: nat, steps: seq<Step>)
    requires q >= 1 && IsExecution(Init(q, io), steps)
    ensures |steps| <= 1 + 32 * |Calls(steps)|
  {
    hide Related, Left, After, Reached;
    var token := ExecutionKeeps(q, io, steps);
    LeftIsNat(Reached(Init(q, io), steps), token, After(Start(q, io), Calls(steps)));
  }

  // ---------- Executions that cannot go on ----------

  ghost predicate Stuck(w: World) {
    forall step :: !Enabled(w, step)
  }

  /** While the right to run is not lost, somebody has a step. */
  lemma Progress(w: World, token: Token, a: Abs) returns (step: Step)
    requires Related(w, token, a) && token != Lost
    ensures Enabled(w, step)
  {
    hide Inv;
    var t := token.t;
    assert Placed(w, token, a, t);
    if token.Posted? {
      step := Acquire(t);
    } else if w.pc[t].User? {
      step := Call(t, Exit);
    } else {
      step := if Over(w.pc[t].code) then Post(t) else Access(t);
    }
  }

  /** With the right to run lost, a thread is alive exactly if it is in the waiting list. */
  lemma AliveIsWaiting(a: Abs, t: Tid)
    requires Inv(a) && !a.token && t in a.fate && t != MAIN
    ensures a.fate[t].Live? <==> t in WaitTids(a.s.waiting)
  {
    Facts(a);
    var g, c, v := multiset(Gone(a.fate)), multiset(a.s.created), multiset(WaitTids(a.s.waiting));
    assert t in c && c[t] == 1;
    assert Tids(a.s.ready) == [];
    assert c[t] == v[t] + g[t];
    assert t in v <==> t in WaitTids(a.s.waiting);
  }

  ghost predicate WaitingOrDead(w: World) {
    forall t :: t in w.pc && t != MAIN ==> if t in WaitTids(w.sh.waiting) then w.pc[t].Sleeping? else w.pc[t].Dead?
  }

  lemma StuckThreads(w: World, token: Token, a: Abs)
    requires Related(w, token, a) && Stuck(w)
    ensures token == Lost && WaitingOrDead(w)
  {
    hide Inv, Owes;
    if token != Lost {
      var step := Progress(w, token, a);
    }
    forall t | t in w.pc && t != MAIN
      ensures if t in WaitTids(w.sh.waiting) then w.pc[t].Sleeping? else w.pc[t].Dead?
    {
      assert Placed(w, token, a, t) && !Enabled(w, Quit(t));
      AliveIsWaiting(a, t);
    }
  }

  lemma WaitersExist(a: Abs)
    requires Inv(a) && a.s.waiting != []
    ensures var t := a.s.waiting[0].tid; t in a.fate && t != MAIN && t in WaitTids(a.s.waiting)
  {
    assert a.s.waiting[0] in a.s.waiting;
    assert WaitTids(a.s.waiting)[0] == a.s.waiting[0].tid;
  }

  /** If everybody else has ended, main can go on until it has returned. */
  lemma MainCanGoOn(w: World, token: Token, a: Abs)
    requires Related(w, token, a) && token == Lost && !w.pc[MAIN].Dead?
    requires forall t :: t in w.pc && t != MAIN ==> w.pc[t].Dead?
    ensures Enabled(w, Join) || Enabled(w, End)
  {
    hide Inv, Owes;
    assert Placed(w, token, a, MAIN);
    var k := w.pc[MAIN].k;
    if k < |w.sh.created| {
      Facts(a);
      assert w.sh.created[k] in Members(w.sh.created);
    }
  }

  lemma StuckMain(w: World, token: Token, a: Abs)
    requires Related(w, token, a) && Stuck(w) && token == Lost && WaitingOrDead(w)
    ensures w.pc[MAIN].Dead? <==> w.sh.waiting == []
  {
    hide Inv, Owes, Placed;
    if w.sh.waiting != [] {
      WaitersExist(a);
      if w.pc[MAIN].Dead? {
        JoinIsComplete(w, token, a);
      }
    } else if !w.pc[MAIN].Dead? {
      MainCanGoOn(w, token, a);
    }
  }

  ghost predicate StuckProperly(w: World) {
    && |w.permits| + |Holders(w)| == 0 && w.sh.ready == []
    && WaitingOrDead(w)
    && MAIN in w.pc && (w.pc[MAIN].Dead? <==> w.sh.waiting == [])
  }

  /** An execution that cannot go on has nobody ready; each of its threads has ended, or sleeps and is in the waiting
      list; and main has returned from so_end exactly if nobody waits. So while the permit is there, some step is. */
  lemma {:induction false} StuckShape(q: nat, io: nat, steps: seq<Step>)
    requires q >= 1 && IsExecution(Init(q, io), steps) && Stuck(Reached(Init(q, io), steps))
    ensures StuckProperly(Reached(Init(q, io), steps))
  {
    var token := ExecutionKeeps(q, io, steps);
    var w, a := Reached(Init(q, io), steps), After(Start(q, io), Calls(steps));
    hide Inv, Owes, Placed, Holders, WaitingOrDead, Stuck, Reached, After;
    StuckThreads(w, token, a);
    HoldersOf(w, token, a);
    StuckMain(w, token, a);
  }
}
