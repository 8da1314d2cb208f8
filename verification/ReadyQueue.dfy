/** The abstract content of the ready queue and what one insertion does to it. */
module ReadyQueue {

  type Tid = nat

  /** A queue element: a copy of the thread id and the priority it is queued with. */
  datatype PQData = PQData(tid: Tid, priority: nat)

  ghost predicate Sorted(s: seq<PQData>) {
    forall i, j :: 0 <= i < j < |s| ==> s[i].priority >= s[j].priority
  }

  function Tids(s: seq<PQData>): (ts: seq<Tid>)
    ensures |ts| == |s|
    ensures forall i :: 0 <= i < |s| ==> ts[i] == s[i].tid
  {
    seq(|s|, i requires 0 <= i < |s| => s[i].tid)
  }

  // ---------- Where an element goes ----------

  /** The test the insertion loop makes between neighbours k-1 and k. */
  predicate StopsAt(s: seq<PQData>, p: nat, k: nat)
    requires 1 <= k < |s|
  {
    s[k - 1].priority == p || s[k].priority < p
  }

  /** The first gap, from i on, at which the insertion loop stops. A tail below p guarantees there is one. */
  function Slot(s: seq<PQData>, p: nat, i: nat): (k: nat)
    requires 1 <= i < |s| && s[|s| - 1].priority < p
    ensures i <= k < |s| && StopsAt(s, p, k)
    ensures forall j :: i <= j < k ==> !StopsAt(s, p, j)
    decreases |s| - i
  {
    if StopsAt(s, p, i) then i else Slot(s, p, i + 1)
  }

  /** The index at which an element of priority p is inserted, on any queue, sorted or not. */
  function Position(s: seq<PQData>, p: nat): (k: nat)
    ensures k <= |s|
  {
    if s == [] || s[0].priority < p then 0
    else if s[|s| - 1].priority >= p then |s|
    else Slot(s, p, 1)
  }

  function Push(s: seq<PQData>, e: PQData): seq<PQData> {
    var k := Position(s, e.priority);
    s[..k] + [e] + s[k..]
  }

  function PushAll(s: seq<PQData>, es: seq<PQData>): seq<PQData>
    decreases |es|
  {
    if es == [] then s else PushAll(Push(s, es[0]), es[1..])
  }

  lemma PushAllOne(s: seq<PQData>, e: PQData, es: seq<PQData>)
    ensures PushAll(s, [e] + es) == PushAll(Push(s, e), es)
  {
    assert ([e] + es)[1..] == es;
  }

  // ---------- What an insertion keeps ----------

  lemma PositionInOrder(s: seq<PQData>, p: nat)
    requires Sorted(s)
    ensures forall i :: 0 <= i < Position(s, p) ==> s[i].priority >= p
    ensures forall i :: Position(s, p) <= i < |s| ==> s[i].priority <= p
  {
    var k := Position(s, p);
    if 0 < k < |s| {
      assert s[k - 1].priority >= p by {
        if s[k - 1].priority < p && k > 1 {
          assert StopsAt(s, p, k - 1);
        }
      }
    }
  }

  lemma PushSorted(s: seq<PQData>, e: PQData)
    requires Sorted(s)
    ensures Sorted(Push(s, e))
  {
    PositionInOrder(s, e.priority);
  }

  lemma TidsAppend(s: seq<PQData>, t: seq<PQData>)
    ensures Tids(s + t) == Tids(s) + Tids(t)
    ensures multiset(Tids(s + t)) == multiset(Tids(s)) + multiset(Tids(t))
  {
    assert Tids(s + t) == Tids(s) + Tids(t);
  }

  lemma TidsOne(e: PQData)
    ensures Tids([e]) == [e.tid] && multiset(Tids([e])) == multiset{e.tid}
  {
    assert Tids([e]) == [e.tid];
  }

  lemma InsertElements(a: seq<PQData>, e: PQData, b: seq<PQData>)
    ensures multiset(a + [e] + b) == multiset(a + b) + multiset{e}
    ensures multiset(Tids(a + [e] + b)) == multiset(Tids(a + b)) + multiset{e.tid}
  {
    hide Tids;
    TidsAppend(a, b);
    TidsAppend(a, [e]);
    TidsAppend(a + [e], b);
    TidsOne(e);
  }

  lemma PushElements(s: seq<PQData>, e: PQData)
    ensures multiset(Push(s, e)) == multiset(s) + multiset{e}
    ensures multiset(Tids(Push(s, e))) == multiset(Tids(s)) + multiset{e.tid}
  {
    hide Position, Tids;
    var k := Position(s, e.priority);
    InsertElements(s[..k], e, s[k..]);
    assert s == s[..k] + s[k..];
  }

  /** The element is in front exactly when the queue is empty or its head is lower. */
  lemma PushHead(s: seq<PQData>, e: PQData)
    ensures Push(s, e)[0] == (if s == [] || s[0].priority < e.priority then e else s[0])
  {
  }

  lemma {:induction false} PushAllKeeps(s: seq<PQData>, es: seq<PQData>)
    ensures Sorted(s) ==> Sorted(PushAll(s, es))
    ensures multiset(PushAll(s, es)) == multiset(s) + multiset(es)
    ensures multiset(Tids(PushAll(s, es))) == multiset(Tids(s)) + multiset(Tids(es))
    ensures |PushAll(s, es)| == |s| + |es|
    decreases |es|
  {
    hide Push, Sorted;
    if es != [] {
      var e := es[0];
      if Sorted(s) { PushSorted(s, e); }
      PushElements(s, e);
      PushAllKeeps(Push(s, e), es[1..]);
      assert es == [e] + es[1..];
      TidsAppend([e], es[1..]);
      TidsOne(e);
      assert |Push(s, e)| == |multiset(Push(s, e))|;
    }
  }

  // ---------- The exact position, and when equals are served in turn ----------

  predicate Holds(s: seq<PQData>, p: nat) {
    exists i :: 0 <= i < |s| && s[i].priority == p
  }

  /** k is the first place with an element of priority p. */
  predicate FirstEqual(s: seq<PQData>, p: nat, k: nat) {
    k < |s| && s[k].priority == p && forall i :: 0 <= i < k ==> s[i].priority != p
  }

  /** k is the first place with an element below p. */
  predicate FirstLower(s: seq<PQData>, p: nat, k: nat) {
    k < |s| && s[k].priority < p && forall i :: 0 <= i < k ==> s[i].priority >= p
  }

  /** An insertion strictly inside the queue goes right after the first equal element if there is one,
      and before the first lower one if there is none. */
  lemma InteriorPosition(s: seq<PQData>, p: nat)
    requires Sorted(s) && s != [] && s[|s| - 1].priority < p <= s[0].priority
    ensures 0 < Position(s, p) < |s|
    ensures Holds(s, p) ==> FirstEqual(s, p, Position(s, p) - 1)
    ensures !Holds(s, p) ==> FirstLower(s, p, Position(s, p))
  {
    PositionInOrder(s, p);
    var k := Position(s, p);
    assert forall j :: 1 <= j < k ==> !StopsAt(s, p, j);
    if Holds(s, p) {
      var i :| 0 <= i < |s| && s[i].priority == p;
      if i + 1 < k {
        assert StopsAt(s, p, i + 1);
      }
      assert i >= k - 1;
      assert s[k - 1].priority == p;
      forall j | 0 <= j < k - 1 ensures s[j].priority != p {
        assert !StopsAt(s, p, j + 1);
      }
    }
  }

  /** A newcomer at k is served after every element of its own priority. */
  predicate BehindEquals(s: seq<PQData>, p: nat, k: nat) {
    forall i :: k <= i < |s| ==> s[i].priority != p
  }

  /** The guard of the case that breaks first-come first-served order: a lower tail and two equals already queued. */
  predicate JumpsQueue(s: seq<PQData>, p: nat) {
    && s != [] && s[|s| - 1].priority < p
    && exists i, j :: 0 <= i < j < |s| && s[i].priority == s[j].priority == p
  }

  /** Insertion is first-come first-served among equals exactly when that guard is false. */
  lemma FirstComeFirstServed(s: seq<PQData>, p: nat)
    requires Sorted(s)
    ensures BehindEquals(s, p, Position(s, p)) <==> !JumpsQueue(s, p)
  {
    PositionInOrder(s, p);
    var k := Position(s, p);
    if s != [] && s[|s| - 1].priority < p <= s[0].priority {
      InteriorPosition(s, p);
      if JumpsQueue(s, p) {
        var i, j :| 0 <= i < j < |s| && s[i].priority == s[j].priority == p;
        assert FirstEqual(s, p, k - 1);
        assert k <= j;
      } else {
        forall i | k <= i < |s| ensures s[i].priority != p {
          assert s[k - 1].priority != p || s[i].priority != p;
          assert Holds(s, p) ==> s[k - 1].priority == p;
        }
      }
    }
  }

  /** The case happens: the newcomer 5 overtakes 3, queued before it with the same priority. */
  lemma QueueJumpExample()
    ensures var s := [PQData(1, 4), PQData(2, 2), PQData(3, 2), PQData(4, 1)];
            && Sorted(s)
            && Push(s, PQData(5, 2)) == [PQData(1, 4), PQData(2, 2), PQData(5, 2), PQData(3, 2), PQData(4, 1)]
  {
    var s := [PQData(1, 4), PQData(2, 2), PQData(3, 2), PQData(4, 1)];
    assert !StopsAt(s, 2, 1) && StopsAt(s, 2, 2);
    assert Slot(s, 2, 1) == 2;
  }

  /** Above the head, or alone, it goes in front. */
  lemma PushFront(s: seq<PQData>, e: PQData)
    requires s == [] || s[0].priority < e.priority
    ensures Push(s, e) == [e] + s
  {
  }

  /** With a queue of equals, or one with the tail at the newcomer's priority, it goes last. */
  lemma PushLast(s: seq<PQData>, e: PQData)
    requires s != [] && s[0].priority >= e.priority && s[|s| - 1].priority >= e.priority
    ensures Push(s, e) == s + [e]
  {
  }

  /** With the head at the newcomer's priority and a lower tail, it goes second. */
  lemma PushSecond(s: seq<PQData>, e: PQData)
    requires s != [] && s[0].priority == e.priority && s[|s| - 1].priority < e.priority
    ensures Push(s, e) == [s[0], e] + s[1..]
  {
    assert StopsAt(s, e.priority, 1);
  }
}

/** The abstract content of the waiting list. */
module WaitList {
  import opened ReadyQueue
  import opened Sequences

  datatype Waiter = Waiter(tid: Tid, priority: nat, io: nat)

  function WaitTids(ws: seq<Waiter>): (ts: seq<Tid>)
    ensures |ts| == |ws|
    ensures forall i :: 0 <= i < |ws| ==> ts[i] == ws[i].tid
  {
    seq(|ws|, i requires 0 <= i < |ws| => ws[i].tid)
  }

  lemma WaitTidsAppend(s: seq<Waiter>, t: seq<Waiter>)
    ensures WaitTids(s + t) == WaitTids(s) + WaitTids(t)
    ensures multiset(WaitTids(s + t)) == multiset(WaitTids(s)) + multiset(WaitTids(t))
  {
    assert WaitTids(s + t) == WaitTids(s) + WaitTids(t);
  }

  /** The waiters for io, in waiting order, as ready-queue elements. */
  function Woken(ws: seq<Waiter>, io: nat): seq<PQData> {
    if ws == [] then []
    else if ws[0].io == io then [PQData(ws[0].tid, ws[0].priority)] + Woken(ws[1..], io)
    else Woken(ws[1..], io)
  }

  /** The others, in waiting order. */
  function Others(ws: seq<Waiter>, io: nat): seq<Waiter> {
    if ws == [] then []
    else if ws[0].io == io then Others(ws[1..], io)
    else [ws[0]] + Others(ws[1..], io)
  }

  /** Nobody is lost and nobody is woken twice. */
  lemma {:induction false} WokenOnce(ws: seq<Waiter>, io: nat)
    ensures multiset(WaitTids(ws)) == multiset(Tids(Woken(ws, io))) + multiset(WaitTids(Others(ws, io)))
    ensures |Woken(ws, io)| + |Others(ws, io)| == |ws|
  {
    if ws != [] {
      var w, rest := ws[0], ws[1..];
      WokenOnce(rest, io);
      assert ws == [w] + rest;
      WaitTidsAppend([w], rest);
      assert WaitTids([w]) == [w.tid];
      if w.io == io {
        var e := PQData(w.tid, w.priority);
        TidsAppend([e], Woken(rest, io));
        TidsOne(e);
      } else {
        WaitTidsAppend([w], Others(rest, io));
      }
    }
  }

  /** The waiters for io are woken, and the others are left behind. */
  lemma {:induction false} WokenAndOthers(ws: seq<Waiter>, io: nat)
    ensures forall e :: e in Woken(ws, io) <==> Waiter(e.tid, e.priority, io) in ws
    ensures forall w :: w in Others(ws, io) <==> w in ws && w.io != io
  {
    if ws != [] {
      WokenAndOthers(ws[1..], io);
      assert ws == [ws[0]] + ws[1..];
    }
  }

  function CountFor(ws: seq<Waiter>, io: nat): (n: nat)
    ensures n <= |ws|
  {
    if ws == [] then 0 else (if ws[0].io == io then 1 else 0) + CountFor(ws[1..], io)
  }

  /** Both keep the waiting order: each waiter lands behind exactly those of its kind that waited before it. */
  lemma {:induction false} InWaitingOrder(ws: seq<Waiter>, io: nat, i: nat)
    requires i < |ws|
    ensures var k := CountFor(ws[..i], io);
            if ws[i].io == io then
              k < |Woken(ws, io)| && Woken(ws, io)[k] == PQData(ws[i].tid, ws[i].priority)
            else
              k <= i && i - k < |Others(ws, io)| && Others(ws, io)[i - k] == ws[i]
  {
    if i > 0 {
      InWaitingOrder(ws[1..], io, i - 1);
      assert ws[..i][1..] == ws[1..][..i - 1];
    }
  }

  /** Where the first waiter for io stands; the length of the list if there is none. */
  function FirstFor(ws: seq<Waiter>, io: nat): (k: nat)
    ensures k <= |ws|
    ensures forall i :: 0 <= i < k ==> ws[i].io != io
    ensures k < |ws| ==> ws[k].io == io
  {
    if ws == [] || ws[0].io == io then 0 else 1 + FirstFor(ws[1..], io)
  }

  lemma SkipOne(ws: seq<Waiter>, io: nat, k: nat)
    requires 0 < k < |ws| && ws[0].io != io
    ensures Woken(Drop(ws, k), io) == Woken(Drop(ws[1..], k - 1), io)
    ensures Others(Drop(ws, k), io) == [ws[0]] + Others(Drop(ws[1..], k - 1), io)
  {
    assert Drop(ws, k)[1..] == Drop(ws[1..], k - 1);
  }

  /** Taking out the first waiter for io takes out the first of Woken and leaves Others alone. */
  lemma {:induction false} TakeFirst(ws: seq<Waiter>, io: nat)
    ensures var k := FirstFor(ws, io);
            if k < |ws| then
              && Woken(ws, io) == [PQData(ws[k].tid, ws[k].priority)] + Woken(Drop(ws, k), io)
              && Others(ws, io) == Others(Drop(ws, k), io)
            else Woken(ws, io) == [] && Others(ws, io) == ws
  {
    if ws == [] {
    } else if ws[0].io == io {
      assert Drop(ws, 0) == ws[1..];
    } else {
      hide Drop;
      TakeFirst(ws[1..], io);
      if FirstFor(ws, io) < |ws| {
        SkipOne(ws, io, FirstFor(ws, io));
      } else {
        assert ws == [ws[0]] + ws[1..];
      }
    }
  }
}
