/**
 What holds over whole runs of the scheduler: events are freed once and for
 good, a running callback keeps its event and the saved iterator, and no
 allocation outlives the containers.
 */
module TimedEventRuns {
  import opened RefTotals
  import opened TimedEvents
  import opened TimedEventSafety

  // ---------- one step at a time ----------

  /** Allocation only ever adds new pointers, and identity and deletion marks are permanent. */
  ghost predicate Evolves(w: World, w': World) {
    && w.nextPtr <= w'.nextPtr
    && forall p :: p in w'.heap && p < w.nextPtr ==>
         && p in w.heap && w'.heap[p].obj == w.heap[p].obj && w'.heap[p].eventFlag == w.heap[p].eventFlag
         && (w.heap[p].deleted ==> w'.heap[p].deleted)
  }

  lemma {:induction false} ObjectStepEvolves(w: World, o: ObjectId, op: ObjectOp)
    requires NoDangling(w) && Fresh(w) && ObjectEnabled(w, o, op)
    ensures Evolves(w, ObjectStep(w, o, op))
  {
    match op
    case NewObject =>
    case DestroyObject =>
    case AddEvent(inst, e, acquired) =>
    case RemoveByPointer(p) =>
    case RemoveEvents(t) =>
    case Modify(t, edit) =>
    case Relocate(inst, acquired) =>
  }

  lemma {:induction false} VisitEvolves(w: World, h: HolderId)
    requires NoDangling(w) && Fresh(w) && HolderEnabled(w, h, Visit)
    ensures Evolves(w, VisitStep(w, h))
  {
  }

  lemma {:induction false} ReturnEvolves(w: World, h: HolderId)
    requires NoDangling(w) && Fresh(w) && HolderEnabled(w, h, Return)
    ensures Evolves(w, ReturnStep(w, h))
  {
  }

  lemma {:induction false} HolderStepEvolves(w: World, h: HolderId, op: HolderOp)
    requires NoDangling(w) && Fresh(w) && HolderEnabled(w, h, op)
    ensures Evolves(w, HolderStep(w, h, op))
  {
    match op
    case NewHolder(id) =>
    case DestroyHolder =>
    case BeginUpdate(dt) =>
    case Visit => VisitEvolves(w, h);
    case Return => ReturnEvolves(w, h);
    case EndUpdate =>
  }

  lemma {:induction false} StepEvolves(w: World, op: Op)
    requires Sound(w) && Enabled(w, op)
    ensures Evolves(w, Step(w, op))
  {
    match op
    case OfObject(o, oop) => ObjectStepEvolves(w, o, oop);
    case OfHolder(h, hop) => HolderStepEvolves(w, h, hop);
  }

  /** The pass is where it was and the list and pool have at most grown at the end. */
  ghost predicate Appended(ho: Holder, ho': Holder) {
    && ho'.instance == ho.instance && ho'.pass == ho.pass
    && ho.entries <= ho'.entries && ho.insertPool <= ho'.insertPool
  }

  /** Only a holder's own steps erase from its list or move its iterator. */
  lemma {:induction false} OthersAppend(w: World, op: Op, h: HolderId)
    requires Sound(w) && Enabled(w, op) && h in w.holders
    requires op.OfHolder? ==> op.h != h
    ensures h in Step(w, op).holders && Appended(w.holders[h], Step(w, op).holders[h])
  {
    match op
    case OfObject(o, oop) => ObjectStepAppends(w, o, oop, h);
    case OfHolder(g, hop) => HolderStepElsewhere(w, g, hop, h);
  }

  lemma {:induction false} ObjectStepAppends(w: World, o: ObjectId, op: ObjectOp, h: HolderId)
    requires NoDangling(w) && ObjectEnabled(w, o, op) && h in w.holders
    ensures h in ObjectStep(w, o, op).holders && Appended(w.holders[h], ObjectStep(w, o, op).holders[h])
  {
    match op
    case NewObject =>
    case DestroyObject =>
    case AddEvent(inst, e, acquired) =>
    case RemoveByPointer(p) =>
    case RemoveEvents(t) =>
    case Modify(t, edit) =>
    case Relocate(inst, acquired) =>
  }

  lemma {:induction false} HolderStepElsewhere(w: World, g: HolderId, op: HolderOp, h: HolderId)
    requires NoDangling(w) && HolderEnabled(w, g, op) && h in w.holders && h != g
    ensures h in HolderStep(w, g, op).holders && HolderStep(w, g, op).holders[h] == w.holders[h]
  {
    match op
    case NewHolder(id) =>
    case DestroyHolder =>
    case BeginUpdate(dt) =>
    case Visit =>
    case Return =>
    case EndUpdate =>
  }

  // ---------- whole runs ----------

  /** In every reachable state the reference count of each allocated event is its number of references. */
  lemma {:induction false} RefCountsExact(ops: seq<Op>, p: Ptr)
    requires Sound(EmptyWorld) && Legal(EmptyWorld, ops)
    ensures var w := Run(EmptyWorld, ops);
      && (p in w.heap <==> p in Refs(w))
      && (p in w.heap ==> w.heap[p].ref == Refs(w)[p])
  {
    var w := Run(EmptyWorld, ops);
    assert Counted(w.heap, Refs(w));
  }

  lemma {:induction false} RunFirst(w: World, op: Op, ops: seq<Op>)
    requires Sound(w) && Enabled(w, op) && Sound(Step(w, op)) && Legal(Step(w, op), ops)
    ensures Legal(w, [op] + ops) && Run(w, [op] + ops) == Run(Step(w, op), ops)
  {
    assert ([op] + ops)[1..] == ops;
  }

  lemma {:induction false} RunUnfold(w: World, ops: seq<Op>)
    requires Sound(w) && Legal(w, ops) && ops != []
    ensures Enabled(w, ops[0]) && Sound(Step(w, ops[0])) && Legal(Step(w, ops[0]), ops[1..])
    ensures Run(w, ops) == Run(Step(w, ops[0]), ops[1..])
  {
    StepSound(w, ops[0]);
  }

  /** A run may be extended by any step `op` enabled at its end, here `w'`. */
  lemma {:induction false} RunExtend(w: World, ops: seq<Op>, op: Op, w': World)
    requires Sound(w) && Legal(w, ops) && w' == Run(w, ops) && Enabled(w', op)
    ensures Legal(w, ops + [op]) && Run(w, ops + [op]) == Step(w', op)
    decreases |ops|, 1
  {
    if ops == [] {
      assert ops + [op] == [op] + [];
      RunSingle(w, op);
    } else {
      assert ops + [op] == [ops[0]] + (ops[1..] + [op]);
      RunUnfold(w, ops);
      RunExtendRest(w, ops[0], ops[1..], op, w');
    }
  }

  lemma {:induction false} RunSingle(w: World, op: Op)
    requires Sound(w) && Enabled(w, op)
    ensures Legal(w, [op] + []) && Run(w, [op] + []) == Step(w, op)
  {
    StepSound(w, op);
    RunFirst(w, op, []);
  }

  lemma {:induction false} RunExtendRest(w: World, first: Op, rest: seq<Op>, op: Op, w': World)
    requires Sound(w) && Enabled(w, first) && Sound(Step(w, first)) && Legal(Step(w, first), rest)
    requires w' == Run(Step(w, first), rest) && Enabled(w', op)
    ensures Legal(w, [first] + (rest + [op])) && Run(w, [first] + (rest + [op])) == Step(w', op)
    decreases |rest| + 1, 0
  {
    RunExtend(Step(w, first), rest, op, w');
    RunFirst(w, first, rest + [op]);
  }

  /** Once freed, an event is never allocated again: it is freed at most once. */
  lemma {:induction false} FreedForever(w: World, ops: seq<Op>, p: Ptr)
    requires Sound(w) && Legal(w, ops) && p < w.nextPtr && p !in w.heap
    ensures p !in Run(w, ops).heap
    decreases |ops|
  {
    if ops != [] {
      StepSound(w, ops[0]);
      StepEvolves(w, ops[0]);
      FreedForever(Step(w, ops[0]), ops[1..], p);
    }
  }

  /** An event marked deleted stays marked until it is freed. */
  lemma {:induction false} DeletedForever(w: World, ops: seq<Op>, p: Ptr)
    requires Sound(w) && Legal(w, ops) && p < w.nextPtr && (p in w.heap ==> w.heap[p].deleted)
    ensures p in Run(w, ops).heap ==> Run(w, ops).heap[p].deleted
    decreases |ops|
  {
    if ops != [] {
      StepSound(w, ops[0]);
      StepEvolves(w, ops[0]);
      DeletedForever(Step(w, ops[0]), ops[1..], p);
    }
  }

  /** When every object and holder is gone, every event has been freed. */
  lemma {:induction false} NothingLeaks(ops: seq<Op>)
    requires Sound(EmptyWorld) && Legal(EmptyWorld, ops)
    requires Run(EmptyWorld, ops).objects == map[] && Run(EmptyWorld, ops).holders == map[]
    ensures Run(EmptyWorld, ops).heap == map[]
  {
    var w := Run(EmptyWorld, ops);
    assert Refs(w) == multiset{};
    assert w.heap.Keys == {};
  }

  ghost predicate Running(ho: Holder) {
    ho.pass.InCallback? || ho.pass.Detached?
  }

  /** The event whose callback a holder is running. */
  function Current(ho: Holder): Ptr
    requires Running(ho) && PassOk(ho)
  {
    if ho.pass.InCallback? then ho.entries[ho.pass.it2] else ho.pass.ev
  }

  lemma {:induction false} CallbackHoldsList(w: World, ops: seq<Op>, h: HolderId)
    requires Sound(w) && Legal(w, ops) && h in w.holders && Running(w.holders[h])
    requires OfHolder(h, Return) !in ops
    ensures h in Run(w, ops).holders && Appended(w.holders[h], Run(w, ops).holders[h])
    decreases |ops|
  {
    if ops != [] {
      var w1 := Step(w, ops[0]);
      StepSound(w, ops[0]);
      assert ops[0] in ops && OfHolder(h, Return) !in ops[1..];
      NotOwnStep(w, ops[0], h);
      OthersAppend(w, ops[0], h);
      CallbackHoldsList(w1, ops[1..], h);
    }
  }

  /** While a holder runs a callback, returning from it is the only step that holder can take. */
  lemma {:induction false} NotOwnStep(w: World, op: Op, h: HolderId)
    requires Enabled(w, op) && h in w.holders && Running(w.holders[h]) && op != OfHolder(h, Return)
    ensures op.OfHolder? ==> op.h != h
  {
  }

  /**
   Whatever happens while holder `h` runs a callback, short of the callback returning:
   the event is still the same and still allocated, the saved iterator is the same and
   still denotes the node it denoted, and nothing has been taken out of the list.
   */
  lemma {:induction false} CallbackKeepsEvent(w: World, ops: seq<Op>, h: HolderId)
    requires Sound(w) && Legal(w, ops) && h in w.holders && Running(w.holders[h])
    requires OfHolder(h, Return) !in ops
    ensures var ho, w' := w.holders[h], Run(w, ops);
      h in w'.holders && (var ho' := w'.holders[h];
      && Running(ho') && Current(ho') == Current(ho) && Current(ho) in w'.heap
      && ho.entries <= ho'.entries && ho'.pass == ho.pass
      && (ho.pass.itr.At? ==> ho.pass.itr.index < |ho.entries| && ho'.entries[ho.pass.itr.index] == ho.entries[ho.pass.itr.index]))
  {
    CallbackHoldsList(w, ops, h);
    StillCurrent(w, Run(w, ops), h);
  }

  /** An appended list still has the node the iterator denoted, and the running event is still allocated. */
  lemma {:induction false} StillCurrent(w: World, w': World, h: HolderId)
    requires NoDangling(w) && NoDangling(w') && h in w.holders && Running(w.holders[h])
    requires h in w'.holders && Appended(w.holders[h], w'.holders[h])
    ensures var ho, ho' := w.holders[h], w'.holders[h];
      && Running(ho') && Current(ho') == Current(ho) && Current(ho) in w'.heap
      && (ho.pass.itr.At? ==> ho.pass.itr.index < |ho.entries| && ho'.entries[ho.pass.itr.index] == ho.entries[ho.pass.itr.index])
  {
    CurrentAllocated(w', h);
  }

  lemma {:induction false} CurrentAllocated(w: World, h: HolderId)
    requires NoDangling(w) && h in w.holders && Running(w.holders[h])
    ensures Current(w.holders[h]) in w.heap
  {
  }

  /** A callback starts only for an event that is not deleted, is due, and whose object exists and lists it. */
  lemma {:induction false} CallbackOwnerAlive(w: World, h: HolderId, p: Ptr)
    requires NoDangling(w) && Claimed(w.heap, w.objects) && HolderEnabled(w, h, Visit)
    requires p == w.holders[h].entries[w.holders[h].pass.itr.index]
    requires Running(VisitStep(w, h).holders[h])
    ensures Current(VisitStep(w, h).holders[h]) == p && p in w.heap && !w.heap[p].deleted
    ensures w.heap[p].currTime <= w.holders[h].pass.dt && w.heap[p].instanceId == w.holders[h].instance
    ensures w.heap[p].obj in w.objects && p in w.objects[w.heap[p].obj].entries
  {
  }
}
