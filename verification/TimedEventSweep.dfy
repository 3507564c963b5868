/**
 A pass sweeps its holder: an entry that is deleted or stale for the whole of a
 pass is neither in the list nor in the pool when the pass is over, whatever else
 ran in between.
 */
module TimedEventSweep {
  import opened TimedEvents
  import opened TimedEventSafety
  import opened TimedEventRuns
  import opened TimedEventPlacement

  /** `p` is freed, or holder `h` would drop it on sight. */
  ghost predicate Dead(w: World, h: HolderId, p: Ptr) {
    p in w.heap ==> h in w.holders && Stale(w.heap, p, w.holders[h].instance)
  }

  /** The part of the list before the saved iterator. */
  function Front(s: seq<Ptr>, itr: Iterator): seq<Ptr> {
    if itr.At? && itr.index <= |s| then s[..itr.index] else s
  }

  ghost predicate Swept(ho: Holder, p: Ptr) {
    !ho.pass.Idle? && p !in Front(ho.entries, ho.pass.itr) && p !in ho.insertPool
  }

  // ---------- the holder's own steps ----------

  lemma {:induction false} BeginSwept(w: World, h: HolderId, dt: int, p: Ptr)
    requires NoDangling(w) && HolderEnabled(w, h, BeginUpdate(dt)) && Dead(w, h, p)
    ensures Swept(BeginStep(w, h, dt).holders[h], p)
  {
    var ho := w.holders[h];
    var dead := set q | q in ho.insertPool && Stale(w.heap, q, ho.instance);
    WithoutKeeps(ho.insertPool, dead);
  }

  lemma {:induction false} VisitSwept(w: World, h: HolderId, p: Ptr)
    requires NoDangling(w) && HolderEnabled(w, h, Visit) && Dead(w, h, p) && Swept(w.holders[h], p)
    ensures Swept(VisitStep(w, h).holders[h], p)
  {
    var ho := w.holders[h];
    var s, i := ho.entries, ho.pass.itr.index;
    if Stale(w.heap, s[i], ho.instance) || (w.heap[s[i]].currTime <= ho.pass.dt && w.heap[s[i]].DeletesObject()) {
      assert Front(Erase(s, i), Shifted(Next(s, i))) == s[..i];
    } else {
      assert s[i] != p;
      assert Front(s, Next(s, i)) == s[..i] + [s[i]];
    }
  }

  lemma {:induction false} ReturnSwept(w: World, h: HolderId, p: Ptr)
    requires NoDangling(w) && HolderEnabled(w, h, Return) && Swept(w.holders[h], p)
    ensures Swept(ReturnStep(w, h).holders[h], p)
  {
    var ho := w.holders[h];
    if ho.pass.InCallback? {
      UnlinkSwept(ho.entries, ho.pass.it2, ho.pass.itr, p);
    }
  }

  lemma {:induction false} UnlinkSwept(s: seq<Ptr>, i: nat, itr: Iterator, p: Ptr)
    requires i < |s| && IteratorOk(itr, s) && (itr.At? ==> itr.index == i + 1) && p !in Front(s, itr)
    ensures p !in Front(Erase(s, i), Shifted(itr))
  {
    if itr.At? {
      assert Front(Erase(s, i), Shifted(itr)) == s[..i];
      assert Front(s, itr) == s[..i] + [s[i]];
    } else {
      EraseKeeps(s, i);
    }
  }

  lemma {:induction false} OwnStepSwept(w: World, h: HolderId, op: HolderOp, p: Ptr)
    requires NoDangling(w) && HolderEnabled(w, h, op) && Dead(w, h, p) && !op.EndUpdate?
    requires h in w.holders && Swept(w.holders[h], p)
    ensures h in HolderStep(w, h, op).holders && Swept(HolderStep(w, h, op).holders[h], p)
  {
    match op
    case Visit => VisitSwept(w, h, p);
    case Return => ReturnSwept(w, h, p);
  }

  // ---------- everyone else's steps ----------

  /** What a step of an object adds to a holder is live there. */
  ghost predicate NewEntriesLive(w: World, w': World, h: HolderId)
    requires h in w.holders && h in w'.holders
  {
    var ho, ho' := w.holders[h], w'.holders[h];
    && (forall k :: |ho.entries| <= k < |ho'.entries| ==>
          ho'.entries[k] in w'.heap && !Stale(w'.heap, ho'.entries[k], ho.instance))
    && (forall k :: |ho.insertPool| <= k < |ho'.insertPool| ==>
          ho'.insertPool[k] in w'.heap && !Stale(w'.heap, ho'.insertPool[k], ho.instance))
  }

  lemma {:induction false} AddEntryLive(w: World, o: ObjectId, inst: int, e: NewEvent, acquired: bool, h: HolderId)
    requires NoDangling(w) && ObjectEnabled(w, o, AddEvent(inst, e, acquired)) && h in w.holders
    ensures var w' := AddEventStep(w, o, inst, e, acquired); h in w'.holders && NewEntriesLive(w, w', h)
  {
  }

  lemma {:induction false} OnlyElements(s: seq<Ptr>, d: set<Ptr>)
    ensures forall k :: 0 <= k < |Only(s, d)| ==> Only(s, d)[k] in s && Only(s, d)[k] in d
  {
    if s != [] { OnlyElements(s[1..], d); }
  }

  lemma {:induction false} MovableRetained(w: World, o: ObjectId, id: int)
    requires NoDangling(w) && o in w.objects
    ensures var moved := Movable(w, o); var heap' := Retained(w.heap, multiset(moved), id);
      forall k :: 0 <= k < |moved| ==> moved[k] in heap' && !Stale(heap', moved[k], id)
  {
    var s := w.objects[o].entries;
    OnlyElements(s, LiveSet(w.heap, s));
    var moved := Movable(w, o);
    forall k | 0 <= k < |moved| ensures moved[k] in multiset(moved) {
      assert moved[k] in moved;
    }
  }

  lemma {:induction false} MoveEntriesLive(w: World, o: ObjectId, inst: int, acquired: bool, h: HolderId)
    requires NoDangling(w) && o in w.objects && h in w.holders
    ensures var w' := RelocateStep(w, o, inst, acquired); h in w'.holders && NewEntriesLive(w, w', h)
  {
    if inst in w.registry { MovableRetained(w, o, w.holders[w.registry[inst]].instance); }
  }

  lemma {:induction false} ObjectStepEntriesLive(w: World, o: ObjectId, op: ObjectOp, h: HolderId)
    requires NoDangling(w) && ObjectEnabled(w, o, op) && h in w.holders
    ensures h in ObjectStep(w, o, op).holders && NewEntriesLive(w, ObjectStep(w, o, op), h)
  {
    match op
    case NewObject =>
    case DestroyObject =>
    case AddEvent(inst, e, acquired) => AddEntryLive(w, o, inst, e, acquired, h);
    case RemoveByPointer(p) =>
    case RemoveEvents(t) =>
    case Modify(t, edit) =>
    case Relocate(inst, acquired) => MoveEntriesLive(w, o, inst, acquired, h);
  }

  lemma {:induction false} AppendSwept(w: World, w': World, h: HolderId, p: Ptr)
    requires h in w.holders && h in w'.holders && Appended(w.holders[h], w'.holders[h]) && PassOk(w.holders[h])
    requires NewEntriesLive(w, w', h) && Dead(w', h, p) && Swept(w.holders[h], p)
    ensures Swept(w'.holders[h], p)
  {
    var ho, ho' := w.holders[h], w'.holders[h];
    if ho.pass.itr.At? {
      assert Front(ho'.entries, ho'.pass.itr) == Front(ho.entries, ho.pass.itr);
    }
  }

  lemma {:induction false} StepSwept(w: World, op: Op, h: HolderId, p: Ptr)
    requires Sound(w) && Enabled(w, op) && op != OfHolder(h, EndUpdate) && h in w.holders
    requires Swept(w.holders[h], p) && Dead(w, h, p) && Dead(Step(w, op), h, p)
    ensures h in Step(w, op).holders && Swept(Step(w, op).holders[h], p)
  {
    if op.OfHolder? && op.h == h {
      OwnStepSwept(w, h, op.hop, p);
    } else if op.OfHolder? {
      HolderStepElsewhere(w, op.h, op.hop, h);
    } else {
      ObjectStepAppends(w, op.o, op.oop, h);
      ObjectStepEntriesLive(w, op.o, op.oop, h);
      AppendSwept(w, Step(w, op), h, p);
    }
  }

  // ---------- a whole pass ----------

  ghost predicate DeadThroughout(w: World, ops: seq<Op>, h: HolderId, p: Ptr)
    requires Sound(w) && Legal(w, ops)
    decreases |ops|
  {
    Dead(w, h, p) && (ops == [] || (StepSound(w, ops[0]); DeadThroughout(Step(w, ops[0]), ops[1..], h, p)))
  }

  lemma {:induction false} RunSwept(w: World, ops: seq<Op>, h: HolderId, p: Ptr)
    requires Sound(w) && Legal(w, ops) && h in w.holders && Swept(w.holders[h], p)
    requires OfHolder(h, EndUpdate) !in ops && DeadThroughout(w, ops, h, p)
    ensures h in Run(w, ops).holders && Swept(Run(w, ops).holders[h], p)
    decreases |ops|
  {
    if ops != [] {
      var w1 := Step(w, ops[0]);
      StepSound(w, ops[0]);
      assert ops[0] in ops && OfHolder(h, EndUpdate) !in ops[1..];
      assert DeadThroughout(w1, ops[1..], h, p);
      StepSwept(w, ops[0], h, p);
      RunSwept(w1, ops[1..], h, p);
    }
  }

  /**
   Holder `h` starts a pass, `ops` run (its own steps, callbacks, other threads), and the
   pass reaches the end of the list: an entry dead all along is no longer held.
   */
  lemma {:induction false} UpdateSweeps(w: World, dt: int, ops: seq<Op>, h: HolderId, p: Ptr)
    requires Sound(w) && HolderEnabled(w, h, BeginUpdate(dt)) && Dead(w, h, p)
    requires Sound(BeginStep(w, h, dt)) && Legal(BeginStep(w, h, dt), ops)
    requires OfHolder(h, EndUpdate) !in ops && DeadThroughout(BeginStep(w, h, dt), ops, h, p)
    requires var w' := Run(BeginStep(w, h, dt), ops); HolderEnabled(w', h, EndUpdate)
    ensures !Holds(Run(BeginStep(w, h, dt), ops).holders[h], p)
  {
    BeginSwept(w, h, dt, p);
    RunSwept(BeginStep(w, h, dt), ops, h, p);
  }

  lemma {:induction false} DeletedIsDead(w: World, ops: seq<Op>, h: HolderId, p: Ptr)
    requires Sound(w) && Legal(w, ops) && h in w.holders && !w.holders[h].pass.Idle?
    requires OfHolder(h, EndUpdate) !in ops
    requires p < w.nextPtr && (p in w.heap ==> w.heap[p].deleted)
    ensures DeadThroughout(w, ops, h, p)
    decreases |ops|
  {
    if ops != [] {
      var w1 := Step(w, ops[0]);
      StepSound(w, ops[0]);
      StepEvolves(w, ops[0]);
      assert ops[0] in ops && OfHolder(h, EndUpdate) !in ops[1..];
      StaysBusy(w, ops[0], h);
      DeletedIsDead(w1, ops[1..], h, p);
    }
  }

  lemma {:induction false} StaysBusy(w: World, op: Op, h: HolderId)
    requires Sound(w) && Enabled(w, op) && h in w.holders && !w.holders[h].pass.Idle? && op != OfHolder(h, EndUpdate)
    ensures h in Step(w, op).holders && !Step(w, op).holders[h].pass.Idle?
  {
    if op.OfHolder? && op.h == h {
      OwnStepBusy(w, h, op.hop);
    } else {
      OthersAppend(w, op, h);
    }
  }

  lemma {:induction false} OwnStepBusy(w: World, h: HolderId, op: HolderOp)
    requires NoDangling(w) && HolderEnabled(w, h, op) && !op.EndUpdate?
    requires h in w.holders && !w.holders[h].pass.Idle?
    ensures h in HolderStep(w, h, op).holders && !HolderStep(w, h, op).holders[h].pass.Idle?
  {
    match op
    case Visit =>
    case Return =>
  }

  /** Every event already deleted when a holder's pass starts has left that holder when it ends. */
  lemma {:induction false} UpdateSweepsDeleted(w: World, dt: int, ops: seq<Op>, h: HolderId, p: Ptr)
    requires Sound(w) && HolderEnabled(w, h, BeginUpdate(dt)) && p in w.heap && w.heap[p].deleted
    requires Sound(BeginStep(w, h, dt)) && Legal(BeginStep(w, h, dt), ops) && OfHolder(h, EndUpdate) !in ops
    requires var w' := Run(BeginStep(w, h, dt), ops); HolderEnabled(w', h, EndUpdate)
    ensures !Holds(Run(BeginStep(w, h, dt), ops).holders[h], p)
  {
    DeletedIsDead(BeginStep(w, h, dt), ops, h, p);
    UpdateSweeps(w, dt, ops, h, p);
  }
}
