/**
 Where events are: every event that is not deleted sits in its object's current
 holder, under that holder's id, as long as no relocation strands it; and a pass
 leaves no dead entry behind.
 */
module TimedEventPlacement {
  import opened Basics
  import opened RefTotals
  import opened TimedEvents
  import opened TimedEventSafety
  import opened TimedEventRuns

  ghost predicate Holds(ho: Holder, p: Ptr) {
    p in ho.entries || p in ho.insertPool
  }

  /** `e`, stored as `p`, is with its object's current holder. */
  ghost predicate InPlace(objects: map<ObjectId, EventableObject>, holders: map<HolderId, Holder>, p: Ptr, e: TimedEvent) {
    && e.obj in objects && objects[e.obj].holder.Some?
    && (var h := objects[e.obj].holder.value;
        h in holders && Holds(holders[h], p) && e.instanceId == holders[h].instance)
  }

  ghost predicate Placed(w: World) {
    forall p :: p in w.heap && !w.heap[p].deleted ==> InPlace(w.objects, w.holders, p, w.heap[p])
  }

  /** The relocation of an attached object with live events to an instance without a holder. */
  ghost predicate Strands(w: World, op: Op) {
    && op.OfObject? && op.oop.Relocate? && op.o in w.objects
    && w.objects[op.o].holder.Some? && op.oop.to !in w.registry
    && exists p :: p in w.objects[op.o].entries && p in w.heap && !w.heap[p].deleted
  }

  // ---------- steps of a holder ----------

  lemma {:induction false} WithoutKeeps(s: seq<Ptr>, d: set<Ptr>)
    ensures forall p :: p in Without(s, d) <==> p in s && p !in d
  {
    if s != [] { WithoutKeeps(s[1..], d); }
  }

  lemma {:induction false} EraseKeeps(s: seq<Ptr>, i: nat)
    requires i < |s|
    ensures forall p :: p in s && p != s[i] ==> p in Erase(s, i)
    ensures forall p :: p in Erase(s, i) ==> p in s
  {
    forall p | p in s && p != s[i] ensures p in Erase(s, i) {
      var k :| 0 <= k < |s| && s[k] == p;
      assert Erase(s, i)[if k < i then k else k - 1] == p;
    }
  }

  /** A holder's own steps drop an entry only when it is deleted or carries another instance id. */
  ghost predicate DropsOnlyDead(w: World, w': World, h: HolderId)
    requires h in w.holders && h in w'.holders
  {
    && w'.holders[h].instance == w.holders[h].instance
    && forall p :: Holds(w.holders[h], p) && p in w'.heap && !Stale(w'.heap, p, w.holders[h].instance)
         ==> Holds(w'.holders[h], p)
  }

  lemma {:induction false} BeginDrops(w: World, h: HolderId, dt: int)
    requires NoDangling(w) && h in w.holders
    ensures DropsOnlyDead(w, BeginStep(w, h, dt), h)
  {
    var ho := w.holders[h];
    WithoutKeeps(ho.insertPool, set p | p in ho.insertPool && Stale(w.heap, p, ho.instance));
  }

  lemma {:induction false} VisitDrops(w: World, h: HolderId)
    requires NoDangling(w) && HolderEnabled(w, h, Visit)
    ensures DropsOnlyDead(w, VisitStep(w, h), h)
  {
    EraseKeeps(w.holders[h].entries, w.holders[h].pass.itr.index);
  }

  lemma {:induction false} ReturnDrops(w: World, h: HolderId)
    requires NoDangling(w) && HolderEnabled(w, h, Return)
    ensures DropsOnlyDead(w, ReturnStep(w, h), h)
  {
    if w.holders[h].pass.InCallback? {
      EraseKeeps(w.holders[h].entries, w.holders[h].pass.it2);
    }
  }

  lemma {:induction false} OwnStepDrops(w: World, h: HolderId, op: HolderOp)
    requires NoDangling(w) && HolderEnabled(w, h, op) && !op.NewHolder? && !op.DestroyHolder?
    ensures h in HolderStep(w, h, op).holders && DropsOnlyDead(w, HolderStep(w, h, op), h)
  {
    match op
    case BeginUpdate(dt) => BeginDrops(w, h, dt);
    case Visit => VisitDrops(w, h);
    case Return => ReturnDrops(w, h);
    case EndUpdate =>
  }

  lemma {:induction false} AppendDrops(w: World, w': World, h: HolderId)
    requires h in w.holders && h in w'.holders && Appended(w.holders[h], w'.holders[h])
    ensures DropsOnlyDead(w, w', h)
  {
  }

  lemma {:induction false} StepDropsOnlyDead(w: World, op: Op, h: HolderId)
    requires Sound(w) && Enabled(w, op) && h in w.holders && op != OfHolder(h, DestroyHolder)
    ensures h in Step(w, op).holders && DropsOnlyDead(w, Step(w, op), h)
  {
    if op.OfHolder? && op.h == h {
      OwnStepDrops(w, h, op.hop);
    } else {
      OthersAppend(w, op, h);
      AppendDrops(w, Step(w, op), h);
    }
  }

  /** Holder steps touch neither the objects nor an event's owner or instance id. */
  ghost predicate HolderFrame(w: World, w': World) {
    && w'.objects == w.objects
    && forall p :: p in w'.heap && !w'.heap[p].deleted ==>
         p in w.heap && !w.heap[p].deleted && w'.heap[p].obj == w.heap[p].obj && w'.heap[p].instanceId == w.heap[p].instanceId
  }

  lemma {:induction false} VisitFrame(w: World, h: HolderId)
    requires NoDangling(w) && HolderEnabled(w, h, Visit)
    ensures HolderFrame(w, VisitStep(w, h))
  {
  }

  lemma {:induction false} ReturnFrame(w: World, h: HolderId)
    requires NoDangling(w) && HolderEnabled(w, h, Return)
    ensures HolderFrame(w, ReturnStep(w, h))
  {
  }

  lemma {:induction false} HolderStepFrame(w: World, h: HolderId, op: HolderOp)
    requires NoDangling(w) && HolderEnabled(w, h, op)
    ensures HolderFrame(w, HolderStep(w, h, op))
  {
    match op
    case NewHolder(id) =>
    case DestroyHolder =>
    case BeginUpdate(dt) =>
    case Visit => VisitFrame(w, h);
    case Return => ReturnFrame(w, h);
    case EndUpdate =>
  }

  lemma {:induction false} HolderStepPlaced(w: World, g: HolderId, op: HolderOp)
    requires Sound(w) && Placed(w) && HolderEnabled(w, g, op)
    ensures Placed(HolderStep(w, g, op))
  {
    var w' := HolderStep(w, g, op);
    HolderStepFrame(w, g, op);
    forall p | p in w'.heap && !w'.heap[p].deleted ensures InPlace(w'.objects, w'.holders, p, w'.heap[p]) {
      EventStaysPlaced(w, g, op, p);
    }
  }

  lemma {:induction false} EventStaysPlaced(w: World, g: HolderId, op: HolderOp, p: Ptr)
    requires Sound(w) && Placed(w) && HolderEnabled(w, g, op)
    requires var w' := HolderStep(w, g, op); HolderFrame(w, w') && p in w'.heap && !w'.heap[p].deleted
    ensures var w' := HolderStep(w, g, op); InPlace(w'.objects, w'.holders, p, w'.heap[p])
  {
    assert InPlace(w.objects, w.holders, p, w.heap[p]);
    StepDropsOnlyDead(w, OfHolder(g, op), w.objects[w.heap[p].obj].holder.value);
  }

  // ---------- steps of an object ----------

  /** A step of object `o` leaves every other object and its events alone. */
  ghost predicate ObjectFrame(w: World, w': World, o: ObjectId) {
    && (forall x :: x in w.objects && x != o ==> x in w'.objects && w'.objects[x] == w.objects[x])
    && (forall x :: x in w'.objects && x != o ==> x in w.objects)
    && (forall p :: p in w'.heap && w'.heap[p].obj != o ==> p in w.heap && w'.heap[p] == w.heap[p])
  }

  lemma {:induction false} ReleasedFrame(heap: map<Ptr, TimedEvent>, dropped: multiset<Ptr>, kill: set<Ptr>, o: ObjectId)
    requires forall p :: p in dropped || p in kill ==> p in heap && heap[p].obj == o
    ensures var heap' := Released(heap, dropped, kill);
      forall p :: p in heap' && heap'[p].obj != o ==> p in heap && heap'[p] == heap[p]
  {
  }

  lemma {:induction false} OwnDropped(heap: map<Ptr, TimedEvent>, objects: map<ObjectId, EventableObject>, o: ObjectId, d: set<Ptr>)
    requires OwnEvents(heap, objects) && o in objects
    ensures var s := objects[o].entries;
      forall p :: p in multiset(Only(s, d)) || p in d * (set q | q in s) ==> p in heap && heap[p].obj == o
  {
    var s := objects[o].entries;
    OnlyIn(s, d);
    assert forall p :: p in s ==> p in heap && heap[p].obj == o;
  }

  lemma {:induction false} DropFrame(w: World, o: ObjectId, d: set<Ptr>)
    requires OwnEvents(w.heap, w.objects) && o in w.objects
    ensures ObjectFrame(w, DropFromObject(w, o, d), o)
  {
    var s := w.objects[o].entries;
    OwnDropped(w.heap, w.objects, o, d);
    ReleasedFrame(w.heap, multiset(Only(s, d)), d * (set p | p in s), o);
  }

  lemma {:induction false} MoveFrame(w: World, o: ObjectId, inst: int, acquired: bool)
    requires NoDangling(w) && OwnEvents(w.heap, w.objects) && o in w.objects
    ensures ObjectFrame(w, RelocateStep(w, o, inst, acquired), o)
  {
    var s := w.objects[o].entries;
    OnlyIn(s, LiveSet(w.heap, s));
  }

  lemma {:induction false} ObjectStepFrame(w: World, o: ObjectId, op: ObjectOp)
    requires Sound(w) && ObjectEnabled(w, o, op)
    ensures ObjectFrame(w, ObjectStep(w, o, op), o)
  {
    match op
    case NewObject =>
    case DestroyObject => DropFrame(w, o, set p | p in w.objects[o].entries);
    case AddEvent(inst, e, acquired) => AddFrame(w, o, inst, e, acquired);
    case RemoveByPointer(p) => DropFrame(w, o, {p});
    case RemoveEvents(t) => DropFrame(w, o, OfType(w, o, t));
    case Modify(t, edit) => ModifyFrame(w, o, t, edit);
    case Relocate(inst, acquired) => MoveFrame(w, o, inst, acquired);
  }

  lemma {:induction false} AddFrame(w: World, o: ObjectId, inst: int, e: NewEvent, acquired: bool)
    requires NoDangling(w) && ObjectEnabled(w, o, AddEvent(inst, e, acquired))
    ensures ObjectFrame(w, AddEventStep(w, o, inst, e, acquired), o)
  {
  }

  lemma {:induction false} ModifyFrame(w: World, o: ObjectId, t: nat, edit: TimeEdit)
    requires NoDangling(w) && OwnEvents(w.heap, w.objects) && o in w.objects
    ensures ObjectFrame(w, ModifyStep(w, o, t, edit), o)
  {
  }

  ghost predicate OwnInPlace(w: World, o: ObjectId) {
    forall p :: p in w.heap && !w.heap[p].deleted && w.heap[p].obj == o ==> InPlace(w.objects, w.holders, p, w.heap[p])
  }

  lemma {:induction false} DropOwn(w: World, o: ObjectId, d: set<Ptr>)
    requires Placed(w) && o in w.objects
    ensures OwnInPlace(DropFromObject(w, o, d), o)
  {
    var w' := DropFromObject(w, o, d);
    forall p | p in w'.heap && !w'.heap[p].deleted && w'.heap[p].obj == o
      ensures InPlace(w'.objects, w'.holders, p, w'.heap[p])
    {
      assert InPlace(w.objects, w.holders, p, w.heap[p]);
    }
  }

  lemma {:induction false} DestroyOwn(w: World, o: ObjectId)
    requires NoDangling(w) && Claimed(w.heap, w.objects) && o in w.objects
    ensures OwnInPlace(DestroyObjectStep(w, o), o)
  {
  }

  lemma {:induction false} ModifyOwn(w: World, o: ObjectId, t: nat, edit: TimeEdit)
    requires NoDangling(w) && Placed(w) && o in w.objects
    ensures OwnInPlace(ModifyStep(w, o, t, edit), o)
  {
    var w' := ModifyStep(w, o, t, edit);
    forall p | p in w'.heap && !w'.heap[p].deleted && w'.heap[p].obj == o
      ensures InPlace(w'.objects, w'.holders, p, w'.heap[p])
    {
      assert InPlace(w.objects, w.holders, p, w.heap[p]);
    }
  }

  lemma {:induction false} AddOwn(w: World, o: ObjectId, inst: int, e: NewEvent, acquired: bool)
    requires NoDangling(w) && Fresh(w) && Placed(w) && ObjectEnabled(w, o, AddEvent(inst, e, acquired))
    ensures OwnInPlace(AddEventStep(w, o, inst, e, acquired), o)
  {
    var w' := AddEventStep(w, o, inst, e, acquired);
    forall p | p in w'.heap && !w'.heap[p].deleted && w'.heap[p].obj == o
      ensures InPlace(w'.objects, w'.holders, p, w'.heap[p])
    {
      if p != w.nextPtr { assert InPlace(w.objects, w.holders, p, w.heap[p]); }
    }
  }

  lemma {:induction false} MoveOwn(w: World, o: ObjectId, inst: int, acquired: bool)
    requires NoDangling(w) && OwnEvents(w.heap, w.objects) && Claimed(w.heap, w.objects) && Placed(w) && o in w.objects
    requires inst in w.registry && w.objects[o].holder != Some(w.registry[inst])
    ensures OwnInPlace(RelocateStep(w, o, inst, acquired), o)
  {
    var s := w.objects[o].entries;
    OnlyIn(s, LiveSet(w.heap, s));
    assert forall p :: p in Movable(w, o) <==> p in multiset(Movable(w, o));
  }

  // ---------- every run ----------

  ghost predicate AllAppended(w: World, w': World) {
    forall h :: h in w.holders ==> h in w'.holders && Appended(w.holders[h], w'.holders[h])
  }

  lemma {:induction false} ObjectStepAllAppends(w: World, o: ObjectId, op: ObjectOp)
    requires NoDangling(w) && ObjectEnabled(w, o, op)
    ensures AllAppended(w, ObjectStep(w, o, op))
  {
    forall h | h in w.holders
      ensures h in ObjectStep(w, o, op).holders && Appended(w.holders[h], ObjectStep(w, o, op).holders[h])
    {
      ObjectStepAppends(w, o, op, h);
    }
  }

  /** After a step of `o`, everything is in place if the events of `o` are. */
  lemma {:induction false} ObjectPlaced(w: World, w': World, o: ObjectId)
    requires Placed(w) && ObjectFrame(w, w', o) && OwnInPlace(w', o) && AllAppended(w, w')
    ensures Placed(w')
  {
    forall p | p in w'.heap && !w'.heap[p].deleted && w'.heap[p].obj != o
      ensures InPlace(w'.objects, w'.holders, p, w'.heap[p])
    {
      assert InPlace(w.objects, w.holders, p, w.heap[p]);
    }
  }

  lemma {:induction false} ObjectStepOwn(w: World, o: ObjectId, op: ObjectOp)
    requires Sound(w) && Placed(w) && ObjectEnabled(w, o, op) && !Strands(w, OfObject(o, op))
    ensures OwnInPlace(ObjectStep(w, o, op), o)
  {
    match op
    case NewObject =>
    case DestroyObject => DestroyOwn(w, o);
    case AddEvent(inst, e, acquired) => AddOwn(w, o, inst, e, acquired);
    case RemoveByPointer(p) => DropOwn(w, o, {p});
    case RemoveEvents(t) => DropOwn(w, o, OfType(w, o, t));
    case Modify(t, edit) => ModifyOwn(w, o, t, edit);
    case Relocate(inst, acquired) => RelocateOwn(w, o, inst, acquired);
  }

  lemma {:induction false} RelocateOwn(w: World, o: ObjectId, inst: int, acquired: bool)
    requires Sound(w) && Placed(w) && o in w.objects && !Strands(w, OfObject(o, Relocate(inst, acquired)))
    ensures OwnInPlace(RelocateStep(w, o, inst, acquired), o)
  {
    var nh := if inst in w.registry then Some(w.registry[inst]) else None;
    if nh == w.objects[o].holder {
      assert RelocateStep(w, o, inst, acquired) == w;
    } else if nh.Some? {
      MoveOwn(w, o, inst, acquired);
    } else {
      assert forall p :: p in w.heap && w.heap[p].obj == o ==> w.heap[p].deleted;
    }
  }

  lemma {:induction false} ObjectStepPlaced(w: World, o: ObjectId, op: ObjectOp)
    requires Sound(w) && Placed(w) && ObjectEnabled(w, o, op) && !Strands(w, OfObject(o, op))
    ensures Placed(ObjectStep(w, o, op))
  {
    var w' := ObjectStep(w, o, op);
    ObjectStepFrame(w, o, op);
    ObjectStepOwn(w, o, op);
    ObjectStepAllAppends(w, o, op);
    ObjectPlaced(w, w', o);
  }

  lemma {:induction false} StrandedLost(w: World, o: ObjectId, inst: int, acquired: bool, p: Ptr)
    requires NoDangling(w) && o in w.objects && w.objects[o].holder.Some? && inst !in w.registry
    requires p in w.objects[o].entries && !w.heap[p].deleted && w.heap[p].obj == o
    ensures !Placed(RelocateStep(w, o, inst, acquired))
  {
    var w' := RelocateStep(w, o, inst, acquired);
    assert p in w'.heap && !w'.heap[p].deleted && w'.heap[p].obj == o;
  }

  lemma {:induction false} StrandedStep(w: World, op: Op)
    requires NoDangling(w) && OwnEvents(w.heap, w.objects) && Enabled(w, op) && Strands(w, op)
    ensures !Placed(Step(w, op))
  {
    var p :| p in w.objects[op.o].entries && p in w.heap && !w.heap[p].deleted;
    StrandedLost(w, op.o, op.oop.to, op.oop.locked, p);
  }

  /** The one step that takes events out of place is the relocation that strands them. */
  lemma {:induction false} PlacedExactlyUnlessStranded(w: World, op: Op)
    requires Sound(w) && Placed(w) && Enabled(w, op)
    ensures Placed(Step(w, op)) <==> !Strands(w, op)
  {
    if Strands(w, op) {
      StrandedStep(w, op);
    } else {
      match op
      case OfObject(o, oop) => ObjectStepPlaced(w, o, oop);
      case OfHolder(h, hop) => HolderStepPlaced(w, h, hop);
    }
  }

  ghost predicate NeverStrands(w: World, ops: seq<Op>)
    requires Sound(w) && Legal(w, ops)
    decreases |ops|
  {
    ops == [] || (!Strands(w, ops[0]) && (StepSound(w, ops[0]); NeverStrands(Step(w, ops[0]), ops[1..])))
  }

  /**
   On a run whose relocations all find a holder (or move no live event), every live
   event carries its object's instance id and is in its object's current holder.
   */
  lemma {:induction false} RunPlaced(w: World, ops: seq<Op>)
    requires Sound(w) && Legal(w, ops) && Placed(w) && NeverStrands(w, ops)
    ensures Placed(Run(w, ops))
    decreases |ops|
  {
    if ops != [] {
      StepSound(w, ops[0]);
      PlacedExactlyUnlessStranded(w, ops[0]);
      RunPlaced(Step(w, ops[0]), ops[1..]);
    }
  }

  /** Adding an event to a stranded object attaches it again but leaves its old events where they were. */
  lemma {:induction false} OldEventsStayDormant(w: World, o: ObjectId, inst: int, e: NewEvent, acquired: bool, p: Ptr, h: HolderId)
    requires NoDangling(w) && Fresh(w) && ObjectEnabled(w, o, AddEvent(inst, e, acquired))
    requires p in w.objects[o].entries && h in w.holders
    ensures var w' := AddEventStep(w, o, inst, e, acquired);
      && p in w'.heap && w'.heap[p] == w.heap[p] && h in w'.holders
      && (Holds(w'.holders[h], p) <==> Holds(w.holders[h], p))
  {
    var w' := AddEventStep(w, o, inst, e, acquired);
    assert p in w.heap;
  }
}
