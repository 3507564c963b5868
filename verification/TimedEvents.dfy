/**
 The timed-event scheduler as a state machine.

 A world holds the allocated events, the objects that own them and the holders
 that run them. Event pointers are keys of `heap`; `delete` removes the key, so
 every read `heap[p]` below carries a proof that the event has not been freed.

 Each function is one step that the program takes under its locks. A pass of a
 holder over its list is split into the steps between which other code runs: a
 callback is whatever steps happen between `Visit` and `Return`, and the steps
 of several holders and objects may interleave in any order.
 */
module TimedEvents {
  import opened Basics
  import opened RefTotals

  type Ptr = nat
  type ObjectId = nat
  type HolderId = nat

  const WORLD_INSTANCE := -1
  const EVENT_REMOVAL_FLAG_ALL := 0xFFFF_FFFF

  datatype TimedEvent = TimedEvent(
    obj: ObjectId,
    eventType: nat,
    eventFlag: nat,
    msTime: int,
    currTime: int,
    repeats: nat,
    deleted: bool,
    instanceId: int,
    ref: nat)
  {
    predicate DeletesObject() { eventFlag / 2 % 2 == 1 }
  }

  /** `entries` lists the multimap in iteration order: by type, then by insertion. */
  datatype EventableObject = EventableObject(
    entries: seq<Ptr>,
    holder: Option<HolderId>,
    currentInstance: int)

  /** A saved list iterator: a node, named by its position, or the end of the list. */
  datatype Iterator = At(index: nat) | End

  /** How far a holder's Update has got. */
  datatype Pass =
    | Idle
    | Looping(dt: int, itr: Iterator)
    | InCallback(dt: int, it2: nat, itr: Iterator)
    | Detached(dt: int, ev: Ptr, itr: Iterator)

  datatype Holder = Holder(instance: int, entries: seq<Ptr>, insertPool: seq<Ptr>, pass: Pass)

  datatype World = World(
    heap: map<Ptr, TimedEvent>,
    objects: map<ObjectId, EventableObject>,
    holders: map<HolderId, Holder>,
    registry: map<int, HolderId>,
    nextPtr: Ptr)

  const EmptyWorld := World(map[], map[], map[], map[], 0)

  /** The time fields that the ModifyEvents* functions assign. */
  datatype TimeEdit = TimeLeft(left: int, unconditioned: bool) | Period(period: int) | PeriodAndTimeLeft(both: int)

  /** The constructor arguments of a new event. */
  datatype NewEvent = NewEvent(eventType: nat, msTime: int, repeats: nat, flags: nat) {
    predicate NotInWorldContext() { flags % 2 == 1 }
  }

  /** The steps of an EventableObject. */
  datatype ObjectOp =
    | NewObject
    | DestroyObject
    | AddEvent(inst: int, e: NewEvent, acquired: bool)
    | RemoveByPointer(p: Ptr)
    | RemoveEvents(eventType: nat)
    | Modify(modType: nat, edit: TimeEdit)
    | Relocate(to: int, locked: bool)

  /** The steps of an EventableObjectHolder. */
  datatype HolderOp =
    | NewHolder(id: int)
    | DestroyHolder
    | BeginUpdate(dt: int)
    | Visit
    | Return
    | EndUpdate

  datatype Op = OfObject(o: ObjectId, oop: ObjectOp) | OfHolder(h: HolderId, hop: HolderOp)

  // ---------- sequences of pointers ----------

  function Without(s: seq<Ptr>, drop: set<Ptr>): seq<Ptr> {
    if s == [] then [] else (if s[0] in drop then [] else [s[0]]) + Without(s[1..], drop)
  }

  function Only(s: seq<Ptr>, keep: set<Ptr>): seq<Ptr> {
    if s == [] then [] else (if s[0] in keep then [s[0]] else []) + Only(s[1..], keep)
  }

  function Erase(s: seq<Ptr>, i: nat): seq<Ptr>
    requires i < |s|
  {
    s[..i] + s[i + 1..]
  }

  /** The position where a multimap inserts a new entry of type `t`. */
  function UpperBound(heap: map<Ptr, TimedEvent>, s: seq<Ptr>, t: nat): (i: nat)
    requires forall p :: p in s ==> p in heap
    ensures i <= |s|
  {
    if s == [] || heap[s[0]].eventType > t then 0 else 1 + UpperBound(heap, s[1..], t)
  }

  function First(s: seq<Ptr>): Iterator {
    if s == [] then End else At(0)
  }

  /** The iterator after the node at `i`, taken before anything is erased. */
  function Next(s: seq<Ptr>, i: nat): Iterator {
    if i + 1 < |s| then At(i + 1) else End
  }

  /** The same node once the node just before it has been erased. */
  function Shifted(itr: Iterator): Iterator {
    if itr.At? && itr.index > 0 then At(itr.index - 1) else itr
  }

  // ---------- the heap ----------

  /**
   DecRef called `dropped[p]` times on each `p`, after `p` in `kill` was marked deleted:
   an event whose count reaches zero is deleted.
   */
  function Released(heap: map<Ptr, TimedEvent>, dropped: multiset<Ptr>, kill: set<Ptr>): map<Ptr, TimedEvent>
  {
    map p | p in heap && heap[p].ref > dropped[p] ::
      heap[p].(ref := heap[p].ref - dropped[p], deleted := heap[p].deleted || p in kill)
  }

  /** IncRef and the new instance id for every event in `taken`. */
  function Retained(heap: map<Ptr, TimedEvent>, taken: multiset<Ptr>, id: int): map<Ptr, TimedEvent> {
    map p | p in heap ::
      if p in taken then heap[p].(ref := heap[p].ref + taken[p], instanceId := id) else heap[p]
  }

  function Edited(e: TimedEvent, edit: TimeEdit): TimedEvent {
    match edit
    case TimeLeft(t, unconditioned) =>
      e.(currTime := if unconditioned then t else if t > e.msTime then e.msTime else t)
    case Period(t) => e.(msTime := t)
    case PeriodAndTimeLeft(t) => e.(msTime := t, currTime := t)
  }

  function Stale(heap: map<Ptr, TimedEvent>, p: Ptr, id: int): bool
    requires p in heap
  {
    heap[p].deleted || heap[p].instanceId != id
  }

  // ---------- the invariant ----------

  ghost function ObjectRefs(o: EventableObject): multiset<Ptr> {
    multiset(o.entries)
  }

  /** A holder refers to what is in its list and pool, and to a self-deleting event it is running. */
  ghost function HolderRefs(h: Holder): multiset<Ptr> {
    multiset(h.entries) + multiset(h.insertPool)
    + if h.pass.Detached? then multiset{h.pass.ev} else multiset{}
  }

  ghost function Refs(w: World): multiset<Ptr> {
    Total(w.objects, ObjectRefs) + Total(w.holders, HolderRefs)
  }

  /** An event is allocated exactly while something refers to it, and `ref` counts the references. */
  ghost predicate Counted(heap: map<Ptr, TimedEvent>, refs: multiset<Ptr>) {
    && (forall p :: p in heap ==> heap[p].ref > 0 && heap[p].ref == refs[p])
    && (forall p :: p in refs ==> p in heap)
  }

  ghost predicate IteratorOk(itr: Iterator, s: seq<Ptr>) {
    itr.At? ==> itr.index < |s|
  }

  ghost predicate PassOk(h: Holder) {
    match h.pass
    case Idle => true
    case Looping(_, itr) => IteratorOk(itr, h.entries)
    case InCallback(_, it2, itr) =>
      it2 < |h.entries| && IteratorOk(itr, h.entries) && (itr.At? ==> itr.index == it2 + 1)
    case Detached(_, _, itr) => IteratorOk(itr, h.entries)
  }

  ghost predicate Sorted(heap: map<Ptr, TimedEvent>, s: seq<Ptr>) {
    forall i, j :: 0 <= i < j < |s| && s[i] in heap && s[j] in heap ==> heap[s[i]].eventType <= heap[s[j]].eventType
  }

  /** An object's map lists only events made for that object. */
  ghost predicate OwnEvents(heap: map<Ptr, TimedEvent>, objects: map<ObjectId, EventableObject>) {
    forall o, p :: o in objects && p in objects[o].entries ==> p in heap && heap[p].obj == o
  }

  ghost predicate NoRepeats(objects: map<ObjectId, EventableObject>) {
    forall o, p :: o in objects ==> multiset(objects[o].entries)[p] <= 1
  }

  /** An event that is not marked deleted belongs to an existing object and is in that object's map. */
  ghost predicate Claimed(heap: map<Ptr, TimedEvent>, objects: map<ObjectId, EventableObject>) {
    forall p :: p in heap && !heap[p].deleted ==> heap[p].obj in objects && p in objects[heap[p].obj].entries
  }

  ghost predicate AllSorted(heap: map<Ptr, TimedEvent>, objects: map<ObjectId, EventableObject>) {
    forall o :: o in objects ==> Sorted(heap, objects[o].entries)
  }

  ghost predicate Owned(heap: map<Ptr, TimedEvent>, objects: map<ObjectId, EventableObject>) {
    OwnEvents(heap, objects) && NoRepeats(objects) && Claimed(heap, objects) && AllSorted(heap, objects)
  }

  /** An object's holder exists, and the object carries that holder's instance id. */
  ghost predicate AttachedTo(obj: EventableObject, holders: map<HolderId, Holder>) {
    obj.holder.Some? ==>
      obj.holder.value in holders && obj.currentInstance == holders[obj.holder.value].instance
  }

  /** Objects are attached to existing holders; a registered holder has the id it is filed under. */
  ghost predicate Attached(w: World) {
    && (forall o :: o in w.objects ==> AttachedTo(w.objects[o], w.holders))
    && (forall id :: id in w.registry ==>
          w.registry[id] in w.holders && w.holders[w.registry[id]].instance == id)
  }

  ghost predicate ObjectsReach(heap: map<Ptr, TimedEvent>, objects: map<ObjectId, EventableObject>) {
    forall o, p :: o in objects && p in objects[o].entries ==> p in heap
  }

  ghost predicate HoldersReach(heap: map<Ptr, TimedEvent>, holders: map<HolderId, Holder>) {
    && (forall h, p :: h in holders && p in holders[h].entries ==> p in heap)
    && (forall h, p :: h in holders && p in holders[h].insertPool ==> p in heap)
    && (forall h :: h in holders && holders[h].pass.Detached? ==> holders[h].pass.ev in heap)
  }

  /** No object, holder or running callback refers to a freed event. */
  ghost predicate Reaches(w: World) {
    ObjectsReach(w.heap, w.objects) && HoldersReach(w.heap, w.holders)
  }

  ghost predicate Passes(w: World) {
    forall h :: h in w.holders ==> PassOk(w.holders[h])
  }

  /** What every step needs in order to read only allocated events, live list nodes and existing holders. */
  ghost predicate NoDangling(w: World) {
    Reaches(w) && Passes(w) && Attached(w)
  }

  ghost predicate Fresh(w: World) {
    forall p :: p in w.heap ==> p < w.nextPtr
  }

  ghost predicate Sound(w: World) {
    && NoDangling(w)
    && Owned(w.heap, w.objects)
    && Fresh(w)
    && Counted(w.heap, Refs(w))
  }

  // ---------- the steps ----------

  /** Removes every event of `o` in `drop`: marked deleted, DecRef, erased from the map. */
  function DropFromObject(w: World, o: ObjectId, drop: set<Ptr>): World
    requires o in w.objects
  {
    var obj := w.objects[o];
    w.(heap := Released(w.heap, multiset(Only(obj.entries, drop)), drop * (set p | p in obj.entries)),
       objects := w.objects[o := obj.(entries := Without(obj.entries, drop))])
  }

  function OfType(w: World, o: ObjectId, t: nat): set<Ptr>
    requires NoDangling(w) && o in w.objects
  {
    set p | p in w.objects[o].entries && (t == EVENT_REMOVAL_FLAG_ALL || w.heap[p].eventType == t)
  }

  /** The instance id and holder that AddEventTo settles on; it aborts when there is none. */
  function HolderFor(w: World, o: ObjectId, inst: int): Option<(int, HolderId)>
    requires o in w.objects
  {
    var obj := w.objects[o];
    if obj.holder.Some? then Some((obj.currentInstance, obj.holder.value))
    else if inst in w.registry then Some((inst, w.registry[inst]))
    else if WORLD_INSTANCE in w.registry then Some((WORLD_INSTANCE, w.registry[WORLD_INSTANCE]))
    else None
  }

  function Pushed(h: Holder, ps: seq<Ptr>, acquired: bool): Holder {
    if acquired then h.(entries := h.entries + ps) else h.(insertPool := h.insertPool + ps)
  }

  function Inserted(w: World, obj: EventableObject, t: nat, p: Ptr): EventableObject
    requires forall q :: q in obj.entries ==> q in w.heap
  {
    var i := UpperBound(w.heap, obj.entries, t);
    obj.(entries := obj.entries[..i] + [p] + obj.entries[i..])
  }

  /** `obj` as given, with the new event in its map and in the holder; allocation took `nextPtr`. */
  function Scheduled(w: World, o: ObjectId, obj: EventableObject, id: int, h: HolderId, e: NewEvent, acquired: bool): World
    requires forall q :: q in obj.entries ==> q in w.heap
    requires h in w.holders
  {
    var p := w.nextPtr;
    var ev := TimedEvent(o, e.eventType, e.flags % 0x1_0000, e.msTime, e.msTime, e.repeats % 0x1_0000, false, id, 2);
    w.(heap := w.heap[p := ev],
       objects := w.objects[o := Inserted(w, obj, e.eventType, p)],
       holders := w.holders[h := Pushed(w.holders[h], [p], acquired)],
       nextPtr := p + 1)
  }

  function AddEventStep(w: World, o: ObjectId, inst: int, e: NewEvent, acquired: bool): World
    requires NoDangling(w) && o in w.objects && HolderFor(w, o, inst).Some?
  {
    var (id, h) := HolderFor(w, o, inst).value;
    var obj := w.objects[o].(currentInstance := id, holder := Some(h));
    if id == WORLD_INSTANCE && e.NotInWorldContext() then
      w.(objects := w.objects[o := obj], nextPtr := w.nextPtr + 1)
    else
      Scheduled(w, o, obj, id, h, e, acquired)
  }

  function LiveSet(heap: map<Ptr, TimedEvent>, s: seq<Ptr>): set<Ptr> {
    set p | p in s && p in heap && !heap[p].deleted
  }

  /** The events that AddObject hands over: those not deleted, in map order. */
  function Movable(w: World, o: ObjectId): seq<Ptr>
    requires NoDangling(w) && o in w.objects
  {
    Only(w.objects[o].entries, LiveSet(w.heap, w.objects[o].entries))
  }

  function RelocateStep(w: World, o: ObjectId, inst: int, acquired: bool): World
    requires NoDangling(w) && o in w.objects
  {
    var obj := w.objects[o];
    var nh := if inst in w.registry then Some(w.registry[inst]) else None;
    if nh == obj.holder then w
    else if nh.None? then
      w.(heap := map p | p in w.heap :: if p in obj.entries then w.heap[p].(instanceId := 0) else w.heap[p],
         objects := w.objects[o := obj.(currentInstance := 0, holder := None)])
    else
      var moved := Movable(w, o);
      w.(heap := Retained(w.heap, multiset(moved), w.holders[nh.value].instance),
         holders := w.holders[nh.value := Pushed(w.holders[nh.value], moved, acquired)],
         objects := w.objects[o := obj.(currentInstance := w.holders[nh.value].instance, holder := nh)])
  }

  function ModifyStep(w: World, o: ObjectId, t: nat, edit: TimeEdit): World
    requires NoDangling(w) && o in w.objects
  {
    var s := w.objects[o].entries;
    w.(heap := map p | p in w.heap ::
         if p in s && w.heap[p].eventType == t then Edited(w.heap[p], edit) else w.heap[p])
  }

  function NewHolderStep(w: World, h: HolderId, id: int): World {
    w.(holders := w.holders[h := Holder(id, [], [], Idle)],
       registry := if id in w.registry then w.registry else w.registry[id := h])
  }

  function DestroyHolderStep(w: World, h: HolderId): World
    requires h in w.holders
  {
    w.(heap := Released(w.heap, multiset(w.holders[h].entries) + multiset(w.holders[h].insertPool), {}),
       holders := w.holders - {h},
       registry := map id | id in w.registry && w.registry[id] != h :: w.registry[id])
  }

  function DestroyObjectStep(w: World, o: ObjectId): World
    requires NoDangling(w) && o in w.objects
  {
    var w' := DropFromObject(w, o, set p | p in w.objects[o].entries);
    w'.(objects := w.objects - {o})
  }

  /** Draining the insert pool at the start of Update. */
  function BeginStep(w: World, h: HolderId, dt: int): World
    requires NoDangling(w) && h in w.holders
  {
    var ho := w.holders[h];
    var dead := set p | p in ho.insertPool && Stale(w.heap, p, ho.instance);
    var s := ho.entries + Without(ho.insertPool, dead);
    w.(heap := Released(w.heap, multiset(Only(ho.insertPool, dead)), {}),
       holders := w.holders[h := ho.(entries := s, insertPool := [], pass := Looping(dt, First(s)))])
  }

  /** The event at `i` leaves the holder's list; `pass` continues at the node after it. */
  function Unlinked(ho: Holder, i: nat, pass: Pass): Holder
    requires i < |ho.entries|
  {
    ho.(entries := Erase(ho.entries, i), pass := pass)
  }

  /** One turn of the loop, up to the callback if the event is due. */
  function VisitStep(w: World, h: HolderId): World
    requires NoDangling(w) && h in w.holders && w.holders[h].pass.Looping? && w.holders[h].pass.itr.At?
  {
    var ho := w.holders[h];
    var Looping(dt, itr) := ho.pass;
    var i := itr.index;
    var next := Next(ho.entries, i);
    var p := ho.entries[i];
    var ev := w.heap[p];
    if Stale(w.heap, p, ho.instance) then
      w.(heap := Released(w.heap, multiset{p}, {}),
         holders := w.holders[h := Unlinked(ho, i, Looping(dt, Shifted(next)))])
    else if ev.currTime <= dt then
      if ev.DeletesObject() then
        w.(heap := w.heap[p := ev.(deleted := true)],
           holders := w.holders[h := Unlinked(ho, i, Detached(dt, p, Shifted(next)))])
      else
        w.(holders := w.holders[h := ho.(pass := InCallback(dt, i, next))])
    else
      w.(heap := w.heap[p := ev.(currTime := ev.currTime - dt)],
         holders := w.holders[h := ho.(pass := Looping(dt, next))])
  }

  /** The rest of the loop body, after the callback has returned. */
  function ReturnStep(w: World, h: HolderId): World
    requires NoDangling(w) && h in w.holders && (w.holders[h].pass.InCallback? || w.holders[h].pass.Detached?)
  {
    var ho := w.holders[h];
    match ho.pass
    case Detached(dt, p, itr) =>
      w.(heap := Released(w.heap, multiset{p}, {}),
         holders := w.holders[h := ho.(pass := Looping(dt, itr))])
    case InCallback(dt, i, itr) =>
      var p := ho.entries[i];
        var ev := w.heap[p];
      var left := if ev.repeats > 0 then ev.repeats - 1 else 0;
      if ev.repeats > 0 && left == 0 then
        w.(heap := Released(w.heap[p := ev.(repeats := left)], multiset{p}, {p}),
           holders := w.holders[h := Unlinked(ho, i, Looping(dt, Shifted(itr)))])
      else if ev.deleted then
        w.(heap := Released(w.heap[p := ev.(repeats := left)], multiset{p}, {}),
           holders := w.holders[h := Unlinked(ho, i, Looping(dt, Shifted(itr)))])
      else
        w.(heap := w.heap[p := ev.(repeats := left, currTime := ev.msTime)],
           holders := w.holders[h := ho.(pass := Looping(dt, itr))])
  }

  /** What the program relies on before it takes a step. */
  predicate ObjectEnabled(w: World, o: ObjectId, op: ObjectOp) {
    if op.NewObject? then o !in w.objects
    else
      && o in w.objects
      && (op.AddEvent? ==> HolderFor(w, o, op.inst).Some?)
      && (op.RemoveByPointer? ==> op.p in w.heap)
  }

  ghost predicate HolderEnabled(w: World, h: HolderId, op: HolderOp) {
    if op.NewHolder? then h !in w.holders
    else h in w.holders && match op
      case NewHolder(_) => false
      case DestroyHolder =>
        w.holders[h].pass.Idle? && (forall o :: o in w.objects ==> w.objects[o].holder != Some(h))
      case BeginUpdate(_) => w.holders[h].pass.Idle?
      case Visit => w.holders[h].pass.Looping? && w.holders[h].pass.itr.At?
      case Return => w.holders[h].pass.InCallback? || w.holders[h].pass.Detached?
      case EndUpdate => w.holders[h].pass.Looping? && w.holders[h].pass.itr.End?
  }

  ghost predicate Enabled(w: World, op: Op) {
    match op
    case OfObject(o, oop) => ObjectEnabled(w, o, oop)
    case OfHolder(h, hop) => HolderEnabled(w, h, hop)
  }

  function ObjectStep(w: World, o: ObjectId, op: ObjectOp): World
    requires NoDangling(w) && ObjectEnabled(w, o, op)
  {
    match op
    case NewObject => w.(objects := w.objects[o := EventableObject([], None, WORLD_INSTANCE)])
    case DestroyObject => DestroyObjectStep(w, o)
    case AddEvent(inst, e, acquired) => AddEventStep(w, o, inst, e, acquired)
    case RemoveByPointer(p) => DropFromObject(w, o, {p})
    case RemoveEvents(t) => DropFromObject(w, o, OfType(w, o, t))
    case Modify(t, edit) => ModifyStep(w, o, t, edit)
    case Relocate(inst, acquired) => RelocateStep(w, o, inst, acquired)
  }

  function HolderStep(w: World, h: HolderId, op: HolderOp): World
    requires NoDangling(w) && HolderEnabled(w, h, op)
  {
    match op
    case NewHolder(id) => NewHolderStep(w, h, id)
    case DestroyHolder => DestroyHolderStep(w, h)
    case BeginUpdate(dt) => BeginStep(w, h, dt)
    case Visit => VisitStep(w, h)
    case Return => ReturnStep(w, h)
    case EndUpdate => w.(holders := w.holders[h := w.holders[h].(pass := Idle)])
  }

  function Step(w: World, op: Op): World
    requires NoDangling(w) && Enabled(w, op)
  {
    match op
    case OfObject(o, oop) => ObjectStep(w, o, oop)
    case OfHolder(h, hop) => HolderStep(w, h, hop)
  }
}
