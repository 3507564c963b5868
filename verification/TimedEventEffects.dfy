/**
 What the operations of an object do to its events, said outright: where a new event goes, which
 events a removal ends, what the time changes assign, and who no longer runs an event that was
 taken out of its instance.
 */
module TimedEventEffects {
  import opened Basics
  import opened TimedEvents
  import opened TimedEventSafety
  import opened TimedEventRuns
  import opened TimedEventPlacement
  import opened TimedEventTiming
  import opened TimedEventRepeats

  // ---------- adding ----------

  /**
   An attached object keeps its holder. Otherwise the holder registered for the object's instance is
   taken, and only if there is none the world's.
   */
  lemma {:induction false} AddEventFindsHolder(w: World, o: ObjectId, inst: int, e: NewEvent, acquired: bool)
    requires NoDangling(w) && ObjectEnabled(w, o, AddEvent(inst, e, acquired))
    ensures var obj, obj' := w.objects[o], AddEventStep(w, o, inst, e, acquired).objects[o];
      && obj'.holder.Some? && obj'.holder.value in w.holders && obj'.currentInstance == w.holders[obj'.holder.value].instance
      && (obj.holder.Some? ==> obj'.holder == obj.holder)
      && (obj.holder.None? && inst in w.registry ==> obj'.holder == Some(w.registry[inst]) && obj'.currentInstance == inst)
      && (obj.holder.None? && inst !in w.registry ==> obj'.currentInstance == WORLD_INSTANCE)
  {
  }

  /** `s'` is `s` with `p` put in after every entry of its type or a smaller one and before all others. */
  ghost predicate FiledByType(heap: map<Ptr, TimedEvent>, s: seq<Ptr>, s': seq<Ptr>, p: Ptr, t: nat) {
    exists i :: 0 <= i <= |s| && s' == s[..i] + [p] + s[i..] && Parts(heap, s, i, t)
  }

  ghost predicate Parts(heap: map<Ptr, TimedEvent>, s: seq<Ptr>, i: int, t: nat) {
    && (forall k :: 0 <= k < i && k < |s| && s[k] in heap ==> heap[s[k]].eventType <= t)
    && (forall k :: 0 <= k && i <= k < |s| && s[k] in heap ==> heap[s[k]].eventType > t)
  }

  lemma {:induction false} UpperBoundParts(heap: map<Ptr, TimedEvent>, s: seq<Ptr>, t: nat)
    requires (forall p :: p in s ==> p in heap) && Sorted(heap, s)
    ensures Parts(heap, s, UpperBound(heap, s, t), t)
  {
    if s != [] {
      assert Sorted(heap, s[1..]);
      UpperBoundParts(heap, s[1..], t);
      var i := UpperBound(heap, s, t);
      if i > 0 {
        forall k | 0 <= k < |s| && k > 0 ensures s[k] == s[1..][k - 1] {
        }
      }
    }
  }

  /** One more entry at the end of the list, or of the pool if the list is locked. */
  ghost predicate Received(ho: Holder, ho': Holder, p: Ptr, acquired: bool) {
    && ho'.instance == ho.instance && ho'.pass == ho.pass
    && ho'.entries == (if acquired then ho.entries + [p] else ho.entries)
    && ho'.insertPool == (if acquired then ho.insertPool else ho.insertPool + [p])
  }

  /** What scheduling does: a new event with its whole period to go, one entry for it in the object and one in the holder. */
  ghost predicate Schedules(w: World, w': World, o: ObjectId, h: HolderId, e: NewEvent, acquired: bool)
    requires o in w.objects && o in w'.objects && h in w.holders
  {
    var p := w.nextPtr;
    && p !in w.heap
    && w'.heap == w.heap[p := TimedEvent(o, e.eventType, e.flags % 0x1_0000, e.msTime, e.msTime,
                                         e.repeats % 0x1_0000, false, w.holders[h].instance, 2)]
    && FiledByType(w.heap, w.objects[o].entries, w'.objects[o].entries, p, e.eventType)
    && h in w'.holders && Received(w.holders[h], w'.holders[h], p, acquired)
    && w'.holders - {h} == w.holders - {h}
  }

  lemma {:induction false} ScheduledSchedules(w: World, o: ObjectId, obj: EventableObject, h: HolderId, e: NewEvent, acquired: bool)
    requires o in w.objects && h in w.holders && obj.entries == w.objects[o].entries && Fresh(w)
    requires (forall q :: q in obj.entries ==> q in w.heap) && Sorted(w.heap, obj.entries)
    ensures Schedules(w, Scheduled(w, o, obj, w.holders[h].instance, h, e, acquired), o, h, e, acquired)
  {
    UpperBoundParts(w.heap, obj.entries, e.eventType);
  }

  lemma {:induction false} OthersSame<T>(m: map<nat, T>, k: nat, v: T)
    ensures m[k := v] - {k} == m - {k}
  {
  }

  lemma {:induction false} AddEventSplits(w: World, o: ObjectId, inst: int, e: NewEvent, acquired: bool, id: int, h: HolderId)
    requires NoDangling(w) && ObjectEnabled(w, o, AddEvent(inst, e, acquired)) && HolderFor(w, o, inst) == Some((id, h))
    ensures h in w.holders && id == w.holders[h].instance
    ensures var obj := w.objects[o].(currentInstance := id, holder := Some(h));
      AddEventStep(w, o, inst, e, acquired) ==
        if id == -1 && e.flags % 2 == 1 then w.(objects := w.objects[o := obj], nextPtr := w.nextPtr + 1)
        else Scheduled(w, o, obj, id, h, e, acquired)
  {
  }

  /** Nothing is scheduled for an event that may not run in the world's context when its holder would be the world's. */
  ghost predicate Refuses(w: World, h: HolderId, e: NewEvent)
    requires h in w.holders
  {
    w.holders[h].instance == -1 && e.flags % 2 == 1
  }

  /**
   A new event is scheduled with the holder that the object has afterwards, unless that refuses it: then
   events, entries and holders stay as they were. Other objects do so in any case.
   */
  lemma {:induction false} AddEventSchedules(w: World, o: ObjectId, inst: int, e: NewEvent, acquired: bool, h: HolderId)
    requires NoDangling(w) && Fresh(w) && AllSorted(w.heap, w.objects) && ObjectEnabled(w, o, AddEvent(inst, e, acquired))
    requires AddEventStep(w, o, inst, e, acquired).objects[o].holder == Some(h)
    ensures var w' := AddEventStep(w, o, inst, e, acquired);
      && h in w.holders && w'.objects - {o} == w.objects - {o}
      && (if Refuses(w, h, e)
          then w'.heap == w.heap && w'.holders == w.holders && w'.objects[o].entries == w.objects[o].entries
          else Schedules(w, w', o, h, e, acquired))
  {
    var (id, g) := HolderFor(w, o, inst).value;
    var obj := w.objects[o].(currentInstance := id, holder := Some(g));
    AddEventSplits(w, o, inst, e, acquired, id, g);
    ScheduledSchedules(w, o, obj, g, e, acquired);
    OthersSame(w.objects, o, AddEventStep(w, o, inst, e, acquired).objects[o]);
  }

  // ---------- removing ----------

  /** The operation is meant for this event of the object. */
  predicate Meant(w: World, o: ObjectId, op: ObjectOp, p: Ptr) {
    && o in w.objects && p in w.objects[o].entries && p in w.heap
    && match op
       case RemoveByPointer(q) => p == q
       case RemoveEvents(t) => t == 0xFFFF_FFFF || w.heap[p].eventType == t
       case DestroyObject => true
       case _ => false
  }

  /** `a` is what is left of `b`, in the same order. */
  ghost predicate Subsequence(a: seq<Ptr>, b: seq<Ptr>)
    decreases |b|
  {
    a == [] || (b != [] && (if a[0] == b[0] then Subsequence(a[1..], b[1..]) else Subsequence(a, b[1..])))
  }

  lemma {:induction false} WithoutInOrder(s: seq<Ptr>, d: set<Ptr>)
    requires forall i, j :: 0 <= i < j < |s| ==> s[i] != s[j]
    ensures Subsequence(Without(s, d), s)
    ensures forall p :: p in Without(s, d) <==> p in s && p !in d
  {
    WithoutKeeps(s, d);
    if s != [] {
      WithoutInOrder(s[1..], d);
      WithoutKeeps(s[1..], d);
      var rest := Without(s[1..], d);
      if s[0] in d {
        assert Without(s, d) == rest;
        assert rest != [] ==> rest[0] in s[1..];
      } else {
        assert Without(s, d)[1..] == rest;
      }
    }
  }

  lemma {:induction false} EntriesDiffer(w: World, o: ObjectId, i: nat, j: nat)
    requires NoRepeats(w.objects) && o in w.objects && i < j < |w.objects[o].entries|
    ensures w.objects[o].entries[i] != w.objects[o].entries[j]
  {
    var s := w.objects[o].entries;
    var a, b := s[..j], s[j..];
    assert s == a + b;
    assert multiset(s)[s[i]] == multiset(a)[s[i]] + multiset(b)[s[i]];
    assert a[i] == s[i] && s[i] in multiset(a);
    assert b[0] == s[j] && s[j] in multiset(b);
  }

  /** The event was marked deleted and gave up one reference; with its last reference it is freed. */
  ghost predicate Ended(heap: map<Ptr, TimedEvent>, heap': map<Ptr, TimedEvent>, p: Ptr)
    requires p in heap
  {
    && (p in heap' <==> heap[p].ref > 1)
    && (p in heap' ==> heap'[p] == heap[p].(deleted := true, ref := heap'[p].ref) && heap'[p].ref == heap[p].ref - 1)
  }

  lemma {:induction false} DropEnds(w: World, o: ObjectId, d: set<Ptr>, p: Ptr)
    requires Sound(w) && o in w.objects && p in w.heap
    ensures var heap' := DropFromObject(w, o, d).heap;
      if p in w.objects[o].entries && p in d then Ended(w.heap, heap', p) else p in heap' && heap'[p] == w.heap[p]
  {
    SplitCounts(w.objects[o].entries, d);
    assert w.heap[p].ref > 0;
  }

  /** What of the object's multimap is dropped by a removal. */
  function DropSet(w: World, o: ObjectId, op: ObjectOp): set<Ptr>
    requires NoDangling(w) && o in w.objects
  {
    match op
    case RemoveByPointer(q) => {q}
    case RemoveEvents(t) => OfType(w, o, t)
    case _ => set p | p in w.objects[o].entries
  }

  lemma {:induction false} DropSetMeant(w: World, o: ObjectId, op: ObjectOp, p: Ptr)
    requires NoDangling(w) && o in w.objects && (op.RemoveByPointer? || op.RemoveEvents? || op.DestroyObject?)
    ensures Meant(w, o, op, p) <==> p in w.objects[o].entries && p in DropSet(w, o, op)
  {
  }

  /** Removal by pointer, by type or with the whole object ends exactly the events it is meant for. */
  lemma {:induction false} RemovalEnds(w: World, o: ObjectId, op: ObjectOp, p: Ptr)
    requires Sound(w) && ObjectEnabled(w, o, op) && (op.RemoveByPointer? || op.RemoveEvents? || op.DestroyObject?)
    requires p in w.heap
    ensures var heap' := ObjectStep(w, o, op).heap;
      if Meant(w, o, op, p) then Ended(w.heap, heap', p) else p in heap' && heap'[p] == w.heap[p]
  {
    DropSetMeant(w, o, op, p);
    DropEnds(w, o, DropSet(w, o, op), p);
  }

  lemma {:induction false} DistinctEntries(w: World, o: ObjectId)
    requires NoRepeats(w.objects) && o in w.objects
    ensures forall i, j :: 0 <= i < j < |w.objects[o].entries| ==> w.objects[o].entries[i] != w.objects[o].entries[j]
  {
    forall i, j | 0 <= i < j < |w.objects[o].entries| ensures w.objects[o].entries[i] != w.objects[o].entries[j] {
      EntriesDiffer(w, o, i, j);
    }
  }

  lemma {:induction false} RemovalEntries(w: World, o: ObjectId, op: ObjectOp)
    requires NoDangling(w) && NoRepeats(w.objects) && o in w.objects && (op.RemoveByPointer? || op.RemoveEvents?)
    ensures var s, s' := w.objects[o].entries, Without(w.objects[o].entries, DropSet(w, o, op));
      Subsequence(s', s) && forall p :: p in s' <==> p in s && !Meant(w, o, op, p)
  {
    var s, d := w.objects[o].entries, DropSet(w, o, op);
    DistinctEntries(w, o);
    WithoutInOrder(s, d);
    forall p ensures p in Without(s, d) <==> p in s && !Meant(w, o, op, p) {
      DropSetMeant(w, o, op, p);
    }
  }

  lemma {:induction false} RemovalIsDrop(w: World, o: ObjectId, op: ObjectOp)
    requires NoDangling(w) && ObjectEnabled(w, o, op) && (op.RemoveByPointer? || op.RemoveEvents?)
    ensures ObjectStep(w, o, op).holders == w.holders
    ensures ObjectStep(w, o, op).objects == w.objects[o := w.objects[o].(entries := Without(w.objects[o].entries, DropSet(w, o, op)))]
  {
  }

  /** And takes exactly those out of the multimap, in which the others keep their order; holders and other objects stay as they are. */
  lemma {:induction false} RemovalKeepsOthers(w: World, o: ObjectId, op: ObjectOp)
    requires NoDangling(w) && NoRepeats(w.objects) && ObjectEnabled(w, o, op) && (op.RemoveByPointer? || op.RemoveEvents?)
    ensures var w' := ObjectStep(w, o, op);
      && w'.holders == w.holders && w'.objects - {o} == w.objects - {o} && o in w'.objects
      && Subsequence(w'.objects[o].entries, w.objects[o].entries)
      && forall p :: p in w'.objects[o].entries <==> p in w.objects[o].entries && !Meant(w, o, op, p)
  {
    RemovalEntries(w, o, op);
    RemovalIsDrop(w, o, op);
    OthersSame(w.objects, o, ObjectStep(w, o, op).objects[o]);
  }

  /** Destroying an object takes just the object away. */
  lemma {:induction false} DestroyKeepsOthers(w: World, o: ObjectId)
    requires NoDangling(w) && o in w.objects
    ensures var w' := DestroyObjectStep(w, o); w'.holders == w.holders && w'.objects == w.objects - {o}
  {
  }

  // ---------- changing times ----------

  /** What becomes of the period and the time left under each of the three changes. */
  ghost predicate Retimed(e: TimedEvent, e': TimedEvent, edit: TimeEdit) {
    && e' == e.(msTime := e'.msTime, currTime := e'.currTime)
    && match edit
       case TimeLeft(t, true) => e'.msTime == e.msTime && e'.currTime == t
       case TimeLeft(t, false) =>
         e'.msTime == e.msTime && e'.currTime <= e.msTime && e'.currTime <= t && (e'.currTime == t || e'.currTime == e.msTime)
       case Period(t) => e'.msTime == t && e'.currTime == e.currTime
       case PeriodAndTimeLeft(t) => e'.msTime == t && e'.currTime == t
  }

  /** The change reaches exactly the object's events of the type. */
  lemma {:induction false} ModifyRetimes(w: World, o: ObjectId, t: nat, edit: TimeEdit, p: Ptr)
    requires NoDangling(w) && o in w.objects && p in w.heap
    ensures var w' := ModifyStep(w, o, t, edit);
      && p in w'.heap && w'.objects == w.objects && w'.holders == w.holders
      && (if p in w.objects[o].entries && w.heap[p].eventType == t then Retimed(w.heap[p], w'.heap[p], edit)
          else w'.heap[p] == w.heap[p])
  {
  }

  // ---------- moving ----------

  lemma {:induction false} OnlyInOrder(s: seq<Ptr>, d: set<Ptr>)
    requires forall i, j :: 0 <= i < j < |s| ==> s[i] != s[j]
    ensures Subsequence(Only(s, d), s) && forall p :: p in Only(s, d) <==> p in s && p in d
    ensures forall p :: multiset(Only(s, d))[p] <= 1
  {
    if s != [] {
      var rest := Only(s[1..], d);
      OnlyInOrder(s[1..], d);
      if s[0] in d {
        assert Only(s, d)[1..] == rest && Only(s, d) == [s[0]] + rest;
        assert s[0] !in multiset(rest);
      } else {
        assert Only(s, d) == rest;
        assert rest != [] ==> rest[0] in s[1..];
      }
    }
  }

  /** Exactly the object's events that are not deleted, in the order of the multimap. */
  ghost predicate LiveInOrder(w: World, o: ObjectId, moved: seq<Ptr>)
    requires o in w.objects
  {
    && Subsequence(moved, w.objects[o].entries)
    && forall p :: p in moved <==> p in w.objects[o].entries && p in w.heap && !w.heap[p].deleted
  }

  /** Exactly the moved events got one more reference and the new instance id. */
  ghost predicate Rehoused(heap: map<Ptr, TimedEvent>, heap': map<Ptr, TimedEvent>, moved: seq<Ptr>, id: int) {
    && heap'.Keys == heap.Keys
    && forall p :: p in heap ==> heap'[p] == if p in moved then heap[p].(ref := heap[p].ref + 1, instanceId := id) else heap[p]
  }

  lemma {:induction false} RetainedRehouses(heap: map<Ptr, TimedEvent>, moved: seq<Ptr>, id: int)
    requires forall p :: multiset(moved)[p] <= 1
    ensures Rehoused(heap, Retained(heap, multiset(moved), id), moved, id)
  {
    forall p | p in heap ensures p in multiset(moved) <==> p in moved {
    }
  }

  /**
   An object that moves to an instance with another holder hands exactly its live events over, in order,
   at the end of that holder's list, or of its pool if the list is locked; the old holder keeps its entries.
   */
  lemma {:induction false} RelocateHandsOver(w: World, o: ObjectId, inst: int, acquired: bool, h: HolderId) returns (moved: seq<Ptr>)
    requires NoDangling(w) && NoRepeats(w.objects) && o in w.objects && inst in w.registry && w.registry[inst] == h
    requires w.objects[o].holder != Some(h)
    ensures LiveInOrder(w, o, moved)
    ensures var w' := RelocateStep(w, o, inst, acquired);
      && Rehoused(w.heap, w'.heap, moved, inst)
      && w'.objects == w.objects[o := w.objects[o].(currentInstance := inst, holder := Some(h))]
      && h in w.holders && w'.holders - {h} == w.holders - {h} && h in w'.holders
      && w'.holders[h] == w.holders[h].(entries := w.holders[h].entries + if acquired then moved else [],
                                        insertPool := w.holders[h].insertPool + if acquired then [] else moved)
  {
    moved := Movable(w, o);
    DistinctEntries(w, o);
    OnlyInOrder(w.objects[o].entries, LiveSet(w.heap, w.objects[o].entries));
    RetainedRehouses(w.heap, moved, inst);
    OthersSame(w.holders, h, RelocateStep(w, o, inst, acquired).holders[h]);
  }

  /** An object already with the holder of the instance, or with none where there is none, stays as it is. */
  lemma {:induction false} RelocateNowhere(w: World, o: ObjectId, inst: int, acquired: bool)
    requires NoDangling(w) && o in w.objects
    requires w.objects[o].holder == if inst in w.registry then Some(w.registry[inst]) else None
    ensures RelocateStep(w, o, inst, acquired) == w
  {
  }

  // ---------- leaving an instance ----------

  /**
   Events whose object was moved to an instance without a holder start in no holder that has an
   instance id other than 0, whatever lists they are still in.
   */
  lemma {:induction false} StrandedStartsNowhere(w: World, o: ObjectId, inst: int, acquired: bool, p: Ptr, op: Op)
    requires Sound(w) && o in w.objects && w.objects[o].holder.Some? && inst !in w.registry && p in w.objects[o].entries
    ensures var w' := RelocateStep(w, o, inst, acquired);
      && w'.objects[o].holder.None? && w'.objects[o].entries == w.objects[o].entries
      && (Fires(w', op, p) == 1 ==> op.h in w'.holders && w'.holders[op.h].instance == 0)
  {
  }

  // ---------- the registry ----------

  /** A new holder is empty and idle, and is found under its instance id unless another one already is. */
  lemma {:induction false} NewHolderRegisters(w: World, h: HolderId, id: int)
    requires NoDangling(w) && HolderEnabled(w, h, NewHolder(id))
    ensures var w' := NewHolderStep(w, h, id);
      && w'.holders[h] == Holder(id, [], [], Idle) && id in w'.registry && (w'.registry[id] == h <==> id !in w.registry)
      && (forall g :: g in w.holders ==> w'.holders[g] == w.holders[g])
      && (forall i :: i in w.registry ==> w'.registry[i] == w.registry[i])
  {
  }

  // ---------- starting ----------

  /** A visit starts a callback exactly for the event at the iterator, if it is due and neither deleted nor of another instance. */
  lemma {:induction false} VisitStartsIff(w: World, h: HolderId, p: Ptr)
    requires NoDangling(w) && HolderEnabled(w, h, Visit)
    ensures var ho, ho' := w.holders[h], VisitStep(w, h).holders[h];
      PassOk(ho') ==> (Running(ho') && Current(ho') == p <==>
        && p == ho.entries[ho.pass.itr.index] && p in w.heap && !w.heap[p].deleted
        && w.heap[p].instanceId == ho.instance && w.heap[p].currTime <= ho.pass.dt)
  {
  }

  // ---------- events that delete their object ----------

  lemma {:induction false} DeletedNeverFires(w: World, ops: seq<Op>, p: Ptr)
    requires Sound(w) && Legal(w, ops) && p < w.nextPtr && (p in w.heap ==> w.heap[p].deleted)
    ensures Firings(w, ops, p) == 0
    decreases |ops|
  {
    if ops != [] {
      StepSound(w, ops[0]);
      StepEvolves(w, ops[0]);
      DeletedNeverFires(Step(w, ops[0]), ops[1..], p);
    }
  }

  /** An event flagged to delete its object fires at most once, whatever its repeat count and whatever overlaps. */
  lemma {:induction false} SelfDeletingFiresOnce(w: World, ops: seq<Op>, p: Ptr)
    requires Sound(w) && Legal(w, ops) && p < w.nextPtr && (p in w.heap ==> w.heap[p].eventFlag / 2 % 2 == 1)
    ensures Firings(w, ops, p) <= 1
    decreases |ops|
  {
    if ops != [] {
      var w1 := Step(w, ops[0]);
      StepSound(w, ops[0]);
      StepEvolves(w, ops[0]);
      if Fires(w, ops[0], p) == 1 {
        assert p in w1.heap ==> w1.heap[p].deleted;
        DeletedNeverFires(w1, ops[1..], p);
      } else {
        SelfDeletingFiresOnce(w1, ops[1..], p);
      }
    }
  }
}
