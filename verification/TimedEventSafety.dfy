/**
 Reference counting is exact over every interleaving of steps: an event is
 allocated exactly while a container or a running callback refers to it.
 */
module TimedEventSafety {
  import opened Basics
  import opened RefTotals
  import opened TimedEvents

  // ---------- sequences ----------

  lemma {:induction false} SplitCounts(s: seq<Ptr>, d: set<Ptr>)
    ensures multiset(Without(s, d)) + multiset(Only(s, d)) == multiset(s)
    ensures forall p :: multiset(Only(s, d))[p] == if p in d then multiset(s)[p] else 0
  {
    if s != [] {
      SplitCounts(s[1..], d);
      assert s == [s[0]] + s[1..];
      assert multiset(s) == multiset{s[0]} + multiset(s[1..]);
    }
  }

  lemma {:induction false} WithoutCounts(s: seq<Ptr>, d: set<Ptr>)
    ensures forall p :: multiset(Without(s, d))[p] <= multiset(s)[p]
  {
    SplitCounts(s, d);
  }

  lemma {:induction false} EraseCounts(s: seq<Ptr>, i: nat)
    requires i < |s|
    ensures multiset(Erase(s, i)) + multiset{s[i]} == multiset(s)
  {
    assert s == s[..i] + [s[i]] + s[i + 1..];
  }

  lemma {:induction false} InsertCounts(s: seq<Ptr>, i: nat, p: Ptr)
    requires i <= |s|
    ensures multiset(s[..i] + [p] + s[i..]) == multiset(s) + multiset{p}
  {
    assert s == s[..i] + s[i..];
  }

  lemma {:induction false} WithoutSorted(heap: map<Ptr, TimedEvent>, s: seq<Ptr>, d: set<Ptr>)
    requires Sorted(heap, s)
    ensures Sorted(heap, Without(s, d))
    ensures forall p :: p in Without(s, d) <==> p in s && p !in d
  {
    if s != [] {
      var r := Without(s[1..], d);
      assert Sorted(heap, s[1..]);
      WithoutSorted(heap, s[1..], d);
      forall q | q in r && q in heap && s[0] in heap ensures heap[s[0]].eventType <= heap[q].eventType {
        assert q in s[1..];
        var k :| 0 <= k < |s| - 1 && s[1..][k] == q;
        assert s[k + 1] == q;
      }
      if s[0] in d {
        assert Without(s, d) == r;
      } else {
        assert Without(s, d) == [s[0]] + r;
        ConsSorted(heap, s[0], r);
      }
    }
  }

  lemma {:induction false} ConsSorted(heap: map<Ptr, TimedEvent>, x: Ptr, r: seq<Ptr>)
    requires Sorted(heap, r) && forall q :: q in r && q in heap && x in heap ==> heap[x].eventType <= heap[q].eventType
    ensures Sorted(heap, [x] + r)
  {
  }

  lemma {:induction false} UpperBoundSplits(heap: map<Ptr, TimedEvent>, s: seq<Ptr>, t: nat)
    requires forall p :: p in s ==> p in heap
    requires Sorted(heap, s)
    ensures var i := UpperBound(heap, s, t);
      && (forall k :: 0 <= k < i ==> heap[s[k]].eventType <= t)
      && (forall k :: i <= k < |s| ==> heap[s[k]].eventType > t)
  {
    if s != [] && heap[s[0]].eventType <= t {
      UpperBoundSplits(heap, s[1..], t);
      var i := UpperBound(heap, s[1..], t);
      forall k | 0 <= k < i + 1 ensures heap[s[k]].eventType <= t {
        if k > 0 { assert s[k] == s[1..][k - 1]; }
      }
      forall k | i + 1 <= k < |s| ensures heap[s[k]].eventType > t {
        assert s[k] == s[1..][k - 1];
      }
    }
  }

  // ---------- counting ----------

  /** `after` is `before` with the references `dropped` given up. */
  ghost predicate GivesUp(before: multiset<Ptr>, after: multiset<Ptr>, dropped: multiset<Ptr>) {
    forall p :: before[p] == after[p] + dropped[p]
  }

  lemma {:induction false} ReleaseCounted(heap: map<Ptr, TimedEvent>, before: multiset<Ptr>, after: multiset<Ptr>,
                       dropped: multiset<Ptr>, kill: set<Ptr>)
    requires Counted(heap, before)
    requires GivesUp(before, after, dropped)
    ensures Counted(Released(heap, dropped, kill), after)
  {
    forall p | p in after ensures p in Released(heap, dropped, kill) {
      assert p in before;
    }
  }

  lemma {:induction false} RetainCounted(heap: map<Ptr, TimedEvent>, before: multiset<Ptr>, after: multiset<Ptr>, taken: multiset<Ptr>, id: int)
    requires Counted(heap, before)
    requires GivesUp(after, before, taken)
    requires forall p :: p in taken ==> p in heap
    ensures Counted(Retained(heap, taken, id), after)
  {
    forall p | p in after ensures p in heap {
      assert p in before || p in taken;
    }
  }

  lemma {:induction false} CountedObjectsReach(w: World)
    requires Counted(w.heap, Refs(w))
    ensures ObjectsReach(w.heap, w.objects)
  {
    forall o, p | o in w.objects && p in w.objects[o].entries ensures p in w.heap {
      TotalUpdate(w.objects, ObjectRefs, o, w.objects[o]);
      assert p in ObjectRefs(w.objects[o]);
    }
  }

  lemma {:induction false} CountedHolderReach(w: World, h: HolderId, p: Ptr)
    requires Counted(w.heap, Refs(w))
    requires h in w.holders && p in HolderRefs(w.holders[h])
    ensures p in w.heap
  {
    TotalUpdate(w.holders, HolderRefs, h, w.holders[h]);
  }

  /** What is referred to is allocated, container by container. */
  lemma {:induction false} CountedReaches(w: World)
    requires Counted(w.heap, Refs(w))
    ensures Reaches(w)
  {
    CountedObjectsReach(w);
    forall h, p | h in w.holders && p in w.holders[h].entries ensures p in w.heap {
      CountedHolderReach(w, h, p);
    }
    forall h, p | h in w.holders && p in w.holders[h].insertPool ensures p in w.heap {
      CountedHolderReach(w, h, p);
    }
    forall h | h in w.holders && w.holders[h].pass.Detached? ensures w.holders[h].pass.ev in w.heap {
      CountedHolderReach(w, h, w.holders[h].pass.ev);
    }
  }

  /** Refs after one object and one holder have been replaced. */
  lemma {:induction false} RefsUpdate(w: World, w': World, o: ObjectId, h: HolderId)
    requires o in w.objects && o in w'.objects && w'.objects == w.objects[o := w'.objects[o]]
    requires h in w.holders && h in w'.holders && w'.holders == w.holders[h := w'.holders[h]]
    ensures forall p :: Refs(w')[p] + ObjectRefs(w.objects[o])[p] + HolderRefs(w.holders[h])[p]
                     == Refs(w)[p] + ObjectRefs(w'.objects[o])[p] + HolderRefs(w'.holders[h])[p]
  {
    TotalUpdate(w.objects, ObjectRefs, o, w'.objects[o]);
    TotalUpdate(w.holders, HolderRefs, h, w'.holders[h]);
  }

  lemma {:induction false} RefsUpdateObject(w: World, w': World, o: ObjectId)
    requires o in w.objects && o in w'.objects && w'.objects == w.objects[o := w'.objects[o]]
    requires w'.holders == w.holders
    ensures forall p :: Refs(w')[p] + ObjectRefs(w.objects[o])[p] == Refs(w)[p] + ObjectRefs(w'.objects[o])[p]
  {
    TotalUpdate(w.objects, ObjectRefs, o, w'.objects[o]);
  }

  lemma {:induction false} RefsUpdateHolder(w: World, w': World, h: HolderId)
    requires h in w.holders && h in w'.holders && w'.holders == w.holders[h := w'.holders[h]]
    requires w'.objects == w.objects
    ensures forall p :: Refs(w')[p] + HolderRefs(w.holders[h])[p] == Refs(w)[p] + HolderRefs(w'.holders[h])[p]
  {
    TotalUpdate(w.holders, HolderRefs, h, w'.holders[h]);
  }

  // ---------- ownership ----------

  /** Nothing changes who owns an event or its type; only new marks of deletion appear. */
  ghost predicate SameIdentity(heap: map<Ptr, TimedEvent>, heap': map<Ptr, TimedEvent>) {
    forall p :: p in heap' ==>
      && p in heap && heap'[p].obj == heap[p].obj && heap'[p].eventType == heap[p].eventType
      && (heap[p].deleted ==> heap'[p].deleted)
  }

  lemma {:induction false} EditIdentity(heap: map<Ptr, TimedEvent>, p: Ptr, e: TimedEvent)
    requires p in heap && e.obj == heap[p].obj && e.eventType == heap[p].eventType && (heap[p].deleted ==> e.deleted)
    ensures SameIdentity(heap, heap[p := e])
  {
  }

  lemma {:induction false} ReleaseIdentity(heap: map<Ptr, TimedEvent>, dropped: multiset<Ptr>, kill: set<Ptr>)
    ensures SameIdentity(heap, Released(heap, dropped, kill))
  {
  }

  lemma {:induction false} SortedCarries(heap: map<Ptr, TimedEvent>, heap': map<Ptr, TimedEvent>, s: seq<Ptr>)
    requires SameIdentity(heap, heap') && Sorted(heap, s)
    ensures Sorted(heap', s)
  {
  }

  lemma {:induction false} OwnedCarries(heap: map<Ptr, TimedEvent>, heap': map<Ptr, TimedEvent>, objects: map<ObjectId, EventableObject>)
    requires SameIdentity(heap, heap') && Owned(heap, objects)
    requires ObjectsReach(heap', objects)
    ensures Owned(heap', objects)
  {
    forall o | o in objects ensures Sorted(heap', objects[o].entries) {
      SortedCarries(heap, heap', objects[o].entries);
    }
  }

  /** Ownership survives dropping the events `d` of object `o`. */
  lemma {:induction false} OwnedDrop(heap: map<Ptr, TimedEvent>, heap': map<Ptr, TimedEvent>, objects: map<ObjectId, EventableObject>,
                  o: ObjectId, d: set<Ptr>, objects': map<ObjectId, EventableObject>)
    requires SameIdentity(heap, heap') && Owned(heap, objects) && o in objects
    requires objects' == objects[o := objects[o].(entries := Without(objects[o].entries, d))]
    requires forall p :: p in heap' && p in d && p in objects[o].entries ==> heap'[p].deleted
    requires ObjectsReach(heap', objects')
    ensures Owned(heap', objects')
  {
    WithoutSorted(heap, objects[o].entries, d);
    DropNoRepeats(objects, o, d, objects');
    DropSorted(heap, heap', objects, o, d, objects');
    assert OwnEvents(heap', objects') && Claimed(heap', objects');
  }

  lemma {:induction false} DropNoRepeats(objects: map<ObjectId, EventableObject>, o: ObjectId, d: set<Ptr>,
                      objects': map<ObjectId, EventableObject>)
    requires NoRepeats(objects) && o in objects
    requires objects' == objects[o := objects[o].(entries := Without(objects[o].entries, d))]
    ensures NoRepeats(objects')
  {
    WithoutCounts(objects[o].entries, d);
    forall x, p | x in objects' ensures multiset(objects'[x].entries)[p] <= 1 {
      assert multiset(objects[x].entries)[p] <= 1;
    }
  }

  lemma {:induction false} DropSorted(heap: map<Ptr, TimedEvent>, heap': map<Ptr, TimedEvent>, objects: map<ObjectId, EventableObject>,
                   o: ObjectId, d: set<Ptr>, objects': map<ObjectId, EventableObject>)
    requires SameIdentity(heap, heap') && AllSorted(heap, objects) && o in objects
    requires objects' == objects[o := objects[o].(entries := Without(objects[o].entries, d))]
    ensures AllSorted(heap', objects')
  {
    WithoutSorted(heap, objects[o].entries, d);
    forall x | x in objects' ensures Sorted(heap', objects'[x].entries) {
      SortedCarries(heap, heap', objects'[x].entries);
    }
  }

  // ---------- steps of a holder ----------

  lemma {:induction false} HolderWired(w: World, w': World, h: HolderId)
    requires Passes(w) && Attached(w) && h in w.holders && h in w'.holders
    requires w'.holders == w.holders[h := w'.holders[h]] && w'.objects == w.objects && w'.registry == w.registry
    requires PassOk(w'.holders[h]) && w'.holders[h].instance == w.holders[h].instance
    ensures Passes(w') && Attached(w')
  {
  }

  lemma {:induction false} HolderSound(w: World, w': World, h: HolderId)
    requires Sound(w) && h in w.holders && h in w'.holders && w'.nextPtr == w.nextPtr
    requires w'.holders == w.holders[h := w'.holders[h]] && w'.objects == w.objects && w'.registry == w.registry
    requires PassOk(w'.holders[h]) && w'.holders[h].instance == w.holders[h].instance
    requires SameIdentity(w.heap, w'.heap) && Counted(w'.heap, Refs(w'))
    ensures Sound(w')
  {
    CountedReaches(w');
    OwnedCarries(w.heap, w'.heap, w.objects);
    HolderWired(w, w', h);
  }

  lemma {:induction false} HolderGivesUp(w: World, w': World, h: HolderId, dropped: multiset<Ptr>)
    requires h in w.holders && h in w'.holders
    requires w'.holders == w.holders[h := w'.holders[h]] && w'.objects == w.objects
    requires GivesUp(HolderRefs(w.holders[h]), HolderRefs(w'.holders[h]), dropped)
    ensures GivesUp(Refs(w), Refs(w'), dropped)
  {
    RefsUpdateHolder(w, w', h);
  }

  lemma {:induction false} EditCounted(heap: map<Ptr, TimedEvent>, before: multiset<Ptr>, after: multiset<Ptr>, p: Ptr, e: TimedEvent)
    requires Counted(heap, before) && p in heap && e.ref == heap[p].ref
    requires GivesUp(before, after, multiset{})
    ensures Counted(heap[p := e], after)
  {
    assert forall q :: q in after ==> q in before;
  }

  /** A step that edits one event in place and moves one holder on, keeping what the holder refers to. */
  lemma {:induction false} AdvanceSound(w: World, w': World, h: HolderId, p: Ptr, e: TimedEvent)
    requires Sound(w) && h in w.holders && p in w.heap && h in w'.holders
    requires w' == w.(heap := w.heap[p := e], holders := w.holders[h := w'.holders[h]])
    requires e.ref == w.heap[p].ref && e.obj == w.heap[p].obj && e.eventType == w.heap[p].eventType
    requires w.heap[p].deleted ==> e.deleted
    requires GivesUp(HolderRefs(w.holders[h]), HolderRefs(w'.holders[h]), multiset{})
    requires PassOk(w'.holders[h]) && w'.holders[h].instance == w.holders[h].instance
    ensures Sound(w')
  {
    HolderGivesUp(w, w', h, multiset{});
    EditCounted(w.heap, Refs(w), Refs(w'), p, e);
    EditIdentity(w.heap, p, e);
    HolderSound(w, w', h);
  }

  /** A step that takes the references `dropped` out of one holder. */
  lemma {:induction false} ReleaseSound(w: World, w': World, h: HolderId, dropped: multiset<Ptr>, kill: set<Ptr>)
    requires Sound(w) && h in w.holders && h in w'.holders
    requires w' == w.(heap := Released(w.heap, dropped, kill), holders := w.holders[h := w'.holders[h]])
    requires GivesUp(HolderRefs(w.holders[h]), HolderRefs(w'.holders[h]), dropped)
    requires PassOk(w'.holders[h]) && w'.holders[h].instance == w.holders[h].instance
    ensures Sound(w')
  {
    HolderGivesUp(w, w', h, dropped);
    ReleaseCounted(w.heap, Refs(w), Refs(w'), dropped, kill);
    ReleaseIdentity(w.heap, dropped, kill);
    HolderSound(w, w', h);
  }

  lemma {:induction false} SameCounted(heap: map<Ptr, TimedEvent>, before: multiset<Ptr>, after: multiset<Ptr>)
    requires Counted(heap, before)
    requires GivesUp(before, after, multiset{})
    ensures Counted(heap, after)
  {
    assert forall q :: q in after ==> q in before;
  }

  lemma {:induction false} EndSound(w: World, w': World, h: HolderId)
    requires Sound(w) && h in w.holders && w.holders[h].pass.Looping?
    requires w' == w.(holders := w.holders[h := w.holders[h].(pass := Idle)])
    ensures Sound(w')
  {
    PassRefs(w.holders[h], Idle);
    HolderGivesUp(w, w', h, multiset{});
    SameCounted(w.heap, Refs(w), Refs(w'));
    HolderSound(w, w', h);
  }

  /** What leaves the pool and is not appended to the list is given up. */
  lemma {:induction false} DrainRefs(ho: Holder, dead: set<Ptr>, pass: Pass, ho': Holder)
    requires !ho.pass.Detached? && !pass.Detached?
    requires ho' == ho.(entries := ho.entries + Without(ho.insertPool, dead), insertPool := [], pass := pass)
    ensures GivesUp(HolderRefs(ho), HolderRefs(ho'), multiset(Only(ho.insertPool, dead)))
  {
    SplitCounts(ho.insertPool, dead);
  }

  lemma {:induction false} BeginSound(w: World, h: HolderId, dt: int)
    requires Sound(w) && h in w.holders && w.holders[h].pass.Idle?
    ensures Sound(BeginStep(w, h, dt))
  {
    var ho := w.holders[h];
    var dead := set p | p in ho.insertPool && Stale(w.heap, p, ho.instance);
    var w' := BeginStep(w, h, dt);
    assert PassOk(w'.holders[h]);
    DrainRefs(ho, dead, w'.holders[h].pass, w'.holders[h]);
    ReleaseSound(w, w', h, multiset(Only(ho.insertPool, dead)), {});
  }

  /** Unlinking the node at `i` gives up one reference, unless the callback keeps it. */
  lemma {:induction false} UnlinkRefs(ho: Holder, i: nat, pass: Pass)
    requires i < |ho.entries| && !ho.pass.Detached?
    ensures !pass.Detached? ==> GivesUp(HolderRefs(ho), HolderRefs(Unlinked(ho, i, pass)), multiset{ho.entries[i]})
    ensures pass.Detached? && pass.ev == ho.entries[i] ==>
              GivesUp(HolderRefs(ho), HolderRefs(Unlinked(ho, i, pass)), multiset{})
  {
    EraseCounts(ho.entries, i);
  }

  lemma {:induction false} UnlinkPass(ho: Holder, i: nat, pass: Pass, itr: Iterator)
    requires i < |ho.entries| && IteratorOk(itr, ho.entries) && (itr.At? ==> itr.index == i + 1)
    requires (pass.Looping? || pass.Detached?) && pass.itr == Shifted(itr)
    ensures PassOk(Unlinked(ho, i, pass))
  {
  }

  lemma {:induction false} PassRefs(ho: Holder, pass: Pass)
    requires !ho.pass.Detached? && !pass.Detached?
    ensures GivesUp(HolderRefs(ho), HolderRefs(ho.(pass := pass)), multiset{})
  {
  }

  lemma {:induction false} VisitSound(w: World, h: HolderId)
    requires Sound(w) && h in w.holders && w.holders[h].pass.Looping? && w.holders[h].pass.itr.At?
    ensures Sound(VisitStep(w, h))
  {
    var ho := w.holders[h];
    var p := ho.entries[ho.pass.itr.index];
    if Stale(w.heap, p, ho.instance) {
      VisitDropSound(w, h);
    } else if w.heap[p].currTime <= ho.pass.dt && w.heap[p].DeletesObject() {
      VisitDetachSound(w, h);
    } else {
      VisitKeepSound(w, h);
    }
  }

  lemma {:induction false} VisitDropSound(w: World, h: HolderId)
    requires Sound(w) && h in w.holders && w.holders[h].pass.Looping? && w.holders[h].pass.itr.At?
    requires Stale(w.heap, w.holders[h].entries[w.holders[h].pass.itr.index], w.holders[h].instance)
    ensures Sound(VisitStep(w, h))
  {
    var ho, w' := w.holders[h], VisitStep(w, h);
    var i := ho.pass.itr.index;
    UnlinkRefs(ho, i, w'.holders[h].pass);
    UnlinkPass(ho, i, w'.holders[h].pass, Next(ho.entries, i));
    ReleaseSound(w, w', h, multiset{ho.entries[i]}, {});
  }

  lemma {:induction false} VisitDetachSound(w: World, h: HolderId)
    requires Sound(w) && h in w.holders && w.holders[h].pass.Looping? && w.holders[h].pass.itr.At?
    requires
      var ho := w.holders[h];
      var p := ho.entries[ho.pass.itr.index];
      !Stale(w.heap, p, ho.instance) && w.heap[p].currTime <= ho.pass.dt && w.heap[p].DeletesObject()
    ensures Sound(VisitStep(w, h))
  {
    var ho, w' := w.holders[h], VisitStep(w, h);
    var i := ho.pass.itr.index;
    var p := ho.entries[i];
    UnlinkRefs(ho, i, w'.holders[h].pass);
    UnlinkPass(ho, i, w'.holders[h].pass, Next(ho.entries, i));
    AdvanceSound(w, w', h, p, w.heap[p].(deleted := true));
  }

  /** A visit that drops nothing changes at most the visited event's time left and the pass. */
  lemma {:induction false} VisitKeeps(w: World, h: HolderId)
    requires NoDangling(w) && h in w.holders && w.holders[h].pass.Looping? && w.holders[h].pass.itr.At?
    requires
      var ho := w.holders[h];
      var p := ho.entries[ho.pass.itr.index];
      !Stale(w.heap, p, ho.instance) && !(w.heap[p].currTime <= ho.pass.dt && w.heap[p].DeletesObject())
    ensures
      var ho, w' := w.holders[h], VisitStep(w, h);
      var p := ho.entries[ho.pass.itr.index];
      && p in w.heap && p in w'.heap && h in w'.holders
      && w' == w.(heap := w.heap[p := w'.heap[p]], holders := w.holders[h := w'.holders[h]])
      && w'.heap[p] == w.heap[p].(currTime := w'.heap[p].currTime)
      && w'.holders[h] == ho.(pass := w'.holders[h].pass) && !w'.holders[h].pass.Detached? && PassOk(w'.holders[h])
  {
  }

  lemma {:induction false} VisitKeepSound(w: World, h: HolderId)
    requires Sound(w) && h in w.holders && w.holders[h].pass.Looping? && w.holders[h].pass.itr.At?
    requires
      var ho := w.holders[h];
      var p := ho.entries[ho.pass.itr.index];
      !Stale(w.heap, p, ho.instance) && !(w.heap[p].currTime <= ho.pass.dt && w.heap[p].DeletesObject())
    ensures Sound(VisitStep(w, h))
  {
    VisitKeeps(w, h);
    var ho, w' := w.holders[h], VisitStep(w, h);
    PassRefs(ho, w'.holders[h].pass);
    AdvanceSound(w, w', h, ho.entries[ho.pass.itr.index], w'.heap[ho.entries[ho.pass.itr.index]]);
  }

  lemma {:induction false} DetachedRefs(ho: Holder, pass: Pass)
    requires ho.pass.Detached? && !pass.Detached?
    ensures GivesUp(HolderRefs(ho), HolderRefs(ho.(pass := pass)), multiset{ho.pass.ev})
  {
  }

  lemma {:induction false} ReturnSound(w: World, h: HolderId)
    requires Sound(w) && h in w.holders && (w.holders[h].pass.InCallback? || w.holders[h].pass.Detached?)
    ensures Sound(ReturnStep(w, h))
  {
    var ho := w.holders[h];
    var w' := ReturnStep(w, h);
    match ho.pass
    case Detached(dt, p, itr) =>
      DetachedRefs(ho, w'.holders[h].pass);
      ReleaseSound(w, w', h, multiset{p}, {});
    case InCallback(dt, i, itr) =>
      var p := ho.entries[i];
      var ev := w.heap[p];
      var left := if ev.repeats > 0 then ev.repeats - 1 else 0;
      if (ev.repeats > 0 && left == 0) || ev.deleted {
        RetireSound(w, w', h, left, if ev.repeats > 0 && left == 0 then {p} else {});
      } else {
        PassRefs(ho, w'.holders[h].pass);
        AdvanceSound(w, w', h, p, ev.(repeats := left, currTime := ev.msTime));
      }
  }

  /** The event whose callback has just returned leaves the list for good. */
  lemma {:induction false} RetireSound(w: World, w': World, h: HolderId, left: nat, kill: set<Ptr>)
    requires Sound(w) && h in w.holders && w.holders[h].pass.InCallback?
    requires
      var ho := w.holders[h];
      var p := ho.entries[ho.pass.it2];
      w' == w.(heap := Released(w.heap[p := w.heap[p].(repeats := left)], multiset{p}, kill),
               holders := w.holders[h := Unlinked(ho, ho.pass.it2, Looping(ho.pass.dt, Shifted(ho.pass.itr)))])
    ensures Sound(w')
  {
    var ho := w.holders[h];
    var i := ho.pass.it2;
    var p := ho.entries[i];
    var e := w.heap[p].(repeats := left);
    var w1 := w.(heap := w.heap[p := e]);
    assert w1.holders == w.holders[h := ho];
    PassRefs(ho, ho.pass);
    AdvanceSound(w, w1, h, p, e);
    UnlinkRefs(ho, i, w'.holders[h].pass);
    UnlinkPass(ho, i, w'.holders[h].pass, ho.pass.itr);
    ReleaseSound(w1, w', h, multiset{p}, kill);
  }

  // ---------- steps of an object ----------

  /** Replacing one object keeps the world wired when its holder exists. */
  lemma {:induction false} ObjectWired(w: World, w': World, o: ObjectId)
    requires Attached(w) && Passes(w) && o in w.objects && o in w'.objects
    requires w'.objects == w.objects[o := w'.objects[o]] && w'.holders == w.holders && w'.registry == w.registry
    requires AttachedTo(w'.objects[o], w.holders)
    ensures Attached(w') && Passes(w')
  {
  }

  lemma {:induction false} NewObjectRefs(w: World, w': World, o: ObjectId)
    requires o !in w.objects && w'.holders == w.holders
    requires w'.objects == w.objects[o := EventableObject([], None, WORLD_INSTANCE)]
    ensures GivesUp(Refs(w), Refs(w'), multiset{})
  {
    TotalInsert(w.objects, ObjectRefs, o, w'.objects[o]);
  }

  lemma {:induction false} NewObjectOwned(heap: map<Ptr, TimedEvent>, objects: map<ObjectId, EventableObject>, o: ObjectId)
    requires Owned(heap, objects) && o !in objects
    ensures Owned(heap, objects[o := EventableObject([], None, WORLD_INSTANCE)])
  {
    var objects' := objects[o := EventableObject([], None, WORLD_INSTANCE)];
    assert Claimed(heap, objects') && OwnEvents(heap, objects');
  }

  lemma {:induction false} NewObjectAttached(w: World, w': World, o: ObjectId)
    requires Attached(w) && Passes(w) && o !in w.objects
    requires w' == w.(objects := w.objects[o := EventableObject([], None, WORLD_INSTANCE)])
    ensures Attached(w') && Passes(w')
  {
  }

  lemma {:induction false} NewObjectSound(w: World, w': World, o: ObjectId)
    requires Sound(w) && o !in w.objects
    requires w' == w.(objects := w.objects[o := EventableObject([], None, WORLD_INSTANCE)])
    ensures Sound(w')
  {
    NewObjectRefs(w, w', o);
    SameCounted(w.heap, Refs(w), Refs(w'));
    CountedReaches(w');
    NewObjectOwned(w.heap, w.objects, o);
    NewObjectAttached(w, w', o);
  }

  lemma {:induction false} DropRefs(w: World, w': World, o: ObjectId, d: set<Ptr>)
    requires o in w.objects && w'.holders == w.holders
    requires w'.objects == w.objects[o := w.objects[o].(entries := Without(w.objects[o].entries, d))]
    ensures GivesUp(Refs(w), Refs(w'), multiset(Only(w.objects[o].entries, d)))
  {
    SplitCounts(w.objects[o].entries, d);
    RefsUpdateObject(w, w', o);
  }

  lemma {:induction false} ReleaseKills(heap: map<Ptr, TimedEvent>, dropped: multiset<Ptr>, kill: set<Ptr>)
    ensures forall p :: p in Released(heap, dropped, kill) && p in kill ==> Released(heap, dropped, kill)[p].deleted
  {
  }

  lemma {:induction false} DropSound(w: World, o: ObjectId, d: set<Ptr>)
    requires Sound(w) && o in w.objects
    ensures Sound(DropFromObject(w, o, d))
  {
    var w' := DropFromObject(w, o, d);
    var s := w.objects[o].entries;
    var dropped, kill := multiset(Only(s, d)), d * (set p | p in s);
    DropRefs(w, w', o, d);
    ReleaseCounted(w.heap, Refs(w), Refs(w'), dropped, kill);
    ReleaseIdentity(w.heap, dropped, kill);
    CountedReaches(w');
    ReleaseKills(w.heap, dropped, kill);
    OwnedDrop(w.heap, w'.heap, w.objects, o, d, w'.objects);
    ObjectWired(w, w', o);
  }

  lemma {:induction false} DestroyRefs(w: World, w1: World, w': World, o: ObjectId)
    requires o in w1.objects && w1.objects[o].entries == [] && w'.objects == w1.objects - {o}
    requires w'.holders == w1.holders
    ensures GivesUp(Refs(w1), Refs(w'), multiset{})
  {
    TotalSplit(w1.objects, ObjectRefs, o);
  }

  lemma {:induction false} DropAll(s: seq<Ptr>, d: set<Ptr>)
    requires forall p :: p in s ==> p in d
    ensures Without(s, d) == []
  {
    if s != [] { DropAll(s[1..], d); }
  }

  lemma {:induction false} ForgetObjectOwned(heap: map<Ptr, TimedEvent>, objects: map<ObjectId, EventableObject>, o: ObjectId)
    requires Owned(heap, objects) && o in objects && objects[o].entries == []
    ensures Owned(heap, objects - {o})
  {
    var objects' := objects - {o};
    assert OwnEvents(heap, objects') && NoRepeats(objects') && Claimed(heap, objects') && AllSorted(heap, objects');
  }

  lemma {:induction false} DestroyObjectSound(w: World, o: ObjectId)
    requires Sound(w) && o in w.objects
    ensures Sound(DestroyObjectStep(w, o))
  {
    var d := set p | p in w.objects[o].entries;
    var w1 := DropFromObject(w, o, d);
    DropSound(w, o, d);
    DropAll(w.objects[o].entries, d);
    ForgetObjectSound(w, w1, DestroyObjectStep(w, o), o);
  }

  lemma {:induction false} ForgetObjectSound(w: World, w1: World, w': World, o: ObjectId)
    requires Sound(w1) && o in w1.objects && w1.objects[o].entries == []
    requires w1.objects == w.objects[o := w1.objects[o]]
    requires w' == w1.(objects := w.objects - {o})
    ensures Sound(w')
  {
    assert w'.objects == w1.objects - {o};
    DestroyRefs(w, w1, w', o);
    SameCounted(w1.heap, Refs(w1), Refs(w'));
    CountedReaches(w');
    ForgetObjectOwned(w1.heap, w1.objects, o);
    assert Attached(w') && Passes(w');
  }

  lemma {:induction false} HeapOnlySound(w: World, w': World)
    requires Sound(w) && w' == w.(heap := w'.heap)
    requires SameIdentity(w.heap, w'.heap) && Counted(w'.heap, Refs(w))
    ensures Sound(w')
  {
    assert Refs(w') == Refs(w);
    CountedReaches(w');
    OwnedCarries(w.heap, w'.heap, w.objects);
  }

  lemma {:induction false} ModifySound(w: World, o: ObjectId, t: nat, edit: TimeEdit)
    requires Sound(w) && o in w.objects
    ensures Sound(ModifyStep(w, o, t, edit))
  {
    var w' := ModifyStep(w, o, t, edit);
    TimesCounted(w.heap, w'.heap, Refs(w));
    TimesIdentity(w.heap, w'.heap);
    HeapOnlySound(w, w');
  }

  /** Only time fields and instance ids differ. */
  ghost predicate TimesOnly(heap: map<Ptr, TimedEvent>, heap': map<Ptr, TimedEvent>) {
    && heap'.Keys == heap.Keys
    && forall p :: p in heap ==>
         heap'[p] == heap[p].(msTime := heap'[p].msTime, currTime := heap'[p].currTime, instanceId := heap'[p].instanceId)
  }

  lemma {:induction false} TimesCounted(heap: map<Ptr, TimedEvent>, heap': map<Ptr, TimedEvent>, refs: multiset<Ptr>)
    requires TimesOnly(heap, heap') && Counted(heap, refs)
    ensures Counted(heap', refs)
  {
    assert forall p :: p in heap' ==> p in heap;
  }

  lemma {:induction false} TimesIdentity(heap: map<Ptr, TimedEvent>, heap': map<Ptr, TimedEvent>)
    requires TimesOnly(heap, heap')
    ensures SameIdentity(heap, heap')
  {
  }

  lemma {:induction false} NewHolderRefs(w: World, w': World, h: HolderId, id: int)
    requires h !in w.holders && w'.holders == w.holders[h := Holder(id, [], [], Idle)] && w'.objects == w.objects
    ensures GivesUp(Refs(w), Refs(w'), multiset{})
  {
    TotalInsert(w.holders, HolderRefs, h, w'.holders[h]);
  }

  lemma {:induction false} NewHolderSound(w: World, h: HolderId, id: int)
    requires Sound(w) && h !in w.holders
    ensures Sound(NewHolderStep(w, h, id))
  {
    var w' := NewHolderStep(w, h, id);
    NewHolderRefs(w, w', h, id);
    SameCounted(w.heap, Refs(w), Refs(w'));
    CountedReaches(w');
    NewHolderWired(w, w', h, id);
  }

  lemma {:induction false} NewHolderWired(w: World, w': World, h: HolderId, id: int)
    requires Attached(w) && Passes(w) && h !in w.holders && w' == NewHolderStep(w, h, id)
    ensures Attached(w') && Passes(w')
  {
  }

  lemma {:induction false} DestroyHolderRefs(w: World, w': World, h: HolderId)
    requires h in w.holders && w.holders[h].pass.Idle?
    requires w'.holders == w.holders - {h} && w'.objects == w.objects
    ensures GivesUp(Refs(w), Refs(w'), multiset(w.holders[h].entries) + multiset(w.holders[h].insertPool))
  {
    TotalSplit(w.holders, HolderRefs, h);
  }

  lemma {:induction false} DestroyHolderSound(w: World, h: HolderId)
    requires Sound(w) && HolderEnabled(w, h, DestroyHolder)
    ensures Sound(DestroyHolderStep(w, h))
  {
    var w' := DestroyHolderStep(w, h);
    var dropped := multiset(w.holders[h].entries) + multiset(w.holders[h].insertPool);
    DestroyHolderRefs(w, w', h);
    ReleaseCounted(w.heap, Refs(w), Refs(w'), dropped, {});
    ReleaseIdentity(w.heap, dropped, {});
    CountedReaches(w');
    OwnedCarries(w.heap, w'.heap, w.objects);
    DestroyHolderWired(w, w', h);
  }

  lemma {:induction false} DestroyHolderWired(w: World, w': World, h: HolderId)
    requires Attached(w) && Passes(w) && HolderEnabled(w, h, DestroyHolder) && w' == DestroyHolderStep(w, h)
    ensures Attached(w') && Passes(w')
  {
  }

  /** Destroying a holder keeps the world sound exactly when no object is attached to it. */
  lemma {:induction false} DestroyHolderKeepsIff(w: World, h: HolderId)
    requires Sound(w) && h in w.holders && w.holders[h].pass.Idle?
    ensures Sound(DestroyHolderStep(w, h)) <==> forall o :: o in w.objects ==> w.objects[o].holder != Some(h)
  {
    if o :| o in w.objects && w.objects[o].holder == Some(h) {
      assert !AttachedTo(w.objects[o], w.holders - {h});
    } else {
      DestroyHolderSound(w, h);
    }
  }

  /** Attaching an object to an existing holder changes no reference. */
  lemma {:induction false} AttachSound(w: World, w': World, o: ObjectId)
    requires Sound(w) && o in w.objects && o in w'.objects
    requires w' == w.(objects := w.objects[o := w'.objects[o]], nextPtr := w'.nextPtr) && w'.nextPtr >= w.nextPtr
    requires w'.objects[o].entries == w.objects[o].entries
    requires AttachedTo(w'.objects[o], w.holders)
    ensures Sound(w')
  {
    AttachRefs(w, w', o);
    SameCounted(w.heap, Refs(w), Refs(w'));
    CountedReaches(w');
    AttachOwned(w.heap, w.objects, o, w'.objects[o]);
    ObjectWired(w, w', o);
  }

  lemma {:induction false} AttachRefs(w: World, w': World, o: ObjectId)
    requires o in w.objects && o in w'.objects && w'.holders == w.holders
    requires w'.objects == w.objects[o := w'.objects[o]] && w'.objects[o].entries == w.objects[o].entries
    ensures GivesUp(Refs(w), Refs(w'), multiset{})
  {
    RefsUpdateObject(w, w', o);
  }

  lemma {:induction false} AttachOwned(heap: map<Ptr, TimedEvent>, objects: map<ObjectId, EventableObject>, o: ObjectId, obj: EventableObject)
    requires Owned(heap, objects) && o in objects && obj.entries == objects[o].entries
    ensures Owned(heap, objects[o := obj])
  {
    var objects' := objects[o := obj];
    assert OwnEvents(heap, objects') && NoRepeats(objects') && Claimed(heap, objects') && AllSorted(heap, objects');
  }

  // ---------- a new event ----------

  lemma {:induction false} PushRefs(ho: Holder, ps: seq<Ptr>, acquired: bool)
    ensures GivesUp(HolderRefs(Pushed(ho, ps, acquired)), HolderRefs(ho), multiset(ps))
    ensures PassOk(ho) ==> PassOk(Pushed(ho, ps, acquired))
  {
  }

  lemma {:induction false} ScheduledRefs(w: World, w': World, o: ObjectId, h: HolderId, p: Ptr, i: nat)
    requires o in w.objects && h in w.holders && i <= |w.objects[o].entries| && h in w'.holders
    requires w'.objects == w.objects[o := w.objects[o].(entries := w.objects[o].entries[..i] + [p] + w.objects[o].entries[i..])]
    requires w'.holders == w.holders[h := w'.holders[h]]
    requires GivesUp(HolderRefs(w'.holders[h]), HolderRefs(w.holders[h]), multiset([p]))
    ensures GivesUp(Refs(w'), Refs(w), multiset{p, p})
  {
    InsertCounts(w.objects[o].entries, i, p);
    RefsUpdate(w, w', o, h);
  }

  lemma {:induction false} AllocateCounted(heap: map<Ptr, TimedEvent>, before: multiset<Ptr>, after: multiset<Ptr>, p: Ptr, e: TimedEvent)
    requires Counted(heap, before) && p !in heap && e.ref == 2
    requires GivesUp(after, before, multiset{p, p})
    ensures Counted(heap[p := e], after)
  {
    assert p !in before;
    forall q | q in after ensures q in heap[p := e] {
      assert q == p || q in before;
    }
  }

  lemma {:induction false} InsertSorted(heap: map<Ptr, TimedEvent>, s: seq<Ptr>, p: Ptr, e: TimedEvent)
    requires Sorted(heap, s) && p !in heap && forall q :: q in s ==> q in heap
    ensures var i := UpperBound(heap, s, e.eventType); Sorted(heap[p := e], s[..i] + [p] + s[i..])
  {
    UpperBoundSplits(heap, s, e.eventType);
  }

  lemma {:induction false} InsertOwned(heap: map<Ptr, TimedEvent>, objects: map<ObjectId, EventableObject>, o: ObjectId, p: Ptr, e: TimedEvent,
                    objects': map<ObjectId, EventableObject>)
    requires Owned(heap, objects) && o in objects && p !in heap && e.obj == o
    requires
      var s := objects[o].entries;
      var i := UpperBound(heap, s, e.eventType);
      objects' == objects[o := objects[o].(entries := s[..i] + [p] + s[i..])]
    ensures Owned(heap[p := e], objects')
  {
    var s := objects[o].entries;
    var i := UpperBound(heap, s, e.eventType);
    var s' := objects'[o].entries;
    assert forall q :: q in s' <==> q in s || q == p by { assert s == s[..i] + s[i..]; }
    InsertNoRepeats(objects, o, i, p, objects');
    InsertAllSorted(heap, objects, o, p, e, objects');
    InsertClaimed(heap, objects, o, p, e, objects');
  }

  lemma {:induction false} InsertClaimed(heap: map<Ptr, TimedEvent>, objects: map<ObjectId, EventableObject>, o: ObjectId, p: Ptr, e: TimedEvent,
                      objects': map<ObjectId, EventableObject>)
    requires OwnEvents(heap, objects) && Claimed(heap, objects) && o in objects && p !in heap && e.obj == o
    requires o in objects' && objects' == objects[o := objects'[o]]
    requires forall q :: q in objects'[o].entries <==> q in objects[o].entries || q == p
    ensures OwnEvents(heap[p := e], objects') && Claimed(heap[p := e], objects')
  {
    var heap' := heap[p := e];
    forall q | q in heap' && !heap'[q].deleted
      ensures heap'[q].obj in objects' && q in objects'[heap'[q].obj].entries
    {
      if q != p { assert q in objects[heap[q].obj].entries; }
    }
  }

  lemma {:induction false} InsertNoRepeats(objects: map<ObjectId, EventableObject>, o: ObjectId, i: nat, p: Ptr,
                        objects': map<ObjectId, EventableObject>)
    requires NoRepeats(objects) && o in objects && p !in objects[o].entries && i <= |objects[o].entries|
    requires objects' == objects[o := objects[o].(entries := objects[o].entries[..i] + [p] + objects[o].entries[i..])]
    ensures NoRepeats(objects')
  {
    InsertCounts(objects[o].entries, i, p);
    forall x, q | x in objects' ensures multiset(objects'[x].entries)[q] <= 1 {
      assert multiset(objects[x].entries)[q] <= 1;
    }
  }

  lemma {:induction false} InsertAllSorted(heap: map<Ptr, TimedEvent>, objects: map<ObjectId, EventableObject>, o: ObjectId, p: Ptr, e: TimedEvent,
                        objects': map<ObjectId, EventableObject>)
    requires AllSorted(heap, objects) && OwnEvents(heap, objects) && o in objects && p !in heap
    requires
      var s := objects[o].entries;
      var i := UpperBound(heap, s, e.eventType);
      objects' == objects[o := objects[o].(entries := s[..i] + [p] + s[i..])]
    ensures AllSorted(heap[p := e], objects')
  {
    forall x | x in objects' ensures Sorted(heap[p := e], objects'[x].entries) {
      assert Sorted(heap, objects[x].entries);
      if x == o { InsertSorted(heap, objects[o].entries, p, e); }
    }
  }

  /** What `Scheduled` builds: one event, in one more slot of its object's map and of the holder. */
  ghost predicate Allocates(w: World, w': World, o: ObjectId, h: HolderId, p: Ptr, ev: TimedEvent) {
    && o in w.objects && h in w.holders && h in w'.holders && p == w.nextPtr && ev.obj == o && ev.ref == 2
    && ObjectsReach(w.heap, w.objects)
    && w'.heap == w.heap[p := ev] && w'.nextPtr == p + 1 && w'.registry == w.registry
    && (var s := w.objects[o].entries;
        var i := UpperBound(w.heap, s, ev.eventType);
        w'.objects == w.objects[o := w.objects[o].(entries := s[..i] + [p] + s[i..])])
    && w'.holders == w.holders[h := w'.holders[h]]
    && PassOk(w'.holders[h]) && w'.holders[h].instance == w.holders[h].instance
    && GivesUp(HolderRefs(w'.holders[h]), HolderRefs(w.holders[h]), multiset([p]))
  }

  lemma {:induction false} ScheduledAllocates(w: World, o: ObjectId, id: int, h: HolderId, e: NewEvent, acquired: bool)
    requires o in w.objects && h in w.holders && ObjectsReach(w.heap, w.objects) && PassOk(w.holders[h])
    ensures var w' := Scheduled(w, o, w.objects[o], id, h, e, acquired);
      Allocates(w, w', o, h, w.nextPtr, w'.heap[w.nextPtr])
  {
    PushRefs(w.holders[h], [w.nextPtr], acquired);
  }

  lemma {:induction false} ScheduledSound(w: World, o: ObjectId, id: int, h: HolderId, e: NewEvent, acquired: bool)
    requires Sound(w) && o in w.objects && h in w.holders
    ensures Sound(Scheduled(w, o, w.objects[o], id, h, e, acquired))
  {
    var w' := Scheduled(w, o, w.objects[o], id, h, e, acquired);
    ScheduledAllocates(w, o, id, h, e, acquired);
    AllocatedSound(w, w', o, h, w.nextPtr, w'.heap[w.nextPtr]);
  }

  lemma {:induction false} AllocatedCounted(w: World, w': World, o: ObjectId, h: HolderId, p: Ptr, ev: TimedEvent)
    requires Counted(w.heap, Refs(w)) && Fresh(w) && Allocates(w, w', o, h, p, ev)
    ensures Counted(w'.heap, Refs(w'))
  {
    ScheduledRefs(w, w', o, h, p, UpperBound(w.heap, w.objects[o].entries, ev.eventType));
    AllocateCounted(w.heap, Refs(w), Refs(w'), p, ev);
  }

  lemma {:induction false} AllocatedWired(w: World, w': World, o: ObjectId, h: HolderId, p: Ptr, ev: TimedEvent)
    requires Owned(w.heap, w.objects) && Attached(w) && Passes(w) && Fresh(w) && Allocates(w, w', o, h, p, ev)
    ensures Owned(w'.heap, w'.objects) && Attached(w') && Passes(w') && Fresh(w')
  {
    InsertOwned(w.heap, w.objects, o, p, ev, w'.objects);
    BothWired(w, w', o, h);
  }

  lemma {:induction false} AllocatedSound(w: World, w': World, o: ObjectId, h: HolderId, p: Ptr, ev: TimedEvent)
    requires Sound(w) && Allocates(w, w', o, h, p, ev)
    ensures Sound(w')
  {
    AllocatedCounted(w, w', o, h, p, ev);
    CountedReaches(w');
    AllocatedWired(w, w', o, h, p, ev);
  }

  lemma {:induction false} BothWired(w: World, w': World, o: ObjectId, h: HolderId)
    requires Attached(w) && Passes(w) && o in w.objects && o in w'.objects && h in w.holders && h in w'.holders
    requires w'.objects == w.objects[o := w'.objects[o]] && w'.registry == w.registry
    requires AttachedTo(w'.objects[o], w.holders)
    requires w'.holders == w.holders[h := w'.holders[h]]
    requires PassOk(w'.holders[h]) && w'.holders[h].instance == w.holders[h].instance
    ensures Attached(w') && Passes(w')
  {
  }

  lemma {:induction false} ScheduledFrom(w: World, w1: World, o: ObjectId, obj: EventableObject, id: int, h: HolderId, e: NewEvent, acquired: bool)
    requires forall q :: q in obj.entries ==> q in w.heap
    requires h in w.holders && o in w.objects && w1 == w.(objects := w.objects[o := obj])
    ensures Scheduled(w, o, obj, id, h, e, acquired) == Scheduled(w1, o, obj, id, h, e, acquired)
  {
  }

  lemma {:induction false} AddEventSound(w: World, o: ObjectId, inst: int, e: NewEvent, acquired: bool)
    requires Sound(w) && o in w.objects && HolderFor(w, o, inst).Some?
    ensures Sound(AddEventStep(w, o, inst, e, acquired))
  {
    var (id, h) := HolderFor(w, o, inst).value;
    var obj := w.objects[o].(currentInstance := id, holder := Some(h));
    if id == WORLD_INSTANCE && e.NotInWorldContext() {
      AttachSound(w, AddEventStep(w, o, inst, e, acquired), o);
    } else {
      AddScheduledSound(w, o, obj, id, h, e, acquired);
    }
  }

  lemma {:induction false} AddScheduledSound(w: World, o: ObjectId, obj: EventableObject, id: int, h: HolderId, e: NewEvent, acquired: bool)
    requires Sound(w) && o in w.objects && h in w.holders
    requires obj == w.objects[o].(currentInstance := id, holder := Some(h)) && AttachedTo(obj, w.holders)
    ensures Sound(Scheduled(w, o, obj, id, h, e, acquired))
  {
    var w1 := w.(objects := w.objects[o := obj]);
    AttachSound(w, w1, o);
    ScheduledSound(w1, o, id, h, e, acquired);
    ScheduledFrom(w, w1, o, obj, id, h, e, acquired);
  }

  // ---------- moving between holders ----------

  lemma {:induction false} RelocateSound(w: World, o: ObjectId, inst: int, acquired: bool)
    requires Sound(w) && o in w.objects
    ensures Sound(RelocateStep(w, o, inst, acquired))
  {
    var nh := if inst in w.registry then Some(w.registry[inst]) else None;
    if nh != w.objects[o].holder {
      if nh.None? {
        DetachSound(w, RelocateStep(w, o, inst, acquired), o);
      } else {
        MoveSound(w, RelocateStep(w, o, inst, acquired), o, nh.value, acquired);
      }
    }
  }

  lemma {:induction false} DetachSound(w: World, w': World, o: ObjectId)
    requires Sound(w) && o in w.objects
    requires w' == w.(heap := map p | p in w.heap ::
                        if p in w.objects[o].entries then w.heap[p].(instanceId := 0) else w.heap[p],
                      objects := w.objects[o := w.objects[o].(currentInstance := 0, holder := None)])
    ensures Sound(w')
  {
    var w1 := w.(heap := w'.heap);
    assert TimesOnly(w.heap, w1.heap);
    TimesCounted(w.heap, w1.heap, Refs(w));
    TimesIdentity(w.heap, w1.heap);
    HeapOnlySound(w, w1);
    AttachSound(w1, w', o);
  }

  lemma {:induction false} MoveRefs(w: World, w': World, o: ObjectId, h: HolderId, taken: multiset<Ptr>)
    requires o in w.objects && h in w.holders && o in w'.objects && h in w'.holders
    requires w'.objects == w.objects[o := w'.objects[o]] && w'.objects[o].entries == w.objects[o].entries
    requires w'.holders == w.holders[h := w'.holders[h]]
    requires GivesUp(HolderRefs(w'.holders[h]), HolderRefs(w.holders[h]), taken)
    ensures GivesUp(Refs(w'), Refs(w), taken)
  {
    RefsUpdate(w, w', o, h);
  }

  lemma {:induction false} RetainIdentity(heap: map<Ptr, TimedEvent>, taken: multiset<Ptr>, id: int)
    ensures SameIdentity(heap, Retained(heap, taken, id))
  {
  }

  lemma {:induction false} OnlyIn(s: seq<Ptr>, d: set<Ptr>)
    ensures forall p :: p in multiset(Only(s, d)) <==> p in s && p in d
  {
    SplitCounts(s, d);
  }

  lemma {:induction false} MoveSound(w: World, w': World, o: ObjectId, h: HolderId, acquired: bool)
    requires Sound(w) && o in w.objects && h in w.holders
    requires
      var moved := Movable(w, o);
      w' == w.(heap := Retained(w.heap, multiset(moved), w.holders[h].instance),
               holders := w.holders[h := Pushed(w.holders[h], moved, acquired)],
               objects := w.objects[o := w.objects[o].(currentInstance := w.holders[h].instance, holder := Some(h))])
    ensures Sound(w')
  {
    var moved := Movable(w, o);
    OnlyIn(w.objects[o].entries, LiveSet(w.heap, w.objects[o].entries));
    PushRefs(w.holders[h], moved, acquired);
    MoveRefs(w, w', o, h, multiset(moved));
    RetainCounted(w.heap, Refs(w), Refs(w'), multiset(moved), w.holders[h].instance);
    RetainIdentity(w.heap, multiset(moved), w.holders[h].instance);
    CountedReaches(w');
    MoveOwned(w.heap, w'.heap, w.objects, o, w'.objects[o]);
    BothWired(w, w', o, h);
  }

  lemma {:induction false} MoveOwned(heap: map<Ptr, TimedEvent>, heap': map<Ptr, TimedEvent>, objects: map<ObjectId, EventableObject>,
                  o: ObjectId, obj: EventableObject)
    requires SameIdentity(heap, heap') && Owned(heap, objects) && o in objects
    requires obj.entries == objects[o].entries
    requires ObjectsReach(heap', objects[o := obj])
    ensures Owned(heap', objects[o := obj])
  {
    AttachOwned(heap, objects, o, obj);
    OwnedCarries(heap, heap', objects[o := obj]);
  }

  // ---------- every run ----------

  lemma {:induction false} ObjectStepSound(w: World, o: ObjectId, op: ObjectOp)
    requires Sound(w) && ObjectEnabled(w, o, op)
    ensures Sound(ObjectStep(w, o, op))
  {
    match op
    case NewObject => NewObjectSound(w, ObjectStep(w, o, op), o);
    case DestroyObject => DestroyObjectSound(w, o);
    case AddEvent(inst, e, acquired) => AddEventSound(w, o, inst, e, acquired);
    case RemoveByPointer(p) => DropSound(w, o, {p});
    case RemoveEvents(t) => DropSound(w, o, OfType(w, o, t));
    case Modify(t, edit) => ModifySound(w, o, t, edit);
    case Relocate(inst, acquired) => RelocateSound(w, o, inst, acquired);
  }

  lemma {:induction false} HolderStepSound(w: World, h: HolderId, op: HolderOp)
    requires Sound(w) && HolderEnabled(w, h, op)
    ensures Sound(HolderStep(w, h, op))
  {
    match op
    case NewHolder(id) => NewHolderSound(w, h, id);
    case DestroyHolder => DestroyHolderSound(w, h);
    case BeginUpdate(dt) => BeginSound(w, h, dt);
    case Visit => VisitSound(w, h);
    case Return => ReturnSound(w, h);
    case EndUpdate => EndSound(w, HolderStep(w, h, op), h);
  }

  /** Every enabled step leads from a sound world to a sound world. */
  lemma {:induction false} StepSound(w: World, op: Op)
    requires Sound(w) && Enabled(w, op)
    ensures Sound(Step(w, op))
  {
    match op
    case OfObject(o, oop) => ObjectStepSound(w, o, oop);
    case OfHolder(h, hop) => HolderStepSound(w, h, hop);
  }

  lemma {:induction false} EmptyWorldSound()
    ensures Sound(EmptyWorld)
  {
  }

  /** Each step of `ops` is enabled when its turn comes. */
  ghost predicate Legal(w: World, ops: seq<Op>)
    requires Sound(w)
    decreases |ops|
  {
    ops == [] || (Enabled(w, ops[0]) && (StepSound(w, ops[0]); Legal(Step(w, ops[0]), ops[1..])))
  }

  ghost function Run(w: World, ops: seq<Op>): (w': World)
    requires Sound(w) && Legal(w, ops)
    ensures Sound(w')
    decreases |ops|
  {
    if ops == [] then w else StepSound(w, ops[0]); Run(Step(w, ops[0]), ops[1..])
  }
}
