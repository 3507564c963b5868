/**
 The scheduler's methods as they run: loops over the multimap, the list and the
 pool, editing the world in place. Each method is proved equal to the step it
 takes, and a holder's Update to a run of such steps.
 */
module EventSystem {
  import opened Basics
  import opened RefTotals
  import opened TimedEvents
  import opened TimedEventSafety
  import opened TimedEventRuns
  import opened TimedEventPlacement
  import opened TimedEventSweep
  import opened TimedEventTiming

  // ---------- what the loops compute ----------

  /** The pointers of a stretch of a list, as the set that gets marked and the counts that get dropped. */
  ghost function Marked(s: seq<Ptr>): set<Ptr> {
    set p | p in s
  }

  lemma {:induction false} ReleaseNothing(heap: map<Ptr, TimedEvent>)
    requires forall p :: p in heap ==> heap[p].ref > 0
    ensures Released(heap, multiset{}, {}) == heap
  {
  }

  /** One more DecRef, after the event was marked deleted or not. */
  lemma {:induction false} ReleaseOneMore(heap: map<Ptr, TimedEvent>, dropped: multiset<Ptr>, kill: set<Ptr>, p: Ptr, mark: bool)
    requires p in heap && heap[p].ref > dropped[p]
    ensures
      var heap' := Released(heap, dropped, kill);
      var e := heap'[p].(deleted := heap'[p].deleted || mark, ref := heap'[p].ref - 1);
      Released(heap, dropped + multiset{p}, if mark then kill + {p} else kill)
        == if e.ref == 0 then heap' - {p} else heap'[p := e]
  {
  }

  lemma {:induction false} SliceMore(s: seq<Ptr>, i: nat, k: nat)
    requires i <= k < |s|
    ensures multiset(s[i..k + 1]) == multiset(s[i..k]) + multiset{s[k]}
    ensures Marked(s[i..k + 1]) == Marked(s[i..k]) + {s[k]}
  {
    assert s[i..k + 1] == s[i..k] + [s[k]];
  }

  lemma {:induction false} HeadTail(a: seq<Ptr>, b: seq<Ptr>)
    requires a != []
    ensures a + b != [] && (a + b)[0] == a[0] && (a + b)[1..] == a[1..] + b
  {
  }

  lemma {:induction false} Regroup(a: seq<Ptr>, b: seq<Ptr>, c: seq<Ptr>)
    ensures a + (b + c) == (a + b) + c
  {
  }

  lemma {:induction false} OnlyConcat(a: seq<Ptr>, b: seq<Ptr>, d: set<Ptr>)
    ensures Only(a + b, d) == Only(a, d) + Only(b, d)
  {
    if a == [] {
      assert a + b == b;
    } else {
      HeadTail(a, b);
      OnlyConcat(a[1..], b, d);
      Regroup(if a[0] in d then [a[0]] else [], Only(a[1..], d), Only(b, d));
    }
  }

  lemma {:induction false} DropConcat(a: seq<Ptr>, b: seq<Ptr>, d: set<Ptr>)
    ensures Without(a + b, d) == Without(a, d) + Without(b, d)
  {
    if a == [] {
      assert a + b == b;
    } else {
      HeadTail(a, b);
      DropConcat(a[1..], b, d);
      Regroup(if a[0] in d then [] else [a[0]], Without(a[1..], d), Without(b, d));
    }
  }

  lemma {:induction false} WithoutConcat(a: seq<Ptr>, b: seq<Ptr>, d: set<Ptr>)
    ensures Without(a + b, d) == Without(a, d) + Without(b, d)
    ensures Only(a + b, d) == Only(a, d) + Only(b, d)
  {
    OnlyConcat(a, b, d);
    DropConcat(a, b, d);
  }

  lemma {:induction false} WithoutAll(s: seq<Ptr>, d: set<Ptr>)
    ensures (forall p :: p in s ==> p in d) ==> Without(s, d) == [] && Only(s, d) == s
    ensures (forall p :: p in s ==> p !in d) ==> Without(s, d) == s && Only(s, d) == []
  {
    if s != [] { WithoutAll(s[1..], d); }
  }

  lemma {:induction false} NoneDropped(s: seq<Ptr>, d: set<Ptr>)
    requires forall p :: p in s ==> p !in d
    ensures Without(s, d) == s && Only(s, d) == []
  {
    WithoutAll(s, d);
  }

  lemma {:induction false} AllDropped(s: seq<Ptr>, d: set<Ptr>)
    requires forall p :: p in s ==> p in d
    ensures Without(s, d) == [] && Only(s, d) == s
  {
    WithoutAll(s, d);
  }

  /** Dropping exactly the stretch from `lo` to `hi`. */
  lemma {:induction false} WithoutStretch(s: seq<Ptr>, lo: nat, hi: nat, d: set<Ptr>)
    requires lo <= hi <= |s|
    requires forall k :: 0 <= k < |s| ==> (s[k] in d <==> lo <= k < hi)
    ensures Without(s, d) == s[..lo] + s[hi..] && Only(s, d) == s[lo..hi]
  {
    WithoutThree(s[..lo], s[lo..hi], s[hi..], d);
    assert s == s[..lo] + (s[lo..hi] + s[hi..]);
  }

  lemma {:induction false} WithoutThree(a: seq<Ptr>, b: seq<Ptr>, c: seq<Ptr>, d: set<Ptr>)
    requires (forall p :: p in a ==> p !in d) && (forall p :: p in b ==> p in d) && (forall p :: p in c ==> p !in d)
    ensures Without(a + (b + c), d) == a + c && Only(a + (b + c), d) == b
  {
    NoneDropped(a, d);
    AllDropped(b, d);
    NoneDropped(c, d);
    WithoutConcat(b, c, d);
    WithoutConcat(a, b + c, d);
    assert Without(b, d) + Without(c, d) == c;
    assert Only(b, d) + Only(c, d) == b;
    assert Only(a, d) + b == b;
  }

  lemma {:induction false} CountAt(s: seq<Ptr>, i: nat, k: nat)
    requires i <= k < |s| && multiset(s)[s[k]] <= 1
    ensures multiset(s[i..k])[s[k]] == 0
  {
    assert s == s[..i] + s[i..k] + [s[k]] + s[k + 1..];
  }

  lemma {:induction false} EraseNext(s: seq<Ptr>, lo: nat, i: nat)
    requires lo <= i < |s|
    ensures Erase(s[..lo] + s[i..], lo) == s[..lo] + s[i + 1..]
  {
  }

  /** The heap after the entries of `s` from `lo` to `k` have been retired. */
  ghost function Gone(h0: map<Ptr, TimedEvent>, s: seq<Ptr>, lo: nat, k: nat): map<Ptr, TimedEvent>
    requires lo <= k <= |s|
  {
    Released(h0, multiset(s[lo..k]), Marked(s[lo..k]))
  }

  ghost predicate Retirable(h0: map<Ptr, TimedEvent>, s: seq<Ptr>) {
    && (forall p :: p in h0 ==> h0[p].ref > 0)
    && (forall k :: 0 <= k < |s| ==> s[k] in h0 && multiset(s)[s[k]] <= 1)
  }

  lemma {:induction false} GoneNone(h0: map<Ptr, TimedEvent>, s: seq<Ptr>, lo: nat)
    requires Retirable(h0, s) && lo <= |s|
    ensures Gone(h0, s, lo, lo) == h0
  {
    assert s[lo..lo] == [];
    ReleaseNothing(h0);
  }

  lemma {:induction false} GoneKeeps(h0: map<Ptr, TimedEvent>, s: seq<Ptr>, lo: nat, k: nat)
    requires Retirable(h0, s) && lo <= k < |s|
    ensures s[k] in Gone(h0, s, lo, k) && Gone(h0, s, lo, k)[s[k]].eventType == h0[s[k]].eventType
    ensures h0[s[k]].ref > multiset(s[lo..k])[s[k]]
  {
    CountAt(s, lo, k);
  }

  lemma {:induction false} GoneMore(h0: map<Ptr, TimedEvent>, s: seq<Ptr>, lo: nat, k: nat)
    requires lo <= k < |s|
    ensures Gone(h0, s, lo, k + 1)
         == Released(h0, multiset(s[lo..k]) + multiset{s[k]}, Marked(s[lo..k]) + {s[k]})
  {
    SliceMore(s, lo, k);
  }

  class EventWorld {
    var heap: map<Ptr, TimedEvent>
    var objects: map<ObjectId, EventableObject>
    var holders: map<HolderId, Holder>
    var registry: map<int, HolderId>
    var nextPtr: Ptr

    function W(): World
      reads this
    {
      World(heap, objects, holders, registry, nextPtr)
    }

    constructor ()
      ensures W() == EmptyWorld && Sound(W())
    {
      heap, objects, holders, registry, nextPtr := map[], map[], map[], map[], 0;
      new;
      EmptyWorldSound();
    }

    // ---------- reference counts ----------

    method DecRef(p: Ptr)
      requires p in heap && heap[p].ref > 0
      modifies this`heap
      ensures heap == var e := old(heap)[p].(ref := old(heap)[p].ref - 1);
                      if e.ref == 0 then old(heap) - {p} else old(heap)[p := e]
    {
      heap := heap[p := heap[p].(ref := heap[p].ref - 1)];
      if heap[p].ref == 0 {
        heap := heap - {p};
        assert heap == old(heap) - {p};
      }
    }

    /** The body shared by the removal loops: mark deleted, then DecRef. */
    method Retire(p: Ptr, ghost h0: map<Ptr, TimedEvent>, ghost dropped: multiset<Ptr>, ghost kill: set<Ptr>)
      requires heap == Released(h0, dropped, kill) && p in h0 && h0[p].ref > dropped[p]
      modifies this`heap
      ensures heap == Released(h0, dropped + multiset{p}, kill + {p})
    {
      ReleaseOneMore(h0, dropped, kill, p, true);
      heap := heap[p := heap[p].(deleted := true)];
      DecRef(p);
      assert heap == Released(h0, dropped + multiset{p}, kill + {p});
    }

    // ---------- removal ----------

    /** `find` and `upper_bound`: the multimap compares the keys it stores, here the events' types. */
    method EqualRange(s: seq<Ptr>, t: nat) returns (lo: nat, hi: nat)
      requires Retirable(heap, s) && Sorted(heap, s)
      ensures TypeRange(heap, s, t, lo, hi)
    {
      lo := 0;
      while lo < |s| && heap[s[lo]].eventType < t
        invariant lo <= |s|
        invariant forall k :: 0 <= k < lo ==> heap[s[k]].eventType < t
      {
        lo := lo + 1;
      }
      hi := lo;
      while hi < |s| && heap[s[hi]].eventType == t
        invariant lo <= hi <= |s|
        invariant forall k :: lo <= k < hi ==> heap[s[k]].eventType == t
      {
        hi := hi + 1;
      }
    }

    method RetireAt(s: seq<Ptr>, ghost lo: nat, k: nat, ghost h0: map<Ptr, TimedEvent>)
      requires lo <= k < |s| && Retirable(h0, s) && heap == Gone(h0, s, lo, k)
      modifies this`heap
      ensures heap == Gone(h0, s, lo, k + 1)
    {
      GoneKeeps(h0, s, lo, k);
      Retire(s[k], h0, multiset(s[lo..k]), Marked(s[lo..k]));
      GoneMore(h0, s, lo, k);
    }

    /** Retires the entries of `s` from `lo` to `hi`, erasing each one. */
    method RetireRange(s: seq<Ptr>, lo: nat, hi: nat) returns (left: seq<Ptr>)
      requires lo <= hi <= |s| && Retirable(heap, s)
      modifies this`heap
      ensures heap == Gone(old(heap), s, lo, hi) && left == s[..lo] + s[hi..]
    {
      var itr := lo;
      left := s;
      GoneNone(heap, s, lo);
      assert s == s[..lo] + s[lo..];
      while itr < hi
        invariant lo <= itr <= hi
        invariant heap == Gone(old(heap), s, lo, itr)
        invariant left == s[..lo] + s[itr..]
      {
        var it2 := itr;
        itr := itr + 1;
        RetireAt(s, lo, it2, old(heap));
        EraseNext(s, lo, it2);
        left := Erase(left, lo);
      }
    }

    /** Destroys every event of one type, or all of them. */
    method RemoveEventsOf(o: ObjectId, t: nat)
      requires Sound(W()) && o in objects
      modifies this
      ensures W() == DropFromObject(old(W()), o, OfType(old(W()), o, t))
    {
      ghost var w := W();
      var s := objects[o].entries;
      SoundRetirable(w, o);
      var lo, hi := 0, |s|;
      if t != EVENT_REMOVAL_FLAG_ALL { lo, hi := EqualRange(s, t); }
      RangeDropped(w, o, t, lo, hi);
      RetireStretch(o, lo, hi);
    }

    method RetireStretch(o: ObjectId, lo: nat, hi: nat)
      requires o in objects && lo <= hi <= |objects[o].entries| && Retirable(heap, objects[o].entries)
      modifies this
      ensures W() == Dropped(old(W()), o, lo, hi)
    {
      var left := RetireRange(objects[o].entries, lo, hi);
      objects := objects[o := objects[o].(entries := left)];
    }

    method FindPointer(s: seq<Ptr>, lo: nat, hi: nat, ev: Ptr) returns (itr: nat)
      requires lo <= hi <= |s|
      ensures lo <= itr <= hi && (itr < hi ==> s[itr] == ev)
      ensures forall k :: lo <= k < itr ==> s[k] != ev
    {
      itr := lo;
      while itr < hi && s[itr] != ev
        invariant lo <= itr <= hi
        invariant forall k :: lo <= k < itr ==> s[k] != ev
      {
        itr := itr + 1;
      }
    }

    /** Takes one event away from its object, wherever it is in the map. */
    method RemoveEventByPointer(o: ObjectId, ev: Ptr)
      requires Sound(W()) && o in objects && ev in heap
      modifies this
      ensures W() == DropFromObject(old(W()), o, {ev})
    {
      SoundRetirable(W(), o);
      ErasePointer(o, ev);
    }

    method ErasePointer(o: ObjectId, ev: Ptr)
      requires o in objects && ev in heap && Retirable(heap, objects[o].entries) && Sorted(heap, objects[o].entries)
      modifies this
      ensures W() == DropFromObject(old(W()), o, {ev})
    {
      var lo, hi := EqualRange(objects[o].entries, heap[ev].eventType);
      var itr := FindPointer(objects[o].entries, lo, hi, ev);
      PointerDropped(W(), o, ev, lo, hi, itr);
      RetireFound(o, itr, hi);
    }

    method RetireFound(o: ObjectId, itr: nat, hi: nat)
      requires o in objects && itr <= hi <= |objects[o].entries| && Retirable(heap, objects[o].entries)
      modifies this
      ensures W() == if itr < hi then Dropped(old(W()), o, itr, itr + 1) else Dropped(old(W()), o, 0, 0)
    {
      if itr < hi {
        RetireStretch(o, itr, itr + 1);
      } else {
        DroppedNone(W(), o);
      }
    }

    // ---------- timers ----------

    method EditRange(s: seq<Ptr>, lo: nat, hi: nat, edit: TimeEdit)
      requires lo <= hi <= |s| && Retirable(heap, s)
      modifies this`heap
      ensures heap == EditedRange(old(heap), s, lo, hi, edit)
    {
      var itr := lo;
      EditNone(heap, s, lo, edit);
      while itr < hi
        invariant lo <= itr <= hi
        invariant heap == EditedRange(old(heap), s, lo, itr, edit)
      {
        EditMore(old(heap), s, lo, itr, edit);
        heap := heap[s[itr] := Edited(heap[s[itr]], edit)];
        itr := itr + 1;
      }
    }

    /** The three ways of changing period and time left, chosen by `edit`. */
    method ModifyEvents(o: ObjectId, t: nat, edit: TimeEdit)
      requires Sound(W()) && o in objects
      modifies this`heap
      ensures W() == ModifyStep(old(W()), o, t, edit)
    {
      var s := objects[o].entries;
      SoundRetirable(W(), o);
      var lo, hi := EqualRange(s, t);
      TypeRangeMembers(heap, s, t, lo, hi);
      EditAll(heap, s, t, lo, hi, edit);
      EditRange(s, lo, hi, edit);
    }

    /** The first entry from `lo` to `hi` that is not deleted. */
    method FirstLive(s: seq<Ptr>, lo: nat, hi: nat) returns (itr: nat)
      requires lo <= hi <= |s| && forall k :: 0 <= k < |s| ==> s[k] in heap
      ensures lo <= itr <= hi && (itr < hi ==> !heap[s[itr]].deleted)
      ensures forall k :: lo <= k < itr ==> heap[s[k]].deleted
    {
      itr := lo;
      while itr < hi && heap[s[itr]].deleted
        invariant lo <= itr <= hi
        invariant forall k :: lo <= k < itr ==> heap[s[k]].deleted
      {
        itr := itr + 1;
      }
    }

    method HasEvent(o: ObjectId, t: nat) returns (ret: bool)
      requires Sound(W()) && o in objects
      ensures ret <==> exists p :: p in objects[o].entries && heap[p].eventType == t && !heap[p].deleted
    {
      var s := objects[o].entries;
      SoundRetirable(W(), o);
      var lo, hi := EqualRange(s, t);
      TypeRangeMembers(heap, s, t, lo, hi);
      var itr := FirstLive(s, lo, hi);
      ret := itr < hi;
    }

    /** The time left of the first event of the type, in map order, that is not deleted, as an unsigned word. */
    method GetTimeLeft(o: ObjectId, t: nat) returns (time: Option<nat>)
      requires Sound(W()) && o in objects
      ensures var left := LiveTimeLeft(heap, objects[o].entries, t);
        time == if left.Some? then Some(U32(left.value)) else None
    {
      var s := objects[o].entries;
      SoundRetirable(W(), o);
      var lo, hi := EqualRange(s, t);
      TypeRangeMembers(heap, s, t, lo, hi);
      var itr := FirstLive(s, lo, hi);
      time := if itr < hi then Some(U32(heap[s[itr]].currTime)) else None;
      FirstLiveIs(heap, s, t, lo, hi, itr);
    }

    // ---------- scheduling and moving ----------

    /** One more reference, held under another instance id. */
    method Take(p: Ptr, id: int)
      requires p in heap
      modifies this`heap
      ensures heap == Taken(old(heap), p, id)
    {
      heap := heap[p := heap[p].(ref := heap[p].ref + 1)];
      heap := heap[p := heap[p].(instanceId := id)];
    }

    /** One turn of AddObject's loop: an event that is not deleted is taken and goes to the list or pool. */
    method TransferNext(ho: Holder, s: seq<Ptr>, i: nat, acquired: bool, ghost h0: map<Ptr, TimedEvent>, ghost ho0: Holder)
      returns (ho': Holder)
      requires i < |s| && s[i] in h0 && HandedOver(h0, ho0, s, i, acquired, heap, ho)
      modifies this`heap
      ensures HandedOver(h0, ho0, s, i + 1, acquired, heap, ho')
    {
      var p := s[i];
      HandStep(h0, ho0, s, i, acquired, heap, ho);
      if heap[p].deleted {
        ho' := ho;
      } else {
        Take(p, ho.instance);
        ho' := Pushed(ho, [p], acquired);
      }
    }

    /** Hands the live events of `s` over to holder `h`. */
    method AddObject(h: HolderId, s: seq<Ptr>, acquired: bool)
      requires h in holders && forall k :: 0 <= k < |s| ==> s[k] in heap
      modifies this`heap, this`holders
      ensures heap == Retained(old(heap), multiset(Only(s, LiveSet(old(heap), s))), old(holders)[h].instance)
      ensures holders == old(holders)[h := Pushed(old(holders)[h], Only(s, LiveSet(old(heap), s)), acquired)]
    {
      var ho := holders[h];
      ghost var ho0 := ho;
      HandNone(heap, ho, s, acquired);
      var itr := 0;
      while itr < |s|
        invariant itr <= |s| && holders == old(holders)
        invariant HandedOver(old(heap), ho0, s, itr, acquired, heap, ho)
      {
        ho := TransferNext(ho, s, itr, acquired, old(heap), ho0);
        itr := itr + 1;
      }
      holders := holders[h := ho];
      assert s[..itr] == s;
    }

    method LeaveHolder(o: ObjectId)
      requires o in objects && forall k :: 0 <= k < |objects[o].entries| ==> objects[o].entries[k] in heap
      modifies this`heap, this`objects
      ensures heap == ZeroInstance(old(heap), old(objects)[o].entries)
      ensures objects == old(objects)[o := old(objects)[o].(currentInstance := 0, holder := None)]
    {
      ClearInstance(objects[o].entries);
      objects := objects[o := objects[o].(currentInstance := 0)];
      objects := objects[o := objects[o].(holder := None)];
    }

    method JoinHolder(o: ObjectId, h: HolderId, acquired: bool)
      requires NoDangling(W()) && o in objects && h in holders
      modifies this`heap, this`objects, this`holders
      ensures var w, moved := old(W()), Movable(old(W()), o);
        && heap == Retained(w.heap, multiset(moved), w.holders[h].instance)
        && holders == w.holders[h := Pushed(w.holders[h], moved, acquired)]
        && objects == w.objects[o := w.objects[o].(currentInstance := w.holders[h].instance, holder := Some(h))]
    {
      AddObject(h, objects[o].entries, acquired);
      objects := objects[o := objects[o].(currentInstance := holders[h].instance)];
      objects := objects[o := objects[o].(holder := Some(h))];
    }

    method RelocateObject(o: ObjectId, inst: int, acquired: bool)
      requires NoDangling(W()) && o in objects
      modifies this
      ensures W() == RelocateStep(old(W()), o, inst, acquired)
    {
      var nh := if inst in registry then Some(registry[inst]) else None;
      if nh != objects[o].holder {
        if nh.None? {
          LeaveHolder(o);
        } else {
          JoinHolder(o, nh.value, acquired);
        }
      }
    }

    /** Sets the instance id of every event of `s` to 0. */
    method ClearInstance(s: seq<Ptr>)
      requires forall k :: 0 <= k < |s| ==> s[k] in heap
      modifies this`heap
      ensures heap == ZeroInstance(old(heap), s)
    {
      var itr := 0;
      while itr < |s|
        invariant itr <= |s|
        invariant heap == ZeroInstance(old(heap), s[..itr])
      {
        heap := heap[s[itr] := heap[s[itr]].(instanceId := 0)];
        assert s[..itr + 1] == s[..itr] + [s[itr]];
        itr := itr + 1;
      }
      assert s[..itr] == s;
    }

    /** Finds a holder for an object that has none. */
    method Attach(o: ObjectId, inst: int)
      requires o in objects && HolderFor(W(), o, inst).Some?
      modifies this`objects
      ensures var (id, h) := HolderFor(old(W()), o, inst).value;
        objects == old(objects)[o := old(objects)[o].(currentInstance := id, holder := Some(h))]
    {
      if objects[o].holder.None? {
        var id := if inst in registry then inst else WORLD_INSTANCE;
        objects := objects[o := objects[o].(currentInstance := id, holder := Some(registry[id]))];
      } else {
        assert objects == objects[o := objects[o]];
      }
    }

    /** Puts a new event into its object's map, then into the holder, with one IncRef for each. */
    method Insert(o: ObjectId, e: NewEvent, ptr: Ptr, h: HolderId, acquired: bool)
      requires o in objects && h in holders && forall p :: p in objects[o].entries ==> p in heap
      modifies this`heap, this`objects, this`holders
      ensures var w := old(W()).(nextPtr := ptr);
        W().(nextPtr := ptr + 1) == Scheduled(w, o, w.objects[o], w.objects[o].currentInstance, h, e, acquired)
    {
      var obj := objects[o];
      var i := UpperBound(heap, obj.entries, e.eventType);
      heap := heap[ptr := TimedEvent(o, e.eventType, e.flags % 0x1_0000, e.msTime, e.msTime, e.repeats % 0x1_0000,
                                     false, obj.currentInstance, 1)];
      objects := objects[o := obj.(entries := obj.entries[..i] + [ptr] + obj.entries[i..])];
      heap := heap[ptr := heap[ptr].(ref := heap[ptr].ref + 1)];
      holders := holders[h := Pushed(holders[h], [ptr], acquired)];
    }

    /** Attaches the object if it is not attached, then schedules the event unless the world must not run it. */
    method AddEventTo(o: ObjectId, inst: int, e: NewEvent, acquired: bool)
      requires NoDangling(W()) && o in objects && HolderFor(W(), o, inst).Some?
      modifies this
      ensures W() == AddEventStep(old(W()), o, inst, e, acquired)
    {
      var ptr := nextPtr;
      nextPtr := nextPtr + 1;
      Attach(o, inst);
      var obj := objects[o];
      if obj.currentInstance == WORLD_INSTANCE && e.NotInWorldContext() {
        return;
      }
      ScheduledSame(old(W()), o, obj, e, acquired);
      Insert(o, e, ptr, obj.holder.value, acquired);
    }

    // ---------- destruction ----------

    method DestroyObject(o: ObjectId)
      requires Sound(W()) && o in objects
      modifies this
      ensures W() == DestroyObjectStep(old(W()), o)
    {
      SoundRetirable(W(), o);
      DestroyIs(W(), o);
      RetireAll(o);
    }

    /** The loop of the object's destructor. */
    method RetireAll(o: ObjectId)
      requires o in objects && Retirable(heap, objects[o].entries)
      modifies this`heap, this`objects
      ensures heap == Gone(old(heap), old(objects)[o].entries, 0, |old(objects)[o].entries|)
      ensures objects == old(objects) - {o}
    {
      var s := objects[o].entries;
      var left := RetireRange(s, 0, |s|);
      objects := objects - {o};
    }

    /** DecRef for every entry of `s`, on top of the references `base` already given up. */
    method DecRefAll(s: seq<Ptr>, ghost h0: map<Ptr, TimedEvent>, ghost base: multiset<Ptr>)
      requires Affords(h0, base + multiset(s)) && heap == Released(h0, base, {})
      modifies this`heap
      ensures heap == Released(h0, base + multiset(s), {})
    {
      var itr := 0;
      assert multiset(s[..0]) == multiset{};
      assert base + multiset(s[..0]) == base;
      while itr < |s|
        invariant itr <= |s|
        invariant heap == Released(h0, base + multiset(s[..itr]), {})
      {
        DropMore(h0, base, s, itr);
        DecRef(s[itr]);
        itr := itr + 1;
      }
      assert s[..itr] == s;
    }

    /** The two loops of the holder's destructor. */
    method DecRefBoth(pool: seq<Ptr>, list: seq<Ptr>)
      requires Affords(heap, multiset(list) + multiset(pool)) && Affords(heap, multiset(pool))
      requires forall p :: p in heap ==> heap[p].ref > 0
      modifies this`heap
      ensures heap == Released(old(heap), multiset(list) + multiset(pool), {})
    {
      ghost var h0 := heap;
      ReleaseNothing(heap);
      assert multiset{} + multiset(pool) == multiset(pool);
      DecRefAll(pool, h0, multiset{});
      assert multiset(pool) + multiset(list) == multiset(list) + multiset(pool);
      DecRefAll(list, h0, multiset(pool));
    }

    method DestroyHolder(h: HolderId)
      requires Sound(W()) && h in holders && holders[h].pass.Idle?
      modifies this
      ensures W() == DestroyHolderStep(old(W()), h)
    {
      SoundAffords(W(), h);
      DestroyAttached(h);
    }

    method DestroyAttached(h: HolderId)
      requires Attached(W()) && h in holders && Affords(heap, multiset(holders[h].entries) + multiset(holders[h].insertPool))
      requires Affords(heap, multiset(holders[h].insertPool)) && forall p :: p in heap ==> heap[p].ref > 0
      modifies this
      ensures W() == DestroyHolderStep(old(W()), h)
    {
      Unregister(h);
      ReleaseHolder(h);
    }

    method ReleaseHolder(h: HolderId)
      requires h in holders && Affords(heap, multiset(holders[h].entries) + multiset(holders[h].insertPool))
      requires Affords(heap, multiset(holders[h].insertPool)) && forall p :: p in heap ==> heap[p].ref > 0
      modifies this`heap, this`holders
      ensures holders == old(holders) - {h}
      ensures heap == Released(old(heap), multiset(old(holders)[h].entries) + multiset(old(holders)[h].insertPool), {})
    {
      DecRefBoth(holders[h].insertPool, holders[h].entries);
      holders := holders - {h};
    }

    method Unregister(h: HolderId)
      requires Attached(W()) && h in holders
      modifies this`registry
      ensures registry == map id | id in old(registry) && old(registry)[id] != h :: old(registry)[id]
    {
      OneRegistration(W(), h);
      var id := holders[h].instance;
      if id in registry && registry[id] == h { registry := registry - {id}; }
    }

    // ---------- Update ----------

    /** One pending entry: dropped when dead, else appended to the list. */
    method DrainNext(id: int, pool: seq<Ptr>, i: nat, list: seq<Ptr>, ghost h0: map<Ptr, TimedEvent>, ghost list0: seq<Ptr>)
      returns (list': seq<Ptr>)
      requires i < |pool| && Affords(h0, multiset(pool)) && Drained(h0, id, list0, pool, i, heap, list)
      modifies this`heap
      ensures Drained(h0, id, list0, pool, i + 1, heap, list')
    {
      var p := pool[i];
      DrainStep(h0, id, list0, pool, i, heap, list);
      if Stale(heap, p, id) {
        DecRef(p);
        list' := list;
      } else {
        list' := list + [p];
      }
    }

    method DrainPool(h: HolderId, dt: int)
      requires NoDangling(W()) && h in holders && Affords(heap, multiset(holders[h].insertPool))
      requires forall p :: p in heap ==> heap[p].ref > 0
      modifies this`heap, this`holders
      ensures W() == BeginStep(old(W()), h, dt)
    {
      var ho := holders[h];
      var list := ho.entries;
      DrainNone(heap, ho.instance, list, ho.insertPool);
      var iq2 := 0;
      while iq2 < |ho.insertPool|
        invariant iq2 <= |ho.insertPool| && holders == old(holders)
        invariant Drained(old(heap), ho.instance, ho.entries, ho.insertPool, iq2, heap, list)
      {
        list := DrainNext(ho.instance, ho.insertPool, iq2, list, old(heap), ho.entries);
        iq2 := iq2 + 1;
      }
      DrainAll(old(heap), ho.instance, ho.entries, ho.insertPool, heap, list);
      holders := holders[h := ho.(entries := list, insertPool := [], pass := Looping(dt, First(list)))];
    }

    /** The loop body up to the callback. */
    method VisitNode(h: HolderId)
      requires NoDangling(W()) && h in holders && holders[h].pass.Looping? && holders[h].pass.itr.At?
      requires forall p :: p in heap ==> heap[p].ref > 0
      modifies this`heap, this`holders
      ensures W() == VisitStep(old(W()), h)
    {
      var ho := holders[h];
      var dt, it2 := ho.pass.dt, ho.pass.itr.index;
      var itr := Next(ho.entries, it2);
      var ev := ho.entries[it2];
      if Stale(heap, ev, ho.instance) {
        ReleaseFirst(heap, ev, false);
        DecRef(ev);
        holders := holders[h := Unlinked(ho, it2, Looping(dt, Shifted(itr)))];
      } else if heap[ev].currTime <= dt {
        if heap[ev].DeletesObject() {
          holders := holders[h := Unlinked(ho, it2, Detached(dt, ev, Shifted(itr)))];
          heap := heap[ev := heap[ev].(deleted := true)];
        } else {
          holders := holders[h := ho.(pass := InCallback(dt, it2, itr))];
        }
      } else {
        heap := heap[ev := heap[ev].(currTime := heap[ev].currTime - dt)];
        holders := holders[h := ho.(pass := Looping(dt, itr))];
      }
    }

    /** The loop body after the callback. */
    method FinishNode(h: HolderId)
      requires NoDangling(W()) && h in holders && Running(holders[h])
      requires forall p :: p in heap ==> heap[p].ref > 0
      modifies this`heap, this`holders
      ensures W() == ReturnStep(old(W()), h)
    {
      var ho := holders[h];
      if ho.pass.Detached? {
        ReleaseFirst(heap, ho.pass.ev, false);
        DecRef(ho.pass.ev);
        holders := holders[h := ho.(pass := Looping(ho.pass.dt, ho.pass.itr))];
      } else {
        var kept := CountDown(ho.entries[ho.pass.it2]);
        if kept {
          holders := holders[h := ho.(pass := Looping(ho.pass.dt, ho.pass.itr))];
        } else {
          holders := holders[h := Unlinked(ho, ho.pass.it2, Looping(ho.pass.dt, Shifted(ho.pass.itr)))];
        }
      }
    }

    /** Counts a repeating event down: expired or deleted events are given up, others start again. */
    method CountDown(ev: Ptr) returns (kept: bool)
      requires ev in heap && forall p :: p in heap ==> heap[p].ref > 0
      modifies this`heap
      ensures var e := old(heap)[ev];
        var left := if e.repeats > 0 then e.repeats - 1 else 0;
        var expired := e.repeats > 0 && left == 0;
        && kept == (!expired && !e.deleted)
        && heap == (if kept then old(heap)[ev := e.(repeats := left, currTime := e.msTime)]
                    else Released(old(heap)[ev := e.(repeats := left)], multiset{ev}, if expired then {ev} else {}))
    {
      var counted := heap[ev].repeats > 0;
      heap := heap[ev := heap[ev].(repeats := if counted then heap[ev].repeats - 1 else 0)];
      var expired := counted && heap[ev].repeats == 0;
      kept := !expired && !heap[ev].deleted;
      if kept {
        heap := heap[ev := heap[ev].(currTime := heap[ev].msTime)];
      } else {
        ReleaseFirst(heap, ev, expired);
        if expired { heap := heap[ev := heap[ev].(deleted := true)]; }
        DecRef(ev);
      }
    }

    /** One call that a callback makes on some object. */
    method Perform(o: ObjectId, op: ObjectOp)
      requires Sound(W()) && ObjectEnabled(W(), o, op)
      modifies this
      ensures W() == ObjectStep(old(W()), o, op)
    {
      match op
      case NewObject => objects := objects[o := EventableObject([], None, WORLD_INSTANCE)];
      case DestroyObject => DestroyObject(o);
      case AddEvent(inst, e, acquired) => AddEventTo(o, inst, e, acquired);
      case RemoveByPointer(p) => RemoveEventByPointer(o, p);
      case RemoveEvents(t) => RemoveEventsOf(o, t);
      case Modify(t, edit) => ModifyEvents(o, t, edit);
      case Relocate(inst, acquired) => RelocateObject(o, inst, acquired);
    }

    /** A callback: the calls of `script` in turn, leaving out those the program could not make. */
    method Execute(script: seq<Action>, ghost w1: World, ghost h: HolderId, ghost mid: seq<Op>) returns (ghost mid': seq<Op>)
      requires Reached(w1, mid, h, W()) && h in holders
      modifies this
      ensures Reached(w1, mid', h, W())
      ensures h in holders && Appended(old(holders)[h], holders[h])
    {
      mid' := mid;
      var i := 0;
      while i < |script|
        invariant i <= |script|
        invariant Reached(w1, mid', h, W())
        invariant h in holders && Appended(old(holders)[h], holders[h])
      {
        var Action(o, op) := script[i];
        if ObjectEnabled(W(), o, op) {
          ReachMore(w1, mid', h, W(), OfObject(o, op));
          ObjectStepAppends(W(), o, op, h);
          AppendedChain(old(holders)[h], holders[h], ObjectStep(W(), o, op).holders[h]);
          Perform(o, op);
          mid' := mid' + [OfObject(o, op)];
        }
        i := i + 1;
      }
    }

    /**
     Drains the pool and goes through the list. The k-th callback of the pass behaves as
     `scripts[k]`; any pass that ends is the pass for some scripts. `mid` is the run it takes
     between its first and last step.
     */
    method Update(h: HolderId, dt: int, scripts: seq<seq<Action>>) returns (ghost mid: seq<Op>)
      requires Sound(W()) && HolderEnabled(W(), h, BeginUpdate(dt))
      modifies this
      ensures PassRun(old(W()), h, dt, mid, W()) && Sound(W())
      ensures Cleaned(old(W()), h, W())
    {
      ghost var w1 := BeginStep(W(), h, dt);
      StartPass(h, dt);
      mid := Loop(h, scripts, w1);
      EndPass(h, dt, old(W()), mid);
    }

    method EndPass(h: HolderId, dt: int, ghost w: World, ghost mid: seq<Op>)
      requires Sound(w) && HolderEnabled(w, h, BeginUpdate(dt))
      requires Reached(BeginStep(w, h, dt), mid, h, W()) && HolderEnabled(W(), h, EndUpdate)
      modifies this`holders
      ensures PassRun(w, h, dt, mid, W()) && Sound(W()) && Cleaned(w, h, W())
    {
      ghost var w2 := W();
      CloseList(h);
      PassSweeps(w, h, dt, mid, w2, W());
    }

    method CloseList(h: HolderId)
      requires NoDangling(W()) && HolderEnabled(W(), h, EndUpdate)
      modifies this`holders
      ensures W() == HolderStep(old(W()), h, EndUpdate)
    {
      holders := holders[h := holders[h].(pass := Idle)];
    }

    method StartPass(h: HolderId, dt: int)
      requires Sound(W()) && HolderEnabled(W(), h, BeginUpdate(dt))
      modifies this
      ensures Reached(BeginStep(old(W()), h, dt), [], h, W()) && h in holders && holders[h].pass.Looping?
    {
      StartReached(W(), h, dt);
      SoundAffords(W(), h);
      DrainPool(h, dt);
    }

    method Loop(h: HolderId, scripts: seq<seq<Action>>, ghost w1: World) returns (ghost mid: seq<Op>)
      requires Reached(w1, [], h, W()) && h in holders && holders[h].pass.Looping?
      modifies this
      ensures Reached(w1, mid, h, W()) && HolderEnabled(W(), h, EndUpdate)
    {
      mid := [];
      var k := 0;
      while holders[h].pass.itr.At?
        invariant Reached(w1, mid, h, W()) && h in holders && holders[h].pass.Looping?
        invariant k <= |scripts|
        decreases |scripts| - k, |Rest(holders[h])|
      {
        k, mid := Turn(h, scripts, k, w1, mid);
      }
    }

    /** One turn of the loop: visit the node, run its callback if it is due, and finish. */
    method Turn(h: HolderId, scripts: seq<seq<Action>>, k: nat, ghost w1: World, ghost mid: seq<Op>)
      returns (k': nat, ghost mid': seq<Op>)
      requires Reached(w1, mid, h, W()) && k <= |scripts|
      requires h in holders && holders[h].pass.Looping? && holders[h].pass.itr.At?
      modifies this
      ensures Reached(w1, mid', h, W()) && h in holders && holders[h].pass.Looping?
      ensures k <= k' <= |scripts|
      ensures k' == k ==> |Rest(holders[h])| < |Rest(old(holders)[h])|
    {
      mid' := VisitTurn(h, w1, mid);
      k' := k;
      if !holders[h].pass.Looping? {
        if k < |scripts| {
          mid' := Execute(scripts[k], w1, h, mid');
          k' := k + 1;
        }
        mid' := FinishTurn(h, w1, mid');
      }
    }

    method VisitTurn(h: HolderId, ghost w1: World, ghost mid: seq<Op>) returns (ghost mid': seq<Op>)
      requires Reached(w1, mid, h, W())
      requires h in holders && holders[h].pass.Looping? && holders[h].pass.itr.At?
      modifies this
      ensures Reached(w1, mid', h, W()) && h in holders && Shorter(old(holders)[h], holders[h])
    {
      ReachedFacts(w1, mid, h, W());
      mid' := mid + [OfHolder(h, Visit)];
      assert Reached(w1, mid', h, VisitStep(W(), h)) by { ReachVisit(w1, mid, h, W()); }
      VisitShortens(W(), h);
      VisitNode(h);
    }

    method FinishTurn(h: HolderId, ghost w1: World, ghost mid: seq<Op>) returns (ghost mid': seq<Op>)
      requires Reached(w1, mid, h, W()) && h in holders && Running(holders[h])
      modifies this
      ensures Reached(w1, mid', h, W()) && h in holders && Resumed(old(holders)[h], holders[h])
    {
      ReachedFacts(w1, mid, h, W());
      mid' := mid + [OfHolder(h, Return)];
      assert Reached(w1, mid', h, ReturnStep(W(), h)) by { ReachReturn(w1, mid, h, W()); }
      ReturnKeepsRest(W(), h);
      FinishNode(h);
    }
  }

  datatype Action = Action(o: ObjectId, op: ObjectOp)

  /** `w` is reached from `w1` by the steps `mid`, during which holder `h` has not ended its pass. */
  ghost predicate Reached(w1: World, mid: seq<Op>, h: HolderId, w: World) {
    Sound(w1) && Legal(w1, mid) && w == Run(w1, mid) && OfHolder(h, EndUpdate) !in mid && Sound(w)
  }

  /** `w'` is where a pass of holder `h` leads from `w`, with `mid` between its first and last step. */
  ghost predicate PassRun(w: World, h: HolderId, dt: int, mid: seq<Op>, w': World) {
    && Sound(w) && HolderEnabled(w, h, BeginUpdate(dt))
    && var w1 := BeginStep(w, h, dt);
    && Sound(w1) && Legal(w1, mid) && OfHolder(h, EndUpdate) !in mid
    && HolderEnabled(Run(w1, mid), h, EndUpdate) && w' == HolderStep(Run(w1, mid), h, EndUpdate)
  }

  /** Whatever was deleted in `w` is not held by `h` in `w'`. */
  ghost predicate Cleaned(w: World, h: HolderId, w': World) {
    h in w'.holders && forall p :: p in w.heap && w.heap[p].deleted ==> !Holds(w'.holders[h], p)
  }

  lemma {:induction false} PassSweeps(w: World, h: HolderId, dt: int, mid: seq<Op>, w2: World, w': World)
    requires Sound(w) && HolderEnabled(w, h, BeginUpdate(dt)) && Reached(BeginStep(w, h, dt), mid, h, w2)
    requires HolderEnabled(w2, h, EndUpdate) && w' == HolderStep(w2, h, EndUpdate)
    ensures PassRun(w, h, dt, mid, w') && Sound(w') && Cleaned(w, h, w')
  {
    EndSound(w2, w', h);
    forall p | p in w.heap && w.heap[p].deleted ensures !Holds(w2.holders[h], p) {
      UpdateSweepsDeleted(w, dt, mid, h, p);
    }
  }

  lemma {:induction false} StartReached(w: World, h: HolderId, dt: int)
    requires Sound(w) && HolderEnabled(w, h, BeginUpdate(dt))
    ensures Reached(BeginStep(w, h, dt), [], h, BeginStep(w, h, dt))
  {
    BeginSound(w, h, dt);
  }

  lemma {:induction false} ReachMore(w1: World, mid: seq<Op>, h: HolderId, w: World, op: Op)
    requires Reached(w1, mid, h, w) && Enabled(w, op) && op != OfHolder(h, EndUpdate)
    ensures Reached(w1, mid + [op], h, Step(w, op))
  {
    RunExtend(w1, mid, op, w);
    StepSound(w, op);
  }

  lemma {:induction false} ReachVisit(w1: World, mid: seq<Op>, h: HolderId, w: World)
    requires Reached(w1, mid, h, w) && HolderEnabled(w, h, Visit)
    ensures Reached(w1, mid + [OfHolder(h, Visit)], h, VisitStep(w, h))
  {
    ReachMore(w1, mid, h, w, OfHolder(h, Visit));
  }

  lemma {:induction false} ReachReturn(w1: World, mid: seq<Op>, h: HolderId, w: World)
    requires Reached(w1, mid, h, w) && HolderEnabled(w, h, Return)
    ensures Reached(w1, mid + [OfHolder(h, Return)], h, ReturnStep(w, h))
  {
    ReachMore(w1, mid, h, w, OfHolder(h, Return));
  }

  lemma {:induction false} ReachedFacts(w1: World, mid: seq<Op>, h: HolderId, w: World)
    requires Reached(w1, mid, h, w)
    ensures NoDangling(w) && forall p :: p in w.heap ==> w.heap[p].ref > 0
  {
  }

  lemma {:induction false} AppendedChain(a: Holder, b: Holder, c: Holder)
    requires Appended(a, b) && Appended(b, c)
    ensures Appended(a, c)
  {
  }

  /** After a visit there is one node less to go, and the pass loops on or runs a callback. */
  ghost predicate Shorter(ho: Holder, ho': Holder) {
    |Rest(ho')| < |Rest(ho)| && (ho'.pass.Looping? || Running(ho'))
  }

  /** After a callback the pass loops on with the nodes it had to go. */
  ghost predicate Resumed(ho: Holder, ho': Holder) {
    |Rest(ho')| == |Rest(ho)| && ho'.pass.Looping?
  }

  lemma {:induction false} VisitShortens(w: World, h: HolderId)
    requires NoDangling(w) && HolderEnabled(w, h, Visit)
    ensures h in VisitStep(w, h).holders && Shorter(w.holders[h], VisitStep(w, h).holders[h])
  {
    VisitPast(w, h);
    PastRest(w.holders[h], VisitStep(w, h).holders[h], w.holders[h].pass.itr.index);
  }

  lemma {:induction false} ReturnKeepsRest(w: World, h: HolderId)
    requires NoDangling(w) && HolderEnabled(w, h, Return)
    ensures h in ReturnStep(w, h).holders && Resumed(w.holders[h], ReturnStep(w, h).holders[h])
  {
    var ho, ho' := w.holders[h], ReturnStep(w, h).holders[h];
    if ho.pass.InCallback? && ho'.entries != ho.entries {
      UnlinkKeepsRest(ho, ho.pass.it2, ho.pass.itr);
    }
  }

  lemma {:induction false} UnlinkKeepsRest(ho: Holder, i: nat, itr: Iterator)
    requires i < |ho.entries| && IteratorOk(itr, ho.entries) && (itr.At? ==> itr.index == i + 1)
    requires !ho.pass.Idle? && ho.pass.itr == itr
    ensures |Rest(Unlinked(ho, i, Looping(ho.pass.dt, Shifted(itr))))| == |Rest(ho)|
  {
  }

  /** A single DecRef. */
  lemma {:induction false} ReleaseFirst(heap: map<Ptr, TimedEvent>, p: Ptr, mark: bool)
    requires p in heap && forall q :: q in heap ==> heap[q].ref > 0
    ensures var e := heap[p].(deleted := heap[p].deleted || mark, ref := heap[p].ref - 1);
      Released(heap, multiset{p}, if mark then {p} else {}) == if e.ref == 0 then heap - {p} else heap[p := e]
  {
  }

  ghost predicate Drained(h0: map<Ptr, TimedEvent>, id: int, list0: seq<Ptr>, pool: seq<Ptr>, i: nat,
                          heap: map<Ptr, TimedEvent>, list: seq<Ptr>)
    requires i <= |pool|
  {
    var dead := DeadIn(h0, id, pool);
    heap == Released(h0, multiset(Only(pool[..i], dead)), {}) && list == list0 + Without(pool[..i], dead)
  }

  ghost function DeadIn(h0: map<Ptr, TimedEvent>, id: int, pool: seq<Ptr>): set<Ptr> {
    set p | p in pool && p in h0 && Stale(h0, p, id)
  }

  lemma {:induction false} DrainNone(h0: map<Ptr, TimedEvent>, id: int, list: seq<Ptr>, pool: seq<Ptr>)
    requires forall p :: p in h0 ==> h0[p].ref > 0
    ensures Drained(h0, id, list, pool, 0, h0, list)
  {
    ReleaseNothing(h0);
    assert pool[..0] == [] && list + [] == list;
  }

  lemma {:induction false} DrainAll(h0: map<Ptr, TimedEvent>, id: int, list0: seq<Ptr>, pool: seq<Ptr>, heap: map<Ptr, TimedEvent>, list: seq<Ptr>)
    requires Drained(h0, id, list0, pool, |pool|, heap, list) && forall p :: p in pool ==> p in h0
    ensures var dead := set p | p in pool && Stale(h0, p, id);
      heap == Released(h0, multiset(Only(pool, dead)), {}) && list == list0 + Without(pool, dead)
  {
    assert pool[..|pool|] == pool;
    assert DeadIn(h0, id, pool) == set p | p in pool && Stale(h0, p, id);
  }

  lemma {:induction false} DrainReads(h0: map<Ptr, TimedEvent>, id: int, pool: seq<Ptr>, i: nat)
    requires i < |pool| && Affords(h0, multiset(pool))
    ensures var dead, p := DeadIn(h0, id, pool), pool[i];
      var heap := Released(h0, multiset(Only(pool[..i], dead)), {});
      && p in h0 && h0[p].ref > multiset(Only(pool[..i], dead))[p]
      && p in heap && heap[p].ref > 0 && (Stale(heap, p, id) <==> p in dead)
  {
    PrefixCount(pool, i);
    SplitCounts(pool[..i], DeadIn(h0, id, pool));
    assert pool[i] in multiset(pool);
  }

  lemma {:induction false} DrainDead(h0: map<Ptr, TimedEvent>, pool: seq<Ptr>, i: nat, dead: set<Ptr>)
    requires i < |pool| && pool[i] in dead && pool[i] in h0
    requires h0[pool[i]].ref > multiset(Only(pool[..i], dead))[pool[i]]
    ensures var heap, p := Released(h0, multiset(Only(pool[..i], dead)), {}), pool[i];
      Released(h0, multiset(Only(pool[..i + 1], dead)), {})
        == if heap[p].ref == 1 then heap - {p} else heap[p := heap[p].(ref := heap[p].ref - 1)]
  {
    OnlyMore(pool, i, dead);
    assert multiset(Only(pool[..i + 1], dead)) == multiset(Only(pool[..i], dead)) + multiset{pool[i]};
    ReleaseOneMore(h0, multiset(Only(pool[..i], dead)), {}, pool[i], false);
  }

  lemma {:induction false} DrainLive(h0: map<Ptr, TimedEvent>, id: int, list0: seq<Ptr>, pool: seq<Ptr>, i: nat,
                  heap: map<Ptr, TimedEvent>, list: seq<Ptr>)
    requires i < |pool| && pool[i] !in DeadIn(h0, id, pool) && Drained(h0, id, list0, pool, i, heap, list)
    ensures Drained(h0, id, list0, pool, i + 1, heap, list + [pool[i]])
  {
    var dead := DeadIn(h0, id, pool);
    WithoutMore(pool, i, dead);
    OnlyMore(pool, i, dead);
    assert Only(pool[..i + 1], dead) == Only(pool[..i], dead);
    Regroup(list0, Without(pool[..i], dead), [pool[i]]);
  }

  lemma {:induction false} DrainStale(h0: map<Ptr, TimedEvent>, id: int, list0: seq<Ptr>, pool: seq<Ptr>, i: nat,
                  heap: map<Ptr, TimedEvent>, list: seq<Ptr>)
    requires i < |pool| && pool[i] in DeadIn(h0, id, pool) && Drained(h0, id, list0, pool, i, heap, list)
    requires h0[pool[i]].ref > multiset(Only(pool[..i], DeadIn(h0, id, pool)))[pool[i]]
    ensures pool[i] in heap
    ensures Drained(h0, id, list0, pool, i + 1,
                    if heap[pool[i]].ref == 1 then heap - {pool[i]} else heap[pool[i] := heap[pool[i]].(ref := heap[pool[i]].ref - 1)], list)
  {
    var dead := DeadIn(h0, id, pool);
    WithoutMore(pool, i, dead);
    DrainDead(h0, pool, i, dead);
    assert Without(pool[..i + 1], dead) == Without(pool[..i], dead);
  }

  lemma {:induction false} DrainStep(h0: map<Ptr, TimedEvent>, id: int, list0: seq<Ptr>, pool: seq<Ptr>, i: nat,
                  heap: map<Ptr, TimedEvent>, list: seq<Ptr>)
    requires i < |pool| && Affords(h0, multiset(pool)) && Drained(h0, id, list0, pool, i, heap, list)
    ensures pool[i] in heap && heap[pool[i]].ref > 0
    ensures Drained(h0, id, list0, pool, i + 1,
                    if !Stale(heap, pool[i], id) then heap
                    else if heap[pool[i]].ref == 1 then heap - {pool[i]}
                    else heap[pool[i] := heap[pool[i]].(ref := heap[pool[i]].ref - 1)],
                    if Stale(heap, pool[i], id) then list else list + [pool[i]])
  {
    DrainReads(h0, id, pool, i);
    if pool[i] in DeadIn(h0, id, pool) {
      DrainStale(h0, id, list0, pool, i, heap, list);
    } else {
      DrainLive(h0, id, list0, pool, i, heap, list);
    }
  }

  lemma {:induction false} WithoutMore(s: seq<Ptr>, i: nat, d: set<Ptr>)
    requires i < |s|
    ensures Without(s[..i + 1], d) == Without(s[..i], d) + (if s[i] in d then [] else [s[i]])
  {
    assert s[..i + 1] == s[..i] + [s[i]];
    WithoutConcat(s[..i], [s[i]], d);
  }

  /** No event is dropped more often than it is referred to. */
  ghost predicate Affords(h0: map<Ptr, TimedEvent>, dropped: multiset<Ptr>) {
    forall p :: p in dropped ==> p in h0 && dropped[p] <= h0[p].ref
  }

  lemma {:induction false} DropMore(h0: map<Ptr, TimedEvent>, base: multiset<Ptr>, s: seq<Ptr>, i: nat)
    requires i < |s| && Affords(h0, base + multiset(s))
    ensures var heap, p := Released(h0, base + multiset(s[..i]), {}), s[i];
      && p in heap && heap[p].ref > 0
      && Released(h0, base + multiset(s[..i + 1]), {})
         == (if heap[p].ref == 1 then heap - {p} else heap[p := heap[p].(ref := heap[p].ref - 1)])
  {
    var p := s[i];
    PrefixCount(s, i);
    assert p in base + multiset(s);
    assert s[..i + 1] == s[..i] + [p];
    assert base + multiset(s[..i + 1]) == base + multiset(s[..i]) + multiset{p};
    ReleaseOneMore(h0, base + multiset(s[..i]), {}, p, false);
  }

  lemma {:induction false} PrefixCount(s: seq<Ptr>, i: nat)
    requires i < |s|
    ensures multiset(s[..i])[s[i]] + 1 <= multiset(s)[s[i]]
  {
    assert s == s[..i] + [s[i]] + s[i + 1..];
  }

  lemma {:induction false} SoundAffords(w: World, h: HolderId)
    requires Counted(w.heap, Refs(w)) && h in w.holders
    ensures Affords(w.heap, multiset(w.holders[h].entries) + multiset(w.holders[h].insertPool))
    ensures Affords(w.heap, multiset(w.holders[h].insertPool))
    ensures forall p :: p in w.heap ==> w.heap[p].ref > 0
  {
    HolderWithinRefs(w, h);
  }

  lemma {:induction false} HolderWithinRefs(w: World, h: HolderId)
    requires h in w.holders
    ensures forall p :: (multiset(w.holders[h].entries) + multiset(w.holders[h].insertPool))[p] <= Refs(w)[p]
  {
    TotalUpdate(w.holders, HolderRefs, h, w.holders[h]);
  }

  lemma {:induction false} OneRegistration(w: World, h: HolderId)
    requires Attached(w) && h in w.holders
    ensures var id := w.holders[h].instance;
      (map i | i in w.registry && w.registry[i] != h :: w.registry[i])
        == if id in w.registry && w.registry[id] == h then w.registry - {id} else w.registry
  {
    var id := w.holders[h].instance;
    var m := map i | i in w.registry && w.registry[i] != h :: w.registry[i];
    assert forall i :: i in w.registry && w.registry[i] == h ==> i == id;
    if id in w.registry && w.registry[id] == h {
      assert m == w.registry - {id};
    } else {
      assert m == w.registry;
    }
  }

  lemma {:induction false} DestroyIs(w: World, o: ObjectId)
    requires NoDangling(w) && o in w.objects
    ensures DestroyObjectStep(w, o)
         == w.(heap := Gone(w.heap, w.objects[o].entries, 0, |w.objects[o].entries|), objects := w.objects - {o})
  {
    DropStretch(w, o, set p | p in w.objects[o].entries, 0, |w.objects[o].entries|);
  }

  lemma {:induction false} ScheduledSame(w: World, o: ObjectId, obj: EventableObject, e: NewEvent, acquired: bool)
    requires o in w.objects && obj.holder.Some? && obj.holder.value in w.holders
    requires forall p :: p in obj.entries ==> p in w.heap
    ensures var w1 := w.(objects := w.objects[o := obj]);
      Scheduled(w1, o, obj, obj.currentInstance, obj.holder.value, e, acquired)
        == Scheduled(w, o, obj, obj.currentInstance, obj.holder.value, e, acquired)
  {
  }

  ghost function ZeroInstance(heap: map<Ptr, TimedEvent>, s: seq<Ptr>): map<Ptr, TimedEvent> {
    map p | p in heap :: if p in s then heap[p].(instanceId := 0) else heap[p]
  }

  lemma {:induction false} OnlyMore(s: seq<Ptr>, i: nat, d: set<Ptr>)
    requires i < |s|
    ensures Only(s[..i + 1], d) == Only(s[..i], d) + (if s[i] in d then [s[i]] else [])
  {
    assert s[..i + 1] == s[..i] + [s[i]];
    WithoutConcat(s[..i], [s[i]], d);
  }

  /** The live events of `s[..i]` have been handed over. */
  ghost predicate HandedOver(h0: map<Ptr, TimedEvent>, ho0: Holder, s: seq<Ptr>, i: nat, acquired: bool,
                             heap: map<Ptr, TimedEvent>, ho: Holder)
    requires i <= |s|
  {
    var moved := Only(s[..i], LiveSet(h0, s));
    heap == Retained(h0, multiset(moved), ho0.instance) && ho == Pushed(ho0, moved, acquired)
  }

  lemma {:induction false} HandStep(h0: map<Ptr, TimedEvent>, ho0: Holder, s: seq<Ptr>, i: nat, acquired: bool,
                 heap: map<Ptr, TimedEvent>, ho: Holder)
    requires i < |s| && s[i] in h0 && HandedOver(h0, ho0, s, i, acquired, heap, ho)
    ensures s[i] in heap && ho.instance == ho0.instance
    ensures heap[s[i]].deleted ==> HandedOver(h0, ho0, s, i + 1, acquired, heap, ho)
    ensures !heap[s[i]].deleted ==>
      HandedOver(h0, ho0, s, i + 1, acquired, Taken(heap, s[i], ho.instance), Pushed(ho, [s[i]], acquired))
  {
    var moved, p := Only(s[..i], LiveSet(h0, s)), s[i];
    OnlyMore(s, i, LiveSet(h0, s));
    RetainDeleted(h0, moved, ho0.instance, p);
    if !heap[p].deleted {
      assert Only(s[..i + 1], LiveSet(h0, s)) == moved + [p];
      RetainMore(h0, moved, ho0.instance, p);
      PushMore(ho0, moved, p, acquired);
    } else {
      assert Only(s[..i + 1], LiveSet(h0, s)) == moved;
    }
  }

  lemma {:induction false} HandNone(h0: map<Ptr, TimedEvent>, ho0: Holder, s: seq<Ptr>, acquired: bool)
    ensures HandedOver(h0, ho0, s, 0, acquired, h0, ho0)
  {
    RetainNone(h0, ho0.instance);
    assert s[..0] == [] && ho0.entries + [] == ho0.entries && ho0.insertPool + [] == ho0.insertPool;
  }

  ghost function Taken(heap: map<Ptr, TimedEvent>, p: Ptr, id: int): map<Ptr, TimedEvent>
    requires p in heap
  {
    heap[p := heap[p].(ref := heap[p].ref + 1, instanceId := id)]
  }

  lemma {:induction false} RetainNone(h0: map<Ptr, TimedEvent>, id: int)
    ensures Retained(h0, multiset([]), id) == h0
  {
  }

  lemma {:induction false} RetainDeleted(h0: map<Ptr, TimedEvent>, moved: seq<Ptr>, id: int, p: Ptr)
    requires p in h0
    ensures p in Retained(h0, multiset(moved), id) && Retained(h0, multiset(moved), id)[p].deleted == h0[p].deleted
  {
  }

  lemma {:induction false} RetainMore(h0: map<Ptr, TimedEvent>, moved: seq<Ptr>, id: int, p: Ptr)
    requires p in h0
    ensures Retained(h0, multiset(moved + [p]), id) == Taken(Retained(h0, multiset(moved), id), p, id)
  {
  }

  lemma {:induction false} PushMore(ho: Holder, moved: seq<Ptr>, p: Ptr, acquired: bool)
    ensures Pushed(ho, moved + [p], acquired) == Pushed(Pushed(ho, moved, acquired), [p], acquired)
  {
    assert ho.entries + (moved + [p]) == ho.entries + moved + [p];
    assert ho.insertPool + (moved + [p]) == ho.insertPool + moved + [p];
  }

  lemma {:induction false} DroppedNone(w: World, o: ObjectId)
    requires o in w.objects && Retirable(w.heap, w.objects[o].entries)
    ensures Dropped(w, o, 0, 0) == w
  {
    var s := w.objects[o].entries;
    GoneNone(w.heap, s, 0);
    assert s[..0] + s[0..] == s;
    assert w.objects[o := w.objects[o].(entries := s)] == w.objects;
  }

  /** The time left of the first event of type `t` in `s` that is not deleted. */
  function LiveTimeLeft(heap: map<Ptr, TimedEvent>, s: seq<Ptr>, t: nat): Option<int>
    requires forall p :: p in s ==> p in heap
  {
    if s == [] then None
    else if heap[s[0]].eventType == t && !heap[s[0]].deleted then Some(heap[s[0]].currTime)
    else LiveTimeLeft(heap, s[1..], t)
  }

  /** The answer is that of the first live event of the type, and there is none exactly if there is no such event. */
  lemma {:induction false} TimeLeftOfFirst(heap: map<Ptr, TimedEvent>, s: seq<Ptr>, t: nat, i: nat)
    requires (forall p :: p in s ==> p in heap) && i <= |s|
    requires forall k :: 0 <= k < i ==> heap[s[k]].eventType != t || heap[s[k]].deleted
    requires i < |s| ==> heap[s[i]].eventType == t && !heap[s[i]].deleted
    ensures LiveTimeLeft(heap, s, t) == if i < |s| then Some(heap[s[i]].currTime) else None
    decreases |s|
  {
    if i > 0 {
      assert forall k :: 0 <= k < |s[1..]| ==> s[1..][k] == s[k + 1];
      TimeLeftOfFirst(heap, s[1..], t, i - 1);
    }
  }

  lemma {:induction false} FirstLiveIs(heap: map<Ptr, TimedEvent>, s: seq<Ptr>, t: nat, lo: nat, hi: nat, itr: nat)
    requires forall p :: p in s ==> p in heap
    requires lo <= itr <= hi <= |s|
    requires forall k :: 0 <= k < |s| ==> (heap[s[k]].eventType == t <==> lo <= k < hi)
    requires forall k :: lo <= k < itr ==> heap[s[k]].deleted
    requires itr < hi ==> !heap[s[itr]].deleted
    ensures LiveTimeLeft(heap, s, t) == if itr < hi then Some(heap[s[itr]].currTime) else None
    decreases |s|
  {
    if s != [] && !(lo <= 0 < hi && !heap[s[0]].deleted) {
      var s' := s[1..];
      forall k | 0 <= k < |s'| ensures s'[k] == s[k + 1] {}
      if hi > 0 {
        FirstLiveIs(heap, s', t, if lo > 0 then lo - 1 else 0, hi - 1, if itr > 0 then itr - 1 else 0);
      } else {
        FirstLiveIs(heap, s', t, 0, 0, 0);
      }
    }
  }

  lemma {:induction false} PointerFound(w: World, o: ObjectId, itr: nat)
    requires o in w.objects && itr < |w.objects[o].entries| && Retirable(w.heap, w.objects[o].entries)
    ensures DropFromObject(w, o, {w.objects[o].entries[itr]}) == Dropped(w, o, itr, itr + 1)
  {
    NowhereElse(w.heap, w.objects[o].entries, itr);
    DropStretch(w, o, {w.objects[o].entries[itr]}, itr, itr + 1);
  }

  lemma {:induction false} PointerMissing(heap: map<Ptr, TimedEvent>, s: seq<Ptr>, ev: Ptr, lo: nat, hi: nat)
    requires ev in heap && forall k :: 0 <= k < |s| ==> s[k] in heap
    requires Retirable(heap, s) && Sorted(heap, s) && TypeRange(heap, s, heap[ev].eventType, lo, hi)
    requires forall k :: lo <= k < hi ==> s[k] != ev
    ensures forall k :: 0 <= k < |s| ==> s[k] != ev
  {
    TypeRangeMembers(heap, s, heap[ev].eventType, lo, hi);
  }

  lemma {:induction false} PointerDropped(w: World, o: ObjectId, ev: Ptr, lo: nat, hi: nat, itr: nat)
    requires o in w.objects && ev in w.heap
    requires Retirable(w.heap, w.objects[o].entries) && Sorted(w.heap, w.objects[o].entries)
    requires TypeRange(w.heap, w.objects[o].entries, w.heap[ev].eventType, lo, hi) && lo <= itr <= hi
    requires forall k :: lo <= k < itr ==> w.objects[o].entries[k] != ev
    requires itr < hi ==> w.objects[o].entries[itr] == ev
    ensures DropFromObject(w, o, {ev}) == if itr < hi then Dropped(w, o, itr, itr + 1) else Dropped(w, o, 0, 0)
  {
    if itr < hi {
      PointerFound(w, o, itr);
    } else {
      PointerMissing(w.heap, w.objects[o].entries, ev, lo, hi);
      DropStretch(w, o, {ev}, 0, 0);
    }
  }

  lemma {:induction false} NowhereElse(heap: map<Ptr, TimedEvent>, s: seq<Ptr>, itr: nat)
    requires Retirable(heap, s) && itr < |s|
    ensures forall k :: 0 <= k < |s| ==> (s[k] == s[itr] <==> k == itr)
  {
    forall k | 0 <= k < |s| && k != itr ensures s[k] != s[itr] {
      OnceOnly(s, k, itr);
    }
  }

  lemma {:induction false} OnceOnly(s: seq<Ptr>, j: nat, k: nat)
    requires j < |s| && k < |s| && j != k && multiset(s)[s[k]] <= 1 && multiset(s)[s[j]] <= 1
    ensures s[j] != s[k]
  {
    var i, m := if j < k then j else k, if j < k then k else j;
    CountAt(s, i, m);
    assert s[i..m][0] == s[i];
  }

  ghost function EditedRange(h0: map<Ptr, TimedEvent>, s: seq<Ptr>, lo: nat, k: nat, edit: TimeEdit): map<Ptr, TimedEvent>
    requires lo <= k <= |s|
  {
    map p | p in h0 :: if p in s[lo..k] then Edited(h0[p], edit) else h0[p]
  }

  lemma {:induction false} EditNone(h0: map<Ptr, TimedEvent>, s: seq<Ptr>, lo: nat, edit: TimeEdit)
    requires lo <= |s|
    ensures EditedRange(h0, s, lo, lo, edit) == h0
  {
  }

  lemma {:induction false} EditMore(h0: map<Ptr, TimedEvent>, s: seq<Ptr>, lo: nat, k: nat, edit: TimeEdit)
    requires Retirable(h0, s) && lo <= k < |s|
    ensures s[k] in EditedRange(h0, s, lo, k, edit) && EditedRange(h0, s, lo, k, edit)[s[k]] == h0[s[k]]
    ensures EditedRange(h0, s, lo, k + 1, edit) == EditedRange(h0, s, lo, k, edit)[s[k] := Edited(h0[s[k]], edit)]
  {
    CountAt(s, lo, k);
    assert s[lo..k + 1] == s[lo..k] + [s[k]];
  }

  lemma {:induction false} EditAll(h0: map<Ptr, TimedEvent>, s: seq<Ptr>, t: nat, lo: nat, hi: nat, edit: TimeEdit)
    requires lo <= hi <= |s| && forall k :: 0 <= k < |s| ==> s[k] in h0
    requires forall k :: 0 <= k < |s| ==> (h0[s[k]].eventType == t <==> lo <= k < hi)
    ensures EditedRange(h0, s, lo, hi, edit)
         == map p | p in h0 :: if p in s && h0[p].eventType == t then Edited(h0[p], edit) else h0[p]
  {
    forall p | p in h0 ensures p in s[lo..hi] <==> p in s && h0[p].eventType == t {
      if p in s && h0[p].eventType == t {
        var k :| 0 <= k < |s| && s[k] == p;
        assert s[lo..hi][k - lo] == p;
      }
    }
  }

  lemma {:induction false} SoundRetirable(w: World, o: ObjectId)
    requires Sound(w) && o in w.objects
    ensures Retirable(w.heap, w.objects[o].entries) && Sorted(w.heap, w.objects[o].entries)
  {
    assert NoRepeats(w.objects) && AllSorted(w.heap, w.objects);
  }

  /** `lo` and `hi` delimit the events of type `t`. */
  ghost predicate TypeRange(heap: map<Ptr, TimedEvent>, s: seq<Ptr>, t: nat, lo: nat, hi: nat)
    requires forall k :: 0 <= k < |s| ==> s[k] in heap
  {
    && lo <= hi <= |s|
    && (forall k :: 0 <= k < lo ==> heap[s[k]].eventType < t)
    && (forall k :: lo <= k < hi ==> heap[s[k]].eventType == t)
    && (forall k :: lo <= k < |s| ==> heap[s[k]].eventType >= t)
    && (hi < |s| ==> heap[s[hi]].eventType != t)
  }

  lemma {:induction false} TypeRangeMembers(heap: map<Ptr, TimedEvent>, s: seq<Ptr>, t: nat, lo: nat, hi: nat)
    requires Retirable(heap, s) && Sorted(heap, s) && TypeRange(heap, s, t, lo, hi)
    ensures forall k :: 0 <= k < |s| ==> (heap[s[k]].eventType == t <==> lo <= k < hi)
  {
    forall k | hi <= k < |s| ensures heap[s[k]].eventType != t {
      assert heap[s[hi]].eventType <= heap[s[k]].eventType;
    }
  }

  /** The range found by type is exactly the set of events of that type. */
  lemma {:induction false} RangeDropped(w: World, o: ObjectId, t: nat, lo: nat, hi: nat)
    requires NoDangling(w) && o in w.objects && Retirable(w.heap, w.objects[o].entries)
    requires Sorted(w.heap, w.objects[o].entries) && lo <= hi <= |w.objects[o].entries|
    requires t == EVENT_REMOVAL_FLAG_ALL ==> lo == 0 && hi == |w.objects[o].entries|
    requires t != EVENT_REMOVAL_FLAG_ALL ==> TypeRange(w.heap, w.objects[o].entries, t, lo, hi)
    ensures DropFromObject(w, o, OfType(w, o, t)) == Dropped(w, o, lo, hi)
  {
    var s := w.objects[o].entries;
    if t != EVENT_REMOVAL_FLAG_ALL { TypeRangeMembers(w.heap, s, t, lo, hi); }
    DropStretch(w, o, OfType(w, o, t), lo, hi);
  }

  ghost function Dropped(w: World, o: ObjectId, lo: nat, hi: nat): World
    requires o in w.objects && lo <= hi <= |w.objects[o].entries|
  {
    var s := w.objects[o].entries;
    w.(heap := Gone(w.heap, s, lo, hi), objects := w.objects[o := w.objects[o].(entries := s[..lo] + s[hi..])])
  }

  lemma {:induction false} DropStretch(w: World, o: ObjectId, d: set<Ptr>, lo: nat, hi: nat)
    requires o in w.objects && lo <= hi <= |w.objects[o].entries|
    requires var s := w.objects[o].entries; forall k :: 0 <= k < |s| ==> (s[k] in d <==> lo <= k < hi)
    ensures DropFromObject(w, o, d) == Dropped(w, o, lo, hi)
  {
    var s := w.objects[o].entries;
    WithoutStretch(s, lo, hi, d);
    assert d * (set p | p in s) == Marked(s[lo..hi]) by {
      assert forall p :: p in s[lo..hi] ==> exists k :: lo <= k < hi && s[k] == p;
      assert forall k :: lo <= k < hi ==> s[lo..hi][k - lo] == s[k];
    }
  }
}
