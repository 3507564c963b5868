/**
 When an event fires. Every step that leaves the event alone and does not end it keeps
 its firings in pace with the time its holder's passes were given.
 */
module TimedEventTiming {
  import opened TimedEvents
  import opened TimedEventSafety
  import opened TimedEventRuns
  import opened TimedEventPlacement

  /** The nodes the pass has still to visit. */
  function Rest(ho: Holder): seq<Ptr> {
    if ho.pass.Idle? || ho.pass.itr.End? || ho.pass.itr.index > |ho.entries| then []
    else ho.entries[ho.pass.itr.index..]
  }

  ghost predicate Has(ho: Holder, p: Ptr) {
    Holds(ho, p) || (ho.pass.Detached? && ho.pass.ev == p)
  }

  /** Exactly one entry for `p`; between passes it may still be in the pool. */
  ghost predicate OneEntry(ho: Holder, p: Ptr) {
    && multiset(ho.entries)[p] + multiset(ho.insertPool)[p] == 1
    && (ho.pass.Idle? || p in ho.entries)
    && !(ho.pass.Detached? && ho.pass.ev == p)
  }

  ghost predicate InOwnCallback(ho: Holder, p: Ptr) {
    ho.pass.InCallback? && ho.pass.it2 < |ho.entries| && ho.entries[ho.pass.it2] == p
  }

  /** `p` is alive with the given period, however often it repeats, and its only entry is in holder `h`. */
  ghost predicate Ticking(w: World, h: HolderId, p: Ptr, period: nat) {
    && h in w.holders && p in w.heap
    && Periodic(w.heap[p], period, w.holders[h].instance)
    && OneEntry(w.holders[h], p)
    && (forall g :: g in w.holders && g != h ==> !Has(w.holders[g], p))
  }

  ghost predicate Periodic(e: TimedEvent, period: nat, id: int) {
    && !e.deleted && e.msTime == period && !e.DeletesObject() && e.instanceId == id && e.ref > 0
  }

  /** Time counted since the last firing. */
  function Since(ho: Holder, p: Ptr, e: TimedEvent): int {
    if ho.pass.InCallback? && ho.pass.it2 < |ho.entries| && ho.entries[ho.pass.it2] == p then 0 else e.msTime - e.currTime
  }

  /** Time of a pass that has begun but has not reached `p` yet. */
  function Pending(ho: Holder, p: Ptr): int {
    if p in Rest(ho) then ho.pass.dt else 0
  }

  /** `fired` firings and `c` time units since the last one, after `seen` time units. */
  ghost predicate InStep(period: int, limit: int, fired: nat, seen: int, c: int) {
    0 <= c < period && fired * period + c <= seen <= fired * (period - 1 + limit) + c
  }

  ghost predicate OnTime(w: World, h: HolderId, p: Ptr, period: nat, limit: nat, fired: nat, given: int) {
    && Ticking(w, h, p, period)
    && (!w.holders[h].pass.Idle? ==> 0 <= w.holders[h].pass.dt <= limit)
    && InStep(period, limit, fired, given - Pending(w.holders[h], p), Since(w.holders[h], p, w.heap[p]))
  }

  /** A step that could take `p` away, or change its timer or its place. */
  ghost predicate Touches(w: World, op: Op, h: HolderId, p: Ptr) {
    match op
    case OfObject(o, oop) => p in w.heap && o == w.heap[p].obj && (match oop
      case NewObject => false
      case DestroyObject => true
      case AddEvent(_, _, _) => false
      case RemoveByPointer(q) => q == p
      case RemoveEvents(t) => t == EVENT_REMOVAL_FLAG_ALL || t == w.heap[p].eventType
      case Modify(t, _) => t == w.heap[p].eventType
      case Relocate(_, _) => true)
    case OfHolder(g, hop) => g == h && hop.DestroyHolder?
  }

  ghost predicate Bounded(op: Op, h: HolderId, limit: nat) {
    op.OfHolder? && op.h == h && op.hop.BeginUpdate? ==> 0 <= op.hop.dt <= limit
  }

  /** The time a step gives to holder `h`. */
  function Given(op: Op, h: HolderId): int {
    if op.OfHolder? && op.h == h && op.hop.BeginUpdate? then op.hop.dt else 0
  }

  /** Whether this step starts the callback of `p`. */
  function Fires(w: World, op: Op, p: Ptr): nat {
    if op.OfHolder? && op.hop.Visit? && op.h in w.holders
       && w.holders[op.h].pass.Looping? && w.holders[op.h].pass.itr.At?
       && w.holders[op.h].pass.itr.index < |w.holders[op.h].entries|
       && w.holders[op.h].entries[w.holders[op.h].pass.itr.index] == p && p in w.heap
       && !Stale(w.heap, p, w.holders[op.h].instance) && w.heap[p].currTime <= w.holders[op.h].pass.dt
    then 1 else 0
  }

  // ---------- other objects and holders ----------

  lemma {:induction false} NotDropped(heap: map<Ptr, TimedEvent>, s: seq<Ptr>, d: set<Ptr>, kill: set<Ptr>, p: Ptr)
    requires p in heap && heap[p].ref > 0 && (p !in s || p !in d) && p !in kill
    ensures var heap' := Released(heap, multiset(Only(s, d)), kill); p in heap' && heap'[p] == heap[p]
  {
    SplitCounts(s, d);
  }

  lemma {:induction false} ObjectStepKeeps(w: World, o: ObjectId, op: ObjectOp, h: HolderId, p: Ptr)
    requires NoDangling(w) && Fresh(w) && OwnEvents(w.heap, w.objects) && ObjectEnabled(w, o, op)
    requires p in w.heap && w.heap[p].ref > 0 && !Touches(w, OfObject(o, op), h, p)
    ensures p in ObjectStep(w, o, op).heap && ObjectStep(w, o, op).heap[p] == w.heap[p]
  {
    match op
    case NewObject =>
    case DestroyObject =>
      var all := set q | q in w.objects[o].entries;
      NotDropped(w.heap, w.objects[o].entries, all, all * (set q | q in w.objects[o].entries), p);
    case AddEvent(inst, e, acquired) =>
    case RemoveByPointer(q) =>
      NotDropped(w.heap, w.objects[o].entries, {q}, {q} * (set r | r in w.objects[o].entries), p);
    case RemoveEvents(t) =>
      NotDropped(w.heap, w.objects[o].entries, OfType(w, o, t), OfType(w, o, t) * (set r | r in w.objects[o].entries), p);
    case Modify(t, edit) =>
    case Relocate(inst, acquired) =>
      OnlyIn(w.objects[o].entries, LiveSet(w.heap, w.objects[o].entries));
  }

  /** The list and pool may have grown, but not by `p`. */
  ghost predicate GrownWithout(ho: Holder, ho': Holder, p: Ptr) {
    && Appended(ho, ho')
    && p !in ho'.entries[|ho.entries|..] && p !in ho'.insertPool[|ho.insertPool|..]
  }

  lemma {:induction false} ObjectStepGrows(w: World, o: ObjectId, op: ObjectOp, h: HolderId, p: Ptr, g: HolderId)
    requires NoDangling(w) && Fresh(w) && OwnEvents(w.heap, w.objects) && ObjectEnabled(w, o, op) && g in w.holders
    requires p in w.heap && !Touches(w, OfObject(o, op), h, p)
    ensures g in ObjectStep(w, o, op).holders && GrownWithout(w.holders[g], ObjectStep(w, o, op).holders[g], p)
  {
    match op
    case NewObject =>
    case DestroyObject =>
    case AddEvent(inst, e, acquired) =>
    case RemoveByPointer(q) =>
    case RemoveEvents(t) =>
    case Modify(t, edit) =>
    case Relocate(inst, acquired) => MoveGrows(w, o, inst, acquired, p, g);
  }

  lemma {:induction false} MoveGrows(w: World, o: ObjectId, inst: int, acquired: bool, p: Ptr, g: HolderId)
    requires NoDangling(w) && OwnEvents(w.heap, w.objects) && o in w.objects && g in w.holders
    requires p in w.heap && w.heap[p].obj != o
    ensures g in RelocateStep(w, o, inst, acquired).holders
    ensures GrownWithout(w.holders[g], RelocateStep(w, o, inst, acquired).holders[g], p)
  {
    var s := w.objects[o].entries;
    OnlyIn(s, LiveSet(w.heap, s));
    assert p !in multiset(Movable(w, o));
    assert p !in Movable(w, o);
  }

  lemma {:induction false} GrownEntry(ho: Holder, ho': Holder, p: Ptr, e: TimedEvent)
    requires GrownWithout(ho, ho', p) && OneEntry(ho, p) && PassOk(ho)
    ensures OneEntry(ho', p) && Pending(ho', p) == Pending(ho, p) && Since(ho', p, e) == Since(ho, p, e)
  {
    assert ho'.entries == ho.entries + ho'.entries[|ho.entries|..];
    assert ho'.insertPool == ho.insertPool + ho'.insertPool[|ho.insertPool|..];
    if !ho.pass.Idle? && ho.pass.itr.At? {
      assert Rest(ho') == Rest(ho) + ho'.entries[|ho.entries|..];
    }
  }

  lemma {:induction false} GrownHas(ho: Holder, ho': Holder, p: Ptr)
    requires GrownWithout(ho, ho', p) && !Has(ho, p)
    ensures !Has(ho', p)
  {
    assert ho'.entries == ho.entries + ho'.entries[|ho.entries|..];
    assert ho'.insertPool == ho.insertPool + ho'.insertPool[|ho.insertPool|..];
  }

  lemma {:induction false} ObjectStepOnTime(w: World, o: ObjectId, op: ObjectOp, h: HolderId, p: Ptr, period: nat, limit: nat, fired: nat, given: int)
    requires NoDangling(w) && Fresh(w) && OwnEvents(w.heap, w.objects)
    requires ObjectEnabled(w, o, op) && !Touches(w, OfObject(o, op), h, p)
    requires OnTime(w, h, p, period, limit, fired, given)
    ensures OnTime(ObjectStep(w, o, op), h, p, period, limit, fired, given)
  {
    var w' := ObjectStep(w, o, op);
    ObjectStepKeeps(w, o, op, h, p);
    ObjectStepGrows(w, o, op, h, p, h);
    GrownEntry(w.holders[h], w'.holders[h], p, w.heap[p]);
    ObjectStepHolders(w, o, op);
    forall g | g in w'.holders && g != h ensures !Has(w'.holders[g], p) {
      ObjectStepGrows(w, o, op, h, p, g);
      GrownHas(w.holders[g], w'.holders[g], p);
    }
  }

  lemma {:induction false} ObjectStepHolders(w: World, o: ObjectId, op: ObjectOp)
    requires NoDangling(w) && ObjectEnabled(w, o, op)
    ensures ObjectStep(w, o, op).holders.Keys == w.holders.Keys
  {
    match op
    case NewObject =>
    case DestroyObject =>
    case AddEvent(inst, e, acquired) =>
    case RemoveByPointer(q) =>
    case RemoveEvents(t) =>
    case Modify(t, edit) =>
    case Relocate(inst, acquired) =>
  }

  /** `p` is on time after a step that left its event, its entry and its clock alone. */
  lemma {:induction false} OnTimeCarries(w: World, w': World, h: HolderId, p: Ptr, period: nat, limit: nat, fired: nat, given: int, more: int)
    requires OnTime(w, h, p, period, limit, fired, given) && h in w'.holders
    requires p in w'.heap && w'.heap[p] == w.heap[p] && OneEntry(w'.holders[h], p)
    requires w'.holders[h].instance == w.holders[h].instance
    requires forall g :: g in w'.holders && g != h ==> !Has(w'.holders[g], p)
    requires !w'.holders[h].pass.Idle? ==> 0 <= w'.holders[h].pass.dt <= limit
    requires Since(w'.holders[h], p, w.heap[p]) == Since(w.holders[h], p, w.heap[p])
    requires Pending(w'.holders[h], p) == Pending(w.holders[h], p) + more
    ensures OnTime(w', h, p, period, limit, fired, given + more)
  {
  }

  lemma {:induction false} ElsewhereKeeps(w: World, g: HolderId, op: HolderOp, p: Ptr)
    requires NoDangling(w) && HolderEnabled(w, g, op)
    requires p in w.heap && w.heap[p].ref > 0 && (g in w.holders ==> !Has(w.holders[g], p))
    ensures p in HolderStep(w, g, op).heap && HolderStep(w, g, op).heap[p] == w.heap[p]
  {
    match op
    case NewHolder(id) =>
    case DestroyHolder =>
    case BeginUpdate(dt) =>
      var ho := w.holders[g];
      NotDropped(w.heap, ho.insertPool, set q | q in ho.insertPool && Stale(w.heap, q, ho.instance), {}, p);
    case Visit =>
    case Return =>
    case EndUpdate =>
  }

  lemma {:induction false} ElsewhereHasNot(w: World, g: HolderId, op: HolderOp, p: Ptr)
    requires NoDangling(w) && HolderEnabled(w, g, op) && (g in w.holders ==> !Has(w.holders[g], p))
    ensures g in HolderStep(w, g, op).holders ==> !Has(HolderStep(w, g, op).holders[g], p)
  {
    match op
    case NewHolder(id) =>
    case DestroyHolder =>
    case BeginUpdate(dt) =>
      var ho := w.holders[g];
      WithoutKeeps(ho.insertPool, set q | q in ho.insertPool && Stale(w.heap, q, ho.instance));
    case Visit => EraseKeeps(w.holders[g].entries, w.holders[g].pass.itr.index);
    case Return =>
      if w.holders[g].pass.InCallback? { EraseKeeps(w.holders[g].entries, w.holders[g].pass.it2); }
    case EndUpdate =>
  }

  lemma {:induction false} HolderStepKeys(w: World, g: HolderId, op: HolderOp)
    requires NoDangling(w) && HolderEnabled(w, g, op)
    ensures HolderStep(w, g, op).holders.Keys - {g} == w.holders.Keys - {g}
  {
    match op
    case NewHolder(id) =>
    case DestroyHolder =>
    case BeginUpdate(dt) =>
    case Visit =>
    case Return =>
    case EndUpdate =>
  }

  lemma {:induction false} OthersStayOut(w: World, g: HolderId, op: HolderOp, h: HolderId, p: Ptr)
    requires NoDangling(w) && HolderEnabled(w, g, op)
    requires forall x :: x in w.holders && x != h ==> !Has(w.holders[x], p)
    ensures forall x :: x in HolderStep(w, g, op).holders && x != h ==> !Has(HolderStep(w, g, op).holders[x], p)
  {
    HolderStepKeys(w, g, op);
    forall x | x in HolderStep(w, g, op).holders && x != h ensures !Has(HolderStep(w, g, op).holders[x], p) {
      if x == g {
        ElsewhereHasNot(w, g, op, p);
      } else {
        assert x in HolderStep(w, g, op).holders.Keys - {g};
        HolderStepElsewhere(w, g, op, x);
      }
    }
  }

  lemma {:induction false} ElsewhereOnTime(w: World, g: HolderId, op: HolderOp, h: HolderId, p: Ptr, period: nat, limit: nat, fired: nat, given: int)
    requires NoDangling(w) && HolderEnabled(w, g, op) && g != h
    requires OnTime(w, h, p, period, limit, fired, given)
    ensures OnTime(HolderStep(w, g, op), h, p, period, limit, fired, given)
  {
    ElsewhereKeeps(w, g, op, p);
    HolderStepElsewhere(w, g, op, h);
    OthersStayOut(w, g, op, h, p);
  }

  // ---------- the event's own holder ----------

  lemma {:induction false} BeginKeeps(w: World, h: HolderId, dt: int, p: Ptr)
    requires NoDangling(w) && HolderEnabled(w, h, BeginUpdate(dt)) && p in w.heap
    requires !Stale(w.heap, p, w.holders[h].instance) && w.heap[p].ref > 0 && OneEntry(w.holders[h], p)
    ensures var w' := BeginStep(w, h, dt);
      && p in w'.heap && w'.heap[p] == w.heap[p] && OneEntry(w'.holders[h], p) && Pending(w'.holders[h], p) == dt
  {
    var ho := w.holders[h];
    var dead := set q | q in ho.insertPool && Stale(w.heap, q, ho.instance);
    NotDropped(w.heap, ho.insertPool, dead, {}, p);
    BeginEntry(ho, BeginStep(w, h, dt).holders[h], dead, dt, p);
  }

  lemma {:induction false} BeginOnTime(w: World, h: HolderId, dt: int, p: Ptr, period: nat, limit: nat, fired: nat, given: int)
    requires NoDangling(w) && HolderEnabled(w, h, BeginUpdate(dt)) && 0 <= dt <= limit
    requires OnTime(w, h, p, period, limit, fired, given)
    ensures OnTime(BeginStep(w, h, dt), h, p, period, limit, fired, given + dt)
  {
    BeginKeeps(w, h, dt, p);
    OthersStayOut(w, h, BeginUpdate(dt), h, p);
    OnTimeCarries(w, BeginStep(w, h, dt), h, p, period, limit, fired, given, dt);
  }

  lemma {:induction false} BeginEntry(ho: Holder, ho': Holder, dead: set<Ptr>, dt: int, p: Ptr)
    requires ho.pass.Idle? && OneEntry(ho, p) && p !in dead
    requires var s := ho.entries + Without(ho.insertPool, dead);
      ho' == ho.(entries := s, insertPool := [], pass := Looping(dt, First(s)))
    ensures OneEntry(ho', p) && Pending(ho', p) == dt
  {
    SplitCounts(ho.insertPool, dead);
    var s := ho.entries + Without(ho.insertPool, dead);
    assert p in multiset(s);
    assert Rest(ho') == s;
  }

  lemma {:induction false} EndOnTime(w: World, h: HolderId, p: Ptr, period: nat, limit: nat, fired: nat, given: int)
    requires NoDangling(w) && HolderEnabled(w, h, EndUpdate)
    requires OnTime(w, h, p, period, limit, fired, given)
    ensures OnTime(HolderStep(w, h, EndUpdate), h, p, period, limit, fired, given)
  {
    OthersStayOut(w, h, EndUpdate, h, p);
  }

  /** A visit moves one node from what is left to what is done. */
  lemma {:induction false} VisitRest(s: seq<Ptr>, i: nat, p: Ptr)
    requires i < |s| && s[i] != p
    ensures p in s[i..] <==> p in s[i + 1..]
    ensures multiset(Erase(s, i))[p] == multiset(s)[p]
  {
    assert s[i..] == [s[i]] + s[i + 1..];
    EraseCounts(s, i);
  }

  lemma {:induction false} OnceAt(s: seq<Ptr>, i: nat, p: Ptr)
    requires i < |s| && s[i] == p && multiset(s)[p] == 1
    ensures p !in s[..i] && p !in s[i + 1..]
  {
    assert s == s[..i] + [s[i]] + s[i + 1..];
    assert multiset(s)[p] == multiset(s[..i])[p] + 1 + multiset(s[i + 1..])[p];
  }

  /** The holder after its node at `i` has been visited: kept or unlinked, the pass beyond it. */
  ghost predicate PastNode(ho: Holder, ho': Holder, i: nat) {
    && i < |ho.entries| && ho.pass.Looping? && ho.pass.itr == At(i)
    && (ho'.pass.Looping? || ho'.pass.InCallback? || ho'.pass.Detached?) && ho'.pass.dt == ho.pass.dt
    && ho'.insertPool == ho.insertPool && ho'.instance == ho.instance
    && (ho'.pass.InCallback? ==> ho'.pass.it2 == i && ho'.entries == ho.entries)
    && (ho'.pass.Detached? ==> ho'.pass.ev == ho.entries[i])
    && ((ho'.entries == ho.entries && ho'.pass.itr == Next(ho.entries, i))
        || (ho'.entries == Erase(ho.entries, i) && ho'.pass.itr == Shifted(Next(ho.entries, i))))
  }

  lemma {:induction false} VisitPast(w: World, h: HolderId)
    requires NoDangling(w) && HolderEnabled(w, h, Visit)
    ensures PastNode(w.holders[h], VisitStep(w, h).holders[h], w.holders[h].pass.itr.index)
  {
  }

  lemma {:induction false} PastRest(ho: Holder, ho': Holder, i: nat)
    requires PastNode(ho, ho', i)
    ensures Rest(ho') == ho.entries[i + 1..] && Rest(ho) == ho.entries[i..]
  {
  }

  lemma {:induction false} PastOther(ho: Holder, ho': Holder, i: nat, p: Ptr, e: TimedEvent)
    requires PastNode(ho, ho', i) && ho.entries[i] != p && OneEntry(ho, p)
    ensures OneEntry(ho', p) && Pending(ho', p) == Pending(ho, p) && Since(ho', p, e) == Since(ho, p, e)
  {
    VisitRest(ho.entries, i, p);
    PastRest(ho, ho', i);
    assert p in multiset(ho.entries);
    assert p in multiset(ho'.entries);
  }

  lemma {:induction false} VisitOtherKeeps(w: World, h: HolderId, p: Ptr)
    requires NoDangling(w) && HolderEnabled(w, h, Visit) && p in w.heap && w.heap[p].ref > 0
    requires w.holders[h].entries[w.holders[h].pass.itr.index] != p
    ensures p in VisitStep(w, h).heap && VisitStep(w, h).heap[p] == w.heap[p]
  {
  }

  /** A visit of some other node changes nothing for `p`. */
  lemma {:induction false} VisitOtherOnTime(w: World, h: HolderId, p: Ptr, period: nat, limit: nat, fired: nat, given: int)
    requires NoDangling(w) && HolderEnabled(w, h, Visit)
    requires w.holders[h].entries[w.holders[h].pass.itr.index] != p
    requires OnTime(w, h, p, period, limit, fired, given)
    ensures OnTime(VisitStep(w, h), h, p, period, limit, fired, given)
  {
    VisitPast(w, h);
    PastOther(w.holders[h], VisitStep(w, h).holders[h], w.holders[h].pass.itr.index, p, w.heap[p]);
    VisitOtherKeeps(w, h, p);
    OthersStayOut(w, h, Visit, h, p);
    OnTimeCarries(w, VisitStep(w, h), h, p, period, limit, fired, given, 0);
  }

  /** The visit of `p` itself: it fires or its time left shrinks. */
  lemma {:induction false} VisitItself(w: World, h: HolderId, p: Ptr, period: nat)
    requires NoDangling(w) && HolderEnabled(w, h, Visit) && Ticking(w, h, p, period)
    requires w.holders[h].entries[w.holders[h].pass.itr.index] == p
    ensures var ho, ho', e := w.holders[h], VisitStep(w, h).holders[h], w.heap[p];
      && Pending(ho, p) == ho.pass.dt && Since(ho, p, e) == period - e.currTime
      && p in VisitStep(w, h).heap && ho'.entries == ho.entries && ho'.insertPool == ho.insertPool
      && (if e.currTime <= ho.pass.dt
          then ho'.pass == InCallback(ho.pass.dt, ho.pass.itr.index, Next(ho.entries, ho.pass.itr.index))
               && VisitStep(w, h).heap[p] == e
          else ho'.pass == Looping(ho.pass.dt, Next(ho.entries, ho.pass.itr.index))
               && VisitStep(w, h).heap[p] == e.(currTime := e.currTime - ho.pass.dt))
  {
    var ho := w.holders[h];
    assert Rest(ho)[0] == p;
  }

  lemma {:induction false} InStepFire(period: nat, limit: nat, fired: nat, given: int, c: int, dt: int)
    requires InStep(period, limit, fired, given - dt, c) && period - c <= dt <= limit
    ensures InStep(period, limit, fired + 1, given, 0)
  {
    assert (fired + 1) * period == fired * period + period;
    assert (fired + 1) * (period - 1 + limit) == fired * (period - 1 + limit) + (period - 1 + limit);
  }

  lemma {:induction false} VisitItselfOnTime(w: World, h: HolderId, p: Ptr, period: nat, limit: nat, fired: nat, given: int)
    requires NoDangling(w) && HolderEnabled(w, h, Visit)
    requires w.holders[h].entries[w.holders[h].pass.itr.index] == p
    requires OnTime(w, h, p, period, limit, fired, given)
    ensures OnTime(VisitStep(w, h), h, p, period, limit,
                   fired + (if w.heap[p].currTime <= w.holders[h].pass.dt then 1 else 0), given)
  {
    var ho, e := w.holders[h], w.heap[p];
    var ho' := VisitStep(w, h).holders[h];
    VisitItself(w, h, p, period);
    OthersStayOut(w, h, Visit, h, p);
    OnceAt(ho.entries, ho.pass.itr.index, p);
    VisitPast(w, h);
    PastRest(ho, ho', ho.pass.itr.index);
    if e.currTime <= ho.pass.dt {
      InStepFire(period, limit, fired, given, period - e.currTime, ho.pass.dt);
    }
  }

  // ---------- after the callback ----------

  /** The step returns from the last callback that the repeat count of `p` allows. */
  ghost predicate Expires(w: World, op: Op, h: HolderId, p: Ptr) {
    op == OfHolder(h, Return) && h in w.holders && InOwnCallback(w.holders[h], p) && p in w.heap && w.heap[p].repeats == 1
  }

  lemma {:induction false} ReturnItselfOnTime(w: World, h: HolderId, p: Ptr, period: nat, limit: nat, fired: nat, given: int)
    requires NoDangling(w) && HolderEnabled(w, h, Return) && InOwnCallback(w.holders[h], p)
    requires OnTime(w, h, p, period, limit, fired, given) && w.heap[p].repeats != 1
    ensures OnTime(ReturnStep(w, h), h, p, period, limit, fired, given)
  {
    OthersStayOut(w, h, Return, h, p);
  }

  lemma {:induction false} ReturnOtherKeeps(w: World, h: HolderId, p: Ptr)
    requires NoDangling(w) && HolderEnabled(w, h, Return) && p in w.heap && w.heap[p].ref > 0
    requires !InOwnCallback(w.holders[h], p) && !(w.holders[h].pass.Detached? && w.holders[h].pass.ev == p)
    ensures p in ReturnStep(w, h).heap && ReturnStep(w, h).heap[p] == w.heap[p]
  {
  }

  /** Returning from a callback either only goes on with the loop or also unlinks the node just run. */
  lemma {:induction false} ReturnsOrUnlinks(w: World, h: HolderId)
    requires NoDangling(w) && HolderEnabled(w, h, Return)
    ensures var ho, ho' := w.holders[h], ReturnStep(w, h).holders[h];
      && PassOk(ho) && (ho.pass.InCallback? || ho.pass.Detached?)
      && (ho' == ho.(pass := Looping(ho.pass.dt, ho.pass.itr))
          || (ho.pass.InCallback? && ho' == Unlinked(ho, ho.pass.it2, Looping(ho.pass.dt, Shifted(ho.pass.itr)))))
  {
  }

  lemma {:induction false} ResumedEntry(ho: Holder, ho': Holder, p: Ptr)
    requires (ho.pass.InCallback? || ho.pass.Detached?) && ho' == ho.(pass := Looping(ho.pass.dt, ho.pass.itr)) && OneEntry(ho, p)
    ensures OneEntry(ho', p) && Pending(ho', p) == Pending(ho, p)
  {
  }

  lemma {:induction false} ReturnOtherEntry(w: World, h: HolderId, p: Ptr, e: TimedEvent)
    requires NoDangling(w) && HolderEnabled(w, h, Return) && OneEntry(w.holders[h], p)
    requires !InOwnCallback(w.holders[h], p)
    ensures var ho, ho' := w.holders[h], ReturnStep(w, h).holders[h];
      && OneEntry(ho', p) && Pending(ho', p) == Pending(ho, p) && Since(ho', p, e) == Since(ho, p, e)
      && !ho'.pass.Idle? && ho'.pass.dt == ho.pass.dt && ho'.instance == ho.instance
  {
    var ho, ho' := w.holders[h], ReturnStep(w, h).holders[h];
    ReturnsOrUnlinks(w, h);
    if ho' == ho.(pass := Looping(ho.pass.dt, ho.pass.itr)) {
      ResumedEntry(ho, ho', p);
    } else {
      RetiredEntry(ho, ho', p);
    }
  }

  lemma {:induction false} RetiredEntry(ho: Holder, ho': Holder, p: Ptr)
    requires ho.pass.InCallback? && PassOk(ho) && ho.entries[ho.pass.it2] != p && OneEntry(ho, p)
    requires ho' == Unlinked(ho, ho.pass.it2, Looping(ho.pass.dt, Shifted(ho.pass.itr)))
    ensures OneEntry(ho', p) && Pending(ho', p) == Pending(ho, p)
  {
    var s, i := ho.entries, ho.pass.it2;
    VisitRest(s, i, p);
    assert p in multiset(s);
    assert p in multiset(ho'.entries);
    if ho.pass.itr.At? {
      assert Rest(ho') == s[i + 1..] == Rest(ho);
    }
  }

  lemma {:induction false} ReturnStaysOut(w: World, h: HolderId, p: Ptr)
    requires NoDangling(w) && HolderEnabled(w, h, Return) && forall g :: g in w.holders && g != h ==> !Has(w.holders[g], p)
    ensures forall g :: g in ReturnStep(w, h).holders && g != h ==> !Has(ReturnStep(w, h).holders[g], p)
  {
  }

  lemma {:induction false} ReturnOtherOnTime(w: World, h: HolderId, p: Ptr, period: nat, limit: nat, fired: nat, given: int)
    requires NoDangling(w) && HolderEnabled(w, h, Return) && !InOwnCallback(w.holders[h], p)
    requires OnTime(w, h, p, period, limit, fired, given)
    ensures OnTime(ReturnStep(w, h), h, p, period, limit, fired, given)
  {
    ReturnOtherKeeps(w, h, p);
    ReturnOtherEntry(w, h, p, w.heap[p]);
    ReturnStaysOut(w, h, p);
    OnTimeCarries(w, ReturnStep(w, h), h, p, period, limit, fired, given, 0);
  }

  // ---------- whole runs ----------

  lemma {:induction false} VisitFires(w: World, h: HolderId, p: Ptr, period: nat, limit: nat, fired: nat, given: int)
    requires NoDangling(w) && HolderEnabled(w, h, Visit) && OnTime(w, h, p, period, limit, fired, given)
    ensures Fires(w, OfHolder(h, Visit), p) ==
      if w.holders[h].entries[w.holders[h].pass.itr.index] == p && w.heap[p].currTime <= w.holders[h].pass.dt then 1 else 0
  {
  }

  lemma {:induction false} OwnVisitOnTime(w: World, h: HolderId, p: Ptr, period: nat, limit: nat,
                         fired: nat, given: int, fired': nat)
    requires NoDangling(w) && HolderEnabled(w, h, Visit) && OnTime(w, h, p, period, limit, fired, given)
    requires fired' == fired + Fires(w, OfHolder(h, Visit), p)
    ensures OnTime(VisitStep(w, h), h, p, period, limit, fired', given)
  {
    VisitFires(w, h, p, period, limit, fired, given);
    if w.holders[h].entries[w.holders[h].pass.itr.index] == p {
      VisitItselfOnTime(w, h, p, period, limit, fired, given);
    } else {
      VisitOtherOnTime(w, h, p, period, limit, fired, given);
    }
  }

  lemma {:induction false} OwnReturnOnTime(w: World, h: HolderId, p: Ptr, period: nat, limit: nat, fired: nat, given: int)
    requires NoDangling(w) && HolderEnabled(w, h, Return) && OnTime(w, h, p, period, limit, fired, given)
    requires !Expires(w, OfHolder(h, Return), h, p)
    ensures OnTime(ReturnStep(w, h), h, p, period, limit, fired, given)
  {
    if InOwnCallback(w.holders[h], p) {
      ReturnItselfOnTime(w, h, p, period, limit, fired, given);
    } else {
      ReturnOtherOnTime(w, h, p, period, limit, fired, given);
    }
  }

  lemma {:induction false} ElsewhereAddsNothing(w: World, g: HolderId, op: HolderOp, h: HolderId, p: Ptr, period: nat, limit: nat,
                         fired: nat, given: int, fired': nat, given': int)
    requires NoDangling(w) && HolderEnabled(w, g, op) && g != h
    requires OnTime(w, h, p, period, limit, fired, given)
    requires Fires(w, OfHolder(g, op), p) == 0 && fired' == fired && given' == given
    ensures OnTime(HolderStep(w, g, op), h, p, period, limit, fired', given')
  {
    ElsewhereOnTime(w, g, op, h, p, period, limit, fired, given);
  }

  lemma {:induction false} OutsideHolder(w: World, g: HolderId, h: HolderId, p: Ptr, period: nat, limit: nat, fired: nat, given: int)
    requires OnTime(w, h, p, period, limit, fired, given) && g != h
    ensures g in w.holders ==> !Has(w.holders[g], p)
  {
  }

  lemma {:induction false} OwnBeginAdds(w: World, h: HolderId, dt: int, p: Ptr, period: nat, limit: nat, fired: nat, given: int, given': int)
    requires NoDangling(w) && HolderEnabled(w, h, BeginUpdate(dt)) && 0 <= dt <= limit
    requires OnTime(w, h, p, period, limit, fired, given) && given' == given + dt
    ensures OnTime(HolderStep(w, h, BeginUpdate(dt)), h, p, period, limit, fired, given')
  {
    BeginOnTime(w, h, dt, p, period, limit, fired, given);
  }

  /** The end of a turn and the end of a pass fire nothing and give no time. */
  lemma {:induction false} OwnRestAdds(w: World, h: HolderId, op: HolderOp, p: Ptr, period: nat, limit: nat, fired: nat, given: int)
    requires NoDangling(w) && HolderEnabled(w, h, op) && (op.Return? || op.EndUpdate?) && !Expires(w, OfHolder(h, op), h, p)
    requires OnTime(w, h, p, period, limit, fired, given)
    ensures OnTime(HolderStep(w, h, op), h, p, period, limit, fired, given)
  {
    if op.Return? {
      OwnReturnOnTime(w, h, p, period, limit, fired, given);
    } else {
      EndOnTime(w, h, p, period, limit, fired, given);
    }
  }

  lemma {:induction false} OwnAdds(w: World, h: HolderId, op: HolderOp, p: Ptr, period: nat, limit: nat,
                         fired: nat, given: int, fired': nat, given': int)
    requires NoDangling(w) && HolderEnabled(w, h, op) && !op.DestroyHolder? && Bounded(OfHolder(h, op), h, limit)
    requires !Expires(w, OfHolder(h, op), h, p) && h in w.holders
    requires OnTime(w, h, p, period, limit, fired, given)
    requires fired' == fired + Fires(w, OfHolder(h, op), p) && given' == given + Given(OfHolder(h, op), h)
    ensures OnTime(HolderStep(w, h, op), h, p, period, limit, fired', given')
  {
    if op.BeginUpdate? {
      assert fired' == fired;
      OwnBeginAdds(w, h, op.dt, p, period, limit, fired, given, given');
    } else if op.Visit? {
      assert given' == given;
      OwnVisitOnTime(w, h, p, period, limit, fired, given, fired');
    } else {
      assert fired' == fired && given' == given;
      OwnRestAdds(w, h, op, p, period, limit, fired, given);
    }
  }

  lemma {:induction false} ElsewhereAdds(w: World, g: HolderId, op: HolderOp, h: HolderId, p: Ptr, period: nat, limit: nat,
                         fired: nat, given: int, fired': nat, given': int)
    requires NoDangling(w) && HolderEnabled(w, g, op) && g != h
    requires OnTime(w, h, p, period, limit, fired, given)
    requires fired' == fired + Fires(w, OfHolder(g, op), p) && given' == given + Given(OfHolder(g, op), h)
    ensures OnTime(HolderStep(w, g, op), h, p, period, limit, fired', given')
  {
    OutsideHolder(w, g, h, p, period, limit, fired, given);
    NoFiringElsewhere(w, g, op, h, p);
    ElsewhereAddsNothing(w, g, op, h, p, period, limit, fired, given, fired', given');
  }

  lemma {:induction false} NotDestroyed(w: World, h: HolderId, op: HolderOp, p: Ptr)
    requires HolderEnabled(w, h, op) && !Touches(w, OfHolder(h, op), h, p)
    ensures !op.DestroyHolder?
  {
  }

  lemma {:induction false} HolderStepOnTime(w: World, g: HolderId, op: HolderOp, h: HolderId, p: Ptr, period: nat, limit: nat,
                         fired: nat, given: int, fired': nat, given': int)
    requires NoDangling(w) && HolderEnabled(w, g, op)
    requires !Touches(w, OfHolder(g, op), h, p) && Bounded(OfHolder(g, op), h, limit) && !Expires(w, OfHolder(g, op), h, p)
    requires OnTime(w, h, p, period, limit, fired, given)
    requires fired' == fired + Fires(w, OfHolder(g, op), p) && given' == given + Given(OfHolder(g, op), h)
    ensures OnTime(HolderStep(w, g, op), h, p, period, limit, fired', given')
  {
    if g == h {
      NotDestroyed(w, h, op, p);
      OwnAdds(w, h, op, p, period, limit, fired, given, fired', given');
    } else {
      ElsewhereAdds(w, g, op, h, p, period, limit, fired, given, fired', given');
    }
  }

  lemma {:induction false} StepOnTime(w: World, op: Op, h: HolderId, p: Ptr, period: nat, limit: nat,
                   fired: nat, given: int, fired': nat, given': int)
    requires NoDangling(w) && Fresh(w) && OwnEvents(w.heap, w.objects)
    requires Enabled(w, op) && !Touches(w, op, h, p) && Bounded(op, h, limit) && !Expires(w, op, h, p)
    requires OnTime(w, h, p, period, limit, fired, given)
    requires fired' == fired + Fires(w, op, p) && given' == given + Given(op, h)
    ensures OnTime(Step(w, op), h, p, period, limit, fired', given')
  {
    match op
    case OfObject(o, oop) => ObjectStepOnTime(w, o, oop, h, p, period, limit, fired, given);
    case OfHolder(g, hop) => HolderStepOnTime(w, g, hop, h, p, period, limit, fired, given, fired', given');
  }

  lemma {:induction false} NoFiringElsewhere(w: World, g: HolderId, op: HolderOp, h: HolderId, p: Ptr)
    requires g in w.holders && g != h ==> !Has(w.holders[g], p)
    requires g != h
    ensures Fires(w, OfHolder(g, op), p) == 0
  {
  }

  /** No step of the run touches `p`, and every delta given to `h` is within the limit. */
  ghost predicate Undisturbed(w: World, ops: seq<Op>, h: HolderId, p: Ptr, limit: nat)
    requires Sound(w) && Legal(w, ops)
    decreases |ops|
  {
    ops == []
    || (!Touches(w, ops[0], h, p) && Bounded(ops[0], h, limit)
        && (StepSound(w, ops[0]); Undisturbed(Step(w, ops[0]), ops[1..], h, p, limit)))
  }

  ghost function Firings(w: World, ops: seq<Op>, p: Ptr): nat
    requires Sound(w) && Legal(w, ops)
    decreases |ops|
  {
    if ops == [] then 0
    else StepSound(w, ops[0]); Fires(w, ops[0], p) + Firings(Step(w, ops[0]), ops[1..], p)
  }

  function TimeGiven(ops: seq<Op>, h: HolderId): int {
    if ops == [] then 0 else Given(ops[0], h) + TimeGiven(ops[1..], h)
  }

  lemma {:induction false} UndisturbedFirst(w: World, ops: seq<Op>, h: HolderId, p: Ptr, limit: nat)
    requires Sound(w) && Legal(w, ops) && ops != [] && Undisturbed(w, ops, h, p, limit)
    ensures Enabled(w, ops[0]) && !Touches(w, ops[0], h, p) && Bounded(ops[0], h, limit)
    ensures Sound(Step(w, ops[0])) && Legal(Step(w, ops[0]), ops[1..]) && Undisturbed(Step(w, ops[0]), ops[1..], h, p, limit)
    ensures Firings(w, ops, p) == Fires(w, ops[0], p) + Firings(Step(w, ops[0]), ops[1..], p)
  {
    StepSound(w, ops[0]);
  }
}
