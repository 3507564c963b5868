/**
 How many times an event with a repeat count fires. It stays within the count exactly if
 each start of its callback finds fewer of its callbacks running than it has repeats left.
 An event held by one holder alone and not relocated always meets this; two holders that
 run the callback of the same event at once need not, and a concrete run does not.
 */
module TimedEventRepeats {
  import opened Basics
  import opened TimedEvents
  import opened TimedEventSafety
  import opened TimedEventRuns
  import opened TimedEventPlacement
  import opened TimedEventTiming

  /** Holder `g` is running the callback of `p`. */
  ghost predicate Busy(w: World, p: Ptr, g: HolderId) {
    g in w.holders && InOwnCallback(w.holders[g], p)
  }

  /** The holders that are running the callback of `p`. */
  ghost function Runners(w: World, p: Ptr): set<HolderId> {
    set g | g in w.holders && Busy(w, p, g)
  }

  /**
   After `fired` firings of an event made with repeat count `n`: as long as it is not deleted, its
   count is what is left of `n`, plus one for each callback that has not returned yet.
   */
  ghost predicate Tally(w: World, p: Ptr, n: nat, fired: nat) {
    && p < w.nextPtr
    && (p in w.heap && !w.heap[p].deleted ==>
          w.heap[p].repeats >= 1 && fired + w.heap[p].repeats == n + |Runners(w, p)|)
  }

  /** If this step starts the callback of `p`, fewer are running than there are repeats left. */
  ghost predicate InTime(w: World, op: Op, p: Ptr) {
    Fires(w, op, p) == 1 ==> |Runners(w, p)| < w.heap[p].repeats
  }

  // ---------- steps that leave the count alone ----------

  ghost predicate SameRepeats(w: World, w': World, p: Ptr) {
    p in w'.heap ==> p in w.heap && w'.heap[p].repeats == w.heap[p].repeats
  }

  ghost predicate SameBusy(w: World, w': World, p: Ptr) {
    forall g :: Busy(w', p, g) <==> Busy(w, p, g)
  }

  lemma {:induction false} TallyCarries(w: World, w': World, p: Ptr, n: nat, fired: nat)
    requires Tally(w, p, n, fired) && Evolves(w, w') && SameRepeats(w, w', p) && SameBusy(w, w', p)
    ensures Tally(w', p, n, fired)
  {
    forall g ensures g in Runners(w', p) <==> g in Runners(w, p) {
      assert Busy(w', p, g) <==> Busy(w, p, g);
    }
    assert Runners(w', p) == Runners(w, p);
  }

  lemma {:induction false} ObjectStepRepeats(w: World, o: ObjectId, op: ObjectOp, p: Ptr)
    requires NoDangling(w) && ObjectEnabled(w, o, op) && p < w.nextPtr
    ensures SameRepeats(w, ObjectStep(w, o, op), p)
  {
    match op
    case NewObject =>
    case DestroyObject =>
    case AddEvent(inst, e, acquired) =>
    case RemoveByPointer(q) =>
    case RemoveEvents(t) =>
    case Modify(t, edit) =>
    case Relocate(inst, acquired) =>
  }

  lemma {:induction false} AppendedBusy(w: World, w': World, p: Ptr, g: HolderId)
    requires g in w.holders && g in w'.holders && Appended(w.holders[g], w'.holders[g]) && PassOk(w.holders[g])
    ensures Busy(w', p, g) <==> Busy(w, p, g)
  {
  }

  lemma {:induction false} ObjectStepBusy(w: World, o: ObjectId, op: ObjectOp, p: Ptr)
    requires NoDangling(w) && ObjectEnabled(w, o, op)
    ensures SameBusy(w, ObjectStep(w, o, op), p)
  {
    ObjectStepHolders(w, o, op);
    forall g | g in w.holders ensures Busy(ObjectStep(w, o, op), p, g) <==> Busy(w, p, g) {
      ObjectStepAppends(w, o, op, g);
      AppendedBusy(w, ObjectStep(w, o, op), p, g);
    }
  }

  lemma {:induction false} HolderStepRepeats(w: World, g: HolderId, op: HolderOp, p: Ptr)
    requires NoDangling(w) && HolderEnabled(w, g, op) && (op.Return? ==> !Busy(w, p, g))
    ensures SameRepeats(w, HolderStep(w, g, op), p)
  {
    match op
    case NewHolder(id) =>
    case DestroyHolder =>
    case BeginUpdate(dt) =>
    case Visit =>
    case Return =>
    case EndUpdate =>
  }

  /** Only the holder that steps can start or stop running `p`. */
  lemma {:induction false} HolderStepBusyElsewhere(w: World, g: HolderId, op: HolderOp, p: Ptr, x: HolderId)
    requires NoDangling(w) && HolderEnabled(w, g, op) && x != g
    ensures Busy(HolderStep(w, g, op), p, x) <==> Busy(w, p, x)
  {
    HolderStepKeys(w, g, op);
    if x in w.holders {
      HolderStepElsewhere(w, g, op, x);
    } else {
      assert x !in w.holders.Keys - {g};
    }
  }

  lemma {:induction false} HolderStepBusyHere(w: World, g: HolderId, op: HolderOp, p: Ptr)
    requires NoDangling(w) && HolderEnabled(w, g, op)
    ensures op.Return? ==> !Busy(HolderStep(w, g, op), p, g)
    ensures op.Visit? ==> !Busy(w, p, g)
    ensures op.Visit? && Fires(w, OfHolder(g, op), p) == 0 ==> !Busy(HolderStep(w, g, op), p, g)
    ensures !op.Return? && !op.Visit? ==> !Busy(w, p, g) && !Busy(HolderStep(w, g, op), p, g)
  {
    match op
    case NewHolder(id) =>
    case DestroyHolder =>
    case BeginUpdate(dt) =>
    case Visit =>
    case Return =>
    case EndUpdate =>
  }

  lemma {:induction false} QuietHolderStep(w: World, g: HolderId, op: HolderOp, p: Ptr)
    requires NoDangling(w) && HolderEnabled(w, g, op)
    requires Fires(w, OfHolder(g, op), p) == 0 && !Busy(w, p, g)
    ensures SameBusy(w, HolderStep(w, g, op), p)
  {
    HolderStepBusyHere(w, g, op, p);
    forall x | x != g ensures Busy(HolderStep(w, g, op), p, x) <==> Busy(w, p, x) {
      HolderStepBusyElsewhere(w, g, op, p, x);
    }
  }

  // ---------- the firing and the return ----------

  lemma {:induction false} StartAddsRunner(w: World, g: HolderId, p: Ptr)
    requires NoDangling(w) && HolderEnabled(w, g, Visit)
    requires Fires(w, OfHolder(g, Visit), p) == 1 && !w.heap[p].DeletesObject()
    ensures g !in Runners(w, p) && Runners(VisitStep(w, g), p) == Runners(w, p) + {g}
  {
    var w' := VisitStep(w, g);
    assert Busy(w', p, g);
    forall x | x != g ensures x in Runners(w', p) <==> x in Runners(w, p) {
      HolderStepBusyElsewhere(w, g, Visit, p, x);
    }
  }

  lemma {:induction false} StartTally(w: World, g: HolderId, p: Ptr, n: nat, fired: nat)
    requires NoDangling(w) && HolderEnabled(w, g, Visit) && Tally(w, p, n, fired)
    requires Fires(w, OfHolder(g, Visit), p) == 1
    ensures Tally(VisitStep(w, g), p, n, fired + 1)
  {
    if !w.heap[p].DeletesObject() { StartAddsRunner(w, g, p); }
  }

  lemma {:induction false} ReturnDropsRunner(w: World, g: HolderId, p: Ptr)
    requires NoDangling(w) && HolderEnabled(w, g, Return) && Busy(w, p, g)
    ensures g in Runners(w, p) && Runners(ReturnStep(w, g), p) == Runners(w, p) - {g}
  {
    var w' := ReturnStep(w, g);
    HolderStepBusyHere(w, g, Return, p);
    forall x | x != g ensures x in Runners(w', p) <==> x in Runners(w, p) {
      HolderStepBusyElsewhere(w, g, Return, p, x);
    }
  }

  lemma {:induction false} ReturnTally(w: World, g: HolderId, p: Ptr, n: nat, fired: nat)
    requires NoDangling(w) && HolderEnabled(w, g, Return) && Tally(w, p, n, fired) && Busy(w, p, g)
    ensures Tally(ReturnStep(w, g), p, n, fired)
  {
    ReturnDropsRunner(w, g, p);
  }

  lemma {:induction false} QuietTally(w: World, g: HolderId, op: HolderOp, p: Ptr, n: nat, fired: nat)
    requires Sound(w) && HolderEnabled(w, g, op) && Tally(w, p, n, fired)
    requires Fires(w, OfHolder(g, op), p) == 0 && !Busy(w, p, g)
    ensures Tally(HolderStep(w, g, op), p, n, fired)
  {
    HolderStepEvolves(w, g, op);
    HolderStepRepeats(w, g, op, p);
    QuietHolderStep(w, g, op, p);
    TallyCarries(w, HolderStep(w, g, op), p, n, fired);
  }

  lemma {:induction false} HolderStepTally(w: World, g: HolderId, op: HolderOp, p: Ptr, n: nat, fired: nat, fired': nat)
    requires Sound(w) && HolderEnabled(w, g, op) && Tally(w, p, n, fired)
    requires fired' == fired + Fires(w, OfHolder(g, op), p)
    ensures Tally(HolderStep(w, g, op), p, n, fired')
  {
    HolderStepBusyHere(w, g, op, p);
    if op.Visit? && Fires(w, OfHolder(g, op), p) == 1 {
      StartTally(w, g, p, n, fired);
    } else if op.Return? && Busy(w, p, g) {
      ReturnTally(w, g, p, n, fired);
    } else {
      QuietTally(w, g, op, p, n, fired);
    }
  }

  lemma {:induction false} ObjectStepTally(w: World, o: ObjectId, op: ObjectOp, p: Ptr, n: nat, fired: nat)
    requires Sound(w) && ObjectEnabled(w, o, op) && Tally(w, p, n, fired)
    ensures Tally(ObjectStep(w, o, op), p, n, fired)
  {
    ObjectStepEvolves(w, o, op);
    ObjectStepRepeats(w, o, op, p);
    ObjectStepBusy(w, o, op, p);
    TallyCarries(w, ObjectStep(w, o, op), p, n, fired);
  }

  /** The repeat count tells the firings so far after every step, however callbacks overlap. */
  lemma {:induction false} StepTally(w: World, op: Op, p: Ptr, n: nat, fired: nat, fired': nat)
    requires Sound(w) && Enabled(w, op) && Tally(w, p, n, fired)
    requires fired' == fired + Fires(w, op, p)
    ensures Tally(Step(w, op), p, n, fired')
    ensures Fires(w, op, p) == 1 ==> (fired' <= n <==> InTime(w, op, p))
  {
    match op
    case OfObject(o, oop) => ObjectStepTally(w, o, oop, p, n, fired);
    case OfHolder(g, hop) => HolderStepTally(w, g, hop, p, n, fired, fired');
  }

  // ---------- whole runs ----------

  ghost predicate AlwaysInTime(w: World, ops: seq<Op>, p: Ptr)
    requires Sound(w) && Legal(w, ops)
    decreases |ops|
  {
    ops == [] || (InTime(w, ops[0], p) && (StepSound(w, ops[0]); AlwaysInTime(Step(w, ops[0]), ops[1..], p)))
  }

  lemma {:induction false} RunTally(w: World, ops: seq<Op>, p: Ptr, n: nat, fired: nat, fired': nat)
    requires Sound(w) && Legal(w, ops) && Tally(w, p, n, fired)
    requires fired' == fired + Firings(w, ops, p)
    ensures Tally(Run(w, ops), p, n, fired')
    ensures fired <= n ==> (fired' <= n <==> AlwaysInTime(w, ops, p))
    decreases |ops|
  {
    if ops != [] {
      var f1 := fired + Fires(w, ops[0], p);
      StepSound(w, ops[0]);
      StepTally(w, ops[0], p, n, fired, f1);
      RunTally(Step(w, ops[0]), ops[1..], p, n, f1, fired');
    }
  }

  /** Not deleted, not running, and made to fire `n` times. */
  ghost predicate Armed(w: World, p: Ptr, n: nat) {
    p in w.heap && !w.heap[p].deleted && n >= 1 && w.heap[p].repeats == n && Runners(w, p) == {}
  }

  /**
   An event with repeat count n > 0 fires at most n times, whatever else happens, if and only if
   each start of its callback finds fewer of its callbacks running than its count; once it has
   fired n times and no callback of it is running, it is deleted or already freed.
   */
  lemma {:induction false} FiresAtMost(w: World, ops: seq<Op>, p: Ptr, n: nat)
    requires Sound(w) && Legal(w, ops) && Armed(w, p, n)
    ensures Firings(w, ops, p) <= n <==> AlwaysInTime(w, ops, p)
    ensures var w' := Run(w, ops);
      Firings(w, ops, p) == n && Runners(w', p) == {} && p in w'.heap ==> w'.heap[p].deleted
  {
    RunTally(w, ops, p, n, 0, Firings(w, ops, p));
  }

  // ---------- an event in one holder ----------

  /** No holder but `h` has `p`. */
  ghost predicate SoleHolder(w: World, h: HolderId, p: Ptr) {
    forall g :: g in w.holders && g != h ==> !Has(w.holders[g], p)
  }

  ghost predicate Relocates(w: World, op: Op, p: Ptr) {
    op.OfObject? && op.oop.Relocate? && p in w.heap && op.o == w.heap[p].obj
  }

  /** No step of the run relocates the event's object. */
  ghost predicate StaysPut(w: World, ops: seq<Op>, p: Ptr)
    requires Sound(w) && Legal(w, ops)
    decreases |ops|
  {
    ops == [] || (!Relocates(w, ops[0], p) && (StepSound(w, ops[0]); StaysPut(Step(w, ops[0]), ops[1..], p)))
  }

  /** The entries of `h` for `p`. */
  ghost function Copies(w: World, h: HolderId, p: Ptr): nat {
    if h in w.holders then multiset(w.holders[h].entries)[p] + multiset(w.holders[h].insertPool)[p] else 0
  }

  /** Copies of `p` nowhere but in `h`, and no new ones there. */
  ghost predicate NoneAdded(w: World, w': World, h: HolderId, p: Ptr) {
    SoleHolder(w', h, p) && Copies(w', h, p) <= Copies(w, h, p)
  }

  lemma {:induction false} FreedNowhere(w: World, h: HolderId, p: Ptr)
    requires NoDangling(w) && p !in w.heap
    ensures SoleHolder(w, h, p) && Copies(w, h, p) == 0
  {
    forall g | g in w.holders ensures !Has(w.holders[g], p) {
      assert p !in w.holders[g].entries && p !in w.holders[g].insertPool;
    }
  }

  lemma {:induction false} ObjectStepGrowsWithout(w: World, o: ObjectId, op: ObjectOp, p: Ptr, g: HolderId)
    requires NoDangling(w) && Fresh(w) && OwnEvents(w.heap, w.objects) && ObjectEnabled(w, o, op) && g in w.holders
    requires p in w.heap && !Relocates(w, OfObject(o, op), p)
    ensures g in ObjectStep(w, o, op).holders && GrownWithout(w.holders[g], ObjectStep(w, o, op).holders[g], p)
  {
    match op
    case NewObject =>
    case DestroyObject =>
    case AddEvent(inst, e, acquired) =>
    case RemoveByPointer(q) =>
    case RemoveEvents(t) =>
    case Modify(t, edit) =>
    case Relocate(inst, acquired) => MoveGrows(w, o, inst, acquired, p, g);
  }

  lemma {:induction false} GrownCopies(w: World, w': World, h: HolderId, p: Ptr)
    requires h in w.holders && h in w'.holders && GrownWithout(w.holders[h], w'.holders[h], p)
    ensures Copies(w', h, p) == Copies(w, h, p)
  {
    var ho, ho' := w.holders[h], w'.holders[h];
    assert ho'.entries == ho.entries + ho'.entries[|ho.entries|..];
    assert ho'.insertPool == ho.insertPool + ho'.insertPool[|ho.insertPool|..];
  }

  lemma {:induction false} ObjectStepNoneAdded(w: World, o: ObjectId, op: ObjectOp, h: HolderId, p: Ptr)
    requires NoDangling(w) && Fresh(w) && OwnEvents(w.heap, w.objects) && ObjectEnabled(w, o, op) && SoleHolder(w, h, p)
    requires p in w.heap && !Relocates(w, OfObject(o, op), p)
    ensures NoneAdded(w, ObjectStep(w, o, op), h, p)
  {
    var w' := ObjectStep(w, o, op);
    ObjectStepHolders(w, o, op);
    forall g | g in w'.holders && g != h ensures !Has(w'.holders[g], p) {
      ObjectStepGrowsWithout(w, o, op, p, g);
      GrownHas(w.holders[g], w'.holders[g], p);
    }
    if h in w.holders {
      ObjectStepGrowsWithout(w, o, op, p, h);
      GrownCopies(w, w', h, p);
    }
  }

  lemma {:induction false} BeginCopies(w: World, h: HolderId, dt: int, p: Ptr)
    requires NoDangling(w) && HolderEnabled(w, h, BeginUpdate(dt))
    ensures Copies(BeginStep(w, h, dt), h, p) <= Copies(w, h, p)
  {
    var ho := w.holders[h];
    SplitCounts(ho.insertPool, set q | q in ho.insertPool && Stale(w.heap, q, ho.instance));
  }

  lemma {:induction false} VisitCopies(w: World, h: HolderId, p: Ptr)
    requires NoDangling(w) && HolderEnabled(w, h, Visit)
    ensures Copies(VisitStep(w, h), h, p) <= Copies(w, h, p)
  {
    VisitPast(w, h);
    EraseCounts(w.holders[h].entries, w.holders[h].pass.itr.index);
  }

  /** An event that deletes its object leaves the list before its callback starts. */
  lemma {:induction false} StartUnlinks(w: World, h: HolderId, p: Ptr)
    requires NoDangling(w) && HolderEnabled(w, h, Visit)
    requires Fires(w, OfHolder(h, Visit), p) == 1 && w.heap[p].DeletesObject()
    ensures Copies(VisitStep(w, h), h, p) == Copies(w, h, p) - 1
  {
    EraseCounts(w.holders[h].entries, w.holders[h].pass.itr.index);
  }

  lemma {:induction false} ReturnCopies(w: World, h: HolderId, p: Ptr)
    requires NoDangling(w) && HolderEnabled(w, h, Return)
    ensures Copies(ReturnStep(w, h), h, p) <= Copies(w, h, p)
  {
    ReturnsOrUnlinks(w, h);
    if w.holders[h].pass.InCallback? { EraseCounts(w.holders[h].entries, w.holders[h].pass.it2); }
  }

  lemma {:induction false} OwnStepCopies(w: World, h: HolderId, op: HolderOp, p: Ptr)
    requires NoDangling(w) && HolderEnabled(w, h, op)
    ensures Copies(HolderStep(w, h, op), h, p) <= Copies(w, h, p)
  {
    match op
    case NewHolder(id) =>
    case DestroyHolder =>
    case BeginUpdate(dt) => BeginCopies(w, h, dt, p);
    case Visit => VisitCopies(w, h, p);
    case Return => ReturnCopies(w, h, p);
    case EndUpdate =>
  }

  lemma {:induction false} HolderStepNoneAdded(w: World, g: HolderId, op: HolderOp, h: HolderId, p: Ptr)
    requires NoDangling(w) && HolderEnabled(w, g, op) && SoleHolder(w, h, p)
    ensures NoneAdded(w, HolderStep(w, g, op), h, p)
  {
    OthersStayOut(w, g, op, h, p);
    if g == h {
      OwnStepCopies(w, h, op, p);
    } else if h in w.holders {
      HolderStepElsewhere(w, g, op, h);
    } else {
      HolderStepKeys(w, g, op);
      assert h !in w.holders.Keys - {g};
    }
  }

  /** Only a relocation of its object gives an event a second holder or a second entry. */
  lemma {:induction false} StepNoneAdded(w: World, op: Op, h: HolderId, p: Ptr)
    requires Sound(w) && Enabled(w, op) && SoleHolder(w, h, p) && p < w.nextPtr && !Relocates(w, op, p)
    ensures NoneAdded(w, Step(w, op), h, p)
  {
    if p !in w.heap {
      StepSound(w, op);
      StepEvolves(w, op);
      FreedNowhere(w, h, p);
      FreedNowhere(Step(w, op), h, p);
    } else {
      match op
      case OfObject(o, oop) => ObjectStepNoneAdded(w, o, oop, h, p);
      case OfHolder(g, hop) => HolderStepNoneAdded(w, g, hop, h, p);
    }
  }

  /** The only holder of `p` cannot be running it when it starts it. */
  lemma {:induction false} SoleStart(w: World, op: Op, h: HolderId, p: Ptr)
    requires NoDangling(w) && Enabled(w, op) && SoleHolder(w, h, p) && Fires(w, op, p) == 1
    ensures op == OfHolder(h, Visit) && Runners(w, p) == {}
  {
    assert Has(w.holders[op.h], p);
    forall g | g in w.holders ensures !Busy(w, p, g) {
      if g == h { HolderStepBusyHere(w, h, Visit, p); }
    }
  }

  lemma {:induction false} SoleInTime(w: World, ops: seq<Op>, h: HolderId, p: Ptr, n: nat, fired: nat)
    requires Sound(w) && Legal(w, ops) && StaysPut(w, ops, p) && SoleHolder(w, h, p) && Tally(w, p, n, fired)
    ensures AlwaysInTime(w, ops, p)
    decreases |ops|
  {
    if ops != [] {
      var w1 := Step(w, ops[0]);
      StepSound(w, ops[0]);
      if Fires(w, ops[0], p) == 1 { SoleStart(w, ops[0], h, p); }
      StepTally(w, ops[0], p, n, fired, fired + Fires(w, ops[0], p));
      StepNoneAdded(w, ops[0], h, p);
      SoleInTime(w1, ops[1..], h, p, n, fired + Fires(w, ops[0], p));
    }
  }

  /** On its last firing the event is marked deleted and its entry leaves the list. */
  lemma {:induction false} LastFiringLeaves(w: World, h: HolderId, p: Ptr)
    requires NoDangling(w) && HolderEnabled(w, h, Return) && Busy(w, p, h) && w.heap[p].repeats == 1
    ensures var w' := ReturnStep(w, h);
      && (p in w'.heap ==> w'.heap[p].deleted)
      && multiset(w'.holders[h].entries)[p] == multiset(w.holders[h].entries)[p] - 1
  {
    EraseCounts(w.holders[h].entries, w.holders[h].pass.it2);
  }

  /** `h` has one entry at most, and none once `p` has fired `n` times and its callback has returned. */
  ghost predicate Spent(w: World, h: HolderId, p: Ptr, n: nat, fired: nat) {
    && fired <= n && Copies(w, h, p) <= 1
    && (Busy(w, p, h) ==> p in w.heap && w.heap[p].repeats >= 1 && fired + w.heap[p].repeats == n + 1)
    && (fired == n && !Busy(w, p, h) ==> Copies(w, h, p) == 0)
  }

  lemma {:induction false} SpentCarries(w: World, w': World, h: HolderId, p: Ptr, n: nat, fired: nat)
    requires Spent(w, h, p, n, fired) && NoDangling(w')
    requires NoneAdded(w, w', h, p) && SameRepeats(w, w', p) && SameBusy(w, w', p)
    ensures Spent(w', h, p, n, fired)
  {
    assert Busy(w', p, h) <==> Busy(w, p, h);
    if Busy(w', p, h) { assert p in w'.holders[h].entries; }
  }

  lemma {:induction false} StartSpent(w: World, h: HolderId, p: Ptr, n: nat, fired: nat)
    requires NoDangling(w) && HolderEnabled(w, h, Visit) && Spent(w, h, p, n, fired)
    requires Fires(w, OfHolder(h, Visit), p) == 1 && Tally(w, p, n, fired) && Runners(w, p) == {}
    ensures Spent(VisitStep(w, h), h, p, n, fired + 1)
  {
    if w.heap[p].DeletesObject() { StartUnlinks(w, h, p); }
  }

  lemma {:induction false} ReturnSpent(w: World, h: HolderId, p: Ptr, n: nat, fired: nat)
    requires NoDangling(w) && HolderEnabled(w, h, Return) && Spent(w, h, p, n, fired) && Busy(w, p, h)
    ensures Spent(ReturnStep(w, h), h, p, n, fired)
  {
    HolderStepBusyHere(w, h, Return, p);
    ReturnCopies(w, h, p);
    if w.heap[p].repeats == 1 { LastFiringLeaves(w, h, p); }
  }

  lemma {:induction false} QuietSpent(w: World, g: HolderId, op: HolderOp, h: HolderId, p: Ptr, n: nat, fired: nat)
    requires Sound(w) && HolderEnabled(w, g, op) && SoleHolder(w, h, p) && Spent(w, h, p, n, fired)
    requires Fires(w, OfHolder(g, op), p) == 0 && !Busy(w, p, g)
    ensures Spent(HolderStep(w, g, op), h, p, n, fired)
  {
    HolderStepSound(w, g, op);
    HolderStepRepeats(w, g, op, p);
    QuietHolderStep(w, g, op, p);
    HolderStepNoneAdded(w, g, op, h, p);
    SpentCarries(w, HolderStep(w, g, op), h, p, n, fired);
  }

  lemma {:induction false} HolderStepSpent(w: World, g: HolderId, op: HolderOp, h: HolderId, p: Ptr, n: nat, fired: nat)
    requires Sound(w) && HolderEnabled(w, g, op) && SoleHolder(w, h, p) && Spent(w, h, p, n, fired) && Tally(w, p, n, fired)
    ensures Spent(HolderStep(w, g, op), h, p, n, fired + Fires(w, OfHolder(g, op), p))
  {
    HolderStepBusyHere(w, g, op, p);
    if Fires(w, OfHolder(g, op), p) == 1 {
      SoleStart(w, OfHolder(g, op), h, p);
      StartSpent(w, h, p, n, fired);
    } else if Busy(w, p, g) {
      assert g == h && op == Return;
      ReturnSpent(w, h, p, n, fired);
    } else {
      QuietSpent(w, g, op, h, p, n, fired);
    }
  }

  lemma {:induction false} ObjectStepSpent(w: World, o: ObjectId, op: ObjectOp, h: HolderId, p: Ptr, n: nat, fired: nat)
    requires Sound(w) && ObjectEnabled(w, o, op) && SoleHolder(w, h, p) && Spent(w, h, p, n, fired) && p < w.nextPtr
    requires !Relocates(w, OfObject(o, op), p)
    ensures Spent(ObjectStep(w, o, op), h, p, n, fired)
  {
    ObjectStepSound(w, o, op);
    ObjectStepRepeats(w, o, op, p);
    ObjectStepBusy(w, o, op, p);
    StepNoneAdded(w, OfObject(o, op), h, p);
    SpentCarries(w, ObjectStep(w, o, op), h, p, n, fired);
  }

  lemma {:induction false} StepSpent(w: World, op: Op, h: HolderId, p: Ptr, n: nat, fired: nat)
    requires Sound(w) && Enabled(w, op) && SoleHolder(w, h, p) && Spent(w, h, p, n, fired) && Tally(w, p, n, fired)
    requires !Relocates(w, op, p)
    ensures Spent(Step(w, op), h, p, n, fired + Fires(w, op, p))
  {
    match op
    case OfObject(o, oop) => ObjectStepSpent(w, o, oop, h, p, n, fired);
    case OfHolder(g, hop) => HolderStepSpent(w, g, hop, h, p, n, fired);
  }

  lemma {:induction false} RunSpent(w: World, ops: seq<Op>, h: HolderId, p: Ptr, n: nat, fired: nat, fired': nat)
    requires Sound(w) && Legal(w, ops) && StaysPut(w, ops, p)
    requires SoleHolder(w, h, p) && Spent(w, h, p, n, fired) && Tally(w, p, n, fired)
    requires fired' == fired + Firings(w, ops, p)
    ensures SoleHolder(Run(w, ops), h, p) && Spent(Run(w, ops), h, p, n, fired')
    decreases |ops|
  {
    if ops != [] {
      var f1 := fired + Fires(w, ops[0], p);
      StepSound(w, ops[0]);
      StepTally(w, ops[0], p, n, fired, f1);
      StepNoneAdded(w, ops[0], h, p);
      StepSpent(w, ops[0], h, p, n, fired);
      RunSpent(Step(w, ops[0]), ops[1..], h, p, n, f1, fired');
    }
  }

  /**
   An event that only holder `h` has, and whose object is not relocated, fires at most as often as
   its repeat count says. If `h` has it once, then after the last firing, as soon as the callback
   has returned, no holder has an entry for it, and it is deleted or already freed.
   */
  lemma {:induction false} OneHolderFiresAtMost(w: World, ops: seq<Op>, h: HolderId, p: Ptr, n: nat)
    requires Sound(w) && Legal(w, ops) && Armed(w, p, n) && SoleHolder(w, h, p) && StaysPut(w, ops, p)
    ensures Firings(w, ops, p) <= n
    ensures var w' := Run(w, ops);
      Copies(w, h, p) == 1 && Firings(w, ops, p) == n && !Busy(w', p, h) ==>
        SoleHolder(w', h, p) && Copies(w', h, p) == 0 && (p in w'.heap ==> w'.heap[p].deleted)
  {
    var fired := Firings(w, ops, p);
    SoleInTime(w, ops, h, p, n, 0);
    RunTally(w, ops, p, n, 0, fired);
    if Copies(w, h, p) == 1 {
      assert !Busy(w, p, h) by { assert h !in Runners(w, p); }
      RunSpent(w, ops, h, p, n, 0, fired);
      if fired == n && !Busy(Run(w, ops), p, h) { NobodyRuns(Run(w, ops), h, p); }
    }
  }

  lemma {:induction false} NobodyRuns(w: World, h: HolderId, p: Ptr)
    requires SoleHolder(w, h, p) && !Busy(w, p, h)
    ensures Runners(w, p) == {}
  {
  }

  // ---------- the failing run ----------

  lemma {:induction false} RunCons(w: World, op: Op, ops: seq<Op>, p: Ptr)
    requires Sound(w) && Enabled(w, op) && Sound(Step(w, op)) && Legal(Step(w, op), ops)
    ensures Legal(w, [op] + ops)
    ensures Firings(w, [op] + ops, p) == Fires(w, op, p) + Firings(Step(w, op), ops, p)
    ensures Run(w, [op] + ops) == Run(Step(w, op), ops)
  {
    assert ([op] + ops)[1..] == ops;
  }

  // One object, one event due every 10 time units with repeat count 1, and holders 0 and 1 for
  // the instances 1 and 2.
  const TheEvent: NewEvent := NewEvent(5, 10, 1, 0)

  function Ev(inst: int, ref: nat): TimedEvent {
    TimedEvent(0, 5, 0, 10, 10, 1, false, inst, ref)
  }

  function Both(first: Holder, second: Holder): map<HolderId, Holder> {
    map[0 := first, 1 := second]
  }

  const Registry: map<int, HolderId> := map[1 := 0, 2 := 1]

  function Built(): World {
    World(map[], map[], Both(Holder(1, [], [], Idle), Holder(2, [], [], Idle)), Registry, 0)
  }

  function Added(): World {
    World(map[0 := Ev(1, 2)], map[0 := EventableObject([0], Some(0), 1)],
          Both(Holder(1, [0], [], Idle), Holder(2, [], [], Idle)), Registry, 1)
  }

  /** Holder 0 runs the callback. */
  function Started(): World {
    Added().(holders := Both(Holder(1, [0], [], InCallback(10, 0, End)), Holder(2, [], [], Idle)))
  }

  /** The callback has moved its object to instance 2. */
  function MovedOn(): World {
    World(map[0 := Ev(2, 3)], map[0 := EventableObject([0], Some(1), 2)],
          Both(Holder(1, [0], [], InCallback(10, 0, End)), Holder(2, [0], [], Idle)), Registry, 1)
  }

  lemma {:induction false} SetupAdded(w: World)
    requires w == Built().(objects := map[0 := EventableObject([], None, WORLD_INSTANCE)]) && NoDangling(w)
    ensures var op := OfObject(0, AddEvent(1, TheEvent, true)); Enabled(w, op) && Step(w, op) == Added()
  {
    var w' := AddEventStep(w, 0, 1, TheEvent, true);
    assert w'.heap == Added().heap;
    assert w'.objects[0].entries == [0] && w'.holders[0].entries == [0];
    assert w'.objects == Added().objects && w'.holders == Added().holders;
  }

  function Begun(w: World, h: HolderId): World
    requires h in w.holders
  {
    w.(holders := w.holders[h := Holder(w.holders[h].instance, [0], [], Looping(10, At(0)))])
  }

  lemma {:induction false} BeginsWith(w: World, h: HolderId)
    requires NoDangling(w) && h in w.holders && w.holders[h] == Holder(w.holders[h].instance, [0], [], Idle)
    requires forall p :: p in w.heap ==> w.heap[p].ref > 0
    ensures Enabled(w, OfHolder(h, BeginUpdate(10))) && Step(w, OfHolder(h, BeginUpdate(10))) == Begun(w, h)
    ensures Fires(w, OfHolder(h, BeginUpdate(10)), 0) == 0
  {
    var ho := w.holders[h];
    assert forall d :: ho.entries + Without(ho.insertPool, d) == [0];
    assert BeginStep(w, h, 10).heap == w.heap;
  }

  lemma {:induction false} SetupStarted(w: World)
    requires w == Begun(Added(), 0) && NoDangling(w)
    ensures Enabled(w, OfHolder(0, Visit)) && Step(w, OfHolder(0, Visit)) == Started()
    ensures Fires(w, OfHolder(0, Visit), 0) == 1
  {
  }

  lemma {:induction false} MovesOn(w: World)
    requires w == Started() && NoDangling(w)
    ensures var op := OfObject(0, Relocate(2, true)); Enabled(w, op) && Step(w, op) == MovedOn()
  {
    var live := LiveSet(w.heap, w.objects[0].entries);
    assert live == {0};
    assert Only([0], live) == [0] + Only([], live);
    assert w.objects[0].entries == [0];
    assert Movable(w, 0) == [0];
    var w' := RelocateStep(w, 0, 2, true);
    assert w'.heap == MovedOn().heap;
    assert w'.holders[1].entries == [0];
    assert w'.objects == MovedOn().objects && w'.holders == MovedOn().holders;
  }

  lemma {:induction false} FiresAgain(w: World)
    requires w == Begun(MovedOn(), 1) && NoDangling(w)
    ensures Enabled(w, OfHolder(1, Visit)) && Fires(w, OfHolder(1, Visit), 0) == 1
  {
  }

  const Tail1: seq<Op> := [OfHolder(1, Visit)]
  const Tail2: seq<Op> := [OfHolder(1, BeginUpdate(10))] + Tail1
  const Tail3: seq<Op> := [OfObject(0, Relocate(2, true))] + Tail2
  const Tail4: seq<Op> := [OfHolder(0, Visit)] + Tail3
  const Tail5: seq<Op> := [OfHolder(0, BeginUpdate(10))] + Tail4
  const Tail6: seq<Op> := [OfObject(0, AddEvent(1, TheEvent, true))] + Tail5
  const Tail7: seq<Op> := [OfObject(0, NewObject)] + Tail6
  const Tail8: seq<Op> := [OfHolder(1, NewHolder(2))] + Tail7
  /** Two holders, one object, one event; holder 0 starts the callback, which relocates; holder 1 starts it again. */
  const OverlappingRun: seq<Op> := [OfHolder(0, NewHolder(1))] + Tail8

  lemma {:induction false} FromBegunAgain(w: World)
    requires w == Begun(MovedOn(), 1) && Sound(w)
    ensures Legal(w, Tail1) && Firings(w, Tail1, 0) == 1
  {
    FiresAgain(w);
    StepSound(w, OfHolder(1, Visit));
    RunCons(w, OfHolder(1, Visit), [], 0);
    assert Tail1 == [OfHolder(1, Visit)] + [];
  }

  lemma {:induction false} FromMovedOn(w: World)
    requires w == MovedOn() && Sound(w)
    ensures Legal(w, Tail2) && Firings(w, Tail2, 0) == 1
  {
    var op := OfHolder(1, BeginUpdate(10));
    BeginsWith(w, 1);
    StepSound(w, op);
    FromBegunAgain(Step(w, op));
    RunCons(w, op, Tail1, 0);
  }

  lemma {:induction false} FromStarted(w: World)
    requires w == Started() && Sound(w)
    ensures Legal(w, Tail3) && Firings(w, Tail3, 0) == 1
  {
    var op := OfObject(0, Relocate(2, true));
    MovesOn(w);
    StepSound(w, op);
    FromMovedOn(Step(w, op));
    RunCons(w, op, Tail2, 0);
  }

  lemma {:induction false} FromBegun(w: World)
    requires w == Begun(Added(), 0) && Sound(w)
    ensures Legal(w, Tail4) && Firings(w, Tail4, 0) == 2
  {
    var op := OfHolder(0, Visit);
    SetupStarted(w);
    StepSound(w, op);
    FromStarted(Step(w, op));
    RunCons(w, op, Tail3, 0);
  }

  lemma {:induction false} BeginsAdded(w: World)
    requires w == Added() && NoDangling(w)
    ensures var op := OfHolder(0, BeginUpdate(10));
      Enabled(w, op) && Step(w, op) == Begun(Added(), 0) && Fires(w, op, 0) == 0
  {
    BeginsWith(w, 0);
  }

  /** A run that starts with one more step. */
  lemma {:induction false} Precede(w: World, op: Op, w': World, ops: seq<Op>, all: seq<Op>, p: Ptr, n: nat)
    requires Sound(w) && Enabled(w, op) && w' == Step(w, op) && Sound(w') && Legal(w', ops) && all == [op] + ops
    requires n == Fires(w, op, p) + Firings(w', ops, p)
    ensures Legal(w, all) && Firings(w, all, p) == n
  {
    RunCons(w, op, ops, p);
  }

  lemma {:induction false} FromAdded(w: World)
    requires w == Added() && Sound(w)
    ensures Legal(w, Tail5) && Firings(w, Tail5, 0) == 2
  {
    var op := OfHolder(0, BeginUpdate(10));
    BeginsAdded(w);
    StepSound(w, op);
    var w' := Begun(Added(), 0);
    FromBegun(w');
    Precede(w, op, w', Tail4, Tail5, 0, 2);
  }

  lemma {:induction false} FromObject(w: World)
    requires w == Built().(objects := map[0 := EventableObject([], None, WORLD_INSTANCE)]) && Sound(w)
    ensures Legal(w, Tail6) && Firings(w, Tail6, 0) == 2
  {
    var op := OfObject(0, AddEvent(1, TheEvent, true));
    SetupAdded(w);
    StepSound(w, op);
    FromAdded(Step(w, op));
    RunCons(w, op, Tail5, 0);
  }

  lemma {:induction false} FromBuilt(w: World)
    requires w == Built() && Sound(w)
    ensures Legal(w, Tail7) && Firings(w, Tail7, 0) == 2
  {
    var w1 := ObjectStep(w, 0, NewObject);
    StepSound(w, OfObject(0, NewObject));
    assert w1.objects == map[0 := EventableObject([], None, WORLD_INSTANCE)];
    FromObject(w1);
    RunCons(w, OfObject(0, NewObject), Tail6, 0);
  }

  lemma {:induction false} FromFirst(w: World)
    requires w == NewHolderStep(EmptyWorld, 0, 1) && Sound(w)
    ensures Legal(w, Tail8) && Firings(w, Tail8, 0) == 2
  {
    assert NewHolderStep(w, 1, 2) == Built();
    StepSound(w, OfHolder(1, NewHolder(2)));
    FromBuilt(Built());
    RunCons(w, OfHolder(1, NewHolder(2)), Tail7, 0);
  }

  /** Overlapping callbacks break the bound: an event added with repeat count 1 fires twice. */
  lemma {:induction false} OverlapFiresTwice()
    ensures Sound(EmptyWorld) && Legal(EmptyWorld, OverlappingRun)
    ensures TheEvent.repeats == 1 && Firings(EmptyWorld, OverlappingRun, 0) == 2
  {
    EmptyWorldSound();
    StepSound(EmptyWorld, OfHolder(0, NewHolder(1)));
    FromFirst(NewHolderStep(EmptyWorld, 0, 1));
    RunCons(EmptyWorld, OfHolder(0, NewHolder(1)), Tail8, 0);
  }
}
