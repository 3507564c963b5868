/**
 How often and when an event fires, whatever its repeat count. Over every interleaved run
 that leaves the event alone, its firings keep pace with the time its holder's passes were
 given until it has fired as often as it should.
 */
module TimedEventRate {
  import opened TimedEvents
  import opened TimedEventSafety
  import opened TimedEventRuns
  import opened TimedEventTiming
  import opened TimedEventRepeats

  /** How the repeat count stands after `fired` firings of an event made with count `n`, 0 meaning for ever. */
  ghost predicate Counts(w: World, p: Ptr, n: nat, fired: nat) {
    if n == 0 then p in w.heap && w.heap[p].repeats == 0 else Tally(w, p, n, fired)
  }

  /** On time, with the repeat count in step. */
  ghost predicate Going(w: World, h: HolderId, p: Ptr, period: nat, limit: nat, n: nat, fired: nat, given: int) {
    OnTime(w, h, p, period, limit, fired, given) && Counts(w, p, n, fired)
  }

  /** Fired as often as it should, and deleted or freed. */
  ghost predicate Finished(w: World, p: Ptr, period: nat, n: nat, fired: nat, given: int) {
    n > 0 && fired == n && p < w.nextPtr && (p in w.heap ==> w.heap[p].deleted) && n * period <= given
  }

  ghost predicate Paced(w: World, h: HolderId, p: Ptr, period: nat, limit: nat, n: nat, fired: nat, given: int) {
    Going(w, h, p, period, limit, n, fired, given) || Finished(w, p, period, n, fired, given)
  }

  // ---------- one step ----------

  /** Nobody but `h` can be running `p`. */
  lemma {:induction false} RunsAtMostHere(w: World, h: HolderId, p: Ptr)
    requires SoleHolder(w, h, p)
    ensures Runners(w, p) == if Busy(w, p, h) then {h} else {}
  {
    forall g | g in w.holders && g != h ensures !Busy(w, p, g) {
      assert !Has(w.holders[g], p);
    }
  }

  /** Returning from the last callback. */
  lemma {:induction false} ExpiryFinishes(w: World, h: HolderId, p: Ptr, period: nat, limit: nat, n: nat, fired: nat, given: int)
    requires Sound(w) && Enabled(w, OfHolder(h, Return)) && Expires(w, OfHolder(h, Return), h, p)
    requires Going(w, h, p, period, limit, n, fired, given)
    ensures Finished(Step(w, OfHolder(h, Return)), p, period, n, fired, given)
  {
    OnTimeBusy(w, h, p, period, limit, fired, given);
    RunsAtMostHere(w, h, p);
    LastFiringLeaves(w, h, p);
  }

  /** While its callback runs an event's pass has been accounted for. */
  lemma {:induction false} OnTimeBusy(w: World, h: HolderId, p: Ptr, period: nat, limit: nat, fired: nat, given: int)
    requires OnTime(w, h, p, period, limit, fired, given) && Busy(w, p, h)
    ensures fired * period <= given && SoleHolder(w, h, p) && p in w.heap && !w.heap[p].deleted
  {
  }

  lemma {:induction false} ForeverStays(w: World, op: Op, p: Ptr)
    requires Sound(w) && Enabled(w, op) && p in w.heap && w.heap[p].repeats == 0
    ensures p in Step(w, op).heap ==> Step(w, op).heap[p].repeats == 0
  {
    match op
    case OfObject(o, oop) => ObjectStepRepeats(w, o, oop, p);
    case OfHolder(g, hop) =>
      if hop.Return? && Busy(w, p, g) {
      } else {
        HolderStepRepeats(w, g, hop, p);
      }
  }

  lemma {:induction false} StepCounts(w: World, op: Op, p: Ptr, n: nat, fired: nat, fired': nat)
    requires Sound(w) && Enabled(w, op) && Counts(w, p, n, fired) && p in Step(w, op).heap
    requires fired' == fired + Fires(w, op, p)
    ensures Counts(Step(w, op), p, n, fired')
  {
    if n == 0 {
      ForeverStays(w, op, p);
    } else {
      StepTally(w, op, p, n, fired, fired');
    }
  }

  lemma {:induction false} OnTimeAllocated(w: World, h: HolderId, p: Ptr, period: nat, limit: nat, fired: nat, given: int)
    requires OnTime(w, h, p, period, limit, fired, given)
    ensures p in w.heap
  {
  }

  lemma {:induction false} GoingOn(w: World, op: Op, h: HolderId, p: Ptr, period: nat, limit: nat, n: nat,
                                   fired: nat, given: int, fired': nat, given': int)
    requires Sound(w) && Enabled(w, op) && !Touches(w, op, h, p) && Bounded(op, h, limit)
    requires Going(w, h, p, period, limit, n, fired, given) && !Expires(w, op, h, p)
    requires fired' == fired + Fires(w, op, p) && given' == given + Given(op, h)
    ensures Going(Step(w, op), h, p, period, limit, n, fired', given')
  {
    StepOnTime(w, op, h, p, period, limit, fired, given, fired', given');
    OnTimeAllocated(Step(w, op), h, p, period, limit, fired', given');
    StepCounts(w, op, p, n, fired, fired');
  }

  lemma {:induction false} StaysFinished(w: World, op: Op, h: HolderId, p: Ptr, period: nat, limit: nat, n: nat,
                                         fired: nat, given: int, fired': nat, given': int)
    requires Sound(w) && Enabled(w, op) && Bounded(op, h, limit) && Finished(w, p, period, n, fired, given)
    requires fired' == fired + Fires(w, op, p) && given' == given + Given(op, h)
    ensures Finished(Step(w, op), p, period, n, fired', given')
  {
    StepEvolves(w, op);
  }

  lemma {:induction false} StepPaced(w: World, op: Op, h: HolderId, p: Ptr, period: nat, limit: nat, n: nat,
                                     fired: nat, given: int, fired': nat, given': int)
    requires Sound(w) && Enabled(w, op) && !Touches(w, op, h, p) && Bounded(op, h, limit)
    requires Paced(w, h, p, period, limit, n, fired, given)
    requires fired' == fired + Fires(w, op, p) && given' == given + Given(op, h)
    ensures Paced(Step(w, op), h, p, period, limit, n, fired', given')
  {
    if Finished(w, p, period, n, fired, given) {
      StaysFinished(w, op, h, p, period, limit, n, fired, given, fired', given');
    } else if Expires(w, op, h, p) {
      ExpiryFinishes(w, h, p, period, limit, n, fired, given);
    } else {
      GoingOn(w, op, h, p, period, limit, n, fired, given, fired', given');
    }
  }

  // ---------- whole runs ----------

  lemma {:induction false} RunPaced(w: World, ops: seq<Op>, h: HolderId, p: Ptr, period: nat, limit: nat, n: nat,
                                    fired: nat, given: int, fired': nat, given': int)
    requires Sound(w) && Legal(w, ops) && Undisturbed(w, ops, h, p, limit)
    requires Paced(w, h, p, period, limit, n, fired, given)
    requires fired' == fired + Firings(w, ops, p) && given' == given + TimeGiven(ops, h)
    ensures Paced(Run(w, ops), h, p, period, limit, n, fired', given')
    decreases |ops|, 1
  {
    if ops == [] {
      assert Run(w, ops) == w && fired' == fired && given' == given;
    } else {
      RunUnfold(w, ops);
      UndisturbedFirst(w, ops, h, p, limit);
      RunPacedNext(w, ops[0], ops[1..], h, p, period, limit, n, fired, given, fired', given');
    }
  }

  lemma {:induction false} RunPacedNext(w: World, op: Op, ops: seq<Op>, h: HolderId, p: Ptr, period: nat, limit: nat, n: nat,
                                        fired: nat, given: int, fired': nat, given': int)
    requires Sound(w) && Enabled(w, op) && !Touches(w, op, h, p) && Bounded(op, h, limit)
    requires Sound(Step(w, op)) && Legal(Step(w, op), ops) && Undisturbed(Step(w, op), ops, h, p, limit)
    requires Paced(w, h, p, period, limit, n, fired, given)
    requires fired' == fired + Fires(w, op, p) + Firings(Step(w, op), ops, p)
    requires given' == given + Given(op, h) + TimeGiven(ops, h)
    ensures Paced(Run(Step(w, op), ops), h, p, period, limit, n, fired', given')
    decreases |ops| + 1, 0
  {
    var f1, g1 := fired + Fires(w, op, p), given + Given(op, h);
    StepPaced(w, op, h, p, period, limit, n, fired, given, f1, g1);
    RunPaced(Step(w, op), ops, h, p, period, limit, n, f1, g1, fired', given');
  }

  /** `p` is alive with period `period` and repeat count `n`, freshly set, and held once, by `h`, which is between passes. */
  ghost predicate FreshlySet(w: World, h: HolderId, p: Ptr, period: nat, n: nat) {
    && Ticking(w, h, p, period) && w.heap[p].currTime == period && w.heap[p].repeats == n && w.holders[h].pass.Idle?
  }

  lemma {:induction false} StartsPaced(w: World, h: HolderId, p: Ptr, period: nat, limit: nat, n: nat)
    requires period >= 1 && FreshlySet(w, h, p, period, n) && Fresh(w)
    ensures Paced(w, h, p, period, limit, n, 0, 0)
  {
    RunsAtMostHere(w, h, p);
  }

  lemma {:induction false} GoingBounds(w: World, h: HolderId, p: Ptr, period: nat, limit: nat, n: nat, fired: nat, given: int)
    requires Going(w, h, p, period, limit, n, fired, given) && w.holders[h].pass.Idle?
    ensures fired * period <= given <= fired * (period - 1 + limit) + (period - 1) && (n == 0 || fired < n)
    ensures p in w.heap && !w.heap[p].deleted
  {
    RunsAtMostHere(w, h, p);
  }

  lemma {:induction false} FreshRunPaced(w: World, ops: seq<Op>, h: HolderId, p: Ptr, period: nat, limit: nat, n: nat)
    requires Sound(w) && Legal(w, ops) && period >= 1 && FreshlySet(w, h, p, period, n) && Undisturbed(w, ops, h, p, limit)
    ensures Paced(Run(w, ops), h, p, period, limit, n, Firings(w, ops, p), TimeGiven(ops, h))
  {
    StartsPaced(w, h, p, period, limit, n);
    RunPaced(w, ops, h, p, period, limit, n, 0, 0, Firings(w, ops, p), TimeGiven(ops, h));
  }

  /**
   The firing rate: an event with period P >= 1 and any repeat count n, freshly set and left alone,
   whose holder's passes were given S time units in deltas of at most D, has fired F times with
   F * P <= S <= F * (P - 1 + D) + (P - 1), until F reaches a count n > 0; then it is deleted or freed.
   */
  lemma {:induction false} FiringRate(w: World, ops: seq<Op>, h: HolderId, p: Ptr, period: nat, limit: nat, n: nat)
    requires Sound(w) && Legal(w, ops) && period >= 1 && FreshlySet(w, h, p, period, n)
    requires Undisturbed(w, ops, h, p, limit)
    requires var w' := Run(w, ops); h in w'.holders ==> w'.holders[h].pass.Idle?
    ensures var fired, given, w' := Firings(w, ops, p), TimeGiven(ops, h), Run(w, ops);
      && fired * period <= given
      && (n == 0 || fired < n ==>
            given <= fired * (period - 1 + limit) + (period - 1) && p in w'.heap && !w'.heap[p].deleted)
      && (n > 0 ==> fired <= n)
      && (n > 0 && fired == n ==> p in w'.heap ==> w'.heap[p].deleted)
  {
    var fired, given, w' := Firings(w, ops, p), TimeGiven(ops, h), Run(w, ops);
    FreshRunPaced(w, ops, h, p, period, limit, n);
    if Going(w', h, p, period, limit, n, fired, given) {
      GoingBounds(w', h, p, period, limit, n, fired, given);
    }
  }

  lemma {:induction false} StartInTime(w: World, op: Op, h: HolderId, p: Ptr, period: nat, limit: nat, fired: nat, given: int)
    requires NoDangling(w) && Enabled(w, op) && OnTime(w, h, p, period, limit, fired, given) && Fires(w, op, p) == 1
    ensures (fired + 1) * period <= given <= (fired + 1) * (period - 1 + limit)
  {
    SoleStart(w, op, h, p);
    VisitItself(w, h, p, period);
    InStepFire(period, limit, fired, given, period - w.heap[p].currTime, w.holders[h].pass.dt);
    assert (fired + 1) * period == fired * period + period;
  }

  /** The time by which the k-th firing comes. */
  ghost predicate InWindow(k: nat, period: nat, limit: nat, n: nat, given: int) {
    k * period <= given <= k * (period - 1 + limit) && (n > 0 ==> k <= n)
  }

  lemma {:induction false} StartPaced(w: World, op: Op, h: HolderId, p: Ptr, period: nat, limit: nat, n: nat, fired: nat, given: int)
    requires Sound(w) && Enabled(w, op) && Paced(w, h, p, period, limit, n, fired, given) && Fires(w, op, p) == 1
    ensures InWindow(fired + 1, period, limit, n, given)
  {
    StartInTime(w, op, h, p, period, limit, fired, given);
    OnTimeSole(w, h, p, period, limit, fired, given);
    SoleStart(w, op, h, p);
  }

  lemma {:induction false} OnTimeSole(w: World, h: HolderId, p: Ptr, period: nat, limit: nat, fired: nat, given: int)
    requires OnTime(w, h, p, period, limit, fired, given)
    ensures SoleHolder(w, h, p)
  {
  }

  /**
   The k-th firing comes when at least k * P and at most k * (P - 1 + D) time units have been given, for
   every k up to the repeat count.
   */
  lemma {:induction false} FiringTime(w: World, ops: seq<Op>, op: Op, h: HolderId, p: Ptr, period: nat, limit: nat, n: nat,
                                      w': World, fired: nat, given: int)
    requires Sound(w) && Legal(w, ops) && period >= 1 && FreshlySet(w, h, p, period, n)
    requires Undisturbed(w, ops, h, p, limit) && w' == Run(w, ops) && fired == Firings(w, ops, p) && given == TimeGiven(ops, h)
    requires Enabled(w', op) && Fires(w', op, p) == 1
    ensures InWindow(fired + 1, period, limit, n, given)
  {
    assert Sound(w') && Paced(w', h, p, period, limit, n, fired, given) by {
      FreshRunPaced(w, ops, h, p, period, limit, n);
    }
    StartPaced(w', op, h, p, period, limit, n, fired, given);
  }
}
