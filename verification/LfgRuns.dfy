/**
 Whole runs of the dungeon finder: where every player is, who agreed to every group that forms,
 and who goes back into the queue when a proposal fails.
 */
module LfgRuns {
  import opened Basics
  import opened LfgEntries
  import opened LfgQueues
  import opened LfgMatchmaking
  import opened LfgSafety

  datatype Event = Event(op: Op, now: int)

  function End(w: Finder, run: seq<Event>): Finder {
    if run == [] then w
    else
      var v := End(w, run[..|run| - 1]);
      var e := run[|run| - 1];
      if Defined(v, e.op) then Step(v, e.op, e.now) else v
  }

  predicate Legal(w: Finder, run: seq<Event>) {
    run == [] || (Legal(w, run[..|run| - 1]) && Allowed(End(w, run[..|run| - 1]), run[|run| - 1].op))
  }

  lemma {:induction false} RunSound(run: seq<Event>)
    requires Legal(START, run)
    ensures Sound(End(START, run))
    ensures run != [] ==> Defined(End(START, run[..|run| - 1]), run[|run| - 1].op)
  {
    StartSound();
    if run != [] {
      RunSound(run[..|run| - 1]);
      StepSound(End(START, run[..|run| - 1]), run[|run| - 1].op, run[|run| - 1].now);
    }
  }

  /**
   At every moment of every run: a player sits in a queue exactly once if the index lists that queue
   and not at all otherwise, is never both queued and in a pending proposal, and never in two.
   */
  lemma {:induction false} WhereEveryoneIs(run: seq<Event>, g: Guid)
    requires Legal(START, run)
    ensures var w := End(START, run);
      && (forall d :: Times(QueueAt(w.queues, d), g) == if g in w.dungeonsOf && d in w.dungeonsOf[g] then 1 else 0)
      && (forall id :: id in w.proposals && Member(w.proposals[id].players, g) ==> g !in w.dungeonsOf)
      && (forall a, b :: a in w.proposals && b in w.proposals && Member(w.proposals[a].players, g) && Member(w.proposals[b].players, g) ==> a == b)
  {
    RunSound(run);
  }

  // ---------- consent ----------

  /** `e` is a yes from `g` to proposal `id`, which is pending in `w` and has `g` among its players. */
  ghost predicate IsYes(w: Finder, e: Event, id: nat, g: Guid) {
    && e.op.Answer? && e.op.id == id && e.op.answerer == g && e.op.result != 0
    && id in w.proposals && Member(w.proposals[id].players, g)
  }

  ghost predicate SaidYes(run: seq<Event>, id: nat, g: Guid) {
    exists k :: 0 <= k < |run| && IsYes(End(START, run[..k]), run[k], id, g)
  }

  ghost predicate YesBehind(run: seq<Event>, id: nat, ps: seq<ProposalEntry>) {
    forall k :: 0 <= k < |ps| && ps[k].accepted != 0 ==> SaidYes(run, id, ps[k].guid)
  }

  ghost predicate PendingConsent(run: seq<Event>, proposals: map<nat, Proposal>) {
    forall id :: id in proposals ==> YesBehind(run, id, proposals[id].players)
  }

  ghost predicate GroupsConsent(run: seq<Event>, groups: seq<Formed>) {
    forall i :: 0 <= i < |groups| ==> AllAccepted(groups[i].players) && YesBehind(run, groups[i].id, groups[i].players)
  }

  lemma {:induction false} YesRemembered(run: seq<Event>, e: Event, id: nat, g: Guid)
    requires SaidYes(run, id, g)
    ensures SaidYes(run + [e], id, g)
  {
    var k :| 0 <= k < |run| && IsYes(End(START, run[..k]), run[k], id, g);
    assert (run + [e])[..k] == run[..k] && (run + [e])[k] == run[k];
  }

  lemma {:induction false} YesGiven(run: seq<Event>, e: Event, id: nat, g: Guid)
    requires IsYes(End(START, run), e, id, g)
    ensures SaidYes(run + [e], id, g)
  {
    assert (run + [e])[..|run|] == run && (run + [e])[|run|] == e;
  }

  lemma {:induction false} YesStays(run: seq<Event>, e: Event, id: nat, ps: seq<ProposalEntry>)
    requires YesBehind(run, id, ps)
    ensures YesBehind(run + [e], id, ps)
  {
    forall k | 0 <= k < |ps| && ps[k].accepted != 0 ensures SaidYes(run + [e], id, ps[k].guid) {
      YesRemembered(run, e, id, ps[k].guid);
    }
  }

  lemma {:induction false} ConsentStays(run: seq<Event>, e: Event, proposals: map<nat, Proposal>, groups: seq<Formed>)
    requires PendingConsent(run, proposals) && GroupsConsent(run, groups)
    ensures PendingConsent(run + [e], proposals) && GroupsConsent(run + [e], groups)
  {
    forall id | id in proposals ensures YesBehind(run + [e], id, proposals[id].players) {
      YesStays(run, e, id, proposals[id].players);
    }
    forall i | 0 <= i < |groups| ensures YesBehind(run + [e], groups[i].id, groups[i].players) {
      YesStays(run, e, groups[i].id, groups[i].players);
    }
  }

  lemma {:induction false} YesAnswer(run: seq<Event>, e: Event, ps: seq<ProposalEntry>, i: nat)
    requires e.op.Answer? && i < |ps| && ps[i].guid == e.op.answerer && YesBehind(run, e.op.id, ps)
    requires e.op.result != 0 ==> IsYes(End(START, run), e, e.op.id, e.op.answerer)
    ensures YesBehind(run + [e], e.op.id, Answered(ps, i, e.op.result))
  {
    YesStays(run, e, e.op.id, ps);
    if e.op.result != 0 { YesGiven(run, e, e.op.id, e.op.answerer); }
    var q := Answered(ps, i, e.op.result);
    forall k | 0 <= k < |q| && q[k].accepted != 0 ensures SaidYes(run + [e], e.op.id, q[k].guid) {
      if k != i { assert q[k] == ps[k]; }
    }
  }

  /** What a step can do to proposals and groups: nothing, drop one, open a fresh one, record an answer, or form a group. */
  lemma {:induction false} StepConsent(run: seq<Event>, w: Finder, op: Op, now: int)
    requires w == End(START, run) && Defined(w, op) && PendingConsent(run, w.proposals) && GroupsConsent(run, w.groups)
    ensures var w' := Step(w, op, now); var run' := run + [Event(op, now)];
      PendingConsent(run', w'.proposals) && GroupsConsent(run', w'.groups)
  {
    ConsentStays(run, Event(op, now), w.proposals, w.groups);
    match op
    case Join(_, _, _, _, _, _) =>
    case Leave(g, pending) =>
    case Expire(_) =>
    case Match(d, team, force) =>
      var ps := FindMatch(QueueAt(w.queues, d), team, force);
      UnqueueAllFrame(w, ps);
    case Answer(id, g, r, placement) =>
      if id in w.proposals && Seat(w.proposals[id].players, g) < |w.proposals[id].players| {
        var i := Seat(w.proposals[id].players, g);
        SeatOfMember(w.proposals[id].players, g);
        YesAnswer(run, Event(op, now), w.proposals[id].players, i);
        AnswerConsent(run + [Event(op, now)], w, id, i, g, r, placement, now);
      }
  }

  lemma {:induction false} AnswerConsent(run: seq<Event>, w: Finder, id: nat, i: nat, g: Guid, r: nat, placement: Placement, now: int)
    requires id in w.proposals && i == Seat(w.proposals[id].players, g) && i < |w.proposals[id].players|
    requires AnswerLeavesSome(w, id, g, r)
    requires PendingConsent(run, w.proposals) && GroupsConsent(run, w.groups)
    requires YesBehind(run, id, Answered(w.proposals[id].players, i, r))
    ensures var w' := AnswerStep(w, id, g, r, placement, now); PendingConsent(run, w'.proposals) && GroupsConsent(run, w'.groups)
  {
  }

  /** A group only ever forms from players each of whom said yes to that very proposal. */
  lemma {:induction false} GroupsConsented(run: seq<Event>)
    requires Legal(START, run)
    ensures PendingConsent(run, End(START, run).proposals) && GroupsConsent(run, End(START, run).groups)
  {
    if run != [] {
      var front, e := run[..|run| - 1], run[|run| - 1];
      GroupsConsented(front);
      RunSound(run);
      StepConsent(front, End(START, front), e.op, e.now);
      assert front + [e] == run;
    }
  }

  // ---------- complete groups ----------

  ghost predicate AllFull(w: Finder) {
    && (forall id :: id in w.proposals ==> FullGroup(w.proposals[id].players))
    && (forall i :: 0 <= i < |w.groups| ==> FullGroup(w.groups[i].players))
  }

  ghost predicate NeverForced(run: seq<Event>) {
    forall k :: 0 <= k < |run| && run[k].op.Match? ==> !run[k].op.force
  }

  lemma {:induction false} AnsweredFull(ps: seq<ProposalEntry>, i: nat, result: nat)
    requires i < |ps| && FullGroup(ps)
    ensures FullGroup(Answered(ps, i, result))
  {
    assert Seats(Answered(ps, i, result), 0) == Seats(ps, 0);
  }

  lemma {:induction false} MatchFull(w: Finder, d: nat, team: nat, ps: seq<ProposalEntry>)
    requires QueuesOk(w.queues) && ps == FindMatch(QueueAt(w.queues, d), team, false) && ps != []
    ensures FullGroup(ps)
  {
    AtOk(w.queues, d);
    MatchIsFull(QueueAt(w.queues, d), team);
  }

  lemma {:induction false} MatchStepFull(w: Finder, d: nat, team: nat, now: int)
    requires QueuesOk(w.queues) && AllFull(w)
    ensures AllFull(MatchStep(w, d, team, false, now))
  {
    var ps := FindMatch(QueueAt(w.queues, d), team, false);
    if ps != [] {
      MatchFull(w, d, team, ps);
      UnqueueAllFrame(w, ps);
    }
  }

  lemma {:induction false} StepFull(w: Finder, op: Op, now: int)
    requires QueuesOk(w.queues) && Defined(w, op) && AllFull(w) && !(op.Match? && op.force)
    ensures AllFull(Step(w, op, now))
  {
    match op
    case Join(_, _, _, _, _, _) =>
    case Leave(_, _) =>
    case Expire(_) =>
    case Match(d, team, force) => MatchStepFull(w, d, team, now);
    case Answer(id, g, r, placement) => AnswerFull(w, id, g, r, placement, now);
  }

  lemma {:induction false} AnswerFull(w: Finder, id: nat, g: Guid, r: nat, placement: Placement, now: int)
    requires AnswerLeavesSome(w, id, g, r) && AllFull(w)
    ensures AllFull(AnswerStep(w, id, g, r, placement, now))
  {
    if id in w.proposals && Seat(w.proposals[id].players, g) < |w.proposals[id].players| {
      AnsweredFull(w.proposals[id].players, Seat(w.proposals[id].players, g), r);
    }
  }

  /** Unless matching is forced, every proposal and every group has five players in exactly the five seats, one leading. */
  lemma {:induction false} GroupsAreFull(run: seq<Event>)
    requires Legal(START, run) && NeverForced(run)
    ensures AllFull(End(START, run))
  {
    if run != [] {
      var front, e := run[..|run| - 1], run[|run| - 1];
      assert forall k :: 0 <= k < |front| ==> front[k] == run[k];
      GroupsAreFull(front);
      RunSound(front);
      RunSound(run);
      StepFull(End(START, front), e.op, e.now);
    }
  }

  // ---------- failing ----------

  /** The proposal is gone and exactly `stay`, with their roles and in order, are one group at the front of its queue. */
  ghost predicate Requeued(w: Finder, w': Finder, id: nat, d: nat, stay: seq<ProposalEntry>, now: int) {
    && id !in w'.proposals
    && d in w'.queues && |w'.queues[d]| > 0 && w'.queues[d][0].players == Seats(stay, now)
    && (stay != [] ==> w'.queues[d][0].team == stay[0].team)
    && w'.queues[d][1..] == QueueAt(w.queues, d)
    && (forall e :: e != d ==> QueueAt(w'.queues, e) == QueueAt(w.queues, e))
    && Assigned(w.dungeonsOf, w'.dungeonsOf, stay, [d])
  }

  lemma {:induction false} FailRequeues(w: Finder, id: nat, p: Proposal, now: int)
    requires QueuesOk(w.queues) && Rest(p.players) != [] && Fits(Seats(Rest(p.players), 0))
    ensures Requeued(w, Fail(w, id, p, now), id, p.dungeon, Rest(p.players), now)
  {
    AtOk(w.queues, p.dungeon);
    ReaddSeats(QueueAt(w.queues, p.dungeon), Rest(p.players), now);
    AssignAllLists(w.dungeonsOf, Rest(p.players), [p.dungeon]);
  }

  lemma {:induction false} KeepAll(ps: seq<ProposalEntry>, g: Guid)
    requires forall k :: 0 <= k < |ps| ==> ps[k].guid != g
    ensures Keep(ps, {g}) == ps
  {
    if ps != [] {
      KeepAll(ps[1..], g);
    }
  }

  ghost predicate Distinct(ps: seq<ProposalEntry>) {
    forall j, k :: 0 <= j < k < |ps| ==> ps[j].guid != ps[k].guid
  }

  lemma {:induction false} DistinctTail(ps: seq<ProposalEntry>)
    requires Distinct(ps) && ps != []
    ensures Distinct(ps[1..])
  {
  }

  lemma {:induction false} DistinctAnswered(ps: seq<ProposalEntry>, i: nat, result: nat)
    requires i < |ps| && Distinct(ps)
    ensures Distinct(Answered(ps, i, result)) && Answered(ps, i, result)[i].guid == ps[i].guid
  {
    var q := Answered(ps, i, result);
    assert forall k :: 0 <= k < |ps| ==> q[k].guid == ps[k].guid;
  }

  lemma {:induction false} EraseTail(ps: seq<ProposalEntry>, i: nat)
    requires 0 < i < |ps|
    ensures Erase(ps, i) == [ps[0]] + Erase(ps[1..], i - 1)
  {
  }

  lemma {:induction false} HeadApart(ps: seq<ProposalEntry>, i: nat)
    requires 0 < i < |ps| && Distinct(ps)
    ensures ps[0].guid != ps[i].guid
  {
  }

  lemma {:induction false} KeepTail(ps: seq<ProposalEntry>)
    requires ps != [] && Distinct(ps)
    ensures Keep(ps[1..], {ps[0].guid}) == ps[1..]
  {
    KeepAll(ps[1..], ps[0].guid);
  }

  /** Erasing the seat of a player keeps exactly the others. */
  lemma {:induction false} EraseIsKeep(ps: seq<ProposalEntry>, i: nat)
    requires i < |ps| && Distinct(ps)
    ensures Erase(ps, i) == Keep(ps, {ps[i].guid})
  {
    if i == 0 {
      KeepTail(ps);
      assert Erase(ps, 0) == ps[1..];
    } else {
      DistinctTail(ps);
      HeadApart(ps, i);
      EraseIsKeep(ps[1..], i - 1);
      EraseTail(ps, i);
    }
  }

  lemma {:induction false} FitsDistinct(ps: seq<ProposalEntry>)
    requires Fits(Seats(ps, 0))
    ensures Distinct(ps)
  {
    var s := Seats(ps, 0);
    forall j, k | 0 <= j < k < |ps| ensures ps[j].guid != ps[k].guid {
      assert s[j].guid != s[k].guid;
    }
  }

  /** When a proposal times out, every player of it goes back. */
  lemma {:induction false} ExpiryRequeuesAll(w: Finder, id: nat, now: int)
    requires Sound(w) && id in w.proposals && now >= w.proposals[id].expiry && Defined(w, Expire(id))
    ensures Requeued(w, ExpireStep(w, id, now), id, w.proposals[id].dungeon, w.proposals[id].players, now)
  {
    assert PlayersOk(w.proposals[id].players);
    RestOfUndeclined(w.proposals[id].players);
    FailRequeues(w, id, w.proposals[id], now);
  }

  /** When a player leaves, the others go back and the leaver is in no queue and no proposal. */
  lemma {:induction false} LeavingRequeuesOthers(w: Finder, g: Guid, id: nat, now: int)
    requires Sound(w) && Allowed(w, Leave(g, Some(id))) && Defined(w, Leave(g, Some(id)))
    ensures var w' := LeaveStep(w, g, Some(id), now);
      && Requeued(w, w', id, w.proposals[id].dungeon, Keep(w.proposals[id].players, {g}), now)
      && g !in w'.dungeonsOf && forall b :: b in w'.proposals ==> !Member(w'.proposals[b].players, g)
  {
    var ps := w.proposals[id].players;
    assert PlayersOk(ps);
    SeatOfMember(ps, g);
    FitsDistinct(ps);
    var i := Seat(ps, g);
    EraseIsKeep(ps, i);
    EraseFits(ps, i);
    EraseUndeclined(ps, i);
    RestOfUndeclined(Erase(ps, i));
    NotQueued(w, id, g);
    FailRequeues(w, id, w.proposals[id].(players := Erase(ps, i)), now);
    LeaverGone(w, id, g, Erase(ps, i), AssignAll(w.dungeonsOf, Erase(ps, i), [w.proposals[id].dungeon]));
  }

  /** A new proposal times out from twenty seconds after it was made, and not before. */
  lemma {:induction false} ProposalLifetime(w: Finder, d: nat, team: nat, force: bool, now: int, later: int)
    requires Sound(w) && FindMatch(QueueAt(w.queues, d), team, force) != []
    requires Defined(MatchStep(w, d, team, force, now), Expire(w.lastId + 1))
    ensures var w' := MatchStep(w, d, team, force, now);
      && w.lastId + 1 in w'.proposals
      && (w.lastId + 1 in ExpireStep(w', w.lastId + 1, later).proposals <==> later < now + 20)
  {
    UnqueueAllFrame(w, FindMatch(QueueAt(w.queues, d), team, force));
  }

  lemma {:induction false} NotQueued(w: Finder, id: nat, g: Guid)
    requires Exclusive(w.dungeonsOf, w.proposals) && id in w.proposals && Member(w.proposals[id].players, g)
    ensures g !in w.dungeonsOf && Unqueue(w, g) == w
  {
  }

  lemma {:induction false} LeaverGone(w: Finder, id: nat, g: Guid, stay: seq<ProposalEntry>, dOf: map<Guid, seq<nat>>)
    requires Exclusive(w.dungeonsOf, w.proposals) && Apart(w.proposals)
    requires id in w.proposals && Member(w.proposals[id].players, g) && stay == Keep(w.proposals[id].players, {g})
    requires Assigned(w.dungeonsOf, dOf, stay, [w.proposals[id].dungeon])
    ensures g !in dOf && forall b :: b in w.proposals - {id} ==> !Member(w.proposals[b].players, g)
  {
    KeepDrops(w.proposals[id].players, g);
  }

  lemma {:induction false} KeepDrops(ps: seq<ProposalEntry>, g: Guid)
    ensures !Member(Keep(ps, {g}), g)
  {
    var stay := Keep(ps, {g});
    KeepMembers(ps, {g});
    forall k | 0 <= k < |stay| ensures stay[k].guid != g {
      assert stay[k] in stay;
    }
  }

  lemma {:induction false} AnsweredKeep(ps: seq<ProposalEntry>, i: nat, result: nat)
    requires i < |ps| && Distinct(ps)
    ensures Keep(Answered(ps, i, result), {ps[i].guid}) == Keep(ps, {ps[i].guid})
  {
    var q := Answered(ps, i, result);
    DistinctAnswered(ps, i, result);
    EraseIsKeep(q, i);
    EraseIsKeep(ps, i);
    assert Erase(q, i) == Erase(ps, i);
  }

  /** When a player declines, the others go back and the decliner is in no queue and no proposal. */
  lemma {:induction false} DecliningRequeuesOthers(w: Finder, g: Guid, id: nat, placement: Placement, now: int)
    requires Sound(w) && id in w.proposals && Member(w.proposals[id].players, g) && |w.proposals[id].players| >= 2
    requires Defined(w, Answer(id, g, 0, placement))
    ensures var w' := AnswerStep(w, id, g, 0, placement, now);
      && Requeued(w, w', id, w.proposals[id].dungeon, Keep(w.proposals[id].players, {g}), now)
      && g !in w'.dungeonsOf && forall b :: b in w'.proposals ==> !Member(w'.proposals[b].players, g)
  {
    var ps := w.proposals[id].players;
    assert PlayersOk(ps);
    SeatOfMember(ps, g);
    FitsDistinct(ps);
    var i := Seat(ps, g);
    var q := Answered(ps, i, 0);
    DistinctAnswered(ps, i, 0);
    EraseIsKeep(q, i);
    AnsweredKeep(ps, i, 0);
    AnsweredDecliner(ps, i, 0);
    AnsweredRest(ps, i, 0);
    FailRequeues(w, id, w.proposals[id].(players := q), now);
    LeaverGone(w, id, g, Rest(q), AssignAll(w.dungeonsOf, Rest(q), [w.proposals[id].dungeon]));
  }

  // ---------- who is lost ----------

  predicate Pending(w: Finder, guid: Guid) {
    exists id :: id in w.proposals && Member(w.proposals[id].players, guid)
  }

  predicate JustGrouped(w: Finder, w': Finder, g: Guid) {
    exists i :: |w.groups| <= i < |w'.groups| && Member(w'.groups[i].players, g)
  }

  /** After the step from `w` to `w'` player `g` is queued, in a pending proposal, or in a group that has just formed. */
  predicate Somewhere(w: Finder, w': Finder, g: Guid) {
    g in w'.dungeonsOf || Pending(w', g) || JustGrouped(w, w', g)
  }

  lemma {:induction false} ListedAfterFail(w: Finder, id: nat, p: Proposal, now: int, g: Guid)
    requires Rest(p.players) != [] && Member(Rest(p.players), g)
    ensures g in Fail(w, id, p, now).dungeonsOf
  {
    AssignAllLists(w.dungeonsOf, Rest(p.players), [p.dungeon]);
  }

  /** Accepted by everyone: nobody is lost if and only if an instance can be made or no dungeon is left to go to. */
  lemma {:induction false} ConcludeKeepsIff(w: Finder, id: nat, p: Proposal, placement: Placement, now: int, g: Guid)
    requires Exclusive(w.dungeonsOf, w.proposals) && Apart(w.proposals)
    requires id in w.proposals && Member(w.proposals[id].players, g)
    requires Rest(p.players) == p.players && p.players != [] && Member(p.players, g)
    ensures Somewhere(w, Conclude(w, id, p, placement, now), g) <==> placement != NoInstance
  {
    var w' := Conclude(w, id, p, placement, now);
    match placement
    case NoDungeon => ListedAfterFail(w, id, p, now, g);
    case NoInstance =>
    case Started => assert w'.groups[|w.groups|].players == p.players;
  }

  lemma {:induction false} AnsweredMembers(ps: seq<ProposalEntry>, i: nat, result: nat, g: Guid)
    requires i < |ps| && Member(ps, g)
    ensures Member(Answered(ps, i, result), g)
  {
    var k :| 0 <= k < |ps| && ps[k].guid == g;
    assert Answered(ps, i, result)[k].guid == g;
  }

  lemma {:induction false} OthersStay(ps: seq<ProposalEntry>, g: Guid, gone: Guid)
    requires Member(ps, g) && g != gone
    ensures Member(Keep(ps, {gone}), g)
  {
    var stay := Keep(ps, {gone});
    if ps[0].guid == g {
      assert stay[0].guid == g;
    } else {
      MemberCons(ps, g);
      OthersStay(ps[1..], g, gone);
      if ps[0].guid == gone {
        assert stay == Keep(ps[1..], {gone});
      } else {
        assert stay[1..] == Keep(ps[1..], {gone});
        MemberCons(stay, g);
      }
    }
  }

  lemma {:induction false} DeclineKeeps(w: Finder, id: nat, guid: Guid, placement: Placement, now: int, g: Guid)
    requires Sound(w) && id in w.proposals && Member(w.proposals[id].players, guid) && Member(w.proposals[id].players, g)
    requires g != guid && Defined(w, Answer(id, guid, 0, placement))
    ensures g in AnswerStep(w, id, guid, 0, placement, now).dungeonsOf
  {
    var ps := w.proposals[id].players;
    assert |ps| >= 2;
    DecliningRequeuesOthers(w, guid, id, placement, now);
    OthersStay(ps, g, guid);
  }

  /**
   Whoever answers a proposal, a player of it who does not decline stays in a queue or in the proposal
   or is in the group that forms, if and only if this is not the last consent to a group for which no
   instance can be made.
   */
  lemma {:induction false} NoInstanceLosesPlayers(w: Finder, id: nat, guid: Guid, result: nat, placement: Placement, now: int, g: Guid)
    requires Sound(w) && id in w.proposals && Member(w.proposals[id].players, guid) && Member(w.proposals[id].players, g)
    requires Defined(w, Answer(id, guid, result, placement)) && (result == 0 ==> g != guid)
    ensures var ps := w.proposals[id].players;
      Seat(ps, guid) < |ps| && (Somewhere(w, AnswerStep(w, id, guid, result, placement, now), g) <==>
        !(result != 0 && AllAccepted(Answered(ps, Seat(ps, guid), result)) && placement == NoInstance))
  {
    var ps := w.proposals[id].players;
    SeatOfMember(ps, guid);
    if result == 0 {
      DeclineKeeps(w, id, guid, placement, now, g);
    } else {
      ConsentKeeps(w, id, Seat(ps, guid), guid, result, placement, now, g);
    }
  }

  lemma {:induction false} ConsentKeeps(w: Finder, id: nat, i: nat, guid: Guid, result: nat, placement: Placement, now: int, g: Guid)
    requires Sound(w) && id in w.proposals && Member(w.proposals[id].players, g)
    requires i == Seat(w.proposals[id].players, guid) && i < |w.proposals[id].players| && result != 0
    requires Defined(w, Answer(id, guid, result, placement))
    ensures Somewhere(w, AnswerStep(w, id, guid, result, placement, now), g) <==>
      !(AllAccepted(Answered(w.proposals[id].players, i, result)) && placement == NoInstance)
  {
    var ps := w.proposals[id].players;
    assert PlayersOk(ps);
    AnsweredMembers(ps, i, result, g);
    AnsweredDecliner(ps, i, result);
    var p' := w.proposals[id].(players := Answered(ps, i, result));
    RestOfUndeclined(p'.players);
    if AllAccepted(p'.players) {
      ConcludeKeepsIff(w, id, p', placement, now, g);
    } else {
      assert id in AnswerStep(w, id, guid, result, placement, now).proposals;
    }
  }

  // ---------- what callers must respect ----------

  predicate Effective(w: Finder, guid: Guid, roles: RoleMask, ds: seq<nat>, grouped: bool, eligible: set<nat>) {
    guid !in w.dungeonsOf && roles != 0 && ds != [] && !grouped && forall k :: 0 <= k < |ds| ==> ds[k] in eligible
  }

  /** A join keeps queues and proposals apart exactly when the player is in no pending proposal. */
  lemma {:induction false} JoinKeepsApartIff(w: Finder, guid: Guid, roles: RoleMask, ds: seq<nat>, team: nat, grouped: bool, eligible: set<nat>, now: int)
    requires Sound(w) && Effective(w, guid, roles, ds, grouped, eligible)
    ensures var w' := JoinStep(w, guid, roles, ds, team, grouped, eligible, now);
      Exclusive(w'.dungeonsOf, w'.proposals) <==> !Pending(w, guid)
  {
    ListingPending(w, guid, ds);
  }

  lemma {:induction false} ListingPending(w: Finder, guid: Guid, ds: seq<nat>)
    requires Exclusive(w.dungeonsOf, w.proposals)
    ensures Exclusive(w.dungeonsOf[guid := ds], w.proposals) <==> !Pending(w, guid)
  {
    var dOf := w.dungeonsOf[guid := ds];
    if Pending(w, guid) {
      var id :| id in w.proposals && Member(w.proposals[id].players, guid);
      assert guid in dOf;
    } else {
      forall id, g | id in w.proposals && Member(w.proposals[id].players, g) ensures g !in dOf {
        assert g != guid;
      }
    }
  }

  /** A join keeps the queues valid and the index exact exactly when a combat role is offered and no dungeon is named twice. */
  lemma {:induction false} JoinKeepsIndexIff(w: Finder, guid: Guid, roles: RoleMask, ds: seq<nat>, team: nat, grouped: bool, eligible: set<nat>, now: int)
    requires Sound(w) && Effective(w, guid, roles, ds, grouped, eligible)
    ensures Queued(JoinStep(w, guid, roles, ds, team, grouped, eligible, now)) <==> HasCombatRole(roles) && NoRepeat(ds)
  {
    var w' := JoinStep(w, guid, roles, ds, team, grouped, eligible, now);
    assert w'.dungeonsOf[guid] == ds;
    if HasCombatRole(roles) && NoRepeat(ds) {
      JoinQueued(w, guid, roles, ds, team, now);
    } else if NoRepeat(ds) {
      IndexBounds(w.queues, w.dungeonsOf, guid, ds);
      EnqueueLeaderOnly(w.queues, guid, team, roles, ds, ds[0], now);
      assert Listed(w'.dungeonsOf, guid, ds[0]) == 1;
    } else {
      assert !ListsOk(w'.queues, w'.dungeonsOf);
    }
  }

  function Mentions(ds: seq<nat>, d: nat): nat {
    if ds == [] then 0 else (if ds[0] == d then 1 else 0) + Mentions(ds[1..], d)
  }

  lemma {:induction false} EnqueueOneSeat(queues: map<nat, Queue>, queues': map<nat, Queue>, guid: Guid, team: nat, roles: RoleMask, e: nat, now: int, d: nat)
    requires queues' == queues[e := AddPlayer(QueueAt(queues, e), guid, team, roles, now)]
    ensures SeatsHeld(QueueAt(queues', d), guid)
         == SeatsHeld(QueueAt(queues, d), guid) + (if HasCombatRole(roles) && d == e then 1 else 0)
  {
    JoinTakesSeat(QueueAt(queues, e), guid, team, roles, now);
  }

  lemma {:induction false} EnqueueTakesSeats(queues: map<nat, Queue>, guid: Guid, team: nat, roles: RoleMask, ds: seq<nat>, now: int, d: nat)
    ensures SeatsHeld(QueueAt(EnqueueAll(queues, guid, team, roles, ds, now), d), guid)
         == SeatsHeld(QueueAt(queues, d), guid) + (if HasCombatRole(roles) then Mentions(ds, d) else 0)
    decreases |ds|
  {
    if ds != [] {
      var queues' := queues[ds[0] := AddPlayer(QueueAt(queues, ds[0]), guid, team, roles, now)];
      EnqueueOneSeat(queues, queues', guid, team, roles, ds[0], now, d);
      EnqueueTakesSeats(queues', guid, team, roles, ds[1..], now, d);
      assert EnqueueAll(queues, guid, team, roles, ds, now) == EnqueueAll(queues', guid, team, roles, ds[1..], now);
    }
  }

  /** A join that takes effect gives the player one seat for each mention of a dungeon, or none at all without a combat role. */
  lemma {:induction false} JoinSeatsPerMention(w: Finder, guid: Guid, roles: RoleMask, ds: seq<nat>, team: nat, grouped: bool, eligible: set<nat>, now: int, d: nat)
    requires Effective(w, guid, roles, ds, grouped, eligible)
    ensures var w' := JoinStep(w, guid, roles, ds, team, grouped, eligible, now);
      SeatsHeld(QueueAt(w'.queues, d), guid)
        == SeatsHeld(QueueAt(w.queues, d), guid) + (if HasCombatRole(roles) then Mentions(ds, d) else 0)
  {
    EnqueueTakesSeats(w.queues, guid, team, roles, ds, now, d);
  }

  /** So a join keeps the whole finder sound exactly when all three hold. */
  lemma {:induction false} JoinSoundIff(w: Finder, guid: Guid, roles: RoleMask, ds: seq<nat>, team: nat, grouped: bool, eligible: set<nat>, now: int)
    requires Sound(w) && Effective(w, guid, roles, ds, grouped, eligible)
    ensures Sound(JoinStep(w, guid, roles, ds, team, grouped, eligible, now))
      <==> HasCombatRole(roles) && NoRepeat(ds) && !Pending(w, guid)
  {
    JoinKeepsApartIff(w, guid, roles, ds, team, grouped, eligible, now);
    JoinKeepsIndexIff(w, guid, roles, ds, team, grouped, eligible, now);
    if HasCombatRole(roles) && NoRepeat(ds) && !Pending(w, guid) {
      JoinSound(w, guid, roles, ds, team, grouped, eligible, now);
    }
  }

  lemma {:induction false} EnqueueLeaderOnly(queues: map<nat, Queue>, guid: Guid, team: nat, roles: RoleMask, ds: seq<nat>, d: nat, now: int)
    requires !HasCombatRole(roles)
    ensures Times(QueueAt(EnqueueAll(queues, guid, team, roles, ds, now), d), guid) == Times(QueueAt(queues, d), guid)
    decreases |ds|
  {
    if ds != [] {
      var q := QueueAt(queues, ds[0]);
      LeaderOnlyIsNotSeated(q, guid, team, roles, now);
      TimesAppend(q, [NewEntry(team)], guid);
      EnqueueLeaderOnly(queues[ds[0] := AddPlayer(q, guid, team, roles, now)], guid, team, roles, ds[1..], d, now);
    }
  }
}
