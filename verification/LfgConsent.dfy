/**
 What becomes of consent: every yes is remembered as long as the proposal is pending, and the yes that
 completes a proposal forms exactly one group of exactly its players.
 */
module LfgConsent {
  import opened Basics
  import opened LfgEntries
  import opened LfgQueues
  import opened LfgMatchmaking
  import opened LfgSafety
  import opened LfgRuns

  // ---------- one answer ----------

  /** The same players, each with the same seat; what they answered may differ. */
  ghost predicate SameSeats(ps: seq<ProposalEntry>, qs: seq<ProposalEntry>) {
    |qs| == |ps| && forall k :: 0 <= k < |ps| ==>
      qs[k].guid == ps[k].guid && qs[k].team == ps[k].team && qs[k].selectedRoles == ps[k].selectedRoles
  }

  /** `guid` answered `result` and nobody else's answer changed. */
  ghost predicate AnswerNoted(ps: seq<ProposalEntry>, qs: seq<ProposalEntry>, guid: Guid, result: nat) {
    && SameSeats(ps, qs)
    && forall k :: 0 <= k < |ps| ==>
         if ps[k].guid == guid then qs[k].answered == 1 && qs[k].accepted == result
         else qs[k].answered == ps[k].answered && qs[k].accepted == ps[k].accepted
  }

  lemma {:induction false} AnsweredNotes(ps: seq<ProposalEntry>, i: nat, result: nat)
    requires i < |ps| && Distinct(ps)
    ensures AnswerNoted(ps, Answered(ps, i, result), ps[i].guid, result)
  {
    forall k | 0 <= k < |ps| && k != i ensures ps[k].guid != ps[i].guid {
      if k < i { assert ps[k].guid != ps[i].guid; }
    }
  }

  /** Somebody other than `guid` has not said yes. */
  predicate Awaited(ps: seq<ProposalEntry>, guid: Guid) {
    exists k :: 0 <= k < |ps| && ps[k].guid != guid && ps[k].accepted == 0
  }

  lemma {:induction false} AwaitedIff(ps: seq<ProposalEntry>, i: nat, result: nat)
    requires i < |ps| && Distinct(ps) && result != 0
    ensures AllAccepted(Answered(ps, i, result)) <==> !Awaited(ps, ps[i].guid)
  {
    var qs := Answered(ps, i, result);
    AnsweredNotes(ps, i, result);
    if Awaited(ps, ps[i].guid) {
      var k :| 0 <= k < |ps| && ps[k].guid != ps[i].guid && ps[k].accepted == 0;
      assert qs[k].accepted == 0;
    } else {
      forall k | 0 <= k < |qs| ensures qs[k].accepted != 0 {
      }
    }
  }

  /** A yes while others are awaited changes the answerer's record in the pending proposal and nothing else at all. */
  lemma {:induction false} YesIsRecorded(w: Finder, id: nat, guid: Guid, result: nat, placement: Placement, now: int)
    requires ProposalsOk(w) && id in w.proposals && Member(w.proposals[id].players, guid) && result != 0
    requires Defined(w, Answer(id, guid, result, placement)) && Awaited(w.proposals[id].players, guid)
    ensures var p, w' := w.proposals[id], AnswerStep(w, id, guid, result, placement, now);
      && id in w'.proposals && AnswerNoted(p.players, w'.proposals[id].players, guid, result)
      && w'.proposals[id].dungeon == p.dungeon && w'.proposals[id].expiry == p.expiry
      && w'.proposals - {id} == w.proposals - {id} && OnlyProposals(w, w')
  {
    PlayersDistinct(w, id);
    SeatOfMember(w.proposals[id].players, guid);
    YesIsKept(w, id, Seat(w.proposals[id].players, guid), guid, result, placement, now);
  }

  /** Queues, index, groups and the count of proposals are as they were. */
  ghost predicate OnlyProposals(w: Finder, w': Finder) {
    w'.queues == w.queues && w'.dungeonsOf == w.dungeonsOf && w'.groups == w.groups && w'.lastId == w.lastId
  }

  lemma {:induction false} PlayersDistinct(w: Finder, id: nat)
    requires ProposalsOk(w) && id in w.proposals
    ensures Distinct(w.proposals[id].players)
  {
    assert PlayersOk(w.proposals[id].players);
    FitsDistinct(w.proposals[id].players);
  }

  lemma {:induction false} WithoutId(proposals: map<nat, Proposal>, id: nat, p: Proposal)
    ensures proposals[id := p] - {id} == proposals - {id} && (proposals - {id}) - {id} == proposals - {id}
  {
  }

  lemma {:induction false} YesIsKept(w: Finder, id: nat, i: nat, guid: Guid, result: nat, placement: Placement, now: int)
    requires id in w.proposals && i == Seat(w.proposals[id].players, guid) && i < |w.proposals[id].players| && result != 0
    requires Distinct(w.proposals[id].players) && AnswerLeavesSome(w, id, guid, result) && Awaited(w.proposals[id].players, guid)
    ensures var p, w' := w.proposals[id], AnswerStep(w, id, guid, result, placement, now);
      && id in w'.proposals && AnswerNoted(p.players, w'.proposals[id].players, guid, result)
      && w'.proposals[id].dungeon == p.dungeon && w'.proposals[id].expiry == p.expiry
      && w'.proposals - {id} == w.proposals - {id} && OnlyProposals(w, w')
  {
    var p := w.proposals[id];
    AnsweredNotes(p.players, i, result);
    AwaitedIff(p.players, i, result);
    WithoutId(w.proposals, id, p.(players := Answered(p.players, i, result)));
  }

  /** A yes when nobody else is awaited and an instance can be made turns the proposal into one group of the same players. */
  lemma {:induction false} LastYesForms(w: Finder, id: nat, guid: Guid, result: nat, now: int)
    requires ProposalsOk(w) && id in w.proposals && Member(w.proposals[id].players, guid) && result != 0
    requires Defined(w, Answer(id, guid, result, Started)) && !Awaited(w.proposals[id].players, guid)
    ensures var w' := AnswerStep(w, id, guid, result, Started, now); var n := |w.groups|;
      && |w'.groups| == n + 1 && w'.groups[..n] == w.groups && w'.groups[n].id == id
      && SameSeats(w.proposals[id].players, w'.groups[n].players) && AllAccepted(w'.groups[n].players)
      && w'.proposals == w.proposals - {id}
      && w'.queues == w.queues && w'.dungeonsOf == w.dungeonsOf && w'.lastId == w.lastId
  {
    var ps := w.proposals[id].players;
    PlayersDistinct(w, id);
    SeatOfMember(ps, guid);
    var i := Seat(ps, guid);
    AnsweredNotes(ps, i, result);
    AwaitedIff(ps, i, result);
  }

  /** If no dungeon is left to go to, all players return to the front of their queue, in order and with their roles. */
  lemma {:induction false} NoDungeonRequeuesAll(w: Finder, id: nat, guid: Guid, result: nat, now: int)
    requires Sound(w) && id in w.proposals && Member(w.proposals[id].players, guid) && result != 0
    requires Defined(w, Answer(id, guid, result, NoDungeon)) && !Awaited(w.proposals[id].players, guid)
    ensures exists qs :: (SameSeats(w.proposals[id].players, qs)
      && Requeued(w, AnswerStep(w, id, guid, result, NoDungeon, now), id, w.proposals[id].dungeon, qs, now))
  {
    var p := w.proposals[id];
    var ps := p.players;
    assert PlayersOk(ps);
    FitsDistinct(ps);
    SeatOfMember(ps, guid);
    var i := Seat(ps, guid);
    AnsweredNotes(ps, i, result);
    AwaitedIff(ps, i, result);
    AnsweredFits(ps, i, result);
    AnsweredDecliner(ps, i, result);
    RestOfUndeclined(Answered(ps, i, result));
    FailRequeues(w, id, p.(players := Answered(ps, i, result)), now);
  }

  /** A stranger's answer, or one to a proposal that is not pending, changes nothing. */
  lemma {:induction false} StrangersIgnored(w: Finder, id: nat, guid: Guid, result: nat, placement: Placement, now: int)
    requires Defined(w, Answer(id, guid, result, placement))
    requires id in w.proposals ==> !Member(w.proposals[id].players, guid)
    ensures AnswerStep(w, id, guid, result, placement, now) == w
  {
    if id in w.proposals { SeatOfMember(w.proposals[id].players, guid); }
  }

  // ---------- what a step does to a pending proposal ----------

  /** The step is a yes to this proposal from one of its players. */
  predicate YesTo(w: Finder, op: Op, id: nat) {
    op.Answer? && op.id == id && op.result != 0 && id in w.proposals && Member(w.proposals[id].players, op.answerer)
  }

  ghost predicate Unasked(ps: seq<ProposalEntry>) {
    ps != [] && forall k :: 0 <= k < |ps| ==> ps[k].accepted == 0
  }

  /** A proposal pending after the step is new, or got a yes that was not the last, or is as it was. */
  ghost predicate Continues(w: Finder, op: Op, w': Finder, id: nat)
    requires id in w'.proposals
  {
    if id !in w.proposals then id == w.lastId + 1 && Unasked(w'.proposals[id].players)
    else if YesTo(w, op, id) then
      Awaited(w.proposals[id].players, op.answerer) && AnswerNoted(w.proposals[id].players, w'.proposals[id].players, op.answerer, op.result)
    else w'.proposals[id] == w.proposals[id]
  }

  /** An answer leaves the other proposals alone, and its own pending only after a yes that was not the last. */
  lemma {:induction false} AnswerProposals(w: Finder, id: nat, guid: Guid, result: nat, placement: Placement, now: int, i: nat)
    requires id in w.proposals && Distinct(w.proposals[id].players)
    requires i == Seat(w.proposals[id].players, guid) && i < |w.proposals[id].players|
    requires AnswerLeavesSome(w, id, guid, result)
    ensures var w' := AnswerStep(w, id, guid, result, placement, now);
      && w'.proposals - {id} == w.proposals - {id}
      && (id in w'.proposals ==> result != 0 && Awaited(w.proposals[id].players, guid))
  {
    var p := w.proposals[id];
    WithoutId(w.proposals, id, p.(players := Answered(p.players, i, result)));
    if result != 0 { AwaitedIff(p.players, i, result); }
  }

  lemma {:induction false} AnswerContinues(w: Finder, id: nat, guid: Guid, result: nat, placement: Placement, now: int, a: nat)
    requires ProposalsOk(w) && Defined(w, Answer(id, guid, result, placement))
    requires a in AnswerStep(w, id, guid, result, placement, now).proposals
    ensures Continues(w, Answer(id, guid, result, placement), AnswerStep(w, id, guid, result, placement, now), a)
  {
    if id in w.proposals && Member(w.proposals[id].players, guid) {
      PlayersDistinct(w, id);
      SeatOfMember(w.proposals[id].players, guid);
      AnswerProposals(w, id, guid, result, placement, now, Seat(w.proposals[id].players, guid));
      if a == id {
        YesIsRecorded(w, id, guid, result, placement, now);
      } else {
        assert a in (AnswerStep(w, id, guid, result, placement, now).proposals - {id});
      }
    } else {
      StrangersIgnored(w, id, guid, result, placement, now);
    }
  }

  lemma {:induction false} MatchContinues(w: Finder, d: nat, team: nat, force: bool, now: int, a: nat)
    requires QueuesOk(w.queues) && ProposalsOk(w) && a in MatchStep(w, d, team, force, now).proposals
    ensures Continues(w, Match(d, team, force), MatchStep(w, d, team, force, now), a)
  {
    var ps := FindMatch(QueueAt(w.queues, d), team, force);
    if ps != [] {
      AtOk(w.queues, d);
      MatchProposable(QueueAt(w.queues, d), team, force);
      UnqueueAllFrame(w, ps);
    }
  }

  /** Joining, leaving and running out change no proposal that stays pending. */
  lemma {:induction false} OthersContinue(w: Finder, op: Op, now: int, a: nat)
    requires Defined(w, op) && (op.Join? || op.Leave? || op.Expire?) && a in Step(w, op, now).proposals
    ensures a in w.proposals && Step(w, op, now).proposals[a] == w.proposals[a]
  {
  }

  lemma {:induction false} StepContinues(w: Finder, op: Op, now: int, a: nat)
    requires QueuesOk(w.queues) && ProposalsOk(w) && Defined(w, op) && a in Step(w, op, now).proposals
    ensures Continues(w, op, Step(w, op, now), a)
  {
    if op.Match? {
      MatchContinues(w, op.dungeon, op.faction, op.force, now, a);
    } else if op.Answer? {
      AnswerContinues(w, op.id, op.answerer, op.result, op.placement, now, a);
    } else {
      OthersContinue(w, op, now, a);
    }
  }

  lemma {:induction false} StepIds(w: Finder, op: Op, now: int)
    requires Defined(w, op)
    ensures w.lastId <= Step(w, op, now).lastId
  {
    match op
    case Join(_, _, _, _, _, _) =>
    case Leave(_, _) =>
    case Expire(_) =>
    case Match(d, team, force) => UnqueueAllFrame(w, FindMatch(QueueAt(w.queues, d), team, force));
    case Answer(_, _, _, _) =>
  }

  // ---------- over whole runs ----------

  lemma {:induction false} SaidYesSnoc(run: seq<Event>, e: Event, id: nat, g: Guid)
    ensures SaidYes(run + [e], id, g) <==> SaidYes(run, id, g) || IsYes(End(START, run), e, id, g)
  {
    if SaidYes(run + [e], id, g) {
      var all := run + [e];
      var k :| 0 <= k < |all| && IsYes(End(START, all[..k]), all[k], id, g);
      if k < |run| {
        assert all[..k] == run[..k] && all[k] == run[k];
      } else {
        assert all[..k] == run;
      }
    }
    if SaidYes(run, id, g) { YesRemembered(run, e, id, g); }
    if IsYes(End(START, run), e, id, g) { YesGiven(run, e, id, g); }
  }

  /** Exactly those are on record as having accepted who said yes, and somebody has not. */
  ghost predicate Remembers(run: seq<Event>, id: nat, ps: seq<ProposalEntry>) {
    && (forall k :: 0 <= k < |ps| ==> (ps[k].accepted != 0 <==> SaidYes(run, id, ps[k].guid)))
    && (exists k :: 0 <= k < |ps| && ps[k].accepted == 0)
  }

  ghost predicate AllRemembered(run: seq<Event>) {
    forall id :: id in End(START, run).proposals ==> Remembers(run, id, End(START, run).proposals[id].players)
  }

  /** Nobody has said yes to a proposal whose number is still to be given out. */
  ghost predicate NoneAhead(run: seq<Event>) {
    forall id: nat, g: Guid :: SaidYes(run, id, g) ==> id <= End(START, run).lastId
  }

  lemma {:induction false} LegalFront(run: seq<Event>, e: Event)
    requires Legal(START, run + [e])
    ensures Legal(START, run) && Allowed(End(START, run), e.op)
    ensures Sound(End(START, run)) && Defined(End(START, run), e.op)
    ensures End(START, run + [e]) == Step(End(START, run), e.op, e.now)
  {
    var all := run + [e];
    assert all[..|all| - 1] == run && all[|all| - 1] == e;
    RunSound(run);
    RunSound(all);
  }

  lemma {:induction false} NoneAheadSnoc(run: seq<Event>, e: Event)
    requires Legal(START, run + [e]) && NoneAhead(run)
    ensures NoneAhead(run + [e])
  {
    LegalFront(run, e);
    var w := End(START, run);
    StepIds(w, e.op, e.now);
    forall id: nat, g: Guid | SaidYes(run + [e], id, g) ensures id <= End(START, run + [e]).lastId {
      SaidYesSnoc(run, e, id, g);
    }
  }

  lemma {:induction false} RemembersNew(run: seq<Event>, e: Event, id: nat, ps: seq<ProposalEntry>)
    requires NoneAhead(run) && id > End(START, run).lastId && id !in End(START, run).proposals && Unasked(ps)
    ensures Remembers(run + [e], id, ps)
  {
    forall k | 0 <= k < |ps| ensures !SaidYes(run + [e], id, ps[k].guid) {
      SaidYesSnoc(run, e, id, ps[k].guid);
    }
    assert ps[0].accepted == 0;
  }

  lemma {:induction false} RemembersSame(run: seq<Event>, e: Event, id: nat, ps: seq<ProposalEntry>)
    requires Remembers(run, id, ps) && !YesTo(End(START, run), e.op, id)
    ensures Remembers(run + [e], id, ps)
  {
    forall k | 0 <= k < |ps| ensures SaidYes(run + [e], id, ps[k].guid) <==> SaidYes(run, id, ps[k].guid) {
      SaidYesSnoc(run, e, id, ps[k].guid);
    }
  }

  lemma {:induction false} RemembersYes(run: seq<Event>, e: Event, id: nat, ps: seq<ProposalEntry>, qs: seq<ProposalEntry>)
    requires Remembers(run, id, ps) && YesTo(End(START, run), e.op, id) && Awaited(ps, e.op.answerer)
    requires AnswerNoted(ps, qs, e.op.answerer, e.op.result)
    ensures Remembers(run + [e], id, qs)
  {
    forall k | 0 <= k < |qs| ensures qs[k].accepted != 0 <==> SaidYes(run + [e], id, qs[k].guid) {
      SaidYesSnoc(run, e, id, ps[k].guid);
    }
    var k :| 0 <= k < |ps| && ps[k].guid != e.op.answerer && ps[k].accepted == 0;
    assert qs[k].accepted == 0;
  }

  lemma {:induction false} RemembersStep(run: seq<Event>, e: Event, id: nat)
    requires Legal(START, run + [e]) && NoneAhead(run) && AllRemembered(run)
    requires id in End(START, run + [e]).proposals
    ensures Remembers(run + [e], id, End(START, run + [e]).proposals[id].players)
  {
    LegalFront(run, e);
    var w, w' := End(START, run), End(START, run + [e]);
    StepContinues(w, e.op, e.now, id);
    if id !in w.proposals {
      RemembersNew(run, e, id, w'.proposals[id].players);
    } else if YesTo(w, e.op, id) {
      RemembersYes(run, e, id, w.proposals[id].players, w'.proposals[id].players);
    } else {
      RemembersSame(run, e, id, w.proposals[id].players);
    }
  }

  /**
   Over every run: a pending proposal has on record as accepting exactly the players who said yes to it
   while it was pending, and at least one of its players has not.
   */
  lemma {:induction false} ConsentRemembered(run: seq<Event>)
    requires Legal(START, run)
    ensures AllRemembered(run) && NoneAhead(run)
  {
    if run != [] {
      var front, e := run[..|run| - 1], run[|run| - 1];
      assert run == front + [e];
      ConsentRemembered(front);
      NoneAheadSnoc(front, e);
      forall id | id in End(START, run).proposals ensures Remembers(run, id, End(START, run).proposals[id].players) {
        RemembersStep(front, e, id);
      }
    }
  }

  // ---------- the group ----------

  /** The event is a yes to proposal `id` by one of its players, all the others having said yes before, and an instance can be made. */
  ghost predicate Completes(run: seq<Event>, e: Event, id: nat) {
    var w := End(START, run);
    && YesTo(w, e.op, id) && e.op.placement == Started
    && forall g :: Member(w.proposals[id].players, g) && g != e.op.answerer ==> SaidYes(run, id, g)
  }

  lemma {:induction false} CompletesIff(run: seq<Event>, e: Event, id: nat)
    requires id in End(START, run).proposals && Remembers(run, id, End(START, run).proposals[id].players)
    ensures Completes(run, e, id) <==>
      YesTo(End(START, run), e.op, id) && e.op.placement == Started && !Awaited(End(START, run).proposals[id].players, e.op.answerer)
  {
    if YesTo(End(START, run), e.op, id) {
      var ps := End(START, run).proposals[id].players;
      if Awaited(ps, e.op.answerer) {
        var k :| 0 <= k < |ps| && ps[k].guid != e.op.answerer && ps[k].accepted == 0;
        assert Member(ps, ps[k].guid) && !SaidYes(run, id, ps[k].guid);
      } else {
        forall g | Member(ps, g) && g != e.op.answerer ensures SaidYes(run, id, g) {
          var k :| 0 <= k < |ps| && ps[k].guid == g;
          assert ps[k].accepted != 0;
        }
      }
    }
  }

  /** `w'` is `w` with proposal `id` turned into one more group, of exactly its players. */
  ghost predicate Forms(w: Finder, w': Finder, id: nat)
    requires id in w.proposals
  {
    var n := |w.groups|;
    && |w'.groups| == n + 1 && w'.groups[..n] == w.groups && w'.groups[n].id == id
    && SameSeats(w.proposals[id].players, w'.groups[n].players)
    && w'.proposals == w.proposals - {id} && w'.queues == w.queues && w'.dungeonsOf == w.dungeonsOf
  }

  /** The last yes forms the group, and without a last yes no group forms. */
  lemma {:induction false} CompletionForms(run: seq<Event>, e: Event)
    requires Legal(START, run + [e])
    ensures var w, w' := End(START, run), End(START, run + [e]);
      if e.op.Answer? && Completes(run, e, e.op.id) then Forms(w, w', e.op.id) else w'.groups == w.groups
  {
    LegalFront(run, e);
    ConsentRemembered(run);
    var w := End(START, run);
    if e.op.Answer? && YesTo(w, e.op, e.op.id) {
      CompletesIff(run, e, e.op.id);
      if Completes(run, e, e.op.id) {
        LastYesForms(w, e.op.id, e.op.answerer, e.op.result, e.now);
      } else {
        OtherAnswersFormNothing(w, e.op.id, e.op.answerer, e.op.result, e.op.placement, e.now);
      }
    } else {
      OtherStepsFormNothing(w, e.op, e.now);
    }
  }

  lemma {:induction false} OtherAnswersFormNothing(w: Finder, id: nat, guid: Guid, result: nat, placement: Placement, now: int)
    requires ProposalsOk(w) && id in w.proposals && Member(w.proposals[id].players, guid) && result != 0
    requires Defined(w, Answer(id, guid, result, placement))
    requires placement != Started || Awaited(w.proposals[id].players, guid)
    ensures AnswerStep(w, id, guid, result, placement, now).groups == w.groups
  {
    if placement != Started {
      UnplacedFormNothing(w, id, guid, result, placement, now);
    } else {
      YesIsRecorded(w, id, guid, result, placement, now);
    }
  }

  lemma {:induction false} UnplacedFormNothing(w: Finder, id: nat, guid: Guid, result: nat, placement: Placement, now: int)
    requires AnswerLeavesSome(w, id, guid, result) && placement != Started
    ensures AnswerStep(w, id, guid, result, placement, now).groups == w.groups
  {
  }

  lemma {:induction false} OtherStepsFormNothing(w: Finder, op: Op, now: int)
    requires Defined(w, op) && (op.Answer? ==> !YesTo(w, op, op.id))
    ensures Step(w, op, now).groups == w.groups
  {
    match op
    case Join(_, _, _, _, _, _) =>
    case Leave(_, _) =>
    case Expire(_) =>
    case Match(d, team, force) => UnqueueAllFrame(w, FindMatch(QueueAt(w.queues, d), team, force));
    case Answer(id, g, r, placement) =>
      if id in w.proposals { SeatOfMember(w.proposals[id].players, g); }
  }

  /** A group's number was given out, is not pending any more, and is no other group's. */
  ghost predicate Settled(w: Finder) {
    && (forall i :: 0 <= i < |w.groups| ==> w.groups[i].id <= w.lastId && w.groups[i].id !in w.proposals)
    && (forall i, j :: 0 <= i < j < |w.groups| ==> w.groups[i].id != w.groups[j].id)
  }

  ghost predicate Descends(w: Finder, w': Finder) {
    w.lastId <= w'.lastId && forall id :: id in w'.proposals && id !in w.proposals ==> id > w.lastId
  }

  lemma {:induction false} StepDescends(w: Finder, op: Op, now: int)
    requires QueuesOk(w.queues) && ProposalsOk(w) && Defined(w, op)
    ensures Descends(w, Step(w, op, now))
  {
    StepIds(w, op, now);
    forall id | id in Step(w, op, now).proposals && id !in w.proposals ensures id > w.lastId {
      StepContinues(w, op, now, id);
    }
  }

  lemma {:induction false} SettledAfter(w: Finder, w': Finder)
    requires Settled(w) && Descends(w, w') && w'.groups == w.groups
    ensures Settled(w')
  {
  }

  lemma {:induction false} SettledFormed(w: Finder, w': Finder, id: nat)
    requires Settled(w) && Descends(w, w') && id in w.proposals && id <= w.lastId && Forms(w, w', id)
    ensures Settled(w')
  {
    var n := |w.groups|;
    assert forall i :: 0 <= i < n ==> w'.groups[i] == w.groups[i];
  }

  lemma {:induction false} RunSettled(run: seq<Event>)
    requires Legal(START, run)
    ensures Settled(End(START, run))
  {
    if run != [] {
      var front, e := run[..|run| - 1], run[|run| - 1];
      assert run == front + [e];
      LegalFront(front, e);
      RunSettled(front);
      StepDescends(End(START, front), e.op, e.now);
      CompletionForms(front, e);
      if e.op.Answer? && Completes(front, e, e.op.id) {
        SettledFormed(End(START, front), End(START, run), e.op.id);
      } else {
        SettledAfter(End(START, front), End(START, run));
      }
    }
  }

  lemma {:induction false} GroupsStay(run: seq<Event>, m: nat)
    requires Legal(START, run) && m <= |run|
    ensures Legal(START, run[..m]) && End(START, run[..m]).groups <= End(START, run).groups
    decreases |run|
  {
    if m == |run| {
      assert run[..m] == run;
    } else {
      var front, e := run[..|run| - 1], run[|run| - 1];
      assert run == front + [e] && front[..m] == run[..m];
      GroupsStay(front, m);
      CompletionForms(front, e);
    }
  }

  /**
   Over every run: if at some moment every player of a pending proposal has said yes while it was pending
   and an instance could be made, then ever after there is exactly one group of that number, it has exactly
   those players with their roles, and the proposal is gone.
   */
  lemma {:induction false} UnanimityFormsOneGroup(run: seq<Event>, k: nat, id: nat) returns (n: nat)
    requires Legal(START, run) && k < |run| && Completes(run[..k], run[k], id)
    ensures var w, w' := End(START, run[..k]), End(START, run);
      && id in w.proposals && id !in w'.proposals
      && n < |w'.groups| && w'.groups[n].id == id && SameSeats(w.proposals[id].players, w'.groups[n].players)
      && forall i :: 0 <= i < |w'.groups| && w'.groups[i].id == id ==> i == n
  {
    var w, w1 := End(START, run[..k]), End(START, run[..k + 1]);
    assert run[..k + 1] == run[..k] + [run[k]];
    GroupsStay(run, k + 1);
    CompletionForms(run[..k], run[k]);
    n := |w.groups|;
    RunSettled(run);
    assert End(START, run).groups[n] == w1.groups[n];
  }

  // ---------- joining, leaving and being proposed ----------

  /** A request takes effect exactly when it is effective: the index then lists the dungeons for the player; else nothing changes. */
  lemma {:induction false} JoinTakesEffectIff(w: Finder, guid: Guid, roles: RoleMask, ds: seq<nat>, team: nat, grouped: bool, eligible: set<nat>, now: int)
    ensures var w' := JoinStep(w, guid, roles, ds, team, grouped, eligible, now);
      && (w' != w <==> Effective(w, guid, roles, ds, grouped, eligible))
      && (w' != w ==> w'.dungeonsOf == w.dungeonsOf[guid := ds])
      && w'.proposals == w.proposals && w'.groups == w.groups && w'.lastId == w.lastId
  {
    var w' := JoinStep(w, guid, roles, ds, team, grouped, eligible, now);
    if Effective(w, guid, roles, ds, grouped, eligible) {
      assert guid in w'.dungeonsOf && guid !in w.dungeonsOf;
    }
  }

  /** `gone` sit in no queue any more, and everyone else where they sat. */
  ghost predicate OnlyGone(queues: map<nat, Queue>, queues': map<nat, Queue>, ps: seq<ProposalEntry>) {
    forall d, g :: Times(QueueAt(queues', d), g) == if Member(ps, g) then 0 else Times(QueueAt(queues, d), g)
  }

  lemma {:induction false} UnqueueGone(w: Finder, guid: Guid)
    requires Queued(w)
    ensures forall d, g :: Times(QueueAt(Unqueue(w, guid).queues, d), g) == if g == guid then 0 else Times(QueueAt(w.queues, d), g)
  {
    UnqueueQueued(w, guid);
    var w' := Unqueue(w, guid);
    forall d, g ensures Times(QueueAt(w'.queues, d), g) == if g == guid then 0 else Times(QueueAt(w.queues, d), g) {
      assert Times(QueueAt(w.queues, d), g) == Listed(w.dungeonsOf, g, d);
      assert Times(QueueAt(w'.queues, d), g) == Listed(w'.dungeonsOf, g, d);
    }
  }

  /** A player who leaves without a pending proposal is in no queue afterwards, and nobody else is affected. */
  lemma {:induction false} LeavingUnqueues(w: Finder, g: Guid, now: int)
    requires Queued(w)
    ensures var w' := LeaveStep(w, g, None, now);
      && (forall d, x :: Times(QueueAt(w'.queues, d), x) == if x == g then 0 else Times(QueueAt(w.queues, d), x))
      && w'.dungeonsOf == w.dungeonsOf - {g}
      && w'.proposals == w.proposals && w'.groups == w.groups && w'.lastId == w.lastId
  {
    UnqueueGone(w, g);
    UnqueueQueued(w, g);
  }

  lemma {:induction false} AllGone(w: Finder, w': Finder, ps: seq<ProposalEntry>)
    requires Indexed(w.queues, w.dungeonsOf) && Indexed(w'.queues, w'.dungeonsOf)
    requires Kept(w.dungeonsOf, w'.dungeonsOf, ps)
    ensures OnlyGone(w.queues, w'.queues, ps)
  {
    forall d, g ensures Times(QueueAt(w'.queues, d), g) == if Member(ps, g) then 0 else Times(QueueAt(w.queues, d), g) {
      assert Times(QueueAt(w.queues, d), g) == Listed(w.dungeonsOf, g, d);
      assert Times(QueueAt(w'.queues, d), g) == Listed(w'.dungeonsOf, g, d);
    }
  }

  /** The index lists the same dungeons for everyone but `ps`, and none for those. */
  ghost predicate Kept(dOf: map<Guid, seq<nat>>, dOf': map<Guid, seq<nat>>, ps: seq<ProposalEntry>) {
    forall g :: if Member(ps, g) then g !in dOf' else (g in dOf' <==> g in dOf) && (g in dOf ==> dOf'[g] == dOf[g])
  }

  lemma {:induction false} KeptMore(a: map<Guid, seq<nat>>, c: map<Guid, seq<nat>>, ps: seq<ProposalEntry>)
    requires ps != [] && Kept(a - {ps[0].guid}, c, ps[1..])
    ensures Kept(a, c, ps)
  {
    forall g ensures if Member(ps, g) then g !in c else (g in c <==> g in a) && (g in a ==> c[g] == a[g]) {
      MemberCons(ps, g);
    }
  }

  lemma {:induction false} UnqueueAllKeeps(w: Finder, ps: seq<ProposalEntry>)
    ensures Kept(w.dungeonsOf, UnqueueAll(w, ps).dungeonsOf, ps)
    decreases |ps|
  {
    if ps != [] {
      assert Unqueue(w, ps[0].guid).dungeonsOf == w.dungeonsOf - {ps[0].guid};
      UnqueueAllKeeps(Unqueue(w, ps[0].guid), ps[1..]);
      KeptMore(w.dungeonsOf, UnqueueAll(w, ps).dungeonsOf, ps);
    }
  }

  /** A match becomes the next proposal, for that dungeon and of exactly the matched players, who leave every queue; without a match nothing happens. */
  lemma {:induction false} MatchProposes(w: Finder, d: nat, team: nat, force: bool, now: int)
    requires Queued(w)
    ensures var ps, w' := FindMatch(QueueAt(w.queues, d), team, force), MatchStep(w, d, team, force, now);
      && w'.groups == w.groups
      && (ps == [] ==> w' == w)
      && (ps != [] ==>
            && w'.lastId == w.lastId + 1 && w'.proposals == w.proposals[w.lastId + 1 := Proposal(d, ps, now + 20)]
            && OnlyGone(w.queues, w'.queues, ps) && Kept(w.dungeonsOf, w'.dungeonsOf, ps))
  {
    var ps := FindMatch(QueueAt(w.queues, d), team, force);
    if ps != [] {
      UnqueueAllFrame(w, ps);
      UnqueueAllQueued(w, ps);
      UnqueueAllKeeps(w, ps);
      AllGone(w, UnqueueAll(w, ps), ps);
    }
  }
}
