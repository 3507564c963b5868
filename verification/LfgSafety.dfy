/** Every step of the dungeon finder keeps its invariant. */
module LfgSafety {
  import opened Basics
  import opened LfgEntries
  import opened LfgQueues
  import opened LfgMatchmaking

  // ---------- queues ----------

  /** One player now sits in `n` groups of each listed queue; nothing else about membership changed. */
  ghost predicate Moved(queues: map<nat, Queue>, queues': map<nat, Queue>, guid: Guid, ds: seq<nat>, n: nat) {
    forall d, g :: Times(QueueAt(queues', d), g) == if g == guid && d in ds then n else Times(QueueAt(queues, d), g)
  }

  ghost predicate SameQueues(queues: map<nat, Queue>, queues': map<nat, Queue>, ds: seq<nat>) {
    forall d :: d in queues' <==> d in queues || d in ds
  }

  lemma {:induction false} MoveOne(queues: map<nat, Queue>, d: nat, q: Queue, guid: Guid, n: nat)
    requires Reseated(QueueAt(queues, d), q, guid, n)
    ensures Moved(queues, queues[d := q], guid, [d], n)
  {
  }

  lemma {:induction false} SetQueueOk(queues: map<nat, Queue>, d: nat, q: Queue)
    requires QueuesOk(queues) && QueueOk(q)
    ensures QueuesOk(queues[d := q])
  {
  }

  lemma {:induction false} AtOk(queues: map<nat, Queue>, d: nat)
    requires QueuesOk(queues)
    ensures QueueOk(QueueAt(queues, d))
  {
  }

  lemma {:induction false} MoveMore(a: map<nat, Queue>, b: map<nat, Queue>, c: map<nat, Queue>, guid: Guid, ds: seq<nat>, n: nat)
    requires ds != [] && Moved(a, b, guid, [ds[0]], n) && Moved(b, c, guid, ds[1..], n)
    ensures Moved(a, c, guid, ds, n)
  {
  }

  lemma {:induction false} SameMore(a: map<nat, Queue>, q: Queue, c: map<nat, Queue>, ds: seq<nat>)
    requires ds != [] && SameQueues(a[ds[0] := q], c, ds[1..])
    ensures SameQueues(a, c, ds)
  {
  }

  ghost predicate Bounded(queues: map<nat, Queue>, guid: Guid, ds: seq<nat>, n: nat) {
    forall d :: d in ds ==> Times(QueueAt(queues, d), guid) <= n
  }

  lemma {:induction false} BoundedTail(queues: map<nat, Queue>, q: Queue, guid: Guid, ds: seq<nat>, n: nat)
    requires ds != [] && NoRepeat(ds) && Bounded(queues, guid, ds, n)
    ensures NoRepeat(ds[1..]) && Bounded(queues[ds[0] := q], guid, ds[1..], n)
  {
    forall d | d in ds[1..] ensures d in ds && d != ds[0] {
      var k :| 0 <= k < |ds| - 1 && ds[1..][k] == d;
      assert ds[k + 1] == d;
    }
  }

  lemma {:induction false} EnqueueAllMoves(queues: map<nat, Queue>, guid: Guid, team: nat, roles: RoleMask, ds: seq<nat>, now: int)
    requires QueuesOk(queues) && NoRepeat(ds) && HasCombatRole(roles) && Bounded(queues, guid, ds, 0)
    ensures var r := EnqueueAll(queues, guid, team, roles, ds, now);
      QueuesOk(r) && Moved(queues, r, guid, ds, 1) && SameQueues(queues, r, ds)
    decreases |ds|
  {
    if ds != [] {
      var q := AddPlayer(QueueAt(queues, ds[0]), guid, team, roles, now);
      AtOk(queues, ds[0]);
      AddPlayerSeats(QueueAt(queues, ds[0]), guid, team, roles, now);
      SetQueueOk(queues, ds[0], q);
      MoveOne(queues, ds[0], q, guid, 1);
      BoundedTail(queues, q, guid, ds, 0);
      EnqueueAllMoves(queues[ds[0] := q], guid, team, roles, ds[1..], now);
      var r := EnqueueAll(queues[ds[0] := q], guid, team, roles, ds[1..], now);
      MoveMore(queues, queues[ds[0] := q], r, guid, ds, 1);
      SameMore(queues, q, r, ds);
    }
  }

  lemma {:induction false} DequeueAllMoves(queues: map<nat, Queue>, guid: Guid, ds: seq<nat>)
    requires QueuesOk(queues) && NoRepeat(ds) && Bounded(queues, guid, ds, 1)
    ensures var r := DequeueAll(queues, guid, ds);
      QueuesOk(r) && Moved(queues, r, guid, ds, 0) && SameQueues(queues, r, ds)
    decreases |ds|
  {
    if ds != [] {
      var q := RemovePlayer(QueueAt(queues, ds[0]), guid);
      AtOk(queues, ds[0]);
      RemovePlayerUnseats(QueueAt(queues, ds[0]), guid);
      SetQueueOk(queues, ds[0], q);
      MoveOne(queues, ds[0], q, guid, 0);
      BoundedTail(queues, q, guid, ds, 1);
      DequeueAllMoves(queues[ds[0] := q], guid, ds[1..]);
      var r := DequeueAll(queues[ds[0] := q], guid, ds[1..]);
      MoveMore(queues, queues[ds[0] := q], r, guid, ds, 0);
      SameMore(queues, q, r, ds);
    }
  }

  // ---------- the index ----------

  lemma {:induction false} ListAfterJoin(queues: map<nat, Queue>, queues': map<nat, Queue>, dOf: map<Guid, seq<nat>>, guid: Guid, ds: seq<nat>)
    requires Indexed(queues, dOf) && guid !in dOf && Moved(queues, queues', guid, ds, 1)
    ensures Indexed(queues', dOf[guid := ds])
  {
  }

  lemma {:induction false} ListAfterLeave(queues: map<nat, Queue>, queues': map<nat, Queue>, dOf: map<Guid, seq<nat>>, guid: Guid)
    requires Indexed(queues, dOf) && guid in dOf && Moved(queues, queues', guid, dOf[guid], 0)
    ensures Indexed(queues', dOf - {guid})
  {
    forall d, g ensures Times(QueueAt(queues', d), g) == Listed(dOf - {guid}, g, d) {
      assert Times(QueueAt(queues, d), g) == Listed(dOf, g, d);
    }
  }

  lemma {:induction false} IndexBounds(queues: map<nat, Queue>, dOf: map<Guid, seq<nat>>, guid: Guid, ds: seq<nat>)
    requires Indexed(queues, dOf)
    ensures Bounded(queues, guid, ds, 1) && (guid !in dOf ==> Bounded(queues, guid, ds, 0))
  {
    forall d | d in ds ensures Times(QueueAt(queues, d), guid) == Listed(dOf, guid, d) {
    }
  }

  lemma {:induction false} ListsGrow(queues: map<nat, Queue>, queues': map<nat, Queue>, dOf: map<Guid, seq<nat>>, guid: Guid, ds: seq<nat>)
    requires ListsOk(queues, dOf) && NoRepeat(ds) && SameQueues(queues, queues', ds)
    ensures ListsOk(queues', dOf[guid := ds])
  {
  }

  lemma {:induction false} ListsShrink(queues: map<nat, Queue>, queues': map<nat, Queue>, dOf: map<Guid, seq<nat>>, guid: Guid, ds: seq<nat>)
    requires ListsOk(queues, dOf) && SameQueues(queues, queues', ds)
    ensures ListsOk(queues', dOf - {guid})
  {
  }

  // ---------- joining and leaving the queues ----------

  lemma {:induction false} JoinQueued(w: Finder, guid: Guid, roles: RoleMask, ds: seq<nat>, team: nat, now: int)
    requires Queued(w) && guid !in w.dungeonsOf && HasCombatRole(roles) && NoRepeat(ds)
    ensures Queued(w.(queues := EnqueueAll(w.queues, guid, team, roles, ds, now), dungeonsOf := w.dungeonsOf[guid := ds]))
    ensures SameQueues(w.queues, EnqueueAll(w.queues, guid, team, roles, ds, now), ds)
  {
    IndexBounds(w.queues, w.dungeonsOf, guid, ds);
    EnqueueAllMoves(w.queues, guid, team, roles, ds, now);
    var r := EnqueueAll(w.queues, guid, team, roles, ds, now);
    ListAfterJoin(w.queues, r, w.dungeonsOf, guid, ds);
    ListsGrow(w.queues, r, w.dungeonsOf, guid, ds);
  }

  ghost predicate SameKeys(a: map<nat, Queue>, b: map<nat, Queue>) {
    a.Keys == b.Keys
  }

  lemma {:induction false} UnqueueQueued(w: Finder, guid: Guid)
    requires Queued(w)
    ensures Queued(Unqueue(w, guid)) && SameKeys(w.queues, Unqueue(w, guid).queues)
    ensures Unqueue(w, guid).dungeonsOf == w.dungeonsOf - {guid}
  {
    if guid in w.dungeonsOf {
      var ds := w.dungeonsOf[guid];
      IndexBounds(w.queues, w.dungeonsOf, guid, ds);
      DequeueAllMoves(w.queues, guid, ds);
      var r := DequeueAll(w.queues, guid, ds);
      ListAfterLeave(w.queues, r, w.dungeonsOf, guid);
      ListsShrink(w.queues, r, w.dungeonsOf, guid, ds);
      assert r.Keys == w.queues.Keys;
    } else {
      assert w.dungeonsOf - {guid} == w.dungeonsOf;
    }
  }

  ghost predicate Unlisted(dOf: map<Guid, seq<nat>>, dOf': map<Guid, seq<nat>>, ps: seq<ProposalEntry>) {
    forall g :: g in dOf' <==> g in dOf && !Member(ps, g)
  }

  lemma {:induction false} MemberCons(ps: seq<ProposalEntry>, g: Guid)
    requires ps != []
    ensures Member(ps, g) <==> g == ps[0].guid || Member(ps[1..], g)
  {
    if Member(ps[1..], g) {
      var k :| 0 <= k < |ps| - 1 && ps[1..][k].guid == g;
      assert ps[k + 1].guid == g;
    }
    if Member(ps, g) && g != ps[0].guid {
      var k :| 0 <= k < |ps| && ps[k].guid == g;
      assert ps[1..][k - 1].guid == g;
    }
  }

  lemma {:induction false} UnlistMore(a: map<Guid, seq<nat>>, c: map<Guid, seq<nat>>, ps: seq<ProposalEntry>)
    requires ps != [] && Unlisted(a - {ps[0].guid}, c, ps[1..])
    ensures Unlisted(a, c, ps)
  {
    forall g ensures g in c <==> g in a && !Member(ps, g) {
      MemberCons(ps, g);
    }
  }

  lemma {:induction false} UnqueueAllQueued(w: Finder, ps: seq<ProposalEntry>)
    requires Queued(w)
    ensures Queued(UnqueueAll(w, ps)) && SameKeys(w.queues, UnqueueAll(w, ps).queues)
    ensures Unlisted(w.dungeonsOf, UnqueueAll(w, ps).dungeonsOf, ps)
    decreases |ps|
  {
    if ps != [] {
      UnqueueQueued(w, ps[0].guid);
      UnqueueAllQueued(Unqueue(w, ps[0].guid), ps[1..]);
      UnlistMore(w.dungeonsOf, UnqueueAll(w, ps).dungeonsOf, ps);
    }
  }

  lemma {:induction false} UnqueueAllFrame(w: Finder, ps: seq<ProposalEntry>)
    ensures var r := UnqueueAll(w, ps); r.proposals == w.proposals && r.lastId == w.lastId && r.groups == w.groups
    decreases |ps|
  {
    if ps != [] {
      UnqueueAllFrame(Unqueue(w, ps[0].guid), ps[1..]);
    }
  }

  // ---------- proposing ----------

  lemma {:induction false} QueuedAreListed(w: Finder, d: nat, ps: seq<ProposalEntry>)
    requires Indexed(w.queues, w.dungeonsOf) && AllQueued(QueueAt(w.queues, d), ps)
    ensures forall g :: Member(ps, g) ==> g in w.dungeonsOf
  {
    forall g | Member(ps, g) ensures g in w.dungeonsOf {
      var k :| 0 <= k < |ps| && ps[k].guid == g;
      assert Times(QueueAt(w.queues, d), g) == Listed(w.dungeonsOf, g, d);
    }
  }

  lemma {:induction false} NewProposalApart(w: Finder, id: nat, p: Proposal)
    requires Apart(w.proposals) && Exclusive(w.dungeonsOf, w.proposals)
    requires forall g :: Member(p.players, g) ==> g in w.dungeonsOf
    ensures Apart(w.proposals[id := p])
  {
  }

  lemma {:induction false} NewProposalExclusive(w: Finder, dOf: map<Guid, seq<nat>>, id: nat, p: Proposal)
    requires Exclusive(w.dungeonsOf, w.proposals) && Unlisted(w.dungeonsOf, dOf, p.players)
    ensures Exclusive(dOf, w.proposals[id := p])
  {
  }

  lemma {:induction false} FreshPlayersOk(ps: seq<ProposalEntry>, team: nat)
    requires ps != [] && Unanswered(ps, team) && Fits(Seats(ps, 0))
    ensures PlayersOk(ps)
  {
  }

  lemma {:induction false} NewProposalOk(w: Finder, w': Finder, p: Proposal)
    requires ProposalsOk(w) && p.dungeon in w.queues && PlayersOk(p.players)
    requires w'.lastId == w.lastId + 1 && w'.proposals == w.proposals[w'.lastId := p] && SameKeys(w.queues, w'.queues)
    ensures ProposalsOk(w')
  {
  }

  lemma {:induction false} ProposeSound(w: Finder, d: nat, ps: seq<ProposalEntry>, now: int)
    requires Sound(w) && d in w.queues && PlayersOk(ps) && AllQueued(QueueAt(w.queues, d), ps)
    ensures Sound(Propose(w, d, ps, now))
  {
    var w1 := UnqueueAll(w, ps);
    var w' := Propose(w, d, ps, now);
    var p := Proposal(d, ps, now + PROPOSAL_SECONDS);
    UnqueueAllQueued(w, ps);
    UnqueueAllFrame(w, ps);
    QueuedAreListed(w, d, ps);
    NewProposalApart(w, w1.lastId + 1, p);
    NewProposalExclusive(w, w1.dungeonsOf, w1.lastId + 1, p);
    NewProposalOk(w, w', p);
  }

  lemma {:induction false} MatchSound(w: Finder, d: nat, team: nat, force: bool, now: int)
    requires Sound(w)
    ensures Sound(MatchStep(w, d, team, force, now))
  {
    var ps := FindMatch(QueueAt(w.queues, d), team, force);
    if ps != [] {
      AtOk(w.queues, d);
      MatchProposable(QueueAt(w.queues, d), team, force);
      FreshPlayersOk(ps, team);
      ProposeSound(w, d, ps, now);
    }
  }

  // ---------- failing ----------

  lemma {:induction false} AssignAllLists(dOf: map<Guid, seq<nat>>, ps: seq<ProposalEntry>, ds: seq<nat>)
    ensures Assigned(dOf, AssignAll(dOf, ps, ds), ps, ds)
    decreases |ps|
  {
    if ps != [] {
      AssignAllLists(dOf[ps[0].guid := ds], ps[1..], ds);
      AssignMore(dOf, AssignAll(dOf, ps, ds), ps, ds);
    }
  }

  ghost predicate Assigned(dOf: map<Guid, seq<nat>>, dOf': map<Guid, seq<nat>>, ps: seq<ProposalEntry>, ds: seq<nat>) {
    forall g :: if Member(ps, g) then g in dOf' && dOf'[g] == ds else (g in dOf' <==> g in dOf) && (g in dOf ==> dOf'[g] == dOf[g])
  }

  lemma {:induction false} AssignMore(dOf: map<Guid, seq<nat>>, dOf': map<Guid, seq<nat>>, ps: seq<ProposalEntry>, ds: seq<nat>)
    requires ps != [] && Assigned(dOf[ps[0].guid := ds], dOf', ps[1..], ds)
    ensures Assigned(dOf, dOf', ps, ds)
  {
    forall g ensures if Member(ps, g) then g in dOf' && dOf'[g] == ds else (g in dOf' <==> g in dOf) && (g in dOf ==> dOf'[g] == dOf[g]) {
      MemberCons(ps, g);
    }
  }

  ghost predicate Unqueued(dOf: map<Guid, seq<nat>>, ps: seq<ProposalEntry>) {
    forall g :: Member(ps, g) ==> g !in dOf
  }

  lemma {:induction false} ReaddIndexed(queues: map<nat, Queue>, dOf: map<Guid, seq<nat>>, dOf': map<Guid, seq<nat>>, d: nat, q: Queue, ps: seq<ProposalEntry>)
    requires Indexed(queues, dOf) && Unqueued(dOf, ps) && Assigned(dOf, dOf', ps, [d])
    requires forall g :: Times(q, g) == Times(QueueAt(queues, d), g) + Among(ps, g)
    ensures Indexed(queues[d := q], dOf')
  {
    forall e, g ensures Times(QueueAt(queues[d := q], e), g) == Listed(dOf', g, e) {
      assert Times(QueueAt(queues, e), g) == Listed(dOf, g, e);
      assert Among(ps, g) == if Member(ps, g) then 1 else 0;
    }
  }

  lemma {:induction false} ReaddLists(queues: map<nat, Queue>, dOf: map<Guid, seq<nat>>, dOf': map<Guid, seq<nat>>, d: nat, q: Queue, ps: seq<ProposalEntry>)
    requires ListsOk(queues, dOf) && Assigned(dOf, dOf', ps, [d])
    ensures ListsOk(queues[d := q], dOf')
  {
    forall g | g in dOf' ensures NoRepeat(dOf'[g]) && forall e :: e in dOf'[g] ==> e in queues[d := q] {
      if !Member(ps, g) {
        assert g in dOf && dOf'[g] == dOf[g];
      }
    }
  }

  lemma {:induction false} FailQueued(w: Finder, d: nat, rest: seq<ProposalEntry>, now: int)
    requires Queued(w) && rest != [] && Fits(Seats(rest, 0)) && Unqueued(w.dungeonsOf, rest)
    ensures Queued(w.(queues := w.queues[d := Readd(QueueAt(w.queues, d), rest, now)],
                      dungeonsOf := AssignAll(w.dungeonsOf, rest, [d])))
  {
    var q := Readd(QueueAt(w.queues, d), rest, now);
    AtOk(w.queues, d);
    ReaddSeats(QueueAt(w.queues, d), rest, now);
    SetQueueOk(w.queues, d, q);
    AssignAllLists(w.dungeonsOf, rest, [d]);
    ReaddIndexed(w.queues, w.dungeonsOf, AssignAll(w.dungeonsOf, rest, [d]), d, q, rest);
    ReaddLists(w.queues, w.dungeonsOf, AssignAll(w.dungeonsOf, rest, [d]), d, q, rest);
  }

  ghost predicate Within(rest: seq<ProposalEntry>, ps: seq<ProposalEntry>) {
    forall g :: Member(rest, g) ==> Member(ps, g)
  }

  lemma {:induction false} FailedExclusive(w: Finder, dOf: map<Guid, seq<nat>>, id: nat, rest: seq<ProposalEntry>, ds: seq<nat>)
    requires Exclusive(w.dungeonsOf, w.proposals) && Apart(w.proposals)
    requires id in w.proposals && Within(rest, w.proposals[id].players) && Assigned(w.dungeonsOf, dOf, rest, ds)
    ensures Exclusive(dOf, w.proposals - {id}) && Apart(w.proposals - {id})
  {
    forall a, g | a in w.proposals - {id} && Member(w.proposals[a].players, g) ensures g !in dOf {
      assert !Member(rest, g);
    }
  }

  lemma {:induction false} FailSound(w: Finder, id: nat, p: Proposal, now: int)
    requires Sound(w) && id in w.proposals && p.dungeon == w.proposals[id].dungeon
    requires Rest(p.players) != [] && Fits(Seats(Rest(p.players), 0)) && Within(Rest(p.players), w.proposals[id].players)
    ensures Sound(Fail(w, id, p, now))
  {
    var rest := Rest(p.players);
    assert Unqueued(w.dungeonsOf, rest) by {
      assert Exclusive(w.dungeonsOf, w.proposals);
    }
    FailQueued(w, p.dungeon, rest, now);
    AssignAllLists(w.dungeonsOf, rest, [p.dungeon]);
    FailedExclusive(w, AssignAll(w.dungeonsOf, rest, [p.dungeon]), id, rest, [p.dungeon]);
  }

  // ---------- who is left ----------

  lemma {:induction false} EraseSeats(ps: seq<ProposalEntry>, i: nat)
    requires i < |ps|
    ensures Seats(Erase(ps, i), 0) == Seats(ps, 0)[..i] + Seats(ps, 0)[i + 1..]
  {
  }

  lemma {:induction false} EraseFits(ps: seq<ProposalEntry>, i: nat)
    requires Fits(Seats(ps, 0))
    ensures Fits(Seats(Erase(ps, i), 0)) && Within(Erase(ps, i), ps)
  {
    if i < |ps| {
      EraseSeats(ps, i);
      PlayersEraseFit(Seats(ps, 0), i);
      EraseWithin(ps, i);
    }
  }

  lemma {:induction false} PlayersEraseFit(s: seq<LfgPlayer>, i: nat)
    requires Fits(s) && i < |s|
    ensures Fits(s[..i] + s[i + 1..])
  {
    CountErase(s, i, TANK);
    CountErase(s, i, HEALER);
    CountErase(s, i, DPS);
    CountErase(s, i, LEADER);
  }

  lemma {:induction false} EraseWithin(ps: seq<ProposalEntry>, i: nat)
    requires i < |ps|
    ensures Within(Erase(ps, i), ps)
  {
    forall g | Member(Erase(ps, i), g) ensures Member(ps, g) {
      var k :| 0 <= k < |ps| - 1 && Erase(ps, i)[k].guid == g;
      assert ps[if k < i then k else k + 1].guid == g;
    }
  }

  lemma {:induction false} AnsweredFits(ps: seq<ProposalEntry>, i: nat, result: nat)
    requires i < |ps| && Fits(Seats(ps, 0))
    ensures Fits(Seats(Answered(ps, i, result), 0)) && Within(Answered(ps, i, result), ps)
  {
    assert Seats(Answered(ps, i, result), 0) == Seats(ps, 0);
    assert forall k :: 0 <= k < |ps| ==> Answered(ps, i, result)[k].guid == ps[k].guid;
  }

  lemma {:induction false} WithinMore(a: seq<ProposalEntry>, b: seq<ProposalEntry>, c: seq<ProposalEntry>)
    requires Within(a, b) && Within(b, c)
    ensures Within(a, c)
  {
  }

  lemma {:induction false} RestFits(ps: seq<ProposalEntry>)
    requires Fits(Seats(ps, 0))
    ensures Fits(Seats(Rest(ps), 0)) && Within(Rest(ps), ps)
  {
    EraseFits(ps, Decliner(ps));
  }

  /** Without a decliner everybody is left. */
  lemma {:induction false} RestOfUndeclined(ps: seq<ProposalEntry>)
    requires Undeclined(ps)
    ensures Rest(ps) == ps
  {
  }

  // ---------- the steps ----------

  lemma {:induction false} JoinSound(w: Finder, guid: Guid, roles: RoleMask, ds: seq<nat>, team: nat, grouped: bool, eligible: set<nat>, now: int)
    requires Sound(w) && Allowed(w, Join(guid, roles, ds, team, grouped, eligible))
    ensures Sound(JoinStep(w, guid, roles, ds, team, grouped, eligible, now))
  {
    var w' := JoinStep(w, guid, roles, ds, team, grouped, eligible, now);
    if w' != w {
      JoinQueued(w, guid, roles, ds, team, now);
      forall id, g | id in w.proposals && Member(w.proposals[id].players, g) ensures g !in w'.dungeonsOf {
      }
    }
  }

  lemma {:induction false} UnqueueSound(w: Finder, guid: Guid)
    requires Sound(w)
    ensures Sound(Unqueue(w, guid)) && Unqueue(w, guid).proposals == w.proposals
  {
    UnqueueQueued(w, guid);
  }

  lemma {:induction false} SeatOfMember(ps: seq<ProposalEntry>, guid: Guid)
    ensures Member(ps, guid) <==> Seat(ps, guid) < |ps|
  {
  }

  lemma {:induction false} EraseUndeclined(ps: seq<ProposalEntry>, i: nat)
    requires Undeclined(ps)
    ensures Undeclined(Erase(ps, i))
  {
  }

  lemma {:induction false} LeaveSound(w: Finder, guid: Guid, pending: Option<nat>, now: int)
    requires Sound(w) && Allowed(w, Leave(guid, pending))
    ensures Defined(w, Leave(guid, pending)) && Sound(LeaveStep(w, guid, pending, now))
  {
    UnqueueSound(w, guid);
    if pending.Some? {
      var p := w.proposals[pending.value];
      var i := Seat(p.players, guid);
      SeatOfMember(p.players, guid);
      var left := Erase(p.players, i);
      assert PlayersOk(p.players);
      EraseFits(p.players, i);
      EraseUndeclined(p.players, i);
      RestOfUndeclined(left);
      FailSound(Unqueue(w, guid), pending.value, p.(players := left), now);
    }
  }

  lemma {:induction false} PendingRest(w: Finder, id: nat)
    requires ProposalsOk(w) && id in w.proposals
    ensures var ps := w.proposals[id].players; Rest(ps) == ps && ps != [] && Fits(Seats(ps, 0)) && Within(ps, ps)
  {
    assert PlayersOk(w.proposals[id].players);
    RestOfUndeclined(w.proposals[id].players);
  }

  lemma {:induction false} ExpireSound(w: Finder, id: nat, now: int)
    requires Sound(w)
    ensures Defined(w, Expire(id)) && Sound(ExpireStep(w, id, now))
  {
    if id in w.proposals {
      PendingRest(w, id);
      if now >= w.proposals[id].expiry {
        FailSound(w, id, w.proposals[id], now);
      }
    }
  }

  /** Only the player who just answered can be declining. */
  lemma {:induction false} AnsweredDecliner(ps: seq<ProposalEntry>, i: nat, result: nat)
    requires i < |ps| && Undeclined(ps)
    ensures Decliner(Answered(ps, i, result)) == if result == 0 then i else |ps|
    ensures result != 0 ==> Undeclined(Answered(ps, i, result))
  {
    var q := Answered(ps, i, result);
    assert q[i] == ps[i].(answered := 1, accepted := result);
    assert forall k :: 0 <= k < |ps| && k != i ==> q[k] == ps[k];
    assert Declined(q[i]) <==> result == 0;
  }

  lemma {:induction false} AnsweredRest(ps: seq<ProposalEntry>, i: nat, result: nat)
    requires i < |ps| && Undeclined(ps) && Fits(Seats(ps, 0))
    ensures var rest := Rest(Answered(ps, i, result)); Fits(Seats(rest, 0)) && Within(rest, ps) && |rest| >= |ps| - 1
    ensures result != 0 ==> |Rest(Answered(ps, i, result))| == |ps|
  {
    AnsweredFits(ps, i, result);
    RestFits(Answered(ps, i, result));
    WithinMore(Rest(Answered(ps, i, result)), Answered(ps, i, result), ps);
    AnsweredDecliner(ps, i, result);
  }

  lemma {:induction false} KeepApart(proposals: map<nat, Proposal>, dOf: map<Guid, seq<nat>>, id: nat, p: Proposal)
    requires Apart(proposals) && Exclusive(dOf, proposals) && id in proposals && Within(p.players, proposals[id].players)
    ensures Apart(proposals[id := p]) && Exclusive(dOf, proposals[id := p])
  {
    var after := proposals[id := p];
    assert forall a, g :: a in after && Member(after[a].players, g) ==> Member(proposals[a].players, g);
  }

  lemma {:induction false} KeepOk(w: Finder, id: nat, p: Proposal)
    requires ProposalsOk(w) && id in w.proposals && PlayersOk(p.players) && p.dungeon == w.proposals[id].dungeon
    ensures ProposalsOk(w.(proposals := w.proposals[id := p]))
  {
  }

  lemma {:induction false} DropProposal(w: Finder, id: nat, groups: seq<Formed>)
    requires Sound(w)
    ensures Sound(w.(proposals := w.proposals - {id}, groups := groups))
  {
  }

  lemma {:induction false} AnswerDefined(w: Finder, id: nat, guid: Guid, result: nat, placement: Placement)
    requires Sound(w) && Allowed(w, Answer(id, guid, result, placement))
    ensures AnswerLeavesSome(w, id, guid, result)
  {
    if id in w.proposals {
      var ps := w.proposals[id].players;
      SeatOfMember(ps, guid);
      assert PlayersOk(ps);
      if Seat(ps, guid) < |ps| {
        AnsweredRest(ps, Seat(ps, guid), result);
      }
    }
  }

  lemma {:induction false} AnswerSound(w: Finder, id: nat, guid: Guid, result: nat, placement: Placement, now: int)
    requires Sound(w) && Allowed(w, Answer(id, guid, result, placement))
    ensures Defined(w, Answer(id, guid, result, placement)) && Sound(AnswerStep(w, id, guid, result, placement, now))
  {
    AnswerDefined(w, id, guid, result, placement);
    if id in w.proposals && Seat(w.proposals[id].players, guid) < |w.proposals[id].players| {
      var p := w.proposals[id];
      assert PlayersOk(p.players);
      var i := Seat(p.players, guid);
      var p' := p.(players := Answered(p.players, i, result));
      if result == 0 {
        AnsweredFails(w, id, i, result, p', now);
      } else {
        ConsentSound(w, id, i, result, p', now);
        if placement == NoDungeon {
          AnsweredFails(w, id, i, result, p', now);
        }
        DropProposal(w, id, w.groups);
        DropProposal(w, id, w.groups + [Formed(id, p'.players)]);
      }
    }
  }

  /** A member of a pending proposal can leave or decline exactly when somebody else is left to queue again. */
  lemma {:induction false} RefusalDefinedIff(w: Finder, id: nat, guid: Guid, placement: Placement)
    requires Sound(w) && id in w.proposals && Member(w.proposals[id].players, guid)
    ensures Defined(w, Leave(guid, Some(id))) <==> |w.proposals[id].players| >= 2
    ensures Defined(w, Answer(id, guid, 0, placement)) <==> |w.proposals[id].players| >= 2
  {
    var ps := w.proposals[id].players;
    assert PlayersOk(ps);
    SeatOfMember(ps, guid);
    EraseUndeclined(ps, Seat(ps, guid));
    RestOfUndeclined(Erase(ps, Seat(ps, guid)));
    AnsweredDecliner(ps, Seat(ps, guid), 0);
  }

  lemma {:induction false} AnsweredFails(w: Finder, id: nat, i: nat, result: nat, p': Proposal, now: int)
    requires Sound(w) && id in w.proposals && i < |w.proposals[id].players| && PlayersOk(w.proposals[id].players)
    requires p' == w.proposals[id].(players := Answered(w.proposals[id].players, i, result)) && Rest(p'.players) != []
    ensures Sound(Fail(w, id, p', now))
  {
    AnsweredRest(w.proposals[id].players, i, result);
    FailSound(w, id, p', now);
  }

  lemma {:induction false} AnsweredPlayersOk(ps: seq<ProposalEntry>, i: nat, result: nat)
    requires PlayersOk(ps) && i < |ps| && result != 0
    ensures PlayersOk(Answered(ps, i, result))
  {
    AnsweredFits(ps, i, result);
    AnsweredDecliner(ps, i, result);
    assert forall k :: 0 <= k < |ps| ==> Answered(ps, i, result)[k].team == ps[k].team;
  }

  lemma {:induction false} ConsentSound(w: Finder, id: nat, i: nat, result: nat, p': Proposal, now: int)
    requires Sound(w) && id in w.proposals && i < |w.proposals[id].players| && result != 0
    requires p' == w.proposals[id].(players := Answered(w.proposals[id].players, i, result))
    ensures Sound(w.(proposals := w.proposals[id := p']))
  {
    var ps := w.proposals[id].players;
    assert PlayersOk(ps);
    AnsweredPlayersOk(ps, i, result);
    AnsweredFits(ps, i, result);
    KeepApart(w.proposals, w.dungeonsOf, id, p');
    KeepOk(w, id, p');
  }

  /** Every allowed call, and every step of the periodic update, is defined and keeps the invariant. */
  lemma {:induction false} StepSound(w: Finder, op: Op, now: int)
    requires Sound(w) && Allowed(w, op)
    ensures Defined(w, op) && Sound(Step(w, op, now))
  {
    match op
    case Join(g, roles, ds, team, grouped, eligible) => JoinSound(w, g, roles, ds, team, grouped, eligible, now);
    case Leave(g, pending) => LeaveSound(w, g, pending, now);
    case Answer(id, g, r, placement) => AnswerSound(w, id, g, r, placement, now);
    case Expire(id) => ExpireSound(w, id, now);
    case Match(d, team, force) => MatchSound(w, d, team, force, now);
  }

  lemma {:induction false} StartSound()
    ensures Sound(START)
  {
  }
}
