/** The dungeon finder's objects: their methods refine the queue and finder functions. */
module LfgManager {
  import opened Basics
  import opened LfgEntries
  import opened LfgMatchmaking
  import Q = LfgQueues
  import LfgRuns
  import LfgSafety

  type Event = LfgRuns.Event

  // ---------- one group of a queue ----------

  /** Takes a seat in the group if it needs one of the player's roles. */
  method TryAddPlayer(e: QueueEntry, guid: Guid, roles: RoleMask, now: int) returns (ok: bool, e': QueueEntry)
    ensures ok <==> TryAdd(e, guid, roles, now).Some?
    ensures e' == Q.Offer(e, guid, roles, now)
  {
    if e.requirements.Met() {
      return false, e;
    }
    var need, selected := e.requirements, 0 as RoleMask;
    if need.tanksNeeded > 0 && Has(roles, TANK) {
      selected, need := TANK, need.(tanksNeeded := need.tanksNeeded - 1);
    } else if need.healersNeeded > 0 && Has(roles, HEALER) {
      selected, need := HEALER, need.(healersNeeded := need.healersNeeded - 1);
    } else if need.dpsNeeded > 0 && Has(roles, DPS) {
      selected, need := DPS, need.(dpsNeeded := need.dpsNeeded - 1);
    }
    if selected == 0 {
      return false, e;
    }
    if need.needLeader && Has(roles, LEADER) {
      selected, need := selected | LEADER, need.(needLeader := false);
    }
    return true, QueueEntry(e.team, e.players + [LfgPlayer(guid, selected, now)], need);
  }

  method TryRemovePlayer(e: QueueEntry, guid: Guid) returns (ok: bool, e': QueueEntry)
    ensures ok <==> TryRemove(e, guid).Some?
    ensures e' == if ok then TryRemove(e, guid).value else e
  {
    var i := 0;
    while i < |e.players| && e.players[i].guid != guid
      invariant 0 <= i <= |e.players| && forall k :: 0 <= k < i ==> e.players[k].guid != guid
    {
      i := i + 1;
    }
    if i == |e.players| {
      FindNone(e.players, guid);
      return false, e;
    }
    FindIs(e.players, guid, i);
    return true, QueueEntry(e.team, e.players[..i] + e.players[i + 1..], GiveBack(e.requirements, e.players[i].roles));
  }

  // ---------- the queue of one dungeon ----------

  class DungeonQueue {
    var groups: Q.Queue

    constructor ()
      ensures groups == []
    {
      groups := [];
    }

    method AddPlayer(guid: Guid, team: nat, roles: RoleMask, now: int)
      modifies this
      ensures groups == Q.AddPlayer(old(groups), guid, team, roles, now)
    {
      ghost var whole := Q.AddPlayer(groups, guid, team, roles, now);
      var i := 0;
      while i < |groups|
        invariant 0 <= i <= |groups| && groups == old(groups)
        invariant whole == groups[..i] + Q.AddPlayer(groups[i..], guid, team, roles, now)
      {
        if groups[i].team == team {
          var ok, e := TryAddPlayer(groups[i], guid, roles, now);
          if ok {
            Q.JoinsHere(groups, i, guid, team, roles, now);
            groups := groups[i := e];
            return;
          }
        }
        Q.PassedBy(groups, i, guid, team, roles, now);
        i := i + 1;
      }
      assert groups[i..] == [];
      var _, e := TryAddPlayer(NewEntry(team), guid, roles, now);
      groups := groups + [e];
    }

    method RemovePlayer(guid: Guid)
      modifies this
      ensures groups == Q.RemovePlayer(old(groups), guid)
    {
      ghost var whole := Q.RemovePlayer(groups, guid);
      var i := 0;
      while i < |groups|
        invariant 0 <= i <= |groups| && groups == old(groups)
        invariant whole == groups[..i] + Q.RemovePlayer(groups[i..], guid)
      {
        var ok, e := TryRemovePlayer(groups[i], guid);
        if ok {
          Q.LeavesHere(groups, i, guid);
          if e.players == [] {
            groups := groups[..i] + groups[i + 1..];
          } else {
            groups := groups[i := e];
          }
          return;
        }
        Q.StaysOn(groups, i, guid);
        i := i + 1;
      }
      assert groups[i..] == [] && groups[..i] == groups;
    }

    method ReaddGroup(ps: seq<ProposalEntry>, now: int)
      requires ps != []
      modifies this
      ensures groups == Q.Readd(old(groups), ps, now)
    {
      var e := NewEntry(ps[0].team);
      var i := 0;
      while i < |ps|
        invariant 0 <= i <= |ps| && groups == old(groups)
        invariant Rebuild(NewEntry(ps[0].team), ps, now) == Rebuild(e, ps[i..], now)
      {
        var _, e' := TryAddPlayer(e, ps[i].guid, ps[i].selectedRoles, now);
        assert ps[i..][1..] == ps[i + 1..];
        e, i := e', i + 1;
      }
      assert ps[i..] == [];
      groups := [e] + groups;
    }

    method FindMatch(team: nat, force: bool) returns (ps: seq<ProposalEntry>)
      ensures ps == Q.FindMatch(groups, team, force)
    {
      var i := 0;
      while i < |groups| && groups[i].team != team
        invariant 0 <= i <= |groups| && forall k :: 0 <= k < i ==> groups[k].team != team
      {
        i := i + 1;
      }
      assert i == Q.FirstOf(groups, team);
      ps := [];
      if i < |groups| && (groups[i].requirements.Met() || force) {
        var k := 0;
        while k < |groups[i].players|
          invariant 0 <= k <= |groups[i].players| && ps == Proposed(groups[i])[..k]
        {
          var player := groups[i].players[k];
          ps := ps + [ProposalEntry(player.guid, groups[i].team, player.roles, 0, 0)];
          k := k + 1;
        }
      }
    }
  }

  // ---------- the finder ----------

  class Manager {
    var queues: map<nat, DungeonQueue>
    var dungeonsOf: map<Guid, seq<nat>>
    var proposals: map<nat, Proposal>
    var lastId: nat
    var groups: seq<Formed>

    ghost predicate Valid()
      reads this
    {
      forall a, b :: a in queues && b in queues && queues[a] == queues[b] ==> a == b
    }

    ghost function Groups(): map<nat, Q.Queue>
      reads this, queues.Values
    {
      map d | d in queues :: queues[d].groups
    }

    /** The state as the finder functions see it. */
    ghost function W(): Finder
      reads this, queues.Values
    {
      Finder(Groups(), dungeonsOf, proposals, lastId, groups)
    }

    /** Every queue the finder can be led to exists. */
    ghost predicate Backed()
      reads this
    {
      && (forall g, d :: g in dungeonsOf && d in dungeonsOf[g] ==> d in queues)
      && (forall id :: id in proposals ==> proposals[id].dungeon in queues)
    }

    constructor ()
      ensures Valid() && W() == START && queues == map[]
    {
      queues, dungeonsOf, proposals, lastId, groups := map[], map[], map[], 0, [];
    }

    method Enqueue(d: nat, guid: Guid, team: nat, roles: RoleMask, now: int)
      requires Valid()
      modifies this`queues, queues.Values
      ensures Valid() && fresh(queues.Values - old(queues.Values))
      ensures Groups() == old(Groups())[d := Q.AddPlayer(QueueAt(old(Groups()), d), guid, team, roles, now)]
    {
      if d !in queues {
        var fresh_ := new DungeonQueue();
        queues := queues[d := fresh_];
      }
      queues[d].AddPlayer(guid, team, roles, now);
    }

    method Dequeue(d: nat, guid: Guid)
      requires Valid() && d in queues
      modifies queues[d]
      ensures Groups() == old(Groups())[d := Q.RemovePlayer(QueueAt(old(Groups()), d), guid)]
    {
      queues[d].RemovePlayer(guid);
    }

    method AddPlayerInternal(guid: Guid, roles: RoleMask, ds: seq<nat>, team: nat, grouped: bool, eligible: set<nat>, now: int)
      requires Valid()
      modifies this`queues, this`dungeonsOf, queues.Values
      ensures Valid() && fresh(queues.Values - old(queues.Values))
      ensures if grouped || (exists k :: 0 <= k < |ds| && ds[k] !in eligible)
        then W() == old(W())
        else W() == old(W()).(queues := EnqueueAll(old(Groups()), guid, team, roles, ds, now), dungeonsOf := old(dungeonsOf)[guid := ds])
    {
      if grouped { return; }
      var i := 0;
      while i < |ds|
        invariant 0 <= i <= |ds| && forall k :: 0 <= k < i ==> ds[k] in eligible
      {
        if ds[i] !in eligible { return; }
        i := i + 1;
      }
      EnqueueEach(guid, roles, ds, team, now);
      dungeonsOf := dungeonsOf[guid := ds];
    }

    method EnqueueEach(guid: Guid, roles: RoleMask, ds: seq<nat>, team: nat, now: int)
      requires Valid()
      modifies this`queues, queues.Values
      ensures Valid() && fresh(queues.Values - old(queues.Values))
      ensures Groups() == EnqueueAll(old(Groups()), guid, team, roles, ds, now)
    {
      var i := 0;
      while i < |ds|
        invariant 0 <= i <= |ds| && Valid() && fresh(queues.Values - old(queues.Values))
        invariant EnqueueAll(old(Groups()), guid, team, roles, ds, now) == EnqueueAll(Groups(), guid, team, roles, ds[i..], now)
      {
        Enqueue(ds[i], guid, team, roles, now);
        assert ds[i..][1..] == ds[i + 1..];
        i := i + 1;
      }
    }

    method AddPlayer(guid: Guid, roles: RoleMask, ds: seq<nat>, team: nat, grouped: bool, eligible: set<nat>, now: int)
      requires Valid()
      modifies this`queues, this`dungeonsOf, queues.Values
      ensures Valid() && fresh(queues.Values - old(queues.Values))
      ensures W() == JoinStep(old(W()), guid, roles, ds, team, grouped, eligible, now)
    {
      if guid in dungeonsOf || roles == 0 || ds == [] { return; }
      AddPlayerInternal(guid, roles, ds, team, grouped, eligible, now);
    }

    method DequeueEach(guid: Guid, ds: seq<nat>)
      requires Valid() && forall d :: d in ds ==> d in queues
      modifies queues.Values
      ensures Groups() == DequeueAll(old(Groups()), guid, ds)
    {
      var i := 0;
      while i < |ds|
        invariant 0 <= i <= |ds|
        invariant DequeueAll(old(Groups()), guid, ds) == DequeueAll(Groups(), guid, ds[i..])
      {
        Dequeue(ds[i], guid);
        assert ds[i..][1..] == ds[i + 1..];
        i := i + 1;
      }
    }

    method RemovePlayerInternal(guid: Guid)
      requires Valid() && (guid in dungeonsOf ==> forall d :: d in dungeonsOf[guid] ==> d in queues)
      modifies this`dungeonsOf, queues.Values
      ensures W() == Unqueue(old(W()), guid)
    {
      if guid in dungeonsOf {
        DequeueEach(guid, dungeonsOf[guid]);
        dungeonsOf := dungeonsOf - {guid};
      }
    }

    method ReaddGroup(d: nat, ps: seq<ProposalEntry>, now: int)
      requires Valid() && ps != [] && d in queues
      modifies this`dungeonsOf, queues[d]
      ensures W() == old(W()).(queues := old(Groups())[d := Q.Readd(QueueAt(old(Groups()), d), ps, now)],
                               dungeonsOf := AssignAll(old(dungeonsOf), ps, [d]))
    {
      queues[d].ReaddGroup(ps, now);
      AssignEach(ps, [d]);
    }

    method AssignEach(ps: seq<ProposalEntry>, ds: seq<nat>)
      modifies this`dungeonsOf
      ensures dungeonsOf == AssignAll(old(dungeonsOf), ps, ds)
    {
      var i := 0;
      while i < |ps|
        invariant 0 <= i <= |ps| && AssignAll(old(dungeonsOf), ps, ds) == AssignAll(dungeonsOf, ps[i..], ds)
      {
        dungeonsOf := dungeonsOf[ps[i].guid := ds];
        assert ps[i..][1..] == ps[i + 1..];
        i := i + 1;
      }
    }

    /** The players without the one who declined, if anyone did. */
    static method DropDecliner(ps: seq<ProposalEntry>) returns (rest: seq<ProposalEntry>)
      ensures rest == Rest(ps)
    {
      var i := 0;
      while i < |ps| && !Declined(ps[i])
        invariant 0 <= i <= |ps| && forall k :: 0 <= k < i ==> !Declined(ps[k])
      {
        i := i + 1;
      }
      assert i == Decliner(ps);
      rest := if i < |ps| then ps[..i] + ps[i + 1..] else ps;
    }

    method OnProposalFailed(id: nat, p: Proposal, now: int)
      requires Valid() && Rest(p.players) != [] && p.dungeon in queues
      modifies this`dungeonsOf, this`proposals, queues[p.dungeon]
      ensures W() == Fail(old(W()), id, p, now)
    {
      proposals := proposals - {id};
      var rest := DropDecliner(p.players);
      ReaddGroup(p.dungeon, rest, now);
    }

    method FindSeat(ps: seq<ProposalEntry>, guid: Guid) returns (i: nat)
      ensures i == Seat(ps, guid)
    {
      i := 0;
      while i < |ps| && ps[i].guid != guid
        invariant 0 <= i <= |ps| && forall k :: 0 <= k < i ==> ps[k].guid != guid
      {
        i := i + 1;
      }
    }

    /** The pending proposal the player is in, if any; the store is searched in no particular order. */
    method GetProposalForPlayer(guid: Guid) returns (found: Option<nat>)
      ensures found.Some? ==> found.value in proposals && Member(proposals[found.value].players, guid)
      ensures found.None? ==> forall id :: id in proposals ==> !Member(proposals[id].players, guid)
    {
      var left := proposals.Keys;
      while left != {}
        invariant left <= proposals.Keys
        invariant forall id :: id in proposals && id !in left ==> !Member(proposals[id].players, guid)
      {
        var id :| id in left;
        var i := FindSeat(proposals[id].players, guid);
        if i < |proposals[id].players| {
          return Some(id);
        }
        left := left - {id};
      }
      return None;
    }

    method RemovePlayer(guid: Guid, now: int) returns (ghost pending: Option<nat>)
      requires Valid() && Backed()
      requires forall id :: id in proposals && Member(proposals[id].players, guid) ==> LeaveFails(proposals, guid, id)
      modifies this`dungeonsOf, this`proposals, queues.Values
      ensures pending.Some? ==> LeaveFails(old(proposals), guid, pending.value) && Member(old(proposals)[pending.value].players, guid)
      ensures pending.None? ==> forall id :: id in old(proposals) ==> !Member(old(proposals)[id].players, guid)
      ensures W() == LeaveStep(old(W()), guid, pending, now)
    {
      RemovePlayerInternal(guid);
      var found := GetProposalForPlayer(guid);
      pending := found;
      if found.Some? {
        FailWithout(found.value, guid, now);
      }
    }

    method FailWithout(id: nat, guid: Guid, now: int)
      requires Valid() && LeaveFails(proposals, guid, id) && proposals[id].dungeon in queues
      modifies this`dungeonsOf, this`proposals, queues[proposals[id].dungeon]
      ensures W() == Fail(old(W()), id,
                          old(proposals)[id].(players := Erase(old(proposals)[id].players, Seat(old(proposals)[id].players, guid))), now)
    {
      var p := proposals[id];
      var i := FindSeat(p.players, guid);
      OnProposalFailed(id, p.(players := Erase(p.players, i)), now);
    }

    /** Records the answer; a decline fails the proposal, the last consent concludes it. */
    method UpdateProposal(id: nat, guid: Guid, result: nat, placement: Placement, now: int)
      requires Valid() && AnswerLeavesSome(W(), id, guid, result) && (id in proposals ==> proposals[id].dungeon in queues)
      modifies this`dungeonsOf, this`proposals, this`groups, queues.Values
      ensures W() == AnswerStep(old(W()), id, guid, result, placement, now)
    {
      if id !in proposals { return; }
      var p := proposals[id];
      var i := FindSeat(p.players, guid);
      if i == |p.players| { return; }
      p := p.(players := p.players[i := p.players[i].(answered := 1, accepted := result)]);
      Decide(id, p, result, placement, now);
    }

    method Decide(id: nat, p: Proposal, result: nat, placement: Placement, now: int)
      requires Valid() && Rest(p.players) != [] && p.dungeon in queues
      modifies this`dungeonsOf, this`proposals, this`groups, queues[p.dungeon]
      ensures W() == if result == 0 then Fail(old(W()), id, p, now)
        else if !AllAccepted(p.players) then old(W()).(proposals := old(proposals)[id := p])
        else Conclude(old(W()), id, p, placement, now)
    {
      if result == 0 {
        OnProposalFailed(id, p, now);
        return;
      }
      var all := HasAllAccepted(p.players);
      if all {
        OnProposalSuccess(id, p, placement, now);
      } else {
        proposals := proposals[id := p];
      }
    }

    static method HasAllAccepted(ps: seq<ProposalEntry>) returns (all: bool)
      ensures all <==> AllAccepted(ps)
    {
      var i := 0;
      while i < |ps|
        invariant 0 <= i <= |ps| && forall k :: 0 <= k < i ==> ps[k].accepted != 0
      {
        if ps[i].accepted == 0 { return false; }
        i := i + 1;
      }
      return true;
    }

    method OnProposalSuccess(id: nat, p: Proposal, placement: Placement, now: int)
      requires Valid() && Rest(p.players) != [] && p.dungeon in queues
      modifies this`dungeonsOf, this`proposals, this`groups, queues[p.dungeon]
      ensures W() == Conclude(old(W()), id, p, placement, now)
    {
      if placement == NoDungeon {
        OnProposalFailed(id, p, now);
        return;
      }
      proposals := proposals - {id};
      if placement == Started {
        groups := groups + [Formed(id, p.players)];
      }
    }

    method OnGroupFound(d: nat, ps: seq<ProposalEntry>, now: int)
      requires Valid() && Queued(W())
      modifies this`dungeonsOf, this`proposals, this`lastId, queues.Values
      ensures W() == Propose(old(W()), d, ps, now)
    {
      RemoveEach(ps);
      lastId := lastId + 1;
      proposals := proposals[lastId := Proposal(d, ps, now + PROPOSAL_SECONDS)];
    }

    method RemoveEach(ps: seq<ProposalEntry>)
      requires Valid() && Queued(W())
      modifies this`dungeonsOf, queues.Values
      ensures W() == UnqueueAll(old(W()), ps)
    {
      var i := 0;
      while i < |ps|
        invariant 0 <= i <= |ps| && Queued(W()) && UnqueueAll(old(W()), ps) == UnqueueAll(W(), ps[i..])
      {
        LfgSafety.UnqueueQueued(W(), ps[i].guid);
        RemovePlayerInternal(ps[i].guid);
        assert ps[i..][1..] == ps[i + 1..];
        i := i + 1;
      }
    }

    /** The proposals that have run out, in no particular order. */
    method GetExpiredProposals(now: int) returns (ids: seq<nat>)
      ensures Remaining(ids, 0, proposals, now)
    {
      ids := [];
      var left := proposals.Keys;
      while left != {}
        invariant left <= proposals.Keys && NoRepeat(ids)
        invariant forall id :: id in ids <==> id in proposals && id !in left && now >= proposals[id].expiry
      {
        var id :| id in left;
        if now >= proposals[id].expiry {
          ids := ids + [id];
        }
        left := left - {id};
      }
      assert ids[0..] == ids;
    }

    method Expire(ids: seq<nat>, i: nat, now: int, force: bool, ghost before: Finder, ghost run: seq<Event>) returns (ghost run': seq<Event>)
      requires Valid() && Expires(before, run, force, now, W()) && Sound(W())
      requires i < |ids| && Remaining(ids, i, proposals, now)
      modifies this`dungeonsOf, this`proposals, queues.Values
      ensures Expires(before, run', force, now, W()) && Sound(W())
      ensures Remaining(ids, i + 1, proposals, now)
    {
      ghost var w := W();
      SkipHead(ids, i, proposals, now);
      LfgSafety.ExpireSound(w, ids[i], now);
      SoundBacked(w, ids[i]);
      OnProposalFailed(ids[i], proposals[ids[i]], now);
      run' := run + [LfgRuns.Event(Op.Expire(ids[i]), now)];
      Extend(before, run, Op.Expire(ids[i]), now, force, w, W());
      OnlyMore(run, ids[i], now);
    }

    method ExpireAll(now: int, force: bool) returns (ghost run: seq<Event>)
      requires Valid() && Sound(W())
      modifies this`dungeonsOf, this`proposals, queues.Values
      ensures Expires(old(W()), run, force, now, W()) && Sound(W())
      ensures Unexpired(proposals, now)
    {
      run := [];
      var ids := GetExpiredProposals(now);
      var i := 0;
      while i < |ids|
        invariant 0 <= i <= |ids| && Expires(old(W()), run, force, now, W()) && Sound(W())
        invariant Remaining(ids, i, proposals, now)
      {
        run := Expire(ids, i, now, force, old(W()), run);
        i := i + 1;
      }
      AllExpired(ids, proposals, now);
    }

    method Match(d: nat, team: nat, force: bool, now: int)
      requires Valid() && Queued(W())
      modifies this`dungeonsOf, this`proposals, this`lastId, queues.Values
      ensures W() == MatchStep(old(W()), d, team, force, now)
    {
      if d in queues {
        var ps := queues[d].FindMatch(team, force);
        if ps != [] {
          OnGroupFound(d, ps, now);
        }
      }
    }

    method MatchOne(d: nat, team: nat, force: bool, now: int, ghost before: Finder, ghost run: seq<Event>)
      requires Valid() && Updates(before, run, force, now, W()) && Sound(W())
      requires Unexpired(proposals, now)
      modifies this`dungeonsOf, this`proposals, this`lastId, queues.Values
      ensures Updates(before, run + [LfgRuns.Event(Op.Match(d, team, force), now)], force, now, W()) && Sound(W())
      ensures Unexpired(proposals, now)
    {
      ghost var w := W();
      LfgSafety.MatchSound(w, d, team, force, now);
      Match(d, team, force, now);
      MatchUnexpired(w, d, team, force, now);
      Extend(before, run, Op.Match(d, team, force), now, force, w, W());
    }

    method MatchBoth(d: nat, force: bool, now: int, ghost before: Finder, ghost expired: seq<Event>)
      requires d > 0 && Valid() && Scheduled(before, expired, d - 1, force, now, W()) && Sound(W())
      requires Unexpired(proposals, now)
      modifies this`dungeonsOf, this`proposals, this`lastId, queues.Values
      ensures Scheduled(before, expired, d, force, now, W()) && Sound(W())
      ensures Unexpired(proposals, now)
    {
      ghost var run := expired + Schedule(d - 1, force, now);
      MatchOne(d, 0, force, now, before, run);
      MatchOne(d, 1, force, now, before, run + [LfgRuns.Event(Op.Match(d, 0, force), now)]);
      BothTried(before, expired, d, force, now, W());
    }

    method MatchAll(force: bool, now: int, ghost before: Finder, ghost expired: seq<Event>)
      requires Valid() && Scheduled(before, expired, 0, force, now, W()) && Sound(W())
      requires Unexpired(proposals, now)
      modifies this`dungeonsOf, this`proposals, this`lastId, queues.Values
      ensures Scheduled(before, expired, MAX_DUNGEONS, force, now, W()) && Sound(W())
      ensures Unexpired(proposals, now)
    {
      for d: int := 1 to MAX_DUNGEONS + 1
        invariant Scheduled(before, expired, d - 1, force, now, W()) && Sound(W()) && Unexpired(proposals, now)
      {
        MatchBoth(d, force, now, before, expired);
      }
    }

    /**
     The periodic update: fail every proposal that ran out, then once for each dungeon and faction, in
     order, propose the first group if it is ready. Nothing that has run out is pending afterwards.
     */
    method Update(force: bool, now: int) returns (ghost expired: seq<Event>)
      requires Valid() && Sound(W())
      modifies this`dungeonsOf, this`proposals, this`lastId, queues.Values
      ensures Scheduled(old(W()), expired, MAX_DUNGEONS, force, now, W()) && Sound(W())
      ensures Unexpired(proposals, now)
    {
      ghost var before := W();
      expired := ExpireAll(now, force);
      NothingScheduled(before, expired, force, now, W());
      MatchAll(force, now, before, expired);
    }
  }

  /** The matches an update tries: dungeons 1 to `n`, each for both factions. */
  ghost function Schedule(n: nat, force: bool, now: int): seq<Event> {
    seq(2 * n, k requires 0 <= k < 2 * n => LfgRuns.Event(Match(1 + k / 2, k % 2, force), now))
  }

  /** The update so far: some timeouts, then the matches of dungeons 1 to `n`. */
  ghost predicate Scheduled(w: Finder, expired: seq<Event>, n: nat, force: bool, now: int, w': Finder) {
    OnlyExpiries(expired) && Updates(w, expired + Schedule(n, force, now), force, now, w')
  }

  lemma {:induction false} ScheduleMore(d: nat, force: bool, now: int)
    requires d > 0
    ensures Schedule(d, force, now)
         == Schedule(d - 1, force, now) + [LfgRuns.Event(Match(d, 0, force), now), LfgRuns.Event(Match(d, 1, force), now)]
  {
  }

  lemma {:induction false} Regroup(a: seq<Event>, b: seq<Event>, x: Event, y: Event)
    ensures (a + b) + [x] + [y] == a + (b + [x, y])
  {
  }

  lemma {:induction false} BothTried(w: Finder, expired: seq<Event>, d: nat, force: bool, now: int, w': Finder)
    requires d > 0 && OnlyExpiries(expired)
    requires var run := expired + Schedule(d - 1, force, now);
      Updates(w, run + [LfgRuns.Event(Match(d, 0, force), now)] + [LfgRuns.Event(Match(d, 1, force), now)], force, now, w')
    ensures Scheduled(w, expired, d, force, now, w')
  {
    ScheduleMore(d, force, now);
    Regroup(expired, Schedule(d - 1, force, now), LfgRuns.Event(Match(d, 0, force), now), LfgRuns.Event(Match(d, 1, force), now));
  }

  lemma {:induction false} NothingScheduled(w: Finder, expired: seq<Event>, force: bool, now: int, w': Finder)
    requires Expires(w, expired, force, now, w')
    ensures Scheduled(w, expired, 0, force, now, w')
  {
    assert expired + Schedule(0, force, now) == expired;
  }

  ghost predicate OnlyExpiries(run: seq<Event>) {
    forall k :: 0 <= k < |run| ==> run[k].op.Expire?
  }

  ghost predicate Expires(w: Finder, run: seq<Event>, force: bool, now: int, w': Finder) {
    Updates(w, run, force, now, w') && OnlyExpiries(run)
  }

  lemma {:induction false} OnlyMore(run: seq<Event>, id: nat, now: int)
    requires OnlyExpiries(run)
    ensures OnlyExpiries(run + [LfgRuns.Event(Expire(id), now)])
  {
  }

  ghost predicate Remaining(ids: seq<nat>, i: nat, proposals: map<nat, Proposal>, now: int)
    requires i <= |ids|
  {
    NoRepeat(ids) && forall id :: id in ids[i..] <==> id in proposals && now >= proposals[id].expiry
  }

  lemma {:induction false} AllExpired(ids: seq<nat>, proposals: map<nat, Proposal>, now: int)
    requires Remaining(ids, |ids|, proposals, now)
    ensures Unexpired(proposals, now)
  {
  }

  lemma {:induction false} MatchUnexpired(w: Finder, d: nat, team: nat, force: bool, now: int)
    requires Unexpired(w.proposals, now)
    ensures Unexpired(MatchStep(w, d, team, force, now).proposals, now)
  {
    LfgSafety.UnqueueAllFrame(w, Q.FindMatch(QueueAt(w.queues, d), team, force));
  }

  ghost predicate Unexpired(proposals: map<nat, Proposal>, now: int) {
    forall id :: id in proposals ==> now < proposals[id].expiry
  }

  /** The states before and after an update are joined by a run of timeouts and matches. */
  ghost predicate Updates(w: Finder, run: seq<Event>, force: bool, now: int, w': Finder) {
    && LfgRuns.Legal(w, run) && w' == LfgRuns.End(w, run)
    && forall k :: 0 <= k < |run| ==> run[k].now == now && (run[k].op.Expire? || (run[k].op.Match? && run[k].op.force == force))
  }

  lemma {:induction false} Extend(before: Finder, run: seq<Event>, op: Op, now: int, force: bool, w: Finder, w': Finder)
    requires Updates(before, run, force, now, w) && Defined(w, op) && w' == Step(w, op, now)
    requires op.Expire? || (op.Match? && op.force == force)
    ensures Updates(before, run + [LfgRuns.Event(op, now)], force, now, w')
  {
    var run' := run + [LfgRuns.Event(op, now)];
    assert run'[..|run'| - 1] == run;
  }

  lemma {:induction false} SkipHead(ids: seq<nat>, i: nat, proposals: map<nat, Proposal>, now: int)
    requires i < |ids| && Remaining(ids, i, proposals, now)
    ensures ids[i] in proposals && now >= proposals[ids[i]].expiry
    ensures Remaining(ids, i + 1, proposals - {ids[i]}, now)
  {
    assert ids[i..][0] == ids[i];
    forall id ensures id in ids[i + 1..] <==> id in ids[i..] && id != ids[i] {
      InTail(ids, i, id);
    }
  }

  lemma {:induction false} InTail(ids: seq<nat>, i: nat, id: nat)
    requires i < |ids| && NoRepeat(ids)
    ensures id in ids[i + 1..] <==> id in ids[i..] && id != ids[i]
  {
    if id in ids[i..] && id != ids[i] {
      var k :| 0 <= k < |ids| - i && ids[i..][k] == id;
      assert ids[i + 1..][k - 1] == id;
    }
    if id in ids[i + 1..] {
      var k :| 0 <= k < |ids| - i - 1 && ids[i + 1..][k] == id;
      assert ids[i..][k + 1] == id;
    }
  }

  lemma {:induction false} SoundBacked(w: Finder, id: nat)
    requires Sound(w) && id in w.proposals
    ensures w.proposals[id].dungeon in w.queues
  {
  }
}
