/**
 One dungeon's queue: groups being filled, in order. Joining is first-fit, leaving dissolves a
 group that empties, a failed proposal returns to the front, and only the front group of a
 faction can be proposed.
 */
module LfgQueues {
  import opened Basics
  import opened LfgEntries

  type Queue = seq<QueueEntry>

  predicate Accepts(e: QueueEntry, guid: Guid, team: nat, roles: RoleMask, now: int) {
    e.team == team && TryAdd(e, guid, roles, now).Some?
  }

  /** What a group becomes when the player is offered to it. */
  function Offer(e: QueueEntry, guid: Guid, roles: RoleMask, now: int): QueueEntry {
    var r := TryAdd(e, guid, roles, now);
    if r.Some? then r.value else e
  }

  function AddPlayer(q: Queue, guid: Guid, team: nat, roles: RoleMask, now: int): Queue {
    if q == [] then [Offer(NewEntry(team), guid, roles, now)]
    else if Accepts(q[0], guid, team, roles, now) then [Offer(q[0], guid, roles, now)] + q[1..]
    else [q[0]] + AddPlayer(q[1..], guid, team, roles, now)
  }

  function RemovePlayer(q: Queue, guid: Guid): Queue {
    if q == [] then []
    else if TryRemove(q[0], guid).Some? then
      var e := TryRemove(q[0], guid).value;
      (if e.players == [] then [] else [e]) + q[1..]
    else [q[0]] + RemovePlayer(q[1..], guid)
  }

  /** The position of the first group of the faction, or the length. */
  function FirstOf(q: Queue, team: nat): (i: nat)
    ensures i <= |q|
    ensures i < |q| ==> q[i].team == team
    ensures forall k :: 0 <= k < i ==> q[k].team != team
  {
    if q == [] || q[0].team == team then 0 else 1 + FirstOf(q[1..], team)
  }

  /** The players to propose: all of the faction's first group if it is complete or matching is forced. */
  function FindMatch(q: Queue, team: nat, force: bool): seq<ProposalEntry> {
    var i := FirstOf(q, team);
    if i < |q| && (q[i].requirements.Met() || force) then Proposed(q[i]) else []
  }

  function Readd(q: Queue, ps: seq<ProposalEntry>, now: int): Queue
    requires ps != []
  {
    [Rebuild(NewEntry(ps[0].team), ps, now)] + q
  }

  // ---------- who is in a queue, how often ----------

  function Seated(players: seq<LfgPlayer>, guid: Guid): nat {
    if Find(players, guid) < |players| then 1 else 0
  }

  /** In how many groups of the queue the player sits. */
  function Times(q: Queue, guid: Guid): nat {
    if q == [] then 0 else Seated(q[0].players, guid) + Times(q[1..], guid)
  }

  ghost predicate QueueOk(q: Queue) {
    forall i :: 0 <= i < |q| ==> EntryOk(q[i]) && q[i].players != []
  }

  /** Same membership except that one player sits in `n` groups. */
  ghost predicate Reseated(q: Queue, q': Queue, guid: Guid, n: int) {
    Times(q', guid) == n && forall g :: g != guid ==> Times(q', g) == Times(q, g)
  }

  lemma {:induction false} SeatedIff(players: seq<LfgPlayer>, guid: Guid)
    ensures Seated(players, guid) == 1 <==> exists k :: 0 <= k < |players| && players[k].guid == guid
  {
  }

  lemma {:induction false} SeatedSnoc(players: seq<LfgPlayer>, p: LfgPlayer, g: Guid)
    ensures Seated(players + [p], g) == if g == p.guid then 1 else Seated(players, g)
  {
    var all := players + [p];
    assert all[|players|] == p;
    assert forall k :: 0 <= k < |players| ==> all[k] == players[k];
    SeatedIff(all, g);
    SeatedIff(players, g);
  }

  lemma {:induction false} SeatedErase(players: seq<LfgPlayer>, i: nat, g: Guid)
    requires i < |players| && DistinctGuids(players)
    ensures Seated(players[..i] + players[i + 1..], g) == if g == players[i].guid then 0 else Seated(players, g)
  {
    var r := players[..i] + players[i + 1..];
    assert forall k :: 0 <= k < i ==> r[k] == players[k];
    assert forall k :: i < k < |players| ==> r[k - 1] == players[k];
    SeatedIff(r, g);
    SeatedIff(players, g);
  }

  lemma {:induction false} TimesCons(e: QueueEntry, q: Queue, g: Guid)
    ensures Times([e] + q, g) == Seated(e.players, g) + Times(q, g)
  {
  }

  lemma {:induction false} OkTail(q: Queue)
    requires QueueOk(q) && q != []
    ensures QueueOk(q[1..]) && EntryOk(q[0]) && q[0].players != []
  {
  }

  lemma {:induction false} OkCons(e: QueueEntry, q: Queue)
    requires EntryOk(e) && e.players != [] && QueueOk(q)
    ensures QueueOk([e] + q)
  {
  }

  lemma {:induction false} NotSeated(q: Queue, guid: Guid)
    requires q != [] && Times(q, guid) == 0
    ensures Times(q[1..], guid) == 0 && forall k :: 0 <= k < |q[0].players| ==> q[0].players[k].guid != guid
  {
    SeatedIff(q[0].players, guid);
  }

  // ---------- joining ----------

  lemma {:induction false} OfferOk(e: QueueEntry, guid: Guid, roles: RoleMask, now: int)
    requires EntryOk(e) && TryAdd(e, guid, roles, now).Some?
    requires forall k :: 0 <= k < |e.players| ==> e.players[k].guid != guid
    ensures EntryOk(Offer(e, guid, roles, now)) && Offer(e, guid, roles, now).players != []
    ensures forall g :: Seated(Offer(e, guid, roles, now).players, g) == if g == guid then 1 else Seated(e.players, g)
  {
    AddKeepsOk(e, guid, roles, now);
    var p := Offer(e, guid, roles, now).players[|e.players|];
    forall g ensures Seated(Offer(e, guid, roles, now).players, g) == if g == guid then 1 else Seated(e.players, g) {
      SeatedSnoc(e.players, p, g);
    }
  }

  lemma {:induction false} JoinHead(q: Queue, guid: Guid, team: nat, roles: RoleMask, now: int, e: QueueEntry)
    requires q != [] && QueueOk(q) && Times(q, guid) == 0 && Accepts(q[0], guid, team, roles, now) && e == Offer(q[0], guid, roles, now)
    ensures QueueOk([e] + q[1..]) && Reseated(q, [e] + q[1..], guid, 1)
  {
    OkTail(q);
    NotSeated(q, guid);
    OfferOk(q[0], guid, roles, now);
    OkCons(e, q[1..]);
    ReseatHead(q, e, guid, 1);
  }

  lemma {:induction false} JoinLater(q: Queue, guid: Guid, rest: Queue)
    requires q != [] && QueueOk(q) && Times(q, guid) == 0 && QueueOk(rest) && Reseated(q[1..], rest, guid, 1)
    ensures QueueOk([q[0]] + rest) && Reseated(q, [q[0]] + rest, guid, 1)
  {
    OkTail(q);
    NotSeated(q, guid);
    OkCons(q[0], rest);
    ReseatTail(q, rest, guid, 1);
  }

  lemma {:induction false} LoneEntry(e: QueueEntry, guid: Guid)
    requires EntryOk(e) && e.players != [] && forall g :: Seated(e.players, g) == if g == guid then 1 else 0
    ensures QueueOk([e]) && Reseated([], [e], guid, 1)
  {
    assert [e][1..] == [];
    forall g ensures Times([e], g) == Seated(e.players, g) {
      assert Times([], g) == 0;
    }
  }

  lemma {:induction false} NobodySeated(team: nat, g: Guid)
    ensures Seated(NewEntry(team).players, g) == 0
  {
  }

  lemma {:induction false} JoinEmpty(guid: Guid, team: nat, roles: RoleMask, now: int, e: QueueEntry)
    requires HasCombatRole(roles) && e == Offer(NewEntry(team), guid, roles, now)
    ensures QueueOk([e]) && Reseated([], [e], guid, 1)
  {
    NewEntryOk(team);
    FreshAccepts(team, guid, roles, now);
    OfferOk(NewEntry(team), guid, roles, now);
    forall g ensures Seated(NewEntry(team).players, g) == 0 {
      NobodySeated(team, g);
    }
    LoneEntry(e, guid);
  }

  /** A player with a combat role who joins sits in exactly one group afterwards; nobody else moves. */
  lemma {:induction false} AddPlayerSeats(q: Queue, guid: Guid, team: nat, roles: RoleMask, now: int)
    requires QueueOk(q) && Times(q, guid) == 0 && HasCombatRole(roles)
    ensures QueueOk(AddPlayer(q, guid, team, roles, now))
    ensures Reseated(q, AddPlayer(q, guid, team, roles, now), guid, 1)
  {
    if q == [] {
      JoinEmpty(guid, team, roles, now, Offer(NewEntry(team), guid, roles, now));
    } else if Accepts(q[0], guid, team, roles, now) {
      JoinHead(q, guid, team, roles, now, Offer(q[0], guid, roles, now));
    } else {
      OkTail(q);
      NotSeated(q, guid);
      AddPlayerSeats(q[1..], guid, team, roles, now);
      JoinLater(q, guid, AddPlayer(q[1..], guid, team, roles, now));
    }
  }

  lemma {:induction false} ReseatHead(q: Queue, e: QueueEntry, guid: Guid, n: int)
    requires q != [] && Times(q[1..], guid) == 0
    requires forall g :: Seated(e.players, g) == if g == guid then n else Seated(q[0].players, g)
    ensures Reseated(q, [e] + q[1..], guid, n)
  {
    forall g ensures Times([e] + q[1..], g) == if g == guid then n else Times(q, g) {
      TimesCons(e, q[1..], g);
    }
  }

  lemma {:induction false} ReseatTail(q: Queue, rest: Queue, guid: Guid, n: int)
    requires q != [] && Reseated(q[1..], rest, guid, n) && Seated(q[0].players, guid) == 0
    ensures Reseated(q, [q[0]] + rest, guid, n)
  {
    forall g ensures Times([q[0]] + rest, g) == if g == guid then n else Times(q, g) {
      TimesCons(q[0], rest, g);
    }
  }

  /**
   First fit: the groups ahead of the chosen one are of another faction or cannot use the player,
   the chosen group gains the player, and no other group changes.
   */
  lemma {:induction false} FirstFit(q: Queue, guid: Guid, team: nat, roles: RoleMask, now: int) returns (i: nat)
    ensures i <= |q| && forall k :: 0 <= k < i ==> !Accepts(q[k], guid, team, roles, now)
    ensures i < |q| ==> Accepts(q[i], guid, team, roles, now)
    ensures i < |q| ==>
      AddPlayer(q, guid, team, roles, now) == q[..i] + [TryAdd(q[i], guid, roles, now).value] + q[i + 1..]
    ensures i == |q| ==> AddPlayer(q, guid, team, roles, now) == q + [Offer(NewEntry(team), guid, roles, now)]
  {
    if q == [] || Accepts(q[0], guid, team, roles, now) {
      i := 0;
    } else {
      var j := FirstFit(q[1..], guid, team, roles, now);
      i := j + 1;
      if i < |q| {
        assert q[..i] + [TryAdd(q[i], guid, roles, now).value] + q[i + 1..]
          == [q[0]] + (q[1..][..j] + [TryAdd(q[1..][j], guid, roles, now).value] + q[1..][j + 1..]);
      }
    }
  }

  /** A request that names no combat role is never seated: joining leaves an empty group behind. */
  lemma {:induction false} LeaderOnlyIsNotSeated(q: Queue, guid: Guid, team: nat, roles: RoleMask, now: int)
    requires !HasCombatRole(roles)
    ensures AddPlayer(q, guid, team, roles, now) == q + [NewEntry(team)]
  {
    if q != [] {
      LeaderOnlyIsNotSeated(q[1..], guid, team, roles, now);
    }
  }

  lemma {:induction false} TimesAppend(a: Queue, b: Queue, g: Guid)
    ensures Times(a + b, g) == Times(a, g) + Times(b, g)
  {
    if a == [] {
      assert a + b == b;
    } else {
      assert (a + b)[1..] == a[1..] + b;
      TimesAppend(a[1..], b, g);
    }
  }

  /** Joining seats the player and keeps the queue valid exactly when some combat role is offered. */
  lemma {:induction false} JoinSeatsIff(q: Queue, guid: Guid, team: nat, roles: RoleMask, now: int)
    requires QueueOk(q) && Times(q, guid) == 0
    ensures HasCombatRole(roles) <==> Times(AddPlayer(q, guid, team, roles, now), guid) == 1
    ensures HasCombatRole(roles) <==> QueueOk(AddPlayer(q, guid, team, roles, now))
  {
    var q' := AddPlayer(q, guid, team, roles, now);
    if HasCombatRole(roles) {
      AddPlayerSeats(q, guid, team, roles, now);
    } else {
      LeaderOnlyIsNotSeated(q, guid, team, roles, now);
      TimesAppend(q, [NewEntry(team)], guid);
      assert q'[|q|].players == [];
    }
  }

  /** How many seats of a group the player holds. */
  function SeatsIn(players: seq<LfgPlayer>, guid: Guid): nat {
    if players == [] then 0
    else SeatsIn(players[..|players| - 1], guid) + (if players[|players| - 1].guid == guid then 1 else 0)
  }

  /** How many seats of the queue the player holds. */
  function SeatsHeld(q: Queue, guid: Guid): nat {
    if q == [] then 0 else SeatsIn(q[0].players, guid) + SeatsHeld(q[1..], guid)
  }

  lemma {:induction false} OfferGivesSeat(e: QueueEntry, guid: Guid, roles: RoleMask, now: int)
    requires TryAdd(e, guid, roles, now).Some?
    ensures SeatsIn(Offer(e, guid, roles, now).players, guid) == SeatsIn(e.players, guid) + 1
  {
    var players := Offer(e, guid, roles, now).players;
    assert players[..|players| - 1] == e.players;
  }

  /** A join takes one more seat, even for a player who has one, exactly when a combat role is offered. */
  lemma {:induction false} JoinTakesSeat(q: Queue, guid: Guid, team: nat, roles: RoleMask, now: int)
    ensures SeatsHeld(AddPlayer(q, guid, team, roles, now), guid) == SeatsHeld(q, guid) + (if HasCombatRole(roles) then 1 else 0)
  {
    var q' := AddPlayer(q, guid, team, roles, now);
    if q == [] {
      FreshAccepts(team, guid, roles, now);
      if HasCombatRole(roles) { OfferGivesSeat(NewEntry(team), guid, roles, now); }
      assert q'[1..] == [];
    } else if Accepts(q[0], guid, team, roles, now) {
      OfferGivesSeat(q[0], guid, roles, now);
      SeatGiven(q[0], guid, roles, now);
      assert q'[1..] == q[1..];
    } else {
      JoinTakesSeat(q[1..], guid, team, roles, now);
      assert q'[1..] == AddPlayer(q[1..], guid, team, roles, now);
    }
  }

  // ---------- leaving ----------

  lemma {:induction false} UnseatOk(e: QueueEntry, guid: Guid)
    requires EntryOk(e) && TryRemove(e, guid).Some?
    ensures EntryOk(TryRemove(e, guid).value)
    ensures forall g :: Seated(TryRemove(e, guid).value.players, g) == if g == guid then 0 else Seated(e.players, g)
  {
    RemoveKeepsOk(e, guid);
    var i := Find(e.players, guid);
    forall g ensures Seated(TryRemove(e, guid).value.players, g) == if g == guid then 0 else Seated(e.players, g) {
      SeatedErase(e.players, i, g);
    }
  }

  lemma {:induction false} ReseatDissolved(q: Queue, e: QueueEntry, guid: Guid)
    requires q != [] && Times(q[1..], guid) == 0 && e.players == []
    requires forall g :: Seated(e.players, g) == if g == guid then 0 else Seated(q[0].players, g)
    ensures Reseated(q, q[1..], guid, 0)
  {
    forall g | g != guid ensures Times(q[1..], g) == Times(q, g) {
      assert Seated(e.players, g) == 0;
    }
  }

  /** A player who leaves sits nowhere afterwards; nobody else moves; no empty group stays. */
  lemma {:induction false} RemovePlayerUnseats(q: Queue, guid: Guid)
    requires QueueOk(q) && Times(q, guid) <= 1
    ensures QueueOk(RemovePlayer(q, guid))
    ensures Reseated(q, RemovePlayer(q, guid), guid, 0)
  {
    if q != [] {
      OkTail(q);
      if TryRemove(q[0], guid).Some? {
        UnseatOk(q[0], guid);
        var e := TryRemove(q[0], guid).value;
        if e.players == [] {
          ReseatDissolved(q, e, guid);
          assert RemovePlayer(q, guid) == q[1..];
        } else {
          OkCons(e, q[1..]);
          ReseatHead(q, e, guid, 0);
        }
      } else {
        RemovePlayerUnseats(q[1..], guid);
        OkCons(q[0], RemovePlayer(q[1..], guid));
        ReseatTail(q, RemovePlayer(q[1..], guid), guid, 0);
      }
    }
  }

  /** The groups keep their places: only the leaver's group changes, and only an emptied one is taken out. */
  lemma {:induction false} RemovePlayerInPlace(q: Queue, guid: Guid, i: nat)
    requires i <= |q| && (forall k :: 0 <= k < i ==> TryRemove(q[k], guid).None?) && (i < |q| ==> TryRemove(q[i], guid).Some?)
    ensures RemovePlayer(q, guid) ==
      if i == |q| then q
      else
        var e := TryRemove(q[i], guid).value;
        q[..i] + (if |e.players| == 0 then [] else [e]) + q[i + 1..]
  {
    if i > 0 {
      RemovePlayerInPlace(q[1..], guid, i - 1);
      if i < |q| { assert q[1..][..i - 1] == q[1..i] && q[..i] == [q[0]] + q[1..i] && q[1..][i..] == q[i + 1..]; }
    }
  }

  // ---------- proposing and re-adding ----------

  lemma {:induction false} SeatedInQueue(q: Queue, i: nat, k: nat)
    requires i < |q| && k < |q[i].players|
    ensures Times(q, q[i].players[k].guid) >= 1
  {
    if i == 0 {
      SeatedIff(q[0].players, q[0].players[k].guid);
    } else {
      SeatedInQueue(q[1..], i - 1, k);
    }
  }

  ghost predicate Unanswered(ps: seq<ProposalEntry>, team: nat) {
    forall k :: 0 <= k < |ps| ==> ps[k].team == team && ps[k].answered == 0 && ps[k].accepted == 0
  }

  ghost predicate AllQueued(q: Queue, ps: seq<ProposalEntry>) {
    forall k :: 0 <= k < |ps| ==> Times(q, ps[k].guid) >= 1
  }

  /** A full group: five players, one tank, one healer, three damage dealers, one leader. */
  ghost predicate FullGroup(ps: seq<ProposalEntry>) {
    var s := Seats(ps, 0);
    |ps| == 5 && Count(s, TANK) == 1 && Count(s, HEALER) == 1 && Count(s, DPS) == 3 && Count(s, LEADER) == 1
  }

  lemma {:induction false} EntryQueued(q: Queue, i: nat, ps: seq<ProposalEntry>)
    requires i < |q| && ps == Proposed(q[i])
    ensures AllQueued(q, ps)
  {
    forall k | 0 <= k < |ps| ensures Times(q, ps[k].guid) >= 1 {
      SeatedInQueue(q, i, k);
    }
  }

  ghost predicate Proposable(q: Queue, ps: seq<ProposalEntry>, team: nat) {
    Unanswered(ps, team) && AllQueued(q, ps) && Fits(Seats(ps, 0))
  }

  lemma {:induction false} EntryProposable(q: Queue, i: nat)
    requires QueueOk(q) && i < |q|
    ensures Proposable(q, Proposed(q[i]), q[i].team)
  {
    ProposedFits(q[i], 0);
    EntryQueued(q, i, Proposed(q[i]));
  }

  lemma {:induction false} NoneProposable(q: Queue, team: nat)
    ensures Proposable(q, [], team)
  {
    assert Seats([], 0) == [];
  }

  /** The players proposed are queued, unanswered, of one faction, and fit into one group. */
  lemma {:induction false} MatchProposable(q: Queue, team: nat, force: bool)
    requires QueueOk(q)
    ensures Proposable(q, FindMatch(q, team, force), team)
  {
    var i := FirstOf(q, team);
    if i < |q| && (q[i].requirements.Met() || force) {
      EntryProposable(q, i);
    } else {
      NoneProposable(q, team);
    }
  }

  /** Without force a proposal is exactly one full group. */
  lemma {:induction false} MatchIsFull(q: Queue, team: nat)
    requires QueueOk(q) && FindMatch(q, team, false) != []
    ensures FullGroup(FindMatch(q, team, false))
  {
    var e := q[FirstOf(q, team)];
    MetIffComplete(e);
    var s := Seats(Proposed(e), 0);
    CountSameRoles(s, e.players, TANK);
    CountSameRoles(s, e.players, HEALER);
    CountSameRoles(s, e.players, DPS);
    CountSameRoles(s, e.players, LEADER);
  }

  /** Players are proposed from the faction's first entry, all of them, and only if it is ready or matching is forced. */
  lemma {:induction false} MatchTakesFront(q: Queue, team: nat, force: bool, i: nat)
    requires QueueOk(q) && i < |q| && q[i].team == team && forall k :: 0 <= k < i ==> q[k].team != team
    ensures FindMatch(q, team, force) != [] <==> force || (|q[i].players| == 5 && Count(q[i].players, LEADER) == 1)
    ensures FindMatch(q, team, force) != [] ==> Seats(FindMatch(q, team, force), 0) == Seats(Proposed(q[i]), 0)
  {
    assert FirstOf(q, team) == i;
    assert EntryOk(q[i]) && q[i].players != [];
    MetIffComplete(q[i]);
  }

  function Among(ps: seq<ProposalEntry>, guid: Guid): nat {
    if exists k :: 0 <= k < |ps| && ps[k].guid == guid then 1 else 0
  }

  lemma {:induction false} SeatsAnyTime(ps: seq<ProposalEntry>, now: int)
    requires Fits(Seats(ps, 0))
    ensures Fits(Seats(ps, now))
  {
    var a, b := Seats(ps, 0), Seats(ps, now);
    CountSameRoles(a, b, TANK);
    CountSameRoles(a, b, HEALER);
    CountSameRoles(a, b, DPS);
    CountSameRoles(a, b, LEADER);
    assert forall k :: 0 <= k < |ps| ==> b[k].guid == a[k].guid && b[k].roles == a[k].roles;
  }

  lemma {:induction false} RebuildTeam(e: QueueEntry, ps: seq<ProposalEntry>, now: int)
    ensures Rebuild(e, ps, now).team == e.team
    decreases |ps|
  {
    if ps != [] {
      RebuildTeam(AddOrSkip(e, ps[0], now), ps[1..], now);
    }
  }

  lemma {:induction false} RebuildsGroup(ps: seq<ProposalEntry>, now: int)
    requires ps != [] && Fits(Seats(ps, 0))
    ensures var r := Rebuild(NewEntry(ps[0].team), ps, now); EntryOk(r) && r.players == Seats(ps, now) && r.team == ps[0].team
  {
    RebuildTeam(NewEntry(ps[0].team), ps, now);
    NewEntryOk(ps[0].team);
    SeatsAnyTime(ps, now);
    NothingBefore(Seats(ps, now));
    RebuildExact(NewEntry(ps[0].team), ps, now);
  }

  lemma {:induction false} NothingBefore(s: seq<LfgPlayer>)
    ensures [] + s == s
  {
  }

  lemma {:induction false} SeatedAmong(ps: seq<ProposalEntry>, now: int, g: Guid)
    ensures Seated(Seats(ps, now), g) == Among(ps, g)
  {
    SeatedIff(Seats(ps, now), g);
  }

  /** Re-adding puts one valid group of exactly these players, with their roles, at the front. */
  lemma {:induction false} ReaddSeats(q: Queue, ps: seq<ProposalEntry>, now: int)
    requires QueueOk(q) && ps != [] && Fits(Seats(ps, 0))
    ensures QueueOk(Readd(q, ps, now)) && Readd(q, ps, now)[0].players == Seats(ps, now)
    ensures Readd(q, ps, now)[0].team == ps[0].team && Readd(q, ps, now)[1..] == q
    ensures forall g :: Times(Readd(q, ps, now), g) == Times(q, g) + Among(ps, g)
  {
    RebuildsGroup(ps, now);
    var r := Rebuild(NewEntry(ps[0].team), ps, now);
    OkCons(r, q);
    forall g ensures Times(Readd(q, ps, now), g) == Times(q, g) + Among(ps, g) {
      TimesCons(r, q, g);
      SeatedAmong(ps, now, g);
    }
  }

  // ---------- walking along a queue ----------

  lemma {:induction false} PassedBy(q: Queue, i: nat, guid: Guid, team: nat, roles: RoleMask, now: int)
    requires i < |q| && !Accepts(q[i], guid, team, roles, now)
    ensures q[..i] + AddPlayer(q[i..], guid, team, roles, now) == q[..i + 1] + AddPlayer(q[i + 1..], guid, team, roles, now)
  {
    assert q[i..][1..] == q[i + 1..];
  }

  lemma {:induction false} JoinsHere(q: Queue, i: nat, guid: Guid, team: nat, roles: RoleMask, now: int)
    requires i < |q| && Accepts(q[i], guid, team, roles, now)
    ensures q[..i] + AddPlayer(q[i..], guid, team, roles, now) == q[i := Offer(q[i], guid, roles, now)]
  {
    assert q[i..][1..] == q[i + 1..];
  }

  lemma {:induction false} StaysOn(q: Queue, i: nat, guid: Guid)
    requires i < |q| && TryRemove(q[i], guid).None?
    ensures q[..i] + RemovePlayer(q[i..], guid) == q[..i + 1] + RemovePlayer(q[i + 1..], guid)
  {
    assert q[i..][1..] == q[i + 1..];
  }

  lemma {:induction false} LeavesHere(q: Queue, i: nat, guid: Guid)
    requires i < |q| && TryRemove(q[i], guid).Some?
    ensures var e := TryRemove(q[i], guid).value;
      q[..i] + RemovePlayer(q[i..], guid) == if e.players == [] then q[..i] + q[i + 1..] else q[i := e]
  {
    var e := TryRemove(q[i], guid).value;
    assert q[i..][1..] == q[i + 1..];
    if e.players == [] {
      assert RemovePlayer(q[i..], guid) == q[i + 1..];
    } else {
      assert RemovePlayer(q[i..], guid) == [e] + q[i + 1..];
    }
  }
}
