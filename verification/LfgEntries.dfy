/**
 Dungeon finder queue entries: greedy role allocation for one group of one tank,
 one healer and three damage dealers, one of whom leads.
 */
module LfgEntries {
  import opened Basics

  type Guid = nat
  type RoleMask = bv32

  const LEADER: RoleMask := 1
  const TANK: RoleMask := 2
  const HEALER: RoleMask := 4
  const DPS: RoleMask := 8

  predicate Has(roles: RoleMask, bit: RoleMask) {
    roles & bit != 0
  }

  predicate HasCombatRole(roles: RoleMask) {
    Has(roles, TANK) || Has(roles, HEALER) || Has(roles, DPS)
  }

  datatype Requirements = Requirements(needLeader: bool, tanksNeeded: nat, healersNeeded: nat, dpsNeeded: nat) {
    predicate Met() {
      !needLeader && tanksNeeded == 0 && healersNeeded == 0 && dpsNeeded == 0
    }
  }

  datatype LfgPlayer = LfgPlayer(guid: Guid, roles: RoleMask, jointime: int)

  datatype QueueEntry = QueueEntry(team: nat, players: seq<LfgPlayer>, requirements: Requirements)

  function NewEntry(team: nat): QueueEntry {
    QueueEntry(team, [], Requirements(true, 1, 1, 3))
  }

  // ---------- the two operations of an entry ----------

  /** The combat role the entry gives: the first it still needs of tank, healer, damage; 0 if none. */
  function CombatRole(need: Requirements, roles: RoleMask): RoleMask {
    if need.tanksNeeded > 0 && Has(roles, TANK) then TANK
    else if need.healersNeeded > 0 && Has(roles, HEALER) then HEALER
    else if need.dpsNeeded > 0 && Has(roles, DPS) then DPS
    else 0
  }

  /** The entry with the player added, or None when it has no use for the player. */
  function TryAdd(e: QueueEntry, guid: Guid, roles: RoleMask, now: int): Option<QueueEntry> {
    var need := e.requirements;
    var combat := CombatRole(need, roles);
    if need.Met() || combat == 0 then None
    else
      var leads := need.needLeader && Has(roles, LEADER);
      var need' := Requirements(
        need.needLeader && !leads,
        if combat == TANK then need.tanksNeeded - 1 else need.tanksNeeded,
        if combat == HEALER then need.healersNeeded - 1 else need.healersNeeded,
        if combat == DPS then need.dpsNeeded - 1 else need.dpsNeeded);
      var selected := if leads then combat | LEADER else combat;
      Some(QueueEntry(e.team, e.players + [LfgPlayer(guid, selected, now)], need'))
  }

  /** The position of the player, or the length when absent. */
  function Find(players: seq<LfgPlayer>, guid: Guid): (i: nat)
    ensures i <= |players|
    ensures i < |players| ==> players[i].guid == guid
    ensures forall k :: 0 <= k < i ==> players[k].guid != guid
  {
    if players == [] || players[0].guid == guid then 0 else 1 + Find(players[1..], guid)
  }

  function GiveBack(need: Requirements, roles: RoleMask): Requirements {
    Requirements(
      need.needLeader || Has(roles, LEADER),
      if Has(roles, TANK) then need.tanksNeeded + 1 else need.tanksNeeded,
      if !Has(roles, TANK) && Has(roles, HEALER) then need.healersNeeded + 1 else need.healersNeeded,
      if !Has(roles, TANK) && !Has(roles, HEALER) && Has(roles, DPS) then need.dpsNeeded + 1 else need.dpsNeeded)
  }

  function TryRemove(e: QueueEntry, guid: Guid): Option<QueueEntry> {
    var i := Find(e.players, guid);
    if i == |e.players| then None
    else Some(QueueEntry(e.team, e.players[..i] + e.players[i + 1..], GiveBack(e.requirements, e.players[i].roles)))
  }

  // ---------- the entry invariant ----------

  /** How many players hold the role bit. */
  function Count(players: seq<LfgPlayer>, bit: RoleMask): nat {
    if players == [] then 0 else Count(players[..|players| - 1], bit) + (if Has(players[|players| - 1].roles, bit) then 1 else 0)
  }

  /** Exactly one combat role, with or without the leader bit. */
  predicate Selected(roles: RoleMask) {
    roles == TANK || roles == HEALER || roles == DPS
    || roles == TANK | LEADER || roles == HEALER | LEADER || roles == DPS | LEADER
  }

  ghost predicate DistinctGuids(players: seq<LfgPlayer>) {
    forall i, j :: 0 <= i < j < |players| ==> players[i].guid != players[j].guid
  }

  ghost predicate AllSelected(players: seq<LfgPlayer>) {
    forall i :: 0 <= i < |players| ==> Selected(players[i].roles)
  }

  /** What is needed and what is there always make one full group. */
  ghost predicate Balanced(need: Requirements, players: seq<LfgPlayer>) {
    && need.tanksNeeded + Count(players, TANK) == 1
    && need.healersNeeded + Count(players, HEALER) == 1
    && need.dpsNeeded + Count(players, DPS) == 3
    && One(need.needLeader) + Count(players, LEADER) == 1
  }

  ghost predicate EntryOk(e: QueueEntry) {
    Balanced(e.requirements, e.players) && AllSelected(e.players) && DistinctGuids(e.players)
  }

  lemma {:induction false} CountSnoc(players: seq<LfgPlayer>, p: LfgPlayer, bit: RoleMask)
    ensures Count(players + [p], bit) == Count(players, bit) + (if Has(p.roles, bit) then 1 else 0)
  {
    assert (players + [p])[..|players|] == players;
  }

  lemma {:induction false} CountErase(players: seq<LfgPlayer>, i: nat, bit: RoleMask)
    requires i < |players|
    ensures Count(players[..i] + players[i + 1..], bit) + (if Has(players[i].roles, bit) then 1 else 0) == Count(players, bit)
  {
    var n := |players| - 1;
    if i == n {
      assert players[..i] + players[i + 1..] == players[..n];
    } else {
      CountErase(players[..n], i, bit);
      assert players[..i] + players[i + 1..] == (players[..n][..i] + players[..n][i + 1..]) + [players[n]];
      CountSnoc(players[..n][..i] + players[..n][i + 1..], players[n], bit);
    }
  }

  lemma {:induction false} NewEntryOk(team: nat)
    ensures EntryOk(NewEntry(team))
  {
  }

  /** The roles a player is given contain one combat role and lead only when asked to. */
  lemma {:induction false} SelectedBits(combat: RoleMask, leads: bool)
    requires combat == TANK || combat == HEALER || combat == DPS
    ensures var s := if leads then combat | LEADER else combat;
      && Selected(s) && (Has(s, LEADER) <==> leads) && (Has(s, TANK) <==> combat == TANK)
      && (Has(s, HEALER) <==> combat == HEALER) && (Has(s, DPS) <==> combat == DPS)
  {
  }

  /** One when the condition holds. */
  function One(b: bool): nat {
    if b then 1 else 0
  }

  /** `less` needs one less of everything the roles provide. */
  predicate Fewer(need: Requirements, less: Requirements, roles: RoleMask) {
    && less.tanksNeeded + One(Has(roles, TANK)) == need.tanksNeeded
    && less.healersNeeded + One(Has(roles, HEALER)) == need.healersNeeded
    && less.dpsNeeded + One(Has(roles, DPS)) == need.dpsNeeded
    && One(less.needLeader) + One(Has(roles, LEADER)) == One(need.needLeader)
  }

  lemma {:induction false} BalancedSnoc(need: Requirements, less: Requirements, players: seq<LfgPlayer>, p: LfgPlayer)
    requires Balanced(need, players) && Fewer(need, less, p.roles)
    ensures Balanced(less, players + [p])
  {
    CountSnoc(players, p, TANK);
    CountSnoc(players, p, HEALER);
    CountSnoc(players, p, DPS);
    CountSnoc(players, p, LEADER);
  }

  lemma {:induction false} BalancedErase(need: Requirements, more: Requirements, players: seq<LfgPlayer>, i: nat)
    requires i < |players| && Balanced(need, players) && Fewer(more, need, players[i].roles)
    ensures Balanced(more, players[..i] + players[i + 1..])
  {
    CountErase(players, i, TANK);
    CountErase(players, i, HEALER);
    CountErase(players, i, DPS);
    CountErase(players, i, LEADER);
  }

  lemma {:induction false} SnocDistinct(players: seq<LfgPlayer>, p: LfgPlayer)
    requires AllSelected(players) && DistinctGuids(players) && Selected(p.roles)
    requires forall i :: 0 <= i < |players| ==> players[i].guid != p.guid
    ensures AllSelected(players + [p]) && DistinctGuids(players + [p])
  {
  }

  /** The seat given takes away exactly what the entry then needs less of. */
  lemma {:induction false} AddTakes(e: QueueEntry, guid: Guid, roles: RoleMask, now: int)
    requires TryAdd(e, guid, roles, now).Some?
    ensures var e' := TryAdd(e, guid, roles, now).value;
      && |e'.players| == |e.players| + 1 && e'.players == e.players + [e'.players[|e.players|]]
      && e'.players[|e.players|].guid == guid && Selected(e'.players[|e.players|].roles)
      && Fewer(e.requirements, e'.requirements, e'.players[|e.players|].roles)
  {
    var need := e.requirements;
    SelectedBits(CombatRole(need, roles), need.needLeader && Has(roles, LEADER));
  }

  lemma {:induction false} AddKeepsOk(e: QueueEntry, guid: Guid, roles: RoleMask, now: int)
    requires EntryOk(e) && TryAdd(e, guid, roles, now).Some?
    requires forall i :: 0 <= i < |e.players| ==> e.players[i].guid != guid
    ensures EntryOk(TryAdd(e, guid, roles, now).value)
  {
    AddTakes(e, guid, roles, now);
    var e' := TryAdd(e, guid, roles, now).value;
    BalancedSnoc(e.requirements, e'.requirements, e.players, e'.players[|e.players|]);
    SnocDistinct(e.players, e'.players[|e.players|]);
  }

  lemma {:induction false} GivesBack(need: Requirements, roles: RoleMask)
    requires Selected(roles) && (Has(roles, LEADER) ==> !need.needLeader)
    ensures Fewer(GiveBack(need, roles), need, roles)
  {
  }

  lemma {:induction false} EraseDistinct(players: seq<LfgPlayer>, i: nat)
    requires i < |players| && AllSelected(players) && DistinctGuids(players)
    ensures AllSelected(players[..i] + players[i + 1..]) && DistinctGuids(players[..i] + players[i + 1..])
  {
  }

  lemma {:induction false} RemoveKeepsOk(e: QueueEntry, guid: Guid)
    requires EntryOk(e) && TryRemove(e, guid).Some?
    ensures EntryOk(TryRemove(e, guid).value)
  {
    var i := Find(e.players, guid);
    LeaderGivesBack(e, i);
    GivesBack(e.requirements, e.players[i].roles);
    BalancedErase(e.requirements, GiveBack(e.requirements, e.players[i].roles), e.players, i);
    EraseDistinct(e.players, i);
  }

  /** The leader bit is given back only by the one player who holds it. */
  lemma {:induction false} LeaderGivesBack(e: QueueEntry, i: nat)
    requires Balanced(e.requirements, e.players) && i < |e.players|
    ensures Has(e.players[i].roles, LEADER) ==> !e.requirements.needLeader
  {
    CountErase(e.players, i, LEADER);
  }

  /** Exactly the player's seat goes; everybody else keeps seat and roles, and the faction stays. */
  lemma {:induction false} RemoveTakesSeat(e: QueueEntry, guid: Guid, i: nat)
    requires i <= |e.players| && (forall k :: 0 <= k < i ==> e.players[k].guid != guid)
    requires i < |e.players| ==> e.players[i].guid == guid
    ensures TryRemove(e, guid).Some? <==> i < |e.players|
    ensures i < |e.players| ==>
      TryRemove(e, guid).value.team == e.team && TryRemove(e, guid).value.players == e.players[..i] + e.players[i + 1..]
  {
    if i < |e.players| { FindIs(e.players, guid, i); } else { FindNone(e.players, guid); }
  }

  /** Every player fills exactly one combat role. */
  lemma {:induction false} SizeIsRoles(players: seq<LfgPlayer>)
    requires AllSelected(players)
    ensures Count(players, TANK) + Count(players, HEALER) + Count(players, DPS) == |players|
  {
    if players != [] {
      SizeIsRoles(players[..|players| - 1]);
      assert Selected(players[|players| - 1].roles);
    }
  }

  /** A group is ready exactly when it has five players of whom one leads. */
  lemma {:induction false} MetIffComplete(e: QueueEntry)
    requires EntryOk(e)
    ensures e.requirements.Met() <==> |e.players| == 5 && Count(e.players, LEADER) == 1
    ensures |e.players| <= 5 && Count(e.players, LEADER) <= 1
  {
    SizeIsRoles(e.players);
  }

  /** Neither ready nor of use to any player, whatever roles are offered. */
  ghost predicate Stuck(e: QueueEntry) {
    !e.requirements.Met() && forall guid, roles, now :: TryAdd(e, guid, roles, now).None?
  }

  lemma {:induction false} AnyRole(need: Requirements)
    requires need.tanksNeeded > 0 || need.healersNeeded > 0 || need.dpsNeeded > 0
    ensures CombatRole(need, TANK | HEALER | DPS) != 0
  {
  }

  /** An entry is stuck until a player leaves exactly when it holds five players none of whom leads. */
  lemma {:induction false} LeaderlessFullIsStuck(e: QueueEntry)
    requires EntryOk(e)
    ensures Stuck(e) <==> |e.players| == 5 && Count(e.players, LEADER) == 0
  {
    SizeIsRoles(e.players);
    if |e.players| < 5 {
      AnyRole(e.requirements);
      assert TryAdd(e, 0, TANK | HEALER | DPS, 0).Some?;
    }
  }

  /** A fresh entry accepts a player iff the player has some combat role. */
  lemma {:induction false} FreshAccepts(team: nat, guid: Guid, roles: RoleMask, now: int)
    ensures TryAdd(NewEntry(team), guid, roles, now).Some? <==> HasCombatRole(roles)
  {
  }

  predicate Wanted(need: Requirements, roles: RoleMask, combat: RoleMask) {
    Has(roles, combat) && (if combat == TANK then need.tanksNeeded else if combat == HEALER then need.healersNeeded else need.dpsNeeded) > 0
  }

  /**
   An entry that is not ready takes a player exactly when some offered combat role is needed. The new
   seat, the last, is the first such role in the order tank, healer, damage, and leads exactly when a
   leader is needed and offered; nobody else's seat changes.
   */
  lemma {:induction false} SeatGiven(e: QueueEntry, guid: Guid, roles: RoleMask, now: int)
    requires !e.requirements.Met()
    ensures TryAdd(e, guid, roles, now).Some? <==>
      Wanted(e.requirements, roles, TANK) || Wanted(e.requirements, roles, HEALER) || Wanted(e.requirements, roles, DPS)
    ensures TryAdd(e, guid, roles, now).Some? ==>
      var players, n := TryAdd(e, guid, roles, now).value.players, |e.players|;
      && |players| == n + 1 && players[..n] == e.players && players[n].guid == guid && players[n].jointime == now
      && (Has(players[n].roles, LEADER) <==> e.requirements.needLeader && Has(roles, LEADER))
      && (Has(players[n].roles, TANK) <==> Wanted(e.requirements, roles, TANK))
      && (Has(players[n].roles, HEALER) <==> Wanted(e.requirements, roles, HEALER) && !Wanted(e.requirements, roles, TANK))
      && (Has(players[n].roles, DPS) <==>
            Wanted(e.requirements, roles, DPS) && !Wanted(e.requirements, roles, TANK) && !Wanted(e.requirements, roles, HEALER))
  {
    var need := e.requirements;
    if CombatRole(need, roles) != 0 {
      SelectedBits(CombatRole(need, roles), need.needLeader && Has(roles, LEADER));
    }
  }

  lemma {:induction false} FindIs(players: seq<LfgPlayer>, guid: Guid, i: nat)
    requires i < |players| && players[i].guid == guid
    requires forall k :: 0 <= k < i ==> players[k].guid != guid
    ensures Find(players, guid) == i
  {
  }

  lemma {:induction false} FindNone(players: seq<LfgPlayer>, guid: Guid)
    requires forall k :: 0 <= k < |players| ==> players[k].guid != guid
    ensures Find(players, guid) == |players|
  {
  }

  /** Adding a player who is not in the entry and then removing that player restores the entry. */
  lemma {:induction false} AddThenRemove(e: QueueEntry, guid: Guid, roles: RoleMask, now: int)
    requires TryAdd(e, guid, roles, now).Some?
    requires forall i :: 0 <= i < |e.players| ==> e.players[i].guid != guid
    ensures TryRemove(TryAdd(e, guid, roles, now).value, guid) == Some(e)
  {
    var e' := TryAdd(e, guid, roles, now).value;
    var need := e.requirements;
    SelectedBits(CombatRole(need, roles), need.needLeader && Has(roles, LEADER));
    FindIs(e'.players, guid, |e.players|);
    assert e'.players[..|e.players|] + e'.players[|e.players| + 1..] == e.players;
  }

  // ---------- proposals and back ----------

  datatype ProposalEntry = ProposalEntry(guid: Guid, team: nat, selectedRoles: RoleMask, answered: nat, accepted: nat)

  /** The queue players that proposal entries stand for. */
  function Seats(ps: seq<ProposalEntry>, now: int): (r: seq<LfgPlayer>)
    ensures |r| == |ps|
    ensures forall k :: 0 <= k < |ps| ==> r[k] == LfgPlayer(ps[k].guid, ps[k].selectedRoles, now)
  {
    if ps == [] then [] else [LfgPlayer(ps[0].guid, ps[0].selectedRoles, now)] + Seats(ps[1..], now)
  }

  /** What findMatch copies out of an entry. */
  function Proposed(e: QueueEntry): (r: seq<ProposalEntry>)
    ensures |r| == |e.players|
    ensures forall k :: 0 <= k < |r| ==> r[k] == ProposalEntry(e.players[k].guid, e.team, e.players[k].roles, 0, 0)
  {
    seq(|e.players|, k requires 0 <= k < |e.players| => ProposalEntry(e.players[k].guid, e.team, e.players[k].roles, 0, 0))
  }

  function AddOrSkip(e: QueueEntry, p: ProposalEntry, now: int): QueueEntry {
    var r := TryAdd(e, p.guid, p.selectedRoles, now);
    if r.Some? then r.value else e
  }

  /** readdGroup's loop: every player in turn is offered to the entry. */
  function Rebuild(e: QueueEntry, ps: seq<ProposalEntry>, now: int): QueueEntry
    decreases |ps|
  {
    if ps == [] then e else Rebuild(AddOrSkip(e, ps[0], now), ps[1..], now)
  }

  /** The players could all sit in one group with the roles they hold. */
  ghost predicate Fits(players: seq<LfgPlayer>) {
    && AllSelected(players) && DistinctGuids(players)
    && Count(players, TANK) <= 1 && Count(players, HEALER) <= 1 && Count(players, DPS) <= 3 && Count(players, LEADER) <= 1
  }

  lemma {:induction false} CountPrefix(a: seq<LfgPlayer>, b: seq<LfgPlayer>, bit: RoleMask)
    ensures Count(a, bit) <= Count(a + b, bit)
  {
    if b == [] {
      assert a + b == a;
    } else {
      CountPrefix(a, b[..|b| - 1], bit);
      assert a + b == (a + b[..|b| - 1]) + [b[|b| - 1]];
      CountSnoc(a + b[..|b| - 1], b[|b| - 1], bit);
    }
  }

  lemma {:induction false} FitsPrefix(a: seq<LfgPlayer>, b: seq<LfgPlayer>)
    requires Fits(a + b)
    ensures Fits(a)
  {
    CountPrefix(a, b, TANK);
    CountPrefix(a, b, HEALER);
    CountPrefix(a, b, DPS);
    CountPrefix(a, b, LEADER);
    assert forall k :: 0 <= k < |a| ==> (a + b)[k] == a[k];
  }

  /** A player who still fits is given back exactly the roles held. */
  lemma {:induction false} AddFitting(e: QueueEntry, p: ProposalEntry, now: int)
    requires EntryOk(e) && Fits(e.players + [LfgPlayer(p.guid, p.selectedRoles, now)])
    ensures AddOrSkip(e, p, now).players == e.players + [LfgPlayer(p.guid, p.selectedRoles, now)]
    ensures EntryOk(AddOrSkip(e, p, now)) && AddOrSkip(e, p, now).team == e.team
  {
    var seat := LfgPlayer(p.guid, p.selectedRoles, now);
    var all := e.players + [seat];
    assert all[|e.players|] == seat;
    CountSnoc(e.players, seat, TANK);
    CountSnoc(e.players, seat, HEALER);
    CountSnoc(e.players, seat, DPS);
    CountSnoc(e.players, seat, LEADER);
    FittingRoles(e.requirements, p.selectedRoles);
    forall i | 0 <= i < |e.players| ensures e.players[i].guid != p.guid {
      assert all[i] == e.players[i];
    }
    AddKeepsOk(e, p.guid, p.selectedRoles, now);
  }

  lemma {:induction false} FittingRoles(need: Requirements, roles: RoleMask)
    requires Selected(roles)
    requires Has(roles, TANK) ==> need.tanksNeeded > 0
    requires Has(roles, HEALER) ==> need.healersNeeded > 0
    requires Has(roles, DPS) ==> need.dpsNeeded > 0
    requires Has(roles, LEADER) ==> need.needLeader
    ensures !need.Met()
    ensures var combat := CombatRole(need, roles);
      combat != 0 && roles == if need.needLeader && Has(roles, LEADER) then combat | LEADER else combat
  {
  }

  /** Re-adding players that fit rebuilds a group of exactly those players, in order, with exactly their roles. */
  lemma {:induction false} RebuildExact(e: QueueEntry, ps: seq<ProposalEntry>, now: int)
    requires EntryOk(e) && Fits(e.players + Seats(ps, now))
    ensures Rebuild(e, ps, now).players == e.players + Seats(ps, now)
    ensures EntryOk(Rebuild(e, ps, now)) && Rebuild(e, ps, now).team == e.team
    decreases |ps|
  {
    if ps == [] {
      assert e.players + Seats(ps, now) == e.players;
    } else {
      var seat := LfgPlayer(ps[0].guid, ps[0].selectedRoles, now);
      assert e.players + Seats(ps, now) == (e.players + [seat]) + Seats(ps[1..], now);
      FitsPrefix(e.players + [seat], Seats(ps[1..], now));
      AddFitting(e, ps[0], now);
      RebuildExact(AddOrSkip(e, ps[0], now), ps[1..], now);
    }
  }

  /** The entries whose players stay. */
  function Keep(ps: seq<ProposalEntry>, gone: set<Guid>): seq<ProposalEntry> {
    if ps == [] then [] else (if ps[0].guid in gone then [] else [ps[0]]) + Keep(ps[1..], gone)
  }

  lemma {:induction false} CountCons(p: LfgPlayer, players: seq<LfgPlayer>, bit: RoleMask)
    ensures Count([p] + players, bit) == (if Has(p.roles, bit) then 1 else 0) + Count(players, bit)
  {
    CountErase([p] + players, 0, bit);
    assert ([p] + players)[..0] + ([p] + players)[1..] == players;
  }

  lemma {:induction false} KeepCounts(ps: seq<ProposalEntry>, gone: set<Guid>, now: int, bit: RoleMask)
    ensures Count(Seats(Keep(ps, gone), now), bit) <= Count(Seats(ps, now), bit)
  {
    if ps != [] {
      var seat := LfgPlayer(ps[0].guid, ps[0].selectedRoles, now);
      KeepCounts(ps[1..], gone, now, bit);
      CountCons(seat, Seats(ps[1..], now), bit);
      CountCons(seat, Seats(Keep(ps[1..], gone), now), bit);
      if ps[0].guid !in gone {
        assert Keep(ps, gone) == [ps[0]] + Keep(ps[1..], gone);
        assert Seats(Keep(ps, gone), now) == [seat] + Seats(Keep(ps[1..], gone), now);
      } else {
        assert Keep(ps, gone) == Keep(ps[1..], gone);
      }
    }
  }

  /** Who stays was there, in the same order, and is not gone; whoever is not gone stays. */
  lemma {:induction false} KeepMembers(ps: seq<ProposalEntry>, gone: set<Guid>)
    ensures forall p :: p in Keep(ps, gone) <==> p in ps && p.guid !in gone
    ensures (forall i, j :: 0 <= i < j < |ps| ==> ps[i].guid != ps[j].guid) ==>
      forall i, j :: 0 <= i < j < |Keep(ps, gone)| ==> Keep(ps, gone)[i].guid != Keep(ps, gone)[j].guid
  {
    if ps != [] {
      KeepMembers(ps[1..], gone);
      var r := Keep(ps[1..], gone);
      assert forall j :: 0 <= j < |r| ==> r[j] in ps[1..];
    }
  }

  lemma {:induction false} KeepFits(ps: seq<ProposalEntry>, gone: set<Guid>, now: int)
    requires Fits(Seats(ps, now))
    ensures Fits(Seats(Keep(ps, gone), now))
  {
    KeepMembers(ps, gone);
    KeepCounts(ps, gone, now, TANK);
    KeepCounts(ps, gone, now, HEALER);
    KeepCounts(ps, gone, now, DPS);
    KeepCounts(ps, gone, now, LEADER);
    var s, k := Seats(ps, now), Keep(ps, gone);
    forall i, j | 0 <= i < j < |ps| ensures ps[i].guid != ps[j].guid {
      assert s[i].guid != s[j].guid;
    }
    forall i | 0 <= i < |k| ensures Selected(Seats(k, now)[i].roles) {
      assert k[i] in ps;
      var m :| 0 <= m < |ps| && ps[m] == k[i];
      assert Selected(s[m].roles);
    }
  }

  lemma {:induction false} CountSameRoles(a: seq<LfgPlayer>, b: seq<LfgPlayer>, bit: RoleMask)
    requires |a| == |b| && forall k :: 0 <= k < |a| ==> a[k].roles == b[k].roles
    ensures Count(a, bit) == Count(b, bit)
  {
    if a != [] { CountSameRoles(a[..|a| - 1], b[..|b| - 1], bit); }
  }

  lemma {:induction false} ProposedFits(e: QueueEntry, now: int)
    requires EntryOk(e)
    ensures Fits(Seats(Proposed(e), now))
  {
    var s := Seats(Proposed(e), now);
    CountSameRoles(s, e.players, TANK);
    CountSameRoles(s, e.players, HEALER);
    CountSameRoles(s, e.players, DPS);
    CountSameRoles(s, e.players, LEADER);
  }

  /**
   Proposing an entry, dropping any of its players and re-adding the rest gives a valid entry
   of exactly the remaining players, in order, each with the roles held before.
   */
  lemma {:induction false} ProposeDropReadd(e: QueueEntry, gone: set<Guid>, now: int)
    requires EntryOk(e)
    ensures var left := Keep(Proposed(e), gone);
      var e' := Rebuild(NewEntry(e.team), left, now);
      EntryOk(e') && e'.team == e.team && e'.players == Seats(left, now)
  {
    var left := Keep(Proposed(e), gone);
    ProposedFits(e, now);
    KeepFits(Proposed(e), gone, now);
    NewEntryOk(e.team);
    assert NewEntry(e.team).players + Seats(left, now) == Seats(left, now);
    RebuildExact(NewEntry(e.team), left, now);
  }
}
