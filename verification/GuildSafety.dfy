/** Every guild operation keeps ranks, members, pointers and the one guild master in order. */
module GuildSafety {
  import opened Basics
  import opened GuildRanks

  // ---------- the rank table ----------

  lemma {:induction false} FreeSlotIs(g: Guild, n: nat)
    requires Table(g, n)
    ensures FreeSlot(g.slots) == n
  {
    assert forall i :: 0 <= i < n ==> g.slots[i].Some?;
    assert n < MAX_RANKS ==> g.slots[n].None?;
  }

  /** The lowest rank is the last occupied slot. */
  lemma {:induction false} LowestIs(g: Guild, n: nat)
    requires Table(g, n) && n >= 2
    ensures LowestFrom(g.slots, MAX_RANKS - 1) == g.slots[n - 1]
  {
    LowestAt(g.slots, MAX_RANKS - 1, n - 1);
  }

  lemma {:induction false} LowestAt(slots: seq<Option<Addr>>, i: nat, k: nat)
    requires i < |slots| && 0 < k <= i && slots[k].Some? && forall j :: k < j <= i ==> slots[j].None?
    ensures LowestFrom(slots, i) == slots[k]
    decreases i
  {
    if i > k {
      LowestAt(slots, i - 1, k);
    }
  }

  lemma {:induction false} HighestAt(slots: seq<Option<Addr>>, i: nat, k: nat)
    requires i <= k < |slots| && slots[k].Some? && forall j :: i <= j < k ==> slots[j].None?
    ensures HighestFrom(slots, i) == slots[k]
    decreases k - i
  {
    if i < k {
      HighestAt(slots, i + 1, k);
    }
  }

  lemma {:induction false} NoneAt(slots: seq<Option<Addr>>, i: nat)
    requires i <= |slots| && forall j :: i <= j < |slots| ==> slots[j].None?
    ensures HighestFrom(slots, i).None?
    decreases |slots| - i
  {
    if i < |slots| {
      NoneAt(slots, i + 1);
    }
  }

  lemma {:induction false} CreateTable(g: Guild, n: nat, rights: Rights)
    requires Table(g, n) && Fresh(g) && n < MAX_RANKS
    ensures Table(CreateRank(g, rights), n + 1) && Fresh(CreateRank(g, rights))
  {
    FreeSlotIs(g, n);
    var g' := CreateRank(g, rights);
    forall i | 0 <= i < MAX_RANKS
      ensures (g'.slots[i].Some? <==> i < n + 1) && (i < n + 1 ==> g'.slots[i].value in g'.ranks && g'.ranks[g'.slots[i].value].id == i)
    {
      assert g.slots[i].Some? <==> i < n;
      if i < n {
        assert g.slots[i].value in g.ranks;
      }
    }
  }

  lemma {:induction false} StillLive(g: Guild, rights: Rights, a: Addr)
    requires Fresh(g) && Live(g, a)
    ensures Live(CreateRank(g, rights), a)
  {
  }

  /** Two slots never hold the same record. */
  lemma {:induction false} SlotsApart(g: Guild, n: nat, i: nat, j: nat)
    requires Table(g, n) && i < n && j < n && i != j
    ensures g.slots[i] != g.slots[j]
  {
  }

  lemma {:induction false} SlotLive(g: Guild, n: nat, i: nat)
    requires Table(g, n) && i < MAX_RANKS && g.slots[i].Some?
    ensures i < n && Live(g, g.slots[i].value) && g.ranks[g.slots[i].value].id == i
  {
  }

  // ---------- the rest of the invariant, for a fixed table ----------

  /** Everything but the table. */
  ghost predicate Staffed(g: Guild) {
    Fresh(g) && Ranked(g) && Mirrored(g) && OneMaster(g)
  }

  lemma {:induction false} CreateKeeps(g: Guild, n: nat, rights: Rights)
    requires Table(g, n) && DEFAULT_RANKS <= n && Staffed(g)
    ensures Orderly(CreateRank(g, rights))
  {
    FreeSlotIs(g, n);
    var g' := CreateRank(g, rights);
    if n < MAX_RANKS {
      CreateTable(g, n, rights);
      forall p | p in g'.members ensures Live(g', g'.members[p]) {
        StillLive(g, rights, g.members[p]);
      }
      assert g'.slots[0] == g.slots[0];
      assert Table(g', n + 1);
    } else {
      assert Table(g', n);
    }
  }

  lemma {:induction false} DropTable(g: Guild, g': Guild, n: nat, a: Addr)
    requires Table(g, n) && DEFAULT_RANKS < n && g.slots[n - 1] == Some(a)
    requires g' == g.(slots := g.slots[n - 1 := None], ranks := g.ranks - {a})
    ensures Table(g', n - 1) && g'.slots[0] == g.slots[0]
  {
    forall i | 0 <= i < MAX_RANKS
      ensures (g'.slots[i].Some? <==> i < n - 1) && (i < n - 1 ==> g'.slots[i].value in g'.ranks && g'.ranks[g'.slots[i].value].id == i)
    {
      assert g.slots[i].Some? <==> i < n;
      if i < n - 1 {
        SlotsApart(g, n, i, n - 1);
      }
    }
  }

  lemma {:induction false} LiveAfterDrop(g: Guild, g': Guild, n: nat, a: Addr, b: Addr)
    requires Table(g, n) && 0 < n && g.slots[n - 1] == Some(a) && Live(g, b) && b != a
    requires g' == g.(slots := g.slots[n - 1 := None], ranks := g.ranks - {a})
    ensures Live(g', b)
  {
  }

  /** Only the last rank is ever deleted, never a default one, and never one a member still holds. */
  lemma {:induction false} RemoveRankKeeps(g: Guild, n: nat)
    requires Table(g, n) && DEFAULT_RANKS <= n && Staffed(g)
    ensures Orderly(RemoveRank(g))
  {
    LowestIs(g, n);
    var a := g.slots[n - 1].value;
    var g' := RemoveRank(g);
    assert g.slots[n - 1].Some? && a in g.ranks && g.ranks[a].id == n - 1;
    if g' == g {
      assert Table(g', n);
    } else {
      DropTable(g, g', n, a);
      forall p | p in g'.members ensures Live(g', g'.members[p]) {
        LiveAfterDrop(g, g', n, a, g.members[p]);
      }
      assert Table(g', n - 1);
    }
  }

  // ---------- members ----------

  lemma {:induction false} HireStaffed(g: Guild, p: Player, r: Addr)
    requires Staffed(g) && p !in g.infos && Live(g, r) && Some(r) != g.slots[0]
    ensures Staffed(g.(members := g.members[p := r], infos := g.infos[p := Info(g.self, r)]))
  {
  }

  lemma {:induction false} EntryRankIs(g: Guild, n: nat, forced: int)
    requires Table(g, n) && DEFAULT_RANKS <= n && g.members != map[] && forced < MAX_RANKS
    ensures exists k :: 0 < k < n && EntryRank(g, forced) == g.slots[k]
  {
    LowestIs(g, n);
    assert g.slots[1].Some?;
    HighestAt(g.slots, 1, 1);
    assert forced > 0 ==> (g.slots[forced].Some? <==> forced < n);
  }

  /** A newcomer gets the forced rank if its slot is occupied, the rank below the master on request, else the lowest. */
  lemma {:induction false} EntryRankExact(g: Guild, n: nat, forced: int)
    requires Table(g, n) && DEFAULT_RANKS <= n && g.members != map[] && forced < MAX_RANKS
    ensures EntryRank(g, forced) == g.slots[if 0 < forced < n then forced else if forced == -2 then 1 else n - 1]
  {
    LowestIs(g, n);
    assert g.slots[1].Some? && g.slots[n - 1].Some?;
    HighestAt(g.slots, 1, 1);
    assert forced > 0 ==> (g.slots[forced].Some? <==> forced < n);
  }

  lemma {:induction false} AddKeeps(g: Guild, n: nat, p: Player, forced: int)
    requires Table(g, n) && DEFAULT_RANKS <= n && Staffed(g) && forced < MAX_RANKS
    ensures Table(AddMember(g, p, forced), n) && Staffed(AddMember(g, p, forced))
  {
    if p !in g.infos {
      assert g.leader in g.members;
      EntryRankIs(g, n, forced);
      var k :| 0 < k < n && EntryRank(g, forced) == g.slots[k];
      assert g.slots[k].Some? && g.slots[0].Some?;
      SlotLive(g, n, k);
      SlotsApart(g, n, k, 0);
      HireStaffed(g, p, g.slots[k].value);
    }
  }

  lemma {:induction false} InsideIffMember(g: Guild, p: Player)
    requires Ranked(g) && Mirrored(g)
    ensures Inside(g, p) <==> p in g.members
    ensures p in g.members ==> g.infos[p].rank == g.members[p] && Live(g, g.members[p])
  {
  }

  /** A member's rank number is 0 exactly for the leader. */
  lemma {:induction false} MasterIsZero(g: Guild, n: nat, p: Player)
    requires Table(g, n) && 0 < n && Staffed(g) && p in g.members
    ensures Inside(g, p) && RankOf(g, p).id < n && (RankOf(g, p).id == 0 <==> p == g.leader)
    ensures g.slots[RankOf(g, p).id] == Some(g.members[p])
  {
    InsideIffMember(g, p);
    assert g.slots[g.ranks[g.members[p]].id].Some?;
  }

  lemma {:induction false} FireStaffed(g: Guild, p: Player)
    requires Staffed(g) && p in g.members && p != g.leader
    ensures Staffed(g.(members := g.members - {p}, infos := g.infos - {p}))
  {
  }

  lemma {:induction false} RemoveKeeps(g: Guild, n: nat, p: Player, actor: Option<Player>)
    requires Table(g, n) && 0 < n && Staffed(g)
    ensures Table(RemoveMember(g, p, actor), n) && Staffed(RemoveMember(g, p, actor))
  {
    if RemoveMember(g, p, actor) != g {
      InsideIffMember(g, p);
      MasterIsZero(g, n, p);
      FireStaffed(g, p);
    }
  }

  /** A member leaves exactly if not the master and the server, the member, or a higher-ranked officer with the right asks. */
  lemma {:induction false} RemovesIff(g: Guild, n: nat, p: Player, actor: Option<Player>)
    requires Table(g, n) && 0 < n && Staffed(g) && p in g.members
    ensures Inside(g, p) && (actor.Some? && actor.value in g.members ==> Inside(g, actor.value))
    ensures p !in RemoveMember(g, p, actor).members <==>
      p != g.leader && (actor.None? || (actor.value in g.members
        && (actor.value == p || (RankOf(g, actor.value).rights & 0x20 != 0 && RankOf(g, actor.value).id < RankOf(g, p).id))))
  {
    MasterIsZero(g, n, p);
    if actor.Some? {
      InsideIffMember(g, actor.value);
    }
  }

  lemma {:induction false} MoveStaffed(g: Guild, p: Player, r: Addr)
    requires Staffed(g) && p in g.members && p != g.leader && Live(g, r) && Some(r) != g.slots[0]
    ensures Staffed(SetRank(g, p, r))
  {
  }

  lemma {:induction false} MoveKeeps(g: Guild, n: nat, p: Player, k: nat)
    requires Table(g, n) && 0 < k < n && Staffed(g) && p in g.members && p != g.leader
    ensures g.slots[k].Some? && Table(SetRank(g, p, g.slots[k].value), n) && Staffed(SetRank(g, p, g.slots[k].value))
  {
    assert g.slots[k].Some? && g.slots[0].Some?;
    SlotLive(g, n, k);
    SlotsApart(g, n, k, 0);
    MoveStaffed(g, p, g.slots[k].value);
  }

  /** A promotion raises the member by exactly one rank, never to the master's. */
  lemma {:induction false} PromoteByOne(g: Guild, n: nat, p: Player, actor: Player)
    requires Table(g, n) && 0 < n && Staffed(g) && MayPromote(g, p, actor) && RankOf(g, p).id > 1
    ensures p in g.members && RankOf(g, p).id < n && g.slots[RankOf(g, p).id - 1].Some?
    ensures Promote(g, p, actor) == SetRank(g, p, g.slots[RankOf(g, p).id - 1].value)
  {
    InsideIffMember(g, p);
    MasterIsZero(g, n, p);
    var k := RankOf(g, p).id - 1;
    assert g.slots[k].Some?;
    LowestAt(g.slots, k, k);
  }

  lemma {:induction false} PromoteKeeps(g: Guild, n: nat, p: Player, actor: Player)
    requires Table(g, n) && 0 < n && Staffed(g)
    ensures Table(Promote(g, p, actor), n) && Staffed(Promote(g, p, actor))
  {
    if MayPromote(g, p, actor) && RankOf(g, p).id > 1 {
      PromoteByOne(g, n, p, actor);
      MasterIsZero(g, n, p);
      MoveKeeps(g, n, p, RankOf(g, p).id - 1);
    }
  }

  /** A demotion lowers the member by exactly one rank, and does nothing at the lowest. */
  lemma {:induction false} DemoteByOne(g: Guild, n: nat, p: Player, actor: Player)
    requires Table(g, n) && 0 < n && Staffed(g) && MayDemote(g, p, actor)
    ensures p in g.members && RankOf(g, p).id < n
    ensures RankOf(g, p).id + 1 < n ==> g.slots[RankOf(g, p).id + 1].Some?
    ensures RankOf(g, p).id + 1 < n ==> Demote(g, p, actor) == SetRank(g, p, g.slots[RankOf(g, p).id + 1].value)
    ensures RankOf(g, p).id + 1 == n ==> Demote(g, p, actor) == g
  {
    InsideIffMember(g, p);
    MasterIsZero(g, n, p);
    var k := RankOf(g, p).id + 1;
    if k < n {
      assert g.slots[k].Some?;
      HighestAt(g.slots, k, k);
    } else {
      NoneAt(g.slots, k);
    }
  }

  /** A demotion takes effect exactly if the officer has the right and outranks the member, who is not at the lowest rank. */
  lemma {:induction false} DemotesIff(g: Guild, n: nat, p: Player, actor: Player)
    requires Table(g, n) && 0 < n && Staffed(g) && p in g.members && actor in g.members
    ensures Inside(g, p) && Inside(g, actor)
    ensures Demote(g, p, actor) != g <==>
      RankOf(g, actor).rights & 0x100 != 0 && RankOf(g, actor).id < RankOf(g, p).id && RankOf(g, p).id + 1 < n
  {
    MasterIsZero(g, n, p);
    MasterIsZero(g, n, actor);
    if MayDemote(g, p, actor) {
      DemoteByOne(g, n, p, actor);
      if RankOf(g, p).id + 1 < n {
        var k := RankOf(g, p).id + 1;
        SlotsApart(g, n, k - 1, k);
        assert SetRank(g, p, g.slots[k].value).members[p] == g.slots[k].value;
      }
    }
  }

  lemma {:induction false} DemoteKeeps(g: Guild, n: nat, p: Player, actor: Player)
    requires Table(g, n) && 0 < n && Staffed(g)
    ensures Table(Demote(g, p, actor), n) && Staffed(Demote(g, p, actor))
  {
    if MayDemote(g, p, actor) {
      DemoteByOne(g, n, p, actor);
      if RankOf(g, p).id + 1 < n {
        MoveKeeps(g, n, p, RankOf(g, p).id + 1);
      }
    }
  }

  // ---------- handing over the guild ----------

  lemma {:induction false} HandOver(g: Guild, heir: Player, top: Addr, next: Addr)
    requires Staffed(g) && g.slots[0] == Some(top) && Live(g, top) && Live(g, next) && next != top
    requires heir in g.members && heir != g.leader
    ensures Staffed(SetRank(SetRank(g, heir, top), g.leader, next).(leader := heir))
  {
  }

  lemma {:induction false} TransferSlots(g: Guild, n: nat)
    requires Table(g, n) && DEFAULT_RANKS <= n
    ensures g.slots[0].Some? && g.slots[1].Some? && HighestFrom(g.slots, 1) == g.slots[1] && g.slots[0] != g.slots[1]
    ensures Live(g, g.slots[0].value) && Live(g, g.slots[1].value)
  {
    assert g.slots[0].Some? && g.slots[1].Some?;
    HighestAt(g.slots, 1, 1);
    SlotLive(g, n, 0);
    SlotLive(g, n, 1);
    SlotsApart(g, n, 0, 1);
  }

  /** The master's own transfer to a member keeps order exactly when that member is somebody else. */
  lemma {:induction false} TransferKeepsIff(g: Guild, n: nat, heir: Player)
    requires Table(g, n) && DEFAULT_RANKS <= n && Staffed(g) && heir in g.members
    ensures g.slots[0].Some?
    ensures Orderly(ChangeMaster(g, heir, g.leader)) <==> heir != g.leader
    ensures heir != g.leader ==> ChangeMaster(g, heir, g.leader).leader == heir
  {
    TransferSlots(g, n);
    var g' := ChangeMaster(g, heir, g.leader);
    if heir != g.leader {
      HandOver(g, heir, g.slots[0].value, g.slots[1].value);
      assert Table(g', n);
    } else {
      assert g'.members[heir] == g.slots[1].value;
    }
  }

  lemma {:induction false} TransferKeeps(g: Guild, n: nat, heir: Player, actor: Player)
    requires Table(g, n) && DEFAULT_RANKS <= n && Staffed(g) && heir != actor
    ensures g.slots[0].Some? && Orderly(ChangeMaster(g, heir, actor))
  {
    TransferSlots(g, n);
    if actor == g.leader && heir in g.members {
      TransferKeepsIff(g, n, heir);
    } else {
      assert Table(g, n);
    }
  }

  // ---------- runs ----------

  lemma {:induction false} StepOrderly(g: Guild, op: Op)
    requires Orderly(g) && Allowed(op)
    ensures Defined(g, op) && Orderly(Step(g, op))
  {
    var n :| DEFAULT_RANKS <= n && Table(g, n);
    assert g.slots[0].Some?;
    match op
    case NewRank(rights) => CreateKeeps(g, n, rights);
    case DropRank => RemoveRankKeeps(g, n);
    case Join(p, forced) => AddKeeps(g, n, p, forced);
    case Leave(p, actor) => RemoveKeeps(g, n, p, actor);
    case Raise(p, actor) => PromoteKeeps(g, n, p, actor);
    case Lower(p, actor) => DemoteKeeps(g, n, p, actor);
    case Transfer(p, actor) => TransferKeeps(g, n, p, actor);
  }

  ghost predicate NoGuild(infos: map<Player, Info>, self: nat) {
    forall p :: p in infos ==> infos[p].guild != self
  }

  lemma {:induction false} DefaultTable(g: Guild)
    requires Table(g, 0) && Fresh(g)
    ensures Table(DefaultRanks(g), 5) && Fresh(DefaultRanks(g))
  {
    CreateTable(g, 0, RIGHTS_ALL);
    var g1 := CreateRank(g, RIGHTS_ALL);
    CreateTable(g1, 1, RIGHTS_ALL);
    var g2 := CreateRank(g1, RIGHTS_ALL);
    CreateTable(g2, 2, RIGHTS_DEFAULT);
    var g3 := CreateRank(g2, RIGHTS_DEFAULT);
    CreateTable(g3, 3, RIGHTS_DEFAULT);
    CreateTable(CreateRank(g3, RIGHTS_DEFAULT), 4, RIGHTS_DEFAULT);
  }

  lemma {:induction false} CreateFrame(g: Guild, rights: Rights)
    ensures var g' := CreateRank(g, rights);
      g'.self == g.self && g'.members == g.members && g'.infos == g.infos && g'.leader == g.leader
  {
  }

  lemma {:induction false} DefaultFrame(g: Guild)
    ensures var g' := DefaultRanks(g);
      g'.self == g.self && g'.members == g.members && g'.infos == g.infos && g'.leader == g.leader
  {
    var g1 := CreateRank(g, RIGHTS_ALL);
    var g2 := CreateRank(g1, RIGHTS_ALL);
    var g3 := CreateRank(g2, RIGHTS_DEFAULT);
    var g4 := CreateRank(g3, RIGHTS_DEFAULT);
    CreateFrame(g, RIGHTS_ALL);
    CreateFrame(g1, RIGHTS_ALL);
    CreateFrame(g2, RIGHTS_DEFAULT);
    CreateFrame(g3, RIGHTS_DEFAULT);
    CreateFrame(g4, RIGHTS_DEFAULT);
  }

  lemma {:induction false} FirstMember(g: Guild, leader: Player)
    requires Table(g, 5) && Fresh(g) && g.members == map[] && g.leader == leader && leader !in g.infos && NoGuild(g.infos, g.self)
    ensures Table(AddMember(g, leader, 0), 5) && Staffed(AddMember(g, leader, 0))
  {
    assert g.slots[0].Some?;
    SlotLive(g, 5, 0);
    var g' := AddMember(g, leader, 0);
    assert g'.members == map[leader := g.slots[0].value];
  }

  lemma {:induction false} AddAllKeeps(g: Guild, n: nat, ps: seq<Player>, forced: int)
    requires Table(g, n) && DEFAULT_RANKS <= n && Staffed(g) && forced < MAX_RANKS
    ensures Table(AddAll(g, ps, forced), n) && Staffed(AddAll(g, ps, forced))
    decreases |ps|
  {
    if ps != [] {
      AddKeeps(g, n, ps[0], forced);
      AddAllKeeps(AddMember(g, ps[0], forced), n, ps[1..], forced);
    }
  }

  /** A guild made from a charter, by a leader who is in no guild yet, starts in order. */
  lemma {:induction false} CharterOrderly(self: nat, infos: map<Player, Info>, leader: Player, signers: seq<Player>)
    requires leader !in infos && NoGuild(infos, self)
    ensures Orderly(FromCharter(self, infos, leader, signers))
  {
    var g := EmptyGuild(self, infos, leader);
    assert Table(g, 0) && Fresh(g);
    DefaultTable(g);
    DefaultFrame(g);
    FirstMember(DefaultRanks(g), leader);
    AddAllKeeps(AddMember(DefaultRanks(g), leader, 0), 5, signers, 4);
    assert Table(FromCharter(self, infos, leader, signers), 5);
  }

  function End(g: Guild, run: seq<Op>): Guild {
    if run == [] then g
    else
      var v := End(g, run[..|run| - 1]);
      if Defined(v, run[|run| - 1]) then Step(v, run[|run| - 1]) else v
  }

  ghost predicate AllAllowed(run: seq<Op>) {
    forall i :: 0 <= i < |run| ==> Allowed(run[i])
  }

  /**
   Over any run of guild operations from a charter: occupied ranks are a prefix numbered in order,
   members hold live ranks, the players' pointers agree with the member table, and exactly one member
   holds rank 0, the leader.
   */
  lemma {:induction false} GuildAlwaysOrderly(self: nat, infos: map<Player, Info>, leader: Player, signers: seq<Player>, run: seq<Op>)
    requires leader !in infos && NoGuild(infos, self) && AllAllowed(run)
    ensures Orderly(End(FromCharter(self, infos, leader, signers), run))
  {
    if run == [] {
      CharterOrderly(self, infos, leader, signers);
    } else {
      var before := run[..|run| - 1];
      assert forall i :: 0 <= i < |before| ==> before[i] == run[i];
      GuildAlwaysOrderly(self, infos, leader, signers, before);
      StepOrderly(End(FromCharter(self, infos, leader, signers), before), run[|run| - 1]);
    }
  }

  /** After disbanding nobody points to the guild, and everyone else is as before. */
  lemma {:induction false} DisbandClears(g: Guild, p: Player)
    requires Mirrored(g)
    ensures p in Disband(g) <==> p in g.infos && g.infos[p].guild != g.self
    ensures p in Disband(g) ==> Disband(g)[p] == g.infos[p]
  {
  }

  // ---------- who may promote whom ----------

  /**
   Whom the promotion of an officer with the right reaches: members more than one rank below, as intended, and, because
   the unsigned difference wraps, every member above the officer but the master and the first rank.
   */
  lemma {:induction false} PromotesIff(g: Guild, n: nat, p: Player, actor: Player)
    requires Table(g, n) && 0 < n && Staffed(g) && p in g.members && actor in g.members
    ensures Inside(g, actor) && Inside(g, p)
    ensures Promote(g, p, actor) != g <==>
      RankOf(g, actor).rights & 0x80 != 0 && RankOf(g, p).id > 1 && (RankOf(g, p).id > RankOf(g, actor).id + 1 || RankOf(g, p).id < RankOf(g, actor).id)
  {
    MasterIsZero(g, n, p);
    MasterIsZero(g, n, actor);
    Gap(RankOf(g, p).id, RankOf(g, actor).id);
    if MayPromote(g, p, actor) && RankOf(g, p).id > 1 {
      PromoteByOne(g, n, p, actor);
      var k := RankOf(g, p).id - 1;
      SlotsApart(g, n, k, k + 1);
      assert SetRank(g, p, g.slots[k].value).members[p] == g.slots[k].value;
    }
  }

  lemma {:induction false} Gap(target: nat, actor: nat)
    requires target < MAX_RANKS && actor < MAX_RANKS
    ensures RankGap(target, actor) > 1 <==> target > actor + 1 || target < actor
  {
    if target < actor {
      assert U32(target - actor) == target - actor + WORD;
    }
  }

  // ---------- what each operation does, and to whom ----------

  /** Everybody's rank and pointers but those of `ps` are as before. */
  ghost predicate Spares(g: Guild, g': Guild, ps: set<Player>) {
    g'.members - ps == g.members - ps && g'.infos - ps == g.infos - ps && g'.self == g.self
  }

  ghost predicate SameTable(g: Guild, g': Guild) {
    g'.ranks == g.ranks && g'.slots == g.slots && g'.next == g.next
  }

  lemma {:induction false} SetRankSpares(g: Guild, p: Player, r: Addr)
    ensures Spares(g, SetRank(g, p, r), {p}) && SameTable(g, SetRank(g, p, r)) && SetRank(g, p, r).leader == g.leader
  {
  }

  /** Whom an operation can concern. */
  function Concerned(op: Op): set<Player> {
    match op
    case NewRank(_) => {}
    case DropRank => {}
    case Join(p, _) => {p}
    case Leave(p, _) => {p}
    case Raise(p, _) => {p}
    case Lower(p, _) => {p}
    case Transfer(p, actor) => {p, actor}
  }

  /** No operation touches a player it does not concern, and only those on ranks touch the table. */
  lemma {:induction false} StepSpares(g: Guild, op: Op)
    requires Defined(g, op)
    ensures var g' := Step(g, op);
      && Spares(g, g', Concerned(op))
      && (!op.NewRank? && !op.DropRank? ==> SameTable(g, g'))
      && (!op.Transfer? ==> g'.leader == g.leader)
  {
    match op
    case NewRank(_) =>
    case DropRank =>
    case Join(_, _) =>
    case Leave(_, _) =>
    case Raise(p, actor) => PromoteSpares(g, p, actor);
    case Lower(p, actor) => DemoteSpares(g, p, actor);
    case Transfer(p, actor) => TransferSpares(g, p, actor);
  }

  lemma {:induction false} PromoteSpares(g: Guild, p: Player, actor: Player)
    requires |g.slots| == MAX_RANKS
    ensures Spares(g, Promote(g, p, actor), {p}) && SameTable(g, Promote(g, p, actor)) && Promote(g, p, actor).leader == g.leader
  {
    if Promote(g, p, actor) != g {
      SetRankSpares(g, p, LowestFrom(g.slots, RankOf(g, p).id - 1).value);
    }
  }

  lemma {:induction false} DemoteSpares(g: Guild, p: Player, actor: Player)
    requires |g.slots| == MAX_RANKS
    ensures Spares(g, Demote(g, p, actor), {p}) && SameTable(g, Demote(g, p, actor)) && Demote(g, p, actor).leader == g.leader
  {
    if Demote(g, p, actor) != g {
      SetRankSpares(g, p, HighestFrom(g.slots, RankOf(g, p).id + 1).value);
    }
  }

  lemma {:induction false} SparesMore(a: Guild, b: Guild, c: Guild, p: Player, q: Player)
    requires Spares(a, b, {p}) && Spares(b, c, {q})
    ensures Spares(a, c, {p, q})
  {
    assert a.members - {p, q} == (a.members - {p}) - {q} && b.members - {p, q} == (b.members - {p}) - {q};
    assert b.members - {p, q} == (b.members - {q}) - {p} && c.members - {p, q} == (c.members - {q}) - {p};
    assert a.infos - {p, q} == (a.infos - {p}) - {q} && b.infos - {p, q} == (b.infos - {p}) - {q};
    assert b.infos - {p, q} == (b.infos - {q}) - {p} && c.infos - {p, q} == (c.infos - {q}) - {p};
  }

  lemma {:induction false} TransferSpares(g: Guild, p: Player, actor: Player)
    requires |g.slots| == MAX_RANKS && g.slots[0].Some?
    ensures Spares(g, ChangeMaster(g, p, actor), {p, actor}) && SameTable(g, ChangeMaster(g, p, actor))
  {
    if ChangeMaster(g, p, actor) != g {
      var g1 := SetRank(g, p, g.slots[0].value);
      SetRankSpares(g, p, g.slots[0].value);
      SetRankSpares(g1, actor, HighestFrom(g.slots, 1).value);
      SparesMore(g, g1, ChangeMaster(g, p, actor), p, actor);
    }
  }

  /** A player without a guild becomes a member with the rank that EntryRankExact says; anybody else is turned away. */
  lemma {:induction false} NewcomerJoins(g: Guild, n: nat, p: Player, forced: int)
    requires Table(g, n) && DEFAULT_RANKS <= n && Staffed(g) && forced < MAX_RANKS
    ensures var g' := AddMember(g, p, forced);
      if p in g.infos then g' == g
      else
        && g.slots[if 0 < forced < n then forced else if forced == -2 then 1 else n - 1].Some?
        && p in g'.members
        && Some(g'.members[p]) == g.slots[if 0 < forced < n then forced else if forced == -2 then 1 else n - 1]
        && p in g'.infos && g'.infos[p] == Info(g.self, g'.members[p])
  {
    EntryRankExact(g, n, forced);
  }

  /** Who leaves has no guild any more. */
  lemma {:induction false} LeaverHasNoGuild(g: Guild, n: nat, p: Player, actor: Option<Player>)
    requires Table(g, n) && 0 < n && Staffed(g)
    ensures var g' := RemoveMember(g, p, actor); g' != g ==> p !in g'.members && p !in g'.infos && p in g.members
  {
    InsideIffMember(g, p);
  }

  /** After a promotion that takes effect the member's rank is one higher, after a demotion one lower. */
  lemma {:induction false} RankMovesByOne(g: Guild, n: nat, p: Player, actor: Player)
    requires Table(g, n) && 0 < n && Staffed(g)
    ensures Promote(g, p, actor) != g ==>
      Inside(g, p) && Inside(Promote(g, p, actor), p) && RankOf(Promote(g, p, actor), p).id == RankOf(g, p).id - 1
    ensures Demote(g, p, actor) != g ==>
      Inside(g, p) && Inside(Demote(g, p, actor), p) && RankOf(Demote(g, p, actor), p).id == RankOf(g, p).id + 1
  {
    if Promote(g, p, actor) != g {
      PromoteByOne(g, n, p, actor);
      SlotLive(g, n, RankOf(g, p).id - 1);
    }
    if Demote(g, p, actor) != g {
      DemoteByOne(g, n, p, actor);
      SlotLive(g, n, RankOf(g, p).id + 1);
    }
  }

  /** Only the master can hand the guild over, and only to a member, who then is the master; the old one gets the rank below. */
  lemma {:induction false} TransferExact(g: Guild, n: nat, heir: Player, actor: Player)
    requires Table(g, n) && DEFAULT_RANKS <= n && Staffed(g) && heir != actor
    ensures g.slots[0].Some? && g.slots[1].Some?
    ensures var g' := ChangeMaster(g, heir, actor);
      if actor == g.leader && heir in g.members
      then g'.leader == heir && heir in g'.members && actor in g'.members
        && Some(g'.members[heir]) == g.slots[0] && Some(g'.members[actor]) == g.slots[1]
      else g' == g
  {
    TransferSlots(g, n);
  }

  /** A new rank comes last, with the rights given; with ten ranks there is no room for it. */
  lemma {:induction false} CreateAppends(g: Guild, n: nat, rights: Rights)
    requires Table(g, n) && Fresh(g)
    ensures var g' := CreateRank(g, rights);
      if n == 10 then g' == g
      else
        && (forall i :: 0 <= i < n ==> g'.slots[i] == g.slots[i])
        && g'.slots[n].Some? && g'.slots[n].value !in g.ranks
        && g'.ranks == g.ranks[g'.slots[n].value := Rank(n, rights)]
  {
    FreeSlotIs(g, n);
  }

  /** The last rank goes exactly if it is beyond the first five and nobody holds it. */
  lemma {:induction false} DropsIff(g: Guild, n: nat)
    requires Table(g, n) && DEFAULT_RANKS <= n && Staffed(g)
    ensures g.slots[n - 1].Some?
    ensures var a, g' := g.slots[n - 1].value, RemoveRank(g);
      if n > 5 && forall p :: p in g.members ==> g.members[p] != a
      then g'.slots == g.slots[n - 1 := None] && g'.ranks == g.ranks - {a}
      else g' == g
  {
    LowestIs(g, n);
    assert g.slots[n - 1].Some?;
  }

  /** The five ranks of a new guild: the first two may do everything, the rest only listen and speak. */
  lemma {:induction false} CharterRights(self: nat, infos: map<Player, Info>, leader: Player)
    ensures var g := DefaultRanks(EmptyGuild(self, infos, leader));
      Table(g, 5) && forall i :: 0 <= i < 5 ==> g.ranks[g.slots[i].value].rights == if i < 2 then 0xDF1FF else 0x43
  {
    var g := EmptyGuild(self, infos, leader);
    assert Table(g, 0) && Fresh(g);
    DefaultTable(g);
    var g1 := CreateRank(g, RIGHTS_ALL);
    CreateTable(g, 0, RIGHTS_ALL);
    CreateAppends(g, 0, RIGHTS_ALL);
    var g2 := CreateRank(g1, RIGHTS_ALL);
    CreateTable(g1, 1, RIGHTS_ALL);
    CreateAppends(g1, 1, RIGHTS_ALL);
    var g3 := CreateRank(g2, RIGHTS_DEFAULT);
    CreateTable(g2, 2, RIGHTS_DEFAULT);
    CreateAppends(g2, 2, RIGHTS_DEFAULT);
    var g4 := CreateRank(g3, RIGHTS_DEFAULT);
    CreateTable(g3, 3, RIGHTS_DEFAULT);
    CreateAppends(g3, 3, RIGHTS_DEFAULT);
    CreateAppends(g4, 4, RIGHTS_DEFAULT);
  }

  lemma {:induction false} LowestJoins(g: Guild, p: Player)
    requires Table(g, 5) && Staffed(g)
    ensures var g' := AddMember(g, p, 4);
      && Table(g', 5) && Staffed(g') && g'.slots == g.slots && Spares(g, g', {p})
      && (if p in g.infos then g' == g else p in g'.members && Some(g'.members[p]) == g.slots[4] && p in g'.infos)
  {
    NewcomerJoins(g, 5, p, 4);
    AddKeeps(g, 5, p, 4);
  }

  /** Each player of the list who has no guild becomes a member with the lowest of five ranks; everybody else is as before. */
  lemma {:induction false} SignersJoin(g: Guild, ps: seq<Player>, p: Player)
    requires Table(g, 5) && Staffed(g)
    ensures var r := AddAll(g, ps, 4);
      && r.slots == g.slots
      && (p in r.members <==> p in g.members || (p in ps && p !in g.infos))
      && (p in g.members ==> p in r.members && r.members[p] == g.members[p])
      && (p in r.members && p !in g.members ==> Some(r.members[p]) == g.slots[4])
    decreases |ps|
  {
    if ps != [] {
      LowestJoins(g, ps[0]);
      var g1 := AddMember(g, ps[0], 4);
      SignersJoin(g1, ps[1..], p);
      if p != ps[0] { SparedStays(g, g1, ps[0], p); }
    }
  }

  lemma {:induction false} SparedStays(g: Guild, g': Guild, p: Player, q: Player)
    requires Spares(g, g', {p}) && q != p
    ensures (q in g'.members <==> q in g.members) && (q in g.members ==> g'.members[q] == g.members[q])
    ensures q in g'.infos <==> q in g.infos
  {
    assert q in g'.members - {p} <==> q in g.members - {p};
    assert q in g'.infos - {p} <==> q in g.infos - {p};
    if q in g.members { assert (g'.members - {p})[q] == (g.members - {p})[q]; }
  }

  /** A guild from a charter has exactly the leader, as master, and the signers without a guild, with the lowest rank, as members. */
  lemma {:induction false} CharterMembers(self: nat, infos: map<Player, Info>, leader: Player, signers: seq<Player>, p: Player)
    requires leader !in infos && NoGuild(infos, self)
    ensures var g := FromCharter(self, infos, leader, signers);
      && |g.slots| == 10
      && (p in g.members <==> p == leader || (p in signers && p !in infos))
      && (p in g.members ==> Some(g.members[p]) == g.slots[if p == leader then 0 else 4])
  {
    var e := EmptyGuild(self, infos, leader);
    assert Table(e, 0) && Fresh(e);
    DefaultTable(e);
    DefaultFrame(e);
    var d := DefaultRanks(e);
    FirstMember(d, leader);
    LeaderFirst(d, leader);
    SignersJoin(AddMember(d, leader, 0), signers, p);
  }

  lemma {:induction false} LeaderFirst(d: Guild, leader: Player)
    requires Table(d, 5) && d.members == map[] && leader !in d.infos
    ensures d.slots[0].Some?
    ensures var g := AddMember(d, leader, 0);
      g.slots == d.slots && g.members == map[leader := d.slots[0].value] && g.infos.Keys == d.infos.Keys + {leader}
  {
    assert d.slots[0].Some?;
  }
}
