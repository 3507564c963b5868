/** The guild object: a fixed array of rank pointers, the member map and the players' records, changed in place. */
module GuildHall {
  import opened Basics
  import opened GuildRanks
  import GuildSafety

  class GuildObject {
    const self: nat
    const slots: array<Option<Addr>>
    /** The rank records that exist, by address. */
    var ranks: map<Addr, Rank>
    var members: map<Player, Addr>
    /** The guild and rank pointers in the players' own records. */
    var infos: map<Player, Info>
    var leader: Player
    var next: Addr

    /** The state as the guild functions see it. */
    ghost function W(): Guild
      reads this, slots
    {
      Guild(self, ranks, slots[..], members, infos, leader, next)
    }

    constructor (self: nat, infos: map<Player, Info>, leader: Player)
      ensures W() == EmptyGuild(self, infos, leader) && fresh(slots)
    {
      this.self := self;
      this.infos, this.leader := infos, leader;
      slots := new Option<Addr>[MAX_RANKS](_ => None);
      ranks, members, next := map[], map[], 0;
    }

    method FindLowestRank() returns (r: Option<Addr>)
      requires slots.Length == MAX_RANKS
      ensures r == LowestFrom(slots[..], MAX_RANKS - 1)
    {
      r := LowestBelow(MAX_RANKS - 1);
    }

    /** Searches from slot `from` down to slot 1. */
    method LowestBelow(from: nat) returns (r: Option<Addr>)
      requires slots.Length == MAX_RANKS && from < MAX_RANKS
      ensures r == LowestFrom(slots[..], from)
    {
      var i: nat := from;
      while i > 0
        invariant i <= from && LowestFrom(slots[..], from) == LowestFrom(slots[..], i)
      {
        if slots[i].Some? { return slots[i]; }
        i := i - 1;
      }
      return None;
    }

    /** Searches from slot `from` up. */
    method HighestAbove(from: nat) returns (r: Option<Addr>)
      requires slots.Length == MAX_RANKS && from <= MAX_RANKS
      ensures r == HighestFrom(slots[..], from)
    {
      var i := from;
      while i < MAX_RANKS
        invariant from <= i <= MAX_RANKS && HighestFrom(slots[..], from) == HighestFrom(slots[..], i)
      {
        if slots[i].Some? { return slots[i]; }
        i := i + 1;
      }
      return None;
    }

    method CreateGuildRank(rights: Rights)
      requires slots.Length == MAX_RANKS
      modifies this, slots
      ensures W() == CreateRank(old(W()), rights)
    {
      var i := 0;
      while i < MAX_RANKS && slots[i].Some?
        invariant 0 <= i <= MAX_RANKS && forall k :: 0 <= k < i ==> slots[k].Some?
      {
        i := i + 1;
      }
      assert i == FreeSlot(slots[..]);
      if i < MAX_RANKS {
        ranks := ranks[next := Rank(i, rights)];
        slots[i] := Some(next);
        next := next + 1;
      }
    }

    method InUse(a: Addr) returns (used: bool)
      ensures used <==> exists p :: p in members && members[p] == a
    {
      var left := members.Keys;
      while left != {}
        invariant left <= members.Keys && forall p :: p in members && p !in left ==> members[p] != a
      {
        var p :| p in left;
        if members[p] == a { return true; }
        left := left - {p};
      }
      return false;
    }

    method RemoveGuildRank()
      requires slots.Length == MAX_RANKS
      modifies this`ranks, slots
      ensures W() == RemoveRank(old(W()))
    {
      var lowest := FindLowestRank();
      if lowest.None? || lowest.value !in ranks || ranks[lowest.value].id < DEFAULT_RANKS { return; }
      var used := InUse(lowest.value);
      if used { return; }
      if ranks[lowest.value].id < MAX_RANKS {
        slots[ranks[lowest.value].id] := None;
        ranks := ranks - {lowest.value};
      }
    }

    method AddGuildMember(p: Player, forced: int)
      requires slots.Length == MAX_RANKS && forced < MAX_RANKS
      modifies this`members, this`infos
      ensures W() == AddMember(old(W()), p, forced)
    {
      if p in infos { return; }
      var r;
      if members != map[] {
        if forced > 0 {
          r := slots[forced];
        } else if forced == -2 {
          r := HighestAbove(1);
        } else {
          r := FindLowestRank();
        }
      } else {
        if forced >= 0 {
          r := slots[forced];
        } else if forced == -2 {
          r := HighestAbove(1);
        } else {
          r := FindLowestRank();
        }
      }
      if r.None? {
        r := FindLowestRank();
      }
      if r.None? { return; }
      members := members[p := r.value];
      infos := infos[p := Info(self, r.value)];
    }

    method RemoveGuildMember(p: Player, actor: Option<Player>)
      modifies this`members, this`infos
      ensures W() == RemoveMember(old(W()), p, actor)
    {
      if !(p in infos && infos[p].guild == self && infos[p].rank in ranks) { return; }
      var rank := ranks[infos[p].rank];
      if actor.Some? {
        var a := actor.value;
        if !(a in infos && infos[a].guild == self && infos[a].rank in ranks) { return; }
        var own := ranks[infos[a].rank];
        if (!Can(own, RIGHT_REMOVE) && a != p) || (rank.id <= own.id && a != p) { return; }
      }
      if rank.id == 0 { return; }
      members := members - {p};
      infos := infos - {p};
    }

    method SetMemberRank(p: Player, r: Addr)
      modifies this`members, this`infos
      ensures W() == SetRank(old(W()), p, r)
    {
      if p in members && p in infos {
        members := members[p := r];
        infos := infos[p := infos[p].(rank := r)];
      }
    }

    method PromoteGuildMember(p: Player, actor: Player)
      requires slots.Length == MAX_RANKS
      modifies this`members, this`infos
      ensures W() == Promote(old(W()), p, actor)
    {
      if !(p in infos && infos[p].guild == self && infos[p].rank in ranks) { return; }
      if !(actor in infos && infos[actor].guild == self && infos[actor].rank in ranks) { return; }
      var rank, own := ranks[infos[p].rank], ranks[infos[actor].rank];
      if !Can(own, RIGHT_PROMOTE) || RankGap(rank.id, own.id) <= 1 { return; }
      if rank.id == 1 || rank.id == 0 || rank.id > MAX_RANKS { return; }
      var r := LowestBelow(rank.id - 1);
      if r.Some? {
        SetMemberRank(p, r.value);
      }
    }

    method DemoteGuildMember(p: Player, actor: Player)
      requires slots.Length == MAX_RANKS
      modifies this`members, this`infos
      ensures W() == Demote(old(W()), p, actor)
    {
      if !(p in infos && infos[p].guild == self && infos[p].rank in ranks) { return; }
      if !(actor in infos && infos[actor].guild == self && infos[actor].rank in ranks) { return; }
      var rank, own := ranks[infos[p].rank], ranks[infos[actor].rank];
      if !Can(own, RIGHT_DEMOTE) || p == leader || own.id >= rank.id || rank.id >= MAX_RANKS { return; }
      var r := HighestAbove(rank.id + 1);
      if r.Some? {
        SetMemberRank(p, r.value);
      }
    }

    method ChangeGuildMaster(p: Player, actor: Player)
      requires slots.Length == MAX_RANKS && slots[0].Some?
      modifies this`members, this`infos, this`leader
      ensures W() == ChangeMaster(old(W()), p, actor)
    {
      if actor != leader { return; }
      var r := HighestAbove(1);
      if r.None? || p !in members || actor !in members { return; }
      SetMemberRank(p, slots[0].value);
      SetMemberRank(actor, r.value);
      leader := p;
    }

    /** Clears the pointers of every member, one by one. */
    method Disband()
      modifies this`members, this`infos
      ensures infos == GuildRanks.Disband(old(W())) && members == map[]
    {
      var left := members.Keys;
      while left != {}
        invariant left <= members.Keys && members == old(members)
        invariant infos == old(infos) - (members.Keys - left)
      {
        var p :| p in left;
        infos := infos - {p};
        left := left - {p};
      }
      members := map[];
    }

    method CreateFromCharter(signers: seq<Player>)
      requires slots.Length == MAX_RANKS && W() == EmptyGuild(self, infos, leader)
      modifies this, slots
      ensures W() == FromCharter(self, old(infos), old(leader), signers)
    {
      CreateGuildRank(RIGHTS_ALL);
      CreateGuildRank(RIGHTS_ALL);
      CreateGuildRank(RIGHTS_DEFAULT);
      CreateGuildRank(RIGHTS_DEFAULT);
      CreateGuildRank(RIGHTS_DEFAULT);
      GuildSafety.DefaultFrame(EmptyGuild(self, old(infos), old(leader)));
      AddGuildMember(leader, 0);
      ghost var g := W();
      var i := 0;
      while i < |signers|
        invariant 0 <= i <= |signers| && AddAll(g, signers, 4) == AddAll(W(), signers[i..], 4)
      {
        AddGuildMember(signers[i], 4);
        assert signers[i..][1..] == signers[i + 1..];
        i := i + 1;
      }
      assert signers[i..] == [];
    }
  }
}
