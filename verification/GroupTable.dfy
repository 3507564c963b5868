/** The group objects and the pointers in the player records, updated step by step. */
module GroupTable {
  import opened Groups
  import GroupSafety

  class Table {
    var groups: map<GroupId, Group>
    /** A player's group pointer; absent when null. */
    var groupOf: map<Player, GroupId>
    /** A player's subgroup number; absent when -1. */
    var subGroupOf: map<Player, nat>

    ghost predicate Valid()
      reads this
    {
      forall p :: p in groupOf <==> p in subGroupOf
    }

    /** The state as the group functions see it. */
    ghost function W(): World
      reads this
    {
      World(groups, map p | p in groupOf && p in subGroupOf :: Seat(groupOf[p], subGroupOf[p]))
    }

    constructor ()
      ensures Valid() && W() == GroupSafety.NOBODY
    {
      groups, groupOf, subGroupOf := map[], map[], map[];
    }

    /** The subgroup with the player: the one the player record names if it holds the player, else found by search. */
    method FindSubGroup(subs: seq<set<Player>>, p: Player) returns (i: nat)
      requires Apart(subs)
      ensures i == Holding(subs, p)
    {
      if p in subGroupOf && subGroupOf[p] < |subs| && p in subs[subGroupOf[p]] {
        i := subGroupOf[p];
        assert p in subs[i];
      } else {
        i := 0;
        while i < |subs| && p !in subs[i]
          invariant 0 <= i <= |subs| && forall k :: 0 <= k < i ==> p !in subs[k]
        {
          i := i + 1;
        }
      }
    }

    /** A player who is in no subgroup must not carry the number of one; such a player only loses the pointers. */
    method RemovePlayer(g: GroupId, p: Player)
      requires CanRemove(W(), g, p) && Apart(groups[g].subs)
      requires p in subGroupOf ==> p in groupOf
      modifies this
      ensures W() == Removed(old(W()), g, p)
      ensures p !in groupOf && p !in subGroupOf && (old(Valid()) ==> Valid())
      ensures old(AgreeBeside(p)) ==> Valid()
    {
      var i := FindSubGroup(groups[g].subs, p);
      if i == |groups[g].subs| {
        groupOf := groupOf - {p};
        subGroupOf := subGroupOf - {p};
        return;
      }
      DropMember(g, p);
      if groups[g].count < 2 && groups[g].disbands {
        Disband(g);
      }
    }

    method DropMember(g: GroupId, p: Player)
      requires g in groups && Apart(groups[g].subs) && Holding(groups[g].subs, p) < |groups[g].subs| && groups[g].count > 0
      modifies this
      ensures W() == World(old(groups)[g := Without(old(groups)[g], Holding(old(groups)[g].subs, p), p)], old(W()).seats - {p})
      ensures groupOf == old(groupOf) - {p} && subGroupOf == old(subGroupOf) - {p}
    {
      var gr := groups[g];
      var i := FindSubGroup(gr.subs, p);
      groupOf := groupOf - {p};
      subGroupOf := subGroupOf - {p};
      gr := gr.(subs := gr.subs[i := gr.subs[i] - {p}]);
      gr := gr.(count := gr.count - 1);
      gr := gr.(roles := gr.roles - {p});
      groups := groups[g := gr];
    }

    method Disband(g: GroupId)
      requires g in groups
      modifies this
      ensures W() == Disbanded(old(W()), g)
      ensures groupOf.Keys <= old(groupOf.Keys) && subGroupOf.Keys <= old(subGroupOf.Keys) && (old(Valid()) ==> Valid())
    {
      var i := 0;
      var subs := groups[g].subs;
      ghost var gone: set<Player> := {};
      while i < |subs|
        invariant 0 <= i <= |subs| && groups == old(groups)
        invariant forall p :: p in gone <==> exists k :: 0 <= k < i && p in subs[k]
        invariant groupOf == old(groupOf) - gone && subGroupOf == old(subGroupOf) - gone
      {
        groupOf := groupOf - subs[i];
        subGroupOf := subGroupOf - subs[i];
        gone := gone + subs[i];
        i := i + 1;
      }
      groups := groups - {g};
    }

    method FindFreeSubGroup(subs: seq<set<Player>>) returns (i: nat)
      ensures i == FindFree(subs)
    {
      i := 0;
      while i < |subs| && |subs[i]| >= SUBGROUP_SIZE
        invariant 0 <= i <= |subs| && forall k :: 0 <= k < i ==> |subs[k]| >= SUBGROUP_SIZE
      {
        i := i + 1;
      }
    }

    /** Takes a place in a subgroup, then leaves the old group, then points to the new one. */
    method AddMember(g: GroupId, p: Player, sub: nat, role: nat) returns (ok: bool)
      requires Valid() && g in groups && CanLeave(W(), p)
      requires p in groupOf ==> groupOf[p] in groups && Apart(groups[groupOf[p]].subs)
      modifies this
      ensures Valid() && W() == Added(old(W()), g, p, sub, role)
      ensures ok == Succeeds(old(groups)[g], sub)
    {
      var gr := groups[g];
      if IsFull(gr) {
        ClearPointers(p);
        return false;
      }
      var free := FindFreeSubGroup(gr.subs);
      var t := if sub > 0 then sub else free;
      if t >= |gr.subs| {
        return false;
      }
      if |gr.subs[t]| >= SUBGROUP_SIZE {
        ClearPointers(p);
        return false;
      }
      Place(g, p, t, role);
      return true;
    }

    method ClearPointers(p: Player)
      modifies this
      requires Valid()
      ensures Valid() && W() == old(W()).(seats := old(W()).seats - {p})
    {
      groupOf := groupOf - {p};
      subGroupOf := subGroupOf - {p};
    }

    method Place(g: GroupId, p: Player, t: nat, role: nat)
      requires Valid() && g in groups && t < |groups[g].subs| && CanLeave(W(), p)
      requires p in groupOf ==> groupOf[p] in groups && Apart(groups[groupOf[p]].subs)
      modifies this
      ensures Valid()
      ensures var w1 := if Leaves(old(W()), g, p) then Removed(old(W()), old(W()).seats[p].group, p) else old(W());
        W() == World(w1.groups[g := With(old(groups)[g], t, p, role)], w1.seats[p := Seat(g, t)])
    {
      ghost var w1 := if Leaves(W(), g, p) then Removed(W(), W().seats[p].group, p) else W();
      if p in groupOf && groupOf[p] != g {
        Transfer(g, p, t);
      } else {
        var gr := groups[g];
        subGroupOf := subGroupOf[p := t];
        groups := groups[g := gr.(subs := gr.subs[t := gr.subs[t] + {p}])];
      }
      Point(g, p, t, role);
      assert W().groups == w1.groups[g := With(old(groups)[g], t, p, role)];
      assert W().seats == w1.seats[p := Seat(g, t)];
    }

    /** Taking the place in the new subgroup, then leaving the old group. */
    method Transfer(g: GroupId, p: Player, t: nat)
      requires Valid() && g in groups && t < |groups[g].subs| && CanLeave(W(), p)
      requires p in groupOf && groupOf[p] != g && groupOf[p] in groups && Apart(groups[groupOf[p]].subs)
      modifies this
      ensures AgreeBeside(p) && g in groups
      ensures var w1 := Removed(old(W()), old(groupOf)[p], p); var gr := old(groups)[g];
        W() == World(w1.groups[g := gr.(subs := gr.subs[t := gr.subs[t] + {p}])], w1.seats)
    {
      ghost var w := W();
      var gr, from := groups[g], groupOf[p];
      subGroupOf := subGroupOf[p := t];
      groups := groups[g := gr.(subs := gr.subs[t := gr.subs[t] + {p}])];
      assert W() == World(w.groups[g := gr.(subs := gr.subs[t := gr.subs[t] + {p}])], w.seats[p := Seat(from, t)]);
      RemovePlayer(from, p);
      GroupSafety.RemovedElsewhere(w, W(), g, from, p, t, gr.subs[t := gr.subs[t] + {p}]);
    }

    /** The second half of joining: role, count and pointers. */
    method Point(g: GroupId, p: Player, t: nat, role: nat)
      requires AgreeBeside(p) && g in groups
      modifies this
      ensures Valid()
      ensures W() == World(old(groups)[g := old(groups)[g].(roles := old(groups)[g].roles[p := role], count := old(groups)[g].count + 1)],
                           old(W()).seats[p := Seat(g, t)])
    {
      var gr := groups[g];
      groupOf := groupOf[p := g];
      subGroupOf := subGroupOf[p := t];
      gr := gr.(roles := gr.roles[p := role]);
      groups := groups[g := gr.(count := gr.count + 1)];
    }

    /** The pointers of everyone but `p` agree on who is in a group. */
    ghost predicate AgreeBeside(p: Player)
      reads this
    {
      forall q :: q != p ==> (q in groupOf <==> q in subGroupOf)
    }

    method MovePlayer(g: GroupId, p: Player, sub: nat)
      requires Valid() && g in groups && Apart(groups[g].subs)
      modifies this
      ensures Valid() && W() == Moved(old(W()), g, p, sub)
    {
      var gr := groups[g];
      if sub >= |gr.subs| || |gr.subs[sub]| >= SUBGROUP_SIZE { return; }
      var i := FindSubGroup(gr.subs, p);
      if i == |gr.subs| { return; }
      GroupSafety.MoveAlwaysFits(gr.subs, i, sub, p);
      var subs := gr.subs[i := gr.subs[i] - {p}];
      if |subs[sub]| >= SUBGROUP_SIZE {
        assert false;
      } else {
        subs := subs[sub := subs[sub] + {p}];
      }
      groups := groups[g := gr.(subs := subs)];
      groupOf := groupOf[p := g];
      subGroupOf := subGroupOf[p := sub];
    }

    method ExpandToRaid(g: GroupId)
      requires g in groups && groups[g].subs != []
      modifies this`groups
      ensures W() == Expanded(old(W()), g)
    {
      var gr := groups[g];
      var subs := [gr.subs[0]];
      for i := 1 to 8
        invariant |subs| == i && subs[0] == gr.subs[0] && forall k :: 1 <= k < i ==> subs[k] == {}
      {
        subs := subs + [{}];
      }
      assert subs == [gr.subs[0], {}, {}, {}, {}, {}, {}, {}];
      groups := groups[g := gr.(kind := Raid, subs := subs)];
    }
  }
}
