/** Every group operation keeps subgroups, counts, roles and player pointers in agreement. */
module GroupSafety {
  import opened Groups

  // ---------- subgroups ----------

  lemma {:induction false} SizeUpdate(subs: seq<set<Player>>, i: nat, s: set<Player>)
    requires i < |subs|
    ensures Size(subs[i := s]) + |subs[i]| == Size(subs) + |s|
  {
    if i == 0 {
      assert subs[0 := s][1..] == subs[1..];
    } else {
      assert subs[i := s][1..] == subs[1..][i - 1 := s];
      SizeUpdate(subs[1..], i - 1, s);
    }
  }

  lemma {:induction false} HoldingMember(subs: seq<set<Player>>, p: Player)
    ensures Holding(subs, p) < |subs| <==> Member(subs, p)
  {
  }

  /** Subgroups of at most five are all full exactly when they hold five players each. */
  lemma {:induction false} FreeIffRoom(subs: seq<set<Player>>)
    requires Small(subs)
    ensures Size(subs) <= SUBGROUP_SIZE * |subs|
    ensures FindFree(subs) < |subs| <==> Size(subs) < SUBGROUP_SIZE * |subs|
  {
    if subs != [] {
      assert forall i :: 0 <= i < |subs[1..]| ==> subs[1..][i] == subs[i + 1];
      FreeIffRoom(subs[1..]);
      assert |subs[0]| <= SUBGROUP_SIZE;
    }
  }

  lemma {:induction false} EraseApart(subs: seq<set<Player>>, i: nat, p: Player)
    requires i < |subs| && p in subs[i] && Small(subs) && Apart(subs)
    ensures var subs' := subs[i := subs[i] - {p}];
      && Small(subs') && Apart(subs') && forall q :: Member(subs', q) <==> Member(subs, q) && q != p
  {
    var subs' := subs[i := subs[i] - {p}];
    forall q ensures Member(subs', q) <==> Member(subs, q) && q != p {
      if Member(subs, q) && q != p {
        var k :| 0 <= k < |subs| && q in subs[k];
        assert q in subs'[k];
      }
      if Member(subs', q) {
        var k :| 0 <= k < |subs'| && q in subs'[k];
        assert q in subs[k];
      }
    }
  }

  lemma {:induction false} InsertApart(subs: seq<set<Player>>, t: nat, p: Player)
    requires t < |subs| && |subs[t]| < SUBGROUP_SIZE && !Member(subs, p) && Small(subs) && Apart(subs)
    ensures var subs' := subs[t := subs[t] + {p}];
      && Small(subs') && Apart(subs') && forall q :: Member(subs', q) <==> Member(subs, q) || q == p
  {
    var subs' := subs[t := subs[t] + {p}];
    assert p in subs'[t];
    forall q ensures Member(subs', q) <==> Member(subs, q) || q == p {
      if Member(subs, q) {
        var k :| 0 <= k < |subs| && q in subs[k];
        assert q in subs'[k];
      }
      if Member(subs', q) && q != p {
        var k :| 0 <= k < |subs'| && q in subs'[k];
        assert q in subs[k];
      }
    }
  }

  // ---------- one group ----------

  lemma {:induction false} WithoutOk(gr: Group, p: Player)
    requires GroupOk(gr) && Member(gr.subs, p)
    ensures Holding(gr.subs, p) < |gr.subs| && gr.count > 0
    ensures GroupOk(Without(gr, Holding(gr.subs, p), p))
  {
    HoldingMember(gr.subs, p);
    var i := Holding(gr.subs, p);
    EraseApart(gr.subs, i, p);
    SizeUpdate(gr.subs, i, gr.subs[i] - {p});
    NotEmpty(gr.subs, i);
  }

  lemma {:induction false} NotEmpty(subs: seq<set<Player>>, i: nat)
    requires i < |subs|
    ensures Size(subs) >= |subs[i]|
  {
    SizeUpdate(subs, i, {});
  }

  lemma {:induction false} WithOk(gr: Group, t: nat, p: Player, role: nat)
    requires GroupOk(gr) && !Member(gr.subs, p) && t < |gr.subs| && |gr.subs[t]| < SUBGROUP_SIZE
    ensures GroupOk(With(gr, t, p, role))
  {
    InsertApart(gr.subs, t, p);
    SizeUpdate(gr.subs, t, gr.subs[t] + {p});
    assert p !in gr.subs[t] by {
      assert !Member(gr.subs, p);
    }
  }

  /** For parties and raids the cached count says full exactly when no subgroup has room. */
  lemma {:induction false} FullIffNoFreeSubgroup(gr: Group)
    requires GroupOk(gr) && gr.kind != Finder
    ensures IsFull(gr) <==> FindFree(gr.subs) == |gr.subs|
  {
    FreeIffRoom(gr.subs);
  }

  /** Joining a party or raid that is not full, wherever there is room, succeeds. */
  lemma {:induction false} NotFullAccepts(gr: Group)
    requires GroupOk(gr) && gr.kind != Finder
    ensures Succeeds(gr, 0) <==> !IsFull(gr)
  {
    FullIffNoFreeSubgroup(gr);
  }

  /**
   The cached count says full exactly when no subgroup has room, unless a dungeon-finder group holds five.
   Only there does a join fail without being refused, and then it changes nothing.
   */
  lemma {:induction false} FinderGroupFailsQuietly(w: World, g: GroupId, p: Player, role: nat)
    requires g in w.groups && GroupOk(w.groups[g]) && CanLeave(w, p)
    ensures var gr := w.groups[g];
      && ((IsFull(gr) <==> FindFree(gr.subs) == |gr.subs|) <==> gr.kind != Finder || gr.count < SUBGROUP_SIZE)
      && (!Succeeds(gr, 0) && !Refused(gr, 0) <==> gr.kind == Finder && gr.count >= SUBGROUP_SIZE)
      && (gr.kind == Finder && gr.count >= SUBGROUP_SIZE ==> Added(w, g, p, 0, role) == w)
  {
    FreeIffRoom(w.groups[g].subs);
  }

  // ---------- pointers ----------

  lemma {:induction false} PointedRemove(w: World, g: GroupId, gr: Group, i: nat, p: Player)
    requires Pointed(w) && g in w.groups && i < |w.groups[g].subs| && p in w.groups[g].subs[i]
    requires gr.subs == w.groups[g].subs[i := w.groups[g].subs[i] - {p}]
    ensures Pointed(World(w.groups[g := gr], w.seats - {p}))
  {
    var w' := World(w.groups[g := gr], w.seats - {p});
    assert Sits(w.groups, p, g, i);
    forall q, h, k: nat ensures Sits(w'.groups, q, h, k) <==> q in w'.seats && w'.seats[q] == Seat(h, k) {
      assert Sits(w.groups, q, h, k) <==> q in w.seats && w.seats[q] == Seat(h, k);
    }
  }

  lemma {:induction false} PointedInsert(w: World, g: GroupId, gr: Group, t: nat, p: Player)
    requires Pointed(w) && g in w.groups && t < |w.groups[g].subs| && p !in w.seats
    requires gr.subs == w.groups[g].subs[t := w.groups[g].subs[t] + {p}]
    ensures Pointed(World(w.groups[g := gr], w.seats[p := Seat(g, t)]))
  {
    var w' := World(w.groups[g := gr], w.seats[p := Seat(g, t)]);
    forall q, h, k: nat ensures Sits(w'.groups, q, h, k) <==> q in w'.seats && w'.seats[q] == Seat(h, k) {
      assert Sits(w.groups, q, h, k) <==> q in w.seats && w.seats[q] == Seat(h, k);
    }
  }

  lemma {:induction false} PointedDisband(w: World, g: GroupId)
    requires Pointed(w) && g in w.groups
    ensures Pointed(Disbanded(w, g))
  {
    var w' := Disbanded(w, g);
    forall q, h, k: nat ensures Sits(w'.groups, q, h, k) <==> q in w'.seats && w'.seats[q] == Seat(h, k) {
      assert Sits(w.groups, q, h, k) <==> q in w.seats && w.seats[q] == Seat(h, k);
      if q in w.seats && Member(w.groups[g].subs, q) {
        var j: nat :| j < |w.groups[g].subs| && q in w.groups[g].subs[j];
        assert Sits(w.groups, q, g, j);
      }
    }
  }

  lemma {:induction false} SeatIsMember(w: World, p: Player)
    requires Pointed(w) && p in w.seats
    ensures w.seats[p].group in w.groups && Member(w.groups[w.seats[p].group].subs, p)
  {
    assert Sits(w.groups, p, w.seats[p].group, w.seats[p].sub);
  }

  lemma {:induction false} MemberHasSeat(w: World, g: GroupId, p: Player)
    requires Pointed(w) && g in w.groups && Member(w.groups[g].subs, p)
    ensures p in w.seats && w.seats[p].group == g
  {
    var i: nat :| i < |w.groups[g].subs| && p in w.groups[g].subs[i];
    assert Sits(w.groups, p, g, i);
  }

  // ---------- the steps ----------

  lemma {:induction false} RemoveKeeps(w: World, g: GroupId, p: Player)
    requires Roster(w) && g in w.groups && Member(w.groups[g].subs, p)
    ensures CanRemove(w, g, p) && Roster(Removed(w, g, p)) && p !in Removed(w, g, p).seats
    ensures forall h :: h in w.groups && h != g ==> h in Removed(w, g, p).groups && Removed(w, g, p).groups[h] == w.groups[h]
  {
    WithoutOk(w.groups[g], p);
    var i := Holding(w.groups[g].subs, p);
    var gr := Without(w.groups[g], i, p);
    PointedRemove(w, g, gr, i, p);
    PointedDisband(World(w.groups[g := gr], w.seats - {p}), g);
  }

  /** Removing a player keeps the roster consistent exactly when the player is a member or in no group at all. */
  lemma {:induction false} RemoveKeepsIff(w: World, g: GroupId, p: Player)
    requires Roster(w) && g in w.groups
    ensures Member(w.groups[g].subs, p) || p !in w.seats ==> CanRemove(w, g, p)
    ensures CanRemove(w, g, p) ==> (Roster(Removed(w, g, p)) <==> Member(w.groups[g].subs, p) || p !in w.seats)
  {
    HoldingMember(w.groups[g].subs, p);
    if Member(w.groups[g].subs, p) {
      RemoveKeeps(w, g, p);
    } else if p in w.seats {
      assert Sits(w.groups, p, w.seats[p].group, w.seats[p].sub);
      if CanRemove(w, g, p) {
        assert Sits(Removed(w, g, p).groups, p, w.seats[p].group, w.seats[p].sub);
      }
    } else {
      assert w.seats - {p} == w.seats;
    }
  }

  lemma {:induction false} InsertKeeps(w: World, g: GroupId, p: Player, t: nat, role: nat)
    requires Roster(w) && g in w.groups && p !in w.seats && t < |w.groups[g].subs| && |w.groups[g].subs[t]| < SUBGROUP_SIZE
    ensures Roster(World(w.groups[g := With(w.groups[g], t, p, role)], w.seats[p := Seat(g, t)]))
  {
    if Member(w.groups[g].subs, p) {
      MemberHasSeat(w, g, p);
    }
    WithOk(w.groups[g], t, p, role);
    PointedInsert(w, g, With(w.groups[g], t, p, role), t, p);
  }

  lemma {:induction false} CanAlwaysLeave(w: World, p: Player)
    requires Roster(w)
    ensures CanLeave(w, p)
  {
    if p in w.seats {
      SeatIsMember(w, p);
      WithoutOk(w.groups[w.seats[p].group], p);
    }
  }

  lemma {:induction false} AddKeeps(w: World, g: GroupId, p: Player, sub: nat, role: nat)
    requires Roster(w) && Allowed(w, Add(g, p, sub, role))
    ensures Defined(w, Add(g, p, sub, role)) && Roster(Added(w, g, p, sub, role))
  {
    CanAlwaysLeave(w, p);
    if Succeeds(w.groups[g], sub) {
      var t := Target(w.groups[g], sub).value;
      if p in w.seats {
        SeatIsMember(w, p);
        RemoveKeeps(w, w.seats[p].group, p);
        InsertKeeps(Removed(w, w.seats[p].group, p), g, p, t, role);
      } else {
        InsertKeeps(w, g, p, t, role);
      }
    } else {
      assert p !in w.seats ==> w.seats - {p} == w.seats;
    }
  }

  /** A member added to the own group a second time is counted twice. */
  lemma {:induction false} AddAgainBreaks(w: World, g: GroupId, p: Player, t: nat, role: nat)
    requires Roster(w) && g in w.groups && p in w.seats && w.seats[p].group == g && t < |w.groups[g].subs|
    ensures !Roster(World(w.groups[g := With(w.groups[g], t, p, role)], w.seats[p := Seat(g, t)]))
  {
    var gr, i := w.groups[g], w.seats[p].sub;
    var w' := World(w.groups[g := With(gr, t, p, role)], w.seats[p := Seat(g, t)]);
    assert Sits(w.groups, p, g, i);
    if i == t {
      assert gr.subs[t] + {p} == gr.subs[t];
      assert w'.groups[g].subs == gr.subs;
      assert GroupOk(gr) && !GroupOk(w'.groups[g]);
    } else {
      assert Sits(w'.groups, p, g, i) && Sits(w'.groups, p, g, t);
    }
  }

  /**
   Adding a player keeps the roster consistent exactly when the player was in no group, or was in
   another one and not refused, or found no free subgroup. A refused member loses the pointers but
   stays in the old subgroup; a member added again is counted twice.
   */
  lemma {:induction false} AddKeepsIff(w: World, g: GroupId, p: Player, sub: nat, role: nat)
    requires Roster(w) && g in w.groups
    ensures CanLeave(w, p)
    ensures Roster(Added(w, g, p, sub, role)) <==> Keeps(w, g, p, sub)
  {
    CanAlwaysLeave(w, p);
    if Keeps(w, g, p, sub) {
      AddKeeps(w, g, p, sub, role);
    } else if Refused(w.groups[g], sub) {
      assert Sits(w.groups, p, w.seats[p].group, w.seats[p].sub);
      assert Sits(Added(w, g, p, sub, role).groups, p, w.seats[p].group, w.seats[p].sub);
    } else {
      AddAgainBreaks(w, g, p, Target(w.groups[g], sub).value, role);
    }
  }

  /** After a successful move between groups the player sits in the new group and in no other. */
  lemma {:induction false} AddSeats(w: World, g: GroupId, p: Player, sub: nat, role: nat, h: GroupId)
    requires Roster(w) && Allowed(w, Add(g, p, sub, role)) && Succeeds(w.groups[g], sub)
    ensures Defined(w, Add(g, p, sub, role))
    ensures var w' := Added(w, g, p, sub, role);
      h in w'.groups ==> (Member(w'.groups[h].subs, p) <==> h == g)
  {
    AddKeeps(w, g, p, sub, role);
    var w' := Added(w, g, p, sub, role);
    SeatIsMember(w', p);
    if h in w'.groups && Member(w'.groups[h].subs, p) {
      MemberHasSeat(w', h, p);
    }
  }

  /** The subgroup moved to still has room once the player has left the old one: the fallback removal is unreachable. */
  lemma {:induction false} MoveAlwaysFits(subs: seq<set<Player>>, i: nat, sub: nat, p: Player)
    requires i < |subs| && sub < |subs| && |subs[sub]| < SUBGROUP_SIZE
    ensures |subs[i := subs[i] - {p}][sub]| < SUBGROUP_SIZE
  {
    if i == sub && p in subs[i] {
      assert subs[i] == (subs[i] - {p}) + {p};
    } else if i == sub {
      assert subs[i] - {p} == subs[i];
    }
  }

  lemma {:induction false} MoveGroupOk(gr: Group, i: nat, sub: nat, p: Player)
    requires GroupOk(gr) && i < |gr.subs| && p in gr.subs[i] && sub < |gr.subs| && |gr.subs[sub]| < SUBGROUP_SIZE
    ensures var subs := gr.subs[i := gr.subs[i] - {p}];
      GroupOk(gr.(subs := subs[sub := subs[sub] + {p}]))
  {
    var subs := gr.subs[i := gr.subs[i] - {p}];
    EraseApart(gr.subs, i, p);
    MoveAlwaysFits(gr.subs, i, sub, p);
    InsertApart(subs, sub, p);
    SizeUpdate(gr.subs, i, gr.subs[i] - {p});
    SizeUpdate(subs, sub, subs[sub] + {p});
    assert p !in subs[sub] by {
      assert !Member(subs, p);
    }
    assert Member(gr.subs, p);
  }

  lemma {:induction false} MoveKeeps(w: World, g: GroupId, p: Player, sub: nat)
    requires Roster(w) && g in w.groups && Member(w.groups[g].subs, p)
    ensures Roster(Moved(w, g, p, sub))
  {
    var gr := w.groups[g];
    HoldingMember(gr.subs, p);
    var i := Holding(gr.subs, p);
    if sub < |gr.subs| && |gr.subs[sub]| < SUBGROUP_SIZE {
      MoveGroupOk(gr, i, sub, p);
      MovePointed(w, g, p, i, sub);
    }
  }

  lemma {:induction false} MovePointed(w: World, g: GroupId, p: Player, i: nat, sub: nat)
    requires Pointed(w) && g in w.groups && i < |w.groups[g].subs| && p in w.groups[g].subs[i] && sub < |w.groups[g].subs|
    ensures var gr := w.groups[g]; var subs := gr.subs[i := gr.subs[i] - {p}];
      Pointed(World(w.groups[g := gr.(subs := subs[sub := subs[sub] + {p}])], w.seats[p := Seat(g, sub)]))
  {
    var gr := w.groups[g];
    var gr1 := gr.(subs := gr.subs[i := gr.subs[i] - {p}]);
    PointedRemove(w, g, gr1, i, p);
    var w1 := World(w.groups[g := gr1], w.seats - {p});
    var gr2 := gr1.(subs := gr1.subs[sub := gr1.subs[sub] + {p}]);
    PointedInsert(w1, g, gr2, sub, p);
    assert w1.groups[g := gr2] == w.groups[g := gr2] && w1.seats[p := Seat(g, sub)] == w.seats[p := Seat(g, sub)];
  }

  ghost predicate LaterEmpty(subs: seq<set<Player>>) {
    forall i :: 1 <= i < |subs| ==> subs[i] == {}
  }

  lemma {:induction false} SizeEmpty(subs: seq<set<Player>>)
    requires forall i :: 0 <= i < |subs| ==> subs[i] == {}
    ensures Size(subs) == 0
  {
    if subs != [] {
      SizeEmpty(subs[1..]);
    }
  }

  lemma {:induction false} SizeFirst(subs: seq<set<Player>>)
    requires subs != [] && LaterEmpty(subs)
    ensures Size(subs) == |subs[0]|
  {
    SizeEmpty(subs[1..]);
  }

  lemma {:induction false} MemberFirst(subs: seq<set<Player>>, p: Player)
    requires subs != [] && LaterEmpty(subs)
    ensures Member(subs, p) <==> p in subs[0]
  {
  }

  lemma {:induction false} ExpandGroupOk(gr: Group, subs: seq<set<Player>>)
    requires GroupOk(gr) && LaterEmpty(gr.subs) && |subs| == 8 && subs[0] == gr.subs[0] && LaterEmpty(subs)
    ensures GroupOk(gr.(kind := Raid, subs := subs))
  {
    SizeFirst(gr.subs);
    SizeFirst(subs);
    forall p ensures Member(subs, p) <==> Member(gr.subs, p) {
      MemberFirst(gr.subs, p);
      MemberFirst(subs, p);
    }
  }

  lemma {:induction false} OnlyFirst(subs: seq<set<Player>>, q: Player, k: nat)
    requires subs != [] && LaterEmpty(subs)
    ensures k < |subs| && q in subs[k] <==> k == 0 && q in subs[0]
  {
  }

  lemma {:induction false} ExpandPointed(w: World, g: GroupId, gr: Group)
    requires Pointed(w) && g in w.groups && w.groups[g].subs != [] && LaterEmpty(w.groups[g].subs)
    requires |gr.subs| == 8 && gr.subs[0] == w.groups[g].subs[0] && LaterEmpty(gr.subs)
    ensures Pointed(w.(groups := w.groups[g := gr]))
  {
    var w' := w.(groups := w.groups[g := gr]);
    forall q, h, k: nat ensures Sits(w'.groups, q, h, k) <==> q in w'.seats && w'.seats[q] == Seat(h, k) {
      assert Sits(w.groups, q, h, k) <==> q in w.seats && w.seats[q] == Seat(h, k);
      OnlyFirst(gr.subs, q, k);
      OnlyFirst(w.groups[g].subs, q, k);
    }
  }

  /** Expanding keeps the roster consistent exactly when nobody sits outside the first subgroup, as in any party. */
  lemma {:induction false} ExpandKeepsIff(w: World, g: GroupId)
    requires Roster(w) && g in w.groups
    ensures Defined(w, Expand(g))
    ensures Roster(Expanded(w, g)) <==> LaterEmpty(w.groups[g].subs)
  {
    var gr := w.groups[g];
    assert GroupOk(gr);
    var subs: seq<set<Player>> := [gr.subs[0], {}, {}, {}, {}, {}, {}, {}];
    if LaterEmpty(gr.subs) {
      ExpandGroupOk(gr, subs);
      ExpandPointed(w, g, gr.(kind := Raid, subs := subs));
    } else {
      var i: nat :| 1 <= i < |gr.subs| && gr.subs[i] != {};
      var p :| p in gr.subs[i];
      assert Sits(w.groups, p, g, i);
      assert !Sits(Expanded(w, g).groups, p, g, i);
    }
  }

  lemma {:induction false} FoundKeeps(w: World, g: GroupId, kind: Kind, disbands: bool)
    requires Roster(w) && Allowed(w, Found(g, kind, disbands))
    ensures Roster(Founded(w, g, kind, disbands))
  {
    var w' := Founded(w, g, kind, disbands);
    assert Size([{}]) == 0;
    forall q, h, k: nat ensures Sits(w'.groups, q, h, k) <==> q in w'.seats && w'.seats[q] == Seat(h, k) {
      assert Sits(w.groups, q, h, k) <==> q in w.seats && w.seats[q] == Seat(h, k);
    }
  }

  /** Every allowed operation is defined and keeps the roster consistent. */
  lemma {:induction false} StepKeeps(w: World, op: Op)
    requires Roster(w) && Allowed(w, op)
    ensures Defined(w, op) && Roster(Step(w, op))
  {
    match op
    case Found(g, kind, disbands) => FoundKeeps(w, g, kind, disbands);
    case Add(g, p, sub, role) => AddKeeps(w, g, p, sub, role);
    case Remove(g, p) => RemoveKeepsIff(w, g, p);
    case Move(g, p, sub) => MoveKeeps(w, g, p, sub);
    case Expand(g) => ExpandKeepsIff(w, g);
    case Disband(g) => PointedDisband(w, g);
  }

  const NOBODY: World := World(map[], map[])

  function End(run: seq<Op>): World {
    if run == [] then NOBODY
    else
      var w := End(run[..|run| - 1]);
      if Defined(w, run[|run| - 1]) then Step(w, run[|run| - 1]) else w
  }

  predicate Legal(run: seq<Op>) {
    run == [] || (Legal(run[..|run| - 1]) && Allowed(End(run[..|run| - 1]), run[|run| - 1]))
  }

  /**
   Over any run of group operations: subgroups are disjoint and hold at most five, the count is their
   total size, the role table has exactly the members, and pointers and subgroups agree.
   */
  lemma {:induction false} RosterAlwaysConsistent(run: seq<Op>)
    requires Legal(run)
    ensures Roster(End(run))
  {
    if run != [] {
      RosterAlwaysConsistent(run[..|run| - 1]);
      StepKeeps(End(run[..|run| - 1]), run[|run| - 1]);
    }
  }

  /** Taking the new place first and leaving the old group second comes to the same. */
  lemma {:induction false} RemovedElsewhere(w: World, w': World, g: GroupId, from: GroupId, p: Player, t: nat, subs: seq<set<Player>>)
    requires g in w.groups && from in w.groups && g != from && p in w.seats && w.seats[p].group == from && CanLeave(w, p)
    requires w' == Removed(World(w.groups[g := w.groups[g].(subs := subs)], w.seats[p := Seat(from, t)]), from, p)
    ensures g in w'.groups && w'.groups == Removed(w, from, p).groups[g := w.groups[g].(subs := subs)]
    ensures w'.seats == Removed(w, from, p).seats
  {
    assert w.seats[p := Seat(from, t)] - {p} == w.seats - {p};
  }

  // ---------- what each operation does, and to whom ----------

  /** Every group but those in `gs` is as it was. */
  ghost predicate OtherGroups(w: World, w': World, gs: set<GroupId>) {
    w'.groups - gs == w.groups - gs
  }

  /** The group remains as it was, but without `p`. */
  ghost predicate LeftBy(gr: Group, gr': Group, p: Player) {
    && gr'.kind == gr.kind && gr'.disbands == gr.disbands && gr'.count == gr.count - 1 && gr'.roles == gr.roles - {p}
    && |gr'.subs| == |gr.subs| && forall i :: 0 <= i < |gr.subs| ==> gr'.subs[i] == gr.subs[i] - {p}
  }

  lemma {:induction false} WithoutLeaves(gr: Group, p: Player)
    requires GroupOk(gr) && Member(gr.subs, p)
    ensures Holding(gr.subs, p) < |gr.subs| && gr.count > 0
    ensures LeftBy(gr, Without(gr, Holding(gr.subs, p), p), p)
  {
    WithoutOk(gr, p);
    var i := Holding(gr.subs, p);
    forall j | 0 <= j < |gr.subs| && j != i ensures gr.subs[j] - {p} == gr.subs[j] {
      assert p !in gr.subs[j];
    }
  }

  /**
   When a member leaves, the group is gone exactly if fewer than two stay and it is of the kind that
   disbands. Otherwise it remains with its kind, and every subgroup is as before without the player.
   */
  lemma {:induction false} LeavingKeepsRest(w: World, g: GroupId, p: Player)
    requires Roster(w) && g in w.groups && Member(w.groups[g].subs, p)
    ensures CanRemove(w, g, p) && OtherGroups(w, Removed(w, g, p), {g})
    ensures var gr, w' := w.groups[g], Removed(w, g, p);
      && (g !in w'.groups <==> gr.count <= 2 && gr.disbands)
      && (g in w'.groups ==> LeftBy(gr, w'.groups[g], p))
  {
    WithoutLeaves(w.groups[g], p);
  }

  /** Everybody else keeps group and subgroup, unless the group goes: then exactly its members are in no group. */
  lemma {:induction false} LeavingKeepsSeats(w: World, g: GroupId, p: Player, q: Player)
    requires Roster(w) && g in w.groups && Member(w.groups[g].subs, p)
    ensures CanRemove(w, g, p)
    ensures var w' := Removed(w, g, p);
      if q == p || (g !in w'.groups && Member(w.groups[g].subs, q)) then q !in w'.seats
      else (q in w'.seats <==> q in w.seats) && (q in w.seats ==> w'.seats[q] == w.seats[q])
  {
    WithoutLeaves(w.groups[g], p);
    var gr := Without(w.groups[g], Holding(w.groups[g].subs, p), p);
    EraseApart(w.groups[g].subs, Holding(w.groups[g].subs, p), p);
    assert Member(gr.subs, q) <==> Member(w.groups[g].subs, q) && q != p;
  }

  /** Disbanding takes the group and exactly its members' seats away. */
  lemma {:induction false} DisbandKeepsRest(w: World, g: GroupId, q: Player)
    requires Roster(w) && g in w.groups
    ensures var w' := Disbanded(w, g);
      && w'.groups == w.groups - {g}
      && (q in w'.seats <==> q in w.seats && w.seats[q].group != g) && (q in w'.seats ==> w'.seats[q] == w.seats[q])
  {
    if q in w.seats { SeatIsMember(w, q); }
    if Member(w.groups[g].subs, q) { MemberHasSeat(w, g, q); }
  }

  /** Where a new member goes: the subgroup asked for, or the first one with room. */
  ghost predicate Offered(gr: Group, sub: nat, t: nat) {
    && t < |gr.subs| && |gr.subs[t]| < 5
    && (if sub > 0 then t == sub else forall k :: 0 <= k < t ==> |gr.subs[k]| >= 5)
  }

  lemma {:induction false} SucceedsIff(gr: Group, sub: nat)
    requires GroupOk(gr)
    ensures Succeeds(gr, sub) <==> !IsFull(gr) && exists t :: Offered(gr, sub, t)
    ensures Succeeds(gr, sub) ==> Offered(gr, sub, Target(gr, sub).value)
  {
    if Succeeds(gr, sub) {
      assert Offered(gr, sub, Target(gr, sub).value);
    } else if t :| Offered(gr, sub, t) {
      assert sub > 0 || FindFree(gr.subs) == t;
    }
  }

  /** The group as it was, and `p` in subgroup `t` with the given role. */
  ghost predicate JoinedBy(gr: Group, gr': Group, p: Player, t: nat, role: nat) {
    && gr'.kind == gr.kind && gr'.disbands == gr.disbands && gr'.count == gr.count + 1 && gr'.roles == gr.roles[p := role]
    && |gr'.subs| == |gr.subs|
    && forall i :: 0 <= i < |gr.subs| ==> gr'.subs[i] == if i == t then gr.subs[i] + {p} else gr.subs[i]
  }

  /** The world a newcomer joins: the one left after leaving the old group, if there is one. */
  ghost predicate CameFrom(w: World, w1: World, p: Player) {
    if p in w.seats then CanRemove(w, w.seats[p].group, p) && w1 == Removed(w, w.seats[p].group, p) else w1 == w
  }

  lemma {:induction false} JoinersGroup(w: World, w1: World, g: GroupId, p: Player)
    requires Roster(w) && g in w.groups && (p in w.seats ==> w.seats[p].group != g) && CameFrom(w, w1, p)
    ensures g in w1.groups && w1.groups[g] == w.groups[g]
    ensures OtherGroups(w, w1, if p in w.seats then {w.seats[p].group} else {})
  {
    if p in w.seats {
      SeatIsMember(w, p);
      LeavingKeepsRest(w, w.seats[p].group, p);
      assert g in w.groups - {w.seats[p].group};
      assert g in w1.groups - {w.seats[p].group};
    }
  }

  /**
   After a successful add the player sits in the subgroup offered, in a group otherwise as it was; what
   else has changed is what leaving the old group, if there is one, changes.
   */
  lemma {:induction false} SuccessSeats(w: World, w1: World, g: GroupId, p: Player, sub: nat, role: nat, t: nat)
    requires Roster(w) && Allowed(w, Add(g, p, sub, role)) && !IsFull(w.groups[g]) && Offered(w.groups[g], sub, t)
    requires CameFrom(w, w1, p)
    ensures Defined(w, Add(g, p, sub, role))
    ensures var w' := Added(w, g, p, sub, role);
      && w'.seats == w1.seats[p := Seat(g, t)]
      && g in w'.groups && JoinedBy(w.groups[g], w'.groups[g], p, t, role) && OtherGroups(w1, w', {g})
  {
    CanAlwaysLeave(w, p);
    OfferedIsTarget(w.groups[g], sub, t);
    JoinersGroup(w, w1, g, p);
  }

  /** An add that fails changes no group; only a player refused for want of room loses the pointers. */
  lemma {:induction false} FailureSeats(w: World, g: GroupId, p: Player, sub: nat, role: nat)
    requires Roster(w) && g in w.groups && CanLeave(w, p)
    requires IsFull(w.groups[g]) || !exists t :: Offered(w.groups[g], sub, t)
    ensures var gr, w' := w.groups[g], Added(w, g, p, sub, role);
      && w'.groups == w.groups
      && w'.seats == (if IsFull(gr) || 0 < sub < |gr.subs| then w.seats - {p} else w.seats)
  {
    SucceedsIff(w.groups[g], sub);
  }

  lemma {:induction false} OfferedIsTarget(gr: Group, sub: nat, t: nat)
    requires GroupOk(gr) && !IsFull(gr) && Offered(gr, sub, t)
    ensures Succeeds(gr, sub) && Target(gr, sub).value == t
  {
    assert sub == 0 ==> FindFree(gr.subs) == t;
  }

  /** `p` leaves whatever subgroup it is in for subgroup `sub`. */
  ghost predicate Reseated(subs: seq<set<Player>>, subs': seq<set<Player>>, p: Player, sub: nat) {
    |subs'| == |subs| && forall i :: 0 <= i < |subs| ==> subs'[i] == if i == sub then subs[i] + {p} else subs[i] - {p}
  }

  lemma {:induction false} ReseatedBy(subs: seq<set<Player>>, i: nat, sub: nat, p: Player)
    requires i < |subs| && sub < |subs| && p in subs[i] && Apart(subs)
    ensures var left := subs[i := subs[i] - {p}]; Reseated(subs, left[sub := left[sub] + {p}], p, sub)
  {
    forall j | 0 <= j < |subs| && j != i ensures subs[j] - {p} == subs[j] {
      assert p !in subs[j];
    }
    assert (subs[i] - {p}) + {p} == subs[i] + {p};
  }

  /**
   A member is moved exactly if the subgroup asked for exists and has room: then the player sits there
   and nowhere else, and everybody else where they sat.
   */
  lemma {:induction false} MoveSeats(w: World, g: GroupId, p: Player, sub: nat)
    requires Roster(w) && g in w.groups && Member(w.groups[g].subs, p)
    ensures var gr, w' := w.groups[g], Moved(w, g, p, sub);
      if sub < |gr.subs| && |gr.subs[sub]| < 5 then
        && w'.seats == w.seats[p := Seat(g, sub)] && OtherGroups(w, w', {g}) && g in w'.groups
        && w'.groups[g] == gr.(subs := w'.groups[g].subs) && Reseated(gr.subs, w'.groups[g].subs, p, sub)
      else w' == w
  {
    var gr := w.groups[g];
    assert GroupOk(gr);
    HoldingMember(gr.subs, p);
    if sub < |gr.subs| { ReseatedBy(gr.subs, Holding(gr.subs, p), sub, p); }
  }

  /** A party becomes a raid of eight subgroups with everybody where they sat; nobody's seat changes. */
  lemma {:induction false} ExpandMakesRaid(w: World, g: GroupId)
    requires Roster(w) && g in w.groups && w.groups[g].kind != Raid
    ensures Defined(w, Expand(g))
    ensures var gr, w' := w.groups[g], Expanded(w, g);
      && w'.seats == w.seats && OtherGroups(w, w', {g}) && g in w'.groups
      && w'.groups[g] == gr.(kind := Raid, subs := w'.groups[g].subs) && |w'.groups[g].subs| == 8
      && forall i :: 0 <= i < 8 ==> w'.groups[g].subs[i] == if i < |gr.subs| then gr.subs[i] else {}
  {
    assert GroupOk(w.groups[g]);
  }
}
