/**
 Parties and raids: up to eight subgroups of five, each player's pointer back to group and
 subgroup, and the group's own member count and role table.
 */
module Groups {
  import opened Basics

  type Player = nat
  type GroupId = nat

  const SUBGROUP_SIZE: nat := 5
  const RAID_SIZE: nat := 40

  datatype Kind = Party | Raid | Finder

  /** `subs` holds the subgroups that exist: one, or eight in a raid. */
  datatype Group = Group(
    kind: Kind,
    subs: seq<set<Player>>,
    count: nat,
    roles: map<Player, nat>,
    disbands: bool)

  datatype Seat = Seat(group: GroupId, sub: nat)

  /** A player without a seat has a null group pointer and subgroup -1. */
  datatype World = World(groups: map<GroupId, Group>, seats: map<Player, Seat>)

  predicate Member(subs: seq<set<Player>>, p: Player) {
    exists i :: 0 <= i < |subs| && p in subs[i]
  }

  function Size(subs: seq<set<Player>>): nat {
    if subs == [] then 0 else |subs[0]| + Size(subs[1..])
  }

  /** The first subgroup with a free place, or the number of subgroups. */
  function FindFree(subs: seq<set<Player>>): (i: nat)
    ensures i <= |subs|
    ensures i < |subs| ==> |subs[i]| < SUBGROUP_SIZE
    ensures forall k :: 0 <= k < i ==> |subs[k]| >= SUBGROUP_SIZE
  {
    if subs == [] || |subs[0]| < SUBGROUP_SIZE then 0 else 1 + FindFree(subs[1..])
  }

  /** The first subgroup with the player, or the number of subgroups. */
  function Holding(subs: seq<set<Player>>, p: Player): (i: nat)
    ensures i <= |subs|
    ensures i < |subs| ==> p in subs[i]
    ensures forall k :: 0 <= k < i ==> p !in subs[k]
  {
    if subs == [] || p in subs[0] then 0 else 1 + Holding(subs[1..], p)
  }

  predicate IsFull(gr: Group) {
    (gr.kind == Party && gr.count >= SUBGROUP_SIZE) || (gr.kind == Raid && gr.count >= RAID_SIZE)
  }

  // ---------- steps ----------

  function Without(gr: Group, i: nat, p: Player): Group
    requires i < |gr.subs| && gr.count > 0
  {
    gr.(subs := gr.subs[i := gr.subs[i] - {p}], count := gr.count - 1, roles := gr.roles - {p})
  }

  /**
   When RemovePlayer is defined. For a player that no subgroup holds the server falls back on the subgroup
   number in the player's record; if the group has one of that number, it erases the end of the role table.
   */
  predicate CanRemove(w: World, g: GroupId, p: Player) {
    g in w.groups
    && (if Holding(w.groups[g].subs, p) < |w.groups[g].subs| then w.groups[g].count > 0
        else p in w.seats ==> w.seats[p].sub >= |w.groups[g].subs|)
  }

  /**
   Removes a member; a group left with fewer than two members is disbanded if it is that kind of group.
   A player who is no member only loses the pointers.
   */
  function Removed(w: World, g: GroupId, p: Player): World
    requires CanRemove(w, g, p)
  {
    var i := Holding(w.groups[g].subs, p);
    if i == |w.groups[g].subs| then w.(seats := w.seats - {p})
    else
      var gr := Without(w.groups[g], i, p);
      var w1 := World(w.groups[g := gr], w.seats - {p});
      if gr.count < 2 && gr.disbands then Disbanded(w1, g) else w1
  }

  function Disbanded(w: World, g: GroupId): World
    requires g in w.groups
  {
    World(w.groups - {g}, map p | p in w.seats && !Member(w.groups[g].subs, p) :: w.seats[p])
  }

  /** The subgroup a new member goes to, if there is one. */
  function Target(gr: Group, sub: nat): Option<nat> {
    var t := if sub > 0 then sub else FindFree(gr.subs);
    if t < |gr.subs| then Some(t) else None
  }

  predicate Refused(gr: Group, sub: nat) {
    IsFull(gr) || (Target(gr, sub).Some? && |gr.subs[Target(gr, sub).value]| >= SUBGROUP_SIZE)
  }

  function With(gr: Group, t: nat, p: Player, role: nat): Group
    requires t < |gr.subs|
  {
    gr.(subs := gr.subs[t := gr.subs[t] + {p}], count := gr.count + 1, roles := gr.roles[p := role])
  }

  predicate CanLeave(w: World, p: Player) {
    p in w.seats ==>
      var g := w.seats[p].group;
      g in w.groups && Holding(w.groups[g].subs, p) < |w.groups[g].subs| && w.groups[g].count > 0
  }

  predicate Leaves(w: World, g: GroupId, p: Player) {
    p in w.seats && w.seats[p].group != g
  }

  /** AddMember: leaves another group on success; on refusal only the player's pointers are cleared. */
  function Added(w: World, g: GroupId, p: Player, sub: nat, role: nat): World
    requires g in w.groups && CanLeave(w, p)
  {
    var gr := w.groups[g];
    if Refused(gr, sub) then w.(seats := w.seats - {p})
    else if Target(gr, sub).None? then w
    else
      var t := Target(gr, sub).value;
      var w1 := if Leaves(w, g, p) then Removed(w, w.seats[p].group, p) else w;
      World(w1.groups[g := With(gr, t, p, role)], w1.seats[p := Seat(g, t)])
  }

  predicate Succeeds(gr: Group, sub: nat) {
    !Refused(gr, sub) && Target(gr, sub).Some?
  }

  function Moved(w: World, g: GroupId, p: Player, sub: nat): World
    requires g in w.groups
  {
    var gr := w.groups[g];
    var i := Holding(gr.subs, p);
    if sub >= |gr.subs| || |gr.subs[sub]| >= SUBGROUP_SIZE || i == |gr.subs| then w
    else
      var subs := gr.subs[i := gr.subs[i] - {p}];
      World(w.groups[g := gr.(subs := subs[sub := subs[sub] + {p}])], w.seats[p := Seat(g, sub)])
  }

  /** ExpandToRaid gives subgroups one to seven anew. */
  function Expanded(w: World, g: GroupId): World
    requires g in w.groups && w.groups[g].subs != []
  {
    var gr := w.groups[g];
    w.(groups := w.groups[g := gr.(kind := Raid, subs := [gr.subs[0], {}, {}, {}, {}, {}, {}, {}])])
  }

  function Founded(w: World, g: GroupId, kind: Kind, disbands: bool): World {
    w.(groups := w.groups[g := Group(kind, [{}], 0, map[], disbands)])
  }

  datatype Op =
    | Found(group: GroupId, kind: Kind, disbands: bool)
    | Add(group: GroupId, player: Player, sub: nat, role: nat)
    | Remove(group: GroupId, player: Player)
    | Move(group: GroupId, player: Player, sub: nat)
    | Expand(group: GroupId)
    | Disband(group: GroupId)

  // ---------- the invariant ----------

  ghost predicate Small(subs: seq<set<Player>>) {
    forall i :: 0 <= i < |subs| ==> |subs[i]| <= SUBGROUP_SIZE
  }

  /** No player is in two subgroups. */
  ghost predicate Apart(subs: seq<set<Player>>) {
    forall i, j, p :: 0 <= i < |subs| && 0 <= j < |subs| && p in subs[i] && p in subs[j] ==> i == j
  }

  ghost predicate RolesMatch(gr: Group) {
    forall p :: p in gr.roles <==> Member(gr.subs, p)
  }

  ghost predicate Shaped(gr: Group) {
    |gr.subs| == (if gr.kind == Raid then 8 else 1)
  }

  ghost predicate GroupOk(gr: Group) {
    Shaped(gr) && Small(gr.subs) && Apart(gr.subs) && gr.count == Size(gr.subs) && RolesMatch(gr)
  }

  ghost predicate GroupsOk(groups: map<GroupId, Group>) {
    forall g :: g in groups ==> GroupOk(groups[g])
  }

  predicate Sits(groups: map<GroupId, Group>, p: Player, g: GroupId, i: nat) {
    g in groups && i < |groups[g].subs| && p in groups[g].subs[i]
  }

  /** A player's pointers name a group and subgroup exactly when that subgroup holds the player. */
  ghost predicate Pointed(w: World) {
    forall p, g, i: nat :: Sits(w.groups, p, g, i) <==> p in w.seats && w.seats[p] == Seat(g, i)
  }

  ghost predicate Roster(w: World) {
    GroupsOk(w.groups) && Pointed(w)
  }

  /** The player is in no group, or is in another and not refused, or finds no free subgroup. */
  predicate Keeps(w: World, g: GroupId, p: Player, sub: nat)
    requires g in w.groups
  {
    p in w.seats ==>
      !Refused(w.groups[g], sub) && (w.seats[p].group != g || Target(w.groups[g], sub).None?)
  }

  /** What the operations need of their callers. */
  predicate Allowed(w: World, op: Op) {
    match op
    case Found(g, kind, _) => g !in w.groups && kind != Raid
    case Add(g, p, sub, _) => g in w.groups && Keeps(w, g, p, sub)
    case Remove(g, p) => g in w.groups && (Member(w.groups[g].subs, p) || p !in w.seats)
    case Move(g, p, _) => g in w.groups && Member(w.groups[g].subs, p)
    case Expand(g) => g in w.groups && w.groups[g].kind != Raid
    case Disband(g) => g in w.groups
  }

  predicate Defined(w: World, op: Op) {
    match op
    case Found(_, _, _) => true
    case Add(g, p, _, _) => g in w.groups && CanLeave(w, p)
    case Remove(g, p) => CanRemove(w, g, p)
    case Move(g, _, _) => g in w.groups
    case Expand(g) => g in w.groups && w.groups[g].subs != []
    case Disband(g) => g in w.groups
  }

  function Step(w: World, op: Op): World
    requires Defined(w, op)
  {
    match op
    case Found(g, kind, disbands) => Founded(w, g, kind, disbands)
    case Add(g, p, sub, role) => Added(w, g, p, sub, role)
    case Remove(g, p) => Removed(w, g, p)
    case Move(g, p, sub) => Moved(w, g, p, sub)
    case Expand(g) => Expanded(w, g)
    case Disband(g) => Disbanded(w, g)
  }
}
