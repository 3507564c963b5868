/**
 A guild's rank table, its members and the players' own pointers to guild and rank. Rank records are
 named by address, so that a pointer to a deleted record can be told from one to its successor.
 */
module GuildRanks {
  import opened Basics

  type Player = nat
  type Addr = nat
  type Rights = bv32

  const MAX_RANKS: nat := 10
  const DEFAULT_RANKS: nat := 5

  const RIGHT_REMOVE: Rights := 0x20
  const RIGHT_PROMOTE: Rights := 0x80
  const RIGHT_DEMOTE: Rights := 0x100
  const RIGHTS_ALL: Rights := 0xDF1FF
  const RIGHTS_DEFAULT: Rights := 0x43

  datatype Rank = Rank(id: nat, rights: Rights)

  /** A player's guild and rank pointers; players in no guild have no entry. */
  datatype Info = Info(guild: nat, rank: Addr)

  datatype Guild = Guild(
    self: nat,
    ranks: map<Addr, Rank>,
    slots: seq<Option<Addr>>,
    members: map<Player, Addr>,
    infos: map<Player, Info>,
    leader: Player,
    next: Addr)

  predicate Can(r: Rank, right: Rights) {
    r.rights & right != 0
  }

  /** The last occupied slot from `i` down, slot 0 excepted. */
  function LowestFrom(slots: seq<Option<Addr>>, i: nat): (r: Option<Addr>)
    requires i < |slots|
    ensures r.Some? ==> exists k :: 0 < k <= i && slots[k] == r && forall j :: k < j <= i ==> slots[j].None?
    ensures r.None? ==> forall k :: 0 < k <= i ==> slots[k].None?
  {
    if i == 0 then None else if slots[i].Some? then slots[i] else LowestFrom(slots, i - 1)
  }

  /** The first occupied slot at or after `i`. */
  function HighestFrom(slots: seq<Option<Addr>>, i: nat): (r: Option<Addr>)
    requires i <= |slots|
    ensures r.Some? ==> exists k :: i <= k < |slots| && slots[k] == r && forall j :: i <= j < k ==> slots[j].None?
    ensures r.None? ==> forall k :: i <= k < |slots| ==> slots[k].None?
    decreases |slots| - i
  {
    if i == |slots| then None else if slots[i].Some? then slots[i] else HighestFrom(slots, i + 1)
  }

  function FreeSlot(slots: seq<Option<Addr>>): (i: nat)
    ensures i <= |slots|
    ensures i < |slots| ==> slots[i].None?
    ensures forall k :: 0 <= k < i ==> slots[k].Some?
  {
    if slots == [] || slots[0].None? then 0 else 1 + FreeSlot(slots[1..])
  }

  // ---------- steps ----------

  function CreateRank(g: Guild, rights: Rights): Guild {
    var i := FreeSlot(g.slots);
    if i == |g.slots| then g
    else g.(slots := g.slots[i := Some(g.next)], ranks := g.ranks[g.next := Rank(i, rights)], next := g.next + 1)
  }

  function RemoveRank(g: Guild): Guild
    requires |g.slots| == MAX_RANKS
  {
    var lowest := LowestFrom(g.slots, MAX_RANKS - 1);
    if lowest.None? || lowest.value !in g.ranks || g.ranks[lowest.value].id < DEFAULT_RANKS then g
    else if exists p :: p in g.members && g.members[p] == lowest.value then g
    else if g.ranks[lowest.value].id >= MAX_RANKS then g
    else g.(slots := g.slots[g.ranks[lowest.value].id := None], ranks := g.ranks - {lowest.value})
  }

  /** The rank a new member gets; -2 asks for the highest below the master, other negatives for the lowest. */
  function EntryRank(g: Guild, forced: int): Option<Addr>
    requires |g.slots| == MAX_RANKS && forced < MAX_RANKS
  {
    var r :=
      if (if g.members != map[] then forced > 0 else forced >= 0) then g.slots[forced]
      else if forced == -2 then HighestFrom(g.slots, 1)
      else LowestFrom(g.slots, MAX_RANKS - 1);
    if r.None? then LowestFrom(g.slots, MAX_RANKS - 1) else r
  }

  function AddMember(g: Guild, p: Player, forced: int): Guild
    requires |g.slots| == MAX_RANKS && forced < MAX_RANKS
  {
    if p in g.infos then g else
    var r := EntryRank(g, forced);
    if r.None? then g
    else g.(members := g.members[p := r.value], infos := g.infos[p := Info(g.self, r.value)])
  }

  predicate Inside(g: Guild, p: Player) {
    p in g.infos && g.infos[p].guild == g.self && g.infos[p].rank in g.ranks
  }

  function RankOf(g: Guild, p: Player): Rank
    requires Inside(g, p)
  {
    g.ranks[g.infos[p].rank]
  }

  /** `actor` is who asks; None is the server itself. */
  function RemoveMember(g: Guild, p: Player, actor: Option<Player>): Guild {
    if !Inside(g, p) || (actor.Some? && !Inside(g, actor.value)) then g
    else if actor.Some? && actor.value != p
      && (!Can(RankOf(g, actor.value), RIGHT_REMOVE) || RankOf(g, p).id <= RankOf(g, actor.value).id) then g
    else if RankOf(g, p).id == 0 then g
    else g.(members := g.members - {p}, infos := g.infos - {p})
  }

  function SetRank(g: Guild, p: Player, r: Addr): Guild {
    if p in g.members && p in g.infos
    then g.(members := g.members[p := r], infos := g.infos[p := g.infos[p].(rank := r)])
    else g
  }

  /** The difference of two ranks as the unsigned 32-bit number the server compares. */
  function RankGap(target: nat, actor: nat): nat {
    U32(target - actor)
  }

  predicate MayPromote(g: Guild, p: Player, actor: Player) {
    && Inside(g, p) && Inside(g, actor)
    && Can(RankOf(g, actor), RIGHT_PROMOTE)
    && RankGap(RankOf(g, p).id, RankOf(g, actor).id) > 1
    && RankOf(g, p).id != 1
  }

  /** The nearest occupied slot above, slot 0 excepted. */
  function Promote(g: Guild, p: Player, actor: Player): Guild
    requires |g.slots| == MAX_RANKS
  {
    if !MayPromote(g, p, actor) || RankOf(g, p).id == 0 || RankOf(g, p).id > MAX_RANKS then g else
    var r := LowestFrom(g.slots, RankOf(g, p).id - 1);
    if r.None? then g else SetRank(g, p, r.value)
  }

  predicate MayDemote(g: Guild, p: Player, actor: Player) {
    && Inside(g, p) && Inside(g, actor)
    && Can(RankOf(g, actor), RIGHT_DEMOTE) && p != g.leader && RankOf(g, actor).id < RankOf(g, p).id
  }

  function Demote(g: Guild, p: Player, actor: Player): Guild
    requires |g.slots| == MAX_RANKS
  {
    if !MayDemote(g, p, actor) || RankOf(g, p).id >= MAX_RANKS then g else
    var r := HighestFrom(g.slots, RankOf(g, p).id + 1);
    if r.None? then g else SetRank(g, p, r.value)
  }

  function ChangeMaster(g: Guild, p: Player, actor: Player): Guild
    requires |g.slots| == MAX_RANKS && g.slots[0].Some?
  {
    var r := HighestFrom(g.slots, 1);
    if actor != g.leader || r.None? || p !in g.members || actor !in g.members then g
    else SetRank(SetRank(g, p, g.slots[0].value), actor, r.value).(leader := p)
  }

  function EmptyGuild(self: nat, infos: map<Player, Info>, leader: Player): Guild {
    Guild(self, map[], seq(MAX_RANKS, _ => None), map[], infos, leader, 0)
  }

  function AddAll(g: Guild, ps: seq<Player>, forced: int): Guild
    requires |g.slots| == MAX_RANKS && forced < MAX_RANKS
    decreases |ps|
  {
    if ps == [] then g else AddAll(AddMember(g, ps[0], forced), ps[1..], forced)
  }

  function DefaultRanks(g: Guild): Guild {
    CreateRank(CreateRank(CreateRank(CreateRank(CreateRank(g, RIGHTS_ALL), RIGHTS_ALL), RIGHTS_DEFAULT), RIGHTS_DEFAULT), RIGHTS_DEFAULT)
  }

  function FromCharter(self: nat, infos: map<Player, Info>, leader: Player, signers: seq<Player>): Guild {
    AddAll(AddMember(DefaultRanks(EmptyGuild(self, infos, leader)), leader, 0), signers, 4)
  }

  // ---------- the invariant ----------

  /** The first `n` slots and no others are occupied, each by the record that carries its number. */
  ghost predicate Table(g: Guild, n: nat) {
    && |g.slots| == MAX_RANKS && n <= MAX_RANKS
    && forall i :: 0 <= i < MAX_RANKS ==>
      (g.slots[i].Some? <==> i < n) && (i < n ==> g.slots[i].value in g.ranks && g.ranks[g.slots[i].value].id == i)
  }

  /** The address is that of a rank now in the table. */
  predicate Live(g: Guild, a: Addr) {
    a in g.ranks && g.ranks[a].id < |g.slots| && g.slots[g.ranks[a].id] == Some(a)
  }

  ghost predicate Fresh(g: Guild) {
    forall a :: a in g.ranks ==> a < g.next
  }

  ghost predicate Ranked(g: Guild) {
    forall p :: p in g.members ==> Live(g, g.members[p])
  }

  /** A player's pointers name this guild exactly for members, and then name the member's rank. */
  ghost predicate Mirrored(g: Guild) {
    forall p :: (p in g.members <==> p in g.infos && g.infos[p].guild == g.self)
      && (p in g.members ==> g.infos[p].rank == g.members[p])
  }

  /** Exactly one member holds rank 0: the leader. */
  ghost predicate OneMaster(g: Guild) {
    && g.leader in g.members
    && |g.slots| > 0
    && forall p :: p in g.members ==> (Some(g.members[p]) == g.slots[0] <==> p == g.leader)
  }

  ghost predicate Orderly(g: Guild) {
    && (exists n :: DEFAULT_RANKS <= n && Table(g, n))
    && Fresh(g) && Ranked(g) && Mirrored(g) && OneMaster(g)
  }

  datatype Op =
    | NewRank(rights: Rights)
    | DropRank
    | Join(joiner: Player, forced: int)
    | Leave(leaver: Player, actor: Option<Player>)
    | Raise(raised: Player, officer: Player)
    | Lower(lowered: Player, officer: Player)
    | Transfer(heir: Player, officer: Player)

  /** Forced ranks name a slot of the table; the guild is handed to somebody else. */
  predicate Allowed(op: Op) {
    match op
    case Join(_, forced) => forced < MAX_RANKS
    case Transfer(heir, officer) => heir != officer
    case _ => true
  }

  predicate Defined(g: Guild, op: Op) {
    |g.slots| == MAX_RANKS && g.slots[0].Some? && (op.Join? ==> op.forced < MAX_RANKS)
  }

  function Step(g: Guild, op: Op): Guild
    requires Defined(g, op)
  {
    match op
    case NewRank(rights) => CreateRank(g, rights)
    case DropRank => RemoveRank(g)
    case Join(p, forced) => AddMember(g, p, forced)
    case Leave(p, actor) => RemoveMember(g, p, actor)
    case Raise(p, actor) => Promote(g, p, actor)
    case Lower(p, actor) => Demote(g, p, actor)
    case Transfer(p, actor) => ChangeMaster(g, p, actor)
  }

  /** Disbanding clears every member's pointers; this is what the players' records then say. */
  function Disband(g: Guild): map<Player, Info> {
    g.infos - g.members.Keys
  }
}
