/**
 The dungeon finder as a state machine: the queues, the index of who queued for what, the pending
 proposals and the groups formed. Every public call, and every step of the periodic update, is
 one step.
 */
module LfgMatchmaking {
  import opened Basics
  import opened LfgEntries
  import opened LfgQueues

  const PROPOSAL_SECONDS: int := 20
  const MAX_DUNGEONS: nat := 294

  datatype Proposal = Proposal(dungeon: nat, players: seq<ProposalEntry>, expiry: int)

  datatype Formed = Formed(id: nat, players: seq<ProposalEntry>)

  /** A queue exists only once somebody asked for its dungeon. */
  datatype Finder = Finder(
    queues: map<nat, Queue>,
    dungeonsOf: map<Guid, seq<nat>>,
    proposals: map<nat, Proposal>,
    lastId: nat,
    groups: seq<Formed>)

  /** What becomes of a proposal everyone accepted: no dungeon fits, no instance can be made, or a group starts. */
  datatype Placement = NoDungeon | NoInstance | Started

  datatype Op =
    | Join(guid: Guid, roles: RoleMask, dungeons: seq<nat>, team: nat, grouped: bool, eligible: set<nat>)
    | Leave(leaver: Guid, pending: Option<nat>)
    | Answer(id: nat, answerer: Guid, result: nat, placement: Placement)
    | Expire(expired: nat)
    | Match(dungeon: nat, faction: nat, force: bool)

  const START: Finder := Finder(map[], map[], map[], 0, [])

  // ---------- queues ----------

  function QueueAt(queues: map<nat, Queue>, d: nat): Queue {
    if d in queues then queues[d] else []
  }

  function EnqueueAll(queues: map<nat, Queue>, guid: Guid, team: nat, roles: RoleMask, ds: seq<nat>, now: int): map<nat, Queue>
    decreases |ds|
  {
    if ds == [] then queues
    else EnqueueAll(queues[ds[0] := AddPlayer(QueueAt(queues, ds[0]), guid, team, roles, now)], guid, team, roles, ds[1..], now)
  }

  function DequeueAll(queues: map<nat, Queue>, guid: Guid, ds: seq<nat>): map<nat, Queue>
    decreases |ds|
  {
    if ds == [] then queues
    else DequeueAll(queues[ds[0] := RemovePlayer(QueueAt(queues, ds[0]), guid)], guid, ds[1..])
  }

  function AssignAll(dungeonsOf: map<Guid, seq<nat>>, ps: seq<ProposalEntry>, ds: seq<nat>): map<Guid, seq<nat>>
    decreases |ps|
  {
    if ps == [] then dungeonsOf else AssignAll(dungeonsOf[ps[0].guid := ds], ps[1..], ds)
  }

  function Unqueue(w: Finder, guid: Guid): Finder {
    if guid !in w.dungeonsOf then w
    else w.(queues := DequeueAll(w.queues, guid, w.dungeonsOf[guid]), dungeonsOf := w.dungeonsOf - {guid})
  }

  function UnqueueAll(w: Finder, ps: seq<ProposalEntry>): Finder
    decreases |ps|
  {
    if ps == [] then w else UnqueueAll(Unqueue(w, ps[0].guid), ps[1..])
  }

  // ---------- proposals ----------

  function Seat(ps: seq<ProposalEntry>, guid: Guid): (i: nat)
    ensures i <= |ps|
    ensures i < |ps| ==> ps[i].guid == guid
    ensures forall k :: 0 <= k < i ==> ps[k].guid != guid
  {
    if ps == [] || ps[0].guid == guid then 0 else 1 + Seat(ps[1..], guid)
  }

  predicate Declined(p: ProposalEntry) {
    p.answered == 1 && p.accepted == 0
  }

  function Decliner(ps: seq<ProposalEntry>): (i: nat)
    ensures i <= |ps|
    ensures i < |ps| ==> Declined(ps[i])
    ensures forall k :: 0 <= k < i ==> !Declined(ps[k])
  {
    if ps == [] || Declined(ps[0]) then 0 else 1 + Decliner(ps[1..])
  }

  function Erase(ps: seq<ProposalEntry>, i: nat): seq<ProposalEntry> {
    if i < |ps| then ps[..i] + ps[i + 1..] else ps
  }

  predicate AllAccepted(ps: seq<ProposalEntry>) {
    forall k :: 0 <= k < |ps| ==> ps[k].accepted != 0
  }

  /** Who goes back into the queue when the proposal fails. */
  function Rest(ps: seq<ProposalEntry>): seq<ProposalEntry> {
    Erase(ps, Decliner(ps))
  }

  function Fail(w: Finder, id: nat, p: Proposal, now: int): Finder
    requires Rest(p.players) != []
  {
    var rest := Rest(p.players);
    w.(proposals := w.proposals - {id},
       queues := w.queues[p.dungeon := Readd(QueueAt(w.queues, p.dungeon), rest, now)],
       dungeonsOf := AssignAll(w.dungeonsOf, rest, [p.dungeon]))
  }

  function Propose(w: Finder, d: nat, ps: seq<ProposalEntry>, now: int): Finder {
    var w1 := UnqueueAll(w, ps);
    w1.(lastId := w1.lastId + 1, proposals := w1.proposals[w1.lastId + 1 := Proposal(d, ps, now + PROPOSAL_SECONDS)])
  }

  function Answered(ps: seq<ProposalEntry>, i: nat, result: nat): seq<ProposalEntry>
    requires i < |ps|
  {
    ps[i := ps[i].(answered := 1, accepted := result)]
  }

  // ---------- the steps ----------

  function JoinStep(w: Finder, guid: Guid, roles: RoleMask, ds: seq<nat>, team: nat, grouped: bool, eligible: set<nat>, now: int): Finder {
    if guid in w.dungeonsOf || roles == 0 || ds == [] || grouped || (exists k :: 0 <= k < |ds| && ds[k] !in eligible) then w
    else w.(queues := EnqueueAll(w.queues, guid, team, roles, ds, now), dungeonsOf := w.dungeonsOf[guid := ds])
  }

  /** removePlayer: leave every queue; a pending proposal fails without the player. */
  function LeaveStep(w: Finder, guid: Guid, pending: Option<nat>, now: int): Finder
    requires pending.Some? ==> LeaveFails(w.proposals, guid, pending.value)
  {
    var w1 := Unqueue(w, guid);
    if pending.None? then w1 else
    var p := w.proposals[pending.value];
    Fail(w1, pending.value, p.(players := Erase(p.players, Seat(p.players, guid))), now)
  }

  predicate LeaveFails(proposals: map<nat, Proposal>, guid: Guid, id: nat) {
    id in proposals && Rest(Erase(proposals[id].players, Seat(proposals[id].players, guid))) != []
  }

  /** A decline, or full consent without a dungeon to go to, must leave somebody to queue again. */
  predicate AnswerLeavesSome(w: Finder, id: nat, guid: Guid, result: nat) {
    id in w.proposals && Seat(w.proposals[id].players, guid) < |w.proposals[id].players| ==>
      Rest(Answered(w.proposals[id].players, Seat(w.proposals[id].players, guid), result)) != []
  }

  function AnswerStep(w: Finder, id: nat, guid: Guid, result: nat, placement: Placement, now: int): Finder
    requires AnswerLeavesSome(w, id, guid, result)
  {
    if id !in w.proposals then w else
    var p := w.proposals[id];
    var i := Seat(p.players, guid);
    if i == |p.players| then w else
    var p' := p.(players := Answered(p.players, i, result));
    if result == 0 then Fail(w, id, p', now)
    else if !AllAccepted(p'.players) then w.(proposals := w.proposals[id := p'])
    else Conclude(w, id, p', placement, now)
  }

  function Conclude(w: Finder, id: nat, p: Proposal, placement: Placement, now: int): Finder
    requires Rest(p.players) != []
  {
    match placement
    case NoDungeon => Fail(w, id, p, now)
    case NoInstance => w.(proposals := w.proposals - {id})
    case Started => w.(proposals := w.proposals - {id}, groups := w.groups + [Formed(id, p.players)])
  }

  function ExpireStep(w: Finder, id: nat, now: int): Finder
    requires id in w.proposals ==> Rest(w.proposals[id].players) != []
  {
    if id in w.proposals && now >= w.proposals[id].expiry then Fail(w, id, w.proposals[id], now) else w
  }

  function MatchStep(w: Finder, d: nat, team: nat, force: bool, now: int): Finder {
    var ps := FindMatch(QueueAt(w.queues, d), team, force);
    if ps == [] then w else Propose(w, d, ps, now)
  }

  predicate Defined(w: Finder, op: Op) {
    match op
    case Join(_, _, _, _, _, _) => true
    case Leave(g, pending) => pending.Some? ==> LeaveFails(w.proposals, g, pending.value)
    case Answer(id, g, r, _) => AnswerLeavesSome(w, id, g, r)
    case Expire(id) => id in w.proposals ==> Rest(w.proposals[id].players) != []
    case Match(_, _, _) => true
  }

  function Step(w: Finder, op: Op, now: int): Finder
    requires Defined(w, op)
  {
    match op
    case Join(g, roles, ds, team, grouped, eligible) => JoinStep(w, g, roles, ds, team, grouped, eligible, now)
    case Leave(g, pending) => LeaveStep(w, g, pending, now)
    case Answer(id, g, r, placement) => AnswerStep(w, id, g, r, placement, now)
    case Expire(id) => ExpireStep(w, id, now)
    case Match(d, team, force) => MatchStep(w, d, team, force, now)
  }

  // ---------- the invariant ----------

  predicate Member(ps: seq<ProposalEntry>, guid: Guid) {
    exists k :: 0 <= k < |ps| && ps[k].guid == guid
  }

  function Listed(dungeonsOf: map<Guid, seq<nat>>, guid: Guid, d: nat): nat {
    if guid in dungeonsOf && d in dungeonsOf[guid] then 1 else 0
  }

  ghost predicate QueuesOk(queues: map<nat, Queue>) {
    forall d :: d in queues ==> QueueOk(queues[d])
  }

  /** A player sits in a queue exactly once when the index lists that queue, and never otherwise. */
  ghost predicate Indexed(queues: map<nat, Queue>, dungeonsOf: map<Guid, seq<nat>>) {
    forall d, g :: Times(QueueAt(queues, d), g) == Listed(dungeonsOf, g, d)
  }

  ghost predicate NoRepeat(ds: seq<nat>) {
    forall i, j :: 0 <= i < j < |ds| ==> ds[i] != ds[j]
  }

  ghost predicate ListsOk(queues: map<nat, Queue>, dungeonsOf: map<Guid, seq<nat>>) {
    forall g :: g in dungeonsOf ==> NoRepeat(dungeonsOf[g]) && forall d :: d in dungeonsOf[g] ==> d in queues
  }

  ghost predicate OneTeam(ps: seq<ProposalEntry>) {
    forall i, j :: 0 <= i < |ps| && 0 <= j < |ps| ==> ps[i].team == ps[j].team
  }

  ghost predicate Undeclined(ps: seq<ProposalEntry>) {
    forall k :: 0 <= k < |ps| ==> !Declined(ps[k])
  }

  /** Pending: a non-empty group of one faction that fits together and in which nobody has declined. */
  ghost predicate PlayersOk(ps: seq<ProposalEntry>) {
    ps != [] && Fits(Seats(ps, 0)) && OneTeam(ps) && Undeclined(ps)
  }

  ghost predicate ProposalsOk(w: Finder) {
    forall id :: id in w.proposals ==> 1 <= id <= w.lastId && w.proposals[id].dungeon in w.queues && PlayersOk(w.proposals[id].players)
  }

  /** Nobody in a pending proposal is queued. */
  ghost predicate Exclusive(dungeonsOf: map<Guid, seq<nat>>, proposals: map<nat, Proposal>) {
    forall id, g :: id in proposals && Member(proposals[id].players, g) ==> g !in dungeonsOf
  }

  /** Nobody is in two pending proposals. */
  ghost predicate Apart(proposals: map<nat, Proposal>) {
    forall a, b, g :: a in proposals && b in proposals && Member(proposals[a].players, g) && Member(proposals[b].players, g) ==> a == b
  }

  ghost predicate Queued(w: Finder) {
    QueuesOk(w.queues) && Indexed(w.queues, w.dungeonsOf) && ListsOk(w.queues, w.dungeonsOf)
  }

  ghost predicate Sound(w: Finder) {
    Queued(w) && ProposalsOk(w) && Exclusive(w.dungeonsOf, w.proposals) && Apart(w.proposals)
  }

  /** What the finder needs of its callers. */
  predicate Allowed(w: Finder, op: Op) {
    match op
    case Join(g, roles, ds, _, _, eligible) =>
      && (roles == 0 || HasCombatRole(roles))
      && (forall id :: id in w.proposals ==> !Member(w.proposals[id].players, g))
      && (forall i, j :: 0 <= i < j < |ds| ==> ds[i] != ds[j])
    case Leave(g, None) => forall id :: id in w.proposals ==> !Member(w.proposals[id].players, g)
    case Leave(g, Some(id)) => id in w.proposals && Member(w.proposals[id].players, g) && |w.proposals[id].players| >= 2
    case Answer(id, g, r, _) => r == 0 && id in w.proposals && Member(w.proposals[id].players, g) ==> |w.proposals[id].players| >= 2
    case Expire(_) => true
    case Match(_, _, _) => true
  }
}
