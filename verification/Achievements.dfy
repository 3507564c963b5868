/**
 Achievements: completing one updates every criterion that asks for another achievement, which can
 complete further achievements, recursively.
 */
module Achievements {
  datatype Faction = Either | AllianceOnly | HordeOnly

  datatype Achievement = Achievement(counter: bool, realmFirst: bool, faction: Faction, count: nat)

  /** What a criterion asks: another achievement, or a progress level; `gate` stands for race and class conditions. */
  datatype Goal = Link(linked: nat) | Reach(needed: nat, gate: bool)

  datatype Criterion = Criterion(id: nat, achievement: nat, goal: Goal, completesAll: bool)

  datatype Store = Store(achievements: map<nat, Achievement>, rows: seq<Criterion>)

  /** `loading` until the player has been sent the whole record after login. */
  datatype Hero = Hero(horde: bool, exempt: bool, loading: bool)

  /** One player's progress and achievements, the realm's completed achievements, and the rewards given in order. */
  datatype Log = Log(progress: map<nat, int>, completed: set<nat>, realm: set<nat>, rewarded: seq<nat>)

  function Level(progress: map<nat, int>, id: nat): int {
    if id in progress then progress[id] else 0
  }

  predicate IsCompleted(b: Store, s: Log, c: Criterion) {
    && c.achievement in b.achievements
    && !b.achievements[c.achievement].counter
    && !(b.achievements[c.achievement].realmFirst && c.achievement in s.realm)
    && Level(s.progress, c.id) >= 1
    && match c.goal
       case Link(linked) => linked in s.completed
       case Reach(needed, gate) => gate && Level(s.progress, c.id) >= needed
  }

  /** Over the criteria of one achievement: how many are done, whether one is outstanding, whether one alone suffices. */
  datatype Tally = Tally(done: nat, outstanding: bool, settled: bool)

  function Tallied(rows: seq<Criterion>, a: nat, done: set<nat>): Tally {
    if rows == [] then Tally(0, false, false)
    else
      var t := Tallied(rows[..|rows| - 1], a, done);
      var c := rows[|rows| - 1];
      if c.achievement != a then t
      else if c.id in done then Tally(t.done + 1, t.outstanding, t.settled || c.completesAll)
      else t.(outstanding := true)
  }

  predicate Decides(t: Tally, count: nat) {
    t.settled || !t.outstanding || (count > 1 && t.done >= count)
  }

  /** The achievement's criteria are met when exactly the criteria `done` are. */
  predicate Rule(b: Store, a: nat, done: set<nat>)
    requires a in b.achievements
  {
    Decides(Tallied(b.rows, a, done), b.achievements[a].count)
  }

  function Done(b: Store, s: Log): set<nat> {
    set c | c in b.rows && IsCompleted(b, s, c) :: c.id
  }

  function SetProgress(s: Log, id: nat, value: int): Log {
    if id !in s.progress && value < 1 then s else s.(progress := s.progress[id := value])
  }

  predicate Skipped(b: Store, h: Hero, c: Criterion) {
    || c.achievement !in b.achievements
    || b.achievements[c.achievement].counter
    || (b.achievements[c.achievement].faction == HordeOnly && !h.horde)
    || (b.achievements[c.achievement].faction == AllianceOnly && h.horde)
  }

  function Links(rows: seq<Criterion>): seq<Criterion> {
    if rows == [] then []
    else Links(rows[..|rows| - 1]) + (if rows[|rows| - 1].goal.Link? then [rows[|rows| - 1]] else [])
  }

  function Missing(b: Store, s: Log): nat {
    |b.achievements.Keys - s.completed|
  }

  /** GiveAchievementReward, which does nothing while the character is loading. */
  function GiveReward(h: Hero, s: Log, a: nat): Log {
    if h.loading then s else s.(rewarded := s.rewarded + [a])
  }

  // ---------- the cascade ----------

  function Complete(b: Store, h: Hero, s: Log, a: nat): (r: Log)
    requires a in b.achievements
    ensures s.completed <= r.completed && Missing(b, r) <= Missing(b, s)
    decreases Missing(b, s), 0, 0
  {
    if b.achievements[a].counter || a in s.completed then s else
    var s1 := s.(completed := s.completed + {a}, realm := s.realm + {a});
    MissingLess(b, s, a);
    var s2 := if h.exempt then s1 else UpdateRows(b, h, s1, Links(b.rows));
    GiveReward(h, s2, a)
  }

  function UpdateRows(b: Store, h: Hero, s: Log, rows: seq<Criterion>): (r: Log)
    ensures s.completed <= r.completed && Missing(b, r) <= Missing(b, s)
    decreases Missing(b, s), |rows|, 3
  {
    if rows == [] then s else UpdateRows(b, h, UpdateRow(b, h, s, rows[0]), rows[1..])
  }

  function UpdateRow(b: Store, h: Hero, s: Log, c: Criterion): (r: Log)
    ensures s.completed <= r.completed && Missing(b, r) <= Missing(b, s)
    decreases Missing(b, s), 0, 2
  {
    if Skipped(b, h, c) then s
    else if c.goal.Link? && c.goal.linked in s.completed then CompleteRow(b, h, SetProgress(s, c.id, 1), c)
    else CompleteRow(b, h, s, c)
  }

  function CompleteRow(b: Store, h: Hero, s: Log, c: Criterion): (r: Log)
    ensures s.completed <= r.completed && Missing(b, r) <= Missing(b, s)
    decreases Missing(b, s), 0, 1
  {
    if IsCompleted(b, s, c) && (c.completesAll || (c.achievement !in s.completed && Rule(b, c.achievement, Done(b, s))))
    then Complete(b, h, s, c.achievement)
    else s
  }

  lemma {:induction false} MissingLess(b: Store, s: Log, a: nat)
    requires a in b.achievements && a !in s.completed
    ensures |b.achievements.Keys - (s.completed + {a})| < Missing(b, s)
  {
    assert b.achievements.Keys - s.completed == (b.achievements.Keys - (s.completed + {a})) + {a};
  }
}
