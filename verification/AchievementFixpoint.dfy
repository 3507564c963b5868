/**
 What the cascade computes: the smallest set of achievements that contains the old ones and the
 completed one and is closed under the achievements' own rules.
 */
module AchievementFixpoint {
  import opened Achievements

  /** Were exactly the achievements `done` completed, would the criterion be met? */
  ghost predicate Sat(b: Store, progress: map<nat, int>, realm: set<nat>, done: set<nat>, c: Criterion) {
    && c.achievement in b.achievements
    && !b.achievements[c.achievement].counter
    && !(b.achievements[c.achievement].realmFirst && c.achievement in realm)
    && match c.goal
       case Link(linked) => linked in done
       case Reach(needed, gate) => gate && Level(progress, c.id) >= 1 && Level(progress, c.id) >= needed
  }

  ghost function Ideal(b: Store, progress: map<nat, int>, realm: set<nat>, done: set<nat>): set<nat> {
    set c | c in b.rows && Sat(b, progress, realm, done, c) :: c.id
  }

  /** The achievement exists, is no counter, and is open to the player's faction. */
  predicate Open(b: Store, h: Hero, a: nat) {
    && a in b.achievements && !b.achievements[a].counter
    && (b.achievements[a].faction == Either
        || (b.achievements[a].faction == HordeOnly && h.horde)
        || (b.achievements[a].faction == AllianceOnly && !h.horde))
  }

  /** The criterion's achievement is open to the player, the criterion is met, and so is the achievement's rule. */
  ghost predicate Earns(b: Store, h: Hero, progress: map<nat, int>, realm: set<nat>, done: set<nat>, c: Criterion) {
    Open(b, h, c.achievement) && Sat(b, progress, realm, done, c) && Rule(b, c.achievement, Ideal(b, progress, realm, done))
  }

  /** An achievement open to the player that asks for another one and whose criteria are met is in the set. */
  ghost predicate Closed(b: Store, h: Hero, progress: map<nat, int>, realm: set<nat>, done: set<nat>) {
    forall c :: c in b.rows && c.goal.Link? && Earns(b, h, progress, realm, done, c) ==> c.achievement in done
  }

  ghost predicate UniqueIds(b: Store) {
    forall c, d :: c in b.rows && d in b.rows && c.id == d.id ==> c == d
  }

  // ---------- the rule is monotone and looks only at its own criteria ----------

  lemma {:induction false} TallyAgrees(rows: seq<Criterion>, a: nat, d1: set<nat>, d2: set<nat>)
    requires forall c :: c in rows && c.achievement == a ==> (c.id in d1 <==> c.id in d2)
    ensures Tallied(rows, a, d1) == Tallied(rows, a, d2)
  {
    if rows != [] {
      assert rows[|rows| - 1] in rows;
      assert forall c :: c in rows[..|rows| - 1] ==> c in rows;
      TallyAgrees(rows[..|rows| - 1], a, d1, d2);
    }
  }

  lemma {:induction false} TallyGrows(rows: seq<Criterion>, a: nat, d1: set<nat>, d2: set<nat>)
    requires d1 <= d2
    ensures var t1, t2 := Tallied(rows, a, d1), Tallied(rows, a, d2);
      t1.done <= t2.done && (t2.outstanding ==> t1.outstanding) && (t1.settled ==> t2.settled)
  {
    if rows != [] {
      TallyGrows(rows[..|rows| - 1], a, d1, d2);
    }
  }

  lemma {:induction false} RuleGrows(b: Store, a: nat, d1: set<nat>, d2: set<nat>)
    requires a in b.achievements && d1 <= d2 && Rule(b, a, d1)
    ensures Rule(b, a, d2)
  {
    TallyGrows(b.rows, a, d1, d2);
  }

  lemma {:induction false} TallySettles(rows: seq<Criterion>, a: nat, done: set<nat>, c: Criterion)
    requires c in rows && c.achievement == a && c.id in done && c.completesAll
    ensures Tallied(rows, a, done).settled
  {
    var last := rows[|rows| - 1];
    if c != last {
      assert rows == rows[..|rows| - 1] + [last];
      TallySettles(rows[..|rows| - 1], a, done, c);
    }
  }

  /** A completed criterion that suffices alone meets its achievement's rule. */
  lemma {:induction false} Settles(b: Store, s: Log, c: Criterion)
    requires c in b.rows && IsCompleted(b, s, c) && c.completesAll
    ensures Rule(b, c.achievement, Done(b, s))
  {
    TallySettles(b.rows, c.achievement, Done(b, s), c);
  }

  lemma {:induction false} LinksMembers(rows: seq<Criterion>)
    ensures forall c :: c in Links(rows) <==> c in rows && c.goal.Link?
  {
    if rows != [] {
      LinksMembers(rows[..|rows| - 1]);
      assert rows == rows[..|rows| - 1] + [rows[|rows| - 1]];
    }
  }

  /** The criterion's achievement exists, is no counter, and is no realm first that somebody already has. */
  predicate Obtainable(b: Store, s: Log, c: Criterion) {
    && c.achievement in b.achievements && !b.achievements[c.achievement].counter
    && !(b.achievements[c.achievement].realmFirst && c.achievement in s.realm)
  }

  /** Storing a progress value decides that one criterion: it counts as met afterwards exactly when the value suffices. */
  lemma {:induction false} ProgressDecides(b: Store, s: Log, c: Criterion, value: int)
    requires UniqueIds(b) && c in b.rows && c.goal.Reach?
    ensures Done(b, SetProgress(s, c.id, value)) ==
      if Obtainable(b, s, c) && c.goal.gate && value >= 1 && value >= c.goal.needed then Done(b, s) + {c.id} else Done(b, s) - {c.id}
  {
    var s' := SetProgress(s, c.id, value);
    assert IsCompleted(b, s', c) <==> Obtainable(b, s, c) && c.goal.gate && value >= 1 && value >= c.goal.needed;
    forall d | d in b.rows && d != c ensures d.id != c.id && (IsCompleted(b, s', d) <==> IsCompleted(b, s, d)) {
    }
  }

  // ---------- what the cascade leaves alone ----------

  ghost predicate Frozen(b: Store, progress: map<nat, int>, s: Log) {
    forall c :: c in b.rows && c.goal.Reach? ==> Level(s.progress, c.id) == Level(progress, c.id)
  }

  /** Beyond the original realm achievements only this player's own were added. */
  ghost predicate OwnRealm(realm: set<nat>, s: Log) {
    realm <= s.realm && forall x :: x in s.realm && x !in s.completed ==> x in realm
  }

  ghost predicate Steady(b: Store, progress: map<nat, int>, realm: set<nat>, s: Log) {
    UniqueIds(b) && Frozen(b, progress, s) && OwnRealm(realm, s)
  }

  lemma {:induction false} SetSteady(b: Store, progress: map<nat, int>, realm: set<nat>, s: Log, c: Criterion)
    requires Steady(b, progress, realm, s) && c in b.rows && c.goal.Link?
    ensures Steady(b, progress, realm, SetProgress(s, c.id, 1))
  {
    forall d | d in b.rows && d.goal.Reach? ensures Level(SetProgress(s, c.id, 1).progress, d.id) == Level(progress, d.id) {
      assert d.id != c.id;
    }
  }

  lemma {:induction false} AddSteady(b: Store, progress: map<nat, int>, realm: set<nat>, s: Log, a: nat)
    requires Steady(b, progress, realm, s)
    ensures Steady(b, progress, realm, s.(completed := s.completed + {a}, realm := s.realm + {a}))
  {
  }

  // ---------- nothing unjustified is completed ----------

  lemma {:induction false} DoneIsIdeal(b: Store, progress: map<nat, int>, realm: set<nat>, s: Log, done: set<nat>)
    requires Steady(b, progress, realm, s) && s.completed <= done
    ensures Done(b, s) <= Ideal(b, progress, realm, done)
    ensures forall c :: c in b.rows && IsCompleted(b, s, c) ==> Sat(b, progress, realm, done, c)
  {
    forall c | c in b.rows && IsCompleted(b, s, c) ensures Sat(b, progress, realm, done, c) {
    }
  }

  lemma {:induction false} CompletesWithin(b: Store, h: Hero, progress: map<nat, int>, realm: set<nat>, s: Log, c: Criterion, done: set<nat>)
    requires Steady(b, progress, realm, s) && s.completed <= done && Closed(b, h, progress, realm, done)
    requires c in b.rows && c.goal.Link? && !Skipped(b, h, c) && IsCompleted(b, s, c)
    requires c.completesAll || Rule(b, c.achievement, Done(b, s))
    ensures c.achievement in done
  {
    if c.completesAll {
      Settles(b, s, c);
    }
    DoneIsIdeal(b, progress, realm, s, done);
    RuleGrows(b, c.achievement, Done(b, s), Ideal(b, progress, realm, done));
  }

  /** The cascade stays within every closed set that holds what it starts from. */
  lemma {:induction false} CompleteWithin(b: Store, h: Hero, progress: map<nat, int>, realm: set<nat>, s: Log, a: nat, done: set<nat>)
    requires Steady(b, progress, realm, s) && s.completed + {a} <= done && Closed(b, h, progress, realm, done)
    requires a in b.achievements
    ensures Complete(b, h, s, a).completed <= done && Steady(b, progress, realm, Complete(b, h, s, a))
    decreases Missing(b, s), 0, 0
  {
    if !b.achievements[a].counter && a !in s.completed {
      var s1 := s.(completed := s.completed + {a}, realm := s.realm + {a});
      MissingLess(b, s, a);
      AddSteady(b, progress, realm, s, a);
      LinksMembers(b.rows);
      if !h.exempt {
        RowsWithin(b, h, progress, realm, s1, Links(b.rows), done);
      }
    }
  }

  lemma {:induction false} RowsWithin(b: Store, h: Hero, progress: map<nat, int>, realm: set<nat>, s: Log, rows: seq<Criterion>, done: set<nat>)
    requires Steady(b, progress, realm, s) && s.completed <= done && Closed(b, h, progress, realm, done)
    requires forall c :: c in rows ==> c in b.rows && c.goal.Link?
    ensures UpdateRows(b, h, s, rows).completed <= done && Steady(b, progress, realm, UpdateRows(b, h, s, rows))
    decreases Missing(b, s), |rows|, 3
  {
    if rows != [] {
      RowWithin(b, h, progress, realm, s, rows[0], done);
      RowsWithin(b, h, progress, realm, UpdateRow(b, h, s, rows[0]), rows[1..], done);
    }
  }

  lemma {:induction false} RowWithin(b: Store, h: Hero, progress: map<nat, int>, realm: set<nat>, s: Log, c: Criterion, done: set<nat>)
    requires Steady(b, progress, realm, s) && s.completed <= done && Closed(b, h, progress, realm, done)
    requires c in b.rows && c.goal.Link?
    ensures UpdateRow(b, h, s, c).completed <= done && Steady(b, progress, realm, UpdateRow(b, h, s, c))
    decreases Missing(b, s), 0, 2
  {
    if !Skipped(b, h, c) {
      var s1 := if c.goal.linked in s.completed then SetProgress(s, c.id, 1) else s;
      SetSteady(b, progress, realm, s, c);
      if IsCompleted(b, s1, c) && (c.completesAll || Rule(b, c.achievement, Done(b, s1))) {
        CompletesWithin(b, h, progress, realm, s1, c, done);
        CompleteWithin(b, h, progress, realm, s1, c.achievement, done);
      }
    }
  }

  // ---------- nothing earned is missed ----------

  /** The criterion asks for an achievement the player has. */
  predicate Linked(s: Log, c: Criterion) {
    c.goal.Link? && c.goal.linked in s.completed
  }

  /** The first `i` link criteria have been visited: those that ask for a completed achievement have progress. */
  ghost predicate Marked(b: Store, h: Hero, s: Log, rows: seq<Criterion>, i: nat) {
    forall k :: 0 <= k < i && k < |rows| && !Skipped(b, h, rows[k]) && Linked(s, rows[k]) ==> Level(s.progress, rows[k].id) >= 1
  }

  /** A link criterion of the achievement, still to be visited, asks for a completed achievement. */
  ghost predicate Ahead(s: Log, rows: seq<Criterion>, i: nat, a: nat) {
    exists j :: i <= j < |rows| && rows[j].achievement == a && Linked(s, rows[j])
  }

  /** What the first `i` link criteria could earn is earned, or will be looked at again. */
  ghost predicate Looked(b: Store, h: Hero, progress: map<nat, int>, realm: set<nat>, s: Log, rows: seq<Criterion>, i: nat) {
    forall k :: 0 <= k < i && k < |rows| && Earns(b, h, progress, realm, s.completed, rows[k]) && rows[k].achievement !in s.completed
      ==> Ahead(s, rows, i, rows[k].achievement)
  }

  ghost predicate Front(b: Store, h: Hero, progress: map<nat, int>, realm: set<nat>, s: Log, i: nat) {
    Steady(b, progress, realm, s) && Marked(b, h, s, Links(b.rows), i) && Looked(b, h, progress, realm, s, Links(b.rows), i)
  }

  ghost predicate Full(b: Store, h: Hero, progress: map<nat, int>, realm: set<nat>, s: Log) {
    Front(b, h, progress, realm, s, |Links(b.rows)|)
  }

  lemma {:induction false} FullIsFront(b: Store, h: Hero, progress: map<nat, int>, realm: set<nat>, s: Log, i: nat)
    requires Full(b, h, progress, realm, s)
    ensures Front(b, h, progress, realm, s, i)
  {
    var rows := Links(b.rows);
    forall k | 0 <= k < i && k < |rows| && Earns(b, h, progress, realm, s.completed, rows[k])
      ensures rows[k].achievement in s.completed
    {
      assert !Ahead(s, rows, |rows|, rows[k].achievement);
    }
  }

  lemma {:induction false} FullIsClosed(b: Store, h: Hero, progress: map<nat, int>, realm: set<nat>, s: Log)
    requires Full(b, h, progress, realm, s)
    ensures Closed(b, h, progress, realm, s.completed)
  {
    LinksMembers(b.rows);
    var rows := Links(b.rows);
    forall c | c in b.rows && c.goal.Link? && Earns(b, h, progress, realm, s.completed, c) ensures c.achievement in s.completed {
      assert c in rows;
      var k :| 0 <= k < |rows| && rows[k] == c;
      assert !Ahead(s, rows, |rows|, rows[k].achievement);
    }
  }

  /** Once every completed link of an unearned achievement has been visited, its criteria count exactly as they should. */
  lemma {:induction false} AllVisited(b: Store, h: Hero, progress: map<nat, int>, realm: set<nat>, s: Log, i: nat, a: nat)
    requires Steady(b, progress, realm, s) && Marked(b, h, s, Links(b.rows), i) && a !in s.completed
    requires !Ahead(s, Links(b.rows), i, a)
    requires forall c :: c in b.rows && c.achievement == a ==> !Skipped(b, h, c)
    ensures forall c :: c in b.rows && c.achievement == a ==> (IsCompleted(b, s, c) <==> Sat(b, progress, realm, s.completed, c))
  {
    LinksMembers(b.rows);
    var rows := Links(b.rows);
    forall c | c in b.rows && c.achievement == a && Linked(s, c) ensures Level(s.progress, c.id) >= 1 {
      assert c in rows;
      var k :| 0 <= k < |rows| && rows[k] == c;
      assert k < i;
    }
  }

  lemma {:induction false} RuleAgrees(b: Store, progress: map<nat, int>, realm: set<nat>, s: Log, a: nat)
    requires UniqueIds(b) && a in b.achievements
    requires forall c :: c in b.rows && c.achievement == a ==> (IsCompleted(b, s, c) <==> Sat(b, progress, realm, s.completed, c))
    ensures Rule(b, a, Done(b, s)) <==> Rule(b, a, Ideal(b, progress, realm, s.completed))
  {
    forall c | c in b.rows && c.achievement == a ensures c.id in Done(b, s) <==> c.id in Ideal(b, progress, realm, s.completed) {
      ById(b, progress, realm, s, c);
    }
    TallyAgrees(b.rows, a, Done(b, s), Ideal(b, progress, realm, s.completed));
  }

  lemma {:induction false} ById(b: Store, progress: map<nat, int>, realm: set<nat>, s: Log, c: Criterion)
    requires UniqueIds(b) && c in b.rows
    ensures c.id in Done(b, s) <==> IsCompleted(b, s, c)
    ensures c.id in Ideal(b, progress, realm, s.completed) <==> Sat(b, progress, realm, s.completed, c)
  {
  }

  /** A visited criterion that earns nothing leaves nothing behind: either nothing is due yet, or a later one will see to it. */
  lemma {:induction false} NothingDue(b: Store, h: Hero, progress: map<nat, int>, realm: set<nat>, s: Log, i: nat, a: nat)
    requires Steady(b, progress, realm, s) && Marked(b, h, s, Links(b.rows), i) && 0 < i <= |Links(b.rows)|
    requires a == Links(b.rows)[i - 1].achievement && a !in s.completed && !Ahead(s, Links(b.rows), i, a)
    requires Earns(b, h, progress, realm, s.completed, Links(b.rows)[i - 1])
    ensures IsCompleted(b, s, Links(b.rows)[i - 1]) && Rule(b, a, Done(b, s))
  {
    LinksMembers(b.rows);
    assert Links(b.rows)[i - 1] in Links(b.rows);
    AllVisited(b, h, progress, realm, s, i, a);
    RuleAgrees(b, progress, realm, s, a);
  }

  // ---------- visiting the link criteria keeps the front moving ----------

  lemma {:induction false} PassOver(b: Store, h: Hero, progress: map<nat, int>, realm: set<nat>, s: Log, i: nat)
    requires Front(b, h, progress, realm, s, i) && i < |Links(b.rows)|
    requires Skipped(b, h, Links(b.rows)[i]) || !Linked(s, Links(b.rows)[i])
    ensures Front(b, h, progress, realm, s, i + 1)
  {
    var rows := Links(b.rows);
    LinksMembers(b.rows);
    assert rows[i] in rows;
    forall k | 0 <= k < i + 1 && Earns(b, h, progress, realm, s.completed, rows[k]) && rows[k].achievement !in s.completed
      ensures Ahead(s, rows, i + 1, rows[k].achievement)
    {
      assert k < i && Ahead(s, rows, i, rows[k].achievement);
    }
  }

  lemma {:induction false} SetMarked(b: Store, h: Hero, s: Log, rows: seq<Criterion>, i: nat)
    requires Marked(b, h, s, rows, i) && i < |rows|
    ensures Marked(b, h, SetProgress(s, rows[i].id, 1), rows, i + 1)
  {
  }

  /** Visiting a linked criterion that completes nothing. */
  lemma {:induction false} Settled(b: Store, h: Hero, progress: map<nat, int>, realm: set<nat>, s: Log, s1: Log, i: nat)
    requires Front(b, h, progress, realm, s, i) && i < |Links(b.rows)| && Linked(s, Links(b.rows)[i]) && !Skipped(b, h, Links(b.rows)[i])
    requires s1 == SetProgress(s, Links(b.rows)[i].id, 1)
    requires var c := Links(b.rows)[i];
      c.achievement in s.completed || !IsCompleted(b, s1, c) || !Rule(b, c.achievement, Done(b, s1))
    ensures Front(b, h, progress, realm, s1, i + 1)
  {
    var rows := Links(b.rows);
    LinksMembers(b.rows);
    assert rows[i] in rows;
    SetSteady(b, progress, realm, s, rows[i]);
    SetMarked(b, h, s, rows, i);
    forall k | 0 <= k < i + 1 && Earns(b, h, progress, realm, s.completed, rows[k]) && rows[k].achievement !in s.completed
      ensures Ahead(s1, rows, i + 1, rows[k].achievement)
    {
      StillAhead(b, h, progress, realm, s, s1, i, k);
    }
  }

  lemma {:induction false} StillAhead(b: Store, h: Hero, progress: map<nat, int>, realm: set<nat>, s: Log, s1: Log, i: nat, k: nat)
    requires i < |Links(b.rows)| && Linked(s, Links(b.rows)[i]) && s1 == SetProgress(s, Links(b.rows)[i].id, 1)
    requires Looked(b, h, progress, realm, s, Links(b.rows), i)
    requires Steady(b, progress, realm, s1) && Marked(b, h, s1, Links(b.rows), i + 1)
    requires var c := Links(b.rows)[i];
      c.achievement in s.completed || !IsCompleted(b, s1, c) || !Rule(b, c.achievement, Done(b, s1))
    requires k <= i && Earns(b, h, progress, realm, s.completed, Links(b.rows)[k]) && Links(b.rows)[k].achievement !in s.completed
    ensures Ahead(s1, Links(b.rows), i + 1, Links(b.rows)[k].achievement)
  {
    var rows := Links(b.rows);
    if rows[k].achievement == rows[i].achievement {
      if !Ahead(s1, rows, i + 1, rows[i].achievement) {
        NothingDue(b, h, progress, realm, s1, i + 1, rows[i].achievement);
      }
    } else {
      assert Ahead(s, rows, i, rows[k].achievement);
    }
  }

  /** The criterion is completed and makes its achievement due. */
  predicate Due(b: Store, s: Log, c: Criterion) {
    IsCompleted(b, s, c) && c.achievement !in s.completed && Rule(b, c.achievement, Done(b, s))
  }

  lemma {:induction false} RowPasses(b: Store, h: Hero, s: Log, c: Criterion)
    requires c.goal.Link? && (Skipped(b, h, c) || !Linked(s, c))
    ensures UpdateRow(b, h, s, c) == s
  {
  }

  lemma {:induction false} RowActs(b: Store, h: Hero, s: Log, c: Criterion, s1: Log)
    requires c in b.rows && !Skipped(b, h, c) && Linked(s, c) && s1 == SetProgress(s, c.id, 1)
    ensures UpdateRow(b, h, s, c) == if Due(b, s1, c) then Complete(b, h, s1, c.achievement) else s1
  {
    if IsCompleted(b, s1, c) && c.completesAll {
      Settles(b, s1, c);
    }
    assert UpdateRow(b, h, s, c) == CompleteRow(b, h, s1, c);
    if c.achievement in s1.completed && c.achievement in b.achievements {
      assert Complete(b, h, s1, c.achievement) == s1;
    }
  }

  lemma {:induction false} RowFront(b: Store, h: Hero, progress: map<nat, int>, realm: set<nat>, s: Log, i: nat)
    requires !h.exempt && Front(b, h, progress, realm, s, i) && i < |Links(b.rows)|
    ensures Front(b, h, progress, realm, UpdateRow(b, h, s, Links(b.rows)[i]), i + 1)
    decreases Missing(b, s), 0, 2
  {
    var c := Links(b.rows)[i];
    LinksMembers(b.rows);
    assert c in Links(b.rows);
    if Skipped(b, h, c) || !Linked(s, c) {
      RowPasses(b, h, s, c);
      PassOver(b, h, progress, realm, s, i);
    } else {
      var s1 := SetProgress(s, c.id, 1);
      RowActs(b, h, s, c, s1);
      if Due(b, s1, c) {
        SetSteady(b, progress, realm, s, c);
        CompleteFull(b, h, progress, realm, s1, c.achievement);
        FullIsFront(b, h, progress, realm, Complete(b, h, s1, c.achievement), i + 1);
      } else {
        Settled(b, h, progress, realm, s, s1, i);
      }
    }
  }

  lemma {:induction false} RowsFull(b: Store, h: Hero, progress: map<nat, int>, realm: set<nat>, s: Log, i: nat)
    requires !h.exempt && Front(b, h, progress, realm, s, i) && i <= |Links(b.rows)|
    ensures Full(b, h, progress, realm, UpdateRows(b, h, s, Links(b.rows)[i..]))
    decreases Missing(b, s), |Links(b.rows)| - i, 3
  {
    var rows := Links(b.rows);
    if i < |rows| {
      assert rows[i..][0] == rows[i] && rows[i..][1..] == rows[i + 1..];
      RowFront(b, h, progress, realm, s, i);
      RowsFull(b, h, progress, realm, UpdateRow(b, h, s, rows[i]), i + 1);
    } else {
      assert rows[i..] == [];
    }
  }

  lemma {:induction false} RewardFull(b: Store, h: Hero, progress: map<nat, int>, realm: set<nat>, s: Log, a: nat)
    requires Full(b, h, progress, realm, s)
    ensures Full(b, h, progress, realm, GiveReward(h, s, a))
  {
    var rows := Links(b.rows);
    var t := GiveReward(h, s, a);
    forall k | 0 <= k < |rows| && Earns(b, h, progress, realm, t.completed, rows[k])
      ensures rows[k].achievement in t.completed
    {
      assert !Ahead(s, rows, |rows|, rows[k].achievement);
    }
  }

  /** After an achievement is completed, nothing it makes due is missing. */
  lemma {:induction false} CompleteFull(b: Store, h: Hero, progress: map<nat, int>, realm: set<nat>, s: Log, a: nat)
    requires !h.exempt && Steady(b, progress, realm, s)
    requires a in b.achievements && !b.achievements[a].counter && a !in s.completed
    ensures Full(b, h, progress, realm, Complete(b, h, s, a))
    decreases Missing(b, s), 0, 0
  {
    var s1 := s.(completed := s.completed + {a}, realm := s.realm + {a});
    MissingLess(b, s, a);
    AddSteady(b, progress, realm, s, a);
    assert Links(b.rows)[0..] == Links(b.rows);
    RowsFull(b, h, progress, realm, s1, 0);
    RewardFull(b, h, progress, realm, UpdateRows(b, h, s1, Links(b.rows)), a);
  }

  /**
   Completing an achievement stores exactly the smallest set that contains the old achievements and
   the new one and is closed under the rules: nothing earned is missing, nothing else is there.
   */
  lemma {:induction false} CascadeIsLeastFixpoint(b: Store, h: Hero, s: Log, a: nat)
    requires UniqueIds(b) && !h.exempt
    requires a in b.achievements && !b.achievements[a].counter && a !in s.completed
    ensures var r := Complete(b, h, s, a);
      && s.completed + {a} <= r.completed
      && Closed(b, h, s.progress, s.realm, r.completed)
      && forall done: set<nat> :: s.completed + {a} <= done && Closed(b, h, s.progress, s.realm, done) ==> r.completed <= done
  {
    var r := Complete(b, h, s, a);
    CompleteFull(b, h, s.progress, s.realm, s, a);
    FullIsClosed(b, h, s.progress, s.realm, r);
    forall done: set<nat> | s.completed + {a} <= done && Closed(b, h, s.progress, s.realm, done) ensures r.completed <= done {
      CompleteWithin(b, h, s.progress, s.realm, s, a, done);
    }
  }

  /** The same holds for one pass over all link criteria, as made at login: it closes what the player has, and adds nothing else. */
  lemma {:induction false} LoginCloses(b: Store, h: Hero, s: Log)
    requires UniqueIds(b) && !h.exempt
    ensures var r := UpdateRows(b, h, s, Links(b.rows));
      && s.completed <= r.completed
      && Closed(b, h, s.progress, s.realm, r.completed)
      && forall done: set<nat> :: s.completed <= done && Closed(b, h, s.progress, s.realm, done) ==> r.completed <= done
  {
    assert Links(b.rows)[0..] == Links(b.rows);
    RowsFull(b, h, s.progress, s.realm, s, 0);
    FullIsClosed(b, h, s.progress, s.realm, UpdateRows(b, h, s, Links(b.rows)));
    LinksMembers(b.rows);
    forall done: set<nat> | s.completed <= done && Closed(b, h, s.progress, s.realm, done)
      ensures UpdateRows(b, h, s, Links(b.rows)).completed <= done
    {
      RowsWithin(b, h, s.progress, s.realm, s, Links(b.rows), done);
    }
  }

  // ---------- only what is open is added ----------

  /** Beyond `before` and `root` there are only achievements open to the player. */
  ghost predicate OpenOnly(b: Store, h: Hero, before: set<nat>, root: set<nat>, after: set<nat>) {
    forall x :: x in after && x !in before && x !in root ==> Open(b, h, x)
  }

  /** Besides the achievement completed itself, the cascade adds none of the other faction and no counter. */
  lemma {:induction false} CascadeOpenOnly(b: Store, h: Hero, s: Log, a: nat)
    requires a in b.achievements
    ensures OpenOnly(b, h, s.completed, {a}, Complete(b, h, s, a).completed)
    decreases Missing(b, s), 0, 0
  {
    if !b.achievements[a].counter && a !in s.completed {
      var s1 := s.(completed := s.completed + {a}, realm := s.realm + {a});
      MissingLess(b, s, a);
      if !h.exempt { PassOpenOnly(b, h, s1, Links(b.rows)); }
    }
  }

  /** A pass over criteria, as made at login, adds none of the other faction and no counter. */
  lemma {:induction false} PassOpenOnly(b: Store, h: Hero, s: Log, rows: seq<Criterion>)
    ensures OpenOnly(b, h, s.completed, {}, UpdateRows(b, h, s, rows).completed)
    decreases Missing(b, s), |rows|, 3
  {
    if rows != [] {
      RowOpenOnly(b, h, s, rows[0]);
      PassOpenOnly(b, h, UpdateRow(b, h, s, rows[0]), rows[1..]);
    }
  }

  lemma {:induction false} RowOpenOnly(b: Store, h: Hero, s: Log, c: Criterion)
    ensures OpenOnly(b, h, s.completed, {}, UpdateRow(b, h, s, c).completed)
    decreases Missing(b, s), 0, 2
  {
    if !Skipped(b, h, c) {
      var s1 := if c.goal.Link? && c.goal.linked in s.completed then SetProgress(s, c.id, 1) else s;
      CascadeOpenOnly(b, h, s1, c.achievement);
    }
  }

  // ---------- what else the cascade leaves behind ----------

  /** The realm's completed achievements grow by exactly the player's new ones. */
  ghost predicate RealmFollows(s: Log, r: Log) {
    forall x :: x in r.realm <==> x in s.realm || (x in r.completed && x !in s.completed)
  }

  lemma {:induction false} CascadeRealm(b: Store, h: Hero, s: Log, a: nat)
    requires a in b.achievements
    ensures RealmFollows(s, Complete(b, h, s, a))
    decreases Missing(b, s), 0, 0
  {
    if !b.achievements[a].counter && a !in s.completed {
      var s1 := s.(completed := s.completed + {a}, realm := s.realm + {a});
      MissingLess(b, s, a);
      if !h.exempt { PassRealm(b, h, s1, Links(b.rows)); }
    }
  }

  lemma {:induction false} PassRealm(b: Store, h: Hero, s: Log, rows: seq<Criterion>)
    ensures RealmFollows(s, UpdateRows(b, h, s, rows))
    decreases Missing(b, s), |rows|, 3
  {
    if rows != [] {
      RowRealm(b, h, s, rows[0]);
      PassRealm(b, h, UpdateRow(b, h, s, rows[0]), rows[1..]);
    }
  }

  lemma {:induction false} RowRealm(b: Store, h: Hero, s: Log, c: Criterion)
    ensures RealmFollows(s, UpdateRow(b, h, s, c))
    decreases Missing(b, s), 0, 2
  {
    if !Skipped(b, h, c) {
      var s1 := if c.goal.Link? && c.goal.linked in s.completed then SetProgress(s, c.id, 1) else s;
      CascadeRealm(b, h, s1, c.achievement);
    }
  }

  /** Progress changed only on criteria that ask for a now completed achievement and whose own is open to the player: to 1. */
  ghost predicate LinksOnly(b: Store, h: Hero, s: Log, r: Log) {
    s.completed <= r.completed && forall c :: c in b.rows && Level(r.progress, c.id) != Level(s.progress, c.id) ==>
      c.goal.Link? && Open(b, h, c.achievement) && c.goal.linked in r.completed && Level(r.progress, c.id) == 1
  }

  lemma {:induction false} LinksOnlyMore(b: Store, h: Hero, s: Log, t: Log, r: Log)
    requires LinksOnly(b, h, s, t) && LinksOnly(b, h, t, r)
    ensures LinksOnly(b, h, s, r)
  {
  }

  lemma {:induction false} CascadeLinksOnly(b: Store, h: Hero, s: Log, a: nat)
    requires UniqueIds(b) && a in b.achievements
    ensures LinksOnly(b, h, s, Complete(b, h, s, a))
    decreases Missing(b, s), 0, 0
  {
    if !b.achievements[a].counter && a !in s.completed {
      var s1 := s.(completed := s.completed + {a}, realm := s.realm + {a});
      MissingLess(b, s, a);
      LinksMembers(b.rows);
      if !h.exempt { PassLinksOnly(b, h, s1, Links(b.rows)); }
    }
  }

  lemma {:induction false} PassLinksOnly(b: Store, h: Hero, s: Log, rows: seq<Criterion>)
    requires UniqueIds(b) && forall c :: c in rows ==> c in b.rows
    ensures LinksOnly(b, h, s, UpdateRows(b, h, s, rows))
    decreases Missing(b, s), |rows|, 3
  {
    if rows != [] {
      var t := UpdateRow(b, h, s, rows[0]);
      RowLinksOnly(b, h, s, rows[0]);
      PassLinksOnly(b, h, t, rows[1..]);
      LinksOnlyMore(b, h, s, t, UpdateRows(b, h, t, rows[1..]));
    }
  }

  lemma {:induction false} RowLinksOnly(b: Store, h: Hero, s: Log, c: Criterion)
    requires UniqueIds(b) && c in b.rows
    ensures LinksOnly(b, h, s, UpdateRow(b, h, s, c))
    decreases Missing(b, s), 0, 2
  {
    if !Skipped(b, h, c) {
      var s1 := if c.goal.Link? && c.goal.linked in s.completed then SetProgress(s, c.id, 1) else s;
      assert LinksOnly(b, h, s, s1);
      CascadeLinksOnly(b, h, s1, c.achievement);
      LinksOnlyMore(b, h, s, s1, Complete(b, h, s1, c.achievement));
    }
  }

  /**
   After an achievement is completed, every criterion that asks for a completed achievement, where the
   player's faction may earn it, has progress, and no other criterion has changed.
   */
  lemma {:induction false} CascadeProgress(b: Store, h: Hero, s: Log, a: nat, c: Criterion)
    requires UniqueIds(b) && !h.exempt && c in b.rows
    requires a in b.achievements && !b.achievements[a].counter && a !in s.completed
    ensures var r := Complete(b, h, s, a);
      && (c.goal.Link? && Open(b, h, c.achievement) && c.goal.linked in r.completed ==> Level(r.progress, c.id) >= 1)
      && (!(c.goal.Link? && Open(b, h, c.achievement) && c.goal.linked in r.completed) ==>
            Level(r.progress, c.id) == Level(s.progress, c.id))
  {
    var r, rows := Complete(b, h, s, a), Links(b.rows);
    CompleteFull(b, h, s.progress, s.realm, s, a);
    CascadeLinksOnly(b, h, s, a);
    LinksMembers(b.rows);
    if c.goal.Link? && Open(b, h, c.achievement) && c.goal.linked in r.completed {
      assert c in rows;
      var k :| 0 <= k < |rows| && rows[k] == c;
      assert Linked(r, rows[k]) && !Skipped(b, h, rows[k]);
    }
  }

  /** An exempt player completes the achievement alone, a counter or one already completed changes nothing. */
  lemma {:induction false} CompleteAlone(b: Store, h: Hero, s: Log, a: nat)
    requires a in b.achievements
    ensures b.achievements[a].counter || a in s.completed ==> Complete(b, h, s, a) == s
    ensures h.exempt && !b.achievements[a].counter ==>
      Complete(b, h, s, a).completed == s.completed + {a} && Complete(b, h, s, a).progress == s.progress
  {
    if a in s.completed { assert s.completed + {a} == s.completed; }
  }

  // ---------- what the rule asks ----------

  /** The positions in the table of the achievement's criteria that are done. */
  function DoneOf(rows: seq<Criterion>, a: nat, done: set<nat>): set<nat> {
    set k: nat | k < |rows| && rows[k].achievement == a && rows[k].id in done
  }

  lemma {:induction false} DoneOfSnoc(rows: seq<Criterion>, a: nat, done: set<nat>)
    requires rows != []
    ensures var n := |rows| - 1;
      |DoneOf(rows, a, done)| == |DoneOf(rows[..n], a, done)| + (if rows[n].achievement == a && rows[n].id in done then 1 else 0)
  {
    var n := |rows| - 1;
    var now := if rows[n].achievement == a && rows[n].id in done then {n} else {};
    assert DoneOf(rows, a, done) == DoneOf(rows[..n], a, done) + now;
  }

  lemma {:induction false} TalliedIs(rows: seq<Criterion>, a: nat, done: set<nat>)
    ensures var t := Tallied(rows, a, done);
      && t.done == |DoneOf(rows, a, done)|
      && (t.outstanding <==> exists c :: c in rows && c.achievement == a && c.id !in done)
      && (t.settled <==> exists c :: c in rows && c.achievement == a && c.id in done && c.completesAll)
  {
    if rows == [] {
      assert DoneOf(rows, a, done) == {};
    } else {
      var n := |rows| - 1;
      TalliedIs(rows[..n], a, done);
      DoneOfSnoc(rows, a, done);
      assert forall c :: c in rows <==> c in rows[..n] || c == rows[n];
    }
  }

  /**
   The rule is met exactly when one done criterion suffices alone, or all of the achievement's criteria
   are done, or as many as the achievement asks for if it asks for more than one.
   */
  lemma {:induction false} RuleMeans(b: Store, a: nat, done: set<nat>)
    requires a in b.achievements
    ensures Rule(b, a, done) <==>
      || (exists c :: c in b.rows && c.achievement == a && c.id in done && c.completesAll)
      || (forall c :: c in b.rows && c.achievement == a ==> c.id in done)
      || (b.achievements[a].count > 1 && |DoneOf(b.rows, a, done)| >= b.achievements[a].count)
  {
    TalliedIs(b.rows, a, done);
  }

  // ---------- rewards ----------

  /**
   Beyond the earlier rewards, each newly completed achievement is rewarded exactly once and nothing else is;
   while the character is loading nothing is rewarded at all.
   */
  ghost predicate RewardedOnce(h: Hero, s: Log, r: Log) {
    forall x :: multiset(r.rewarded)[x] ==
      multiset(s.rewarded)[x] + (if !h.loading && x in r.completed && x !in s.completed then 1 else 0)
  }

  lemma {:induction false} CompleteRewards(b: Store, h: Hero, s: Log, a: nat)
    requires a in b.achievements
    ensures RewardedOnce(h, s, Complete(b, h, s, a))
    decreases Missing(b, s), 0, 0
  {
    if !b.achievements[a].counter && a !in s.completed {
      var s1 := s.(completed := s.completed + {a}, realm := s.realm + {a});
      MissingLess(b, s, a);
      if !h.exempt {
        RowsReward(b, h, s1, Links(b.rows));
      }
    }
  }

  lemma {:induction false} RowsReward(b: Store, h: Hero, s: Log, rows: seq<Criterion>)
    ensures RewardedOnce(h, s, UpdateRows(b, h, s, rows))
    decreases Missing(b, s), |rows|, 3
  {
    if rows != [] {
      RowReward(b, h, s, rows[0]);
      RowsReward(b, h, UpdateRow(b, h, s, rows[0]), rows[1..]);
    }
  }

  lemma {:induction false} RowReward(b: Store, h: Hero, s: Log, c: Criterion)
    ensures RewardedOnce(h, s, UpdateRow(b, h, s, c))
    decreases Missing(b, s), 0, 2
  {
    if !Skipped(b, h, c) {
      var s1 := if c.goal.Link? && c.goal.linked in s.completed then SetProgress(s, c.id, 1) else s;
      CompleteRewards(b, h, s1, c.achievement);
    }
  }
}
