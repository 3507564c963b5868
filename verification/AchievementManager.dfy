/** The achievement manager of one player: its mutually recursive methods refine the cascade. */
module AchievementManager {
  import opened Achievements
  import AchievementFixpoint

  /** Achievements completed by anyone, shared by all players. */
  class Realm {
    var allCompleted: set<nat>

    constructor ()
      ensures allCompleted == {}
    {
      allCompleted := {};
    }
  }

  class AchievementMgr {
    const store: Store
    const player: Hero
    const realm: Realm
    var criteriaProgress: map<nat, int>
    var completedAchievements: set<nat>
    var rewarded: seq<nat>

    constructor (store: Store, player: Hero, realm: Realm)
      ensures this.store == store && this.player == player && this.realm == realm
      ensures criteriaProgress == map[] && completedAchievements == {} && rewarded == []
    {
      this.store, this.player, this.realm := store, player, realm;
      criteriaProgress, completedAchievements, rewarded := map[], {}, [];
    }

    /** The state as the cascade functions see it. */
    function S(): Log
      reads this, realm
    {
      Log(criteriaProgress, completedAchievements, realm.allCompleted, rewarded)
    }

    method SetCriteriaProgress(id: nat, newValue: int)
      modifies this`criteriaProgress
      ensures S() == SetProgress(old(S()), id, newValue)
      ensures newValue >= 1 ==> Level(criteriaProgress, id) == newValue
      ensures forall d :: d != id ==> Level(criteriaProgress, d) == Level(old(criteriaProgress), d)
    {
      if id !in criteriaProgress {
        if newValue < 1 { return; }
        criteriaProgress := criteriaProgress[id := newValue];
      } else {
        if criteriaProgress[id] == newValue {
          assert criteriaProgress[id := newValue] == criteriaProgress;
          return;
        }
        criteriaProgress := criteriaProgress[id := newValue];
      }
    }

    method IsCompletedCriteria(c: Criterion) returns (yes: bool)
      ensures yes <==> IsCompleted(store, S(), c)
      ensures AchievementFixpoint.UniqueIds(store) && c in store.rows ==> (yes <==> c.id in Done(store, S()))
    {
      if AchievementFixpoint.UniqueIds(store) && c in store.rows { ById(c); }
      if c.achievement !in store.achievements { return false; }
      var a := store.achievements[c.achievement];
      if a.counter { return false; }
      if a.realmFirst && c.achievement in realm.allCompleted { return false; }
      if c.id !in criteriaProgress || criteriaProgress[c.id] < 1 { return false; }
      match c.goal
      case Link(linked) => return linked in completedAchievements;
      case Reach(needed, gate) => return gate && criteriaProgress[c.id] >= needed;
    }

    /** Would the achievement be completed now? Criteria are looked at in table order until the answer is known. */
    method CompletedNotStored(a: nat) returns (yes: bool)
      requires a in store.achievements && AchievementFixpoint.UniqueIds(store)
      ensures yes <==> a !in completedAchievements && Rule(store, a, Done(store, S()))
    {
      if a in completedAchievements { return false; }
      var count, outstanding, i := 0, false, 0;
      ghost var done := Done(store, S());
      while i < |store.rows|
        invariant 0 <= i <= |store.rows|
        invariant Tallied(store.rows[..i], a, done) == Tally(count, outstanding, false)
      {
        var c := store.rows[i];
        ById(c);
        assert store.rows[..i + 1][..i] == store.rows[..i];
        if c.achievement == a {
          var met := IsCompletedCriteria(c);
          if met && c.completesAll {
            AchievementFixpoint.TallySettles(store.rows, a, done, c);
            return true;
          }
          if met { count := count + 1; } else { outstanding := true; }
        }
        i := i + 1;
      }
      assert store.rows[..i] == store.rows;
      return !outstanding || (store.achievements[a].count > 1 && count >= store.achievements[a].count);
    }

    lemma {:induction false} ById(c: Criterion)
      requires AchievementFixpoint.UniqueIds(store) && c in store.rows
      ensures c.id in Done(store, S()) <==> IsCompleted(store, S(), c)
    {
    }

    method CompletedAchievement(a: nat)
      requires a in store.achievements && AchievementFixpoint.UniqueIds(store)
      modifies this, realm
      ensures S() == Complete(store, player, old(S()), a)
      decreases Missing(store, S()), 0, 0
    {
      if store.achievements[a].counter || a in completedAchievements { return; }
      MissingLess(store, S(), a);
      completedAchievements := completedAchievements + {a};
      realm.allCompleted := realm.allCompleted + {a};
      UpdateLinkCriteria();
      GiveAchievementReward(a);
    }

    method GiveAchievementReward(a: nat)
      modifies this`rewarded
      ensures S() == GiveReward(player, old(S()), a)
    {
      if player.loading { return; }
      rewarded := rewarded + [a];
    }

    /** UpdateAchievementCriteria for the criteria that ask for another achievement. */
    method UpdateLinkCriteria()
      requires AchievementFixpoint.UniqueIds(store)
      modifies this, realm
      ensures S() == if player.exempt then old(S()) else UpdateRows(store, player, old(S()), Links(store.rows))
      decreases Missing(store, S()), |Links(store.rows)| + 1, 4
    {
      if player.exempt { return; }
      var rows, i := Links(store.rows), 0;
      while i < |rows|
        invariant 0 <= i <= |rows|
        invariant Missing(store, S()) <= old(Missing(store, S()))
        invariant UpdateRows(store, player, S(), rows[i..]) == UpdateRows(store, player, old(S()), rows)
      {
        Visit(rows[i]);
        assert rows[i..][1..] == rows[i + 1..];
        i := i + 1;
      }
      assert rows[i..] == [];
    }

    method Visit(c: Criterion)
      requires AchievementFixpoint.UniqueIds(store)
      modifies this, realm
      ensures S() == UpdateRow(store, player, old(S()), c)
      decreases Missing(store, S()), 0, 2
    {
      if Skipped(store, player, c) { return; }
      if c.goal.Link? && c.goal.linked in completedAchievements {
        SetCriteriaProgress(c.id, 1);
      }
      CompletedCriteria(c);
    }

    method CompletedCriteria(c: Criterion)
      requires AchievementFixpoint.UniqueIds(store)
      modifies this, realm
      ensures S() == CompleteRow(store, player, old(S()), c)
      decreases Missing(store, S()), 0, 1
    {
      var met := IsCompletedCriteria(c);
      if !met { return; }
      if c.completesAll {
        CompletedAchievement(c.achievement);
      } else {
        var due := CompletedNotStored(c.achievement);
        if due {
          CompletedAchievement(c.achievement);
        }
      }
    }
  }
}
