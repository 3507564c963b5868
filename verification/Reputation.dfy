/**
 Faction standings, and the notifications that keep the achievement system's count of exalted
 factions in step with a full recount.
 */
module Reputation {
  const LEAST: int := -42000
  const EXALTED: int := 42000
  const MOST: int := 42999

  datatype Rank = Hated | Hostile | Unfriendly | Neutral | Friendly | Honored | Revered | Exalted

  type Standings = map<nat, int>

  function RankOf(standing: int): Rank {
    if standing >= 42000 then Exalted
    else if standing >= 21000 then Revered
    else if standing >= 9000 then Honored
    else if standing >= 3000 then Friendly
    else if standing >= 0 then Neutral
    else if standing > -3000 then Unfriendly
    else if standing > -6000 then Hostile
    else Hated
  }

  function Clamp(standing: int): int {
    if standing < LEAST then LEAST else if standing > MOST then MOST else standing
  }

  /** Division that truncates toward zero. */
  function Truncated(x: int, d: nat): int
    requires d > 0
  {
    if x >= 0 then x / d else -((-x) / d)
  }

  function Adjusted(value: int, pct: int): int {
    if pct > 0 then value + Truncated(value * pct, 100) else value
  }

  /**
   `pct` is the player's bonus at the time; `known` says that the faction exists and has standings,
   `open` that this race and class can have one with it.
   */
  datatype Change = Change(faction: nat, value: int, pct: int, known: bool, open: bool)

  function ModStanding(s: Standings, c: Change): Standings {
    if !c.known then s
    else if c.faction !in s then (if c.open then s[c.faction := Clamp(c.value)] else s)
    else s[c.faction := Clamp(s[c.faction] + Adjusted(c.value, c.pct))]
  }

  /** The notification a change of standing sends: +1 for a faction that became exalted, -1 for one lost. */
  function Notice(s: Standings, c: Change): int {
    if !c.known then 0
    else if c.faction !in s then (if c.open && Clamp(c.value) >= EXALTED then 1 else 0)
    else
      var now, change := s[c.faction], Adjusted(c.value, c.pct);
      if RankOf(now) == RankOf(now + change) then 0
      else if now + change >= EXALTED then 1
      else if now >= EXALTED then -1
      else 0
  }

  function ExaltedIn(s: Standings): set<nat> {
    set f | f in s && s[f] >= EXALTED
  }

  function ExaltedCount(s: Standings): nat {
    |ExaltedIn(s)|
  }

  ghost predicate InRange(s: Standings) {
    forall f :: f in s ==> LEAST <= s[f] <= MOST
  }

  lemma {:induction false} CountUpdate(s: Standings, f: nat, v: int)
    ensures ExaltedCount(s[f := v]) + (if f in s && s[f] >= EXALTED then 1 else 0)
         == ExaltedCount(s) + (if v >= EXALTED then 1 else 0)
  {
    var before, after := ExaltedIn(s), ExaltedIn(s[f := v]);
    Differ(before, after, f);
    assert f in before <==> f in s && s[f] >= EXALTED;
    assert f in after <==> v >= EXALTED;
  }

  lemma {:induction false} Differ(a: set<nat>, b: set<nat>, f: nat)
    requires forall x :: x != f ==> (x in a <==> x in b)
    ensures |a| + (if f in b then 1 else 0) == |b| + (if f in a then 1 else 0)
  {
    var common := a - {f};
    assert b - {f} == common;
    assert a == if f in a then common + {f} else common;
    assert b == if f in b then common + {f} else common;
  }

  lemma {:induction false} StepNotices(s: Standings, c: Change)
    requires InRange(s)
    ensures InRange(ModStanding(s, c))
    ensures ExaltedCount(ModStanding(s, c)) == ExaltedCount(s) + Notice(s, c)
  {
    if c.known && (c.faction in s || c.open) {
      CountUpdate(s, c.faction, ModStanding(s, c)[c.faction]);
    }
  }

  /** The standing of the bounds nearest to `x`. */
  ghost predicate Nearest(x: int, v: int) {
    -42000 <= v <= 42999 && (-42000 <= x <= 42999 ==> v == x) && (x < -42000 ==> v == -42000) && (x > 42999 ==> v == 42999)
  }

  /**
   A known faction with a standing moves by the value and a bonus of `pct` percent of it, rounded toward
   zero and none for a negative percentage; the standing stops at the bounds, and no other one moves.
   */
  lemma {:induction false} StandingMoves(s: Standings, c: Change) returns (bonus: int)
    requires c.known && c.faction in s
    ensures c.pct <= 0 ==> bonus == 0
    ensures c.pct > 0 && c.value >= 0 ==> 0 <= c.value * c.pct - 100 * bonus < 100
    ensures c.pct > 0 && c.value < 0 ==> -100 < c.value * c.pct - 100 * bonus <= 0
    ensures var s' := ModStanding(s, c); s' == s[c.faction := s'[c.faction]] && Nearest(s[c.faction] + c.value + bonus, s'[c.faction])
  {
    bonus := Adjusted(c.value, c.pct) - c.value;
    if c.pct > 0 { SignOfProduct(c.value, c.pct); }
  }

  lemma {:induction false} SignOfProduct(x: int, y: int)
    requires y > 0
    ensures x >= 0 ==> x * y >= 0
    ensures x < 0 ==> x * y < 0
  {
  }

  /** A first standing with a faction starts from zero, if this race and class can have one; unknown factions change nothing. */
  lemma {:induction false} FirstStanding(s: Standings, c: Change)
    requires !c.known || c.faction !in s
    ensures var s' := ModStanding(s, c);
      if c.known && c.open then s' == s[c.faction := s'[c.faction]] && Nearest(c.value, s'[c.faction]) else s' == s
  {
  }

  function End(s: Standings, run: seq<Change>): Standings {
    if run == [] then s else ModStanding(End(s, run[..|run| - 1]), run[|run| - 1])
  }

  function Notices(s: Standings, run: seq<Change>): int {
    if run == [] then 0
    else Notices(s, run[..|run| - 1]) + Notice(End(s, run[..|run| - 1]), run[|run| - 1])
  }

  /** Over any run of changes the notifications add up to the change in the recount, and standings stay within bounds. */
  lemma {:induction false} NoticesMatchRecount(s: Standings, run: seq<Change>)
    requires InRange(s)
    ensures InRange(End(s, run))
    ensures ExaltedCount(End(s, run)) == ExaltedCount(s) + Notices(s, run)
  {
    if run != [] {
      NoticesMatchRecount(s, run[..|run| - 1]);
      StepNotices(End(s, run[..|run| - 1]), run[|run| - 1]);
    }
  }

  // ---------- setting a standing outright ----------

  /** SetStanding compares the difference with the exalted threshold, not the old standing. */
  function SetNotice(old_: int, new_: int): int {
    if RankOf(old_) == RankOf(new_) then 0
    else if old_ - new_ >= EXALTED then -1
    else if new_ >= EXALTED then 1
    else 0
  }

  /**
   Setting a known faction's standing notifies rightly exactly when it neither takes exalted status away
   by less than 42000 points nor drops a lesser standing by at least 42000.
   */
  lemma {:induction false} SetNoticeRightIff(s: Standings, f: nat, v: int)
    requires InRange(s) && f in s
    ensures ExaltedCount(s[f := Clamp(v)]) == ExaltedCount(s) + SetNotice(s[f], Clamp(v))
      <==> (s[f] >= EXALTED && Clamp(v) < EXALTED <==> s[f] - Clamp(v) >= EXALTED)
  {
    CountUpdate(s, f, Clamp(v));
  }

  // ---------- the player object ----------

  class PlayerReputation {
    var standings: Standings
    var noticed: int

    method ModifyStanding(c: Change)
      modifies this
      ensures standings == ModStanding(old(standings), c)
      ensures noticed == old(noticed) + Notice(old(standings), c)
    {
      if !c.known { return; }
      if c.faction !in standings {
        var value := c.value;
        if value < LEAST {
          value := LEAST;
        } else if value > MOST {
          value := MOST;
        }
        if !c.open { return; }
        standings := standings[c.faction := value];
        if value >= EXALTED {
          noticed := noticed + 1;
        }
      } else {
        var change := Adjusted(c.value, c.pct);
        var now := standings[c.faction] + change;
        if RankOf(standings[c.faction]) != RankOf(now) {
          if now >= EXALTED {
            noticed := noticed + 1;
          } else if now - change >= EXALTED {
            noticed := noticed - 1;
          }
        }
        if now < LEAST {
          now := LEAST;
        } else if now > MOST {
          now := MOST;
        }
        standings := standings[c.faction := now];
      }
    }

    method GetExaltedCount() returns (n: nat)
      ensures n == ExaltedCount(standings)
    {
      n := 0;
      var left := standings.Keys;
      ghost var seen: set<nat> := {};
      while left != {}
        invariant left <= standings.Keys
        invariant seen == set f | f in standings && f !in left && standings[f] >= EXALTED
        invariant n == |seen|
      {
        var f :| f in left;
        if standings[f] >= EXALTED {
          n := n + 1;
          seen := seen + {f};
        }
        left := left - {f};
      }
      assert seen == ExaltedIn(standings);
    }
  }
}
