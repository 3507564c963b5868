/**
 Filling a corpse or chest: rolled items are merged into earlier stacks where they fit, and more than
 sixteen items are trimmed by throwing away the least valuable.
 */
module LootFill {
  import opened Basics

  const MAX_ITEMS: nat := 16

  datatype Proto = Proto(id: nat, quality: nat, quest: bool, maxCount: nat, unique: nat)

  datatype Item = Item(proto: Proto, count: nat)

  /** An entry of a loot table with the outcome of its rolls: whether it drops, and how much above the least count. */
  datatype Entry = Entry(proto: Option<Proto>, drops: bool, mincount: nat, maxcount: nat, extra: nat)

  function Rolled(e: Entry): nat {
    if e.mincount == e.maxcount then e.maxcount else U32(e.extra + e.mincount)
  }

  predicate Fits(i: Item, p: Proto, count: nat) {
    && i.proto == p && p.maxCount != 0 && U32(i.count + count) < p.maxCount
    && (p.unique != 0 ==> U32(i.count + count) < p.unique)
  }

  /** The first stack the count fits on, or the number of items. */
  function Stack(items: seq<Item>, p: Proto, count: nat): (i: nat)
    ensures i <= |items|
    ensures i < |items| ==> Fits(items[i], p, count)
    ensures forall k :: 0 <= k < i ==> !Fits(items[k], p, count)
  {
    if items == [] || Fits(items[0], p, count) then 0 else 1 + Stack(items[1..], p, count)
  }

  function Place(items: seq<Item>, p: Proto, count: nat): seq<Item> {
    var i := Stack(items, p, count);
    if i < |items| then items[i := items[i].(count := U32(items[i].count + count))] else items + [Item(p, count)]
  }

  predicate Drops(e: Entry) {
    e.proto.Some? && e.drops
  }

  function Fill(items: seq<Item>, es: seq<Entry>): seq<Item>
    decreases |es|
  {
    if es == [] then items
    else Fill(if Drops(es[0]) then Place(items, es[0].proto.value, Rolled(es[0])) else items, es[1..])
  }

  /** The first item, unless a later item that is not for a quest is of strictly lower quality. */
  function Victim(items: seq<Item>, v: nat, i: nat): (r: nat)
    requires v < |items| && i <= |items|
    ensures r < |items|
    decreases |items| - i
  {
    if i == |items| then v
    else Victim(items, if items[v].proto.quality > items[i].proto.quality && !items[i].proto.quest then i else v, i + 1)
  }

  function Without(items: seq<Item>, v: nat): seq<Item>
    requires v < |items|
  {
    items[..v] + items[v + 1..]
  }

  function Trim(items: seq<Item>): seq<Item>
    decreases |items|
  {
    if |items| <= MAX_ITEMS then items else Trim(Without(items, Victim(items, 0, 0)))
  }

  // ---------- merging ----------

  /** How much of the item there is in all stacks. */
  function Total(items: seq<Item>, p: Proto): nat {
    if items == [] then 0
    else Total(items[..|items| - 1], p) + (if items[|items| - 1].proto == p then items[|items| - 1].count else 0)
  }

  function Dropped(es: seq<Entry>, p: Proto): nat {
    if es == [] then 0
    else (if es[0].proto == Some(p) && es[0].drops then Rolled(es[0]) else 0) + Dropped(es[1..], p)
  }

  lemma {:induction false} TotalUpdate(items: seq<Item>, i: nat, x: Item, p: Proto)
    requires i < |items|
    ensures Total(items[i := x], p) + (if items[i].proto == p then items[i].count else 0)
         == Total(items, p) + (if x.proto == p then x.count else 0)
  {
    var n := |items| - 1;
    if i == n {
      assert items[i := x][..n] == items[..n];
    } else {
      assert items[i := x][..n] == items[..n][i := x];
      TotalUpdate(items[..n], i, x, p);
    }
  }

  /** Placing raises the item's total by exactly the count, and no other's, exactly when the stack it joins does not overflow 32 bits. */
  lemma {:induction false} PlaceAddsIff(items: seq<Item>, p: Proto, count: nat, q: Proto)
    ensures q != p ==> Total(Place(items, p, count), q) == Total(items, q)
    ensures Total(Place(items, p, count), p) == Total(items, p) + count
      <==> (Stack(items, p, count) < |items| ==> items[Stack(items, p, count)].count + count < WORD)
    ensures Total(Place(items, p, count), p) <= Total(items, p) + count
  {
    var i := Stack(items, p, count);
    if i < |items| {
      TotalUpdate(items, i, items[i].(count := U32(items[i].count + count)), q);
      TotalUpdate(items, i, items[i].(count := U32(items[i].count + count)), p);
    } else {
      assert (items + [Item(p, count)])[..|items|] == items;
    }
  }

  /** A stack that takes more in stays strictly below both of its limits. */
  lemma {:induction false} MergedStaysBelow(items: seq<Item>, p: Proto, count: nat)
    requires Stack(items, p, count) < |items|
    ensures var s := Place(items, p, count)[Stack(items, p, count)];
      s.proto == p && s.count < p.maxCount && (p.unique != 0 ==> s.count < p.unique)
  {
  }

  /** The stack is of this item, the item stacks, and together they stay below its limits. */
  predicate Joins(x: Item, p: Proto, count: nat) {
    var sum := (x.count + count) % 0x1_0000_0000;
    x.proto == p && p.maxCount > 0 && sum < p.maxCount && (p.unique == 0 || sum < p.unique)
  }

  /** A drop goes onto the first stack it can join, and becomes a stack of its own, the last, only if there is none. */
  lemma {:induction false} PlaceJoinsFirst(items: seq<Item>, p: Proto, count: nat, i: nat)
    requires i <= |items| && (forall k :: 0 <= k < i ==> !Joins(items[k], p, count)) && (i < |items| ==> Joins(items[i], p, count))
    ensures Place(items, p, count) ==
      if i < |items| then items[i := Item(p, (items[i].count + count) % 0x1_0000_0000)] else items + [Item(p, count)]
  {
    var j := Stack(items, p, count);
    assert forall k :: 0 <= k < |items| ==> (Joins(items[k], p, count) <==> Fits(items[k], p, count));
    assert j == i;
  }

  /** The entries are rolled in table order: filling with a table in two parts is filling with one after the other. */
  lemma {:induction false} FillInOrder(items: seq<Item>, a: seq<Entry>, b: seq<Entry>)
    ensures Fill(items, a + b) == Fill(Fill(items, a), b)
    decreases |a|
  {
    if a == [] {
      assert a + b == b;
    } else {
      assert (a + b)[1..] == a[1..] + b;
      FillInOrder(if Drops(a[0]) then Place(items, a[0].proto.value, Rolled(a[0])) else items, a[1..], b);
    }
  }

  predicate Below(x: Item) {
    x.count < x.proto.maxCount && (x.proto.unique != 0 ==> x.count < x.proto.unique)
  }

  /** The stack is what a single entry rolled. */
  predicate Single(es: seq<Entry>, x: Item) {
    exists k :: 0 <= k < |es| && Drops(es[k]) && x == Item(es[k].proto.value, Rolled(es[k]))
  }

  /** Every stack is as it was in `base`, or one drop of `es` alone, or strictly below both of its limits. */
  ghost predicate BelowIfMerged(base: seq<Item>, es: seq<Entry>, items: seq<Item>) {
    |base| <= |items| && forall i :: 0 <= i < |items| ==>
      Below(items[i]) || (if i < |base| then items[i] == base[i] else Single(es, items[i]))
  }

  lemma {:induction false} SingleStays(es: seq<Entry>, e: Entry, x: Item)
    requires Single(es, x)
    ensures Single(es + [e], x)
  {
    var k :| 0 <= k < |es| && Drops(es[k]) && x == Item(es[k].proto.value, Rolled(es[k]));
    assert (es + [e])[k] == es[k];
  }

  lemma {:induction false} PlaceBelow(base: seq<Item>, es: seq<Entry>, items: seq<Item>, e: Entry)
    requires BelowIfMerged(base, es, items)
    ensures BelowIfMerged(base, es + [e], if Drops(e) then Place(items, e.proto.value, Rolled(e)) else items)
  {
    forall i | |base| <= i < |items| && !Below(items[i]) ensures Single(es + [e], items[i]) {
      SingleStays(es, e, items[i]);
    }
    if Drops(e) {
      var p, count := e.proto.value, Rolled(e);
      if Stack(items, p, count) < |items| {
        MergedStaysBelow(items, p, count);
      } else {
        assert (es + [e])[|es|] == e;
        assert Single(es + [e], Item(p, count));
      }
    }
  }

  lemma {:induction false} FillBelow(base: seq<Item>, done: seq<Entry>, items: seq<Item>, es: seq<Entry>)
    requires BelowIfMerged(base, done, items)
    ensures BelowIfMerged(base, done + es, Fill(items, es))
    decreases |es|
  {
    if es == [] {
      assert done + es == done;
    } else {
      var next := if Drops(es[0]) then Place(items, es[0].proto.value, Rolled(es[0])) else items;
      PlaceBelow(base, done, items, es[0]);
      FillBelow(base, done + [es[0]], next, es[1..]);
      assert done + es == (done + [es[0]]) + es[1..];
    }
  }

  /** After all drops every stack that took more in is strictly below both of its limits. */
  lemma {:induction false} FillStaysBelow(items: seq<Item>, es: seq<Entry>)
    ensures BelowIfMerged(items, es, Fill(items, es))
  {
    FillBelow(items, [], items, es);
    assert [] + es == es;
  }

  ghost predicate Modest(items: seq<Item>) {
    forall i :: 0 <= i < |items| ==> items[i].count < HALF && items[i].proto.maxCount <= HALF
  }

  ghost predicate Sensible(es: seq<Entry>) {
    forall i :: 0 <= i < |es| && Drops(es[i]) ==>
      es[i].mincount <= es[i].maxcount < HALF && es[i].extra <= es[i].maxcount - es[i].mincount && es[i].proto.value.maxCount <= HALF
  }

  lemma {:induction false} RolledBetween(e: Entry)
    requires e.mincount <= e.maxcount < HALF && e.extra <= e.maxcount - e.mincount
    ensures e.mincount <= Rolled(e) <= e.maxcount && Rolled(e) == e.mincount + e.extra
  {
  }

  lemma {:induction false} PlaceModest(items: seq<Item>, p: Proto, count: nat)
    requires Modest(items) && count < HALF && p.maxCount <= HALF
    ensures Modest(Place(items, p, count))
  {
  }

  /** No drop of `q` joins a stack that overflows 32 bits. */
  predicate NeverWraps(items: seq<Item>, es: seq<Entry>, q: Proto)
    decreases |es|
  {
    es == []
    || (if !Drops(es[0]) then NeverWraps(items, es[1..], q)
        else
          var p, count := es[0].proto.value, Rolled(es[0]);
          && (p == q && Stack(items, p, count) < |items| ==> items[Stack(items, p, count)].count + count < WORD)
          && NeverWraps(Place(items, p, count), es[1..], q))
  }

  /** Before trimming, an item's total rises by at most the sum of its rolled counts, and by exactly that if and only if no stack overflows. */
  lemma {:induction false} FillAddsIff(items: seq<Item>, es: seq<Entry>, q: Proto)
    ensures Total(Fill(items, es), q) <= Total(items, q) + Dropped(es, q)
    ensures Total(Fill(items, es), q) == Total(items, q) + Dropped(es, q) <==> NeverWraps(items, es, q)
    decreases |es|
  {
    if es != [] {
      if Drops(es[0]) {
        var p, count := es[0].proto.value, Rolled(es[0]);
        PlaceAddsIff(items, p, count, q);
        FillAddsIff(Place(items, p, count), es[1..], q);
      } else {
        FillAddsIff(items, es[1..], q);
      }
    }
  }

  lemma {:induction false} ModestNeverWraps(items: seq<Item>, es: seq<Entry>, q: Proto)
    requires Modest(items) && Sensible(es)
    ensures NeverWraps(items, es, q)
    decreases |es|
  {
    if es != [] {
      assert Sensible(es[1..]) by {
        assert forall i :: 0 <= i < |es[1..]| ==> es[1..][i] == es[i + 1];
      }
      if Drops(es[0]) {
        RolledBetween(es[0]);
        PlaceModest(items, es[0].proto.value, Rolled(es[0]));
        ModestNeverWraps(Place(items, es[0].proto.value, Rolled(es[0])), es[1..], q);
      } else {
        ModestNeverWraps(items, es[1..], q);
      }
    }
  }

  /** With stack sizes and limits below 2^31 each item's total rises by exactly the sum of its rolled counts. */
  lemma {:induction false} FillAdds(items: seq<Item>, es: seq<Entry>, q: Proto)
    requires Modest(items) && Sensible(es)
    ensures Total(Fill(items, es), q) == Total(items, q) + Dropped(es, q)
  {
    ModestNeverWraps(items, es, q);
    FillAddsIff(items, es, q);
  }

  // ---------- trimming ----------

  ghost predicate Best(items: seq<Item>, v: nat, i: nat)
    requires v < |items| && i <= |items|
  {
    && (v == 0 || (!items[v].proto.quest && items[v].proto.quality < items[0].proto.quality))
    && (forall k :: 0 <= k < v && !items[k].proto.quest ==> items[v].proto.quality < items[k].proto.quality)
    && forall k :: 0 <= k < i && !items[k].proto.quest ==> items[v].proto.quality <= items[k].proto.quality
  }

  lemma {:induction false} VictimIsLeast(items: seq<Item>, v: nat, i: nat)
    requires v < |items| && i <= |items| && Best(items, v, i) && v <= i
    ensures Best(items, Victim(items, v, i), |items|)
    decreases |items| - i
  {
    if i < |items| {
      var v' := if items[v].proto.quality > items[i].proto.quality && !items[i].proto.quest then i else v;
      assert Best(items, v', i + 1);
      VictimIsLeast(items, v', i + 1);
    }
  }

  ghost predicate Increasing(f: seq<nat>) {
    forall i, j :: 0 <= i < j < |f| ==> f[i] < f[j]
  }

  /** `kept` picks `out` out of `items`, in order. */
  ghost predicate Picks(items: seq<Item>, out: seq<Item>, kept: seq<nat>) {
    |kept| == |out| && Increasing(kept) && forall k :: 0 <= k < |kept| ==> kept[k] < |items| && out[k] == items[kept[k]]
  }

  /** The positions of what Trim throws away, in the order in which it goes. */
  function Gone(items: seq<Item>): seq<nat>
    decreases |items|
  {
    if |items| <= MAX_ITEMS then []
    else
      var v := Victim(items, 0, 0);
      [v] + ShiftAll(Gone(Without(items, v)), v)
  }

  /** Whatever goes is worth no more than any item still there that is not for a quest. */
  ghost predicate CheapestFirst(items: seq<Item>, gone: seq<nat>) {
    forall t, k :: 0 <= t < |gone| && gone[t] < |items| && 0 <= k < |items| && k !in gone[..t] && !items[k].proto.quest
      ==> items[gone[t]].proto.quality <= items[k].proto.quality
  }

  /** A quest item goes only when everything before it has gone. */
  ghost predicate QuestLast(items: seq<Item>, gone: seq<nat>) {
    forall t, j :: 0 <= t < |gone| && gone[t] < |items| && items[gone[t]].proto.quest && 0 <= j < gone[t] ==> j in gone[..t]
  }

  /** Every position is either kept or gone. */
  ghost predicate Parted(items: seq<Item>, kept: seq<nat>, gone: seq<nat>) {
    (forall r :: 0 <= r < |items| ==> (r in kept <==> r !in gone)) && forall t :: 0 <= t < |gone| ==> gone[t] < |items|
  }

  function Shift(x: nat, v: nat): nat {
    if x < v then x else x + 1
  }

  function ShiftAll(f: seq<nat>, v: nat): (g: seq<nat>)
    ensures |g| == |f| && forall k :: 0 <= k < |f| ==> g[k] == Shift(f[k], v)
  {
    if f == [] then [] else [Shift(f[0], v)] + ShiftAll(f[1..], v)
  }

  lemma {:induction false} InShifted(f: seq<nat>, v: nat, x: nat)
    ensures Shift(x, v) in ShiftAll(f, v) <==> x in f
    ensures v !in ShiftAll(f, v)
  {
    var g := ShiftAll(f, v);
    if x in f {
      var k :| 0 <= k < |f| && f[k] == x;
      assert g[k] == Shift(x, v);
    }
  }

  lemma {:induction false} ShiftPicks(items: seq<Item>, v: nat, out: seq<Item>, f: seq<nat>)
    requires v < |items| && Picks(Without(items, v), out, f)
    ensures Picks(items, out, ShiftAll(f, v))
  {
  }

  function Unshift(x: nat, v: nat): (y: nat)
    ensures x != v ==> Shift(y, v) == x
  {
    if x <= v then x else x - 1
  }

  /** What had gone after `t` of the later removals, seen from before the first removal. */
  lemma {:induction false} GoneBefore(g: seq<nat>, v: nat, t: nat, x: nat)
    requires t <= |g|
    ensures x in ([v] + ShiftAll(g, v))[..t + 1] <==> x == v || Unshift(x, v) in g[..t]
  {
    var h := [v] + ShiftAll(g, v);
    assert h[0] == v;
    forall k | 0 <= k < t ensures h[k + 1] == Shift(g[k], v) {
    }
    if x != v && Unshift(x, v) in g[..t] {
      var k :| 0 <= k < t && g[k] == Unshift(x, v);
      assert h[..t + 1][k + 1] == x;
    }
    if x in h[..t + 1] && x != v {
      var k :| 0 <= k < t + 1 && h[k] == x;
      assert g[..t][k - 1] == Unshift(x, v);
    }
    assert h[..t + 1][0] == v;
  }

  /** The item removed at time `t`, before and after the first removal. */
  lemma {:induction false} GoneAt(items: seq<Item>, v: nat, g: seq<nat>, t: nat)
    requires v < |items| && t < |g| && g[t] < |items| - 1
    ensures var h := [v] + ShiftAll(g, v);
      h[t + 1] == Shift(g[t], v) && h[t + 1] < |items| && items[h[t + 1]] == Without(items, v)[g[t]]
  {
  }

  lemma {:induction false} UnshiftKeeps(items: seq<Item>, v: nat, k: nat)
    requires v < |items| && k < |items| && k != v
    ensures Unshift(k, v) < |items| - 1 && Without(items, v)[Unshift(k, v)] == items[k]
  {
  }

  lemma {:induction false} CheapestLater(items: seq<Item>, v: nat, g: seq<nat>, t: nat, k: nat)
    requires v < |items| && CheapestFirst(Without(items, v), g) && t < |g| && g[t] < |items| - 1 && k < |items|
    requires k !in ([v] + ShiftAll(g, v))[..t + 1] && !items[k].proto.quest
    ensures Shift(g[t], v) < |items| && items[Shift(g[t], v)].proto.quality <= items[k].proto.quality
  {
    GoneAt(items, v, g, t);
    GoneBefore(g, v, t, k);
    UnshiftKeeps(items, v, k);
  }

  lemma {:induction false} QuestLater(items: seq<Item>, v: nat, g: seq<nat>, t: nat, j: nat)
    requires v < |items| && QuestLast(Without(items, v), g) && t < |g| && g[t] < |items| - 1
    requires items[Shift(g[t], v)].proto.quest && j < Shift(g[t], v)
    ensures j in ([v] + ShiftAll(g, v))[..t + 1]
  {
    GoneAt(items, v, g, t);
    GoneBefore(g, v, t, j);
  }

  lemma {:induction false} LaterAt(g: seq<nat>, v: nat, t: nat)
    requires 0 < t <= |g|
    ensures ([v] + ShiftAll(g, v))[t] == Shift(g[t - 1], v)
  {
  }

  lemma {:induction false} ShiftCheapest(items: seq<Item>, v: nat, g: seq<nat>)
    requires v < |items| && Best(items, v, |items|) && CheapestFirst(Without(items, v), g)
    requires forall t :: 0 <= t < |g| ==> g[t] < |items| - 1
    ensures CheapestFirst(items, [v] + ShiftAll(g, v))
  {
    var h := [v] + ShiftAll(g, v);
    forall t, k | 0 <= t < |h| && h[t] < |items| && 0 <= k < |items| && k !in h[..t] && !items[k].proto.quest
      ensures items[h[t]].proto.quality <= items[k].proto.quality
    {
      if t > 0 {
        LaterAt(g, v, t);
        CheapestLater(items, v, g, t - 1, k);
      }
    }
  }

  lemma {:induction false} ShiftQuest(items: seq<Item>, v: nat, g: seq<nat>)
    requires v < |items| && (items[v].proto.quest ==> v == 0) && QuestLast(Without(items, v), g)
    requires forall t :: 0 <= t < |g| ==> g[t] < |items| - 1
    ensures QuestLast(items, [v] + ShiftAll(g, v))
  {
    var h := [v] + ShiftAll(g, v);
    forall t, j | 0 <= t < |h| && h[t] < |items| && items[h[t]].proto.quest && 0 <= j < h[t] ensures j in h[..t] {
      if t > 0 {
        LaterAt(g, v, t);
        QuestLater(items, v, g, t - 1, j);
      }
    }
  }

  lemma {:induction false} ShiftParted(items: seq<Item>, v: nat, f: seq<nat>, g: seq<nat>)
    requires v < |items| && Parted(Without(items, v), f, g)
    ensures Parted(items, ShiftAll(f, v), [v] + ShiftAll(g, v))
  {
    var h := [v] + ShiftAll(g, v);
    assert h[0] == v;
    forall r | 0 <= r < |items| ensures r in ShiftAll(f, v) <==> r !in h {
      InShifted(f, v, Unshift(r, v));
      InShifted(g, v, Unshift(r, v));
    }
  }

  /**
   Trimming leaves sixteen items (or all, if fewer) in their order. Each item that goes is worth no more
   than any item then left that is not for a quest, and a quest item goes only once it is the first.
   */
  lemma {:induction false} TrimKeepsBest(items: seq<Item>) returns (kept: seq<nat>)
    ensures |Trim(items)| == if |items| < 16 then |items| else 16
    ensures Picks(items, Trim(items), kept) && Parted(items, kept, Gone(items))
    ensures CheapestFirst(items, Gone(items)) && QuestLast(items, Gone(items))
    decreases |items|
  {
    if |items| <= MAX_ITEMS {
      kept := Identity(|items|);
    } else {
      VictimIsLeast(items, 0, 0);
      var v := Victim(items, 0, 0);
      var f := TrimKeepsBest(Without(items, v));
      var g := Gone(Without(items, v));
      kept := ShiftAll(f, v);
      ShiftPicks(items, v, Trim(items), f);
      ShiftParted(items, v, f, g);
      ShiftCheapest(items, v, g);
      ShiftQuest(items, v, g);
    }
  }

  lemma {:induction false} Identity(n: nat) returns (f: seq<nat>)
    ensures |f| == n && Increasing(f) && (forall k :: 0 <= k < n ==> f[k] == k) && forall r :: 0 <= r < n ==> r in f
  {
    if n == 0 {
      f := [];
    } else {
      var g := Identity(n - 1);
      f := g + [n - 1];
      assert forall k :: 0 <= k < n ==> f[k] == k;
    }
  }

  // ---------- the loot object ----------

  class Loot {
    var items: seq<Item>

    /** PushLoot, given the outcome of every roll. */
    method PushLoot(es: seq<Entry>)
      modifies this
      ensures items == Trim(Fill(old(items), es))
    {
      var x := 0;
      while x < |es|
        invariant 0 <= x <= |es| && Fill(old(items), es) == Fill(items, es[x..])
      {
        assert es[x..][0] == es[x] && es[x..][1..] == es[x + 1..];
        if es[x].proto.Some? && es[x].drops {
          AddItem(es[x].proto.value, Rolled(es[x]));
        }
        x := x + 1;
      }
      assert es[x..] == [];
      TrimItems();
    }

    method AddItem(p: Proto, count: nat)
      modifies this
      ensures items == Place(old(items), p, count)
    {
      var i := 0;
      while i < |items| && !Fits(items[i], p, count)
        invariant 0 <= i <= |items| && forall k :: 0 <= k < i ==> !Fits(items[k], p, count)
      {
        i := i + 1;
      }
      assert i == Stack(items, p, count);
      if i < |items| {
        items := items[i := items[i].(count := U32(items[i].count + count))];
      } else {
        items := items + [Item(p, count)];
      }
    }

    method TrimItems()
      modifies this
      ensures items == Trim(old(items))
    {
      while |items| > MAX_ITEMS
        invariant Trim(items) == Trim(old(items))
        decreases |items|
      {
        var victim, i := 0, 0;
        while i < |items|
          invariant 0 <= i <= |items| && victim < |items| && Victim(items, 0, 0) == Victim(items, victim, i)
        {
          if items[victim].proto.quality > items[i].proto.quality && !items[i].proto.quest {
            victim := i;
          }
          i := i + 1;
        }
        items := items[..victim] + items[victim + 1..];
      }
    }
  }
}
