/**
 Money in and out of a guild bank: what one member may take per day, the member's withdrawal ledger,
 the bank balance and the player's own gold, with the widths the server uses.
 */
module GuildBank {
  import opened Basics

  const DAY: nat := 86400
  const UNLIMITED: int := -1

  /** When the member's day last started, and what was withdrawn since. */
  datatype Ledger = Ledger(lastReset: nat, withdrawn: nat)

  datatype Purse = Purse(ledger: Ledger, bank: nat, gold: nat)

  datatype Op =
    | Deposit(amount: nat)
    | Withdraw(amount: nat, cap: Option<nat>)
    | Repair(cost: nat, mayRepair: bool)

  datatype Event = Event(now: nat, op: Op)

  /** CalculateAvailableAmount. */
  function Available(limit: int, l: Ledger, now: nat): nat {
    if limit == UNLIMITED then WORD - 1
    else if limit == 0 then 0
    else if now - l.lastReset >= DAY then U32(limit)
    else U32(limit - l.withdrawn)
  }

  /** OnMoneyWithdraw. */
  function Recorded(limit: int, l: Ledger, now: nat, amount: nat): Ledger {
    if limit <= 0 then l
    else if U32(now - l.lastReset) >= DAY then Ledger(U32(now), amount)
    else l.(withdrawn := U32(l.withdrawn + amount))
  }

  /** A player's gold after a change: results that do not fit 31 bits become zero. */
  function ModGold(gold: nat, change: int): nat {
    if change % WORD == 0 then gold
    else if U32(gold + change) >= HALF then 0 else U32(gold + change)
  }

  predicate MayTake(limit: int, s: Purse, now: nat, amount: nat) {
    (limit > 0 ==> Available(limit, s.ledger, now) >= amount) && limit != 0 && s.bank >= amount
  }

  predicate UnderCap(gold: nat, amount: nat, cap: Option<nat>) {
    cap.Some? ==> U32(gold + amount) <= cap.value
  }

  predicate Takes(limit: int, s: Purse, e: Event) {
    match e.op
    case Deposit(_) => false
    case Withdraw(amount, cap) => MayTake(limit, s, e.now, amount) && UnderCap(s.gold, amount, cap)
    case Repair(cost, mayRepair) => mayRepair && MayTake(limit, s, e.now, cost)
  }

  function Amount(op: Op): nat {
    match op
    case Deposit(_) => 0
    case Withdraw(amount, _) => amount
    case Repair(cost, _) => cost
  }

  function Step(limit: int, s: Purse, e: Event): Purse {
    match e.op
    case Deposit(amount) =>
      if s.gold < amount then s else s.(bank := s.bank + amount, gold := ModGold(s.gold, 0 - (amount as int)))
    case Withdraw(amount, _) =>
      if Takes(limit, s, e)
      then Purse(Recorded(limit, s.ledger, e.now, amount), s.bank - amount, ModGold(s.gold, amount))
      else s
    case Repair(cost, _) =>
      if Takes(limit, s, e) then Purse(Recorded(limit, s.ledger, e.now, cost), s.bank - cost, s.gold) else s
  }

  function End(limit: int, s: Purse, run: seq<Event>): Purse {
    if run == [] then s else Step(limit, End(limit, s, run[..|run| - 1]), run[|run| - 1])
  }

  /** What the run took out of the bank at times from `from` to a day later. */
  function Taken(limit: int, s: Purse, run: seq<Event>, from: int): nat {
    if run == [] then 0
    else
      var before, e := run[..|run| - 1], run[|run| - 1];
      Taken(limit, s, before, from)
        + (if Takes(limit, End(limit, s, before), e) && from <= e.now < from + DAY then Amount(e.op) else 0)
  }

  /** Time does not run backwards and stays within 32 bits. */
  predicate Ordered(start: nat, run: seq<Event>) {
    run == [] || (Ordered(start, run[..|run| - 1]) && Last(start, run[..|run| - 1]) <= run[|run| - 1].now < WORD
                  && Amount(run[|run| - 1].op) < WORD)
  }

  function Last(start: nat, run: seq<Event>): nat {
    if run == [] then start else run[|run| - 1].now
  }

  // ---------- the daily limit ----------

  ghost predicate LedgerOk(limit: int, l: Ledger, now: nat) {
    0 < limit < HALF && l.withdrawn <= limit && l.lastReset <= now < WORD
  }

  /** Within the limit the subtraction never wraps. */
  lemma {:induction false} AvailableExact(limit: int, l: Ledger, now: nat)
    requires LedgerOk(limit, l, now)
    ensures Available(limit, l, now) == if now - l.lastReset >= DAY then limit else limit - l.withdrawn
  {
  }

  /** Inside a day the available amount stays within the limit exactly when no more than the limit was withdrawn before. */
  lemma {:induction false} AvailableWithinLimitIff(limit: int, l: Ledger, now: nat)
    requires 0 < limit < HALF && l.withdrawn < HALF && l.lastReset <= now < WORD && now - l.lastReset < DAY
    ensures Available(limit, l, now) <= limit <==> l.withdrawn <= limit
  {
    if l.withdrawn > limit {
      assert U32(limit - l.withdrawn) == limit - l.withdrawn + WORD;
    }
  }

  lemma {:induction false} RecordedOk(limit: int, l: Ledger, now: nat, amount: nat)
    requires LedgerOk(limit, l, now) && amount <= Available(limit, l, now)
    ensures LedgerOk(limit, Recorded(limit, l, now, amount), now)
    ensures Recorded(limit, l, now, amount)
         == if now - l.lastReset >= DAY then Ledger(now, amount) else Ledger(l.lastReset, l.withdrawn + amount)
  {
    AvailableExact(limit, l, now);
  }

  /** A recorded withdrawal lowers the available amount by exactly what was taken. */
  lemma {:induction false} WithdrawalUsesUp(limit: int, l: Ledger, now: nat, amount: nat)
    requires LedgerOk(limit, l, now) && amount <= Available(limit, l, now)
    ensures var l' := Recorded(limit, l, now, amount);
      LedgerOk(limit, l', now) && Available(limit, l', now) == Available(limit, l, now) - amount
  {
    RecordedOk(limit, l, now, amount);
    AvailableExact(limit, l, now);
    AvailableExact(limit, Recorded(limit, l, now, amount), now);
  }

  lemma {:induction false} StepOk(limit: int, s: Purse, e: Event)
    requires LedgerOk(limit, s.ledger, e.now)
    ensures LedgerOk(limit, Step(limit, s, e).ledger, e.now)
    ensures Step(limit, s, e).ledger == if Takes(limit, s, e)
      then (if e.now - s.ledger.lastReset >= DAY then Ledger(e.now, Amount(e.op))
            else Ledger(s.ledger.lastReset, s.ledger.withdrawn + Amount(e.op)))
      else s.ledger
  {
    if Takes(limit, s, e) {
      RecordedOk(limit, s.ledger, e.now, Amount(e.op));
    }
  }

  lemma {:induction false} RunOk(limit: int, s: Purse, start: nat, run: seq<Event>)
    requires LedgerOk(limit, s.ledger, start) && Ordered(start, run)
    ensures LedgerOk(limit, End(limit, s, run).ledger, Last(start, run))
  {
    if run != [] {
      var before, e := run[..|run| - 1], run[|run| - 1];
      RunOk(limit, s, start, before);
      StepOk(limit, End(limit, s, before), e);
    }
  }

  /** What was taken in the day from `from` on, judged by when the current ledger day started. */
  ghost predicate Bounded(limit: int, l: Ledger, from: int, last: nat, taken: nat) {
    if l.lastReset <= from then
      taken <= l.withdrawn && (taken > 0 ==> from - l.lastReset < DAY && from <= last)
    else if l.lastReset < from + DAY then taken <= limit + l.withdrawn
    else taken <= 2 * limit
  }

  lemma {:induction false} BoundedStep(limit: int, l: Ledger, from: int, last: nat, taken: nat, now: nat, amount: nat, l': Ledger)
    requires Bounded(limit, l, from, last, taken) && LedgerOk(limit, l, last) && last <= now && LedgerOk(limit, l', now)
    requires l' == if now - l.lastReset >= DAY then Ledger(now, amount) else Ledger(l.lastReset, l.withdrawn + amount)
    ensures Bounded(limit, l', from, now, taken + (if from <= now < from + DAY then amount else 0))
  {
  }

  lemma {:induction false} RunBounded(limit: int, s: Purse, start: nat, run: seq<Event>, from: int)
    requires LedgerOk(limit, s.ledger, start) && Ordered(start, run)
    ensures Bounded(limit, End(limit, s, run).ledger, from, Last(start, run), Taken(limit, s, run, from))
  {
    if run != [] {
      var before, e := run[..|run| - 1], run[|run| - 1];
      RunBounded(limit, s, start, before, from);
      RunOk(limit, s, start, before);
      var v := End(limit, s, before);
      StepOk(limit, v, e);
      if Takes(limit, v, e) {
        BoundedStep(limit, v.ledger, from, Last(start, before), Taken(limit, s, before, from), e.now, Amount(e.op), Step(limit, v, e).ledger);
      }
    }
  }

  /**
   Over any run of deposits, withdrawals and repairs by one member with a fixed daily limit, at most
   the limit is taken in the ledger's current day, and at most twice the limit in any stretch of a day.
   */
  lemma {:induction false} DailyLimit(limit: int, s: Purse, start: nat, run: seq<Event>, from: int)
    requires LedgerOk(limit, s.ledger, start) && Ordered(start, run)
    ensures Taken(limit, s, run, End(limit, s, run).ledger.lastReset) <= limit
    ensures Taken(limit, s, run, from) <= 2 * limit
  {
    RunOk(limit, s, start, run);
    RunBounded(limit, s, start, run, from);
    RunBounded(limit, s, start, run, End(limit, s, run).ledger.lastReset);
  }

  /** Twice the limit can really be taken within a day: just before and just after the ledger's day ends. */
  lemma {:induction false} TwiceTheLimit(limit: int, gold: nat)
    requires 0 < limit < HALF
    ensures var s := Purse(Ledger(DAY, 0), 2 * limit, gold);
      var run := [Event(2 * DAY - 1, Repair(limit, true)), Event(2 * DAY, Repair(limit, true))];
      LedgerOk(limit, s.ledger, DAY) && Ordered(DAY, run) && Taken(limit, s, run, 2 * DAY - 1) == 2 * limit
  {
    var s := Purse(Ledger(DAY, 0), 2 * limit, gold);
    var e1, e2 := Event(2 * DAY - 1, Repair(limit, true)), Event(2 * DAY, Repair(limit, true));
    assert [e1, e2][..1] == [e1] && [e1][..0] == [];
    assert Ordered(DAY, []) && Ordered(DAY, [e1]) && Ordered(DAY, [e1, e2]);
    assert End(limit, s, []) == s && Takes(limit, s, e1);
    var s1 := Step(limit, s, e1);
    assert s1 == Purse(Ledger(DAY, limit), limit, gold);
    assert End(limit, s, [e1]) == s1 && Takes(limit, s1, e2);
    assert Taken(limit, s, [], 2 * DAY - 1) == 0;
    assert Taken(limit, s, [e1], 2 * DAY - 1) == limit;
    assert Taken(limit, s, [e1, e2], 2 * DAY - 1) == limit + limit;
  }

  // ---------- who may take what ----------

  /**
   Whether today's allowance covers the amount: a negative limit sets no bound, 0 allows nothing, and a
   positive one allows what is left of it; the difference wraps if more was withdrawn than the limit.
   */
  predicate WithinAllowance(limit: int, l: Ledger, now: nat, amount: nat) {
    limit < 0
    || (limit > 0 && (if now - l.lastReset >= 86400 then amount <= limit
                      else if l.withdrawn <= limit then amount + l.withdrawn <= limit
                      else amount <= limit - l.withdrawn + 0x1_0000_0000))
  }

  /** The gold cap allows a withdrawal, the repair right a repair. */
  predicate Permitted(s: Purse, op: Op) {
    match op
    case Deposit(_) => false
    case Withdraw(amount, cap) => cap.None? || (s.gold + amount) % 0x1_0000_0000 <= cap.value
    case Repair(_, mayRepair) => mayRepair
  }

  lemma {:induction false} AllowanceIff(limit: int, s: Purse, now: nat, amount: nat)
    requires limit < HALF && s.ledger.withdrawn < WORD
    ensures MayTake(limit, s, now, amount) <==> WithinAllowance(limit, s.ledger, now, amount) && amount <= s.bank
  {
    if limit > 0 {
      var over := limit - s.ledger.withdrawn;
      assert U32(over) == if over < 0 then over + WORD else over;
    }
  }

  /**
   A withdrawal or repair takes its amount from the bank exactly if the bank holds it, the day's allowance
   covers it, and the cap or the right permits it; otherwise ledger, bank and gold are as before.
   */
  lemma {:induction false} TakesIff(limit: int, s: Purse, e: Event)
    requires limit < HALF && s.ledger.withdrawn < WORD && !e.op.Deposit? && Amount(e.op) > 0
    ensures var s' := Step(limit, s, e);
      if Amount(e.op) <= s.bank && WithinAllowance(limit, s.ledger, e.now, Amount(e.op)) && Permitted(s, e.op)
      then s'.bank == s.bank - Amount(e.op) && (e.op.Repair? ==> s'.gold == s.gold) && (limit < 0 ==> s'.ledger == s.ledger)
      else s' == s
  {
    AllowanceIff(limit, s, e.now, Amount(e.op));
  }

  /** A rank without a limit takes nothing, over any run whatever. */
  lemma {:induction false} NoLimitTakesNothing(s: Purse, run: seq<Event>)
    ensures End(0, s, run).bank >= s.bank && End(0, s, run).ledger == s.ledger
    ensures forall from: int :: Taken(0, s, run, from) == 0
  {
    if run != [] {
      NoLimitTakesNothing(s, run[..|run| - 1]);
    }
  }

  /** A deposit of gold the player has goes into the bank in full; otherwise nothing happens. */
  lemma {:induction false} DepositMoves(limit: int, s: Purse, e: Event)
    requires e.op.Deposit? && s.gold < HALF
    ensures var s' := Step(limit, s, e);
      && s'.ledger == s.ledger
      && s'.bank == s.bank + (if e.op.amount <= s.gold then e.op.amount else 0)
      && s'.gold == s.gold - (if e.op.amount <= s.gold then e.op.amount else 0)
  {
  }

  // ---------- conservation ----------

  /** A change of gold is carried out exactly when the result is neither negative nor 2^31 or more. */
  lemma {:induction false} ModGoldExactIff(gold: nat, change: int)
    requires gold < HALF && 0 < change + WORD < 2 * WORD
    ensures ModGold(gold, change) == gold + change <==> 0 <= gold + change < HALF
    ensures ModGold(gold, change) < HALF
  {
    if change != 0 {
      ChangeNotWhole(change);
      var sum := gold + change;
      assert U32(sum) == if sum < 0 then sum + WORD else if sum >= WORD then sum - WORD else sum;
    }
  }

  lemma {:induction false} ChangeNotWhole(change: int)
    requires 0 < change + WORD < 2 * WORD && change != 0
    ensures change % WORD != 0
  {
  }

  /** Deposits move gold into the bank without loss. */
  lemma {:induction false} DepositConserves(limit: int, s: Purse, e: Event)
    requires e.op.Deposit? && s.gold < HALF
    ensures var s' := Step(limit, s, e); s'.bank + s'.gold == s.bank + s.gold && s'.gold < HALF
  {
  }

  /**
   A withdrawal moves gold out of the bank without loss exactly when the player's gold stays below 2^31;
   beyond that the player is left with less than was taken.
   */
  lemma {:induction false} WithdrawConservesIff(limit: int, s: Purse, e: Event)
    requires e.op.Withdraw? && Takes(limit, s, e) && 0 < e.op.amount < WORD && s.gold < HALF
    ensures var s' := Step(limit, s, e);
      && (s'.bank + s'.gold == s.bank + s.gold <==> s.gold + e.op.amount < HALF)
      && s'.bank + s'.gold <= s.bank + s.gold
  {
    var total := s.gold + e.op.amount;
    if total >= WORD {
      assert U32(total) == total - WORD;
    }
  }

  /** With a gold cap below 2^31 every withdrawal of less than 2^31 conserves money. */
  lemma {:induction false} CappedWithdrawConserves(limit: int, s: Purse, e: Event)
    requires e.op.Withdraw? && Takes(limit, s, e) && e.op.cap.Some? && e.op.cap.value < HALF
    requires 0 < e.op.amount < HALF && s.gold < HALF
    ensures var s' := Step(limit, s, e); s'.bank + s'.gold == s.bank + s.gold && s'.gold <= e.op.cap.value
  {
    WithdrawConservesIff(limit, s, e);
  }

  // ---------- the objects ----------

  class Player {
    var gold: nat

    method ModifyGold(change: int)
      modifies this
      ensures gold == ModGold(old(gold), change)
      ensures old(gold) < HALF && 0 < change + WORD < 2 * WORD ==>
        gold < HALF && (gold == old(gold) + change <==> 0 <= old(gold) + change < HALF)
    {
      if gold < HALF && 0 < change + WORD < 2 * WORD { ModGoldExactIff(gold, change); }
      if change % WORD == 0 { return; }
      gold := U32(gold + change);
      if gold >= HALF { gold := 0; }
    }
  }

  class GuildMember {
    var goldLimitPerDay: int
    var lastWithdrawReset: nat
    var withdrawnSinceLastReset: nat

    function L(): Ledger
      reads this
    {
      Ledger(lastWithdrawReset, withdrawnSinceLastReset)
    }

    method CalculateAvailableAmount(now: nat) returns (amount: nat)
      ensures amount == Available(goldLimitPerDay, L(), now)
      ensures LedgerOk(goldLimitPerDay, L(), now) ==>
        amount == goldLimitPerDay - (if now - lastWithdrawReset >= DAY then 0 else withdrawnSinceLastReset)
    {
      if goldLimitPerDay == UNLIMITED { return WORD - 1; }
      if goldLimitPerDay == 0 { return 0; }
      if now - lastWithdrawReset >= DAY {
        return U32(goldLimitPerDay);
      } else {
        return U32(goldLimitPerDay - withdrawnSinceLastReset);
      }
    }

    method OnMoneyWithdraw(now: nat, amount: nat)
      modifies this`lastWithdrawReset, this`withdrawnSinceLastReset
      ensures L() == Recorded(goldLimitPerDay, old(L()), now, amount)
      ensures LedgerOk(goldLimitPerDay, old(L()), now) && amount <= Available(goldLimitPerDay, old(L()), now) ==>
        && LedgerOk(goldLimitPerDay, L(), now)
        && Available(goldLimitPerDay, L(), now) == Available(goldLimitPerDay, old(L()), now) - amount
    {
      ghost var l := L();
      if LedgerOk(goldLimitPerDay, l, now) && amount <= Available(goldLimitPerDay, l, now) {
        WithdrawalUsesUp(goldLimitPerDay, l, now, amount);
      }
      if goldLimitPerDay <= 0 { return; }
      if U32(now - lastWithdrawReset) >= DAY {
        lastWithdrawReset := U32(now);
        withdrawnSinceLastReset := amount;
      } else {
        withdrawnSinceLastReset := U32(withdrawnSinceLastReset + amount);
      }
    }

    /** May this amount be taken from a bank with this balance? */
    method Allows(now: nat, amount: nat, balance: nat, gold: nat) returns (ok: bool)
      ensures ok <==> MayTake(goldLimitPerDay, Purse(L(), balance, gold), now, amount)
    {
      if goldLimitPerDay > 0 {
        var available := CalculateAvailableAmount(now);
        if available < amount { return false; }
      }
      if goldLimitPerDay == 0 { return false; }
      return balance >= amount;
    }
  }

  class Guild {
    var bankBalance: nat

    method SpendMoney(amount: nat)
      requires amount <= bankBalance
      modifies this
      ensures bankBalance == old(bankBalance) - amount
    {
      bankBalance := bankBalance - amount;
    }

    method DepositMoney(member: GuildMember, player: Player, amount: nat, now: nat)
      modifies this, player
      ensures Purse(member.L(), bankBalance, player.gold)
           == Step(member.goldLimitPerDay, old(Purse(member.L(), bankBalance, player.gold)), Event(now, Deposit(amount)))
    {
      if player.gold < amount { return; }
      bankBalance := bankBalance + amount;
      player.ModifyGold(0 - (amount as int));
    }

    method WithdrawMoney(member: GuildMember, player: Player, amount: nat, cap: Option<nat>, now: nat)
      modifies this, member, player
      ensures member.goldLimitPerDay == old(member.goldLimitPerDay)
      ensures Purse(member.L(), bankBalance, player.gold)
           == Step(member.goldLimitPerDay, old(Purse(member.L(), bankBalance, player.gold)), Event(now, Withdraw(amount, cap)))
    {
      var ok := member.Allows(now, amount, bankBalance, player.gold);
      if !ok { return; }
      if cap.Some? && U32(player.gold + amount) > cap.value { return; }
      member.OnMoneyWithdraw(now, amount);
      player.ModifyGold(amount);
      SpendMoney(amount);
    }

    method RepairItem(member: GuildMember, player: Player, cost: nat, mayRepair: bool, now: nat) returns (done: bool)
      modifies this, member
      ensures member.goldLimitPerDay == old(member.goldLimitPerDay)
      ensures done <==> Takes(member.goldLimitPerDay, old(Purse(member.L(), bankBalance, player.gold)), Event(now, Repair(cost, mayRepair)))
      ensures Purse(member.L(), bankBalance, player.gold)
           == Step(member.goldLimitPerDay, old(Purse(member.L(), bankBalance, player.gold)), Event(now, Repair(cost, mayRepair)))
    {
      if !mayRepair { return false; }
      var ok := member.Allows(now, cost, bankBalance, player.gold);
      if !ok { return false; }
      member.OnMoneyWithdraw(now, cost);
      SpendMoney(cost);
      return true;
    }
  }
}
