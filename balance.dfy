/**
 * The balance accumulator of the expenses service
 * (src/expenses/expenses.service.ts): one user's share of an expense, and
 * the in-place updates of a `{ youOwe, owesYou, totalSpent }` state by an
 * expense and by a settlement. What each update adds is stated as a pure
 * impact; the lemmas show that an expense conserves money between its
 * payer and its participants, and that a run of settlements floors the
 * balances at zero independently of its order.
 */
module Balance {
  import opened Common
  import opened Records

  /** `expense.splitDetails?.find(d => d.userId === userId)?.amount || 0`. */
  function DetailAmount(details: seq<SplitDetail>, userId: string): (a: real)
    ensures (forall i :: 0 <= i < |details| ==> details[i].userId != userId) ==> a == 0.0
    ensures forall i :: (0 <= i < |details| && details[i].userId == userId
      && (forall j :: 0 <= j < i ==> details[j].userId != userId)) ==> a == details[i].amount
  {
    match FirstWhere(details, (d: SplitDetail) => d.userId == userId)
    case None => 0.0
    case Some(i) => details[i].amount
  }

  /** `computeShareForUser`. */
  function ComputeShareForUser(e: Expense, userId: string): (share: real)
    ensures e.splitType == Equal && (|e.splitBetween| == 0 || userId !in e.splitBetween) ==> share == 0.0
    ensures e.splitType == Equal && userId in e.splitBetween ==> share == e.amount / (|e.splitBetween| as real)
    ensures e.splitType == Unequal ==> share == DetailAmount(e.splitDetails, userId)
  {
    if e.splitType == Equal then
      var count := |e.splitBetween|;
      if count <= 0 then 0.0
      else if userId in e.splitBetween then e.amount / (count as real)
      else 0.0
    else DetailAmount(e.splitDetails, userId)
  }

  /** The three running totals of one user's balance. */
  datatype Totals = Totals(youOwe: real, owesYou: real, totalSpent: real)

  function Add(a: Totals, b: Totals): Totals {
    Totals(a.youOwe + b.youOwe, a.owesYou + b.owesYou, a.totalSpent + b.totalSpent)
  }

  /** The sum of the detail amounts of users other than `userId` (the `reduce` of the payer branch). */
  function OthersDetailTotal(details: seq<SplitDetail>, userId: string): real
    decreases |details|
  {
    if |details| == 0 then 0.0
    else
      var last := details[|details| - 1];
      OthersDetailTotal(details[..|details| - 1], userId) + (if last.userId == userId then 0.0 else last.amount)
  }

  /**
   * What `applyExpenseBalanceImpact` adds to a user's totals. The payer
   * spends the whole amount and is owed all of it except their own share;
   * a participant who did not pay owes their share; anyone else is
   * untouched.
   */
  function ExpenseImpact(e: Expense, userId: string): (t: Totals)
    ensures e.paidBy == userId ==> t.totalSpent == e.amount && t.youOwe == 0.0
    ensures e.paidBy == userId && e.splitType == Equal ==>
      t.owesYou == if |e.splitBetween| == 0 then 0.0 else e.amount - ComputeShareForUser(e, userId)
    ensures e.paidBy == userId && e.splitType == Unequal ==> t.owesYou == OthersDetailTotal(e.splitDetails, userId)
    ensures e.paidBy != userId ==>
      t == Totals(if userId in e.splitBetween then ComputeShareForUser(e, userId) else 0.0, 0.0, 0.0)
  {
    if e.paidBy == userId then
      var owed :=
        if e.splitType == Equal then
          var count := |e.splitBetween|;
          if count > 0 then
            var share := e.amount / (count as real);
            if userId in e.splitBetween then share * ((count - 1) as real) else e.amount
          else 0.0
        else OthersDetailTotal(e.splitDetails, userId);
      Totals(0.0, owed, e.amount)
    else if userId in e.splitBetween then Totals(ComputeShareForUser(e, userId), 0.0, 0.0)
    else Totals(0.0, 0.0, 0.0)
  }

  function Max0(x: real): real { if x >= 0.0 then x else 0.0 }

  /**
   * What `applySettlementBalanceImpact` does to a user's totals: the payer
   * of the settlement owes less, its receiver is owed less, neither below
   * zero, and the amount spent is untouched.
   */
  function SettlementImpact(t: Totals, s: Settlement, userId: string): (r: Totals)
    ensures r.totalSpent == t.totalSpent
    ensures s.fromUserId == userId ==> r.youOwe == Max0(t.youOwe - s.amount) && r.youOwe >= 0.0
    ensures s.fromUserId != userId ==> r.youOwe == t.youOwe
    ensures s.toUserId == userId ==> r.owesYou == Max0(t.owesYou - s.amount) && r.owesYou >= 0.0
    ensures s.toUserId != userId ==> r.owesYou == t.owesYou
  {
    var youOwe := if s.fromUserId == userId then Max0(t.youOwe - s.amount) else t.youOwe;
    var owesYou := if s.toUserId == userId then Max0(t.owesYou - s.amount) else t.owesYou;
    Totals(youOwe, owesYou, t.totalSpent)
  }

  /** The `state` object both impacts update in place. */
  class BalanceState {
    var youOwe: real
    var owesYou: real
    var totalSpent: real

    constructor ()
      ensures Snapshot() == Totals(0.0, 0.0, 0.0)
    {
      youOwe, owesYou, totalSpent := 0.0, 0.0, 0.0;
    }

    function Snapshot(): Totals
      reads this
    {
      Totals(youOwe, owesYou, totalSpent)
    }

    /** `applyExpenseBalanceImpact`. */
    method ApplyExpense(e: Expense, userId: string)
      modifies this
      ensures Snapshot() == Add(old(Snapshot()), ExpenseImpact(e, userId))
    {
      var isPaidByMe := e.paidBy == userId;
      var isInSplit := userId in e.splitBetween;
      if isPaidByMe {
        totalSpent := totalSpent + e.amount;
        if e.splitType == Equal {
          var count := |e.splitBetween|;
          if count > 0 {
            var share := e.amount / (count as real);
            owesYou := owesYou + (if isInSplit then share * ((count - 1) as real) else e.amount);
          }
        } else {
          owesYou := owesYou + OthersDetailTotal(e.splitDetails, userId);
        }
        return;
      }
      if isInSplit {
        youOwe := youOwe + ComputeShareForUser(e, userId);
      }
    }

    /** `applySettlementBalanceImpact`. */
    method ApplySettlement(s: Settlement, userId: string)
      modifies this
      ensures Snapshot() == SettlementImpact(old(Snapshot()), s, userId)
    {
      if s.fromUserId == userId {
        youOwe := Max0(youOwe - s.amount);
      }
      if s.toUserId == userId {
        owesYou := Max0(owesYou - s.amount);
      }
    }
  }

  // ---------------------------------------------------------------------
  // Conservation: what the payer is owed is what the others owe

  /** A split as the normaliser stores it: participants once each, details aligned with them. */
  predicate NormalisedSplit(e: Expense) {
    && |e.splitBetween| > 0
    && NoDup(e.splitBetween)
    && (e.splitType == Unequal ==>
          |e.splitDetails| == |e.splitBetween|
          && forall i :: 0 <= i < |e.splitDetails| ==> e.splitDetails[i].userId == e.splitBetween[i])
  }

  /** The sum of what the listed users other than the payer owe for `e`. */
  function OwedByOthers(e: Expense, ids: seq<string>): real
    decreases |ids|
  {
    if |ids| == 0 then 0.0
    else
      var u := ids[|ids| - 1];
      OwedByOthers(e, ids[..|ids| - 1]) + (if u == e.paidBy then 0.0 else ExpenseImpact(e, u).youOwe)
  }

  /** The number of the listed users other than `payer`. */
  function OthersCount(ids: seq<string>, payer: string): nat
    decreases |ids|
  {
    if |ids| == 0 then 0
    else OthersCount(ids[..|ids| - 1], payer) + (if ids[|ids| - 1] == payer then 0 else 1)
  }

  lemma OwedStep(e: Expense, ids: seq<string>, k: nat)
    requires 0 < k <= |ids|
    ensures OwedByOthers(e, ids[..k]) == OwedByOthers(e, ids[..k - 1])
      + (if ids[k - 1] == e.paidBy then 0.0 else ExpenseImpact(e, ids[k - 1]).youOwe)
  {
    assert ids[..k][..k - 1] == ids[..k - 1];
  }

  lemma OthersStep(ids: seq<string>, payer: string, k: nat)
    requires 0 < k <= |ids|
    ensures OthersCount(ids[..k], payer) == OthersCount(ids[..k - 1], payer) + (if ids[k - 1] == payer then 0 else 1)
  {
    assert ids[..k][..k - 1] == ids[..k - 1];
  }

  lemma DetailsStep(details: seq<SplitDetail>, payer: string, k: nat)
    requires 0 < k <= |details|
    ensures OthersDetailTotal(details[..k], payer) == OthersDetailTotal(details[..k - 1], payer)
      + (if details[k - 1].userId == payer then 0.0 else details[k - 1].amount)
  {
    assert details[..k][..k - 1] == details[..k - 1];
  }

  /** `x` added up `c` times. */
  function Times(c: nat, x: real): real
    decreases c
  {
    if c == 0 then 0.0 else Times(c - 1, x) + x
  }

  lemma {:induction false} TimesIsProduct(c: nat, x: real)
    ensures Times(c, x) == (c as real) * x
    decreases c
  {
    if c > 0 {
      TimesIsProduct(c - 1, x);
      assert (c as real) * x == ((c - 1) as real) * x + x;
    }
  }

  /** When every listed user other than the payer owes `x`, the others owe `x` times their number. */
  lemma {:induction false} OwedUniform(e: Expense, ids: seq<string>, x: real)
    requires forall i :: 0 <= i < |ids| && ids[i] != e.paidBy ==> ExpenseImpact(e, ids[i]).youOwe == x
    ensures OwedByOthers(e, ids) == Times(OthersCount(ids, e.paidBy), x)
    decreases |ids|
  {
    if |ids| > 0 {
      var n := |ids| - 1;
      assert ids[..n + 1] == ids;
      OwedStep(e, ids, n + 1);
      OthersStep(ids, e.paidBy, n + 1);
      OwedUniform(e, ids[..n], x);
    }
  }

  /** With an equal split, every participant other than the payer owes one share. */
  lemma EqualShareEach(e: Expense)
    requires e.splitType == Equal && 0 < |e.splitBetween|
    ensures forall i :: 0 <= i < |e.splitBetween| && e.splitBetween[i] != e.paidBy ==>
      ExpenseImpact(e, e.splitBetween[i]).youOwe == e.amount / (|e.splitBetween| as real)
  {
    forall i | 0 <= i < |e.splitBetween| && e.splitBetween[i] != e.paidBy
      ensures ExpenseImpact(e, e.splitBetween[i]).youOwe == e.amount / (|e.splitBetween| as real)
    {
      assert e.splitBetween[i] in e.splitBetween;
    }
  }

  /** With an equal split, the others owe one share each. */
  lemma EqualOwedByOthers(e: Expense)
    requires e.splitType == Equal && 0 < |e.splitBetween|
    ensures OwedByOthers(e, e.splitBetween)
      == Times(OthersCount(e.splitBetween, e.paidBy), e.amount / (|e.splitBetween| as real))
  {
    EqualShareEach(e);
    OwedUniform(e, e.splitBetween, e.amount / (|e.splitBetween| as real));
  }

  /** In a list without duplicates, all but one entry differ from a member `payer`, and all differ from a non-member. */
  lemma {:induction false} OthersCountNoDup(ids: seq<string>, payer: string)
    requires NoDup(ids)
    ensures OthersCount(ids, payer) == if payer in ids then |ids| - 1 else |ids|
  {
    if |ids| > 0 {
      var init := ids[..|ids| - 1];
      assert NoDup(init);
      OthersCountNoDup(init, payer);
      assert ids == init + [ids[|ids| - 1]];
      if ids[|ids| - 1] == payer {
        assert payer !in init;
      }
    }
  }

  /** With aligned details, the amount a participant owes is the detail at their position. */
  lemma AlignedDetailAmount(e: Expense, i: nat)
    requires e.splitType == Unequal && NormalisedSplit(e) && i < |e.splitBetween|
    ensures DetailAmount(e.splitDetails, e.splitBetween[i]) == e.splitDetails[i].amount
  {
    assert forall j :: 0 <= j < i ==> e.splitDetails[j].userId != e.splitBetween[i];
  }

  /** With aligned details, every participant other than the payer owes their own detail. */
  lemma {:induction false} UnequalOwedByOthers(e: Expense, k: nat)
    requires e.splitType == Unequal && NormalisedSplit(e) && k <= |e.splitBetween|
    ensures OwedByOthers(e, e.splitBetween[..k]) == OthersDetailTotal(e.splitDetails[..k], e.paidBy)
  {
    if k > 0 {
      UnequalOwedByOthers(e, k - 1);
      OwedStep(e, e.splitBetween, k);
      DetailsStep(e.splitDetails, e.paidBy, k);
      var u := e.splitBetween[k - 1];
      if u != e.paidBy {
        AlignedDetailAmount(e, k - 1);
        assert u in e.splitBetween;
      }
    }
  }

  /**
   * For a normalised split, what the payer's balance gains in `owesYou` is
   * exactly the sum of what the other participants' balances gain in
   * `youOwe`: an expense moves money between its members and creates none.
   */
  lemma Conservation(e: Expense)
    requires NormalisedSplit(e)
    ensures ExpenseImpact(e, e.paidBy).owesYou == OwedByOthers(e, e.splitBetween)
  {
    var n := |e.splitBetween|;
    if e.splitType == Equal {
      EqualOwedByOthers(e);
      OthersCountNoDup(e.splitBetween, e.paidBy);
      ShareTimes(e.amount, n, OthersCount(e.splitBetween, e.paidBy));
    } else {
      assert e.splitBetween[..n] == e.splitBetween;
      assert e.splitDetails[..n] == e.splitDetails;
      UnequalOwedByOthers(e, n);
    }
  }

  /** `n` shares of `amount / n` are the amount; `n - 1` of them are one share times `n - 1`. */
  lemma ShareTimes(amount: real, n: nat, c: nat)
    requires n > 0 && (c == n || c == n - 1)
    ensures Times(c, amount / (n as real)) == if c == n then amount else amount / (n as real) * ((n - 1) as real)
  {
    var share := amount / (n as real);
    TimesIsProduct(c, share);
    if c == n {
      assert (n as real) * share == amount;
    } else {
      assert (c as real) * share == share * ((n - 1) as real);
    }
  }

  /** The sum of the shares of the listed users. */
  function SumShares(e: Expense, ids: seq<string>): real
    decreases |ids|
  {
    if |ids| == 0 then 0.0
    else SumShares(e, ids[..|ids| - 1]) + ComputeShareForUser(e, ids[|ids| - 1])
  }

  /** The shares of an equal split add up to the amount. */
  lemma EqualSharesSumToAmount(e: Expense)
    requires e.splitType == Equal && |e.splitBetween| > 0
    ensures SumShares(e, e.splitBetween) == e.amount
  {
    var n := |e.splitBetween|;
    var share := e.amount / (n as real);
    forall i | 0 <= i < n ensures ComputeShareForUser(e, e.splitBetween[i]) == share {
      assert e.splitBetween[i] in e.splitBetween;
    }
    SharesUniform(e, e.splitBetween, share);
    TimesIsProduct(n, share);
    assert (n as real) * share == e.amount;
  }

  /** When every listed user's share is `x`, the shares add up to `x` times their number. */
  lemma {:induction false} SharesUniform(e: Expense, ids: seq<string>, x: real)
    requires forall i :: 0 <= i < |ids| ==> ComputeShareForUser(e, ids[i]) == x
    ensures SumShares(e, ids) == Times(|ids|, x)
    decreases |ids|
  {
    if |ids| > 0 {
      var n := |ids| - 1;
      assert ids[..n + 1][..n] == ids[..n];
      SharesUniform(e, ids[..n], x);
    }
  }

  // ---------------------------------------------------------------------
  // A run of settlements

  /** The totals after applying each settlement in turn. */
  function SettleAll(t: Totals, ss: seq<Settlement>, userId: string): Totals
    decreases |ss|
  {
    if |ss| == 0 then t
    else SettlementImpact(SettleAll(t, ss[..|ss| - 1], userId), ss[|ss| - 1], userId)
  }

  /** The total the user paid out in settlements. */
  function PaidOut(ss: seq<Settlement>, userId: string): real
    decreases |ss|
  {
    if |ss| == 0 then 0.0
    else PaidOut(ss[..|ss| - 1], userId) + (if ss[|ss| - 1].fromUserId == userId then ss[|ss| - 1].amount else 0.0)
  }

  /** The total the user received in settlements. */
  function PaidIn(ss: seq<Settlement>, userId: string): real
    decreases |ss|
  {
    if |ss| == 0 then 0.0
    else PaidIn(ss[..|ss| - 1], userId) + (if ss[|ss| - 1].toUserId == userId then ss[|ss| - 1].amount else 0.0)
  }

  /**
   * Settlements with non-negative amounts, applied to non-negative
   * balances, leave each balance at its excess over the total settled, and
   * never below zero: the result depends only on the totals, not on the
   * order of the settlements.
   */
  lemma {:induction false} SettlementsFloorAtZero(t: Totals, ss: seq<Settlement>, userId: string)
    requires t.youOwe >= 0.0 && t.owesYou >= 0.0
    requires forall i :: 0 <= i < |ss| ==> ss[i].amount >= 0.0
    ensures SettleAll(t, ss, userId)
      == Totals(Max0(t.youOwe - PaidOut(ss, userId)), Max0(t.owesYou - PaidIn(ss, userId)), t.totalSpent)
  {
    if |ss| > 0 {
      SettlementsFloorAtZero(t, ss[..|ss| - 1], userId);
    }
  }
}
