/**
 * The analytics summary of src/expenses/expenses.service.ts
 * (`getAnalyticsSummary`): the user's expenses and settlements, read by two
 * queries each and deduplicated by id, are filtered by group and time
 * window; the expenses are folded into the balance and into per-category,
 * per-group, per-day and per-month totals, and the settlements into the
 * balance and the settlement flows. The current time is a parameter.
 */
module Analytics {
  import opened Common
  import opened Records
  import Balance

  // ---------------------------------------------------------------------
  // The time window

  /**
   * The `timeFilter` query value: `30D` is `Last30Days`, a missing or empty
   * value is `AllTime`, and `90D` or any other string (the controller passes
   * the raw query value through) is `Last90Days`.
   */
  datatype TimeFilter = Last30Days | Last90Days | AllTime

  /** Milliseconds in a day. */
  const DayMs: int := 24 * 60 * 60 * 1000

  /** `isWithinRange`: all time, or at most 30 or 90 days before `now`. */
  function IsWithinRange(at: Instant, tf: TimeFilter, now: int): (b: bool)
    ensures tf == AllTime ==> b
    ensures tf == Last30Days ==> (b <==> now - at.ms <= 30 * 86400000)
    ensures tf == Last90Days ==> (b <==> now - at.ms <= 90 * 86400000)
  {
    if tf == AllTime then true
    else
      var days := if tf == Last30Days then 30 else 90;
      at.ms >= now - days * DayMs
  }

  /** The windows are nested: the last 30 days lie within the last 90, and those within all time. */
  lemma WindowsNest(at: Instant, now: int)
    ensures IsWithinRange(at, Last30Days, now) ==> IsWithinRange(at, Last90Days, now)
    ensures IsWithinRange(at, Last90Days, now) ==> IsWithinRange(at, AllTime, now)
  {
  }

  // ---------------------------------------------------------------------
  // groupsById

  /** The `reduce` that indexes the groups by id: a later row with the same id wins. */
  function GroupsById(groups: seq<Group>): (m: map<string, Group>)
    ensures forall id :: id in m ==> m[id] in groups && m[id].id == id
    ensures forall i :: 0 <= i < |groups| ==> groups[i].id in m
    decreases |groups|
  {
    if |groups| == 0 then map[]
    else
      var g := groups[|groups| - 1];
      GroupsById(groups[..|groups| - 1])[g.id := g]
  }

  /** The entry for an id is the last group row with that id. */
  lemma {:induction false} GroupsByIdLast(groups: seq<Group>, i: nat)
    requires i < |groups|
    requires forall j :: i < j < |groups| ==> groups[j].id != groups[i].id
    ensures GroupsById(groups)[groups[i].id] == groups[i]
    decreases |groups|
  {
    if i < |groups| - 1 {
      var prefix := groups[..|groups| - 1];
      GroupsByIdLast(prefix, i);
    }
  }

  lemma GroupsByIdStep(groups: seq<Group>, i: nat)
    requires i < |groups|
    ensures GroupsById(groups[..i + 1]) == GroupsById(groups[..i])[groups[i].id := groups[i]]
  {
    assert groups[..i + 1][..i] == groups[..i];
  }

  /** The loop form of the `reduce`. */
  method IndexGroups(groups: seq<Group>) returns (byId: map<string, Group>)
    ensures byId == GroupsById(groups)
  {
    byId := map[];
    var i := 0;
    while i < |groups|
      invariant 0 <= i <= |groups|
      invariant byId == GroupsById(groups[..i])
    {
      GroupsByIdStep(groups, i);
      byId := byId[groups[i].id := groups[i]];
      i := i + 1;
    }
    assert groups[..i] == groups;
  }

  /**
   * The group filter: with a group id, the group must exist (NotFound) and
   * have the user as a member (Forbidden); without one, nothing is checked.
   */
  function GroupFilterCheck(byId: map<string, Group>, groupFilter: Option<string>, userId: string): (r: Outcome)
    ensures !Truthy(groupFilter) ==> r == Pass
    ensures Truthy(groupFilter) && groupFilter.value !in byId ==> r == Fail(NotFound("Group not found"))
    ensures Truthy(groupFilter) && groupFilter.value in byId ==>
      (r.Pass? <==> userId in byId[groupFilter.value].members)
      && (r.Fail? ==> r == Fail(Forbidden("You are not a member of this group")))
  {
    if !Truthy(groupFilter) then Pass
    else if groupFilter.value !in byId then Fail(NotFound("Group not found"))
    else if userId !in byId[groupFilter.value].members then Fail(Forbidden("You are not a member of this group"))
    else Pass
  }

  // ---------------------------------------------------------------------
  // The two queries and the deduplication by id

  function KeysOf<T>(rows: seq<T>, key: T -> string): (ks: seq<string>)
    ensures |ks| == |rows|
    ensures forall i :: 0 <= i < |rows| ==> ks[i] == key(rows[i])
  {
    seq(|rows|, i requires 0 <= i < |rows| => key(rows[i]))
  }

  /** The last row with key `k`: the value a `Map` keeps after every `set`. */
  function LastByKey<T>(rows: seq<T>, key: T -> string, k: string): (r: T)
    requires k in KeysOf(rows, key)
    ensures key(r) == k
    decreases |rows|
  {
    var n := |rows| - 1;
    if key(rows[n]) == k then rows[n]
    else
      assert KeysOf(rows[..n], key) == KeysOf(rows, key)[..n];
      LastByKey(rows[..n], key, k)
  }

  /**
   * `Array.from(map.values())` after `map.set(key(row), row)` for every row:
   * one row per key, in the order each key first appeared, each the last
   * row with that key.
   */
  function UniqueByKey<T>(rows: seq<T>, key: T -> string): (r: seq<T>)
    ensures KeysOf(r, key) == Dedup(KeysOf(rows, key))
    ensures NoDup(KeysOf(r, key))
  {
    var ks := Dedup(KeysOf(rows, key));
    seq(|ks|, i requires 0 <= i < |ks| => LastByKey(rows, key, ks[i]))
  }

  lemma LastByKeySnoc<T>(rows: seq<T>, key: T -> string, x: T, k: string)
    requires k in KeysOf(rows, key) && k != key(x)
    ensures k in KeysOf(rows + [x], key) && LastByKey(rows + [x], key, k) == LastByKey(rows, key, k)
  {
    var ks := KeysOf(rows, key);
    var i :| 0 <= i < |ks| && ks[i] == k;
    assert KeysOf(rows + [x], key)[i] == k;
    assert (rows + [x])[..|rows|] == rows;
  }

  /** `order` and `byKey` are the `Map` after a `set` for every row: its keys in insertion order and its values. */
  ghost predicate Collected<T>(rows: seq<T>, key: T -> string, order: seq<string>, byKey: map<string, T>) {
    && order == Dedup(KeysOf(rows, key))
    && (forall k :: k in byKey <==> k in KeysOf(rows, key))
    && (forall k :: k in byKey ==> k in KeysOf(rows, key) && byKey[k] == LastByKey(rows, key, k))
  }

  lemma KeysOfSnoc<T>(rows: seq<T>, key: T -> string, x: T)
    ensures KeysOf(rows + [x], key) == KeysOf(rows, key) + [key(x)]
  {
  }

  /** One `map.set`: a new key goes to the end, and the row becomes the key's value. */
  lemma CollectStep<T>(rows: seq<T>, key: T -> string, i: nat, order: seq<string>, byKey: map<string, T>)
    requires i < |rows| && Collected(rows[..i], key, order, byKey)
    ensures Collected(rows[..i + 1], key, if key(rows[i]) in byKey then order else order + [key(rows[i])],
                      byKey[key(rows[i]) := rows[i]])
  {
    var x := rows[i];
    var k := key(x);
    assert rows[..i + 1] == rows[..i] + [x];
    var order' := if k in byKey then order else order + [k];
    KeysOfSnoc(rows[..i], key, x);
    DedupSnoc(KeysOf(rows[..i], key), k);
    assert order' == Dedup(KeysOf(rows[..i] + [x], key));
    CollectStepKeys(rows[..i], key, x, byKey);
    CollectStepValues(rows[..i], key, x, byKey);
  }

  lemma CollectStepKeys<T>(rows: seq<T>, key: T -> string, x: T, byKey: map<string, T>)
    requires forall k :: k in byKey <==> k in KeysOf(rows, key)
    ensures forall k :: k in byKey[key(x) := x] <==> k in KeysOf(rows + [x], key)
  {
    KeysOfSnoc(rows, key, x);
  }

  lemma CollectStepValues<T>(rows: seq<T>, key: T -> string, x: T, byKey: map<string, T>)
    requires forall k :: k in byKey ==> k in KeysOf(rows, key) && byKey[k] == LastByKey(rows, key, k)
    ensures forall k :: k in byKey[key(x) := x] ==>
      k in KeysOf(rows + [x], key) && byKey[key(x) := x][k] == LastByKey(rows + [x], key, k)
  {
    KeysOfSnoc(rows, key, x);
    forall j | j in byKey && j != key(x)
      ensures LastByKey(rows + [x], key, j) == LastByKey(rows, key, j)
    {
      LastByKeySnoc(rows, key, x, j);
    }
  }

  /** `Array.from(map.values())` of the filled `Map` is `UniqueByKey`. */
  lemma CollectedValues<T>(rows: seq<T>, key: T -> string, order: seq<string>, byKey: map<string, T>)
    requires Collected(rows, key, order, byKey)
    ensures forall j :: 0 <= j < |order| ==> order[j] in byKey
    ensures seq(|order|, j requires 0 <= j < |order| && order[j] in byKey => byKey[order[j]]) == UniqueByKey(rows, key)
  {
  }

  /** The `forEach` over both queries' rows that fills the `Map`. */
  method FillByKey<T>(rows: seq<T>, key: T -> string) returns (order: seq<string>, byKey: map<string, T>)
    ensures Collected(rows, key, order, byKey)
  {
    order, byKey := [], map[];
    for i := 0 to |rows|
      invariant Collected(rows[..i], key, order, byKey)
    {
      var k := key(rows[i]);
      CollectStep(rows, key, i, order, byKey);
      if k !in byKey {
        order := order + [k];
      }
      byKey := byKey[k := rows[i]];
    }
    assert rows[..|rows|] == rows;
  }

  /** The user's rows of both queries, one per id: `Array.from(map.values())` of the filled `Map`. */
  method CollectByKey<T>(rows: seq<T>, key: T -> string) returns (r: seq<T>)
    ensures r == UniqueByKey(rows, key)
  {
    var order, byKey := FillByKey(rows, key);
    CollectedValues(rows, key, order, byKey);
    r := seq(|order|, j requires 0 <= j < |order| && order[j] in byKey => byKey[order[j]]);
  }

  function ExpenseId(e: Expense): string { e.id }

  function SettlementId(s: Settlement): string { s.id }

  function PaidByUser(userId: string): Expense -> bool {
    (e: Expense) => e.paidBy == userId
  }

  function SplitWithUser(userId: string): Expense -> bool {
    (e: Expense) => userId in e.splitBetween
  }

  function FromUser(userId: string): Settlement -> bool {
    (s: Settlement) => s.fromUserId == userId
  }

  function ToUser(userId: string): Settlement -> bool {
    (s: Settlement) => s.toUserId == userId
  }

  /** `listExpensesFromSupabaseForUser`: the rows the user paid, then those splitting with them, once per id. */
  function ExpensesForUser(expenses: seq<Expense>, userId: string): seq<Expense> {
    UniqueByKey(Filter(expenses, PaidByUser(userId)) + Filter(expenses, SplitWithUser(userId)), ExpenseId)
  }

  /** `listSettlementsFromSupabaseForUser`: the rows from the user, then those to the user, once per id. */
  function SettlementsForUser(settlements: seq<Settlement>, userId: string): seq<Settlement> {
    UniqueByKey(Filter(settlements, FromUser(userId)) + Filter(settlements, ToUser(userId)), SettlementId)
  }

  /** Every expense of the user's list involves the user, and every expense involving the user is listed by id. */
  lemma ExpensesForUserInvolve(expenses: seq<Expense>, userId: string)
    ensures forall i :: 0 <= i < |ExpensesForUser(expenses, userId)| ==>
      Involves(ExpensesForUser(expenses, userId)[i], userId)
    ensures forall i :: 0 <= i < |expenses| && Involves(expenses[i], userId) ==>
      expenses[i].id in KeysOf(ExpensesForUser(expenses, userId), ExpenseId)
  {
    var rows := Filter(expenses, PaidByUser(userId)) + Filter(expenses, SplitWithUser(userId));
    var r := ExpensesForUser(expenses, userId);
    forall i | 0 <= i < |r|
      ensures Involves(r[i], userId)
    {
      assert r[i] == LastByKey(rows, ExpenseId, Dedup(KeysOf(rows, ExpenseId))[i]);
      LastByKeyIn(rows, ExpenseId, Dedup(KeysOf(rows, ExpenseId))[i]);
    }
    forall i | 0 <= i < |expenses| && Involves(expenses[i], userId)
      ensures expenses[i].id in KeysOf(r, ExpenseId)
    {
      assert expenses[i] in rows;
      var j :| 0 <= j < |rows| && rows[j] == expenses[i];
      assert KeysOf(rows, ExpenseId)[j] == expenses[i].id;
    }
  }

  lemma {:induction false} LastByKeyIn<T>(rows: seq<T>, key: T -> string, k: string)
    requires k in KeysOf(rows, key)
    ensures LastByKey(rows, key, k) in rows
    decreases |rows|
  {
    var n := |rows| - 1;
    if key(rows[n]) != k {
      assert KeysOf(rows[..n], key) == KeysOf(rows, key)[..n];
      LastByKeyIn(rows[..n], key, k);
    }
  }

  // ---------------------------------------------------------------------
  // The filters

  predicate Involves(e: Expense, userId: string) {
    e.paidBy == userId || userId in e.splitBetween
  }

  /** An expense the summary counts: the user's, in the filtered group if any, dated, within the window. */
  predicate ExpenseCounted(e: Expense, userId: string, groupFilter: Option<string>, tf: TimeFilter, now: int) {
    && Involves(e, userId)
    && (Truthy(groupFilter) ==> e.groupId == groupFilter)
    && e.date.Parsed?
    && IsWithinRange(e.date.at, tf, now)
  }

  function CountedExpense(userId: string, groupFilter: Option<string>, tf: TimeFilter, now: int): Expense -> bool {
    (e: Expense) => ExpenseCounted(e, userId, groupFilter, tf, now)
  }

  /** `settledAt || createdAt`. */
  function SettlementDate(s: Settlement): DateText {
    if s.settledAt != Empty then s.settledAt else s.createdAt
  }

  /** A settlement the summary counts: the user is a party, in the filtered group if any, dated, within the window. */
  predicate SettlementCounted(s: Settlement, userId: string, groupFilter: Option<string>, tf: TimeFilter, now: int) {
    && (s.fromUserId == userId || s.toUserId == userId)
    && (Truthy(groupFilter) ==> s.groupId == groupFilter)
    && SettlementDate(s).Parsed?
    && IsWithinRange(SettlementDate(s).at, tf, now)
  }

  function CountedSettlement(userId: string, groupFilter: Option<string>, tf: TimeFilter, now: int): Settlement -> bool {
    (s: Settlement) => SettlementCounted(s, userId, groupFilter, tf, now)
  }

  // ---------------------------------------------------------------------
  // Buckets

  /**
   * The day and month keys. `Day(y, m, d)` is the `YYYY-MM-DD` string and
   * `Month(y, m)` the `YYYY-MM` one; an undated expense would give the
   * `NaN` keys.
   */
  datatype DayKey = Day(year: int, month: int, day: int) | NoDay
  datatype MonthKey = Month(year: int, month: int) | NoMonth

  function DayOf(e: Expense): DayKey {
    if e.date.Parsed? then Day(e.date.at.year, e.date.at.month, e.date.at.day) else NoDay
  }

  function MonthOf(e: Expense): MonthKey {
    if e.date.Parsed? then Month(e.date.at.year, e.date.at.month) else NoMonth
  }

  /** `expense.category || 'Others'`. */
  function CategoryOf(e: Expense): string {
    if e.category != "" then e.category else "Others"
  }

  /** The group label: 'Personal' without a group, else the group's name or 'Unnamed Group'. */
  function GroupLabel(byId: map<string, Group>): Expense -> string {
    (e: Expense) =>
      if !Truthy(e.groupId) then "Personal"
      else if e.groupId.value in byId && byId[e.groupId.value].name != "" then byId[e.groupId.value].name
      else "Unnamed Group"
  }

  /** `m[k] = (m[k] || 0) + amount`. */
  function AddTo<K(==)>(m: map<K, real>, k: K, amount: real): map<K, real> {
    m[k := (if k in m then m[k] else 0.0) + amount]
  }

  /** The totals the `forEach` builds for one labelling of the expenses. */
  function Buckets<K(==)>(es: seq<Expense>, labelOf: Expense -> K): map<K, real>
    decreases |es|
  {
    if |es| == 0 then map[]
    else AddTo(Buckets(es[..|es| - 1], labelOf), labelOf(es[|es| - 1]), es[|es| - 1].amount)
  }

  /** The total amount of the expenses labelled `k`. */
  function AmountLabelled<K(==)>(es: seq<Expense>, labelOf: Expense -> K, k: K): real
    decreases |es|
  {
    if |es| == 0 then 0.0
    else AmountLabelled(es[..|es| - 1], labelOf, k) + (if labelOf(es[|es| - 1]) == k then es[|es| - 1].amount else 0.0)
  }

  /**
   * Each expense adds its amount to exactly one bucket, its own labelOf's: a
   * labelOf has a bucket exactly when some expense carries it, and the bucket
   * holds the total of those expenses.
   */
  lemma {:induction false} BucketsHoldTotals<K>(es: seq<Expense>, labelOf: Expense -> K, k: K)
    ensures k in Buckets(es, labelOf) <==> exists i :: 0 <= i < |es| && labelOf(es[i]) == k
    ensures k in Buckets(es, labelOf) ==> Buckets(es, labelOf)[k] == AmountLabelled(es, labelOf, k)
    ensures k !in Buckets(es, labelOf) ==> AmountLabelled(es, labelOf, k) == 0.0
    decreases |es|
  {
    if |es| > 0 {
      var n := |es| - 1;
      BucketsHoldTotals(es[..n], labelOf, k);
      assert forall i :: 0 <= i < n ==> es[..n][i] == es[i];
      if labelOf(es[n]) != k && k in Buckets(es, labelOf) {
        var i :| 0 <= i < n && labelOf(es[..n][i]) == k;
      }
    }
  }

  // ---------------------------------------------------------------------
  // Balance and settlement flows

  /** The balance the expenses add up to from zero, in list order. */
  function BalanceOf(es: seq<Expense>, userId: string): Balance.Totals
    decreases |es|
  {
    if |es| == 0 then Balance.Totals(0.0, 0.0, 0.0)
    else Balance.Add(BalanceOf(es[..|es| - 1], userId), Balance.ExpenseImpact(es[|es| - 1], userId))
  }

  /** The amount of the expenses the user paid. */
  function PaidAmount(es: seq<Expense>, userId: string): real
    decreases |es|
  {
    if |es| == 0 then 0.0
    else PaidAmount(es[..|es| - 1], userId) + (if es[|es| - 1].paidBy == userId then es[|es| - 1].amount else 0.0)
  }

  /** `totalSpent` is the total of the expenses the user paid, whoever shares them. */
  lemma {:induction false} TotalSpentIsPaid(es: seq<Expense>, userId: string)
    ensures BalanceOf(es, userId).totalSpent == PaidAmount(es, userId)
    decreases |es|
  {
    if |es| > 0 {
      TotalSpentIsPaid(es[..|es| - 1], userId);
    }
  }

  datatype Flows = Flows(paid: real, received: real, net: real)

  /** `settlementTotals` as the `forEach` keeps it, `net` moved along with the other two. */
  function FlowsOf(ss: seq<Settlement>, userId: string): Flows
    decreases |ss|
  {
    if |ss| == 0 then Flows(0.0, 0.0, 0.0)
    else
      var f := FlowsOf(ss[..|ss| - 1], userId);
      var s := ss[|ss| - 1];
      var f1 := if s.fromUserId == userId then Flows(f.paid + s.amount, f.received, f.net - s.amount) else f;
      if s.toUserId == userId then Flows(f1.paid, f1.received + s.amount, f1.net + s.amount) else f1
  }

  /** `paid` is what the user sent, `received` what they got, and `net` their difference. */
  lemma {:induction false} FlowsNet(ss: seq<Settlement>, userId: string)
    ensures FlowsOf(ss, userId).paid == Balance.PaidOut(ss, userId)
    ensures FlowsOf(ss, userId).received == Balance.PaidIn(ss, userId)
    ensures FlowsOf(ss, userId).net == FlowsOf(ss, userId).received - FlowsOf(ss, userId).paid
    decreases |ss|
  {
    if |ss| > 0 {
      FlowsNet(ss[..|ss| - 1], userId);
    }
  }

  // ---------------------------------------------------------------------
  // The summary

  datatype Summary = Summary(
    youOwe: real,
    owesYou: real,
    totalSpent: real,
    transactionCount: nat,
    categoryTotals: map<string, real>,
    groupTotals: map<string, real>,
    dailyTotals: map<DayKey, real>,
    monthlyTotals: map<MonthKey, real>,
    settlementTotals: Flows)

  function WindowOf(timeFilter: Option<TimeFilter>): TimeFilter {
    if timeFilter.Some? then timeFilter.value else AllTime
  }

  /** The expenses the summary counts. */
  function CountedExpenses(expenses: seq<Expense>, userId: string, groupFilter: Option<string>,
                           timeFilter: Option<TimeFilter>, now: int): seq<Expense> {
    Filter(ExpensesForUser(expenses, userId), CountedExpense(userId, groupFilter, WindowOf(timeFilter), now))
  }

  /** The settlements the summary counts. */
  function CountedSettlements(settlements: seq<Settlement>, userId: string, groupFilter: Option<string>,
                              timeFilter: Option<TimeFilter>, now: int): seq<Settlement> {
    Filter(SettlementsForUser(settlements, userId), CountedSettlement(userId, groupFilter, WindowOf(timeFilter), now))
  }

  /** What `getAnalyticsSummary` returns for the stored groups, expenses and settlements. */
  function AnalyticsSummary(groups: seq<Group>, expenses: seq<Expense>, settlements: seq<Settlement>, userId: string,
                            groupFilter: Option<string>, timeFilter: Option<TimeFilter>, now: int): (r: Result<Summary>)
    ensures r.Err? <==> GroupFilterCheck(GroupsById(groups), groupFilter, userId).Fail?
  {
    var byId := GroupsById(groups);
    match GroupFilterCheck(byId, groupFilter, userId)
    case Fail(e) => Err(e)
    case Pass =>
      var es := CountedExpenses(expenses, userId, groupFilter, timeFilter, now);
      var ss := CountedSettlements(settlements, userId, groupFilter, timeFilter, now);
      var t := Balance.SettleAll(BalanceOf(es, userId), ss, userId);
      Ok(Summary(t.youOwe, t.owesYou, t.totalSpent, |es|,
                 Buckets(es, CategoryOf), Buckets(es, GroupLabel(byId)), Buckets(es, DayOf), Buckets(es, MonthOf),
                 FlowsOf(ss, userId)))
  }

  /**
   * Only the user's expenses, in the filtered group, dated within the
   * window, are counted, and `transactionCount` is their number.
   */
  lemma SummaryCounts(groups: seq<Group>, expenses: seq<Expense>, settlements: seq<Settlement>, userId: string,
                      groupFilter: Option<string>, timeFilter: Option<TimeFilter>, now: int)
    ensures var r := AnalyticsSummary(groups, expenses, settlements, userId, groupFilter, timeFilter, now);
      var es := CountedExpenses(expenses, userId, groupFilter, timeFilter, now);
      && (r.Ok? ==> r.value.transactionCount == |es|)
      && (forall i :: 0 <= i < |es| ==>
            (&& Involves(es[i], userId)
             && (Truthy(groupFilter) ==> es[i].groupId == groupFilter)
             && es[i].date.Parsed?
             && IsWithinRange(es[i].date.at, WindowOf(timeFilter), now)))
  {
  }

  /**
   * Every bucket of the summary holds the total of the counted expenses
   * carrying its labelOf, and there is no bucket without such an expense.
   */
  lemma SummaryCategoryTotals(groups: seq<Group>, expenses: seq<Expense>, settlements: seq<Settlement>, userId: string,
                              groupFilter: Option<string>, timeFilter: Option<TimeFilter>, now: int, category: string)
    requires GroupFilterCheck(GroupsById(groups), groupFilter, userId).Pass?
    ensures var r := AnalyticsSummary(groups, expenses, settlements, userId, groupFilter, timeFilter, now).value;
      var es := CountedExpenses(expenses, userId, groupFilter, timeFilter, now);
      && (category in r.categoryTotals <==> exists i :: 0 <= i < |es| && CategoryOf(es[i]) == category)
      && (category in r.categoryTotals ==> r.categoryTotals[category] == AmountLabelled(es, CategoryOf, category))
  {
    BucketsHoldTotals(CountedExpenses(expenses, userId, groupFilter, timeFilter, now), CategoryOf, category);
  }

  /** The same for the group labels. */
  lemma SummaryGroupTotals(groups: seq<Group>, expenses: seq<Expense>, settlements: seq<Settlement>, userId: string,
                           groupFilter: Option<string>, timeFilter: Option<TimeFilter>, now: int, labelOf: string)
    requires GroupFilterCheck(GroupsById(groups), groupFilter, userId).Pass?
    ensures var r := AnalyticsSummary(groups, expenses, settlements, userId, groupFilter, timeFilter, now).value;
      var es := CountedExpenses(expenses, userId, groupFilter, timeFilter, now);
      var byId := GroupsById(groups);
      && (labelOf in r.groupTotals <==> exists i :: 0 <= i < |es| && GroupLabel(byId)(es[i]) == labelOf)
      && (labelOf in r.groupTotals ==> r.groupTotals[labelOf] == AmountLabelled(es, GroupLabel(byId), labelOf))
  {
    BucketsHoldTotals(CountedExpenses(expenses, userId, groupFilter, timeFilter, now), GroupLabel(GroupsById(groups)), labelOf);
  }

  /** The same for the days and the months; every counted expense is dated, so none lands on the `NaN` keys. */
  lemma SummaryDateTotals(groups: seq<Group>, expenses: seq<Expense>, settlements: seq<Settlement>, userId: string,
                          groupFilter: Option<string>, timeFilter: Option<TimeFilter>, now: int, day: DayKey, month: MonthKey)
    requires GroupFilterCheck(GroupsById(groups), groupFilter, userId).Pass?
    ensures var r := AnalyticsSummary(groups, expenses, settlements, userId, groupFilter, timeFilter, now).value;
      var es := CountedExpenses(expenses, userId, groupFilter, timeFilter, now);
      && (day in r.dailyTotals ==> r.dailyTotals[day] == AmountLabelled(es, DayOf, day) && day.Day?)
      && (month in r.monthlyTotals ==> r.monthlyTotals[month] == AmountLabelled(es, MonthOf, month) && month.Month?)
  {
    var es := CountedExpenses(expenses, userId, groupFilter, timeFilter, now);
    BucketsHoldTotals(es, DayOf, day);
    BucketsHoldTotals(es, MonthOf, month);
  }

  /**
   * The balance of the summary: `totalSpent` is what the user paid for the
   * counted expenses, and the settlement flows satisfy net = received - paid.
   */
  lemma SummaryBalance(groups: seq<Group>, expenses: seq<Expense>, settlements: seq<Settlement>, userId: string,
                       groupFilter: Option<string>, timeFilter: Option<TimeFilter>, now: int)
    requires GroupFilterCheck(GroupsById(groups), groupFilter, userId).Pass?
    ensures var r := AnalyticsSummary(groups, expenses, settlements, userId, groupFilter, timeFilter, now).value;
      var es := CountedExpenses(expenses, userId, groupFilter, timeFilter, now);
      var ss := CountedSettlements(settlements, userId, groupFilter, timeFilter, now);
      && r.totalSpent == PaidAmount(es, userId)
      && r.settlementTotals.paid == Balance.PaidOut(ss, userId)
      && r.settlementTotals.received == Balance.PaidIn(ss, userId)
      && r.settlementTotals.net == r.settlementTotals.received - r.settlementTotals.paid
  {
    var es := CountedExpenses(expenses, userId, groupFilter, timeFilter, now);
    var ss := CountedSettlements(settlements, userId, groupFilter, timeFilter, now);
    TotalSpentIsPaid(es, userId);
    SettleAllKeepsSpent(BalanceOf(es, userId), ss, userId);
    FlowsNet(ss, userId);
  }

  lemma {:induction false} SettleAllKeepsSpent(t: Balance.Totals, ss: seq<Settlement>, userId: string)
    ensures Balance.SettleAll(t, ss, userId).totalSpent == t.totalSpent
    decreases |ss|
  {
    if |ss| > 0 {
      SettleAllKeepsSpent(t, ss[..|ss| - 1], userId);
    }
  }

  // ---------------------------------------------------------------------
  // The service method

  /** One more expense adds its amount to its own bucket. */
  lemma BucketsStep<K>(es: seq<Expense>, labelOf: Expense -> K, i: nat)
    requires i < |es|
    ensures Buckets(es[..i + 1], labelOf) == AddTo(Buckets(es[..i], labelOf), labelOf(es[i]), es[i].amount)
  {
    assert es[..i + 1][..i] == es[..i];
  }

  /** One more expense adds its impact to the balance. */
  lemma BalanceOfStep(es: seq<Expense>, userId: string, i: nat)
    requires i < |es|
    ensures BalanceOf(es[..i + 1], userId) == Balance.Add(BalanceOf(es[..i], userId), Balance.ExpenseImpact(es[i], userId))
  {
    assert es[..i + 1][..i] == es[..i];
  }

  /** The bucket updates for one expense: each of the four maps gains the expense's amount under its label. */
  method AddToBuckets(es: seq<Expense>, i: nat, byId: map<string, Group>,
                      categoryTotals: map<string, real>, groupTotals: map<string, real>,
                      dailyTotals: map<DayKey, real>, monthlyTotals: map<MonthKey, real>)
    returns (categoryTotals': map<string, real>, groupTotals': map<string, real>,
             dailyTotals': map<DayKey, real>, monthlyTotals': map<MonthKey, real>)
    requires i < |es|
    requires categoryTotals == Buckets(es[..i], CategoryOf) && groupTotals == Buckets(es[..i], GroupLabel(byId))
    requires dailyTotals == Buckets(es[..i], DayOf) && monthlyTotals == Buckets(es[..i], MonthOf)
    ensures categoryTotals' == Buckets(es[..i + 1], CategoryOf) && groupTotals' == Buckets(es[..i + 1], GroupLabel(byId))
    ensures dailyTotals' == Buckets(es[..i + 1], DayOf) && monthlyTotals' == Buckets(es[..i + 1], MonthOf)
  {
    var expense := es[i];
    BucketsStep(es, CategoryOf, i);
    BucketsStep(es, GroupLabel(byId), i);
    BucketsStep(es, DayOf, i);
    BucketsStep(es, MonthOf, i);
    var amount := expense.amount;
    categoryTotals' := AddTo(categoryTotals, CategoryOf(expense), amount);
    groupTotals' := AddTo(groupTotals, GroupLabel(byId)(expense), amount);
    dailyTotals' := AddTo(dailyTotals, DayOf(expense), amount);
    monthlyTotals' := AddTo(monthlyTotals, MonthOf(expense), amount);
  }

  /** The `forEach` over the counted expenses, updating the balance state and the four bucket maps. */
  method AccumulateExpenses(es: seq<Expense>, userId: string, byId: map<string, Group>, state: Balance.BalanceState)
    returns (categoryTotals: map<string, real>, groupTotals: map<string, real>,
             dailyTotals: map<DayKey, real>, monthlyTotals: map<MonthKey, real>)
    modifies state
    ensures state.Snapshot() == Balance.Add(old(state.Snapshot()), BalanceOf(es, userId))
    ensures categoryTotals == Buckets(es, CategoryOf) && groupTotals == Buckets(es, GroupLabel(byId))
    ensures dailyTotals == Buckets(es, DayOf) && monthlyTotals == Buckets(es, MonthOf)
  {
    categoryTotals, groupTotals, dailyTotals, monthlyTotals := map[], map[], map[], map[];
    var i := 0;
    while i < |es|
      invariant 0 <= i <= |es|
      invariant state.Snapshot() == Balance.Add(old(state.Snapshot()), BalanceOf(es[..i], userId))
      invariant categoryTotals == Buckets(es[..i], CategoryOf) && groupTotals == Buckets(es[..i], GroupLabel(byId))
      invariant dailyTotals == Buckets(es[..i], DayOf) && monthlyTotals == Buckets(es[..i], MonthOf)
    {
      var expense := es[i];
      BalanceOfStep(es, userId, i);
      state.ApplyExpense(expense, userId);
      categoryTotals, groupTotals, dailyTotals, monthlyTotals :=
        AddToBuckets(es, i, byId, categoryTotals, groupTotals, dailyTotals, monthlyTotals);
      i := i + 1;
    }
    assert es[..i] == es;
  }

  /** The `forEach` over the counted settlements, updating the balance state and the flows. */
  method AccumulateSettlements(ss: seq<Settlement>, userId: string, state: Balance.BalanceState)
    returns (flows: Flows)
    modifies state
    ensures state.Snapshot() == Balance.SettleAll(old(state.Snapshot()), ss, userId)
    ensures flows == FlowsOf(ss, userId)
  {
    flows := Flows(0.0, 0.0, 0.0);
    var i := 0;
    while i < |ss|
      invariant 0 <= i <= |ss|
      invariant state.Snapshot() == Balance.SettleAll(old(state.Snapshot()), ss[..i], userId)
      invariant flows == FlowsOf(ss[..i], userId)
    {
      var settlement := ss[i];
      assert ss[..i + 1][..i] == ss[..i];
      state.ApplySettlement(settlement, userId);
      if settlement.fromUserId == userId {
        flows := flows.(paid := flows.paid + settlement.amount, net := flows.net - settlement.amount);
      }
      if settlement.toUserId == userId {
        flows := flows.(received := flows.received + settlement.amount, net := flows.net + settlement.amount);
      }
      i := i + 1;
    }
    assert ss[..i] == ss;
  }

  /**
   * `getAnalyticsSummary`: the group filter is checked before anything is
   * read; then the expenses, then the settlements are folded in order.
   */
  method GetAnalyticsSummary(groups: seq<Group>, expenses: seq<Expense>, settlements: seq<Settlement>, userId: string,
                             groupFilter: Option<string>, timeFilter: Option<TimeFilter>, now: int)
    returns (r: Result<Summary>)
    ensures r == AnalyticsSummary(groups, expenses, settlements, userId, groupFilter, timeFilter, now)
  {
    var tf := WindowOf(timeFilter);
    var byId := IndexGroups(groups);
    if Truthy(groupFilter) {
      if groupFilter.value !in byId {
        return Err(NotFound("Group not found"));
      }
      if userId !in byId[groupFilter.value].members {
        return Err(Forbidden("You are not a member of this group"));
      }
    }
    var sourceExpenses := CollectByKey(Filter(expenses, PaidByUser(userId)) + Filter(expenses, SplitWithUser(userId)), ExpenseId);
    var filteredExpenses := Filter(sourceExpenses, CountedExpense(userId, groupFilter, tf, now));
    var state := new Balance.BalanceState();
    var categoryTotals, groupTotals, dailyTotals, monthlyTotals := AccumulateExpenses(filteredExpenses, userId, byId, state);
    var sourceSettlements := CollectByKey(Filter(settlements, FromUser(userId)) + Filter(settlements, ToUser(userId)), SettlementId);
    var relevantSettlements := Filter(sourceSettlements, CountedSettlement(userId, groupFilter, tf, now));
    var flows := AccumulateSettlements(relevantSettlements, userId, state);
    r := Ok(Summary(state.youOwe, state.owesYou, state.totalSpent, |filteredExpenses|,
                    categoryTotals, groupTotals, dailyTotals, monthlyTotals, flows));
  }
}
