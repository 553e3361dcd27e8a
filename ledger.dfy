/**
 * The mutating operations of src/expenses/expenses.service.ts: `create`,
 * `update` and `remove` of an expense and `createSettlement`. Each one runs
 * its lookups and authorisation checks, in the service's order, before it
 * writes; a refused call leaves the expense and settlement tables as they
 * were. Fresh ids and the current time are parameters.
 */
module Ledger {
  import opened Common
  import opened Records
  import opened Users
  import opened Normalize
  import Balance

  // ---------------------------------------------------------------------
  // Expenses

  /** `findExpenseByIdFromSupabase`: the first expense row with that id. */
  function FindExpense(expenses: seq<Expense>, id: string): (r: Option<Expense>)
    ensures r.Some? ==> r.value in expenses && r.value.id == id
    ensures r.None? <==> forall i :: 0 <= i < |expenses| ==> expenses[i].id != id
  {
    match FirstWhere(expenses, (e: Expense) => e.id == id)
    case None => None
    case Some(i) => Some(expenses[i])
  }

  /**
   * The guard of `update` and `remove`: the expense must exist and the
   * caller must be its payer. `verb` is the operation the message names.
   */
  function PayerCheck(expenses: seq<Expense>, id: string, userId: string, verb: string): (r: Outcome)
    ensures FindExpense(expenses, id).None? ==> r == Fail(NotFound("Expense not found"))
    ensures FindExpense(expenses, id).Some? && FindExpense(expenses, id).value.paidBy != userId ==>
      r == Fail(Forbidden("Only the payer can " + verb + " this expense"))
    ensures FindExpense(expenses, id).Some? && FindExpense(expenses, id).value.paidBy == userId ==> r == Pass
    ensures r.Pass? <==> exists i :: 0 <= i < |expenses| && expenses[i].id == id && expenses[i].paidBy == userId
                                       && forall j :: 0 <= j < i ==> expenses[j].id != id
  {
    match FirstWhere(expenses, (e: Expense) => e.id == id)
    case None => Fail(NotFound("Expense not found"))
    case Some(i) =>
      if expenses[i].paidBy != userId then Fail(Forbidden("Only the payer can " + verb + " this expense"))
      else Pass
  }

  /** The row stored for normalised fields, or the normaliser's error. */
  function Stored(n: Result<NormalizedExpense>, id: string): Result<Expense> {
    match n
    case Ok(fields) => Ok(ToRow(fields, id))
    case Err(e) => Err(e)
  }

  /** The expenses table after the PATCH of `update`: every row with that id becomes `row`. */
  function SetExpenseRows(expenses: seq<Expense>, id: string, row: Expense): seq<Expense> {
    seq(|expenses|, i requires 0 <= i < |expenses| => if expenses[i].id == id then row else expenses[i])
  }

  function OtherExpense(id: string): Expense -> bool {
    (e: Expense) => e.id != id
  }

  /**
   * Every expense the normaliser accepts is stored with its participants
   * listed once and its details aligned with them, so what the payer is
   * owed is exactly what the other participants owe.
   */
  lemma AcceptedExpenseBalances(groups: seq<Group>, users: seq<User>, base: ExpensePayload, createdBy: string,
                                invitedIds: seq<string>, id: string)
    requires |SplitList(base)| > 0
    ensures var r := Stored(Normalized(groups, users, base, createdBy, invitedIds), id);
      r.Ok? ==> (Balance.NormalisedSplit(r.value)
        && Balance.ExpenseImpact(r.value, r.value.paidBy).owesYou == Balance.OwedByOthers(r.value, r.value.splitBetween))
  {
    var n := Normalized(groups, users, base, createdBy, invitedIds);
    if n.Ok? {
      NormalizedSplitShape(groups, users, base, createdBy, invitedIds);
      var row := ToRow(n.value, id);
      assert row.splitBetween == ToRow(n.value, "").splitBetween;
      assert row.splitDetails == ToRow(n.value, "").splitDetails;
      Balance.Conservation(row);
    }
  }

  /**
   * `create`: normalise (provisioning the invited users), then append the
   * row under a fresh id. The receipt upload and the push notifications
   * that follow are not part of this model.
   */
  method CreateExpense(tables: Tables, store: UserStore, payload: ExpensePayload, createdBy: string,
                       freshIds: seq<string>, expenseId: string) returns (r: Result<Expense>)
    requires |freshIds| == |payload.invitedUsers|
    modifies tables, store
    ensures |SplitList(payload)| == 0 ==>
      r == Err(BadRequest("splitBetween must contain at least one user")) && store.users == old(store.users)
    ensures |SplitList(payload)| > 0 ==>
      var p := Provision(old(store.users), payload.invitedUsers, freshIds);
      store.users == p.users && r == Stored(Normalized(old(tables.groups), p.users, payload, createdBy, p.ids), expenseId)
    ensures r.Err? ==> tables.expenses == old(tables.expenses)
    ensures r.Ok? ==> r.value.id == expenseId && tables.expenses == old(tables.expenses) + [r.value]
    ensures tables.groups == old(tables.groups) && tables.settlements == old(tables.settlements)
  {
    var normalized := NormalizeExpensePayload(tables.groups, store, payload, createdBy, None, freshIds);
    r := AppendExpense(tables, normalized, expenseId);
  }

  /** The end of `create`: a refused payload writes nothing; accepted fields are appended as a new row. */
  method AppendExpense(tables: Tables, normalized: Result<NormalizedExpense>, id: string) returns (r: Result<Expense>)
    modifies tables
    ensures r == Stored(normalized, id)
    ensures r.Err? ==> tables.expenses == old(tables.expenses)
    ensures r.Ok? ==> r.value.id == id && tables.expenses == old(tables.expenses) + [r.value]
    ensures tables.groups == old(tables.groups) && tables.settlements == old(tables.settlements)
  {
    if normalized.Err? {
      return Err(normalized.error);
    }
    var expense := ToRow(normalized.value, id);
    tables.expenses := tables.expenses + [expense];
    r := Ok(expense);
  }

  /**
   * `update`: a missing expense is NotFound and a caller other than the
   * payer is Forbidden, with nothing written; otherwise the payload is
   * merged over the stored expense and normalised, and every row with the
   * id is replaced by the result.
   */
  method UpdateExpense(tables: Tables, store: UserStore, id: string, payload: ExpensePayload, userId: string,
                       freshIds: seq<string>) returns (r: Result<Expense>)
    requires |freshIds| == |payload.invitedUsers|
    modifies tables, store
    ensures PayerCheck(old(tables.expenses), id, userId, "update").Fail? ==>
      r == Err(PayerCheck(old(tables.expenses), id, userId, "update").error) && store.users == old(store.users)
    ensures PayerCheck(old(tables.expenses), id, userId, "update").Pass? ==>
      var base := Merge(FindExpense(old(tables.expenses), id), payload);
      var p := Provision(old(store.users), payload.invitedUsers, freshIds);
      && (|SplitList(base)| == 0 ==>
            r == Err(BadRequest("splitBetween must contain at least one user")) && store.users == old(store.users))
      && (|SplitList(base)| > 0 ==>
            store.users == p.users && r == Stored(Normalized(old(tables.groups), p.users, base, userId, p.ids), id))
    ensures r.Err? ==> tables.expenses == old(tables.expenses)
    ensures r.Ok? ==> r.value.id == id && tables.expenses == SetExpenseRows(old(tables.expenses), id, r.value)
    ensures tables.groups == old(tables.groups) && tables.settlements == old(tables.settlements)
  {
    var existing := FindExpense(tables.expenses, id);
    if existing.None? {
      return Err(NotFound("Expense not found"));
    }
    if existing.value.paidBy != userId {
      assert "Only the payer can " + "update" + " this expense" == "Only the payer can update this expense";
      return Err(Forbidden("Only the payer can update this expense"));
    }
    r := ReplaceExpense(tables, store, id, payload, userId, existing.value, freshIds);
  }

  /** The part of `update` after its guard: merge, normalise, and replace the rows with the id. */
  method ReplaceExpense(tables: Tables, store: UserStore, id: string, payload: ExpensePayload, userId: string,
                        existing: Expense, freshIds: seq<string>) returns (r: Result<Expense>)
    requires |freshIds| == |payload.invitedUsers|
    modifies tables, store
    ensures var base := Merge(Some(existing), payload);
      var p := Provision(old(store.users), payload.invitedUsers, freshIds);
      && (|SplitList(base)| == 0 ==>
            r == Err(BadRequest("splitBetween must contain at least one user")) && store.users == old(store.users))
      && (|SplitList(base)| > 0 ==>
            store.users == p.users && r == Stored(Normalized(old(tables.groups), p.users, base, userId, p.ids), id))
    ensures r.Err? ==> tables.expenses == old(tables.expenses)
    ensures r.Ok? ==> r.value.id == id && tables.expenses == SetExpenseRows(old(tables.expenses), id, r.value)
    ensures tables.groups == old(tables.groups) && tables.settlements == old(tables.settlements)
  {
    var normalized := NormalizeExpensePayload(tables.groups, store, payload, userId, Some(existing), freshIds);
    r := WriteExpenseRows(tables, normalized, id);
  }

  /** The end of `update`: a refused payload writes nothing; accepted fields replace every row with the id. */
  method WriteExpenseRows(tables: Tables, normalized: Result<NormalizedExpense>, id: string) returns (r: Result<Expense>)
    modifies tables
    ensures r == Stored(normalized, id)
    ensures r.Err? ==> tables.expenses == old(tables.expenses)
    ensures r.Ok? ==> r.value.id == id && tables.expenses == SetExpenseRows(old(tables.expenses), id, r.value)
    ensures tables.groups == old(tables.groups) && tables.settlements == old(tables.settlements)
  {
    if normalized.Err? {
      return Err(normalized.error);
    }
    var updated := ToRow(normalized.value, id);
    tables.expenses := SetExpenseRows(tables.expenses, id, updated);
    r := Ok(updated);
  }

  /**
   * `remove`: the same guard as `update`; then every row with the id is
   * deleted and the id is reported.
   */
  method RemoveExpense(tables: Tables, id: string, userId: string) returns (r: Result<string>)
    modifies tables
    ensures PayerCheck(old(tables.expenses), id, userId, "delete").Fail? ==>
      r == Err(PayerCheck(old(tables.expenses), id, userId, "delete").error) && tables.expenses == old(tables.expenses)
    ensures PayerCheck(old(tables.expenses), id, userId, "delete").Pass? ==>
      r == Ok(id) && tables.expenses == Filter(old(tables.expenses), OtherExpense(id))
    ensures forall i :: 0 <= i < |tables.expenses| ==> tables.expenses[i] in old(tables.expenses)
    ensures tables.groups == old(tables.groups) && tables.settlements == old(tables.settlements)
  {
    var existing := FindExpense(tables.expenses, id);
    if existing.None? {
      return Err(NotFound("Expense not found"));
    }
    if existing.value.paidBy != userId {
      assert "Only the payer can " + "delete" + " this expense" == "Only the payer can delete this expense";
      return Err(Forbidden("Only the payer can delete this expense"));
    }
    tables.expenses := Filter(tables.expenses, OtherExpense(id));
    r := Ok(id);
  }

  /** After a removal no row with the id is left, and every row with another id is kept, in order. */
  lemma RemovedExpenseGone(expenses: seq<Expense>, id: string)
    ensures FindExpense(Filter(expenses, OtherExpense(id)), id).None?
    ensures forall i :: 0 <= i < |expenses| && expenses[i].id != id ==> expenses[i] in Filter(expenses, OtherExpense(id))
  {
  }

  // ---------------------------------------------------------------------
  // Settlements

  /**
   * A settlement request. `settledAt` and `note` are optional; a `groupId`
   * of '' counts as none.
   */
  datatype SettlementInput = SettlementInput(
    fromUserId: string,
    toUserId: string,
    amount: real,
    settledAt: Option<DateText>,
    groupId: Option<string>,
    note: Option<string>)

  /**
   * When `createSettlement` accepts a request: two different existing
   * users; in a group, the group exists and has the creator and both
   * parties as members; without one, the creator is a party.
   */
  predicate SettlementAllowed(groups: seq<Group>, users: seq<User>, input: SettlementInput, createdBy: string) {
    && input.fromUserId != input.toUserId
    && UserExists(users, input.fromUserId)
    && UserExists(users, input.toUserId)
    && (Truthy(input.groupId) ==>
          (&& FindGroup(groups, input.groupId.value).Some?
           && createdBy in FindGroup(groups, input.groupId.value).value.members
           && input.fromUserId in FindGroup(groups, input.groupId.value).value.members
           && input.toUserId in FindGroup(groups, input.groupId.value).value.members))
    && (!Truthy(input.groupId) ==> createdBy == input.fromUserId || createdBy == input.toUserId)
  }

  /** The two parties differ and both exist. */
  predicate PartiesExist(users: seq<User>, input: SettlementInput) {
    input.fromUserId != input.toUserId && UserExists(users, input.fromUserId) && UserExists(users, input.toUserId)
  }

  /** The checks of `createSettlement`, in the service's order: the first that fails is raised. */
  function SettlementCheck(groups: seq<Group>, users: seq<User>, input: SettlementInput, createdBy: string): Outcome
  {
    if input.fromUserId == input.toUserId then Fail(BadRequest("fromUserId and toUserId must be different"))
    else if !UserExists(users, input.fromUserId) || !UserExists(users, input.toUserId) then
      Fail(NotFound("Settlement users not found"))
    else if Truthy(input.groupId) then
      match FindGroup(groups, input.groupId.value)
      case None => Fail(NotFound("Group not found"))
      case Some(g) =>
        if createdBy !in g.members then Fail(Forbidden("You are not a member of this group"))
        else if input.fromUserId !in g.members || input.toUserId !in g.members then
          Fail(Forbidden("Settlement users must be group members"))
        else Pass
    else if createdBy != input.fromUserId && createdBy != input.toUserId then
      Fail(Forbidden("Only settlement participants can create personal settlements"))
    else Pass
  }

  /**
   * Each check of `createSettlement` refuses with its own message, in the
   * service's order, and the checks pass exactly when the settlement is allowed.
   */
  lemma SettlementCheckSpec(groups: seq<Group>, users: seq<User>, input: SettlementInput, createdBy: string)
    ensures var r := SettlementCheck(groups, users, input, createdBy);
      input.fromUserId == input.toUserId ==> r == Fail(BadRequest("fromUserId and toUserId must be different"))
    ensures var r := SettlementCheck(groups, users, input, createdBy);
      input.fromUserId != input.toUserId
            && !(UserExists(users, input.fromUserId) && UserExists(users, input.toUserId)) ==>
      r == Fail(NotFound("Settlement users not found"))
    ensures var r := SettlementCheck(groups, users, input, createdBy);
      PartiesExist(users, input) && Truthy(input.groupId) ==>
      var g := FindGroup(groups, input.groupId.value);
      && (g.None? ==> r == Fail(NotFound("Group not found")))
      && (g.Some? && createdBy !in g.value.members ==> r == Fail(Forbidden("You are not a member of this group")))
      && (g.Some? && createdBy in g.value.members
          && (input.fromUserId !in g.value.members || input.toUserId !in g.value.members) ==>
            r == Fail(Forbidden("Settlement users must be group members")))
    ensures var r := SettlementCheck(groups, users, input, createdBy);
      PartiesExist(users, input) && !Truthy(input.groupId)
            && createdBy != input.fromUserId && createdBy != input.toUserId ==>
      r == Fail(Forbidden("Only settlement participants can create personal settlements"))
    ensures var r := SettlementCheck(groups, users, input, createdBy);
      r.Pass? <==> SettlementAllowed(groups, users, input, createdBy)
  {
  }

  /**
   * The settlement `createSettlement` stores: `settledAt` defaults to now
   * when absent or empty, the group is kept only when given, and the note
   * is trimmed, with a blank note dropped.
   */
  function NewSettlement(input: SettlementInput, createdBy: string, id: string, now: DateText): (s: Settlement)
    ensures s.settledAt == (if input.settledAt.Some? && input.settledAt.value != Empty then input.settledAt.value else now)
    ensures s.fromUserId == input.fromUserId && s.toUserId == input.toUserId && s.amount == input.amount
    ensures s.groupId.Some? <==> Truthy(input.groupId)
    ensures Truthy(input.groupId) ==> s.groupId == input.groupId
    ensures s.note == TrimmedOrNone(input.note)
    ensures s.note.Some? ==> s.note.value != ""
    ensures s.createdAt == now && s.createdBy == createdBy && s.id == id
  {
    Settlement(id, input.fromUserId, input.toUserId, input.amount,
               if input.settledAt.Some? && input.settledAt.value != Empty then input.settledAt.value else now,
               now, createdBy, if Truthy(input.groupId) then input.groupId else None, TrimmedOrNone(input.note))
  }

  /** The checks of `createSettlement`, run in the service's order. */
  method CheckSettlement(groups: seq<Group>, users: seq<User>, input: SettlementInput, createdBy: string)
    returns (r: Outcome)
    ensures r == SettlementCheck(groups, users, input, createdBy)
  {
    if input.fromUserId == input.toUserId {
      return Fail(BadRequest("fromUserId and toUserId must be different"));
    }
    var fromUser := IndexOfId(users, input.fromUserId);
    var toUser := IndexOfId(users, input.toUserId);
    if fromUser.None? || toUser.None? {
      return Fail(NotFound("Settlement users not found"));
    }
    if Truthy(input.groupId) {
      var group := FindGroup(groups, input.groupId.value);
      if group.None? {
        return Fail(NotFound("Group not found"));
      }
      if createdBy !in group.value.members {
        return Fail(Forbidden("You are not a member of this group"));
      }
      if input.fromUserId !in group.value.members || input.toUserId !in group.value.members {
        return Fail(Forbidden("Settlement users must be group members"));
      }
    } else if createdBy != input.fromUserId && createdBy != input.toUserId {
      return Fail(Forbidden("Only settlement participants can create personal settlements"));
    }
    r := Pass;
  }

  /**
   * `createSettlement`: the checks of `SettlementCheck`, then the new
   * settlement is appended. Nothing is written when a check fails.
   */
  method CreateSettlement(tables: Tables, store: UserStore, input: SettlementInput, createdBy: string,
                          id: string, now: DateText) returns (r: Result<Settlement>)
    modifies tables
    ensures SettlementCheck(old(tables.groups), store.users, input, createdBy).Fail? ==>
      r == Err(SettlementCheck(old(tables.groups), store.users, input, createdBy).error)
      && tables.settlements == old(tables.settlements)
    ensures SettlementCheck(old(tables.groups), store.users, input, createdBy).Pass? ==>
      r == Ok(NewSettlement(input, createdBy, id, now)) && tables.settlements == old(tables.settlements) + [r.value]
    ensures tables.groups == old(tables.groups) && tables.expenses == old(tables.expenses)
  {
    var check := CheckSettlement(tables.groups, store.users, input, createdBy);
    if check.Fail? {
      return Err(check.error);
    }
    var settlement := NewSettlement(input, createdBy, id, now);
    tables.settlements := tables.settlements + [settlement];
    r := Ok(settlement);
  }

  /**
   * An accepted settlement moves money one way only: for its payer it can
   * lower only what they owe, and for its receiver only what they are owed.
   */
  lemma AcceptedSettlementOneWay(groups: seq<Group>, users: seq<User>, input: SettlementInput, createdBy: string,
                                 id: string, now: DateText, t: Balance.Totals)
    requires SettlementCheck(groups, users, input, createdBy).Pass?
    ensures var s := NewSettlement(input, createdBy, id, now);
      && Balance.SettlementImpact(t, s, input.fromUserId).owesYou == t.owesYou
      && Balance.SettlementImpact(t, s, input.toUserId).youOwe == t.youOwe
      && Balance.SettlementImpact(t, s, input.fromUserId).youOwe == Balance.Max0(t.youOwe - input.amount)
      && Balance.SettlementImpact(t, s, input.toUserId).owesYou == Balance.Max0(t.owesYou - input.amount)
  {
  }
}
