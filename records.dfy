/**
 * The records the ledger stores (expense, settlement and group rows) and the
 * record store itself. The hosted tables are modelled as one object whose
 * three fields are the tables' rows; the REST calls that read and write them
 * become reads and assignments of those fields.
 */
module Records {
  import opened Common

  /** A parsed JavaScript `Date`: its epoch milliseconds and its local calendar fields. */
  datatype Instant = Instant(ms: int, year: int, month: int, day: int)

  /**
   * A date as stored (an ISO string): the empty string, a string that
   * `new Date(...)` cannot parse, or one it parses to an instant.
   */
  datatype DateText = Empty | Unparseable | Parsed(at: Instant)

  datatype SplitType = Equal | Unequal

  datatype SplitDetail = SplitDetail(userId: string, amount: real)

  /**
   * An expense row. `splitDetails` is empty where the row has none
   * (every reader treats a missing list as an empty one).
   */
  datatype Expense = Expense(
    id: string,
    title: string,
    amount: real,
    date: DateText,
    category: string,
    receiptUrl: Option<string>,
    groupId: Option<string>,
    paidBy: string,
    splitType: SplitType,
    splitBetween: seq<string>,
    splitDetails: seq<SplitDetail>)

  datatype Settlement = Settlement(
    id: string,
    fromUserId: string,
    toUserId: string,
    amount: real,
    settledAt: DateText,
    createdAt: DateText,
    createdBy: string,
    groupId: Option<string>,
    note: Option<string>)

  datatype Group = Group(
    id: string,
    name: string,
    createdBy: string,
    members: seq<string>,
    createdAt: DateText)

  /** The `groups`, `expenses` and `settlements` tables. */
  class Tables {
    var groups: seq<Group>
    var expenses: seq<Expense>
    var settlements: seq<Settlement>

    constructor (groups0: seq<Group>, expenses0: seq<Expense>, settlements0: seq<Settlement>)
      ensures groups == groups0 && expenses == expenses0 && settlements == settlements0
    {
      groups, expenses, settlements := groups0, expenses0, settlements0;
    }
  }

  /** `groups?id=eq.<id>&limit=1`: the first group row with that id. */
  function FindGroup(groups: seq<Group>, id: string): (r: Option<Group>)
    ensures r.Some? ==> r.value in groups && r.value.id == id
    ensures r.None? ==> forall i :: 0 <= i < |groups| ==> groups[i].id != id
  {
    match FirstWhere(groups, (g: Group) => g.id == id)
    case None => None
    case Some(i) => Some(groups[i])
  }
}
