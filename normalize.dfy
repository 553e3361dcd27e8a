/**
 * The expense normaliser of src/expenses/expenses.service.ts
 * (`normalizeExpensePayload`): it merges a payload over the stored expense,
 * provisions invited users, and then either rejects the result with the
 * first failing check or returns the fields of a well-formed expense whose
 * split lists each participant once and, for an unequal split, one detail
 * per participant adding up to the amount.
 */
module Normalize {
  import opened Common
  import opened Records
  import opened Users
  import Balance

  /** One `splitDetails` entry as sent: `userId` and `amount` may be missing (an amount that is not a number counts as missing). */
  datatype DetailInput = DetailInput(userId: Option<string>, amount: Option<real>)

  /**
   * A create or update payload, or the merge of one over a stored expense.
   * `None` is an absent field; an `amount` that is not a finite number is
   * absent too, and a `splitType` other than 'EQUAL' is `Unequal`.
   */
  datatype ExpensePayload = ExpensePayload(
    title: Option<string>,
    amount: Option<real>,
    date: Option<DateText>,
    category: Option<string>,
    receiptUrl: Option<string>,
    groupId: Option<string>,
    splitType: Option<SplitType>,
    paidBy: Option<string>,
    splitBetween: Option<seq<string>>,
    splitDetails: Option<seq<DetailInput>>,
    invitedUsers: seq<InviteInput>)

  /** `Omit<Expense, 'id'>`: what the normaliser returns. */
  datatype NormalizedExpense = NormalizedExpense(
    title: string,
    amount: real,
    date: DateText,
    category: string,
    receiptUrl: Option<string>,
    groupId: Option<string>,
    paidBy: string,
    splitType: SplitType,
    splitBetween: seq<string>,
    splitDetails: seq<SplitDetail>)

  /** The stored row for normalised fields under `id`. */
  function ToRow(n: NormalizedExpense, id: string): Expense {
    Expense(id, n.title, n.amount, n.date, n.category, n.receiptUrl, n.groupId,
            n.paidBy, n.splitType, n.splitBetween, n.splitDetails)
  }

  function AsInput(d: SplitDetail): DetailInput {
    DetailInput(Some(d.userId), Some(d.amount))
  }

  function Or<T>(given: Option<T>, fallback: Option<T>): Option<T> {
    if given.Some? then given else fallback
  }

  /** `{ ...existingExpense, ...payload }`: each field the payload carries wins. */
  function Merge(existing: Option<Expense>, payload: ExpensePayload): (b: ExpensePayload)
    ensures existing.None? ==> b == payload
    ensures b.invitedUsers == payload.invitedUsers
    ensures payload.title.Some? ==> b.title == payload.title
    ensures payload.amount.Some? ==> b.amount == payload.amount
    ensures payload.paidBy.Some? ==> b.paidBy == payload.paidBy
    ensures payload.splitBetween.Some? ==> b.splitBetween == payload.splitBetween
    ensures existing.Some? && payload.title.None? ==> b.title == Some(existing.value.title)
    ensures existing.Some? && payload.amount.None? ==> b.amount == Some(existing.value.amount)
    ensures existing.Some? && payload.paidBy.None? ==> b.paidBy == Some(existing.value.paidBy)
    ensures existing.Some? && payload.splitBetween.None? ==> b.splitBetween == Some(existing.value.splitBetween)
    ensures existing.Some? && payload.groupId.None? ==> b.groupId == existing.value.groupId
    ensures payload.date.Some? ==> b.date == payload.date
    ensures payload.category.Some? ==> b.category == payload.category
    ensures payload.receiptUrl.Some? ==> b.receiptUrl == payload.receiptUrl
    ensures payload.groupId.Some? ==> b.groupId == payload.groupId
    ensures payload.splitType.Some? ==> b.splitType == payload.splitType
    ensures payload.splitDetails.Some? ==> b.splitDetails == payload.splitDetails
    ensures existing.Some? && payload.date.None? ==> b.date == Some(existing.value.date)
    ensures existing.Some? && payload.category.None? ==> b.category == Some(existing.value.category)
    ensures existing.Some? && payload.receiptUrl.None? ==> b.receiptUrl == existing.value.receiptUrl
    ensures existing.Some? && payload.splitType.None? ==> b.splitType == Some(existing.value.splitType)
    ensures existing.Some? && payload.splitDetails.None? ==>
      b.splitDetails.Some? && |b.splitDetails.value| == |existing.value.splitDetails|
      && forall i :: 0 <= i < |existing.value.splitDetails| ==>
           b.splitDetails.value[i] == DetailInput(Some(existing.value.splitDetails[i].userId), Some(existing.value.splitDetails[i].amount))
  {
    match existing
    case None => payload
    case Some(e) =>
      ExpensePayload(
        Or(payload.title, Some(e.title)),
        Or(payload.amount, Some(e.amount)),
        Or(payload.date, Some(e.date)),
        Or(payload.category, Some(e.category)),
        Or(payload.receiptUrl, e.receiptUrl),
        Or(payload.groupId, e.groupId),
        Or(payload.splitType, Some(e.splitType)),
        Or(payload.paidBy, Some(e.paidBy)),
        Or(payload.splitBetween, Some(e.splitBetween)),
        Or(payload.splitDetails, Some(seq(|e.splitDetails|, i requires 0 <= i < |e.splitDetails| => AsInput(e.splitDetails[i])))),
        payload.invitedUsers)
  }

  /** `String(x || '').trim()`. */
  function TrimmedOrEmpty(x: Option<string>): string {
    if x.Some? then Trim(x.value) else ""
  }

  /** `(paidBy || '').trim() || createdBy`. */
  function PayerId(base: ExpensePayload, createdBy: string): (p: string)
    ensures TrimmedOrEmpty(base.paidBy) != "" ==> p == TrimmedOrEmpty(base.paidBy)
    ensures TrimmedOrEmpty(base.paidBy) == "" ==> p == createdBy
  {
    var given := TrimmedOrEmpty(base.paidBy);
    if given != "" then given else createdBy
  }

  function SplitList(base: ExpensePayload): seq<string> {
    if base.splitBetween.Some? then base.splitBetween.value else []
  }

  // ---------------------------------------------------------------------
  // Unequal split details

  /** `detail.userId?.trim()`, with a missing id as the empty string. */
  function TrimmedId(d: DetailInput): string {
    TrimmedOrEmpty(d.userId)
  }

  /** `Number(detail.amount) || 0`. */
  function EntryAmount(d: DetailInput): real {
    if d.amount.Some? then d.amount.value else 0.0
  }

  function TrimmedIds(ds: seq<DetailInput>): (ids: seq<string>)
    ensures |ids| == |ds| && forall j :: 0 <= j < |ds| ==> ids[j] == TrimmedId(ds[j])
  {
    seq(|ds|, j requires 0 <= j < |ds| => TrimmedId(ds[j]))
  }

  /** Why the entry with trimmed id `id`, after entries with ids `before`, is refused, if it is. */
  function EntryError(id: string, before: seq<string>, unique: seq<string>): Option<Error> {
    if id == "" then Some(BadRequest("Each splitDetails entry must include userId"))
    else if id in before then Some(BadRequest("Duplicate split detail for user " + id))
    else if id !in unique then Some(BadRequest("splitDetails user " + id + " must be in splitBetween"))
    else None
  }

  /** The index of the first refused entry. */
  function FirstBad(ids: seq<string>, unique: seq<string>): (r: Option<nat>)
    ensures r.Some? ==> r.value < |ids| && EntryError(ids[r.value], ids[..r.value], unique).Some?
    ensures r.Some? ==> forall j :: 0 <= j < r.value ==> EntryError(ids[j], ids[..j], unique).None?
    ensures r.None? <==> forall j :: 0 <= j < |ids| ==> EntryError(ids[j], ids[..j], unique).None?
    decreases |ids|
  {
    if |ids| == 0 then None
    else
      var n := |ids| - 1;
      var init := ids[..n];
      assert forall j :: 0 <= j < n ==> init[j] == ids[j] && init[..j] == ids[..j];
      match FirstBad(init, unique)
      case Some(k) => Some(k)
      case None => if EntryError(ids[n], init, unique).Some? then Some(n) else None
  }

  /** Every entry names a distinct participant. */
  predicate WellFormed(ids: seq<string>, unique: seq<string>) {
    NoDup(ids) && forall j :: 0 <= j < |ids| ==> ids[j] != "" && ids[j] in unique
  }

  /** No entry is refused exactly when the entries name distinct participants. */
  lemma NoneBadIffWellFormed(ids: seq<string>, unique: seq<string>)
    ensures FirstBad(ids, unique).None? <==> WellFormed(ids, unique)
  {
    if FirstBad(ids, unique).None? {
      forall i, j | 0 <= i < j < |ids| ensures ids[i] != ids[j] {
        assert EntryError(ids[j], ids[..j], unique).None?;
        assert ids[i] in ids[..j];
      }
    }
    if WellFormed(ids, unique) {
      forall j | 0 <= j < |ids| ensures EntryError(ids[j], ids[..j], unique).None? {
        assert ids[j] !in ids[..j];
      }
    }
  }

  /** The entries as sent, each as its trimmed id and its amount. */
  function Entries(ds: seq<DetailInput>): (es: seq<SplitDetail>)
    ensures |es| == |ds|
    ensures forall j :: 0 <= j < |ds| ==> es[j] == SplitDetail(TrimmedId(ds[j]), EntryAmount(ds[j]))
  {
    seq(|ds|, j requires 0 <= j < |ds| => SplitDetail(TrimmedId(ds[j]), EntryAmount(ds[j])))
  }

  function IdsOf(es: seq<SplitDetail>): (ids: seq<string>)
    ensures |ids| == |es| && forall j :: 0 <= j < |es| ==> ids[j] == es[j].userId
  {
    seq(|es|, j requires 0 <= j < |es| => es[j].userId)
  }

  lemma EntryIds(ds: seq<DetailInput>)
    ensures IdsOf(Entries(ds)) == TrimmedIds(ds)
  {
  }

  /** `detailsByUserId.get(userId) || 0`: the amount of the first entry naming `u`. */
  function AmountFor(ds: seq<DetailInput>, u: string): (a: real)
    ensures (forall j :: 0 <= j < |ds| ==> TrimmedId(ds[j]) != u) ==> a == 0.0
    ensures forall j :: (0 <= j < |ds| && TrimmedId(ds[j]) == u
      && (forall i :: 0 <= i < j ==> TrimmedId(ds[i]) != u)) ==> a == EntryAmount(ds[j])
  {
    Balance.DetailAmount(Entries(ds), u)
  }

  /** Each participant in order, with the amount of the first entry naming them. */
  function AlignedTo(es: seq<SplitDetail>, unique: seq<string>): (r: seq<SplitDetail>)
    ensures |r| == |unique|
    ensures forall i :: 0 <= i < |unique| ==> r[i] == SplitDetail(unique[i], Balance.DetailAmount(es, unique[i]))
  {
    seq(|unique|, i requires 0 <= i < |unique| => SplitDetail(unique[i], Balance.DetailAmount(es, unique[i])))
  }

  /** `uniqueSplitUsers.map(userId => ({ userId, amount }))`. */
  function Aligned(ds: seq<DetailInput>, unique: seq<string>): (r: seq<SplitDetail>)
    ensures |r| == |unique|
    ensures forall i :: 0 <= i < |unique| ==> r[i] == SplitDetail(unique[i], AmountFor(ds, unique[i]))
  {
    AlignedTo(Entries(ds), unique)
  }

  function SumDetails(ds: seq<SplitDetail>): real
    decreases |ds|
  {
    if |ds| == 0 then 0.0 else SumDetails(ds[..|ds| - 1]) + ds[|ds| - 1].amount
  }

  function Abs(x: real): real { if x >= 0.0 then x else -x }

  /** `Math.abs(total - amount) <= 0.01`. */
  predicate WithinCent(total: real, amount: real) { Abs(total - amount) <= 0.01 }

  function NotCovered(ids: seq<string>): string -> bool {
    (u: string) => u !in ids
  }

  /**
   * The details of an unequal split: refused when absent, at the first bad
   * entry, when a participant has no entry (all such participants are
   * named), or when the amounts do not add up to the expense amount within
   * a cent; otherwise one detail per participant, in participant order.
   */
  function UnequalDetails(details: Option<seq<DetailInput>>, unique: seq<string>, amount: real): (r: Result<seq<SplitDetail>>)
    ensures details.None? ==> r == Err(BadRequest("splitDetails are required for UNEQUAL split"))
    ensures details.Some? && |details.value| == 0 ==> r == Err(BadRequest("splitDetails are required for UNEQUAL split"))
    ensures r.Ok? ==> details.Some? && r.value == Aligned(details.value, unique)
    ensures r.Ok? ==> WithinCent(SumDetails(r.value), amount)
  {
    if details.None? || |details.value| == 0 then Err(BadRequest("splitDetails are required for UNEQUAL split"))
    else
      var ds := details.value;
      var ids := TrimmedIds(ds);
      match FirstBad(ids, unique)
      case Some(k) => Err(EntryError(ids[k], ids[..k], unique).value)
      case None =>
        var missing := Filter(unique, NotCovered(ids));
        if |missing| > 0 then Err(BadRequest("Missing splitDetails for users: " + Join(missing, ", ")))
        else
          var normalized := Aligned(ds, unique);
          if !WithinCent(SumDetails(normalized), amount) then Err(BadRequest("Sum of splitDetails must equal expense amount"))
          else Ok(normalized)
  }

  /**
   * The details are accepted exactly when every entry names a distinct
   * participant, every participant has an entry, and the amounts add up to
   * the expense amount within a cent.
   */
  lemma UnequalDetailsAccepted(ds: seq<DetailInput>, unique: seq<string>, amount: real)
    requires |ds| > 0
    ensures UnequalDetails(Some(ds), unique, amount).Ok? <==>
      (&& WellFormed(TrimmedIds(ds), unique)
       && (forall i :: 0 <= i < |unique| ==> unique[i] in TrimmedIds(ds))
       && WithinCent(SumDetails(Aligned(ds, unique)), amount))
  {
    var ids := TrimmedIds(ds);
    NoneBadIffWellFormed(ids, unique);
    var missing := Filter(unique, NotCovered(ids));
    if forall i :: 0 <= i < |unique| ==> unique[i] in ids {
      FilterNone(unique, NotCovered(ids));
    } else {
      var i :| 0 <= i < |unique| && unique[i] !in ids;
      assert unique[i] in missing;
    }
  }

  /** Well-formed entries that leave participants out are refused with all of those participants named. */
  lemma UnequalDetailsMissing(ds: seq<DetailInput>, unique: seq<string>, amount: real)
    requires |ds| > 0 && WellFormed(TrimmedIds(ds), unique)
    requires |Filter(unique, NotCovered(TrimmedIds(ds)))| > 0
    ensures UnequalDetails(Some(ds), unique, amount)
      == Err(BadRequest("Missing splitDetails for users: " + Join(Filter(unique, NotCovered(TrimmedIds(ds))), ", ")))
  {
    NoneBadIffWellFormed(TrimmedIds(ds), unique);
  }

  /** For well-formed, complete details, each participant receives exactly the amount of the entry naming them. */
  lemma AlignedAmounts(ds: seq<DetailInput>, unique: seq<string>)
    requires WellFormed(TrimmedIds(ds), unique)
    ensures forall j :: 0 <= j < |ds| ==>
      (TrimmedId(ds[j]) in unique && AmountFor(ds, TrimmedId(ds[j])) == EntryAmount(ds[j]))
  {
    var ids := TrimmedIds(ds);
    forall j | 0 <= j < |ds| ensures AmountFor(ds, TrimmedId(ds[j])) == EntryAmount(ds[j]) {
      assert forall i :: 0 <= i < j ==> ids[i] != ids[j];
    }
  }

  /** The error of the first refused entry, if any. */
  function FirstEntryError(ids: seq<string>, unique: seq<string>): Option<Error> {
    match FirstBad(ids, unique)
    case None => None
    case Some(k) => EntryError(ids[k], ids[..k], unique)
  }

  /** Entries that are all accepted up to a refused one: that one is the first refused. */
  lemma {:induction false} FirstBadAt(ids: seq<string>, k: nat, unique: seq<string>)
    requires k < |ids| && WellFormed(ids[..k], unique)
    requires EntryError(ids[k], ids[..k], unique).Some?
    ensures FirstBad(ids, unique) == Some(k)
    decreases |ids|
  {
    var n := |ids| - 1;
    var init := ids[..n];
    if k == n {
      NoneBadIffWellFormed(init, unique);
    } else {
      assert init[..k] == ids[..k] && init[k] == ids[k];
      FirstBadAt(init, k, unique);
    }
  }

  /**
   * The loop of the unequal branch: fills a map from trimmed user id to
   * amount entry by entry, stopping at the first refused entry.
   */
  method FillDetailMap(ds: seq<DetailInput>, unique: seq<string>) returns (err: Option<Error>, byId: map<string, real>)
    ensures err == FirstEntryError(TrimmedIds(ds), unique)
    ensures err.None? ==> WellFormed(TrimmedIds(ds), unique)
    ensures err.None? ==> forall u :: u in byId <==> u in TrimmedIds(ds)
    ensures err.None? ==> forall j :: 0 <= j < |ds| ==> byId[TrimmedIds(ds)[j]] == EntryAmount(ds[j])
  {
    ghost var ids := TrimmedIds(ds);
    byId := map[];
    var k := 0;
    while k < |ds|
      invariant 0 <= k <= |ds|
      invariant Accepted(ids, k, unique)
      invariant forall u :: u in byId ==> exists j :: 0 <= j < k && ids[j] == u
      invariant forall j :: 0 <= j < k ==> ids[j] in byId && byId[ids[j]] == EntryAmount(ds[j])
    {
      var id := TrimmedId(ds[k]);
      assert id == ids[k];
      if id == "" || id in byId || id !in unique {
        RefusedAt(ids, k, unique, id in byId);
        err := Some(if id == "" then BadRequest("Each splitDetails entry must include userId")
                    else if id in byId then BadRequest("Duplicate split detail for user " + id)
                    else BadRequest("splitDetails user " + id + " must be in splitBetween"));
        return;
      }
      AcceptedStep(ids, k, unique);
      byId := byId[id := EntryAmount(ds[k])];
      k := k + 1;
    }
    assert k == |ds|;
    AcceptedAll(ids, unique);
    FilledAll(ds, ids, byId);
    err := None;
  }

  /** The first `k` entry ids name distinct participants. */
  predicate Accepted(ids: seq<string>, k: nat, unique: seq<string>)
    requires k <= |ids|
  {
    && (forall j :: 0 <= j < k ==> ids[j] != "" && ids[j] in unique)
    && (forall i, j :: 0 <= i < j < k ==> ids[i] != ids[j])
  }

  lemma AcceptedStep(ids: seq<string>, k: nat, unique: seq<string>)
    requires k < |ids| && Accepted(ids, k, unique)
    requires ids[k] != "" && ids[k] in unique
    requires forall j :: 0 <= j < k ==> ids[j] != ids[k]
    ensures Accepted(ids, k + 1, unique)
  {
  }

  lemma AcceptedPrefix(ids: seq<string>, k: nat, unique: seq<string>)
    requires k <= |ids| && Accepted(ids, k, unique)
    ensures WellFormed(ids[..k], unique)
  {
    var pre := ids[..k];
    assert forall j :: 0 <= j < k ==> pre[j] == ids[j];
  }

  /** A map filled from every entry holds exactly the entry ids, each with its amount. */
  lemma FilledAll(ds: seq<DetailInput>, ids: seq<string>, byId: map<string, real>)
    requires |ids| == |ds|
    requires forall u :: u in byId ==> exists j :: 0 <= j < |ds| && ids[j] == u
    requires forall j :: 0 <= j < |ds| ==> ids[j] in byId && byId[ids[j]] == EntryAmount(ds[j])
    ensures forall u :: u in byId <==> u in ids
    ensures forall j :: 0 <= j < |ds| ==> byId[ids[j]] == EntryAmount(ds[j])
  {
  }

  lemma AcceptedAll(ids: seq<string>, unique: seq<string>)
    requires Accepted(ids, |ids|, unique)
    ensures WellFormed(ids, unique)
    ensures FirstEntryError(ids, unique).None?
  {
    NoneBadIffWellFormed(ids, unique);
  }

  /** An entry refused after accepted ones is the first refused entry. */
  lemma RefusedAt(ids: seq<string>, k: nat, unique: seq<string>, seen: bool)
    requires k < |ids| && Accepted(ids, k, unique)
    requires seen <==> exists j :: 0 <= j < k && ids[j] == ids[k]
    requires ids[k] == "" || seen || ids[k] !in unique
    ensures FirstEntryError(ids, unique) == Some(
      if ids[k] == "" then BadRequest("Each splitDetails entry must include userId")
      else if seen then BadRequest("Duplicate split detail for user " + ids[k])
      else BadRequest("splitDetails user " + ids[k] + " must be in splitBetween"))
  {
    AcceptedPrefix(ids, k, unique);
    if seen {
      var j :| 0 <= j < k && ids[j] == ids[k];
      assert ids[..k][j] == ids[k];
    }
    FirstBadAt(ids, k, unique);
  }

  /** The unequal branch: the map loop, then the missing-participant and sum checks. */
  method ValidateUnequalDetails(details: Option<seq<DetailInput>>, unique: seq<string>, amount: real)
    returns (r: Result<seq<SplitDetail>>)
    ensures r == UnequalDetails(details, unique, amount)
  {
    if details.None? || |details.value| == 0 {
      return Err(BadRequest("splitDetails are required for UNEQUAL split"));
    }
    var ds := details.value;
    var err, byId := FillDetailMap(ds, unique);
    if err.Some? {
      return Err(err.value);
    }
    r := CompleteDetails(ds, byId, unique, amount);
  }

  /** After the loop: every participant must have an entry, and the amounts must add up. */
  method CompleteDetails(ds: seq<DetailInput>, byId: map<string, real>, unique: seq<string>, amount: real)
    returns (r: Result<seq<SplitDetail>>)
    requires |ds| > 0 && FirstEntryError(TrimmedIds(ds), unique).None?
    requires WellFormed(TrimmedIds(ds), unique)
    requires forall u :: u in byId <==> u in TrimmedIds(ds)
    requires forall j :: 0 <= j < |ds| ==> byId[TrimmedIds(ds)[j]] == EntryAmount(ds[j])
    ensures r == UnequalDetails(Some(ds), unique, amount)
  {
    ghost var ids := TrimmedIds(ds);
    UnequalDetailsAfterEntries(ds, unique, amount);
    var missing := Filter(unique, (u: string) => u !in byId);
    FilterExt(unique, (u: string) => u !in byId, NotCovered(ids));
    if |missing| > 0 {
      return Err(BadRequest("Missing splitDetails for users: " + Join(missing, ", ")));
    }
    AllCovered(unique, byId);
    MapMatchesAligned(ds, byId, unique);
    r := CheckSum(byId, unique, amount);
  }

  /** `uniqueSplitUsers.map(...)` from the filled map, then the sum check. */
  method CheckSum(byId: map<string, real>, unique: seq<string>, amount: real) returns (r: Result<seq<SplitDetail>>)
    requires forall i :: 0 <= i < |unique| ==> unique[i] in byId
    ensures var normalized := seq(|unique|, i requires 0 <= i < |unique| => SplitDetail(unique[i], byId[unique[i]]));
      r == if WithinCent(SumDetails(normalized), amount) then Ok(normalized)
           else Err(BadRequest("Sum of splitDetails must equal expense amount"))
  {
    var normalized := seq(|unique|, i requires 0 <= i < |unique| => SplitDetail(unique[i], byId[unique[i]]));
    if !WithinCent(SumDetails(normalized), amount) {
      return Err(BadRequest("Sum of splitDetails must equal expense amount"));
    }
    return Ok(normalized);
  }

  lemma UnequalDetailsAfterEntries(ds: seq<DetailInput>, unique: seq<string>, amount: real)
    requires |ds| > 0 && FirstEntryError(TrimmedIds(ds), unique).None?
    ensures var missing := Filter(unique, NotCovered(TrimmedIds(ds)));
      UnequalDetails(Some(ds), unique, amount) ==
        if |missing| > 0 then Err(BadRequest("Missing splitDetails for users: " + Join(missing, ", ")))
        else if !WithinCent(SumDetails(Aligned(ds, unique)), amount) then Err(BadRequest("Sum of splitDetails must equal expense amount"))
        else Ok(Aligned(ds, unique))
  {
  }

  lemma AllCovered(unique: seq<string>, byId: map<string, real>)
    requires |Filter(unique, (u: string) => u !in byId)| == 0
    ensures forall i :: 0 <= i < |unique| ==> unique[i] in byId
  {
  }

  /** The filled map holds, for each participant, the amount `Aligned` gives them. */
  lemma MapMatchesAligned(ds: seq<DetailInput>, byId: map<string, real>, unique: seq<string>)
    requires WellFormed(TrimmedIds(ds), unique)
    requires forall u :: u in byId <==> u in TrimmedIds(ds)
    requires forall j :: 0 <= j < |ds| ==> byId[TrimmedIds(ds)[j]] == EntryAmount(ds[j])
    requires forall i :: 0 <= i < |unique| ==> unique[i] in byId
    ensures Aligned(ds, unique) == seq(|unique|, i requires 0 <= i < |unique| => SplitDetail(unique[i], byId[unique[i]]))
  {
    var ids := TrimmedIds(ds);
    AlignedAmounts(ds, unique);
    forall i | 0 <= i < |unique| ensures byId[unique[i]] == AmountFor(ds, unique[i]) {
      var j :| 0 <= j < |ids| && ids[j] == unique[i];
    }
  }

  /** For well-formed, complete details, the stored amounts add up to the amounts as sent. */
  lemma AlignedSumsEntries(ds: seq<DetailInput>, unique: seq<string>)
    requires Complete(TrimmedIds(ds), unique)
    ensures SumDetails(Aligned(ds, unique)) == SumDetails(Entries(ds))
  {
    EntryIds(ds);
    PermutedSum(Entries(ds), unique);
  }

  /** Every participant is named by some entry. */
  predicate Covers(ids: seq<string>, unique: seq<string>) {
    forall i :: 0 <= i < |unique| ==> unique[i] in ids
  }

  /** Entry ids that name distinct participants, one for each of them. */
  predicate Complete(ids: seq<string>, unique: seq<string>) {
    WellFormed(ids, unique) && Covers(ids, unique) && NoDup(unique)
  }

  function Without<T>(s: seq<T>, j: nat): (r: seq<T>)
    requires j < |s|
    ensures |r| == |s| - 1
    ensures forall i :: 0 <= i < |r| ==> r[i] == if i < j then s[i] else s[i + 1]
  {
    s[..j] + s[j + 1..]
  }

  lemma IdsWithout(es: seq<SplitDetail>, j: nat)
    requires j < |es|
    ensures IdsOf(Without(es, j)) == Without(IdsOf(es), j)
  {
  }

  /** Aligning complete entries to the participant order does not change their sum. */
  lemma {:induction false} PermutedSum(es: seq<SplitDetail>, unique: seq<string>)
    requires Complete(IdsOf(es), unique)
    ensures SumDetails(AlignedTo(es, unique)) == SumDetails(es)
    decreases |unique|
  {
    // Peel the last participant off and remove its (unique) entry.
    if |unique| > 0 {
      var n := |unique| - 1;
      var ids := IdsOf(es);
      assert unique[n] in ids;
      var j :| 0 <= j < |ids| && ids[j] == unique[n];
      DropEntry(es, unique, j);
      PermutedSum(Without(es, j), unique[..n]);
      SumStep(es, unique, j);
    }
  }

  lemma SumStep(es: seq<SplitDetail>, unique: seq<string>, j: nat)
    requires |unique| > 0 && j < |es|
    requires AlignedTo(es, unique)[..|unique| - 1] == AlignedTo(Without(es, j), unique[..|unique| - 1])
    requires AlignedTo(es, unique)[|unique| - 1].amount == es[j].amount
    requires SumDetails(AlignedTo(Without(es, j), unique[..|unique| - 1])) == SumDetails(Without(es, j))
    ensures SumDetails(AlignedTo(es, unique)) == SumDetails(es)
  {
    RemoveOneSum(es, j);
  }

  /** Removing the entry of the last participant leaves complete entries for the others. */
  lemma DropEntry(es: seq<SplitDetail>, unique: seq<string>, j: nat)
    requires Complete(IdsOf(es), unique) && |unique| > 0 && j < |es|
    requires es[j].userId == unique[|unique| - 1]
    ensures Complete(IdsOf(Without(es, j)), unique[..|unique| - 1])
    ensures AlignedTo(es, unique)[..|unique| - 1] == AlignedTo(Without(es, j), unique[..|unique| - 1])
    ensures AlignedTo(es, unique)[|unique| - 1].amount == es[j].amount
  {
    var n := |unique| - 1;
    IdsWithout(es, j);
    DropId(IdsOf(es), unique, j);
    AmountAt(es, j);
    var a := AlignedTo(es, unique);
    var b := AlignedTo(Without(es, j), unique[..n]);
    forall i | 0 <= i < n ensures a[i] == b[i] {
      AmountWithout(es, j, unique[i]);
    }
  }

  /** In entries with distinct ids, the amount for an entry's id is that entry's amount. */
  lemma AmountAt(es: seq<SplitDetail>, m: nat)
    requires NoDup(IdsOf(es)) && m < |es|
    ensures Balance.DetailAmount(es, es[m].userId) == es[m].amount
  {
    var ids := IdsOf(es);
    assert forall i :: 0 <= i < m ==> ids[i] != ids[m];
  }

  /** Removing an entry does not change the amount for any other id. */
  lemma AmountWithout(es: seq<SplitDetail>, j: nat, w: string)
    requires NoDup(IdsOf(es)) && j < |es| && w != es[j].userId
    ensures Balance.DetailAmount(Without(es, j), w) == Balance.DetailAmount(es, w)
  {
    var ids := IdsOf(es);
    var rest := Without(es, j);
    IdsWithout(es, j);
    if m :| 0 <= m < |es| && ids[m] == w {
      AmountAt(es, m);
      AmountWithoutPresent(es, j, m);
    } else {
      assert forall i :: 0 <= i < |rest| ==> rest[i].userId != w;
    }
  }

  lemma AmountWithoutPresent(es: seq<SplitDetail>, j: nat, m: nat)
    requires NoDup(IdsOf(es)) && j < |es| && m < |es| && m != j
    ensures Balance.DetailAmount(Without(es, j), es[m].userId) == es[m].amount
  {
    var rest := Without(es, j);
    var k := if m < j then m else m - 1;
    assert rest[k] == es[m];
    IdsWithout(es, j);
    NoDupWithout(IdsOf(es), j);
    AmountAt(rest, k);
  }

  lemma NoDupWithout<T>(s: seq<T>, j: nat)
    requires NoDup(s) && j < |s|
    ensures NoDup(Without(s, j))
  {
    var r := Without(s, j);
    forall x, y | 0 <= x < y < |r| ensures r[x] != r[y] {
      var x' := if x < j then x else x + 1;
      var y' := if y < j then y else y + 1;
      assert r[x] == s[x'] && r[y] == s[y'];
    }
  }

  /** The id-level part of `DropEntry`. */
  lemma DropId(ids: seq<string>, unique: seq<string>, j: nat)
    requires WellFormed(ids, unique) && Covers(ids, unique) && NoDup(unique)
    requires |unique| > 0 && j < |ids| && ids[j] == unique[|unique| - 1]
    ensures WellFormed(Without(ids, j), unique[..|unique| - 1])
    ensures Covers(Without(ids, j), unique[..|unique| - 1])
    ensures NoDup(unique[..|unique| - 1])
  {
    var n := |unique| - 1;
    var rest := Without(ids, j);
    var pre := unique[..n];
    forall i | 0 <= i < |rest| ensures rest[i] in pre {
      var k := if i < j then i else i + 1;
      assert rest[i] == ids[k] && k != j;
      var m :| 0 <= m < |unique| && unique[m] == rest[i];
      assert m != n;
      assert pre[m] == unique[m];
    }
    forall i | 0 <= i < n ensures pre[i] in rest {
      var w := unique[i];
      var m :| 0 <= m < |ids| && ids[m] == w;
      assert m != j;
      if m < j { assert rest[m] == w; } else { assert rest[m - 1] == w; }
    }
  }

  /** Removing one entry removes its amount from the sum. */
  lemma {:induction false} RemoveOneSum(es: seq<SplitDetail>, j: nat)
    requires j < |es|
    ensures SumDetails(es) == SumDetails(Without(es, j)) + es[j].amount
    decreases |es|
  {
    var n := |es| - 1;
    if j < n {
      RemoveOneSum(es[..n], j);
      assert Without(es[..n], j) == Without(es, j)[..n - 1];
    } else {
      assert Without(es, j) == es[..n];
    }
  }

  // ---------------------------------------------------------------------
  // The whole normaliser

  function NotIn(members: seq<string>): string -> bool {
    (u: string) => u !in members
  }

  /**
   * The group rules of an expense in a group: the group exists, and its
   * members include the creator, the payer and every participant.
   */
  function GroupCheck(groups: seq<Group>, groupId: Option<string>, createdBy: string, payer: string,
                      unique: seq<string>): (r: Outcome)
    ensures !Truthy(groupId) ==> r == Pass
    ensures Truthy(groupId) && FindGroup(groups, groupId.value).None? ==> r == Fail(NotFound("Group not found"))
    ensures Truthy(groupId) && FindGroup(groups, groupId.value).Some? ==>
      var members := FindGroup(groups, groupId.value).value.members;
      (&& (createdBy !in members ==> r == Fail(Forbidden("You are not a member of this group")))
       && (createdBy in members && payer !in members ==> r == Fail(Forbidden("Payer must be a member of this group")))
       && (createdBy in members && payer in members && (exists i :: 0 <= i < |unique| && unique[i] !in members) ==>
             r == Fail(Forbidden("All splitBetween users must be members of the group")))
       && (r.Pass? <==> createdBy in members && payer in members && forall i :: 0 <= i < |unique| ==> unique[i] in members))
  {
    if !Truthy(groupId) then Pass
    else match FindGroup(groups, groupId.value)
      case None => Fail(NotFound("Group not found"))
      case Some(g) =>
        if createdBy !in g.members then Fail(Forbidden("You are not a member of this group"))
        else if payer !in g.members then Fail(Forbidden("Payer must be a member of this group"))
        else
          var nonMembers := Filter(unique, NotIn(g.members));
          if |nonMembers| > 0 then
            assert nonMembers[0] in unique;
            Fail(Forbidden("All splitBetween users must be members of the group"))
          else Pass
  }

  /** The checks after the group rules, in the order the service makes them. */
  predicate FieldsValid(users: seq<User>, base: ExpensePayload, payer: string, unique: seq<string>) {
    && FirstMissing(users, unique).None?
    && UserExists(users, payer)
    && base.amount.Some? && base.amount.value > 0.0
    && TrimmedOrEmpty(base.title) != ""
    && TrimmedOrEmpty(base.category) != ""
    && base.date.Some? && base.date.value.Parsed?
  }

  /** The split type the service stores: anything but 'EQUAL' is read back as unequal. */
  function StoredSplitType(base: ExpensePayload): SplitType {
    if base.splitType == Some(Equal) then Equal else Unequal
  }

  /** The first failing check after the group rules, if any. */
  function FieldsError(users: seq<User>, base: ExpensePayload, payer: string, unique: seq<string>): (e: Option<Error>)
    ensures e.None? <==> FieldsValid(users, base, payer, unique)
  {
    match FirstMissing(users, unique)
    case Some(i) => Some(NotFound("User " + unique[i] + " not found"))
    case None =>
      if !UserExists(users, payer) then Some(NotFound("User " + payer + " not found"))
      else if base.amount.None? || base.amount.value <= 0.0 then Some(BadRequest("amount must be greater than zero"))
      else if TrimmedOrEmpty(base.title) == "" then Some(BadRequest("title must not be empty"))
      else if TrimmedOrEmpty(base.category) == "" then Some(BadRequest("category must not be empty"))
      else if base.date.None? || !base.date.value.Parsed? then Some(BadRequest("date must be a valid ISO date"))
      else None
  }

  /** The stored details: none for an equal split, the checked details otherwise. */
  function SplitDetails(base: ExpensePayload, unique: seq<string>, amount: real): (r: Result<seq<SplitDetail>>)
    ensures StoredSplitType(base) == Equal ==> r == Ok([])
    ensures StoredSplitType(base) == Unequal ==> r == UnequalDetails(base.splitDetails, unique, amount)
  {
    if StoredSplitType(base) == Equal then Ok([]) else UnequalDetails(base.splitDetails, unique, amount)
  }

  /**
   * What `normalizeExpensePayload` returns once the invited users exist
   * (their ids are `invitedIds`): the first failing check as an error, or
   * the normalised fields.
   */
  function Normalized(groups: seq<Group>, users: seq<User>, base: ExpensePayload, createdBy: string,
                      invitedIds: seq<string>): (r: Result<NormalizedExpense>)
    requires |SplitList(base)| > 0
    ensures r.Ok? ==> r.value.splitBetween == Dedup(SplitList(base) + invitedIds) && |r.value.splitBetween| > 0
    ensures r.Ok? ==> r.value.paidBy == PayerId(base, createdBy)
  {
    var payer := PayerId(base, createdBy);
    var split := SplitList(base);
    var unique := Dedup(split + invitedIds);
    assert (split + invitedIds)[0] == split[0];
    var gc := GroupCheck(groups, base.groupId, createdBy, payer, unique);
    if gc.Fail? then Err(gc.error)
    else match FieldsError(users, base, payer, unique)
      case Some(e) => Err(e)
      case None =>
        match SplitDetails(base, unique, base.amount.value)
        case Err(e) => Err(e)
        case Ok(ds) =>
          Ok(NormalizedExpense(
            TrimmedOrEmpty(base.title), base.amount.value, base.date.value, TrimmedOrEmpty(base.category),
            TrimmedOrNone(base.receiptUrl), if Truthy(base.groupId) then base.groupId else None,
            payer, StoredSplitType(base), unique, ds))
  }

  /** An accepted expense names only existing users, as payer and as participants. */
  lemma NormalizedUsersExist(groups: seq<Group>, users: seq<User>, base: ExpensePayload, createdBy: string,
                             invitedIds: seq<string>)
    requires |SplitList(base)| > 0
    ensures var r := Normalized(groups, users, base, createdBy, invitedIds);
      r.Ok? ==> (UserExists(users, r.value.paidBy)
        && forall i :: 0 <= i < |r.value.splitBetween| ==> UserExists(users, r.value.splitBetween[i]))
  {
    var r := Normalized(groups, users, base, createdBy, invitedIds);
    if r.Ok? {
      assert FieldsValid(users, base, r.value.paidBy, r.value.splitBetween);
    }
  }

  /** An accepted expense has a positive amount, a non-blank title and category, and a parsed date. */
  lemma NormalizedFields(groups: seq<Group>, users: seq<User>, base: ExpensePayload, createdBy: string,
                         invitedIds: seq<string>)
    requires |SplitList(base)| > 0
    ensures var r := Normalized(groups, users, base, createdBy, invitedIds);
      r.Ok? ==> r.value.amount > 0.0 && r.value.title != "" && r.value.category != "" && r.value.date.Parsed?
  {
    var r := Normalized(groups, users, base, createdBy, invitedIds);
    if r.Ok? {
      assert FieldsValid(users, base, r.value.paidBy, r.value.splitBetween);
    }
  }

  /** An accepted expense in a group names a group whose members include its creator, its payer and every participant. */
  lemma NormalizedGroupMembers(groups: seq<Group>, users: seq<User>, base: ExpensePayload, createdBy: string,
                               invitedIds: seq<string>)
    requires |SplitList(base)| > 0
    ensures var r := Normalized(groups, users, base, createdBy, invitedIds);
      r.Ok? && r.value.groupId.Some? ==>
        FindGroup(groups, r.value.groupId.value).Some?
        && var members := FindGroup(groups, r.value.groupId.value).value.members;
        (createdBy in members && r.value.paidBy in members
         && forall i :: 0 <= i < |r.value.splitBetween| ==> r.value.splitBetween[i] in members)
  {
    var r := Normalized(groups, users, base, createdBy, invitedIds);
    if r.Ok? && r.value.groupId.Some? {
      assert GroupCheck(groups, base.groupId, createdBy, r.value.paidBy, r.value.splitBetween).Pass?;
    }
  }

  /**
   * An accepted expense stores no details for an equal split, and for an
   * unequal one a detail per participant, in participant order, adding up
   * to the amount within a cent.
   */
  lemma NormalizedSplitShape(groups: seq<Group>, users: seq<User>, base: ExpensePayload, createdBy: string,
                             invitedIds: seq<string>)
    requires |SplitList(base)| > 0
    ensures var r := Normalized(groups, users, base, createdBy, invitedIds);
      r.Ok? ==> (Balance.NormalisedSplit(ToRow(r.value, ""))
        && (r.value.splitType == Equal ==> r.value.splitDetails == [])
        && (r.value.splitType == Unequal ==> WithinCent(SumDetails(r.value.splitDetails), r.value.amount)))
  {
    var r := Normalized(groups, users, base, createdBy, invitedIds);
    if r.Ok? {
      var unique := r.value.splitBetween;
      assert r.value.splitDetails == SplitDetails(base, unique, base.amount.value).value;
    }
  }

  /**
   * A payload is accepted exactly when the group rules hold, every check on
   * the fields passes and, for an unequal split, the details are accepted.
   */
  lemma NormalizedAccepts(groups: seq<Group>, users: seq<User>, base: ExpensePayload, createdBy: string,
                          invitedIds: seq<string>)
    requires |SplitList(base)| > 0
    ensures Normalized(groups, users, base, createdBy, invitedIds).Ok? <==>
      var payer := PayerId(base, createdBy);
      var unique := Dedup(SplitList(base) + invitedIds);
      (&& GroupCheck(groups, base.groupId, createdBy, payer, unique).Pass?
       && FieldsValid(users, base, payer, unique)
       && (StoredSplitType(base) == Unequal ==> UnequalDetails(base.splitDetails, unique, base.amount.value).Ok?))
  {
    var payer := PayerId(base, createdBy);
    var unique := Dedup(SplitList(base) + invitedIds);
    assert FieldsValid(users, base, payer, unique) <==> FieldsError(users, base, payer, unique).None?;
  }

  /** The checks after provisioning, in the service's order; proved against `Normalized`. */
  method CheckExpense(groups: seq<Group>, users: seq<User>, base: ExpensePayload, createdBy: string,
                      invitedIds: seq<string>) returns (r: Result<NormalizedExpense>)
    requires |SplitList(base)| > 0
    ensures r == Normalized(groups, users, base, createdBy, invitedIds)
  {
    var payer := PayerId(base, createdBy);
    var unique := Dedup(SplitList(base) + invitedIds);
    var gc := GroupCheck(groups, base.groupId, createdBy, payer, unique);
    if gc.Fail? {
      return Err(gc.error);
    }
    var missing := FindMissingUser(users, unique);
    if missing.Some? {
      return Err(NotFound("User " + unique[missing.value] + " not found"));
    }
    if !UserExists(users, payer) {
      return Err(NotFound("User " + payer + " not found"));
    }
    if base.amount.None? || base.amount.value <= 0.0 {
      return Err(BadRequest("amount must be greater than zero"));
    }
    var title := TrimmedOrEmpty(base.title);
    if title == "" {
      return Err(BadRequest("title must not be empty"));
    }
    var category := TrimmedOrEmpty(base.category);
    if category == "" {
      return Err(BadRequest("category must not be empty"));
    }
    if base.date.None? || !base.date.value.Parsed? {
      return Err(BadRequest("date must be a valid ISO date"));
    }
    var details: seq<SplitDetail> := [];
    if StoredSplitType(base) == Unequal {
      var checked := ValidateUnequalDetails(base.splitDetails, unique, base.amount.value);
      if checked.Err? {
        return Err(checked.error);
      }
      details := checked.value;
    }
    r := Ok(NormalizedExpense(
      title, base.amount.value, base.date.value, category,
      TrimmedOrNone(base.receiptUrl), if Truthy(base.groupId) then base.groupId else None,
      payer, StoredSplitType(base), unique, details));
  }

  /**
   * `normalizeExpensePayload`: merge, refuse an empty split before any
   * write, create the invited users, then check. The invitations persist
   * even when a later check refuses the payload.
   */
  method NormalizeExpensePayload(groups: seq<Group>, store: UserStore, payload: ExpensePayload, createdBy: string,
                                 existing: Option<Expense>, freshIds: seq<string>)
    returns (r: Result<NormalizedExpense>)
    requires |freshIds| == |payload.invitedUsers|
    modifies store
    ensures |SplitList(Merge(existing, payload))| == 0 ==>
      r == Err(BadRequest("splitBetween must contain at least one user")) && store.users == old(store.users)
    ensures |SplitList(Merge(existing, payload))| > 0 ==>
      var p := Provision(old(store.users), payload.invitedUsers, freshIds);
      store.users == p.users && r == Normalized(groups, p.users, Merge(existing, payload), createdBy, p.ids)
  {
    var base := Merge(existing, payload);
    if |SplitList(base)| == 0 {
      return Err(BadRequest("splitBetween must contain at least one user"));
    }
    var invitedIds := store.InviteAll(payload.invitedUsers, freshIds);
    r := CheckExpense(groups, store.users, base, createdBy, invitedIds);
  }
}
