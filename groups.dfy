/**
 * Group membership rules (src/groups/groups.service.ts): which groups a
 * user sees, the member lists `create` and `update` build, and the checks
 * that guard `update` and `remove`. The groups and expenses tables are the
 * fields of a `Tables` object and the users array is a `UserStore`; the
 * time stamp and the fresh ids are parameters.
 */
module Groups {
  import opened Common
  import opened Records
  import opened Users

  datatype CreateGroupInput = CreateGroupInput(name: Option<string>, members: seq<string>, invitedUsers: seq<InviteInput>)

  datatype UpdateGroupInput = UpdateGroupInput(name: Option<string>, members: Option<seq<string>>, invitedUsers: seq<InviteInput>)

  datatype Removed = Removed(deletedGroupId: string, deletedExpensesCount: nat)

  // ---------------------------------------------------------------------
  // findAll

  predicate Visible(g: Group, userId: string) {
    g.createdBy == userId || userId in g.members
  }

  function VisibleTo(userId: string): Group -> bool {
    (g: Group) => Visible(g, userId)
  }

  /** `findAll`: exactly the groups the user created or belongs to, in table order. */
  function FindAll(groups: seq<Group>, userId: string): (r: seq<Group>)
    ensures forall i :: 0 <= i < |r| ==> r[i] in groups && Visible(r[i], userId)
    ensures forall i :: 0 <= i < |groups| && Visible(groups[i], userId) ==> groups[i] in r
  {
    Filter(groups, VisibleTo(userId))
  }

  /** A group a user creates is listed for that user, after the groups listed before. */
  lemma CreatedGroupListed(groups: seq<Group>, g: Group, userId: string)
    requires g.createdBy == userId
    ensures FindAll(groups + [g], userId) == FindAll(groups, userId) + [g]
  {
    FilterConcat(groups, [g], VisibleTo(userId));
    FilterHead([g], VisibleTo(userId));
  }

  // ---------------------------------------------------------------------
  // Member lists

  /**
   * The members `create` stores: the given members, the invited users and
   * the creator, each once, in first-seen order.
   */
  function CreatedMembers(given: seq<string>, invitedIds: seq<string>, creator: string): (m: seq<string>)
    ensures NoDup(m)
    ensures creator in m
    ensures forall i :: 0 <= i < |given| ==> given[i] in m
    ensures forall i :: 0 <= i < |invitedIds| ==> invitedIds[i] in m
    ensures forall i :: 0 <= i < |m| ==> m[i] == creator || m[i] in given || m[i] in invitedIds
  {
    var all := given + invitedIds + [creator];
    assert all[|all| - 1] == creator;
    assert forall i :: 0 <= i < |given| ==> all[i] == given[i];
    assert forall i :: 0 <= i < |invitedIds| ==> all[|given| + i] == invitedIds[i];
    Dedup(all)
  }

  function NonEmpty(id: string): bool { id != "" }

  /**
   * The members `update` stores: the current members, then the added ones,
   * then the creator unless already there; empty ids dropped, each id once.
   * No current member other than an empty id is ever removed.
   */
  function UpdatedMembers(current: seq<string>, added: seq<string>, creator: string): (m: seq<string>)
    ensures NoDup(m)
    ensures forall i :: 0 <= i < |m| ==> m[i] != ""
    ensures creator != "" ==> creator in m
    ensures forall i :: 0 <= i < |current| && current[i] != "" ==> current[i] in m
    ensures forall i :: 0 <= i < |added| && added[i] != "" ==> added[i] in m
    ensures forall i :: 0 <= i < |m| ==> m[i] == creator || m[i] in current || m[i] in added
  {
    var withCreator := WithCreator(current, added, creator);
    var kept := Filter(withCreator, NonEmpty);
    assert forall i :: 0 <= i < |withCreator| && withCreator[i] != "" ==> withCreator[i] in kept;
    Dedup(kept)
  }

  /** `[...group.members, ...members]` with the creator appended unless already there. */
  function WithCreator(current: seq<string>, added: seq<string>, creator: string): (w: seq<string>)
    ensures creator in w
    ensures forall i :: 0 <= i < |current| ==> current[i] in w
    ensures forall i :: 0 <= i < |added| ==> added[i] in w
    ensures forall i :: 0 <= i < |w| ==> w[i] == creator || w[i] in current || w[i] in added
  {
    var next := current + added;
    assert forall i :: 0 <= i < |current| ==> next[i] == current[i];
    assert forall i :: 0 <= i < |added| ==> next[|current| + i] == added[i];
    if creator in next then next else next + [creator]
  }

  /** The groups table after the PATCH of `update`: every row with that id gets the new name and members. */
  function SetGroupRows(groups: seq<Group>, id: string, name: string, members: seq<string>): (r: seq<Group>)
    ensures |r| == |groups|
  {
    seq(|groups|, i requires 0 <= i < |groups| =>
      if groups[i].id == id then groups[i].(name := name, members := members) else groups[i])
  }

  // ---------------------------------------------------------------------
  // create, update and remove

  /**
   * The member list `create` builds before deduplicating: the given
   * members, each invited id not yet present, and the creator if not yet
   * present. Deduplicated, it is `CreatedMembers`.
   */
  method MergeMembers(given: seq<string>, invitedIds: seq<string>, creator: string) returns (memberIds: seq<string>)
    ensures Dedup(memberIds) == CreatedMembers(given, invitedIds, creator)
    ensures creator in memberIds
  {
    memberIds := given;
    var k := 0;
    assert given + invitedIds[..0] == given;
    while k < |invitedIds|
      invariant 0 <= k <= |invitedIds|
      invariant Dedup(memberIds) == Dedup(given + invitedIds[..k])
    {
      var id := invitedIds[k];
      assert given + invitedIds[..k + 1] == (given + invitedIds[..k]) + [id];
      DedupSnoc(given + invitedIds[..k], id);
      DedupSnoc(memberIds, id);
      if id !in memberIds {
        memberIds := memberIds + [id];
      }
      k := k + 1;
    }
    assert invitedIds[..k] == invitedIds;
    DedupSnoc(given + invitedIds, creator);
    DedupSnoc(memberIds, creator);
    if creator !in memberIds {
      memberIds := memberIds + [creator];
    }
  }

  /**
   * `create`: a name that is blank after trimming is refused before
   * anything is written; then every invitation is provisioned; then every
   * member must exist; then the group is appended with the trimmed name,
   * the caller as creator and `CreatedMembers` as members.
   */
  method Create(tables: Tables, store: UserStore, input: CreateGroupInput, userId: string,
                freshIds: seq<string>, groupId: string, createdAt: DateText) returns (r: Result<Group>)
    requires |freshIds| == |input.invitedUsers|
    modifies tables, store
    ensures input.name.None? || IsBlank(input.name.value) ==>
      r == Err(BadRequest("Group name should not be empty")) && store.users == old(store.users)
      && tables.groups == old(tables.groups)
    ensures input.name.Some? && !IsBlank(input.name.value) ==>
      var p := Provision(old(store.users), input.invitedUsers, freshIds);
      var members := CreatedMembers(input.members, p.ids, userId);
      && store.users == p.users
      && (FirstMissing(p.users, members).Some? ==>
            var missing := members[FirstMissing(p.users, members).value];
            r == Err(NotFound("Member " + missing + " not found")) && tables.groups == old(tables.groups))
      && (FirstMissing(p.users, members).None? ==>
            r == Ok(Group(groupId, Trim(input.name.value), userId, members, createdAt))
            && tables.groups == old(tables.groups) + [r.value])
    ensures tables.expenses == old(tables.expenses) && tables.settlements == old(tables.settlements)
  {
    if input.name.None? || Trim(input.name.value) == "" {
      return Err(BadRequest("Group name should not be empty"));
    }
    var trimmedName := Trim(input.name.value);
    var invitedIds := store.InviteAll(input.invitedUsers, freshIds);
    var memberIds := MergeMembers(input.members, invitedIds, userId);
    var uniqueMembers := Dedup(memberIds);
    var missing := FindMissingUser(store.users, uniqueMembers);
    if missing.Some? {
      return Err(NotFound("Member " + uniqueMembers[missing.value] + " not found"));
    }
    var group := Group(groupId, trimmedName, userId, uniqueMembers, createdAt);
    tables.groups := tables.groups + [group];
    r := Ok(group);
  }

  /**
   * What `update` decides once invitations are provisioned: a missing group
   * is NotFound, a caller other than the creator is Forbidden, a given name
   * must not be blank, and every member of `UpdatedMembers` must exist. An
   * accepted group keeps its id and creator, and every member it had.
   */
  function UpdateOutcome(groups: seq<Group>, users: seq<User>, id: string, name: Option<string>,
                         added: seq<string>, userId: string): Result<Group>
  {
    match FindGroup(groups, id)
    case None => Err(NotFound("Group not found"))
    case Some(g) =>
      if g.createdBy != userId then Err(Forbidden("Only group creator can edit this group"))
      else if name.Some? && Trim(name.value) == "" then Err(BadRequest("Group name should not be empty"))
      else
        var members := UpdatedMembers(g.members, added, g.createdBy);
        match FirstMissing(users, members)
        case Some(i) => Err(NotFound("Member " + members[i] + " not found"))
        case None => Ok(g.(name := if name.Some? then Trim(name.value) else g.name, members := members))
  }

  /** The refusals of `UpdateOutcome`, and what an accepted group keeps. */
  lemma UpdateOutcomeSpec(groups: seq<Group>, users: seq<User>, id: string, name: Option<string>,
                          added: seq<string>, userId: string)
    ensures var r := UpdateOutcome(groups, users, id, name, added, userId);
      FindGroup(groups, id).None? ==> r == Err(NotFound("Group not found"))
    ensures var r := UpdateOutcome(groups, users, id, name, added, userId);
      FindGroup(groups, id).Some? && FindGroup(groups, id).value.createdBy != userId ==>
        r == Err(Forbidden("Only group creator can edit this group"))
    ensures var r := UpdateOutcome(groups, users, id, name, added, userId);
      name.Some? && IsBlank(name.value) ==> r.Err?
    ensures var r := UpdateOutcome(groups, users, id, name, added, userId);
      r.Ok? ==>
        var g := FindGroup(groups, id).value;
        && FindGroup(groups, id).Some? && g.createdBy == userId
        && r.value.id == id && r.value.createdBy == userId && r.value.createdAt == g.createdAt
        && r.value.name == (if name.Some? then Trim(name.value) else g.name)
        && r.value.members == UpdatedMembers(g.members, added, g.createdBy)
        && (forall i :: 0 <= i < |g.members| && g.members[i] != "" ==> g.members[i] in r.value.members)
        && (forall i :: 0 <= i < |r.value.members| ==> UserExists(users, r.value.members[i]))
    ensures var r := UpdateOutcome(groups, users, id, name, added, userId);
      r.Err? && r.error.NotFound? && FindGroup(groups, id).Some? ==>
        var members := UpdatedMembers(FindGroup(groups, id).value.members, added, userId);
        && FirstMissing(users, members).Some?
        && r.error.msg == "Member " + members[FirstMissing(users, members).value] + " not found"
  {
  }

  /**
   * `update`: invitations are provisioned first, before any check, and
   * their ids appended to the given members; then the checks run in the
   * order of `UpdateOutcome`, and only an accepted group is written, to
   * every row with that id.
   */
  method Update(tables: Tables, store: UserStore, id: string, input: UpdateGroupInput, userId: string,
                freshIds: seq<string>) returns (r: Result<Group>)
    requires |freshIds| == |input.invitedUsers|
    modifies tables, store
    ensures var p := Provision(old(store.users), input.invitedUsers, freshIds);
      && store.users == p.users
      && r == UpdateOutcome(old(tables.groups), p.users, id, input.name, GivenMembers(input) + p.ids, userId)
    ensures r.Err? ==> tables.groups == old(tables.groups)
    ensures r.Ok? ==> tables.groups == SetGroupRows(old(tables.groups), id, r.value.name, r.value.members)
    ensures tables.expenses == old(tables.expenses) && tables.settlements == old(tables.settlements)
  {
    var given := ProvisionMembers(store, input, freshIds);
    r := CheckUpdate(tables.groups, store.users, id, input.name, given, userId);
    WriteGroup(tables, id, r);
  }

  /** The end of `update`: only an accepted group is written, to every row with its id. */
  method WriteGroup(tables: Tables, id: string, r: Result<Group>)
    modifies tables
    ensures r.Err? ==> tables.groups == old(tables.groups)
    ensures r.Ok? ==> tables.groups == SetGroupRows(old(tables.groups), id, r.value.name, r.value.members)
    ensures tables.expenses == old(tables.expenses) && tables.settlements == old(tables.settlements)
  {
    if r.Ok? {
      tables.groups := SetGroupRows(tables.groups, id, r.value.name, r.value.members);
    }
  }

  /** The start of `update`: invite the invited users and append their ids to the given members. */
  method ProvisionMembers(store: UserStore, input: UpdateGroupInput, freshIds: seq<string>) returns (given: seq<string>)
    requires |freshIds| == |input.invitedUsers|
    modifies store
    ensures var p := Provision(old(store.users), input.invitedUsers, freshIds);
      store.users == p.users && given == GivenMembers(input) + p.ids
  {
    ghost var p := Provision(store.users, input.invitedUsers, freshIds);
    var members := input.members;
    if |input.invitedUsers| > 0 {
      var pending := store.InviteAll(input.invitedUsers, freshIds);
      members := Some(GivenMembers(input) + pending);
    } else {
      assert GivenMembers(input) + p.ids == GivenMembers(input);
    }
    given := if members.Some? then members.value else [];
  }

  /** The checks of `update`, in the source's order, against `UpdateOutcome`. */
  method CheckUpdate(groups: seq<Group>, users: seq<User>, id: string, name: Option<string>,
                     added: seq<string>, userId: string) returns (r: Result<Group>)
    ensures r == UpdateOutcome(groups, users, id, name, added, userId)
  {
    var found := FindGroup(groups, id);
    if found.None? {
      return Err(NotFound("Group not found"));
    }
    var group := found.value;
    if group.createdBy != userId {
      return Err(Forbidden("Only group creator can edit this group"));
    }
    if name.Some? {
      var trimmedName := Trim(name.value);
      if trimmedName == "" {
        return Err(BadRequest("Group name should not be empty"));
      }
      group := group.(name := trimmedName);
    }
    var members := UpdatedMembers(group.members, added, group.createdBy);
    group := group.(members := members);
    var missing := FindMissingUser(users, members);
    if missing.Some? {
      return Err(NotFound("Member " + members[missing.value] + " not found"));
    }
    r := Ok(group);
  }

  /** The members an update names explicitly (`data.members || []`). */
  function GivenMembers(input: UpdateGroupInput): seq<string> {
    if input.members.Some? then input.members.value else []
  }

  function InGroup(id: string): Expense -> bool {
    (e: Expense) => e.groupId == Some(id)
  }

  function OutsideGroup(id: string): Expense -> bool {
    (e: Expense) => e.groupId != Some(id)
  }

  function OtherGroup(id: string): Group -> bool {
    (g: Group) => g.id != id
  }

  /**
   * The cascade of `remove`: the expenses it reports and deletes and the
   * ones it keeps split the table, and none of those kept is in the group.
   */
  lemma CascadeSplitsExpenses(expenses: seq<Expense>, id: string)
    ensures |Filter(expenses, InGroup(id))| + |Filter(expenses, OutsideGroup(id))| == |expenses|
    ensures forall i :: 0 <= i < |Filter(expenses, OutsideGroup(id))| ==>
      Filter(expenses, OutsideGroup(id))[i].groupId != Some(id)
  {
    FilterPartition(expenses, InGroup(id), OutsideGroup(id));
  }

  /**
   * `remove`: a missing group is NotFound and a caller other than the
   * creator is Forbidden, with nothing deleted; otherwise the group's
   * expenses are counted and deleted, and then the group itself.
   */
  method Remove(tables: Tables, id: string, userId: string) returns (r: Result<Removed>)
    modifies tables
    ensures FindGroup(old(tables.groups), id).None? ==>
      r == Err(NotFound("Group not found")) && tables.groups == old(tables.groups)
      && tables.expenses == old(tables.expenses)
    ensures FindGroup(old(tables.groups), id).Some? && FindGroup(old(tables.groups), id).value.createdBy != userId ==>
      r == Err(Forbidden("Only group creator can delete this group")) && tables.groups == old(tables.groups)
      && tables.expenses == old(tables.expenses)
    ensures FindGroup(old(tables.groups), id).Some? && FindGroup(old(tables.groups), id).value.createdBy == userId ==>
      r == Ok(Removed(id, |Filter(old(tables.expenses), InGroup(id))|))
      && tables.expenses == Filter(old(tables.expenses), OutsideGroup(id))
      && tables.groups == Filter(old(tables.groups), OtherGroup(id))
    ensures tables.settlements == old(tables.settlements)
  {
    var found := FindGroup(tables.groups, id);
    if found.None? {
      return Err(NotFound("Group not found"));
    }
    if found.value.createdBy != userId {
      return Err(Forbidden("Only group creator can delete this group"));
    }
    var deletedExpensesCount := |Filter(tables.expenses, InGroup(id))|;
    tables.expenses := Filter(tables.expenses, OutsideGroup(id));
    tables.groups := Filter(tables.groups, OtherGroup(id));
    r := Ok(Removed(id, deletedExpensesCount));
  }
}
