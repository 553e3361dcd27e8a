# Shared-expense ledger: a Dafny model

This project models the core of a NestJS server for sharing expenses. Users
record expenses that they paid for and that are split between several
people. A split is either EQUAL or UNEQUAL, and an UNEQUAL split carries one
amount per participant. Users settle debts with one another. Groups collect
members. The server computes each user's balance and an analytics summary.
Sign-in works by email and password, with a lock-out after repeated
failures, or by a one-time SMS code, with a send limit and an attempt limit.

The model has one Dafny module per concern:

- `Common`: options, results and error kinds; JavaScript's `trim` and an
  ASCII `toLowerCase`; `find`, `filter` and `Array.from(new Set(...))` over sequences.
- `Records`: expenses, settlements and groups. The class `Tables` is the
  record store, with one sequence per table.
- `Users`: phone normalisation and the users service. The class `UserStore`
  holds the user array that the service mutates in place.
- `Auth`: the class `AuthState` with the three in-memory dictionaries
  (login attempts, OTP sends and OTP codes). It also has pure step functions
  for each rule, and lemmas over sequences of attempts.
- `Groups`: the groups service over `Tables` and `UserStore`.
- `Balance`: an expense's and a settlement's effect on a user's balance.
  The class `BalanceState` holds the mutable `state` record.
- `Normalize`: the expense-payload normaliser. It is a function
  `Normalized`, plus methods that run the same checks with the source's
  loops.
- `Ledger`: expense create, update and remove, and settlement creation.
- `Analytics`: the time window, the per-user lists and the analytics
  summary.

Money is `real`. Instants are milliseconds as `int`. The current time, fresh
ids, the OTP code, the password hash and compare functions, the JWT signer
and the SMS outcome are all parameters.

## Model

| member | source | states |
|---|---|---|
| Common.TrimSpec | src/users/users.service.ts:230 | The result is the input with its maximal leading and trailing run of whitespace removed: it is a slice of the input, it neither starts nor ends with whitespace, and everything cut off is whitespace. |
| Common.TrimIdempotent | src/users/users.service.ts:230 | Trimming an already trimmed string changes nothing. |
| Common.BlankIffAllSpace | src/expenses/expenses.service.ts:313-316 | A string is blank after trimming exactly when all its characters are whitespace. |
| Common.ToLower | src/users/users.service.ts:50 | The result has the input's length, with each ASCII capital lowered and every other character kept. |
| Common.FirstWhere | src/users/users.service.ts:109-112 | Like `Array.prototype.find`, it gives the first index whose element satisfies the predicate, or None exactly when no element does. |
| Common.Filter | src/groups/groups.service.ts:55 | The result keeps exactly the elements that satisfy the predicate, and nothing else. |
| Common.FilterConcat | src/expenses/expenses.service.ts:104 | Filtering a concatenation is the concatenation of the filtered parts. |
| Common.FilterPartition | src/groups/groups.service.ts:181-190 | A predicate and its negation split a table into two parts whose sizes add up to the table's size. |
| Common.Dedup | src/expenses/expenses.service.ts:279 | `Array.from(new Set(xs))`: the result has no duplicates and holds exactly the elements of the input. |
| Common.DedupSnoc | src/groups/groups.service.ts:84 | Insertion order: appending an element already present changes nothing, and a new element goes last. |
| Common.DedupOfNoDup | src/groups/groups.service.ts:84 | A sequence without duplicates is its own set. |
| Common.Put | src/auth/auth.service.ts:203 | Assigning or deleting a dictionary key sets that key and leaves every other key as it was. |
| Records.FindGroup | src/groups/groups.service.ts:42-48 | The group found has the requested id, and None means that no group has it. |
| Users.NormalizePhoneSpec | src/users/users.service.ts:6-14 | Falsy input is returned unchanged. Input with no digit and no `+` gives undefined. Otherwise the result is `+` followed by the digits when the cleaned input starts with `+`, and the digits alone otherwise. |
| Users.NormalizePhoneIdempotent | src/users/users.service.ts:6-14 | Normalising an already normalised phone changes nothing. |
| Users.PhoneLookupKeySpec | src/users/users.service.ts:16-20 | The lookup key is the digits of the phone. It is defined only when the phone has a digit or a `+`, and it contains only digits. |
| Users.SameKeyIffSameDigits | src/users/users.service.ts:16-20 | Two phones with digits share a lookup key exactly when they have the same digits. |
| Users.PlusPrefixDoesNotMatter | src/users/users.service.spec.ts:57-67 | `+15551234567` and `15551234567` have the same lookup key. |
| Users.FindOneByMobile | src/users/users.service.ts:43-47 | The user found has the mobile's lookup key, and None means that no user with a lookup key matches. |
| Users.FindOneByMobileAsWritten | src/users/users.service.ts:43-47 | The lookup as written. `DigitlessMobileFindsPhonelessUser` shows that it matches a user without a mobile. |
| Users.DigitlessMobileFindsPhonelessUser | src/users/users.service.ts:43-47 | Looking up the mobile `abc` finds a user who has no mobile at all. |
| Users.FindOneByMobileAgrees | src/users/users.service.ts:43-47 | Whenever the given mobile has a lookup key, the corrected lookup returns what the written one returns. |
| Users.EmailTakenAsWritten | src/users/users.service.ts:166-172 | The duplicate-email test as written. `MissingEmailCollidesAsWritten` shows that it refuses a registration without an email. |
| Users.MissingEmailCollidesAsWritten | src/users/users.service.ts:166-172 | A registration without an email collides with a stored invitee who has none. |
| Users.EmailTaken | src/users/users.service.ts:166-172 | An email is taken exactly when one is given and some stored user's trimmed, lower-cased email equals it. |
| Users.IndexOfId | src/users/users.service.ts:109-112 | `findOneById`: the index found holds the id, and None means that no user has it. |
| Users.FindByQuery | src/users/users.service.ts:94-107 | The result is exactly the users that agree with the query on every defined key of the eight declared `User` fields, other than `password` and `passwordHash`. Keys outside those fields are not modelled (see Left out). |
| Users.SecretsNeverMatched | src/users/users.service.ts:96-98 | A query on `password` and `passwordHash` alone returns every user, so secrets are never compared. |
| Users.CheckPassword | src/users/users.service.ts:59-67 | With a stored hash, the answer is the opaque bcrypt compare. Without one, it is plaintext equality with a stored password. Otherwise it is false. |
| Users.MigrationKeepsPassword | src/users/users.service.ts:84-87 | After a legacy plaintext password is migrated, the same password still checks against the new hash, and no plaintext is left. |
| Users.InviteMatch | src/users/users.service.ts:119-128 | A match exists only for a mobile that normalises to something, and it is a user with that mobile's lookup key. No match means that the mobile normalises to nothing or that no user has its key. |
| Users.PlaceholderMatch | src/users/users.service.ts:150-154 | A placeholder is a user with no email, password or hash whose lookup key equals that of the given mobile, which must normalise to something. No match means that there is no such user. |
| Users.IndexOfEmail | src/users/users.service.ts:75 | It finds the first user whose trimmed, lower-cased email equals the normalised email, and None means that there is none. |
| Users.ValidatedIndex | src/users/users.service.ts:69-92 | The validated user is the first holder of the email, and only when the password checks. No result means that the first holder's password does not check, or that there is no holder. |
| Users.FirstMissing | src/groups/groups.service.ts:85-90 | It gives the first id that no user has, and None exactly when every id exists. |
| Users.FindMissingUser | src/groups/groups.service.ts:85-90 | The loop over member ids finds the same id as `FirstMissing`. |
| Users.Invite | src/users/users.service.ts:114-140 | A mobile that matches an existing user only renames that user. Otherwise exactly one user is appended, with the normalised mobile. Existing ids never change, and the user count grows by at most one. |
| Users.InviteIdempotent | src/users/users.service.ts:114-140 | Inviting the same mobile a second time adds no user and returns the same user as the first invite. |
| Users.Provision | src/groups/groups.service.ts:68-78 | Provisioning invitees yields one id per invitation. Each id exists afterwards, existing users keep their ids, and at most one user is added per invitation. |
| Users.UserStore.CreateInvitedUser | src/users/users.service.ts:114-140 | The store and the returned user are exactly those of `Invite` on the old store. |
| Users.UserStore.InviteAll | src/groups/groups.service.ts:68-78 | Inviting in sequence yields the users and the ids of `Provision`. |
| Users.UserStore.Create | src/users/users.service.ts:142-187 | It uses the corrected duplicate-email test `EmailTaken` (see Findings). A placeholder with a matching phone is upgraded in place. A given email, hash, name or mobile replaces the old one, and the plaintext password is dropped. Otherwise a taken email is refused with the store unchanged, and a new user is appended with the normalised email and mobile, a hash and no plaintext password. |
| Users.UserStore.ValidateCredentials | src/users/users.service.ts:69-92 | An unknown email or a wrong password returns nothing and leaves the store unchanged. For the validated user, the store and the result hold `AfterValidation` of that user: a correct legacy plaintext password is replaced by its hash, and every other user is kept. |
| Users.UserStore.UpdatePushToken | src/users/users.service.ts:189-202 | An unknown id returns nothing and changes nothing. Otherwise only that user's push token changes. |
| Users.UserStore.UpdateUser | src/users/users.service.ts:204-250 | An unknown id returns nothing and changes nothing. An email held by another user is refused with the store unchanged. Otherwise only that user changes, as `UpdatedUser` says. |
| Users.UpdatedEmail | src/users/users.service.ts:217-227 | No email keeps the old one, `''` clears it, and any other non-blank email is stored normalised. |
| Users.UpdatedMobile | src/users/users.service.ts:233-235 | No mobile keeps the old one. Otherwise the mobile is cleared exactly when it normalises to nothing, and a stored mobile is normal and keeps the given digits. |
| Users.UpdatedAvatar | src/users/users.service.ts:237-239 | No avatar keeps the old one. A blank avatar becomes undefined, and any other is stored trimmed. |
| Users.UpdatedUser | src/users/users.service.ts:204-250 | The id and push token are kept. The name is trimmed. The email, mobile and avatar follow their rules. A non-blank password is re-hashed trimmed and drops the plaintext, and otherwise both password fields are kept. |
| Auth.Sanitize | src/auth/auth.service.ts:57-60 | The safe user has no password fields, and putting the removed fields back restores the user exactly, so every other field is preserved. |
| Auth.AfterGate | src/auth/auth.service.ts:76-90 | When not locked, a record whose lock has passed is deleted and any other record is kept. |
| Auth.AfterFailure | src/auth/auth.service.ts:92-121 | With no record, or a window older than 15 minutes, the count restarts at 1 from now. Otherwise the count grows by one with `firstAttemptAt` kept, and a lock until now plus 10 minutes is set at 5. |
| Auth.LoginAttempt | src/auth/auth.service.ts:152-164 | A login is throttled exactly when the identifier is locked. It is accepted exactly when not locked and the credentials are valid. |
| Auth.FailuresCountUp | src/auth/auth.service.ts:92-121 | Up to five failures within the window count up from the first one, which keeps its time. |
| Auth.FiveFailuresLock | src/auth/auth.service.ts:92-121 | After five failures within 15 minutes, the identifier is locked for 10 minutes, and any further login in that time is throttled, even with the right password. |
| Auth.ExpiredLockRestartsCount | src/auth/auth.service.ts:76-121 | A failure after an expired lock starts a fresh count of 1. |
| Auth.SendGate | src/auth/auth.service.ts:129-150 | A send outside the 10-minute window restarts the count at 1. Inside the window, a send is refused once the count reaches 3, with the counter unchanged, and otherwise the count grows by one. |
| Auth.AtMostThreeSendsPerWindow | src/auth/auth.service.ts:129-150 | Within one 10-minute window, at most three sends are allowed, whatever their number. |
| Auth.VerifyStep | src/auth/auth.service.ts:195-237 | The outcome is missing exactly without a record, and expired exactly past the expiry. It is verified exactly on the right code in time. A wrong code in time is Invalid exactly when the incremented attempts stay under 5, and then the attempts are incremented; otherwise it is AttemptsExceeded. Any outcome other than Invalid deletes the record. |
| Auth.Verdicts | src/auth/auth.service.ts:195-237 | There is one verdict per attempt. |
| Auth.NoCodeAllMissing | src/auth/auth.service.ts:197-200 | Without a stored code, every attempt is answered "missing". |
| Auth.OtpSingleUse | src/auth/auth.service.ts:216-217 | After a successful verification, every later attempt is answered "missing", so a code is single-use. |
| Auth.AtMostFiveGuesses | src/auth/auth.service.ts:207-213 | Once a code's five attempts are used up, every later attempt is answered "missing", whatever the code. |
| Auth.WrongCodesClearTheCode | src/auth/auth.service.ts:207-213 | Wrong codes sent in time up to the limit of five attempts are each answered "invalid", except the last, which is answered "attempts exceeded". |
| Auth.AuthState.AssertLoginAttemptAllowed | src/auth/auth.service.ts:76-90 | A locked identifier is refused with 429 and its record is kept. Otherwise the record becomes `AfterGate`'s. The other dictionaries are unchanged. |
| Auth.AuthState.RegisterLoginFailure | src/auth/auth.service.ts:92-121 | The identifier's record becomes `AfterFailure` of the old one. |
| Auth.AuthState.ClearLoginFailures | src/auth/auth.service.ts:123-127 | Only the identifier's login record is deleted. |
| Auth.AuthState.AssertOtpSendAllowed | src/auth/auth.service.ts:129-150 | The mobile's send counter becomes `SendGate`'s. A refusal is a 429 with the counter unchanged. |
| Auth.AuthState.Login | src/auth/auth.service.ts:152-164 | The identifier is the normalised email. A locked identifier gets 429 and the users are unchanged. Invalid credentials raise Unauthorized with the users unchanged. Valid ones return the auth result for the validated user, after a legacy plaintext password is migrated to its hash, and the store holds exactly that user in its place. The login record moves as `LoginAttempt` says: it is cleared on success and registers a failure otherwise. |
| Auth.AuthState.SendOtp | src/auth/auth.service.ts:166-193 | It uses the corrected lookup `FindOneByMobile` (see Findings). After the send gate, an unknown mobile raises Unauthorized. A known one stores the code with an expiry of now plus 5 minutes and no attempts, and a failed SMS deletes the code again. |
| Auth.AuthState.VerifyOtp | src/auth/auth.service.ts:195-237 | It uses the corrected lookup `FindOneByMobile` (see Findings). The OTP store changes as `VerifyStep` says, each verdict maps to its error, and success returns the token for the user with that mobile. |
| Groups.FindAll | src/groups/groups.service.ts:50-56 | The result is exactly the groups that the user created or is a member of. |
| Groups.CreatedGroupListed | src/groups/groups.service.ts:50-107 | A group that the user creates appears last in that user's list. |
| Groups.CreatedMembers | src/groups/groups.service.ts:67-84 | The members have no duplicates and include the creator, every given id and every invited id, and nothing else. |
| Groups.MergeMembers | src/groups/groups.service.ts:67-84 | The loop with its `includes` tests builds a list that contains the creator and whose set is `CreatedMembers`. |
| Groups.Create | src/groups/groups.service.ts:58-107 | A blank name is refused before any write. Otherwise invitees are provisioned, and the first missing member is refused with NotFound. Else the group, with the trimmed name and the caller as creator, is appended. Expenses and settlements are untouched. |
| Groups.UpdatedMembers | src/groups/groups.service.ts:142-150 | The new members are the old plus the added ones, with the creator re-added and duplicates and empty ids dropped. No existing member is ever removed. |
| Groups.UpdateOutcomeSpec | src/groups/groups.service.ts:126-156 | A missing group gives NotFound, a non-creator Forbidden, and a blank name an error. A success keeps the id, creator and creation time, trims the name and holds only existing members. |
| Groups.CheckUpdate | src/groups/groups.service.ts:126-156 | The checks run in the source's order and give `UpdateOutcome`. |
| Groups.Update | src/groups/groups.service.ts:109-170 | Invitees are provisioned before the checks. An error leaves the groups unchanged, and a success rewrites only the rows with that id. |
| Groups.CascadeSplitsExpenses | src/groups/groups.service.ts:181-190 | The deleted and the remaining expenses partition the table, and no remaining expense is in the group. |
| Groups.Remove | src/groups/groups.service.ts:172-203 | NotFound and Forbidden come before any deletion. On success, `deletedExpensesCount` is the number of the group's expenses, and the group and its expenses are removed. |
| Balance.DetailAmount | src/expenses/expenses.service.ts:209-210 | The user's amount is that of the first detail for them, or 0 without one. |
| Balance.ComputeShareForUser | src/expenses/expenses.service.ts:203-211 | EQUAL gives 0 without participants or when the user is not one, and otherwise `amount / count`. UNEQUAL gives the user's detail amount, or 0. |
| Balance.ExpenseImpact | src/expenses/expenses.service.ts:213-237 | The payer's `totalSpent` grows by the amount and `youOwe` is untouched. Under EQUAL, `owesYou` grows by the other participants' shares, or by the whole amount when the payer is outside the split. Under UNEQUAL, it grows by the others' detail amounts. A participant who is not the payer only gains their share in `youOwe`. An uninvolved user is unchanged. |
| Balance.SettlementImpact | src/expenses/expenses.service.ts:239-246 | A settlement lowers `youOwe` only for its source and `owesYou` only for its destination, never below 0, and never touches `totalSpent`. |
| Balance.BalanceState.ApplyExpense | src/expenses/expenses.service.ts:213-237 | The state grows by `ExpenseImpact`. |
| Balance.BalanceState.ApplySettlement | src/expenses/expenses.service.ts:239-246 | The state becomes `SettlementImpact` of the old state. |
| Balance.Conservation | src/expenses/expenses.service.ts:213-237 | For a normalised expense, what the payer is owed equals the sum of the other participants' shares. |
| Balance.EqualSharesSumToAmount | src/expenses/expenses.service.ts:203-207 | Under EQUAL, the participants' shares add up to the amount. |
| Balance.SettlementsFloorAtZero | src/expenses/expenses.service.ts:239-246 | Applying settlements with non-negative amounts, one by one, equals subtracting the user's total paid out from `youOwe` and total received from `owesYou` at once, each floored at 0. `totalSpent` is unchanged. |
| Normalize.Merge | src/expenses/expenses.service.ts:253-258 | Without an existing expense the payload is used as is. Otherwise, for every field (title, amount, date, category, receipt URL, group, split type, payer, participants and split details), a value given in the payload wins and an absent one comes from the stored expense; stored split details come back as one entry per detail with the same user and amount. The invitees always come from the payload. |
| Normalize.PayerId | src/expenses/expenses.service.ts:259 | The payer is the trimmed given payer, or the creator when that is blank. |
| Normalize.FirstBad | src/expenses/expenses.service.ts:334-347 | It gives the first detail entry that is blank, repeated or outside the split, and None exactly when every entry is good. |
| Normalize.NoneBadIffWellFormed | src/expenses/expenses.service.ts:334-347 | The detail entries pass the loop exactly when the trimmed ids are non-blank, distinct and in the split. |
| Normalize.Aligned | src/expenses/expenses.service.ts:354-357 | There is one detail per participant, in `splitBetween` order, carrying that participant's amount. |
| Normalize.UnequalDetails | src/expenses/expenses.service.ts:326-362 | Missing or empty details are refused. Accepted details are the aligned ones, and their sum is within 0.01 of the amount. |
| Normalize.UnequalDetailsAccepted | src/expenses/expenses.service.ts:326-362 | Non-empty details are accepted exactly when the entries are well formed, every participant is covered and the sum is within 0.01. |
| Normalize.UnequalDetailsMissing | src/expenses/expenses.service.ts:349-352 | Well-formed details that leave a participant uncovered are refused with "Missing splitDetails for users: ", followed by the uncovered participants in split order, joined by commas. |
| Normalize.PermutedSum | src/expenses/expenses.service.ts:354-361 | For entries (id and amount) that name each participant exactly once, listing each participant's amount in split order gives the same sum as the entries. |
| Normalize.AlignedSumsEntries | src/expenses/expenses.service.ts:354-361 | For well-formed details that cover every participant, the sum of the stored details equals the sum of the amounts as sent. |
| Normalize.FillDetailMap | src/expenses/expenses.service.ts:334-347 | The loop reports the first bad entry's error. Without one, the map holds exactly the trimmed ids, each with its entry's amount. |
| Normalize.ValidateUnequalDetails | src/expenses/expenses.service.ts:326-362 | The loops compute `UnequalDetails`. |
| Normalize.GroupCheck | src/expenses/expenses.service.ts:280-296 | Without a group, nothing is checked. A missing group gives NotFound. Otherwise the creator, the payer and every participant must be members, with an error for each in the source's order. |
| Normalize.FieldsError | src/expenses/expenses.service.ts:298-324 | There is no error exactly when every participant and the payer exist, the amount is positive and finite, the trimmed title and category are non-blank and the date parses. |
| Normalize.SplitDetails | src/expenses/expenses.service.ts:326-362 | EQUAL stores no details, and UNEQUAL gives `UnequalDetails`. |
| Normalize.Normalized | src/expenses/expenses.service.ts:248-376 | An accepted payload's `splitBetween` is the duplicate-free union of the given and invited ids, and its payer is `PayerId`. |
| Normalize.NormalizedAccepts | src/expenses/expenses.service.ts:280-362 | A payload is accepted exactly when the group check, the field checks and the split details all pass. |
| Normalize.NormalizedUsersExist | src/expenses/expenses.service.ts:298-307 | In an accepted expense, the payer and every participant exist. |
| Normalize.NormalizedFields | src/expenses/expenses.service.ts:309-324 | An accepted expense has a positive amount, a trimmed non-blank title and category, and a parsed date. |
| Normalize.NormalizedGroupMembers | src/expenses/expenses.service.ts:280-296 | In an accepted group expense, the payer and every participant are members of the group. |
| Normalize.NormalizedSplitShape | src/expenses/expenses.service.ts:326-375 | An accepted expense is normalised: EQUAL has no details, and UNEQUAL has one detail per participant, in order, summing to within 0.01 of the amount. |
| Normalize.CheckExpense | src/expenses/expenses.service.ts:280-375 | The imperative checks compute `Normalized`. |
| Normalize.NormalizeExpensePayload | src/expenses/expenses.service.ts:248-376 | An empty split is refused before any invite. Otherwise invitees are provisioned, and the result is `Normalized` over the new users. |
| Ledger.FindExpense | src/expenses/expenses.service.ts:113-119 | The row found has the id, and None exactly when no row has it. |
| Ledger.PayerCheck | src/expenses/expenses.service.ts:398-405 | A missing expense gives NotFound, and another payer Forbidden. It passes exactly when the expense's payer is the caller. |
| Ledger.CreateExpense | src/expenses/expenses.service.ts:378-396 | A refused payload leaves the expenses unchanged. An accepted one is appended with the fresh id, and groups and settlements are untouched. |
| Ledger.AcceptedExpenseBalances | src/expenses/expenses.service.ts:213-237 | A stored expense is normalised, and what its payer is owed equals the other participants' shares. |
| Ledger.UpdateExpense | src/expenses/expenses.service.ts:398-421 | NotFound and Forbidden come before any write. Otherwise the stored expense merged with the payload is normalised, and a success replaces only the rows with that id. |
| Ledger.RemoveExpense | src/expenses/expenses.service.ts:423-439 | NotFound and Forbidden come before any deletion. A success returns the id and deletes exactly the rows with that id. |
| Ledger.RemovedExpenseGone | src/expenses/expenses.service.ts:423-439 | After the deletion no row has the id, and every other row remains. |
| Ledger.SettlementCheckSpec | src/expenses/expenses.service.ts:490-514 | Equal parties, a missing party, a missing group, a non-member creator, non-member parties, and a personal settlement whose creator is not a party are refused, each with its message. The check passes exactly when the settlement is allowed. |
| Ledger.CheckSettlement | src/expenses/expenses.service.ts:490-514 | The checks run in the source's order and give `SettlementCheck`. |
| Ledger.NewSettlement | src/expenses/expenses.service.ts:516-527 | The parties and the amount are stored as given. `settledAt` defaults to now when absent or empty. A truthy group id is kept and a falsy one dropped. The note is the trimmed note, dropped when blank. `createdAt` is now, and the creator and id are the ones passed in. |
| Ledger.CreateSettlement | src/expenses/expenses.service.ts:490-536 | A refused settlement leaves the table unchanged. An allowed one is appended, and groups and expenses are untouched. |
| Ledger.AcceptedSettlementOneWay | src/expenses/expenses.service.ts:239-246 | An accepted settlement lowers the payer's `youOwe` and the receiver's `owesYou` by its amount, floored at 0, and leaves the payer's `owesYou` and the receiver's `youOwe` unchanged. |
| Analytics.IsWithinRange | src/expenses/expenses.service.ts:196-201 | ALL accepts every date. 30D and 90D accept exactly the dates at most 30 or 90 days before now. |
| Analytics.WindowsNest | src/expenses/expenses.service.ts:196-201 | The 30-day window lies inside the 90-day window, which lies inside ALL. |
| Analytics.GroupsById | src/expenses/expenses.service.ts:567-571 | Every group id has an entry, and each entry is a group with that id. |
| Analytics.GroupsByIdLast | src/expenses/expenses.service.ts:567-571 | The last group with an id is the one indexed. |
| Analytics.IndexGroups | src/expenses/expenses.service.ts:567-571 | The loop builds `GroupsById`. |
| Analytics.GroupFilterCheck | src/expenses/expenses.service.ts:573-581 | Without a filter it passes. A missing group gives NotFound and a non-member Forbidden. |
| Analytics.UniqueByKey | src/expenses/expenses.service.ts:104-110 | Keying by id keeps one row per id: the ids are those of the input, without duplicates, in first-seen order. |
| Analytics.CollectByKey | src/expenses/expenses.service.ts:104-110 | The `Map` loop computes `UniqueByKey`. |
| Analytics.ExpensesForUserInvolve | src/expenses/expenses.service.ts:94-111 | Every listed expense involves the user, and every expense that involves the user is listed by its id. |
| Analytics.BucketsHoldTotals | src/expenses/expenses.service.ts:604-617 | A bucket exists exactly when some expense carries its key, and it holds the total of those expenses' amounts. |
| Analytics.TotalSpentIsPaid | src/expenses/expenses.service.ts:604-617 | `totalSpent` is the total of the amounts that the user paid. |
| Analytics.FlowsNet | src/expenses/expenses.service.ts:619-638 | `paid` is what the user paid out, `received` is what they were paid, and `net == received - paid`. |
| Analytics.AnalyticsSummary | src/expenses/expenses.service.ts:552-641 | The summary is refused exactly when the group filter fails. |
| Analytics.SummaryCounts | src/expenses/expenses.service.ts:583-602 | The counted expenses involve the user, are in the filtered group, have a date and lie in the window, and `transactionCount` is their number. |
| Analytics.SummaryCategoryTotals | src/expenses/expenses.service.ts:607-609 | Each category bucket, with `Others` for a blank category, holds the total of the counted expenses in it. |
| Analytics.SummaryGroupTotals | src/expenses/expenses.service.ts:610-612 | Each group bucket (`Personal`, the group name or `Unnamed Group`) holds the total of its counted expenses. |
| Analytics.SummaryDateTotals | src/expenses/expenses.service.ts:613-616 | Each day and month bucket holds the total of its counted expenses, and no bucket has an invalid key. |
| Analytics.SummaryBalance | src/expenses/expenses.service.ts:604-638 | `totalSpent` is what the user paid for the counted expenses, and the settlement totals satisfy `net == received - paid`. |
| Analytics.SettleAllKeepsSpent | src/expenses/expenses.service.ts:619-638 | Settlements never change `totalSpent`. |
| Analytics.AccumulateExpenses | src/expenses/expenses.service.ts:604-617 | The `forEach` loop adds `BalanceOf` to the state and fills the four buckets. |
| Analytics.AccumulateSettlements | src/expenses/expenses.service.ts:619-638 | The loop applies every settlement to the state and computes the flows. |
| Analytics.GetAnalyticsSummary | src/expenses/expenses.service.ts:552-641 | The imperative computation yields `AnalyticsSummary`. |

## Left out

- Storage I/O: the REST store and the JSON file database become the class `Tables` and the class `UserStore`. The row mappers and `assertSupabaseOk` are not modelled.
- `Promise.all` reads are modelled in sequence.
- Receipt upload (`maybeUploadReceiptForSupabase`, src/expenses/expenses.service.ts:168-194) is a foreign storage call. The receipt URL is kept as normalised: trimmed, and absent when blank.
- Push notifications (src/expenses/expenses.service.ts:441-473) are a fire-and-forget foreign call.
- The JWT signer is a function parameter, and bcrypt is an opaque hash function and compare function.
- SMS delivery is a boolean parameter, and `Date.now()`, `randomUUID` and `randomInt` are parameters.
- Floating point: amounts are `real`. A non-finite or non-numeric amount is an absent amount. `Number(x) || 0` coercion and rounding are not modelled.
- Dates: a date is either absent, unparseable or a parsed instant with its local year, month and day. JavaScript's parsing and time zones are not modelled. Day and month keys are datatypes, not formatted strings, and `NoDay` and `NoMonth` stand for the `NaN` keys.
- A payload without a `splitType` is stored as UNEQUAL, because every consumer in the source tests only for `EQUAL`.
- `findByUserId`, `findByGroupId`, `findSettlements` and `findAll` of the expenses service are modelled only as their list functions (`ExpensesForUser`, `SettlementsForUser` and the group filter). Their group checks are the ones of `GroupFilterCheck`.
- The settlement amount is not checked by the service (only by a DTO decorator), so the model does not check it either.
- `Groups.Update`: the store's row for the group is rewritten, but the model does not state the patch's `updated_at` time.
- Concurrency: the database's write queue is modelled as sequential execution.
- Common.ToLower: only the ASCII capitals A-Z are lowered. JavaScript's `toLowerCase` also lowers non-ASCII letters, so emails that differ only in such letters (`É` and `é`) are different keys in the model. Full Unicode case mapping is out of scope.
- Users.UserStore.Create: models the corrected duplicate-email test `EmailTaken`, not the source as written. A registration without an email, while the store holds a user without one, is accepted here and refused in the source (see Findings).
- Auth.AuthState.SendOtp: models the corrected `FindOneByMobile`. A mobile without digits, such as `abc`, is refused as unknown here, while the source goes ahead with the first user without a mobile (see Findings).
- Auth.AuthState.VerifyOtp: models the corrected `FindOneByMobile`, as `SendOtp` does. A verified code for a mobile without digits gives Unauthorized here, while the source logs in the first user without a mobile.
- Analytics.GroupFilterCheck: `groupsById` is a plain object in the source, and the model makes it a map. A group filter that names an inherited property such as `constructor` or `toString` finds a function in the source, which then fails with a TypeError (a 500). The model answers NotFound. `Analytics.GroupsById`, `Analytics.IndexGroups` and `Analytics.GetAnalyticsSummary` share this difference.
- Users.FindByQuery: the source's `User` has an index signature (`[key: string]: string | undefined`, src/users/users.service.ts:31), and `GET /users` passes the raw query through. The model's `User` and `Query` hold only the eight declared fields, so a query on any other key (such as `role=admin`, which in the source returns only users stored with that key) cannot be expressed. `Users.UserStore.Create` likewise drops the extra body fields that the source keeps through `...user` (src/users/users.service.ts:174-181).
- Auth.AuthState: the three dictionaries are plain objects in the source, and the model makes them maps. For an identifier or mobile that names an inherited property (`constructor`, `toString`), the source reads a function where the model reads no record.

## Findings

| source | as written | input that shows it | evidently intended | confidence | as-written member | corrected member |
|---|---|---|---|---|---|---|
| src/users/users.service.ts:43-47 | `findOneByMobile` compares the lookup keys with `===`, and a mobile without digits has no key (`undefined`). | The mobile `abc` finds the first user without a mobile, e.g. an invitee added without a phone number. `sendOtp` would then proceed for that user. | A mobile without a lookup key matches no user. | medium, not executed | Users.FindOneByMobileAsWritten, Users.DigitlessMobileFindsPhonelessUser | Users.FindOneByMobile, Users.FindOneByMobileAgrees |
| src/users/users.service.ts:166-172 | The duplicate-email test compares `entry.email?.trim().toLowerCase()` with the normalised email even when no email was given. | A registration without an email, while the store holds an invitee without one, is refused with "User with this email already exists". | The duplicate test applies only when an email is given. | medium, not executed | Users.EmailTakenAsWritten, Users.MissingEmailCollidesAsWritten | Users.EmailTaken |
