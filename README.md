# BYAMN Workhub core, modelled in Dafny

BYAMN Workhub is a micro-task marketplace. Creators fund campaigns from a
wallet. Workers apply to campaigns, submit proof of the work, and are paid
into their earned balance when an admin approves that work. Users can ask an
admin to add money to their wallet or to withdraw earnings.

This project models the parts of the web client that hold the rules:

- `src/lib/data-cache.ts`:
  - the in-memory `DataCache`, with its expiry, eviction and pending-request bookkeeping;
  - the authorization check;
  - the guarded read-modify-write workflows on wallets, campaigns, works and money requests;
  - the cache-through read path and cache invalidation;
  - the leaderboard.
- `src/lib/validation.ts`: the record and form validators.
- `src/lib/utils.ts`: the profile validators and sanitiser.
- `src/pages/CampaignDetail.tsx`: the helpers of the campaign detail page.

The modules follow those files:

- `Cache` holds the `DataCache` class. Its `entries` map, its insertion `order` and its `pending` map are updated in place.
- `CacheClient` holds the cache keys, the cache-through read path and invalidation.
- `Auth` holds `verifyUserAuthorization` and the optional-actor gate in front of every workflow.
- `Ledger` holds the pure update callbacks the workflows hand to the database's atomic transaction, and their properties.
- `Store` holds the database as a `Database` class with one map per collection. Each workflow is a method that states its new collections and its new cache entries and insertion order on every path, and an unchanged state on failure.
- `Leaderboard` holds `fetchTimeBasedLeaderboard`'s ranking.
- `Validation` holds `validation.ts`.
- `Utils` holds `utils.ts`.
- `CampaignDetail` holds the page helpers.
- `Json`, `Text`, `Entities` and `Wrappers` are shared support:
  - `Json`: JavaScript values and their truthiness.
  - `Text`: `String.prototype.trim`, `startsWith` and `includes`.
  - `Entities`: the records.
  - `Wrappers`: `Option` and `Result`.

A database transaction that the server does not commit is modelled by a
`conflict` flag passed in by the caller. Clock readings are a `now`
parameter. Functions that live outside the modelled files are function-typed
parameters: the URL check, the image-URL heuristic and `sanitizeInput`.

## Model

| member | source | states |
|---|---|---|
| Cache.DataCache.constructor | src/lib/data-cache.ts:33-36 | a new cache holds no entries, no insertion order and no pending requests |
| Cache.DataCache.Get | src/lib/data-cache.ts:39-54 | returns the data iff the key is present and not past its expiry; an expired entry is removed from both the map and the order, otherwise nothing changes |
| Cache.DataCache.IsExpired | src/lib/data-cache.ts:145-155 | expired iff the key is missing or `now` is past its expiry: a missing key and a present entry past its expiry read as expired, a present entry within its expiry reads as fresh |
| Cache.DataCache.ExpiryIsFinal | src/lib/data-cache.ts:145-155 | once a key reads as expired it stays expired at every later time while the cache is unchanged |
| Cache.DataCache.Set | src/lib/data-cache.ts:57-81 | evicts the oldest entry (first minimum timestamp) when the cache holds 100, then stores the data with timestamp `now` and expiry `now + 300000`; a key still present after the eviction keeps its place in the insertion order, otherwise it goes to the end (an evicted re-set key included); the bound of 100 entries is kept; the key just set reads as fresh at every time up to `now + 300000` and expired one millisecond later |
| Cache.DataCache.EvictIfFull | src/lib/data-cache.ts:60-75 | after eviction the cache holds fewer than 100 entries, and exactly the entry with the earliest timestamp is gone |
| Cache.DataCache.OldestKey | src/lib/data-cache.ts:61-71 | none iff the cache is empty; otherwise the first key in insertion order with the least timestamp |
| Cache.DataCache.Insert | src/lib/data-cache.ts:77-81 | stores the entry and records the key once, at the end of the order |
| Cache.FirstMinIndex | src/lib/data-cache.ts:61-71 | the chosen index has the least timestamp, and every earlier index has a strictly greater one, as the strict `<` scan gives |
| Cache.FirstMinStep | src/lib/data-cache.ts:61-71 | one more key in the scan becomes the choice only when its timestamp is strictly smaller than the best so far |
| Cache.DataCache.Clear | src/lib/data-cache.ts:88-94 | removes exactly that key from the entries and from the order |
| Cache.DataCache.ClearAll | src/lib/data-cache.ts:97-104 | entries, order and pending requests are all empty afterwards |
| Cache.DataCache.GetPending | src/lib/data-cache.ts:117-124 | a pending request is returned iff the key is being fetched |
| Cache.DataCache.SetPending | src/lib/data-cache.ts:127-133 | records the request under the key and changes no other key |
| Cache.DataCache.ClearPending | src/lib/data-cache.ts:136-142 | drops only that key's pending request |
| Cache.DataCache.GetOrCreatePendingRequest | src/lib/data-cache.ts:158-183 | creates a request iff none is pending for the key; otherwise the existing one is returned and the pending map is unchanged |
| Cache.DataCache.GetCacheKeys | src/lib/data-cache.ts:186-193 | lists each cached key exactly once, and nothing else |
| Cache.WithoutFacts | src/lib/data-cache.ts:88-94 | removing a key from the order keeps every other key, keeps the order duplicate-free and shortens it by one when the key was there |
| Cache.AsWrittenSetOverflows | src/lib/data-cache.ts:72-74 | as written, a full cache whose oldest key is `""` evicts nothing and grows to 101 entries |
| CacheClient.FetchThrough | src/lib/data-cache.ts:795-804 | a cache hit iff the entry is present, unexpired and truthy; otherwise the caller joins the pending request if there is one, or starts a new one; an expired entry is dropped from the map and the order, and otherwise the entries and order are unchanged |
| CacheClient.FetchForUser | src/lib/data-cache.ts:789-800 | the per-user reads fail with "Invalid user ID provided" iff the id is empty, changing nothing; otherwise, under the key of that user's record, wallet, transactions or works: a live truthy entry is returned with its data and `pending` unchanged, a fetch in flight is joined with its token, or the new fetch is recorded as pending; an expired entry is dropped from the entries and the order, and otherwise both are unchanged |
| CacheClient.SettleFetch | src/lib/data-cache.ts:805-818 | a truthy fetched value is cached under the key with a fresh expiry and the key goes to the end of the insertion order after any eviction; anything else leaves the entries and the order alone and yields the fallback; the pending request is cleared either way |
| CacheClient.TwoReadersOneFetch | src/lib/data-cache.ts:158-183 | two reads of a missing key issue one request: the second reader joins the first reader's request |
| CacheClient.KeepUnmatched | src/lib/data-cache.ts:992-999 | keeps exactly the keys that do not contain the pattern, without duplicates |
| CacheClient.InvalidateStepClears | src/lib/data-cache.ts:994-997 | clearing a matching key in the loop takes exactly that key out of the insertion order |
| CacheClient.InvalidateStepKeeps | src/lib/data-cache.ts:994-997 | a key that does not match stays where it is in the insertion order |
| CacheClient.InvalidateCache | src/lib/data-cache.ts:992-999 | every cached key containing the pattern is cleared; the other entries and their order are kept |
| CacheClient.SurvivorsAreUnmatched | src/lib/data-cache.ts:992-999 | the entries left after the key loop are exactly the unmatched part of the original map |
| CacheClient.InvalidateUserCache | src/lib/data-cache.ts:1002-1007 | the four user patterns (`user:`, `wallet:`, `transactions:`, `works:` plus the id) are invalidated in turn; the remaining keys keep their insertion order |
| CacheClient.ClearUserCache | src/lib/data-cache.ts:1010-1015 | exactly the four user keys are removed from the entries and from the insertion order, the other keys keeping their order |
| CacheClient.InvalidationRemovesKey | src/lib/data-cache.ts:992-999 | invalidating with a key as pattern always removes that key |
| CacheClient.EmptyPatternClearsAll | src/lib/data-cache.ts:992-999 | the empty pattern matches every key, so it clears the whole cache |
| Auth.VerifyUserAuthorization | src/lib/data-cache.ts:200-226 | admin mode passes iff the actor is an unblocked admin; otherwise it passes iff the actor is the target or an unblocked admin |
| Auth.Permits | src/lib/data-cache.ts:235-237 | an absent actor id skips the check; a present one must pass `verifyUserAuthorization` |
| Auth.AdminPassesSelfService | src/lib/data-cache.ts:200-226 | whoever passes the admin check also passes the self-service check |
| Auth.SelfAccessIsNotAdmin | src/lib/data-cache.ts:200-226 | an ordinary user may act on their own data but fails the admin check |
| Auth.BlockedAdminRefused | src/lib/data-cache.ts:206-223 | a blocked user is refused admin rights and access to others' data |
| Ledger.CurrentBalance | src/lib/data-cache.ts:244-249 | a missing wallet reads as four zero balances |
| Ledger.MergeCallback | src/lib/data-cache.ts:243-259 | aborts iff the update function declines; otherwise every field is the patch's value where given and the current value elsewhere |
| Ledger.ApplyPatch | src/lib/data-cache.ts:258 | each field of the result is the patch's field if present, else the wallet's |
| Ledger.PatchIdempotent | src/lib/data-cache.ts:258 | applying the same patch twice equals applying it once |
| Ledger.EmptyPatchIsIdentity | src/lib/data-cache.ts:258 | an empty patch leaves the wallet as it is |
| Ledger.PatchCanGoNegative | src/lib/data-cache.ts:243-259 | the merge does not clamp: a patch can leave a negative balance |
| Ledger.AdjustBalance | src/lib/data-cache.ts:305-324 | each field is the old value plus the delta where one is given, floored at zero, so the result is never negative |
| Ledger.AdjustCallback | src/lib/data-cache.ts:297-327 | the callback always commits, and it commits the floored sum over the current or zero wallet |
| Ledger.AdjustByNothing | src/lib/data-cache.ts:297-327 | an empty delta leaves a non-negative wallet unchanged |
| Ledger.AdjustRepairsNegative | src/lib/data-cache.ts:320-323 | an already negative balance is reset to zero even by an empty delta |
| Ledger.AdjustFloorsOverdraft | src/lib/data-cache.ts:320-323 | debiting more than the added balance leaves it at zero, not below |
| Ledger.AdjustEarnedExample | src/lib/data-cache.ts:297-327 | crediting 50 earned to a 100-earned wallet gives 150 and leaves the other fields alone |
| Ledger.DebitCampaign | src/lib/data-cache.ts:367-380 | commits iff the campaign exists and its remaining budget covers the amount, and then only the remaining budget drops, staying non-negative |
| Ledger.GuardedDebitCampaign | src/lib/data-cache.ts:367-380 | the campaign debit with a sign check: commits iff the amount is non-negative and the as-written debit commits, then with the same result, and keeps a campaign's counters in range |
| Ledger.NegativeDebitOverfills | src/lib/data-cache.ts:371-379 | as written, a debit of -1 against a fully funded campaign commits and leaves more remaining budget than the total; the guarded debit refuses it |
| Ledger.DebitWallet | src/lib/data-cache.ts:384-402 | commits iff the added balance covers the amount, and then only that balance drops, staying non-negative |
| Ledger.RestoreBudget | src/lib/data-cache.ts:411 | the rollback adds the amount back to the committed remaining budget |
| Ledger.RollbackRestoresCampaign | src/lib/data-cache.ts:367-411 | a debit followed by the rollback gives back the original campaign |
| Ledger.DebitWalletKeepsNonNegative | src/lib/data-cache.ts:384-402 | a committed debit keeps every balance non-negative and touches only the added balance |
| Ledger.DeductExample | src/lib/data-cache.ts:367-402 | 500 from a 1000 budget leaves 500; 500 from an 800 added balance leaves 300 |
| Ledger.DebitsNeverOverdraw | src/lib/data-cache.ts:367-380 | any run of budget debits lowers the budget by exactly the accepted amounts, never below zero, and changes nothing else |
| Ledger.ExactlyOneOfTwo | src/lib/data-cache.ts:367-380 | of two equal debits that the budget covers once, exactly one commits |
| Ledger.ApproveWork | src/lib/data-cache.ts:453-462 | commits iff the work exists and is pending, and then only its status becomes approved |
| Ledger.ApprovalRollbackRestoresWork | src/lib/data-cache.ts:453-498 | resetting the status to pending after an approval gives back the original work |
| Ledger.ApproveOnce | src/lib/data-cache.ts:453-462 | a work that was approved cannot be approved again |
| Ledger.CreditEarned | src/lib/data-cache.ts:466-479 | always commits, raises the earned balance by the reward and leaves the other fields alone |
| Ledger.CreditProfile | src/lib/data-cache.ts:483-490 | raises earned money by the reward and the approved-work count by one, and nothing else |
| Ledger.ReleaseSlot | src/lib/data-cache.ts:769-773 | lowers the completed-worker count by one only when it is positive, and changes nothing else |
| Ledger.TakeSlot | src/lib/data-cache.ts:673-675 | one more completed worker and no other change |
| Ledger.ApplyThenRejectRestoresSlots | src/lib/data-cache.ts:676-773 | applying and then rejecting restores the completed-worker count |
| Ledger.TakeSlotKeepsSane | src/lib/data-cache.ts:673-675 | taking a free slot keeps completed workers within the total and the budget in range |
| Ledger.ReleaseSlotKeepsSane | src/lib/data-cache.ts:766-774 | releasing a slot keeps completed workers between zero and the total |
| Ledger.AddMoneyCredit | src/lib/data-cache.ts:547-559 | always commits, adds the amount to the added balance, lowers the pending add-money amount floored at zero, and leaves earned and withdrawn alone |
| Ledger.WithdrawEarned | src/lib/data-cache.ts:572-589 | commits iff the earned balance covers the amount, moving the amount from earned to total withdrawn |
| Ledger.WithdrawalConservesEarnings | src/lib/data-cache.ts:572-589 | earned plus withdrawn is the same before and after a withdrawal |
| Ledger.RequestsKeepNonNegative | src/lib/data-cache.ts:547-589 | from a non-negative wallet, add-money and a committed withdrawal leave every balance non-negative |
| Ledger.RecordWithdrawal | src/lib/data-cache.ts:593-599 | raises the profile's total withdrawn by the amount and nothing else |
| Store.Database.constructor | src/lib/data-cache.ts:197 | the database and its cache start empty |
| Store.Database.UpdateWalletBalance | src/lib/data-cache.ts:229-273 | refused iff the actor gate fails; otherwise the merged wallet is written and cached iff the callback and the transaction commit, the wallet key going to the end of the insertion order after any eviction; on any other outcome nothing changes |
| Store.Database.CreateTransactionAndAdjustWallet | src/lib/data-cache.ts:276-337 | refused iff the actor gate fails; otherwise the transaction is appended to the user's list, and unless the wallet transaction conflicts the wallet becomes the floored sum (never negative) and is cached at the end of the insertion order |
| Store.Database.DeductCampaignBudget | src/lib/data-cache.ts:340-421 | refused with the code's messages for a failed gate, a missing campaign or a foreign campaign; true iff the amount is not negative and both debits commit, with both records debited and the two cache keys cleared from the entries and the order; on false, the campaign budget is rolled back and nothing changes; every campaign stays within its counters' ranges |
| Store.Database.DebitCampaignAndCreator | src/lib/data-cache.ts:367-411 | true iff the guarded campaign debit and then the wallet debit commit, with both records debited and the wallet and campaign-list keys cleared from the entries and the order; when the wallet debit fails after the campaign debit, the budget is restored and nothing has changed; campaigns in range stay in range |
| Store.Database.ApproveWorkAndCredit | src/lib/data-cache.ts:424-508 | refused for a failed admin gate or a missing or non-pending work; true iff neither transaction conflicts, with the work approved, the reward credited to wallet and profile and two cache keys cleared from the entries and the order; on false, the status is rolled back |
| Store.Database.ApprovePendingWork | src/lib/data-cache.ts:453-498 | true iff neither transaction conflicts, with the work approved, its worker credited and the wallet and works keys cleared in that order; otherwise the work is pending again and nothing has changed |
| Store.Database.CreditWorker | src/lib/data-cache.ts:466-494 | unless the wallet transaction conflicts, the earned balance rises by the reward, an existing profile's counters are raised, and the wallet and works keys are cleared from the entries and the order; otherwise nothing changes |
| Store.Database.UpdateProfile | src/lib/data-cache.ts:483-490 | a profile update is written only when the profile exists, and touches no other profile |
| Store.Database.ProcessMoneyRequest | src/lib/data-cache.ts:511-618 | refused for a failed admin gate or a missing or non-pending request; a rejection only records the status, leaving the cache as it was; an approval applies add-money or withdrawal and clears the wallet key from the entries and the order, or rolls the status back when the wallet step fails |
| Store.Database.MoveFunds | src/lib/data-cache.ts:544-608 | add-money commits iff no conflict; a withdrawal commits iff no conflict and the earned balance covers it, and then the profile's total withdrawn rises; on success only the wallet key is cleared from the entries and the order; on failure nothing changes |
| Store.Database.ApplyToCampaign | src/lib/data-cache.ts:621-687 | refused exactly when the actor is not the user, the user already applied, or the campaign is missing, inactive or full; otherwise a pending work is created, one slot is taken (never past the total) and three cache keys are cleared from the entries and the order; campaigns in range stay in range |
| Store.Database.EnrolWorker | src/lib/data-cache.ts:658-680 | a pending work with an empty proof is created, the campaign takes one slot without passing its total, and three cache keys are cleared from the entries and the order; campaigns in range stay in range |
| Store.ApplyRefusal | src/lib/data-cache.ts:629-656 | no refusal iff every apply check passes; the first failing check gives its message: not the user's own application, already applied, "Campaign does not exist", "Campaign is not active", "Campaign is full" |
| Store.Database.SubmitWorkForCampaign | src/lib/data-cache.ts:690-731 | refused for another actor, no application, or an already approved work; otherwise the proof is recorded, the work is pending again and two cache keys are cleared from the entries and the order |
| Store.Database.RejectWorkAndRestoreCampaignBudget | src/lib/data-cache.ts:734-786 | refused for a failed admin gate or a missing or non-pending work; otherwise the work is rejected, an existing campaign releases one slot, and three cache keys are cleared from the entries and the order; campaigns in range stay in range |
| Store.Database.RejectPendingWork | src/lib/data-cache.ts:760-779 | the work becomes rejected, an existing campaign releases a slot, and three cache keys are cleared from the entries and the order; campaigns in range stay in range |
| Store.Database.ReleaseCampaignSlot | src/lib/data-cache.ts:766-774 | an existing campaign with a positive count loses one completed worker; otherwise the campaigns are unchanged; campaigns in range stay in range |
| Leaderboard.ParseTimeframe | src/lib/data-cache.ts:1020-1022 | accepts exactly daily, weekly and monthly, with the code's error message otherwise |
| Leaderboard.ToStanding | src/lib/data-cache.ts:1069-1075 | keeps the uid; the display name is the profile's full name when truthy, else its name when truthy, else `User ` and the uid's first eight characters; the image is the profile image when truthy, else the avatar; both counters are the stored number or 0 |
| Leaderboard.CountOr0 | src/lib/data-cache.ts:1073-1074 | a numeric counter is taken as is; a missing one counts as 0 |
| Leaderboard.Prefix8 | src/lib/data-cache.ts:1071 | the first eight characters of the uid, or the whole uid when it is shorter |
| Leaderboard.RecordEntries | src/lib/data-cache.ts:1062-1068 | the object-valued entries, each as often as it occurs in the input and no other |
| Leaderboard.Standings | src/lib/data-cache.ts:1062-1075 | position by position the standing of the matching object-valued entry, so each record as often as it occurs; membership both ways |
| Leaderboard.Insert | src/lib/data-cache.ts:1078-1086 | inserting adds exactly one element |
| Leaderboard.InsertSorted | src/lib/data-cache.ts:1078-1086 | inserting into a list in leaderboard order keeps it in that order |
| Leaderboard.Sort | src/lib/data-cache.ts:1078-1086 | the result is ordered by approved works and then earned money, both descending, and is a permutation of the input |
| Leaderboard.Rank | src/lib/data-cache.ts:1087-1090 | the element at position i gets rank i + 1 |
| Leaderboard.ComputeLeaderboard | src/lib/data-cache.ts:1018-1090 | fails iff the timeframe is invalid; otherwise the ranks run 1, 2, 3 … over a sorted permutation of the users' standings |
| Leaderboard.EveryRecordIsRanked | src/lib/data-cache.ts:1062-1090 | every user record appears on the leaderboard |
| Leaderboard.MoreWorksRankHigher | src/lib/data-cache.ts:1078-1090 | on a computed leaderboard, a user with more approved works comes before, and has a smaller rank than, one with fewer |
| Validation.ValidateWalletData | src/lib/validation.ts:4-17 | valid iff all four balances are numbers that are not negative; a falsy value is invalid |
| Validation.ValidateCampaignData | src/lib/validation.ts:19-32 | valid iff the value is truthy and has a 1-100 character title, a 1-1000 character description, an alphanumeric creator id, more than 0 and at most 10000 workers (fractions included), a reward of 0.5-10000 and non-negative budgets and date |
| Validation.CampaignDataRewardPasses | src/lib/validation.ts:19-32 | a valid record's reward also passes `validateRewardPerWorker` |
| Validation.CampaignDataAllowsFractionalWorkers | src/lib/validation.ts:28 | a record with 2.5 workers is valid, although `validateNumberOfWorkers` rejects 2.5 |
| Validation.ValidateTransactionData | src/lib/validation.ts:34-45 | valid iff the type and status are known values, the amount is in (0, 100000] and the date is non-negative |
| Validation.TransactionDataWidensAmount | src/lib/validation.ts:34-45 | a record whose amount passes `validateAmount` for its type is valid when its other fields are; an unknown type is invalid in both |
| Validation.TransactionDataAcceptsSmallDeposit | src/lib/validation.ts:34-45 | an `add_money` record of 5 is valid, although `validateAmount` rejects 5 for `add_money` |
| Validation.ValidateText | src/lib/validation.ts:47-78 | valid iff the text is present, sanitising leaves it trimmed and its trimmed length is in range |
| Validation.ValidateCampaignTitle | src/lib/validation.ts:47-56 | a valid title trims to 3-100 characters; any other trimmed length is rejected |
| Validation.ValidateCampaignDescription | src/lib/validation.ts:58-67 | a valid description trims to 10-2000 characters; any other length is rejected |
| Validation.ValidateCampaignInstructions | src/lib/validation.ts:69-78 | valid instructions trim to 10-5000 characters; any other length is rejected |
| Validation.BlankTitleRejected | src/lib/validation.ts:47-56 | a title of white space only is refused, whatever the sanitiser returns |
| Validation.ValidateCampaignCategory | src/lib/validation.ts:80-83 | valid iff the category is one of the five known categories |
| Validation.ValidateNumberOfWorkers | src/lib/validation.ts:85-87 | valid iff the number is an integer from 1 to 10000 |
| Validation.ValidateRewardPerWorker | src/lib/validation.ts:89-91 | valid iff the reward is from 0.5 to 10000 |
| Validation.ValidateAmount | src/lib/validation.ts:93-107 | non-positive amounts fail; each type has its own range (add money 10-100000, withdrawal 500-50000, others up to 100000); unknown types fail |
| Validation.WithdrawalRangeWithinOthers | src/lib/validation.ts:93-107 | an amount valid for withdrawal is valid for every other type |
| Validation.ValidateUserAuthorization | src/lib/validation.ts:109-123 | valid iff both ids are non-empty strings, whatever the role flag |
| Validation.AuthorizationIgnoresRole | src/lib/validation.ts:109-123 | the admin flag does not change the outcome |
| Validation.ValidateWalletBalance | src/lib/validation.ts:125-131 | valid iff the required amount is non-negative and at most the balance |
| Validation.WalletBalanceAgreesWithDebit | src/lib/validation.ts:125-131 | on the added balance, valid iff the amount is non-negative and the wallet debit of `deductCampaignBudget` commits |
| Validation.ValidateWorkData | src/lib/validation.ts:133-145 | valid iff the status is known, the reward is in (0, 10000] and both ids are strings |
| Validation.RewardPerWorkerWithinWorkReward | src/lib/validation.ts:89-91 | every reward `validateRewardPerWorker` accepts is in the work reward range (0, 10000] |
| Validation.WorkDataAcceptsSmallReward | src/lib/validation.ts:133-145 | a work rewarded 0.25 is valid, although `validateRewardPerWorker` rejects 0.25 |
| Validation.ValidateMoneyRequestData | src/lib/validation.ts:147-163 | a valid request has a numeric amount and a string user id; unknown request types fail |
| Validation.MoneyRequestAgreesWithAmount | src/lib/validation.ts:147-163 | for a well-formed request, validity is exactly the amount check for its type |
| Validation.CreationChecks | src/lib/validation.ts:166-209 | one check per message, seven in all |
| Validation.FailingFacts | src/lib/validation.ts:166-209 | the collected errors are exactly the messages of the failing checks, in order |
| Validation.FailingMessageIff | src/lib/validation.ts:176-204 | with distinct messages, a check's message is reported iff that check fails |
| Validation.CreationMessagesDistinct | src/lib/validation.ts:178-204 | the seven messages are pairwise different |
| Validation.Collect | src/lib/validation.ts:176-204 | the pushes produce exactly the failing checks' messages in check order |
| Validation.ValidateCampaignCreation | src/lib/validation.ts:166-209 | valid iff all seven field checks pass; errors are the failing checks' messages in order, at most seven; each check's message is reported iff that check fails, so the category message appears iff the category is not one of the five |
| Utils.IsValidEmail | src/lib/utils.ts:37-40 | a valid address has an `@` that is not its first character |
| Utils.EmailHasForm | src/lib/utils.ts:37-40 | a valid address splits as a@b.c with non-empty parts free of spaces and `@` |
| Utils.EmailFormIsValid | src/lib/utils.ts:37-40 | every a@b.c with such parts is valid |
| Utils.IsValidName | src/lib/utils.ts:42-46 | a valid name consists of letters, white space, hyphens and apostrophes only and trims to 2-50 characters |
| Utils.NameCharsMakeValidName | src/lib/utils.ts:42-46 | conversely, such characters only and a trimmed length of 2-50 make a valid name |
| Utils.ForeignCharRejectsName | src/lib/utils.ts:44 | a digit, `<` or `.` anywhere rejects the name |
| Utils.TrimmedNameIsValid | src/lib/utils.ts:42-46 | trimming a valid name keeps it valid |
| Utils.IsValidBio | src/lib/utils.ts:48-51 | valid iff at most 200 characters and no `<` is followed anywhere later by `>` |
| Utils.HasTag | src/lib/utils.ts:50 | the tag pattern matches iff some `<` has a `>` after it |
| Utils.BioWithoutOpenBracket | src/lib/utils.ts:48-51 | a bio without `<` is valid iff it is short enough |
| Utils.NameIsAcceptableBio | src/lib/utils.ts:42-51 | a trimmed valid name is also a valid bio |
| Utils.PasswordScan | src/lib/utils.ts:105 | reports whether all characters are allowed, whether one is a letter and whether one is a digit |
| Utils.IsValidPassword | src/lib/utils.ts:103-107 | valid iff at least six characters, all from the allowed set, with at least one letter and one digit |
| Utils.SplitWs | src/lib/utils.ts:112 | always at least one piece, and no piece contains white space |
| Utils.SplitWsFirstIsPrefix | src/lib/utils.ts:112 | the first piece is a prefix of the input, free of white space |
| Utils.SplitWsSingle | src/lib/utils.ts:112 | a string splits into itself alone iff it contains no white space |
| Utils.SplitWsLastNonEmpty | src/lib/utils.ts:112 | splitting a string that does not end in white space gives a non-empty last piece |
| Utils.SplitWsInnerNonEmpty | src/lib/utils.ts:112 | pieces between the first and the last are never empty |
| Utils.IsValidFullName | src/lib/utils.ts:109-123 | accepts iff the trimmed name splits into at least two pieces of at least two characters and is a valid name |
| Utils.FullNameHasInnerSpace | src/lib/utils.ts:109-123 | an accepted full name has white space at least two characters from either end of its trimmed form |
| Utils.OneWordIsNotFullName | src/lib/utils.ts:109-123 | a single word is never a full name |
| Utils.IsValidSocialLink | src/lib/utils.ts:53-56 | an empty link is allowed; any other is valid iff it is a valid URL |
| Utils.IsValidProfileImage | src/lib/utils.ts:58-71 | an empty image URL is allowed; any other accepted one is a valid URL |
| Utils.LinkErrorsFacts | src/lib/utils.ts:88-95 | at most one error per platform, and none iff every platform's link is acceptable |
| Utils.LinkMessageInjective | src/lib/utils.ts:92 | different platforms give different link messages |
| Utils.LinkMessageIff | src/lib/utils.ts:88-95 | a platform's message is among the link errors iff the platform is listed and its link fails `isValidSocialLink` |
| Utils.PushLinkErrors | src/lib/utils.ts:88-95 | the loop appends exactly the link errors, one per failing platform in platform order, after the errors already collected |
| Utils.ProfileValidIff | src/lib/utils.ts:73-101 | at most eight errors, and none iff every present field and every platform link passes its check |
| Utils.ValidateUserProfile | src/lib/utils.ts:73-101 | the errors are the field errors followed by the per-platform link errors in platform order, and the profile is valid iff there are none |
| Utils.KeptLinks | src/lib/utils.ts:140-149 | keeps exactly the five known platforms with a non-empty link, with their values unchanged |
| Utils.KeptLinksIdempotent | src/lib/utils.ts:140-149 | sanitising the links twice equals sanitising once |
| Utils.SanitizeProfileData | src/lib/utils.ts:125-152 | present name and bio are sanitised, a present image is copied, absent fields stay absent, and links keep only the known platforms |
| Utils.ValidateAndSanitizeProfile | src/lib/utils.ts:154-172 | invalid iff there are validation errors, which are returned with empty data; a valid profile yields no errors and the sanitised data: name and bio through `sanitize`, the image copied, absent fields absent, the known platforms' links kept and each a valid URL |
| CampaignDetail.ValidateProofUrl | src/pages/CampaignDetail.tsx:46-51 | no message iff the URL is present, starts with "http" and has at least ten characters; otherwise the message of the first failing check |
| CampaignDetail.AcceptedProofUrlHasHost | src/pages/CampaignDetail.tsx:46-51 | an accepted URL has at least six characters after "http" |
| CampaignDetail.Round | src/pages/CampaignDetail.tsx:55 | the nearest integer, with halves rounded up |
| CampaignDetail.CalculateCampaignProgress | src/pages/CampaignDetail.tsx:53-56 | 0 for a zero total; never above 100; a percentage below 99.5 is rounded to the nearest integer and one from 99.5 on gives 100; non-negative for non-negative input; 100 when completed reaches the total |
| CampaignDetail.ProgressMonotone | src/pages/CampaignDetail.tsx:53-56 | one more completed worker never lowers the progress |
| CampaignDetail.DeriveCampaignMeta | src/pages/CampaignDetail.tsx:58-69 | spots left plus completed equals the total; full iff completed reaches the total; active iff the status is active; progress as computed |
| CampaignDetail.FullCampaignShowsComplete | src/pages/CampaignDetail.tsx:58-69 | a full campaign with workers shows 100 percent |
| Text.Trim | src/lib/utils.ts:111 | the trimmed string is no longer than the input and neither starts nor ends with white space |
| Text.TrimIsSlice | src/lib/utils.ts:111 | the trimmed string is the slice of the input between a leading and a trailing run of white space |
| Text.TrimStartDropsSpace | src/lib/utils.ts:111 | what `trimStart` drops is white space |
| Text.TrimEndDropsSpace | src/lib/utils.ts:111 | what `trimEnd` drops is white space |
| Text.TrimIdempotent | src/lib/utils.ts:111 | trimming twice equals trimming once |
| Text.TrimBlank | src/lib/utils.ts:111 | a string of white space only trims to the empty string |
| Text.TrimKeepsChars | src/lib/utils.ts:111 | trimming introduces no new characters |
| Json.Or | src/lib/data-cache.ts:1071 | `a \|\| b` is `a` when `a` is truthy and `b` otherwise, so it is truthy iff either operand is |

## Left out

- Firebase I/O (`get`, `set`, `update`, `push`, `runTransaction`) is modelled as direct updates of in-memory maps. A transaction the server does not commit, through contention or the network, is a `conflict` parameter. Thrown network errors are not modelled.
- Concurrency is left out: the interleaving of asynchronous workflows and the window between a pre-read and its transaction. Each workflow runs as one atomic step. `CacheClient.TwoReadersOneFetch` covers the de-duplication of concurrent reads.
- Promises, `.finally` and `console` logging are left out. A pending request is an opaque token.
- `Date.now()` is a `now` parameter.
- Cache.DataCache.Set: requires `now` below `Number.MAX_SAFE_INTEGER`, the starting value of the eviction scan, so the scan always finds a key. Clock readings of 2^53 ms and more are left out.
- `fetchWalletData`, `fetchTransactions`, `fetchCampaigns`, `fetchWorks` and `fetchAdminData` repeat `fetchUserData`'s cache-through pattern with other keys. `CacheClient.FetchThrough` and `CacheClient.SettleFetch` model that pattern once, and `CacheClient.FetchForUser` adds the empty-id guard of the four per-user reads (src/lib/data-cache.ts:791-793, 825-827, 859-861, 922-924). Each snapshot is a value passed in.
- `isFetching` and the cache-hit test `cached && !isExpired(key)` carry no row of their own. `CacheClient.FetchThrough` states the hit decision.
- `sanitizeInput`, `isValidUrl` and the image-URL heuristic (extension list, lower-casing, host patterns) are function parameters. `cn` is styling.
- Utils.IsValidProfileImage: only the empty case and the URL requirement are stated. The image heuristic is an opaque parameter.
- Numbers are `real`, except worker counts, timestamps and the approved-works counter, which are `int`. NaN, infinities and floating-point rounding are not modelled, and `Math.round` rounds the exact real value.
- String lengths count characters, not UTF-16 code units. White space is the set JavaScript's `\s` and `trim` use: the ASCII spaces, tabs and line breaks, no-break space, the Unicode space separators, the line and paragraph separators and the byte-order mark.
- Utils.IsValidEmail: the contract states the form (a@b.c with no spaces or `@` in the parts); the `ensures` alone only states the `@`.
- Profile fields are strings, with `""` meaning absent. Non-string values of those fields are not modelled.
- Leaderboard.ComputeLeaderboard: the order among users who tie on both keys is not stated; only sortedness and permutation are.
- Leaderboard: a counter that is present but not a number is read as 0. `timeThreshold` is computed and never used, so it is left out, and the caching of the result under `leaderboard:{timeframe}` is that of `FetchThrough`.
- An explicitly `undefined` field in a wallet patch is treated as absent.
- `approveWorkAndCredit` takes a `campaignId` that it never reads, and the model ignores it too.
- The actor check is skipped whenever the acting user's id is empty or absent, as in the code. `Auth.Permits` states this bypass.
- `updateWalletBalance` does not clamp the merged balances, unlike `createTransactionAndAdjustWallet`. `Ledger.PatchCanGoNegative` shows this.
- `deductCampaignBudget` uses the campaign debit with the sign check from the Findings below, so a negative amount returns false and changes nothing. For a non-negative amount it is the code's debit.
- Entities.Campaign: `totalWorkers` and `completedWorkers` are integers, as `validateNumberOfWorkers` demands when a campaign is created. A stored campaign with a fractional total (which `validateCampaignData` accepts, see `Validation.CampaignDataAllowsFractionalWorkers`) is not modelled. The in-range clauses of `Ledger.TakeSlotKeepsSane`, `Store.Database.ApplyToCampaign` and `Store.Database.EnrolWorker` rely on this: with a total of 2.5 and 2 completed, the `>=` check at src/lib/data-cache.ts:654 lets a third worker in.
- `applyToCampaign` records the reward the caller passes. It does not read it from the campaign.
- CampaignDetail.CalculateCampaignProgress: rounding is stated on exact reals, so the floating-point results of `(completed / total) * 100` are not captured.

## Findings

| source | as written | input that shows it | evidently intended | confidence | as-written member | corrected member |
|---|---|---|---|---|---|---|
| src/lib/data-cache.ts:371-379 | the campaign debit checks only that the remaining budget covers the amount, so a negative amount commits and raises the remaining budget (and the wallet debit then credits the creator) | `deductCampaignBudget(id, -1, creator)` on a campaign whose remaining budget equals its total | a debit never takes a negative amount, so the remaining budget stays within the funded total | not executed; reachable only when a caller passes a negative amount | Ledger.NegativeDebitOverfills | Ledger.GuardedDebitCampaign |
| src/lib/data-cache.ts:72-74 | the eviction runs only `if (oldestKey)`, so an oldest key equal to the empty string is never deleted | a full cache of 100 entries whose earliest entry is stored under `""`, then `set` of a new key | the oldest entry is always evicted, so the cache never exceeds 100 entries | not executed; reachable only when a caller stores under the key `""` | Cache.AsWrittenSetOverflows | Cache.DataCache.Set |
