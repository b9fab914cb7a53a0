/**
 * The money and work workflows of src/lib/data-cache.ts over an in-memory
 * document store. Every store call of the source is one assignment to a
 * map field, in the source's order; `runTransaction` is one callback from
 * module Ledger applied to the record, committed unless the store leaves the
 * transaction uncommitted (the `...Conflict` flags). A thrown `Error` is an
 * `Err` carrying its message; the source throws only before its first write.
 */
module Store {
  import opened Wrappers
  import opened Json
  import opened Entities
  import opened Auth
  import opened Ledger
  import opened Cache
  import opened CacheClient

  function Lookup<K, V>(m: map<K, V>, k: K): (r: Option<V>)
    ensures r.Some? <==> k in m
    ensures r.Some? ==> r.value == m[k]
  {
    if k in m then Some(m[k]) else None
  }

  /** The wallet as the store hands it back, for the cache. */
  function WalletJson(w: Wallet): (v: Value)
    ensures Truthy(v)
  {
    Obj(map[
      "earnedBalance" := Num(w.earnedBalance),
      "addedBalance" := Num(w.addedBalance),
      "pendingAddMoney" := Num(w.pendingAddMoney),
      "totalWithdrawn" := Num(w.totalWithdrawn)])
  }

  /** Writing a key back to the value it had leaves the map as it was. */
  lemma RewriteSame<K, V>(m: map<K, V>, k: K, v: V)
    requires k in m && v == m[k]
    ensures m[k := v] == m
  {
    assert m[k := v].Keys == m.Keys;
  }

  lemma RemoveTwo(m: map<string, Entry>, a: string, b: string)
    ensures (m - {a}) - {b} == m - {a, b}
  {
    var l := (m - {a}) - {b};
    assert l.Keys == (m - {a, b}).Keys;
  }

  lemma RemoveThree(m: map<string, Entry>, a: string, b: string, d: string)
    ensures ((m - {a}) - {b}) - {d} == m - {a, b, d}
  {
    var l := ((m - {a}) - {b}) - {d};
    assert l.Keys == (m - {a, b, d}).Keys;
  }

  /** Two `dataCache.clear` calls in a row. */
  method ClearTwo(c: DataCache, a: string, b: string)
    requires c.Valid()
    modifies c`entries, c`order
    ensures c.Valid()
    ensures c.entries == old(c.entries) - {a, b}
    ensures c.order == Without(Without(old(c.order), a), b)
  {
    ghost var before := c.entries;
    c.Clear(a);
    c.Clear(b);
    RemoveTwo(before, a, b);
  }

  /** Three `dataCache.clear` calls in a row. */
  method ClearThree(c: DataCache, a: string, b: string, d: string)
    requires c.Valid()
    modifies c`entries, c`order
    ensures c.Valid()
    ensures c.entries == old(c.entries) - {a, b, d}
    ensures c.order == Without(Without(Without(old(c.order), a), b), d)
  {
    ghost var before := c.entries;
    c.Clear(a);
    c.Clear(b);
    c.Clear(d);
    RemoveThree(before, a, b, d);
  }

  const WalletDenied := "Unauthorized: You can only update your own wallet balance"
  const AdjustDenied := "Unauthorized: You can only update your own wallet"
  const DeductDenied := "Unauthorized: You can only deduct from your own campaigns"
  const ApproveDenied := "Unauthorized: Only admins can approve work"
  const ProcessDenied := "Unauthorized: Only admins can process money requests"
  const ApplyDenied := "Unauthorized: You can only apply to campaigns for yourself"
  const SubmitDenied := "Unauthorized: You can only submit work for yourself"
  const RejectDenied := "Unauthorized: Only admins can reject work"

  const CampaignMissing := "Campaign does not exist"
  const WorkMissing := "Work does not exist"
  const WorkNotPending := "Work is not in pending status"
  const RequestMissing := "Request does not exist"
  const RequestNotPending := "Request is not in pending status"
  const NotApplied := "You have not applied to this campaign"
  const AlreadySubmitted := "Work has already been submitted and is awaiting review"
  const AlreadyApplied := "You have already applied to this campaign"
  const CampaignInactive := "Campaign is not active"
  const CampaignFull := "Campaign is full"

  /** The guard of applyToCampaign and submitWorkForCampaign: plain id equality, skipped without an actor. */
  predicate SelfOnly(actor: string, userId: string) {
    actor == "" || actor == userId
  }

  class Database {
    var users: map<string, UserRecord>
    var wallets: map<string, Wallet>
    var campaigns: map<string, Campaign>
    /** `works/{userId}/{workId}` */
    var works: map<(string, string), Work>
    /** `adminRequests/addMoney/{id}` and `adminRequests/withdrawals/{id}` */
    var requests: map<(RequestKind, string), MoneyRequest>
    /** `transactions/{uid}`, in push order. */
    var transactions: map<string, seq<Value>>
    /** The module-wide `dataCache`. */
    const cache: DataCache

    ghost predicate Valid()
      reads this, cache
    {
      cache.Valid()
    }

    constructor ()
      ensures Valid() && fresh(cache)
      ensures users == map[] && wallets == map[] && campaigns == map[] && works == map[]
      ensures requests == map[] && transactions == map[]
    {
      users, wallets, campaigns, works, requests, transactions := map[], map[], map[], map[], map[], map[];
      cache := new DataCache();
    }

    /**
     * `updateWalletBalance`: the caller's function sees the current balance
     * (zeros when none is stored); `null` aborts and yields `null`; otherwise
     * the partial result is merged, committed, cached and returned.
     */
    method UpdateWalletBalance(uid: string, update: Wallet -> Option<WalletPatch>, actor: string, conflict: bool, now: int)
      returns (r: Result<Option<Wallet>>)
      requires Valid()
      requires now < MAX_SAFE_INTEGER
      modifies this`wallets, cache`entries, cache`order
      ensures Valid()
      ensures r.Err? <==> !Permits(users, actor, uid, false)
      ensures r.Err? ==> r.message == WalletDenied
      ensures r.Ok? && r.value.Some? <==>
        r.Ok? && !conflict && MergeCallback(update, Lookup(old(wallets), uid)).Some?
      ensures r.Ok? && r.value.Some? ==>
        && r.value == MergeCallback(update, Lookup(old(wallets), uid))
        && wallets == old(wallets)[uid := r.value.value]
        && cache.entries == Evicted(old(cache.entries), old(cache.order))[WalletKey(uid) :=
             Entry(WalletJson(r.value.value), now, now + CACHE_DURATION)]
        && cache.order == Appended(EvictedOrder(old(cache.entries), old(cache.order)), WalletKey(uid))
      ensures !(r.Ok? && r.value.Some?) ==>
        wallets == old(wallets) && cache.entries == old(cache.entries) && cache.order == old(cache.order)
    {
      if !Permits(users, actor, uid, false) {
        return Err(WalletDenied);
      }
      var committed := if conflict then None else MergeCallback(update, Lookup(wallets, uid));
      if committed.None? {
        return Ok(None);
      }
      wallets := wallets[uid := committed.value];
      cache.Set(WalletKey(uid), WalletJson(committed.value), now);
      return Ok(committed);
    }

    /**
     * `createTransactionAndAdjustWallet`: the audit record is pushed first;
     * then each supplied delta is added and all four fields are floored at
     * zero, and the committed wallet is cached.
     */
    method CreateTransactionAndAdjustWallet(uid: string, transaction: Value, delta: WalletPatch, actor: string, conflict: bool, now: int)
      returns (r: Result<()>)
      requires Valid()
      requires now < MAX_SAFE_INTEGER
      modifies this`transactions, this`wallets, cache`entries, cache`order
      ensures Valid()
      ensures r.Err? <==> !Permits(users, actor, uid, false)
      ensures r.Err? ==> r.message == AdjustDenied && transactions == old(transactions)
      ensures r.Ok? ==> transactions == old(transactions)[uid := Lookup(old(transactions), uid).GetOr([]) + [transaction]]
      ensures r.Ok? && !conflict ==>
        && wallets == old(wallets)[uid := AdjustBalance(CurrentBalance(Lookup(old(wallets), uid)), delta)]
        && wallets[uid].NonNegative()
        && cache.entries == Evicted(old(cache.entries), old(cache.order))[WalletKey(uid) :=
             Entry(WalletJson(wallets[uid]), now, now + CACHE_DURATION)]
        && cache.order == Appended(EvictedOrder(old(cache.entries), old(cache.order)), WalletKey(uid))
      ensures r.Err? || conflict ==>
        wallets == old(wallets) && cache.entries == old(cache.entries) && cache.order == old(cache.order)
    {
      if !Permits(users, actor, uid, false) {
        return Err(AdjustDenied);
      }
      transactions := transactions[uid := Lookup(transactions, uid).GetOr([]) + [transaction]];
      var committed := if conflict then None else AdjustCallback(delta, Lookup(wallets, uid));
      if committed.Some? {
        wallets := wallets[uid := committed.value];
        cache.Set(WalletKey(uid), WalletJson(committed.value), now);
      }
      return Ok(());
    }

    /**
     * `deductCampaignBudget`: the creator's campaign is debited first and
     * then the creator's added balance; when the wallet step does not commit,
     * the campaign's budget is written back as the debited value plus the
     * amount. The result is `true` only when both steps commit.
     */
    method DeductCampaignBudget(campaignId: string, amount: real, uid: string, actor: string,
                                campaignConflict: bool, walletConflict: bool)
      returns (r: Result<bool>)
      requires Valid()
      modifies this`campaigns, this`wallets, cache`entries, cache`order
      ensures AllSane(old(campaigns)) ==> AllSane(campaigns)
      ensures Valid()
      ensures r.Err? <==>
        !Permits(users, actor, uid, false) || campaignId !in old(campaigns) || old(campaigns)[campaignId].creatorId != uid
      ensures r.Err? ==> r.message == if !Permits(users, actor, uid, false) || campaignId in old(campaigns)
                                       then DeductDenied else CampaignMissing
      ensures r == Ok(true) <==>
        && r.Ok?
        && !campaignConflict && GuardedDebitCampaign(amount, Lookup(old(campaigns), campaignId)).Some?
        && !walletConflict && DebitWallet(amount, Lookup(old(wallets), uid)).Some?
      ensures r == Ok(true) ==>
        && campaigns == old(campaigns)[campaignId := GuardedDebitCampaign(amount, Lookup(old(campaigns), campaignId)).value]
        && wallets == old(wallets)[uid := DebitWallet(amount, Lookup(old(wallets), uid)).value]
        && cache.entries == old(cache.entries) - {WalletKey(uid), CampaignsAllKey}
        && cache.order == Without(Without(old(cache.order), WalletKey(uid)), CampaignsAllKey)
      ensures r != Ok(true) ==>
        && campaigns == old(campaigns) && wallets == old(wallets)
        && cache.entries == old(cache.entries) && cache.order == old(cache.order)
    {
      if !Permits(users, actor, uid, false) {
        return Err(DeductDenied);
      }
      if campaignId !in campaigns {
        return Err(CampaignMissing);
      }
      if campaigns[campaignId].creatorId != uid {
        return Err(DeductDenied);
      }
      var done := DebitCampaignAndCreator(campaignId, amount, uid, campaignConflict, walletConflict);
      return Ok(done);
    }

    /**
     * The two writes of `deductCampaignBudget` once its checks have passed:
     * the campaign's budget is debited, then the creator's wallet; when the
     * wallet debit does not commit the campaign's budget is restored.
     */
    method DebitCampaignAndCreator(campaignId: string, amount: real, uid: string,
                                   campaignConflict: bool, walletConflict: bool)
      returns (done: bool)
      requires Valid()
      requires campaignId in campaigns
      modifies this`campaigns, this`wallets, cache`entries, cache`order
      ensures AllSane(old(campaigns)) ==> AllSane(campaigns)
      ensures Valid()
      ensures done <==>
        && !campaignConflict && GuardedDebitCampaign(amount, Lookup(old(campaigns), campaignId)).Some?
        && !walletConflict && DebitWallet(amount, Lookup(old(wallets), uid)).Some?
      ensures done ==>
        && campaigns == old(campaigns)[campaignId := GuardedDebitCampaign(amount, Lookup(old(campaigns), campaignId)).value]
        && wallets == old(wallets)[uid := DebitWallet(amount, Lookup(old(wallets), uid)).value]
        && cache.entries == old(cache.entries) - {WalletKey(uid), CampaignsAllKey}
        && cache.order == Without(Without(old(cache.order), WalletKey(uid)), CampaignsAllKey)
      ensures !done ==>
        && campaigns == old(campaigns) && wallets == old(wallets)
        && cache.entries == old(cache.entries) && cache.order == old(cache.order)
    {
      ghost var before := campaigns;
      ghost var c := campaigns[campaignId];
      assert Lookup(campaigns, campaignId) == Some(c);
      var debited := if campaignConflict then None else GuardedDebitCampaign(amount, Lookup(campaigns, campaignId));
      if debited.None? {
        return false;
      }
      assert debited == DebitCampaign(amount, Some(c));
      campaigns := campaigns[campaignId := debited.value];
      var charged := if walletConflict then None else DebitWallet(amount, Lookup(wallets, uid));
      if charged.Some? {
        wallets := wallets[uid := charged.value];
        ClearTwo(cache, WalletKey(uid), CampaignsAllKey);
        return true;
      }
      RollbackRestoresCampaign(c, amount);
      campaigns := campaigns[campaignId := RestoreBudget(debited.value, amount)];
      RewriteSame(before, campaignId, c);
      return false;
    }

    /**
     * `approveWorkAndCredit`: a pending work is set to approved, then the
     * reward is credited to the worker's earned balance and the profile's
     * counters; when the credit does not commit the work goes back to pending.
     */
    method ApproveWorkAndCredit(workId: string, userId: string, campaignId: string, reward: real, actor: string,
                                workConflict: bool, walletConflict: bool)
      returns (r: Result<bool>)
      requires Valid()
      modifies this`works, this`wallets, this`users, cache`entries, cache`order
      ensures Valid()
      ensures r.Err? <==>
        !Permits(old(users), actor, userId, true) || (userId, workId) !in old(works)
        || old(works)[(userId, workId)].status != Pending
      ensures r.Err? ==>
        r.message == (if !Permits(old(users), actor, userId, true) then ApproveDenied
                      else if (userId, workId) !in old(works) then WorkMissing
                      else WorkNotPending)
      ensures r == Ok(true) <==> r.Ok? && !workConflict && !walletConflict
      ensures r == Ok(true) ==>
        && works == old(works)[(userId, workId) := old(works)[(userId, workId)].(status := Approved)]
        && wallets == old(wallets)[userId := CreditEarned(reward, Lookup(old(wallets), userId)).value]
        && users == (if userId in old(users) then old(users)[userId := CreditProfile(old(users)[userId], reward)] else old(users))
        && cache.entries == old(cache.entries) - {WalletKey(userId), WorksKey(userId)}
        && cache.order == Without(Without(old(cache.order), WalletKey(userId)), WorksKey(userId))
      ensures r != Ok(true) ==>
        && works == old(works) && wallets == old(wallets) && users == old(users)
        && cache.entries == old(cache.entries) && cache.order == old(cache.order)
    {
      if !Permits(users, actor, userId, true) {
        return Err(ApproveDenied);
      }
      var key := (userId, workId);
      if key !in works {
        return Err(WorkMissing);
      }
      if works[key].status != Pending {
        return Err(WorkNotPending);
      }
      var done := ApprovePendingWork(key, reward, workConflict, walletConflict);
      return Ok(done);
    }

    /**
     * The two writes of `approveWorkAndCredit` once its checks have passed:
     * the work is approved, then its worker credited; when the credit does
     * not commit the work goes back to pending.
     */
    method ApprovePendingWork(key: (string, string), reward: real, workConflict: bool, walletConflict: bool)
      returns (done: bool)
      requires Valid()
      requires key in works && works[key].status == Pending
      modifies this`works, this`wallets, this`users, cache`entries, cache`order
      ensures Valid()
      ensures done <==> !workConflict && !walletConflict
      ensures done ==>
        && works == old(works)[key := old(works)[key].(status := Approved)]
        && wallets == old(wallets)[key.0 := CreditEarned(reward, Lookup(old(wallets), key.0)).value]
        && users == (if key.0 in old(users) then old(users)[key.0 := CreditProfile(old(users)[key.0], reward)] else old(users))
        && cache.entries == old(cache.entries) - {WalletKey(key.0), WorksKey(key.0)}
        && cache.order == Without(Without(old(cache.order), WalletKey(key.0)), WorksKey(key.0))
      ensures !done ==>
        && works == old(works) && wallets == old(wallets) && users == old(users)
        && cache.entries == old(cache.entries) && cache.order == old(cache.order)
    {
      var approved := if workConflict then None else ApproveWork(Lookup(works, key));
      if approved.None? {
        return false;
      }
      works := works[key := approved.value];
      done := CreditWorker(key.0, reward, walletConflict);
      if !done {
        ApprovalRollbackRestoresWork(old(works)[key]);
        works := works[key := works[key].(status := Pending)];
      }
    }

    /**
     * `processMoneyRequest`: the request's new status is written first. A
     * rejection ends there. An approval credits an `add_money` request or
     * debits a withdrawal; when that wallet step does not commit the request
     * is written back to pending.
     */
    method ProcessMoneyRequest(requestId: string, kind: RequestKind, userId: string, amount: real, approve: bool,
                               actor: string, walletConflict: bool)
      returns (r: Result<bool>)
      requires Valid()
      modifies this`requests, this`wallets, this`users, cache`entries, cache`order
      ensures Valid()
      ensures r.Err? <==>
        !Permits(old(users), actor, userId, true) || (kind, requestId) !in old(requests)
        || old(requests)[(kind, requestId)].status != Pending
      ensures r.Err? ==>
        r.message == (if !Permits(old(users), actor, userId, true) then ProcessDenied
                      else if (kind, requestId) !in old(requests) then RequestMissing
                      else RequestNotPending)
      ensures r.Ok? && !approve ==>
        && r.value
        && requests == old(requests)[(kind, requestId) := old(requests)[(kind, requestId)].(status := Rejected)]
        && wallets == old(wallets) && users == old(users)
        && cache.entries == old(cache.entries) && cache.order == old(cache.order)
      ensures r.Ok? && approve && kind == AddMoney ==>
        && (r.value <==> !walletConflict)
        && (r.value ==> wallets == old(wallets)[userId := AddMoneyCredit(amount, Lookup(old(wallets), userId)).value])
        && users == old(users)
      ensures r.Ok? && approve && kind == Withdrawal ==>
        && (r.value <==> !walletConflict && WithdrawEarned(amount, Lookup(old(wallets), userId)).Some?)
        && (r.value ==> wallets == old(wallets)[userId := WithdrawEarned(amount, Lookup(old(wallets), userId)).value])
        && (r.value ==> users == if userId in old(users)
                                  then old(users)[userId := RecordWithdrawal(old(users)[userId], amount)]
                                  else old(users))
      ensures r.Ok? && approve && r.value ==>
        && requests == old(requests)[(kind, requestId) := old(requests)[(kind, requestId)].(status := Approved)]
        && cache.entries == old(cache.entries) - {WalletKey(userId)}
        && cache.order == Without(old(cache.order), WalletKey(userId))
      ensures r != Ok(true) ==>
        && requests == old(requests) && wallets == old(wallets) && users == old(users)
        && cache.entries == old(cache.entries) && cache.order == old(cache.order)
    {
      if !Permits(users, actor, userId, true) {
        return Err(ProcessDenied);
      }
      var key := (kind, requestId);
      if key !in requests {
        return Err(RequestMissing);
      }
      if requests[key].status != Pending {
        return Err(RequestNotPending);
      }
      var original := requests[key];
      requests := requests[key := requests[key].(status := if approve then Approved else Rejected)];
      if !approve {
        return Ok(true);
      }
      var moved := MoveFunds(kind, userId, amount, walletConflict);
      if !moved {
        requests := requests[key := requests[key].(status := Pending)];
        assert requests[key] == original;
        return Ok(false);
      }
      return Ok(true);
    }

    /**
     * The wallet step of an approved money request: `add_money` credits the
     * added balance, a withdrawal debits the earned balance and records the
     * amount on the profile; the wallet cache entry is cleared on success.
     */
    method MoveFunds(kind: RequestKind, userId: string, amount: real, walletConflict: bool) returns (moved: bool)
      requires Valid()
      modifies this`wallets, this`users, cache`entries, cache`order
      ensures Valid()
      ensures kind == AddMoney ==> (moved <==> !walletConflict)
      ensures kind == Withdrawal ==> (moved <==> !walletConflict && WithdrawEarned(amount, Lookup(old(wallets), userId)).Some?)
      ensures moved && kind == AddMoney ==>
        wallets == old(wallets)[userId := AddMoneyCredit(amount, Lookup(old(wallets), userId)).value] && users == old(users)
      ensures moved && kind == Withdrawal ==>
        && wallets == old(wallets)[userId := WithdrawEarned(amount, Lookup(old(wallets), userId)).value]
        && users == if userId in old(users) then old(users)[userId := RecordWithdrawal(old(users)[userId], amount)] else old(users)
      ensures moved ==> cache.entries == old(cache.entries) - {WalletKey(userId)}
      ensures moved ==> cache.order == Without(old(cache.order), WalletKey(userId))
      ensures !moved ==>
        && wallets == old(wallets) && users == old(users)
        && cache.entries == old(cache.entries) && cache.order == old(cache.order)
    {
      var committed := if walletConflict then None
                       else if kind == AddMoney then AddMoneyCredit(amount, Lookup(wallets, userId))
                       else WithdrawEarned(amount, Lookup(wallets, userId));
      if committed.None? {
        return false;
      }
      wallets := wallets[userId := committed.value];
      if kind == Withdrawal {
        UpdateProfile(userId, (u: UserRecord) => RecordWithdrawal(u, amount));
      }
      cache.Clear(WalletKey(userId));
      return true;
    }

    /**
     * `applyToCampaign`: a first application to an active campaign with a
     * free slot creates a pending work under `works/{userId}/{campaignId}`
     * and takes one slot.
     */
    method ApplyToCampaign(campaignId: string, userId: string, userName: string, reward: real, actor: string, now: int)
      returns (r: Result<bool>)
      requires Valid()
      modifies this`works, this`campaigns, cache`entries, cache`order
      ensures AllSane(old(campaigns)) ==> AllSane(campaigns)
      ensures Valid()
      ensures r.Err? <==> ApplyRefusal(old(works), old(campaigns), actor, userId, campaignId).Some?
      ensures r.Err? ==> r.message == ApplyRefusal(old(works), old(campaigns), actor, userId, campaignId).value
      ensures r.Err? ==>
        works == old(works) && campaigns == old(campaigns) && cache.entries == old(cache.entries) && cache.order == old(cache.order)
      ensures r.Ok? ==>
        && r.value
        && works == old(works)[(userId, campaignId) := Work(userId, userName, campaignId, "", Pending, now, reward)]
        && campaigns == old(campaigns)[campaignId := TakeSlot(old(campaigns)[campaignId])]
        && campaigns[campaignId].completedWorkers <= campaigns[campaignId].totalWorkers
        && cache.entries == old(cache.entries) - {WorksKey(userId), CampaignsAllKey, CampaignKey(campaignId)}
        && cache.order == Without(Without(Without(old(cache.order), WorksKey(userId)), CampaignsAllKey), CampaignKey(campaignId))
    {
      var refusal := ApplyRefusal(works, campaigns, actor, userId, campaignId);
      if refusal.Some? {
        return Err(refusal.value);
      }
      EnrolWorker(campaignId, userId, userName, reward, now);
      return Ok(true);
    }

    /**
     * The writes of `applyToCampaign` once its checks have passed: a pending
     * work is created, the campaign takes one slot and three cache keys are
     * cleared.
     */
    method EnrolWorker(campaignId: string, userId: string, userName: string, reward: real, now: int)
      requires Valid()
      requires campaignId in campaigns
      requires campaigns[campaignId].completedWorkers < campaigns[campaignId].totalWorkers
      modifies this`works, this`campaigns, cache`entries, cache`order
      ensures AllSane(old(campaigns)) ==> AllSane(campaigns)
      ensures Valid()
      ensures works == old(works)[(userId, campaignId) := Work(userId, userName, campaignId, "", Pending, now, reward)]
      ensures campaigns == old(campaigns)[campaignId := TakeSlot(old(campaigns)[campaignId])]
      ensures campaigns[campaignId].completedWorkers <= campaigns[campaignId].totalWorkers
      ensures cache.entries == old(cache.entries) - {WorksKey(userId), CampaignsAllKey, CampaignKey(campaignId)}
      ensures cache.order == Without(Without(Without(old(cache.order), WorksKey(userId)), CampaignsAllKey), CampaignKey(campaignId))
    {
      works := works[(userId, campaignId) := Work(userId, userName, campaignId, "", Pending, now, reward)];
      campaigns := campaigns[campaignId := TakeSlot(campaigns[campaignId])];
      ClearThree(cache, WorksKey(userId), CampaignsAllKey, CampaignKey(campaignId));
    }

    /**
     * `submitWorkForCampaign`: a pending or rejected work receives the proof
     * and a new submission time and is (again) pending; an approved one is refused.
     */
    method SubmitWorkForCampaign(campaignId: string, userId: string, proofUrl: string, actor: string, now: int)
      returns (r: Result<bool>)
      requires Valid()
      modifies this`works, cache`entries, cache`order
      ensures Valid()
      ensures r.Err? <==>
        !SelfOnly(actor, userId) || (userId, campaignId) !in old(works)
        || old(works)[(userId, campaignId)].status == Approved
      ensures r.Err? ==>
        r.message == (if !SelfOnly(actor, userId) then SubmitDenied
                      else if (userId, campaignId) !in old(works) then NotApplied
                      else AlreadySubmitted)
      ensures r.Err? ==> works == old(works) && cache.entries == old(cache.entries) && cache.order == old(cache.order)
      ensures r.Ok? ==>
        && r.value
        && works == old(works)[(userId, campaignId) :=
             old(works)[(userId, campaignId)].(proofUrl := proofUrl, status := Pending, submittedAt := now)]
        && cache.entries == old(cache.entries) - {WorksKey(userId), WorkKey(userId, campaignId)}
        && cache.order == Without(Without(old(cache.order), WorksKey(userId)), WorkKey(userId, campaignId))
    {
      if !SelfOnly(actor, userId) {
        return Err(SubmitDenied);
      }
      var key := (userId, campaignId);
      if key !in works {
        return Err(NotApplied);
      }
      if works[key].status != Pending && works[key].status != Rejected {
        return Err(AlreadySubmitted);
      }
      works := works[key := works[key].(proofUrl := proofUrl, status := Pending, submittedAt := now)];
      ClearTwo(cache, WorksKey(userId), WorkKey(userId, campaignId));
      return Ok(true);
    }

    /**
     * `rejectWorkAndRestoreCampaignBudget`: a pending work becomes rejected
     * and its campaign, when it exists and has taken slots, gives one back.
     */
    method RejectWorkAndRestoreCampaignBudget(workId: string, userId: string, campaignId: string, actor: string)
      returns (r: Result<bool>)
      requires Valid()
      modifies this`works, this`campaigns, cache`entries, cache`order
      ensures AllSane(old(campaigns)) ==> AllSane(campaigns)
      ensures Valid()
      ensures r.Err? <==>
        !Permits(users, actor, userId, true) || (userId, workId) !in old(works)
        || old(works)[(userId, workId)].status != Pending
      ensures r.Err? ==>
        r.message == (if !Permits(users, actor, userId, true) then RejectDenied
                      else if (userId, workId) !in old(works) then WorkMissing
                      else WorkNotPending)
      ensures r.Err? ==>
        works == old(works) && campaigns == old(campaigns) && cache.entries == old(cache.entries) && cache.order == old(cache.order)
      ensures r.Ok? ==>
        && r.value
        && works == old(works)[(userId, workId) := old(works)[(userId, workId)].(status := Rejected)]
        && campaigns == (if campaignId in old(campaigns)
                         then old(campaigns)[campaignId := ReleaseSlot(old(campaigns)[campaignId])]
                         else old(campaigns))
        && cache.entries == old(cache.entries) - {WorksKey(userId), CampaignsAllKey, CampaignKey(campaignId)}
        && cache.order == Without(Without(Without(old(cache.order), WorksKey(userId)), CampaignsAllKey), CampaignKey(campaignId))
    {
      if !Permits(users, actor, userId, true) {
        return Err(RejectDenied);
      }
      var key := (userId, workId);
      if key !in works {
        return Err(WorkMissing);
      }
      if works[key].status != Pending {
        return Err(WorkNotPending);
      }
      RejectPendingWork(key, campaignId);
      return Ok(true);
    }

    /**
     * The writes of `rejectWorkAndRestoreCampaignBudget` once its checks
     * have passed: the work is rejected, the campaign gives back a slot and
     * three cache keys are cleared.
     */
    method RejectPendingWork(key: (string, string), campaignId: string)
      requires Valid()
      requires key in works
      modifies this`works, this`campaigns, cache`entries, cache`order
      ensures AllSane(old(campaigns)) ==> AllSane(campaigns)
      ensures Valid()
      ensures works == old(works)[key := old(works)[key].(status := Rejected)]
      ensures campaigns == (if campaignId in old(campaigns)
                            then old(campaigns)[campaignId := ReleaseSlot(old(campaigns)[campaignId])]
                            else old(campaigns))
      ensures cache.entries == old(cache.entries) - {WorksKey(key.0), CampaignsAllKey, CampaignKey(campaignId)}
      ensures cache.order == Without(Without(Without(old(cache.order), WorksKey(key.0)), CampaignsAllKey), CampaignKey(campaignId))
    {
      works := works[key := works[key].(status := Rejected)];
      ReleaseCampaignSlot(campaignId);
      ClearThree(cache, WorksKey(key.0), CampaignsAllKey, CampaignKey(campaignId));
    }

    /**
     * The crediting step of `approveWorkAndCredit`: the reward goes to the
     * earned balance, then to the profile's counters when the profile
     * exists, and the wallet and works cache entries are cleared.
     */
    method CreditWorker(userId: string, reward: real, walletConflict: bool) returns (credited: bool)
      requires Valid()
      modifies this`wallets, this`users, cache`entries, cache`order
      ensures Valid()
      ensures credited <==> !walletConflict
      ensures credited ==>
        && wallets == old(wallets)[userId := CreditEarned(reward, Lookup(old(wallets), userId)).value]
        && users == (if userId in old(users) then old(users)[userId := CreditProfile(old(users)[userId], reward)] else old(users))
        && cache.entries == old(cache.entries) - {WalletKey(userId), WorksKey(userId)}
        && cache.order == Without(Without(old(cache.order), WalletKey(userId)), WorksKey(userId))
      ensures !credited ==>
        wallets == old(wallets) && users == old(users) && cache.entries == old(cache.entries) && cache.order == old(cache.order)
    {
      var committed := if walletConflict then None else CreditEarned(reward, Lookup(wallets, userId));
      if committed.None? {
        return false;
      }
      wallets := wallets[userId := committed.value];
      UpdateProfile(userId, (u: UserRecord) => CreditProfile(u, reward));
      ClearTwo(cache, WalletKey(userId), WorksKey(userId));
      return true;
    }

    /** A profile counter update that is written only when the profile exists. */
    method UpdateProfile(userId: string, change: UserRecord -> UserRecord)
      modifies this`users
      ensures users == if userId in old(users) then old(users)[userId := change(old(users)[userId])] else old(users)
    {
      if userId in users {
        users := users[userId := change(users[userId])];
      }
    }

    /** The slot release of `rejectWorkAndRestoreCampaignBudget`: written only when the count is positive. */
    method ReleaseCampaignSlot(campaignId: string)
      modifies this`campaigns
      ensures AllSane(old(campaigns)) ==> AllSane(campaigns)
      ensures campaigns == (if campaignId in old(campaigns)
                            then old(campaigns)[campaignId := ReleaseSlot(old(campaigns)[campaignId])]
                            else old(campaigns))
    {
      if campaignId in campaigns {
        var c := campaigns[campaignId];
        if c.completedWorkers > 0 {
          campaigns := campaigns[campaignId := c.(completedWorkers := Max0Int(c.completedWorkers - 1))];
        } else {
          assert c == ReleaseSlot(c);
        }
      }
    }
  }

  /**
   * The checks applyToCampaign makes before its first write, in its order:
   * the actor, an earlier application, the campaign's existence, its status
   * and its free slots. `None` lets the application through.
   */
  function ApplyRefusal(works: map<(string, string), Work>, campaigns: map<string, Campaign>,
                        actor: string, userId: string, campaignId: string): (refusal: Option<string>)
    ensures refusal.None? <==>
      && SelfOnly(actor, userId)
      && (userId, campaignId) !in works
      && campaignId in campaigns
      && campaigns[campaignId].status == Active
      && campaigns[campaignId].completedWorkers < campaigns[campaignId].totalWorkers
    ensures !SelfOnly(actor, userId) ==> refusal == Some(ApplyDenied)
    ensures SelfOnly(actor, userId) && (userId, campaignId) in works ==>
      refusal == Some(AlreadyApplied)
    ensures SelfOnly(actor, userId) && (userId, campaignId) !in works && campaignId !in campaigns ==>
      refusal == Some(CampaignMissing)
    ensures SelfOnly(actor, userId) && (userId, campaignId) !in works && campaignId in campaigns
            && campaigns[campaignId].status != Active ==>
      refusal == Some(CampaignInactive)
    ensures SelfOnly(actor, userId) && (userId, campaignId) !in works && campaignId in campaigns
            && campaigns[campaignId].status == Active
            && campaigns[campaignId].completedWorkers >= campaigns[campaignId].totalWorkers ==>
      refusal == Some(CampaignFull)
  {
    if !SelfOnly(actor, userId) then Some(ApplyDenied)
    else if (userId, campaignId) in works then Some(AlreadyApplied)
    else if campaignId !in campaigns then Some(CampaignMissing)
    else if campaigns[campaignId].status != Active then Some(CampaignInactive)
    else if campaigns[campaignId].completedWorkers >= campaigns[campaignId].totalWorkers then Some(CampaignFull)
    else None
  }

  /** `Math.max(0, n)` on a count. */
  function Max0Int(n: int): (r: int)
    ensures r >= 0 && r >= n && (r == n || r == 0)
  {
    if n < 0 then 0 else n
  }
}
