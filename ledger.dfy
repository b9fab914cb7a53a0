/**
 * The update callbacks that src/lib/data-cache.ts hands to the store's
 * `runTransaction`. Each one sees the current record (`None` when the path
 * holds nothing) and returns the record to commit, or `None` to abort.
 */
module Ledger {
  import opened Wrappers
  import opened Entities

  function Max0(x: real): (r: real)
    ensures r >= 0.0 && r >= x
    ensures r == x || r == 0.0
  {
    if x < 0.0 then 0.0 else x
  }

  /** `currentData || { earnedBalance: 0, ... }` */
  function CurrentBalance(current: Option<Wallet>): (w: Wallet)
    ensures current.None? ==> w == ZeroWallet
    ensures current.Some? ==> w == current.value
  {
    current.GetOr(ZeroWallet)
  }

  /*
   * updateWalletBalance: `{ ...currentBalance, ...updateValues }`.
   */

  /** A supplied field overwrites, an omitted one keeps the current value. */
  function ApplyPatch(w: Wallet, p: WalletPatch): (r: Wallet)
    ensures forall f: BalanceField :: r.Get(f) == p.Get(f).GetOr(w.Get(f))
  {
    Wallet(
      p.earnedBalance.GetOr(w.earnedBalance),
      p.addedBalance.GetOr(w.addedBalance),
      p.pendingAddMoney.GetOr(w.pendingAddMoney),
      p.totalWithdrawn.GetOr(w.totalWithdrawn))
  }

  /** The whole callback: a `null` from the caller's function aborts. */
  function MergeCallback(update: Wallet -> Option<WalletPatch>, current: Option<Wallet>): (r: Option<Wallet>)
    ensures r.None? <==> update(CurrentBalance(current)).None?
    ensures r.Some? ==> forall f: BalanceField ::
      r.value.Get(f) == update(CurrentBalance(current)).value.Get(f).GetOr(CurrentBalance(current).Get(f))
  {
    var w := CurrentBalance(current);
    match update(w)
    case None => None
    case Some(p) => Some(ApplyPatch(w, p))
  }

  /** Merging the same partial update twice changes nothing the second time. */
  lemma PatchIdempotent(w: Wallet, p: WalletPatch)
    ensures ApplyPatch(ApplyPatch(w, p), p) == ApplyPatch(w, p)
  {
  }

  /** An empty partial update keeps the wallet as it is. */
  lemma EmptyPatchIsIdentity(w: Wallet)
    ensures ApplyPatch(w, EmptyPatch) == w
  {
  }

  /** The merge does not clamp: a supplied negative value is stored as given. */
  lemma PatchCanGoNegative()
    ensures !ApplyPatch(ZeroWallet, WalletPatch(Some(-5.0), None, None, None)).NonNegative()
  {
    assert ApplyPatch(ZeroWallet, WalletPatch(Some(-5.0), None, None, None)).earnedBalance == -5.0;
  }

  /*
   * createTransactionAndAdjustWallet: add each supplied delta, then floor
   * every field at zero.
   */

  function AddDelta(x: real, d: Option<real>): real {
    match d
    case None => x
    case Some(v) => x + v
  }

  function AdjustBalance(w: Wallet, delta: WalletPatch): (r: Wallet)
    ensures r.NonNegative()
    ensures forall f: BalanceField :: r.Get(f) == Max0(AddDelta(w.Get(f), delta.Get(f)))
  {
    Wallet(
      Max0(AddDelta(w.earnedBalance, delta.earnedBalance)),
      Max0(AddDelta(w.addedBalance, delta.addedBalance)),
      Max0(AddDelta(w.pendingAddMoney, delta.pendingAddMoney)),
      Max0(AddDelta(w.totalWithdrawn, delta.totalWithdrawn)))
  }

  /** The adjustment never aborts. */
  function AdjustCallback(delta: WalletPatch, current: Option<Wallet>): (r: Option<Wallet>)
    ensures r.Some? && r.value.NonNegative()
    ensures r.value == AdjustBalance(CurrentBalance(current), delta)
  {
    Some(AdjustBalance(CurrentBalance(current), delta))
  }

  /** On a wallet that is already non-negative, an empty adjustment changes nothing. */
  lemma AdjustByNothing(w: Wallet)
    requires w.NonNegative()
    ensures AdjustBalance(w, EmptyPatch) == w
  {
  }

  /** Omitted fields are still floored: an empty adjustment repairs a negative wallet. */
  lemma AdjustRepairsNegative()
    ensures AdjustBalance(Wallet(-3.0, 1.0, 0.0, 0.0), EmptyPatch) == Wallet(0.0, 1.0, 0.0, 0.0)
  {
    assert Max0(-3.0) == 0.0;
  }

  /** Adding 50 earned to { 100, 200, 0, 50 }. */
  lemma AdjustEarnedExample()
    ensures AdjustCallback(WalletPatch(Some(50.0), None, None, None), Some(Wallet(100.0, 200.0, 0.0, 50.0)))
            == Some(Wallet(150.0, 200.0, 0.0, 50.0))
  {
  }

  /** A debit larger than the field lands on zero rather than below it. */
  lemma AdjustFloorsOverdraft(w: Wallet, amount: real)
    requires w.NonNegative() && amount > w.addedBalance
    ensures AdjustBalance(w, WalletPatch(None, Some(-amount), None, None)).addedBalance == 0.0
  {
  }

  /*
   * deductCampaignBudget: campaign first, then the creator's wallet.
   */

  /** A campaign whose counters are in range: taken slots within the total, remaining budget within the funded one. */
  predicate CampaignSane(c: Campaign) {
    0 <= c.completedWorkers <= c.totalWorkers && 0.0 <= c.remainingBudget <= c.totalBudget
  }

  /** Every campaign of a collection is in range. */
  predicate AllSane(campaigns: map<string, Campaign>) {
    forall id :: id in campaigns ==> CampaignSane(campaigns[id])
  }

  function DebitCampaign(amount: real, current: Option<Campaign>): (r: Option<Campaign>)
    ensures r.Some? <==> current.Some? && current.value.remainingBudget >= amount
    ensures r.Some? ==> r.value == current.value.(remainingBudget := current.value.remainingBudget - amount)
    ensures r.Some? ==> r.value.remainingBudget >= 0.0
  {
    if current.None? then None
    else if current.value.remainingBudget < amount then None
    else Some(current.value.(remainingBudget := current.value.remainingBudget - amount))
  }

  function DebitWallet(amount: real, current: Option<Wallet>): (r: Option<Wallet>)
    ensures r.Some? <==> CurrentBalance(current).addedBalance >= amount
    ensures r.Some? ==> r.value == CurrentBalance(current).(addedBalance := CurrentBalance(current).addedBalance - amount)
    ensures r.Some? ==> r.value.addedBalance >= 0.0
  {
    var w := CurrentBalance(current);
    if w.addedBalance < amount then None
    else Some(w.(addedBalance := w.addedBalance - amount))
  }

  /**
   * The campaign debit with the sign check the source leaves out: a negative
   * amount is refused instead of raising the remaining budget.
   */
  function GuardedDebitCampaign(amount: real, current: Option<Campaign>): (r: Option<Campaign>)
    ensures r.Some? <==> amount >= 0.0 && DebitCampaign(amount, current).Some?
    ensures r.Some? ==> r == DebitCampaign(amount, current)
    ensures r.Some? && CampaignSane(current.value) ==> CampaignSane(r.value)
  {
    if amount < 0.0 then None else DebitCampaign(amount, current)
  }

  /**
   * As written, `deductCampaignBudget` accepts a negative amount: the debit
   * commits and leaves more remaining budget than the campaign was funded with.
   */
  lemma NegativeDebitOverfills(c: Campaign)
    requires CampaignSane(c) && c.remainingBudget == c.totalBudget
    ensures DebitCampaign(-1.0, Some(c)).Some?
    ensures !CampaignSane(DebitCampaign(-1.0, Some(c)).value)
    ensures GuardedDebitCampaign(-1.0, Some(c)).None?
  {
  }

  /** The rollback write `{ remainingBudget: snapshot.remainingBudget + amount }`. */
  function RestoreBudget(debited: Campaign, amount: real): (r: Campaign)
    ensures r.remainingBudget - amount == debited.remainingBudget
  {
    debited.(remainingBudget := debited.remainingBudget + amount)
  }

  /** In a sequential run the rollback writes back exactly the campaign that was debited. */
  lemma RollbackRestoresCampaign(c: Campaign, amount: real)
    requires DebitCampaign(amount, Some(c)).Some?
    ensures RestoreBudget(DebitCampaign(amount, Some(c)).value, amount) == c
  {
  }

  /** A debit that passes keeps a non-negative wallet non-negative and moves only the added balance. */
  lemma DebitWalletKeepsNonNegative(w: Wallet, amount: real)
    requires w.NonNegative() && DebitWallet(amount, Some(w)).Some?
    ensures DebitWallet(amount, Some(w)).value.NonNegative()
    ensures forall f: BalanceField :: f != Added ==> DebitWallet(amount, Some(w)).value.Get(f) == w.Get(f)
  {
  }

  /** The test's figures: 1000 remaining and 800 added, minus 500, leave 500 and 300. */
  lemma DeductExample(c: Campaign)
    requires c.remainingBudget == 1000.0
    ensures DebitCampaign(500.0, Some(c)).Some?
    ensures DebitCampaign(500.0, Some(c)).value.remainingBudget == 500.0
    ensures DebitWallet(500.0, Some(Wallet(0.0, 800.0, 0.0, 0.0))) == Some(Wallet(0.0, 300.0, 0.0, 0.0))
  {
  }

  /** The campaign after a run of debits, each aborted one leaving it as it was. */
  function DebitMany(c: Campaign, amounts: seq<real>): Campaign
    decreases |amounts|
  {
    if amounts == [] then c
    else
      var next := DebitCampaign(amounts[0], Some(c));
      DebitMany(if next.Some? then next.value else c, amounts[1..])
  }

  /** The amounts of that run whose debit was committed. */
  function AcceptedDebits(c: Campaign, amounts: seq<real>): seq<real>
    decreases |amounts|
  {
    if amounts == [] then []
    else
      var next := DebitCampaign(amounts[0], Some(c));
      if next.Some? then [amounts[0]] + AcceptedDebits(next.value, amounts[1..])
      else AcceptedDebits(c, amounts[1..])
  }

  function Sum(s: seq<real>): real {
    if s == [] then 0.0 else s[0] + Sum(s[1..])
  }

  /**
   * Over any run of debits the budget goes down by exactly what was accepted
   * and never below zero, and nothing but the remaining budget changes.
   */
  lemma {:induction false} DebitsNeverOverdraw(c: Campaign, amounts: seq<real>)
    requires c.remainingBudget >= 0.0
    ensures DebitMany(c, amounts).remainingBudget == c.remainingBudget - Sum(AcceptedDebits(c, amounts))
    ensures DebitMany(c, amounts).remainingBudget >= 0.0
    ensures DebitMany(c, amounts) == c.(remainingBudget := DebitMany(c, amounts).remainingBudget)
    decreases |amounts|
  {
    if amounts != [] {
      var next := DebitCampaign(amounts[0], Some(c));
      if next.Some? {
        DebitsNeverOverdraw(next.value, amounts[1..]);
      } else {
        DebitsNeverOverdraw(c, amounts[1..]);
      }
    }
  }

  /** Of two debits of `a` against a budget that covers one but not two, exactly one is accepted. */
  lemma ExactlyOneOfTwo(c: Campaign, a: real)
    requires a > 0.0 && a <= c.remainingBudget < a + a
    ensures AcceptedDebits(c, [a, a]) == [a]
    ensures DebitMany(c, [a, a]).remainingBudget == c.remainingBudget - a
  {
    var first := DebitCampaign(a, Some(c)).value;
    assert DebitCampaign(a, Some(first)).None?;
    assert [a, a][1..] == [a];
    assert [a][1..] == [];
    assert AcceptedDebits(first, [a]) == [];
    assert DebitMany(first, [a]) == first;
  }

  /*
   * approveWorkAndCredit and rejectWorkAndRestoreCampaignBudget.
   */

  /** The re-check inside the work transaction: only a pending work becomes approved. */
  function ApproveWork(current: Option<Work>): (r: Option<Work>)
    ensures r.Some? <==> current.Some? && current.value.status == Pending
    ensures r.Some? ==> r.value == current.value.(status := Approved)
  {
    if current.None? || current.value.status != Pending then None
    else Some(current.value.(status := Approved))
  }

  /** The credit of an approved work's reward; it never aborts. */
  function CreditEarned(reward: real, current: Option<Wallet>): (r: Option<Wallet>)
    ensures r.Some?
    ensures r.value.earnedBalance == CurrentBalance(current).earnedBalance + reward
    ensures forall f: BalanceField :: f != Earned ==> r.value.Get(f) == CurrentBalance(current).Get(f)
  {
    var w := CurrentBalance(current);
    Some(w.(earnedBalance := w.earnedBalance + reward))
  }

  /** The rollback `{ status: 'pending' }` undoes the approval of the work it approved. */
  lemma ApprovalRollbackRestoresWork(w: Work)
    requires ApproveWork(Some(w)).Some?
    ensures ApproveWork(Some(w)).value.(status := Pending) == w
  {
  }

  /** A work can be approved at most once: the approved record refuses a second approval. */
  lemma ApproveOnce(w: Work)
    requires ApproveWork(Some(w)).Some?
    ensures ApproveWork(ApproveWork(Some(w))).None?
  {
  }

  /** The profile counters after an approval: `(x || 0) + reward` and `(n || 0) + 1`. */
  function CreditProfile(u: UserRecord, reward: real): (r: UserRecord)
    ensures r.earnedMoney - u.earnedMoney == reward && r.approvedWorks == u.approvedWorks + 1
    ensures r.role == u.role && r.isBlocked == u.isBlocked && r.totalWithdrawn == u.totalWithdrawn
  {
    u.(earnedMoney := u.earnedMoney + reward, approvedWorks := u.approvedWorks + 1)
  }

  /** `applyToCampaign`'s campaign write: one more completed worker. */
  function TakeSlot(c: Campaign): (r: Campaign)
    ensures r.completedWorkers == c.completedWorkers + 1
    ensures r == c.(completedWorkers := r.completedWorkers)
  {
    c.(completedWorkers := c.completedWorkers + 1)
  }

  /** `completedWorkers` after a rejection: decremented only when positive. */
  function ReleaseSlot(c: Campaign): (r: Campaign)
    ensures r.completedWorkers == if c.completedWorkers > 0 then c.completedWorkers - 1 else c.completedWorkers
    ensures r.completedWorkers >= 0 || r == c
    ensures r == c.(completedWorkers := r.completedWorkers)
  {
    if c.completedWorkers > 0 then c.(completedWorkers := if c.completedWorkers - 1 < 0 then 0 else c.completedWorkers - 1)
    else c
  }

  /** Taking a free slot keeps a campaign in range. */
  lemma TakeSlotKeepsSane(c: Campaign)
    requires CampaignSane(c) && c.completedWorkers < c.totalWorkers
    ensures CampaignSane(TakeSlot(c))
  {
  }

  /** Releasing a slot keeps a campaign in range. */
  lemma ReleaseSlotKeepsSane(c: Campaign)
    requires CampaignSane(c)
    ensures CampaignSane(ReleaseSlot(c))
  {
  }

  /** Taking a slot on apply and releasing it on reject give the campaign back. */
  lemma ApplyThenRejectRestoresSlots(c: Campaign)
    requires c.completedWorkers >= 0
    ensures ReleaseSlot(TakeSlot(c)) == c
  {
  }

  /*
   * processMoneyRequest.
   */

  /** An approved `add_money` request: the amount moves from pending to added, pending floored at zero. */
  function AddMoneyCredit(amount: real, current: Option<Wallet>): (r: Option<Wallet>)
    ensures r.Some?
    ensures r.value.addedBalance == CurrentBalance(current).addedBalance + amount
    ensures r.value.pendingAddMoney == Max0(CurrentBalance(current).pendingAddMoney - amount)
    ensures r.value.earnedBalance == CurrentBalance(current).earnedBalance
    ensures r.value.totalWithdrawn == CurrentBalance(current).totalWithdrawn
  {
    var w := CurrentBalance(current);
    Some(w.(addedBalance := w.addedBalance + amount, pendingAddMoney := Max0(w.pendingAddMoney - amount)))
  }

  /** An approved withdrawal: aborts when the earned balance does not cover the amount. */
  function WithdrawEarned(amount: real, current: Option<Wallet>): (r: Option<Wallet>)
    ensures r.Some? <==> CurrentBalance(current).earnedBalance >= amount
    ensures r.Some? ==> r.value.earnedBalance == CurrentBalance(current).earnedBalance - amount
    ensures r.Some? ==> r.value.totalWithdrawn == CurrentBalance(current).totalWithdrawn + amount
    ensures r.Some? ==> r.value.addedBalance == CurrentBalance(current).addedBalance
    ensures r.Some? ==> r.value.pendingAddMoney == CurrentBalance(current).pendingAddMoney
  {
    var w := CurrentBalance(current);
    if w.earnedBalance < amount then None
    else Some(w.(earnedBalance := w.earnedBalance - amount, totalWithdrawn := w.totalWithdrawn + amount))
  }

  /** A withdrawal moves money between two fields: their sum is unchanged. */
  lemma WithdrawalConservesEarnings(amount: real, w: Wallet)
    requires WithdrawEarned(amount, Some(w)).Some?
    ensures WithdrawEarned(amount, Some(w)).value.earnedBalance + WithdrawEarned(amount, Some(w)).value.totalWithdrawn
            == w.earnedBalance + w.totalWithdrawn
  {
  }

  /** With a non-negative amount both money-request credits keep a non-negative wallet non-negative. */
  lemma RequestsKeepNonNegative(amount: real, w: Wallet)
    requires w.NonNegative() && amount >= 0.0
    ensures AddMoneyCredit(amount, Some(w)).value.NonNegative()
    ensures WithdrawEarned(amount, Some(w)).Some? ==> WithdrawEarned(amount, Some(w)).value.NonNegative()
  {
  }

  /** The profile's `totalWithdrawn` after a withdrawal: `(x || 0) + amount`. */
  function RecordWithdrawal(u: UserRecord, amount: real): (r: UserRecord)
    ensures r.totalWithdrawn - u.totalWithdrawn == amount
    ensures r.earnedMoney == u.earnedMoney && r.approvedWorks == u.approvedWorks && r.role == u.role && r.isBlocked == u.isBlocked
  {
    u.(totalWithdrawn := u.totalWithdrawn + amount)
  }
}
