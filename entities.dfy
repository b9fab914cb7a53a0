/**
 * The records kept in the document store of src/lib/data-cache.ts:
 * `users/{uid}`, `wallets/{uid}`, `campaigns/{id}`, `works/{uid}/{id}` and
 * `adminRequests/{addMoney|withdrawals}/{id}`.
 */
module Entities {
  import opened Wrappers

  datatype Role = User | Admin

  /** The parts of a user profile the money operations read or update. */
  datatype UserRecord = UserRecord(
    role: Role,
    isBlocked: bool,
    earnedMoney: real,
    approvedWorks: int,
    totalWithdrawn: real)

  datatype BalanceField = Earned | Added | PendingAdd | Withdrawn

  /** The four balance fields of a worker's wallet. */
  datatype Wallet = Wallet(
    earnedBalance: real,
    addedBalance: real,
    pendingAddMoney: real,
    totalWithdrawn: real)
  {
    function Get(f: BalanceField): real {
      match f
      case Earned => earnedBalance
      case Added => addedBalance
      case PendingAdd => pendingAddMoney
      case Withdrawn => totalWithdrawn
    }

    predicate NonNegative() {
      earnedBalance >= 0.0 && addedBalance >= 0.0 && pendingAddMoney >= 0.0 && totalWithdrawn >= 0.0
    }
  }

  /** A `Partial<WalletBalance>`: each field either supplied or omitted. */
  datatype WalletPatch = WalletPatch(
    earnedBalance: Option<real>,
    addedBalance: Option<real>,
    pendingAddMoney: Option<real>,
    totalWithdrawn: Option<real>)
  {
    function Get(f: BalanceField): Option<real> {
      match f
      case Earned => earnedBalance
      case Added => addedBalance
      case PendingAdd => pendingAddMoney
      case Withdrawn => totalWithdrawn
    }
  }

  /** The balance the source substitutes when no wallet is stored yet. */
  const ZeroWallet := Wallet(0.0, 0.0, 0.0, 0.0)

  const EmptyPatch := WalletPatch(None, None, None, None)

  datatype CampaignStatus = Active | Paused | Completed | Banned

  datatype Campaign = Campaign(
    creatorId: string,
    totalBudget: real,
    remainingBudget: real,
    totalWorkers: int,
    completedWorkers: int,
    rewardPerWorker: real,
    status: CampaignStatus)

  /** The status of a work submission and of a money request. */
  datatype Status = Pending | Approved | Rejected

  datatype Work = Work(
    userId: string,
    userName: string,
    campaignId: string,
    proofUrl: string,
    status: Status,
    submittedAt: int,
    reward: real)

  datatype RequestKind = AddMoney | Withdrawal

  datatype MoneyRequest = MoneyRequest(userId: string, amount: real, status: Status)
}
