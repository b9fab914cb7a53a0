/**
 * The validators of src/lib/validation.ts. Parameters the source types as
 * `any` are `Json.Value`s, so its `typeof` guards are modelled; parameters
 * typed `number` are reals and `string` ones are strings. `sanitizeInput` is
 * passed in as `sanitize`.
 */
module Validation {
  import opened Json
  import opened Text
  import Wrappers
  import Entities
  import Ledger

  /** `Number.isInteger` on a number. */
  predicate IsInteger(x: real) {
    x == x.Floor as real
  }

  predicate IsAsciiAlnum(c: char) {
    IsAsciiLetter(c) || IsDigit(c)
  }

  /** `/^[a-zA-Z0-9]+$/` */
  predicate IsAlnumId(s: string) {
    |s| > 0 && forall i :: 0 <= i < |s| ==> IsAsciiAlnum(s[i])
  }

  /** `validateWalletData`: all four balances are numbers, none below zero. */
  function ValidateWalletData(data: Value): (ok: bool)
    ensures ok <==> forall f :: f in WalletFields ==> NumAtLeast(Field(data, f), 0.0)
    ensures !Truthy(data) ==> !ok
  {
    if !Truthy(data) then false
    else
      && NumAtLeast(Field(data, "earnedBalance"), 0.0)
      && NumAtLeast(Field(data, "addedBalance"), 0.0)
      && NumAtLeast(Field(data, "pendingAddMoney"), 0.0)
      && NumAtLeast(Field(data, "totalWithdrawn"), 0.0)
  }

  const WalletFields: set<string> := {"earnedBalance", "addedBalance", "pendingAddMoney", "totalWithdrawn"}

  /** `validateCampaignData`: the shape of a stored campaign record. */
  function ValidateCampaignData(data: Value): (ok: bool)
    ensures ok ==> Truthy(data) && data.Obj?
    ensures ok ==> var t := Field(data, "title"); t.Str? && 0 < |t.s| <= 100
    ensures ok ==> var d := Field(data, "description"); d.Str? && 0 < |d.s| <= 1000
    ensures ok ==> var c := Field(data, "creatorId"); c.Str? && IsAlnumId(c.s)
    ensures ok ==> var w := Field(data, "totalWorkers"); w.Num? && 0.0 < w.n <= 10000.0
    ensures ok ==> var r := Field(data, "rewardPerWorker"); r.Num? && 0.5 <= r.n <= 10000.0
    ensures ok ==> NumAtLeast(Field(data, "totalBudget"), 0.0) && NumAtLeast(Field(data, "remainingBudget"), 0.0)
    ensures ok ==> NumAtLeast(Field(data, "createdAt"), 0.0)
    ensures
      && Truthy(data)
      && (var t := Field(data, "title"); t.Str? && 0 < |t.s| <= 100)
      && (var d := Field(data, "description"); d.Str? && 0 < |d.s| <= 1000)
      && (var c := Field(data, "creatorId"); c.Str? && IsAlnumId(c.s))
      && (var w := Field(data, "totalWorkers"); w.Num? && 0.0 < w.n <= 10000.0)
      && (var r := Field(data, "rewardPerWorker"); r.Num? && 0.5 <= r.n <= 10000.0)
      && NumAtLeast(Field(data, "totalBudget"), 0.0) && NumAtLeast(Field(data, "remainingBudget"), 0.0)
      && NumAtLeast(Field(data, "createdAt"), 0.0)
      ==> ok
  {
    if !Truthy(data) then false
    else
      var title := Field(data, "title");
      var description := Field(data, "description");
      var creatorId := Field(data, "creatorId");
      var totalWorkers := Field(data, "totalWorkers");
      var reward := Field(data, "rewardPerWorker");
      && title.Str? && |title.s| > 0 && |title.s| <= 100
      && description.Str? && |description.s| > 0 && |description.s| <= 1000
      && creatorId.Str? && IsAlnumId(creatorId.s)
      && NumAtLeast(Field(data, "totalBudget"), 0.0)
      && NumAtLeast(Field(data, "remainingBudget"), 0.0)
      && totalWorkers.Num? && totalWorkers.n > 0.0 && totalWorkers.n <= 10000.0
      && reward.Num? && reward.n >= 0.5 && reward.n <= 10000.0
      && NumAtLeast(Field(data, "createdAt"), 0.0)
  }

  /** A stored campaign's reward also passes the form check `validateRewardPerWorker`. */
  lemma CampaignDataRewardPasses(data: Value)
    requires ValidateCampaignData(data)
    ensures ValidateRewardPerWorker(Field(data, "rewardPerWorker").n)
  {
  }

  /** A campaign record with the given worker count and every other field in range. */
  function CampaignRecord(totalWorkers: real): (v: Value)
    ensures v.Obj? && Field(v, "totalWorkers") == Num(totalWorkers)
  {
    Obj(map[
      "title" := Str("Survey"),
      "description" := Str("Answer five questions"),
      "creatorId" := Str("u1"),
      "totalBudget" := Num(10.0),
      "remainingBudget" := Num(10.0),
      "totalWorkers" := Num(totalWorkers),
      "rewardPerWorker" := Num(4.0),
      "createdAt" := Num(0.0)])
  }

  /**
   * `validateCampaignData` checks only the range of `totalWorkers`, so a
   * stored record with 2.5 workers passes although `validateNumberOfWorkers`
   * refuses 2.5 on the creation form.
   */
  lemma CampaignDataAllowsFractionalWorkers()
    ensures ValidateCampaignData(CampaignRecord(2.5))
    ensures !ValidateNumberOfWorkers(2.5)
  {
  }

  const TransactionTypes: set<string> := {"add_money", "withdrawal", "earning", "campaign_spend"}
  const TransactionStatuses: set<string> := {"pending", "approved", "rejected", "paid"}

  /** `validateTransactionData`: a known type and status, an amount in (0, 100000]. */
  function ValidateTransactionData(data: Value): (ok: bool)
    ensures ok <==>
      && Truthy(data)
      && Field(data, "type").Str? && Field(data, "type").s in TransactionTypes
      && Field(data, "amount").Num? && 0.0 < Field(data, "amount").n <= 100000.0
      && Field(data, "status").Str? && Field(data, "status").s in TransactionStatuses
      && NumAtLeast(Field(data, "createdAt"), 0.0)
  {
    if !Truthy(data) then false
    else
      var t := Field(data, "type");
      var amount := Field(data, "amount");
      var status := Field(data, "status");
      && t.Str? && t.s in TransactionTypes
      && amount.Num? && amount.n > 0.0 && amount.n <= 100000.0
      && status.Str? && status.s in TransactionStatuses
      && NumAtLeast(Field(data, "createdAt"), 0.0)
  }

  /**
   * The shared shape of the three free-text checks: non-empty, trimmed
   * length within [lo, hi], and unchanged by sanitisation apart from the trim.
   */
  function ValidateText(text: string, lo: nat, hi: nat, sanitize: string -> string): (ok: bool)
    ensures ok <==> lo <= |Trim(text)| <= hi && sanitize(text) == Trim(text) && text != ""
  {
    if text == "" || |Trim(text)| < lo || |Trim(text)| > hi then false
    else sanitize(text) == Trim(text)
  }

  function ValidateCampaignTitle(title: string, sanitize: string -> string): (ok: bool)
    ensures ok ==> 3 <= |Trim(title)| <= 100 && sanitize(title) == Trim(title)
    ensures |Trim(title)| < 3 || |Trim(title)| > 100 ==> !ok
  {
    ValidateText(title, 3, 100, sanitize)
  }

  function ValidateCampaignDescription(description: string, sanitize: string -> string): (ok: bool)
    ensures ok ==> 10 <= |Trim(description)| <= 2000 && sanitize(description) == Trim(description)
    ensures |Trim(description)| < 10 || |Trim(description)| > 2000 ==> !ok
  {
    ValidateText(description, 10, 2000, sanitize)
  }

  function ValidateCampaignInstructions(instructions: string, sanitize: string -> string): (ok: bool)
    ensures ok ==> 10 <= |Trim(instructions)| <= 5000 && sanitize(instructions) == Trim(instructions)
    ensures |Trim(instructions)| < 10 || |Trim(instructions)| > 5000 ==> !ok
  {
    ValidateText(instructions, 10, 5000, sanitize)
  }

  /** A title of white space only is refused, whatever the sanitiser does. */
  lemma BlankTitleRejected(title: string, sanitize: string -> string)
    requires forall k :: 0 <= k < |title| ==> IsSpace(title[k])
    ensures !ValidateCampaignTitle(title, sanitize)
  {
    TrimBlank(title);
  }

  const Categories: seq<string> := ["Social Media", "Survey", "Testing", "Content", "Other"]

  function ValidateCampaignCategory(category: string): (ok: bool)
    ensures ok <==> category in {"Social Media", "Survey", "Testing", "Content", "Other"}
  {
    category in Categories
  }

  function ValidateNumberOfWorkers(totalWorkers: real): (ok: bool)
    ensures ok <==> IsInteger(totalWorkers) && 1.0 <= totalWorkers <= 10000.0
  {
    IsInteger(totalWorkers) && totalWorkers > 0.0 && totalWorkers <= 10000.0
  }

  function ValidateRewardPerWorker(rewardPerWorker: real): (ok: bool)
    ensures ok <==> 0.5 <= rewardPerWorker <= 10000.0
  {
    rewardPerWorker >= 0.5 && rewardPerWorker <= 10000.0
  }

  /** `validateAmount`: positive, then the range of the transaction type; an unknown type fails. */
  function ValidateAmount(amount: real, kind: string): (ok: bool)
    ensures amount <= 0.0 ==> !ok
    ensures kind == "add_money" ==> (ok <==> 10.0 <= amount <= 100000.0)
    ensures kind == "withdrawal" ==> (ok <==> 500.0 <= amount <= 50000.0)
    ensures kind == "earning" || kind == "campaign_spend" ==> (ok <==> 0.0 < amount <= 100000.0)
    ensures kind !in TransactionTypes ==> !ok
  {
    if amount <= 0.0 then false
    else if kind == "add_money" then amount >= 10.0 && amount <= 100000.0
    else if kind == "withdrawal" then amount >= 500.0 && amount <= 50000.0
    else if kind == "earning" || kind == "campaign_spend" then amount <= 100000.0
    else false
  }

  /** Every acceptable withdrawal amount is also an acceptable deposit, earning and spend. */
  lemma WithdrawalRangeWithinOthers(amount: real)
    requires ValidateAmount(amount, "withdrawal")
    ensures ValidateAmount(amount, "add_money")
    ensures ValidateAmount(amount, "earning") && ValidateAmount(amount, "campaign_spend")
  {
  }

  /** `validateUserAuthorization`: both ids are non-empty strings; the role is not looked at. */
  function ValidateUserAuthorization(currentUserId: Value, targetUserId: Value, requireAdmin: bool): (ok: bool)
    ensures ok <==> currentUserId.Str? && currentUserId.s != "" && targetUserId.Str? && targetUserId.s != ""
  {
    if !Truthy(currentUserId) || !currentUserId.Str? then false
    else if !Truthy(targetUserId) || !targetUserId.Str? then false
    else true
  }

  /** The required role changes nothing. */
  lemma AuthorizationIgnoresRole(currentUserId: Value, targetUserId: Value)
    ensures ValidateUserAuthorization(currentUserId, targetUserId, true) == ValidateUserAuthorization(currentUserId, targetUserId, false)
  {
  }

  function ValidateWalletBalance(balance: real, requiredAmount: real): (ok: bool)
    ensures ok <==> 0.0 <= requiredAmount <= balance
  {
    balance >= requiredAmount && balance >= 0.0 && requiredAmount >= 0.0
  }

  const WorkStatuses: set<string> := {"pending", "approved", "rejected"}

  function ValidateWorkData(workData: Value): (ok: bool)
    ensures ok <==>
      && Truthy(workData)
      && Field(workData, "status").Str? && Field(workData, "status").s in WorkStatuses
      && Field(workData, "reward").Num? && 0.0 < Field(workData, "reward").n <= 10000.0
      && Field(workData, "userId").Str? && Field(workData, "campaignId").Str?
  {
    if !Truthy(workData) then false
    else
      var status := Field(workData, "status");
      var reward := Field(workData, "reward");
      && status.Str? && status.s in WorkStatuses
      && reward.Num? && reward.n > 0.0 && reward.n <= 10000.0
      && Field(workData, "userId").Str?
      && Field(workData, "campaignId").Str?
  }

  /** A record with the given type, amount and status, created at time zero. */
  function TransactionRecord(kind: string, amount: real, status: string): (v: Value)
    ensures v.Obj? && Field(v, "type") == Str(kind) && Field(v, "amount") == Num(amount) && Field(v, "status") == Str(status)
  {
    Obj(map["type" := Str(kind), "amount" := Num(amount), "status" := Str(status), "createdAt" := Num(0.0)])
  }

  /**
   * The record check and `validateAmount` agree on which types exist, and
   * every amount `validateAmount` accepts the record check accepts too.
   */
  lemma TransactionDataWidensAmount(data: Value)
    requires Truthy(data) && Field(data, "status").Str? && Field(data, "status").s in TransactionStatuses
    requires NumAtLeast(Field(data, "createdAt"), 0.0)
    requires Field(data, "type").Str? && Field(data, "amount").Num?
    ensures ValidateAmount(Field(data, "amount").n, Field(data, "type").s) ==> ValidateTransactionData(data)
    ensures Field(data, "type").s !in TransactionTypes ==> !ValidateTransactionData(data)
  {
  }

  /** The ranges differ: an `add_money` record of 5 is well formed, yet `validateAmount` refuses 5 for that type. */
  lemma TransactionDataAcceptsSmallDeposit()
    ensures ValidateTransactionData(TransactionRecord("add_money", 5.0, "pending"))
    ensures !ValidateAmount(5.0, "add_money")
  {
  }

  /** Every reward `validateRewardPerWorker` accepts is a valid work reward. */
  lemma RewardPerWorkerWithinWorkReward(reward: real)
    requires ValidateRewardPerWorker(reward)
    ensures 0.0 < reward <= 10000.0
  {
  }

  /** A work record with the given status and reward. */
  function WorkRecord(status: string, reward: real): (v: Value)
    ensures v.Obj? && Field(v, "status") == Str(status) && Field(v, "reward") == Num(reward)
  {
    Obj(map["status" := Str(status), "reward" := Num(reward), "userId" := Str("u1"), "campaignId" := Str("c1")])
  }

  /** The converse fails: a work rewarded 0.25 is well formed, yet no campaign form may offer 0.25. */
  lemma WorkDataAcceptsSmallReward()
    ensures ValidateWorkData(WorkRecord("pending", 0.25))
    ensures !ValidateRewardPerWorker(0.25)
  {
  }

  /**
   * `validateWalletBalance` on the added balance agrees with the debit that
   * `deductCampaignBudget` commits against the creator's wallet, except that
   * it also refuses a negative amount.
   */
  lemma WalletBalanceAgreesWithDebit(w: Entities.Wallet, amount: real)
    ensures ValidateWalletBalance(w.addedBalance, amount) <==>
              amount >= 0.0 && Ledger.DebitWallet(amount, Wrappers.Some(w)).Some?
  {
  }

  /** `validateMoneyRequestData`: a numeric amount and a string user id, then the type's range. */
  function ValidateMoneyRequestData(requestData: Value, kind: string): (ok: bool)
    ensures ok ==> Field(requestData, "amount").Num? && Field(requestData, "userId").Str?
    ensures kind != "add_money" && kind != "withdrawal" ==> !ok
  {
    if !Truthy(requestData) then false
    else
      var amount := Field(requestData, "amount");
      if !amount.Num? || !Field(requestData, "userId").Str? then false
      else if kind == "add_money" then amount.n >= 10.0 && amount.n <= 100000.0
      else if kind == "withdrawal" then amount.n >= 500.0 && amount.n <= 50000.0
      else false
  }

  /** A well-formed money request passes exactly when its amount passes `validateAmount` for its type. */
  lemma MoneyRequestAgreesWithAmount(requestData: Value, kind: string)
    requires kind == "add_money" || kind == "withdrawal"
    requires requestData.Obj? && Field(requestData, "amount").Num? && Field(requestData, "userId").Str?
    ensures ValidateMoneyRequestData(requestData, kind) == ValidateAmount(Field(requestData, "amount").n, kind)
  {
  }

  /** The form `validateCampaignCreation` receives. */
  datatype CampaignForm = CampaignForm(
    title: string,
    description: string,
    instructions: string,
    category: string,
    totalWorkers: real,
    rewardPerWorker: real,
    totalBudget: real,
    walletBalance: real)

  const TitleMessage := "Campaign title must be 3-100 characters long and not contain malicious content."
  const DescriptionMessage := "Campaign description must be 10-2000 characters long and not contain malicious content."
  const InstructionsMessage := "Campaign instructions must be 10-5000 characters long and not contain malicious content."
  const CategoryMessage := "Please select a valid campaign category."
  const WorkersMessage := "Total workers must be between 1 and 10,000."
  const RewardMessage := "Reward per worker must be between ₹0.50 and ₹10,000."
  const BalanceMessage := "Insufficient wallet balance for campaign creation."

  /** The seven messages, in the order the checks run. */
  const CreationMessages: seq<string> :=
    [TitleMessage, DescriptionMessage, InstructionsMessage, CategoryMessage, WorkersMessage, RewardMessage, BalanceMessage]

  /** The outcome of the seven checks, in the same order. */
  function CreationChecks(form: CampaignForm, sanitize: string -> string): (checks: seq<bool>)
    ensures |checks| == |CreationMessages|
  {
    [ ValidateCampaignTitle(form.title, sanitize),
      ValidateCampaignDescription(form.description, sanitize),
      ValidateCampaignInstructions(form.instructions, sanitize),
      ValidateCampaignCategory(form.category),
      ValidateNumberOfWorkers(form.totalWorkers),
      ValidateRewardPerWorker(form.rewardPerWorker),
      ValidateWalletBalance(form.walletBalance, form.totalBudget) ]
  }

  function Pick(ok: bool, message: string): seq<string> {
    if ok then [] else [message]
  }

  /** The message of every failing check among the first `k`, in check order. */
  function Failing(checks: seq<bool>, messages: seq<string>, k: nat): seq<string>
    requires |checks| == |messages| && k <= |checks|
  {
    if k == 0 then [] else Failing(checks, messages, k - 1) + Pick(checks[k - 1], messages[k - 1])
  }

  /**
   * One message per failing check: at most one per check, none iff all
   * pass, each failing check's message present and no other message.
   */
  lemma {:induction false} FailingFacts(checks: seq<bool>, messages: seq<string>, k: nat)
    requires |checks| == |messages| && k <= |checks|
    ensures |Failing(checks, messages, k)| <= k
    ensures Failing(checks, messages, k) == [] <==> forall i :: 0 <= i < k ==> checks[i]
    ensures forall i :: 0 <= i < k && !checks[i] ==> messages[i] in Failing(checks, messages, k)
    ensures forall m :: m in Failing(checks, messages, k) ==> exists i :: 0 <= i < k && !checks[i] && messages[i] == m
  {
    if k > 0 {
      FailingFacts(checks, messages, k - 1);
      var prev := Failing(checks, messages, k - 1);
      var last := Pick(checks[k - 1], messages[k - 1]);
      assert Failing(checks, messages, k) == prev + last;
      forall m | m in prev + last
        ensures exists i :: 0 <= i < k && !checks[i] && messages[i] == m
      {
        if m !in prev {
          assert !checks[k - 1] && messages[k - 1] == m;
        }
      }
    }
  }

  /** With distinct messages, a check's message is reported exactly when that check fails. */
  lemma FailingMessageIff(checks: seq<bool>, messages: seq<string>, k: nat, i: nat)
    requires |checks| == |messages| && i < k <= |checks|
    requires forall a, b :: 0 <= a < |messages| && 0 <= b < |messages| && a != b ==> messages[a] != messages[b]
    ensures messages[i] in Failing(checks, messages, k) <==> !checks[i]
  {
    FailingFacts(checks, messages, k);
  }

  /** No two of the seven messages are the same. */
  lemma CreationMessagesDistinct()
    ensures forall a, b :: 0 <= a < 7 && 0 <= b < 7 && a != b ==> CreationMessages[a] != CreationMessages[b]
  {
  }

  /** The pushes of `validateCampaignCreation`, one `if` per check in order. */
  method Collect(checks: seq<bool>) returns (errors: seq<string>)
    requires |checks| == |CreationMessages|
    ensures errors == Failing(checks, CreationMessages, 7)
  {
    errors := [];
    if !checks[0] {
      errors := errors + [TitleMessage];
    }
    assert errors == Failing(checks, CreationMessages, 1);
    if !checks[1] {
      errors := errors + [DescriptionMessage];
    }
    assert errors == Failing(checks, CreationMessages, 2);
    if !checks[2] {
      errors := errors + [InstructionsMessage];
    }
    assert errors == Failing(checks, CreationMessages, 3);
    if !checks[3] {
      errors := errors + [CategoryMessage];
    }
    assert errors == Failing(checks, CreationMessages, 4);
    if !checks[4] {
      errors := errors + [WorkersMessage];
    }
    assert errors == Failing(checks, CreationMessages, 5);
    if !checks[5] {
      errors := errors + [RewardMessage];
    }
    assert errors == Failing(checks, CreationMessages, 6);
    if !checks[6] {
      errors := errors + [BalanceMessage];
    }
  }

  /**
   * `validateCampaignCreation`: each failing check pushes its message, in
   * order; the form is valid iff nothing was pushed.
   */
  method ValidateCampaignCreation(form: CampaignForm, sanitize: string -> string)
    returns (isValid: bool, errors: seq<string>)
    ensures errors == Failing(CreationChecks(form, sanitize), CreationMessages, 7)
    ensures |errors| <= 7
    ensures isValid <==> errors == []
    ensures isValid <==> forall i :: 0 <= i < 7 ==> CreationChecks(form, sanitize)[i]
    ensures !ValidateNumberOfWorkers(form.totalWorkers) ==> WorkersMessage in errors
    ensures !ValidateWalletBalance(form.walletBalance, form.totalBudget) ==> BalanceMessage in errors
    ensures forall i :: 0 <= i < 7 ==> (CreationMessages[i] in errors <==> !CreationChecks(form, sanitize)[i])
    ensures CategoryMessage in errors <==> form.category !in Categories
  {
    var titleOk := ValidateCampaignTitle(form.title, sanitize);
    var descriptionOk := ValidateCampaignDescription(form.description, sanitize);
    var instructionsOk := ValidateCampaignInstructions(form.instructions, sanitize);
    var categoryOk := ValidateCampaignCategory(form.category);
    var workersOk := ValidateNumberOfWorkers(form.totalWorkers);
    var rewardOk := ValidateRewardPerWorker(form.rewardPerWorker);
    var balanceOk := ValidateWalletBalance(form.walletBalance, form.totalBudget);
    var checks := [titleOk, descriptionOk, instructionsOk, categoryOk, workersOk, rewardOk, balanceOk];
    assert checks == CreationChecks(form, sanitize);
    errors := Collect(checks);
    isValid := |errors| == 0;
    FailingFacts(checks, CreationMessages, 7);
    CreationMessagesDistinct();
    forall i | 0 <= i < 7
      ensures CreationMessages[i] in errors <==> !checks[i]
    {
      FailingMessageIff(checks, CreationMessages, 7, i);
    }
    assert CreationMessages[3] == CategoryMessage && CreationMessages[4] == WorkersMessage && CreationMessages[6] == BalanceMessage;
  }

}
