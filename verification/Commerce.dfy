/** Orders, payouts and referrals as a state machine over the database, the job queue and the chain.

    Each function below is one atomic step: a database transaction, a payment sent, or a job
    queue operation. `CommerceDb` runs the steps imperatively, `CommerceInvariants` says what
    every sequence of them keeps. */
module Commerce {
  import opened Wrappers
  import opened Stellar
  import Memo
  import Money
  import P = Promotions

  // ---------------------------------------------------------------- rows

  datatype PaymentStatus = PENDING | PAID | FAILED | REFUNDED

  datatype Order = Order(
    studioId: string, itemId: string, playerId: string, quantity: int, currency: Currency,
    gross: int, discount: int, fee: int, net: int,
    promotionId: Option<string>, referralCodeUsed: Option<string>,
    txHash: Option<string>, status: PaymentStatus, createdAt: int)
  {
    /** What the buyer is asked to pay. */
    function Due(): int { gross - discount }
  }

  datatype Item = Item(
    studioId: string, price: int, currency: Currency, stock: Option<int>, isActive: bool, isListed: bool)

  datatype Studio = Studio(
    isActive: bool, feeBps: int, payoutWallet: Option<string>,
    rewardAmount: Option<int>, rewardCurrency: Option<Currency>)

  datatype Player = Player(wallet: string, referredBy: Option<string>)

  /** `INVITED` is the PENDING of the schema, whose name the payment status takes here. */
  datatype ReferralStatus = INVITED | QUALIFIED | REWARDED | EXPIRED

  datatype Referral = Referral(
    code: string, referrerId: string, refereeId: Option<string>, status: ReferralStatus,
    qualifyingOrderId: Option<string>, studioId: Option<string>,
    rewardAmount: Option<int>, rewardCurrency: Option<Currency>, rewardTxHash: Option<string>)

  datatype EntryType = SALE_IN | PAYOUT_OUT | REFERRAL_REWARD

  /** A ledger entry; `subject` is the order, or for a reward the referral. */
  datatype Entry = Entry(
    kind: EntryType, subject: string, txHash: string, source: string, dest: string, amount: int, asset: Asset)

  datatype Job = PayoutJob(orderId: string) | WebhookJob(orderId: string) | RewardJob(referralId: string)

  /** A job's id stays in the queue from `add` until a finished job is removed. */
  datatype JobState = Waiting | Sending | Sent(txHash: string) | Finished

  /** A payment that left the platform account for an order or, as a reward, for a referral. */
  datatype Transfer = Transfer(
    kind: EntryType, subject: string, dest: string, asset: Asset, amount: int, memo: string)

  /** A run of the referral reward job between its database accesses. */
  datatype Rewarding =
    | Waiving(referralId: string)
    | Paying(referralId: string, amount: int, currency: Currency, dest: string)
    | Paid(referralId: string, amount: int, currency: Currency, dest: string, txHash: string)

  /** What the steps read and never write. */
  datatype World = World(
    env: Env, horizon: Horizon, studios: map<string, Studio>,
    promotions: map<string, P.Promotion>, defaultReward: int, defaultRewardCurrency: Option<Currency>)

  datatype Store = Store(
    orders: map<string, Order>, usage: map<string, int>, clock: int,
    players: map<string, Player>, referrals: map<string, Referral>, ledger: seq<Entry>,
    queue: map<Job, JobState>, deliveries: set<string>, workers: map<nat, Rewarding>, sent: seq<Transfer>)

  // ---------------------------------------------------------------- quoting

  /** Callers pass positive quantities (packages/shared/src/zod/checkout.ts:5). */
  datatype QuoteInput = QuoteInput(
    playerId: string, itemId: string, quantity: Option<int>, currency: Option<Currency>,
    referralCode: Option<string>, promotionCode: Option<string>)
  {
    function Quantity(): int { if quantity.Some? then quantity.value else 1 }
  }

  /** What a quote takes from outside: the time, the item's row at that time, the id of the row it may insert,
      the database's answer to the candidate query, and whether the payment could be built. Items may change
      between any two quotes. */
  datatype Surroundings = Surroundings(now: int, item: Option<Item>, newId: string, candidates: seq<string>, built: bool)

  datatype QuoteError =
    | ItemNotFound | StudioNotFound | StudioInactive | ItemUnavailable | InsufficientStock
    | InvalidPromotionCode | PaymentNotBuilt

  datatype QuoteOutcome = Quoted(orderId: string, order: Order, payment: Payment) | QuoteFailed(error: QuoteError)

  datatype QuoteKey = QuoteKey(playerId: string, itemId: string, quantity: int, currency: Currency)

  function KeyOf(o: Order): QuoteKey { QuoteKey(o.playerId, o.itemId, o.quantity, o.currency) }

  function PendingIds(orders: map<string, Order>, key: QuoteKey): set<string>
  {
    set id | id in orders && orders[id].status == PENDING && KeyOf(orders[id]) == key
  }

  predicate IsNewest(orders: map<string, Order>, key: QuoteKey, id: string)
  {
    && id in PendingIds(orders, key)
    && forall j :: j in PendingIds(orders, key) ==> orders[j].createdAt <= orders[id].createdAt
  }

  lemma {:induction false} NewestOf(orders: map<string, Order>, ids: set<string>)
    requires ids != {} && ids <= orders.Keys
    ensures exists id :: id in ids && forall j :: j in ids ==> orders[j].createdAt <= orders[id].createdAt
    decreases |ids|
  {
    var a :| a in ids;
    if ids == {a} {
      assert forall j :: j in ids ==> orders[j].createdAt <= orders[a].createdAt;
    } else {
      assert |ids - {a}| < |ids|;
      NewestOf(orders, ids - {a});
      var b :| b in ids - {a} && forall j :: j in ids - {a} ==> orders[j].createdAt <= orders[b].createdAt;
      var id := if orders[a].createdAt <= orders[b].createdAt then b else a;
      assert id in ids && forall j :: j in ids ==> orders[j].createdAt <= orders[id].createdAt;
    }
  }

  ghost function Newest(orders: map<string, Order>, key: QuoteKey): (id: string)
    requires PendingIds(orders, key) != {}
    ensures IsNewest(orders, key, id)
  {
    NewestOf(orders, PendingIds(orders, key));
    assert exists i :: IsNewest(orders, key, i) by {
      var i :| i in PendingIds(orders, key) && forall j :: j in PendingIds(orders, key) ==> orders[j].createdAt <= orders[i].createdAt;
      assert IsNewest(orders, key, i);
    }
    var id :| IsNewest(orders, key, id);
    id
  }

  /** The orders that name a promotion. */
  function Named(orders: map<string, Order>, promotion: string): set<string>
  {
    set id | id in orders && orders[id].promotionId == Some(promotion)
  }

  /** Delete orders and give back the promotion uses they held. */
  function Drop(s: Store, ids: set<string>): Store
  {
    s.(orders := s.orders - ids, usage := UsageWithout(s.orders, s.usage, ids))
  }

  function UsageWithout(orders: map<string, Order>, usage: map<string, int>, ids: set<string>): map<string, int>
  {
    map p | p in usage :: usage[p] - |Named(orders, p) * ids|
  }

  predicate IsCandidate(p: P.Promotion, item: Item, itemId: string)
  {
    p.studioId == item.studioId && p.isActive && (p.appliesToItemIds == [] || itemId in p.appliesToItemIds)
  }

  /** `ids` is an answer to the candidate query: every matching promotion once, in any order. */
  ghost predicate AnswersCandidateQuery(w: World, ids: seq<string>, item: Item, itemId: string)
  {
    && (forall i, j :: 0 <= i < j < |ids| ==> ids[i] != ids[j])
    && (forall p :: p in ids <==> p in w.promotions && IsCandidate(w.promotions[p], item, itemId))
  }

  /** The promotion rows as they are at the time of the query. */
  function Rows(w: World, usage: map<string, int>, ids: seq<string>): (rows: seq<P.Promotion>)
    requires forall p :: p in ids ==> p in w.promotions && p in usage
    ensures |rows| == |ids|
    ensures forall i :: 0 <= i < |ids| ==> rows[i] == w.promotions[ids[i]].(usageCount := usage[ids[i]])
  {
    if ids == [] then [] else [w.promotions[ids[0]].(usageCount := usage[ids[0]])] + Rows(w, usage, ids[1..])
  }

  predicate HasPaidOrder(orders: map<string, Order>, playerId: string)
  {
    exists id :: id in orders && orders[id].playerId == playerId && orders[id].status == PAID
  }

  function PurchaseOf(input: QuoteInput, item: Item, orders: map<string, Order>, now: int): P.Purchase
  {
    P.Purchase(input.itemId, input.Quantity(), item.price, now,
               HasPaidOrder(orders, input.playerId), input.promotionCode)
  }

  function NewOrder(w: World, input: QuoteInput, item: Item, discount: P.Discount, clock: int): Order
    requires item.studioId in w.studios
  {
    var gross := item.price * input.Quantity();
    var bps := w.studios[item.studioId].feeBps;
    Order(item.studioId, input.itemId, input.playerId, input.Quantity(), CurrencyOf(input, item),
          gross, discount.amount,
          Money.FeeStroops(gross - discount.amount, bps), Money.NetStroops(gross - discount.amount, bps),
          discount.promotionId, input.referralCode, None, PENDING, clock)
  }

  function CurrencyOf(input: QuoteInput, item: Item): Currency
  {
    if input.currency.Some? then input.currency.value else item.currency
  }

  /** The payment offered for an order: its id is the memo. */
  function OfferFor(w: World, orderId: string, o: Order): Payment
  {
    PaymentOf(w.env.receivingAccount, AssetOf(o.currency, w.env), o.Due(), orderId)
  }

  /** The checks before anything is written. */
  function Precheck(w: World, input: QuoteInput, now: Surroundings): Option<QuoteError>
  {
    if now.item.None? then Some(ItemNotFound)
    else
      var item := now.item.value;
      if item.studioId !in w.studios then Some(StudioNotFound)
      else if !w.studios[item.studioId].isActive then Some(StudioInactive)
      else if !item.isActive || !item.isListed then Some(ItemUnavailable)
      else if item.stock.Some? && input.Quantity() > item.stock.value then Some(InsufficientStock)
      else None
  }

  function KeyFor(w: World, input: QuoteInput, now: Surroundings): QuoteKey
    requires Precheck(w, input, now).None?
  {
    QuoteKey(input.playerId, input.itemId, input.Quantity(), CurrencyOf(input, now.item.value))
  }

  ghost predicate ValidQuote(w: World, s: Store, input: QuoteInput, now: Surroundings)
  {
    && input.Quantity() > 0
    && now.newId !in s.orders
    && (now.item.Some? ==> 0 <= now.item.value.price)
    && (Precheck(w, input, now).None? ==>
          AnswersCandidateQuery(w, now.candidates, now.item.value, input.itemId))
  }

  function BestFor(w: World, s: Store, input: QuoteInput, now: Surroundings): P.Discount
    requires Precheck(w, input, now).None?
    requires s.usage.Keys == w.promotions.Keys && forall p :: p in now.candidates ==> p in w.promotions
  {
    P.Best(Rows(w, s.usage, now.candidates), PurchaseOf(input, now.item.value, s.orders, now.now))
  }

  /** One more use of the chosen promotion. */
  function Used(usage: map<string, int>, promotionId: Option<string>): map<string, int>
  {
    if promotionId.Some? && promotionId.value in usage
    then usage[promotionId.value := usage[promotionId.value] + 1] else usage
  }

  function Insert(s: Store, newId: string, order: Order): Store
  {
    s.(orders := s.orders[newId := order], usage := Used(s.usage, order.promotionId), clock := s.clock + 1)
  }

  /** Insert a new order with the given discount on top of `s`; a failure restores `before`. */
  function QuoteWith(w: World, before: Store, s: Store, input: QuoteInput, now: Surroundings, best: P.Discount): (Store, QuoteOutcome)
    requires Precheck(w, input, now).None?
  {
    if P.Supplied(input.promotionCode) && best.promotionId.None? then (before, QuoteFailed(InvalidPromotionCode))
    else if !now.built then (before, QuoteFailed(PaymentNotBuilt))
    else
      var order := NewOrder(w, input, now.item.value, best, s.clock);
      (Insert(s, now.newId, order), Quoted(now.newId, order, OfferFor(w, now.newId, order)))
  }

  function QuoteFresh(w: World, before: Store, s: Store, input: QuoteInput, now: Surroundings): (Store, QuoteOutcome)
    requires Precheck(w, input, now).None?
    requires s.usage.Keys == w.promotions.Keys && forall p :: p in now.candidates ==> p in w.promotions
  {
    QuoteWith(w, before, s, input, now, BestFor(w, s, input, now))
  }

  /** `createOrderQuote`, as one transaction. */
  ghost function Quote(w: World, s: Store, input: QuoteInput, now: Surroundings): (Store, QuoteOutcome)
    requires s.usage.Keys == w.promotions.Keys && ValidQuote(w, s, input, now)
  {
    if Precheck(w, input, now).Some? then (s, QuoteFailed(Precheck(w, input, now).value))
    else
      var pending := PendingIds(s.orders, KeyFor(w, input, now));
      if pending == {} then QuoteFresh(w, s, s, input, now)
      else
        var newest := Newest(s.orders, KeyFor(w, input, now));
        if P.Supplied(input.promotionCode) then QuoteFresh(w, s, Drop(s, {newest}), input, now)
        else if !now.built then (s, QuoteFailed(PaymentNotBuilt))
        else (Drop(s, pending - {newest}),
              Quoted(newest, s.orders[newest], OfferFor(w, newest, s.orders[newest])))
  }

  // ---------------------------------------------------------------- settling

  datatype Settlement =
    | Settled(orderId: string, referralId: Option<string>)
    | Already(orderId: string)
    | Rejected(reason: string)
    | SettleThrew

  /** What settlement demands of the payment for an order. */
  function Demand(w: World, orderId: string, o: Order): Expectation
  {
    ExpectationOf(w.env.receivingAccount, AssetOf(o.currency, w.env), o.Due(), orderId)
  }

  function UsersOf(orders: map<string, Order>, txHash: string): set<string>
  {
    set id | id in orders && orders[id].txHash == Some(txHash)
  }

  /** Referrals of a referee that have not qualified yet. */
  function OpenReferrals(referrals: map<string, Referral>, playerId: string): set<string>
  {
    set r | r in referrals && referrals[r].refereeId == Some(playerId) && referrals[r].status == INVITED
  }

  ghost function QualifyingReferral(s: Store, orderId: string): Option<string>
    requires orderId in s.orders
  {
    var playerId := s.orders[orderId].playerId;
    var earlier := exists id :: id in s.orders && id != orderId && s.orders[id].playerId == playerId && s.orders[id].status == PAID;
    var open := OpenReferrals(s.referrals, playerId);
    if earlier || open == {} then None else
      var r :| r in open;
      Some(r)
  }

  function Qualified(r: Referral, orderId: string, studioId: string): Referral
  {
    r.(status := QUALIFIED, qualifyingOrderId := Some(orderId), studioId := Some(studioId))
  }

  /** The writes for a payment that was accepted: the sale is recorded at its gross amount. */
  function MarkPaid(w: World, s: Store, orderId: string, txHash: string, asset: Asset, referral: Option<string>): Store
    requires orderId in s.orders && (referral.Some? ==> referral.value in s.referrals)
  {
    var o := s.orders[orderId];
    s.(orders := s.orders[orderId := o.(status := PAID, txHash := Some(txHash))],
       ledger := s.ledger + [Entry(SALE_IN, orderId, txHash, "", w.env.receivingAccount, o.gross, asset)],
       referrals :=
         if referral.None? then s.referrals
         else s.referrals[referral.value := Qualified(s.referrals[referral.value], orderId, o.studioId)])
  }

  /** The transaction of `verifyAndAdvanceOrder`. */
  ghost function Settle(w: World, s: Store, orderId: string, txHash: string): (Store, Settlement)
  {
    if orderId !in s.orders then (s, SettleThrew)
    else
      var o := s.orders[orderId];
      if o.status == PAID then (s, Already(orderId))
      else
        match VerifyPayment(w.horizon, txHash, Demand(w, orderId, o))
        case Threw => (s, SettleThrew)
        case Refused(reason) => (s, Rejected(reason))
        case Verified(_, _, _, asset) =>
          if UsersOf(s.orders, txHash) - {orderId} != {} then (s, Rejected("txHash already used"))
          else
            var referral := QualifyingReferral(s, orderId);
            (MarkPaid(w, s, orderId, txHash, asset, referral), Settled(orderId, referral))
  }

  /** `add` with a job id: ignored while the id is still in the queue. */
  function Add(queue: map<Job, JobState>, job: Job): map<Job, JobState>
  {
    if job in queue then queue else queue[job := Waiting]
  }

  function EntryCount(ledger: seq<Entry>, kind: EntryType, subject: string): nat
  {
    if ledger == [] then 0
    else
      EntryCount(ledger[..|ledger| - 1], kind, subject) +
      (if ledger[|ledger| - 1].kind == kind && ledger[|ledger| - 1].subject == subject then 1 else 0)
  }

  /** After PAID or ALREADY: add the jobs whose records are still missing. Check and add are one step. */
  function Enqueue(s: Store, orderId: string, referralId: Option<string>): Store
  {
    var q0 := s.queue;
    var q1 := if EntryCount(s.ledger, PAYOUT_OUT, orderId) > 0 then q0 else Add(q0, PayoutJob(orderId));
    var q2 := if orderId in s.deliveries then q1 else Add(q1, WebhookJob(orderId));
    s.(queue := if referralId.None? then q2 else Add(q2, RewardJob(referralId.value)))
  }

  /** One call of `verifyAndAdvanceOrder`: the transaction, then the missing jobs. */
  ghost function Advance(w: World, s: Store, orderId: string, txHash: string): (Store, Settlement)
  {
    var (t, out) := Settle(w, s, orderId, txHash);
    match out
    case Settled(_, referralId) => (Enqueue(t, orderId, referralId), out)
    case Already(_) => (Enqueue(t, orderId, None), out)
    case _ => (t, out)
  }

  // ---------------------------------------------------------------- payout job

  function PayoutTransfer(w: World, orderId: string, o: Order, wallet: string): Transfer
  {
    Transfer(PAYOUT_OUT, orderId, wallet, AssetOf(o.currency, w.env), o.net, Memo.Truncated("payout:" + orderId))
  }

  /** The studio's wallet when the order may be paid out; None where the job throws. */
  function PayoutWallet(w: World, s: Store, orderId: string): Option<string>
  {
    if orderId !in s.orders || s.orders[orderId].status != PAID then None
    else if s.orders[orderId].studioId !in w.studios then None
    else if w.studios[s.orders[orderId].studioId].payoutWallet == Some("") then None
    else w.studios[s.orders[orderId].studioId].payoutWallet
  }

  predicate InState(s: Store, job: Job, state: JobState) { job in s.queue && s.queue[job] == state }

  function SetJob(s: Store, job: Job, state: JobState): Store { s.(queue := s.queue[job := state]) }

  /** The worker takes the job and reads the order. */
  function PayoutBegin(w: World, s: Store, orderId: string): Store
  {
    SetJob(s, PayoutJob(orderId), if PayoutWallet(w, s, orderId).None? then Finished else Sending)
  }

  function PayoutSend(w: World, s: Store, orderId: string, txHash: string): Store
    requires PayoutWallet(w, s, orderId).Some?
  {
    SetJob(s, PayoutJob(orderId), Sent(txHash))
    .(sent := s.sent + [PayoutTransfer(w, orderId, s.orders[orderId], PayoutWallet(w, s, orderId).value)])
  }

  function PayoutEntry(w: World, orderId: string, o: Order, wallet: string, txHash: string): Entry
  {
    Entry(PAYOUT_OUT, orderId, txHash, w.env.receivingAccount, wallet, o.net, AssetOf(o.currency, w.env))
  }

  function PayoutRecord(w: World, s: Store, orderId: string, txHash: string): Store
    requires PayoutWallet(w, s, orderId).Some?
  {
    SetJob(s, PayoutJob(orderId), Finished)
    .(ledger := s.ledger + [PayoutEntry(w, orderId, s.orders[orderId], PayoutWallet(w, s, orderId).value, txHash)])
  }

  // ---------------------------------------------------------------- referrals

  datatype BindOutcome = Bound | AlreadyBound | InvalidCode | SelfReferral | BindThrew

  function RootReferrals(referrals: map<string, Referral>, code: string): set<string>
  {
    set r | r in referrals && referrals[r].code == code && referrals[r].refereeId == None
  }

  function First8(s: string): string { if |s| <= 8 then s else s[..8] }

  predicate CodeTaken(referrals: map<string, Referral>, code: string)
  {
    exists r :: r in referrals && referrals[r].code == code
  }

  /** The bind request of a signed-in player; `root` answers the query for the referrer's row. */
  function Bind(s: Store, playerId: string, code: string, root: Option<string>, newId: string): (Store, BindOutcome)
    requires root.Some? ==> root.value in s.referrals
  {
    if root.None? then (s, InvalidCode)
    else
      var referrer := s.referrals[root.value];
      if referrer.referrerId == playerId then (s, SelfReferral)
      else if playerId in s.players && s.players[playerId].referredBy.Some? then (s, AlreadyBound)
      else if playerId !in s.players || CodeTaken(s.referrals, referrer.code + "-" + First8(playerId)) then (s, BindThrew)
      else
        (s.(players := s.players[playerId := s.players[playerId].(referredBy := Some(referrer.referrerId))],
            referrals := s.referrals[newId :=
              Referral(referrer.code + "-" + First8(playerId), referrer.referrerId, Some(playerId), INVITED,
                       None, None, None, None, None)]),
         Bound)
  }

  /** A player signs in for the first time. */
  function Join(s: Store, playerId: string, wallet: string): Store
  {
    s.(players := s.players[playerId := Player(wallet, None)])
  }

  /** A player without a code of their own gets one, unless it is taken. */
  function Invite(s: Store, referrerId: string, code: string, newId: string): Store
  {
    if (exists r :: r in s.referrals && s.referrals[r].referrerId == referrerId && s.referrals[r].refereeId.None?)
       || CodeTaken(s.referrals, code) then s
    else
      s.(referrals := s.referrals[newId := Referral(code, referrerId, None, INVITED, None, None, None, None, None)])
  }

  predicate AnswersRootQuery(s: Store, code: string, root: Option<string>)
  {
    if root.None? then RootReferrals(s.referrals, code) == {} else root.value in RootReferrals(s.referrals, code)
  }

  /** Studio override before platform default. */
  function RewardAmount(w: World, r: Referral): int
  {
    if r.studioId.Some? && r.studioId.value in w.studios && w.studios[r.studioId.value].rewardAmount.Some?
    then w.studios[r.studioId.value].rewardAmount.value else w.defaultReward
  }

  /** The studio disabled rewards explicitly. */
  predicate RewardDisabled(w: World, r: Referral)
  {
    r.studioId.Some? && r.studioId.value in w.studios && w.studios[r.studioId.value].rewardAmount == Some(0)
  }

  function RewardCurrency(w: World, orders: map<string, Order>, r: Referral): Currency
  {
    if r.studioId.Some? && r.studioId.value in w.studios && w.studios[r.studioId.value].rewardCurrency.Some?
    then w.studios[r.studioId.value].rewardCurrency.value
    else if w.defaultRewardCurrency.Some? then w.defaultRewardCurrency.value
    else if r.qualifyingOrderId.Some? && r.qualifyingOrderId.value in orders
    then orders[r.qualifyingOrderId.value].currency
    else XLM
  }

  /** The reads of one run of the reward job; None where it skips. */
  function RewardPlan(w: World, s: Store, referralId: string): Option<Rewarding>
  {
    if referralId !in s.referrals || s.referrals[referralId].status != QUALIFIED then None
    else
      var r := s.referrals[referralId];
      if r.referrerId !in s.players then None
      else if RewardDisabled(w, r) then Some(Waiving(referralId))
      else Some(Paying(referralId, RewardAmount(w, r), RewardCurrency(w, s.orders, r), s.players[r.referrerId].wallet))
  }

  function RewardBegin(w: World, s: Store, worker: nat, referralId: string): Store
  {
    if RewardPlan(w, s, referralId).None? then s
    else s.(workers := s.workers[worker := RewardPlan(w, s, referralId).value])
  }

  function First20(s: string): string { if |s| <= 20 then s else s[..20] }

  function RewardTransfer(w: World, r: string, amount: int, currency: Currency, dest: string): Transfer
  {
    Transfer(REFERRAL_REWARD, r, dest, AssetOf(currency, w.env), amount, Memo.Truncated("ref:" + First20(r)))
  }

  function RewardSend(w: World, s: Store, worker: nat, txHash: string): Store
    requires worker in s.workers && s.workers[worker].Paying?
  {
    var Paying(r, amount, currency, dest) := s.workers[worker];
    s.(workers := s.workers[worker := Paid(r, amount, currency, dest, txHash)],
       sent := s.sent + [RewardTransfer(w, r, amount, currency, dest)])
  }

  /** The asset a reward entry records: the currency's own name, not the configured asset code. */
  function RewardAsset(w: World, currency: Currency): Asset
  {
    if currency == XLM then Native else Issued("USDT", w.env.usdIssuer)
  }

  /** The closing transaction of a run: waive unconditionally, or flip and record if still qualified. */
  function RewardCommit(w: World, s: Store, worker: nat): Store
    requires worker in s.workers && !s.workers[worker].Paying?
    requires s.workers[worker].referralId in s.referrals
  {
    var r := s.workers[worker].referralId;
    var row := s.referrals[r];
    match s.workers[worker]
    case Waiving(_) =>
      s.(workers := s.workers - {worker},
         referrals := s.referrals[r := row.(status := REWARDED, rewardAmount := Some(0))])
    case Paid(_, amount, currency, dest, txHash) =>
      if row.status != QUALIFIED then s.(workers := s.workers - {worker})
      else
        s.(workers := s.workers - {worker},
           referrals := s.referrals[r := row.(status := REWARDED, rewardAmount := Some(amount),
                                              rewardCurrency := Some(currency), rewardTxHash := Some(txHash))],
           ledger := s.ledger + [Entry(REFERRAL_REWARD, r, txHash, w.env.receivingAccount, dest, amount,
                                       RewardAsset(w, currency))])
  }

  // ---------------------------------------------------------------- runs

  datatype Event =
    | Quoting(input: QuoteInput, now: Surroundings)
    | Settling(orderId: string, txHash: string)
    | Enqueuing(orderId: string, qualified: Option<string>)
    | PayingOut(orderId: string)
    | PayoutSent(orderId: string, txHash: string)
    | PayoutRecorded(orderId: string)
    | JobGivenUp(job: Job)
    | JobRemoved(job: Job)
    | WebhookRun(orderId: string)
    | Joining(playerId: string, wallet: string)
    | Inviting(playerId: string, code: string, newId: string)
    | Binding(playerId: string, code: string, root: Option<string>, newId: string)
    | RewardStarted(worker: nat, referralId: string)
    | RewardSent(worker: nat, txHash: string)
    | RewardCommitted(worker: nat)
    | RewardLost(worker: nat)

  /** When an event can happen. A job may be given up in the middle (a payment error or a crash), and
      a finished job may be removed from the queue. Any number of reward runs may overlap. */
  ghost predicate Enabled(w: World, s: Store, e: Event)
  {
    match e
    case Quoting(input, now) => s.usage.Keys == w.promotions.Keys && ValidQuote(w, s, input, now)
    case Settling(_, _) => true
    case Enqueuing(orderId, _) => orderId in s.orders && s.orders[orderId].status == PAID
    case PayingOut(orderId) => InState(s, PayoutJob(orderId), Waiting)
    case PayoutSent(orderId, _) =>
      InState(s, PayoutJob(orderId), Sending) && PayoutWallet(w, s, orderId).Some?
    case PayoutRecorded(orderId) =>
      PayoutJob(orderId) in s.queue && s.queue[PayoutJob(orderId)].Sent? && PayoutWallet(w, s, orderId).Some?
    case JobGivenUp(job) => job in s.queue
    case JobRemoved(job) => InState(s, job, Finished)
    case WebhookRun(orderId) => InState(s, WebhookJob(orderId), Waiting)
    case Joining(playerId, _) => playerId !in s.players
    case Inviting(_, _, newId) => newId !in s.referrals
    case Binding(_, code, root, newId) => AnswersRootQuery(s, code, root) && newId !in s.referrals
    case RewardStarted(worker, _) => worker !in s.workers
    case RewardSent(worker, _) => worker in s.workers && s.workers[worker].Paying?
    case RewardCommitted(worker) =>
      worker in s.workers && !s.workers[worker].Paying? && s.workers[worker].referralId in s.referrals
    case RewardLost(worker) => worker in s.workers
  }

  /** An event that cannot happen changes nothing, so every list of events is a run. */
  ghost function Step(w: World, s: Store, e: Event): Store
  {
    if !Enabled(w, s, e) then s else
      match e
      case Quoting(input, now) => Quote(w, s, input, now).0
      case Settling(orderId, txHash) => Settle(w, s, orderId, txHash).0
      case Enqueuing(orderId, referralId) => Enqueue(s, orderId, referralId)
      case PayingOut(orderId) => PayoutBegin(w, s, orderId)
      case PayoutSent(orderId, txHash) => PayoutSend(w, s, orderId, txHash)
      case PayoutRecorded(orderId) => PayoutRecord(w, s, orderId, s.queue[PayoutJob(orderId)].txHash)
      case JobGivenUp(job) => SetJob(s, job, Finished)
      case JobRemoved(job) => s.(queue := s.queue - {job})
      case WebhookRun(orderId) => SetJob(s, WebhookJob(orderId), Finished).(deliveries := s.deliveries + {orderId})
      case Joining(playerId, wallet) => Join(s, playerId, wallet)
      case Inviting(playerId, code, newId) => Invite(s, playerId, code, newId)
      case Binding(playerId, code, root, newId) => Bind(s, playerId, code, root, newId).0
      case RewardStarted(worker, referralId) => RewardBegin(w, s, worker, referralId)
      case RewardSent(worker, txHash) => RewardSend(w, s, worker, txHash)
      case RewardCommitted(worker) => RewardCommit(w, s, worker)
      case RewardLost(worker) => s.(workers := s.workers - {worker})
  }

  ghost function Run(w: World, s: Store, events: seq<Event>): Store
  {
    if events == [] then s else Step(w, Run(w, s, events[..|events| - 1]), events[|events| - 1])
  }
}
