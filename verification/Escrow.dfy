/** Player-to-player trades: listing, quote, escrow, item transfer, payout and refund
    (apps/web/lib/p2p-queries.ts, packages/shared/src/p2p, apps/worker/src/jobs/refund.ts).

    Each function is one atomic step on the tables, the job queue and the chain. */
module Escrow {
  import opened Wrappers
  import opened Stellar
  import Memo
  import Money

  // ---------------------------------------------------------------- rows

  datatype ListingStatus = ACTIVE | LOCKED | SOLD | CANCELLED

  datatype TradeStatus = ESCROW_PENDING | PAID | ITEM_TRANSFERRED | COMPLETED | REFUNDED | FAILED

  datatype Listing = Listing(
    studioId: string, itemId: string, sellerId: string, price: int, currency: Currency, status: ListingStatus)

  datatype Trade = Trade(
    listingId: string, buyerId: string, sellerId: string, price: int, currency: Currency,
    fee: int, net: int, status: TradeStatus, escrowTxHash: Option<string>, payoutTxHash: Option<string>)

  /** A player's row for an item. */
  datatype Slot = Slot(playerId: string, itemId: string)

  datatype Ownership = Ownership(quantity: int, studioId: string, lockedFor: Option<string>)

  datatype EntryType = ESCROW_IN | PAYOUT | REFUND

  datatype Entry = Entry(
    kind: EntryType, tradeId: string, txHash: string, source: string, dest: string, amount: int, asset: Asset)

  datatype Job = TransferJob(tradeId: string) | RefundJob(tradeId: string) | WebhookJob(tradeId: string)

  /** `Paying`: all checks passed, the payment is about to be sent. */
  datatype JobState = Waiting | Paying | Sent(txHash: string) | Finished

  /** A payment that left the platform account on behalf of a trade. */
  datatype Transfer = Transfer(kind: EntryType, tradeId: string, dest: string, asset: Asset, amount: int, memo: string)

  datatype World = World(
    env: Env, horizon: Horizon, feeBps: int,
    itemStudio: map<string, string>, studioHasApi: set<string>, wallets: map<string, string>)

  datatype Store = Store(
    listings: map<string, Listing>, trades: map<string, Trade>, ownership: map<Slot, Ownership>,
    ledger: seq<Entry>, queue: map<Job, JobState>, sent: seq<Transfer>)

  /** A player's wallet address; empty counts as missing. */
  function Wallet(w: World, playerId: string): string
  {
    if playerId in w.wallets then w.wallets[playerId] else ""
  }

  // ---------------------------------------------------------------- ownership

  /** Overwrite a quantity with what the game reports; the lock stays. */
  function Refresh(s: Store, slot: Slot, studioId: string, quantity: int): Store
  {
    s.(ownership := s.ownership[slot :=
         Ownership(quantity, studioId, if slot in s.ownership then s.ownership[slot].lockedFor else None)])
  }

  // ---------------------------------------------------------------- listing and quoting

  datatype ListOutcome = Listed(listingId: string) | ItemNotFound | OwnershipUnknown | NotOwned

  /** `game` is the quantity the game API reports, None when the request fails. The refreshed quantity
      stays even if the listing is refused. Whatever lock the row had is overwritten. */
  function CreateListing(w: World, s: Store, sellerId: string, itemId: string, price: int, currency: Currency,
                         game: Option<nat>, newId: string): (Store, ListOutcome)
  {
    if itemId !in w.itemStudio then (s, ItemNotFound)
    else
      var studioId := w.itemStudio[itemId];
      if studioId !in w.studioHasApi || game.None? then (s, OwnershipUnknown)
      else
        var slot := Slot(sellerId, itemId);
        var t := Refresh(s, slot, studioId, game.value);
        if game.value < 1 then (t, NotOwned)
        else
          (t.(listings := t.listings[newId := Listing(studioId, itemId, sellerId, price, currency, ACTIVE)],
              ownership := t.ownership[slot := t.ownership[slot].(lockedFor := Some(newId))]),
           Listed(newId))
  }

  datatype QuoteOutcome = Quoted(tradeId: string, payment: Payment) | QuoteRefused(reason: string) | QuoteLost(tradeId: string)

  function Lock(ownership: map<Slot, Ownership>, slot: Slot, listingId: string): map<Slot, Ownership>
  {
    if slot in ownership then ownership[slot := ownership[slot].(lockedFor := Some(listingId))] else ownership
  }

  function NewTrade(w: World, listingId: string, l: Listing, buyerId: string): Trade
  {
    Trade(listingId, buyerId, l.sellerId, l.price, l.currency,
          Money.FeeStroops(l.price, w.feeBps), Money.NetStroops(l.price, w.feeBps), ESCROW_PENDING, None, None)
  }

  function OfferFor(w: World, tradeId: string, t: Trade): Payment
  {
    PaymentOf(w.env.receivingAccount, AssetOf(t.currency, w.env), t.price, tradeId)
  }

  function OpenTrade(w: World, s: Store, buyerId: string, listingId: string, newId: string): Store
    requires listingId in s.listings
  {
    var l := s.listings[listingId];
    s.(listings := s.listings[listingId := l.(status := LOCKED)],
       ownership := Lock(s.ownership, Slot(l.sellerId, l.itemId), listingId),
       trades := s.trades[newId := NewTrade(w, listingId, l, buyerId)])
  }

  /** The payment is built after the transaction: if that fails the trade is open all the same. */
  function CreateTradeQuote(w: World, s: Store, buyerId: string, listingId: string, newId: string, built: bool): (Store, QuoteOutcome)
  {
    if listingId !in s.listings then (s, QuoteRefused("listing not found"))
    else
      var l := s.listings[listingId];
      if l.status != ACTIVE then (s, QuoteRefused("listing not available"))
      else if l.sellerId == buyerId then (s, QuoteRefused("cannot buy your own listing"))
      else
        (OpenTrade(w, s, buyerId, listingId, newId),
         if built then Quoted(newId, OfferFor(w, newId, NewTrade(w, listingId, l, buyerId))) else QuoteLost(newId))
  }

  // ---------------------------------------------------------------- escrow

  datatype VerifyOutcome = Escrowed | Already | Rejected(reason: string) | VerifyThrew

  function Demand(w: World, tradeId: string, t: Trade): Expectation
  {
    ExpectationOf(w.env.receivingAccount, AssetOf(t.currency, w.env), t.price, tradeId)
  }

  function UsersOf(trades: map<string, Trade>, txHash: string): set<string>
  {
    set t | t in trades && trades[t].escrowTxHash == Some(txHash)
  }

  function Add(queue: map<Job, JobState>, job: Job): map<Job, JobState>
  {
    if job in queue then queue else queue[job := Waiting]
  }

  function Deposit(w: World, s: Store, tradeId: string, txHash: string): Store
    requires tradeId in s.trades
  {
    var t := s.trades[tradeId];
    s.(trades := s.trades[tradeId := t.(status := PAID, escrowTxHash := Some(txHash))],
       ledger := s.ledger + [Entry(ESCROW_IN, tradeId, txHash, "", w.env.receivingAccount, t.price, AssetOf(t.currency, w.env))],
       queue := Add(s.queue, TransferJob(tradeId)))
  }

  /** `verifyAndAdvanceP2PTrade`, as one transaction. */
  function Verify(w: World, s: Store, tradeId: string, txHash: string): (Store, VerifyOutcome)
  {
    if tradeId !in s.trades then (s, VerifyThrew)
    else
      var t := s.trades[tradeId];
      if t.status != ESCROW_PENDING then (s, Already)
      else
        match VerifyPayment(w.horizon, txHash, Demand(w, tradeId, t))
        case Threw => (s, VerifyThrew)
        case Refused(reason) => (s, Rejected(reason))
        case Verified(_, _, _, _) =>
          if UsersOf(s.trades, txHash) - {tradeId} != {} then (s, Rejected("escrow txHash already used"))
          else (Deposit(w, s, tradeId, txHash), Escrowed)
  }

  // ---------------------------------------------------------------- item transfer and payout

  predicate InState(s: Store, job: Job, state: JobState) { job in s.queue && s.queue[job] == state }

  function SetJob(s: Store, job: Job, state: JobState): Store { s.(queue := s.queue[job := state]) }

  /** Where the transfer job throws before it calls the game. */
  predicate TransferThrows(w: World, s: Store, tradeId: string)
  {
    tradeId !in s.trades || s.trades[tradeId].status != PAID
    || s.trades[tradeId].listingId !in s.listings
    || s.listings[s.trades[tradeId].listingId].studioId !in w.studioHasApi
  }

  /** The transfer job up to the payment; `moved` is the game's answer. */
  function TransferBegin(w: World, s: Store, tradeId: string, moved: bool): Store
  {
    if TransferThrows(w, s, tradeId) then SetJob(s, TransferJob(tradeId), Finished)
    else if !moved then s.(queue := Add(s.queue, RefundJob(tradeId))[TransferJob(tradeId) := Finished])
    else if Wallet(w, s.trades[tradeId].sellerId) == "" then SetJob(s, TransferJob(tradeId), Finished)
    else SetJob(s, TransferJob(tradeId), Paying)
  }

  function Send(w: World, s: Store, kind: EntryType, tradeId: string, dest: string, amount: int, prefix: string,
                job: Job, txHash: string): Store
    requires tradeId in s.trades
  {
    SetJob(s, job, Sent(txHash))
    .(sent := s.sent + [Transfer(kind, tradeId, dest, AssetOf(s.trades[tradeId].currency, w.env), amount,
                                 Memo.Truncated(prefix + tradeId))])
  }

  function TransferSend(w: World, s: Store, tradeId: string, txHash: string): Store
    requires tradeId in s.trades
  {
    var t := s.trades[tradeId];
    Send(w, s, PAYOUT, tradeId, Wallet(w, t.sellerId), t.net, "p2p-payout:", TransferJob(tradeId), txHash)
  }

  /** Take one unit from the seller's row if it is still locked for this listing. */
  function TakeUnit(ownership: map<Slot, Ownership>, slot: Slot, listingId: string): map<Slot, Ownership>
  {
    if slot in ownership && ownership[slot].lockedFor == Some(listingId)
    then ownership[slot := ownership[slot].(quantity := ownership[slot].quantity - 1, lockedFor := None)]
    else ownership
  }

  function GiveUnit(ownership: map<Slot, Ownership>, slot: Slot, studioId: string): map<Slot, Ownership>
  {
    ownership[slot :=
      if slot in ownership then ownership[slot].(quantity := ownership[slot].quantity + 1)
      else Ownership(1, studioId, None)]
  }

  function MoveUnit(ownership: map<Slot, Ownership>, t: Trade, l: Listing): map<Slot, Ownership>
  {
    GiveUnit(TakeUnit(ownership, Slot(t.sellerId, l.itemId), t.listingId), Slot(t.buyerId, l.itemId), l.studioId)
  }

  /** The closing transaction of the transfer job. */
  function TransferCommit(w: World, s: Store, tradeId: string, txHash: string): Store
    requires tradeId in s.trades && s.trades[tradeId].listingId in s.listings
  {
    var t := s.trades[tradeId];
    var l := s.listings[t.listingId];
    s.(trades := s.trades[tradeId := t.(status := COMPLETED, payoutTxHash := Some(txHash))],
       listings := s.listings[t.listingId := l.(status := SOLD)],
       ownership := MoveUnit(s.ownership, t, l),
       ledger := s.ledger + [Entry(PAYOUT, tradeId, txHash, w.env.receivingAccount, Wallet(w, t.sellerId), t.net,
                                   AssetOf(t.currency, w.env))],
       queue := Add(s.queue[TransferJob(tradeId) := Finished], WebhookJob(tradeId)))
  }

  // ---------------------------------------------------------------- refund

  /** The refund job looks at the buyer's wallet only, not at the trade's status. */
  function RefundBegin(w: World, s: Store, tradeId: string): Store
  {
    SetJob(s, RefundJob(tradeId),
           if tradeId !in s.trades || Wallet(w, s.trades[tradeId].buyerId) == "" then Finished else Paying)
  }

  function RefundSend(w: World, s: Store, tradeId: string, txHash: string): Store
    requires tradeId in s.trades
  {
    var t := s.trades[tradeId];
    Send(w, s, REFUND, tradeId, Wallet(w, t.buyerId), t.price, "refund:", RefundJob(tradeId), txHash)
  }

  /** The closing transaction of the refund job: the listing is not touched. */
  function RefundCommit(w: World, s: Store, tradeId: string, txHash: string): Store
    requires tradeId in s.trades
  {
    var t := s.trades[tradeId];
    s.(trades := s.trades[tradeId := t.(status := REFUNDED)],
       ledger := s.ledger + [Entry(REFUND, tradeId, txHash, w.env.receivingAccount, Wallet(w, t.buyerId), t.price,
                                   AssetOf(t.currency, w.env))],
       queue := s.queue[RefundJob(tradeId) := Finished])
  }

  // ---------------------------------------------------------------- runs

  datatype Event =
    | Refreshed(slot: Slot, studioId: string, quantity: nat)
    | Offering(sellerId: string, itemId: string, price: int, currency: Currency, game: Option<nat>, newId: string)
    | Quoting(buyerId: string, listingId: string, newId: string, built: bool)
    | Verifying(tradeId: string, txHash: string)
    | TransferStarted(tradeId: string, moved: bool)
    | TransferSent(tradeId: string, txHash: string)
    | TransferCommitted(tradeId: string)
    | RefundStarted(tradeId: string)
    | RefundSent(tradeId: string, txHash: string)
    | RefundCommitted(tradeId: string)
    | JobGivenUp(job: Job)
    | JobRemoved(job: Job)

  predicate Enabled(w: World, s: Store, e: Event)
  {
    match e
    case Refreshed(_, _, _) => true
    case Offering(_, _, price, _, _, newId) => 0 <= price && newId !in s.listings
    case Quoting(_, _, newId, _) => newId !in s.trades
    case Verifying(_, _) => true
    case TransferStarted(t, _) => InState(s, TransferJob(t), Waiting)
    case TransferSent(t, _) => InState(s, TransferJob(t), Paying) && t in s.trades
    case TransferCommitted(t) =>
      TransferJob(t) in s.queue && s.queue[TransferJob(t)].Sent? && t in s.trades && s.trades[t].listingId in s.listings
    case RefundStarted(t) => InState(s, RefundJob(t), Waiting)
    case RefundSent(t, _) => InState(s, RefundJob(t), Paying) && t in s.trades
    case RefundCommitted(t) => RefundJob(t) in s.queue && s.queue[RefundJob(t)].Sent? && t in s.trades
    case JobGivenUp(job) => job in s.queue
    case JobRemoved(job) => InState(s, job, Finished)
  }

  function Step(w: World, s: Store, e: Event): Store
  {
    if !Enabled(w, s, e) then s else
      match e
      case Refreshed(slot, studioId, quantity) => Refresh(s, slot, studioId, quantity)
      case Offering(seller, item, price, currency, game, newId) => CreateListing(w, s, seller, item, price, currency, game, newId).0
      case Quoting(buyer, listing, newId, built) => CreateTradeQuote(w, s, buyer, listing, newId, built).0
      case Verifying(t, txHash) => Verify(w, s, t, txHash).0
      case TransferStarted(t, moved) => TransferBegin(w, s, t, moved)
      case TransferSent(t, txHash) => TransferSend(w, s, t, txHash)
      case TransferCommitted(t) => TransferCommit(w, s, t, s.queue[TransferJob(t)].txHash)
      case RefundStarted(t) => RefundBegin(w, s, t)
      case RefundSent(t, txHash) => RefundSend(w, s, t, txHash)
      case RefundCommitted(t) => RefundCommit(w, s, t, s.queue[RefundJob(t)].txHash)
      case JobGivenUp(job) => SetJob(s, job, Finished)
      case JobRemoved(job) => s.(queue := s.queue - {job})
  }

  function Run(w: World, s: Store, events: seq<Event>): Store
  {
    if events == [] then s else Step(w, Run(w, s, events[..|events| - 1]), events[|events| - 1])
  }
}
