/** The handlers of player-to-player trades, working step by step on the tables. */
module EscrowDb {
  import opened Wrappers
  import opened Stellar
  import opened Escrow
  import opened EscrowInvariants
  import opened EscrowTerms
  import Memo
  import Money

  class Database {
    const world: World
    var listings: map<string, Listing>
    var trades: map<string, Trade>
    var ownership: map<Slot, Ownership>
    var ledger: seq<Entry>
    var queue: map<Job, JobState>
    var sent: seq<Transfer>

    ghost function Snapshot(): Store
      reads this
    {
      Store(listings, trades, ownership, ledger, queue, sent)
    }

    ghost predicate Valid()
      reads this
    {
      WorldOk(world) && Inv(world, Snapshot())
    }

    constructor (world: World, s: Store)
      requires WorldOk(world) && Inv(world, s)
      ensures this.world == world && Snapshot() == s && Valid()
    {
      this.world := world;
      listings, trades, ownership := s.listings, s.trades, s.ownership;
      ledger, queue, sent := s.ledger, s.queue, s.sent;
    }

    // -------------------------------------------------------------- listing

    method RefreshOwnership(slot: Slot, studioId: string, quantity: nat)
      modifies this`ownership
      ensures slot in ownership && ownership[slot].quantity == quantity && ownership[slot].studioId == studioId
      ensures ownership[slot].lockedFor == if slot in old(ownership) then old(ownership)[slot].lockedFor else None
      ensures ownership - {slot} == old(ownership) - {slot}
      ensures Snapshot() == Refresh(old(Snapshot()), slot, studioId, quantity)
    {
      if slot in ownership {
        ownership := ownership[slot := ownership[slot].(quantity := quantity, studioId := studioId)];
      } else {
        ownership := ownership[slot := Ownership(quantity, studioId, None)];
      }
    }

    method ListItem(sellerId: string, itemId: string, price: int, currency: Currency, game: Option<nat>, newId: string)
      returns (out: ListOutcome)
      requires Valid() && 0 <= price && newId !in listings
      modifies this`listings, this`ownership
      ensures Snapshot() == CreateListing(world, old(Snapshot()), sellerId, itemId, price, currency, game, newId).0
      ensures out == CreateListing(world, old(Snapshot()), sellerId, itemId, price, currency, game, newId).1
      ensures ListedAs(world, old(Snapshot()), Snapshot(), out, sellerId, itemId, price, currency, game, newId)
      ensures Valid()
    {
      hide TradeInv, LedgerInv, JobInv, BalanceInv, ListedAs;
      ListTerms(world, Snapshot(), sellerId, itemId, price, currency, game, newId);
      ListKeepsInv(world, Snapshot(), sellerId, itemId, price, currency, game, newId);
      if itemId !in world.itemStudio { return ItemNotFound; }
      var studioId := world.itemStudio[itemId];
      if studioId !in world.studioHasApi || game.None? { return OwnershipUnknown; }
      var slot := Slot(sellerId, itemId);
      RefreshOwnership(slot, studioId, game.value);
      if game.value < 1 { return NotOwned; }
      listings := listings[newId := Listing(studioId, itemId, sellerId, price, currency, ACTIVE)];
      ownership := ownership[slot := ownership[slot].(lockedFor := Some(newId))];
      out := Listed(newId);
    }

    // -------------------------------------------------------------- quoting

    method QuoteTrade(buyerId: string, listingId: string, newId: string, built: bool) returns (out: QuoteOutcome)
      requires Valid() && newId !in trades
      modifies this`listings, this`ownership, this`trades
      ensures Snapshot() == CreateTradeQuote(world, old(Snapshot()), buyerId, listingId, newId, built).0
      ensures out == CreateTradeQuote(world, old(Snapshot()), buyerId, listingId, newId, built).1
      ensures QuotedAs(world, old(Snapshot()), Snapshot(), out, buyerId, listingId, newId, built)
      ensures Valid()
    {
      hide TradeInv, LedgerInv, JobInv, BalanceInv, Memo.Truncated, Money.ToStellarAmount, QuotedAs;
      QuoteTerms(world, Snapshot(), buyerId, listingId, newId, built);
      QuoteKeepsInv(world, Snapshot(), buyerId, listingId, newId, built);
      if listingId !in listings { return QuoteRefused("listing not found"); }
      var listing := listings[listingId];
      if listing.status != ACTIVE { return QuoteRefused("listing not available"); }
      if listing.sellerId == buyerId { return QuoteRefused("cannot buy your own listing"); }
      var fee := Money.FeeStroops(listing.price, world.feeBps);
      var net := Money.NetStroops(listing.price, world.feeBps);

      listings := listings[listingId := listing.(status := LOCKED)];
      var slot := Slot(listing.sellerId, listing.itemId);
      if slot in ownership {
        ownership := ownership[slot := ownership[slot].(lockedFor := Some(listingId))];
      }
      var trade := Trade(listingId, buyerId, listing.sellerId, listing.price, listing.currency, fee, net,
                         ESCROW_PENDING, None, None);
      trades := trades[newId := trade];

      if !built { return QuoteLost(newId); }
      var payment := BuildPayment(world.env.receivingAccount, AssetOf(trade.currency, world.env),
                                  Money.ToStellarAmount(Money.Amount(trade.price)), newId);
      out := Quoted(newId, payment);
    }

    // -------------------------------------------------------------- escrow

    method AddJob(job: Job)
      modifies this`queue
      ensures queue == Add(old(queue), job)
    {
      if job !in queue {
        queue := queue[job := Waiting];
      }
    }

    method VerifyAndAdvanceTrade(tradeId: string, txHash: string) returns (out: VerifyOutcome)
      requires Valid()
      modifies this`trades, this`ledger, this`queue
      ensures Snapshot() == Verify(world, old(Snapshot()), tradeId, txHash).0
      ensures out == Verify(world, old(Snapshot()), tradeId, txHash).1
      ensures DepositedAs(world, old(Snapshot()), Snapshot(), out, tradeId, txHash)
      ensures Valid()
    {
      hide TradeInv, LedgerInv, JobInv, BalanceInv, VerifyPayment, DepositedAs;
      DepositTerms(world, Snapshot(), tradeId, txHash);
      VerifyKeepsInv(world, Snapshot(), tradeId, txHash);
      if tradeId !in trades { return VerifyThrew; }
      var trade := trades[tradeId];
      if trade.status != ESCROW_PENDING { return Already; }
      var asset := AssetOf(trade.currency, world.env);
      var verify := VerifyPayment(world.horizon, txHash,
        Expectation(world.env.receivingAccount, asset, Money.Amount(trade.price), tradeId));
      if verify.Threw? { return VerifyThrew; }
      if verify.Refused? { return Rejected(verify.reason); }
      var existing := set t | t in trades && trades[t].escrowTxHash == Some(txHash) && t != tradeId;
      assert existing == UsersOf(trades, txHash) - {tradeId};
      if existing != {} {
        return Rejected("escrow txHash already used");
      }
      trades := trades[tradeId := trade.(status := PAID, escrowTxHash := Some(txHash))];
      ledger := ledger + [Entry(ESCROW_IN, tradeId, txHash, "", world.env.receivingAccount, trade.price, asset)];
      AddJob(TransferJob(tradeId));
      out := Escrowed;
    }

    // -------------------------------------------------------------- transfer and refund

    /** A whole transfer job without interruption. It throws, hands over to a refund, or pays and completes. */
    method TransferItemAndPayout(tradeId: string, moved: bool, txHash: string) returns (completed: bool)
      requires Valid() && InState(Snapshot(), TransferJob(tradeId), Waiting)
      modifies this`trades, this`listings, this`ownership, this`ledger, this`queue, this`sent
      ensures Snapshot() == TransferRun(world, old(Snapshot()), tradeId, moved, txHash)
      ensures TransferredAs(world, old(Snapshot()), Snapshot(), tradeId, moved, txHash, completed)
      ensures Valid()
    {
      hide TradeInv, LedgerInv, JobInv, BalanceInv, WorldOk, Memo.Truncated, TransferCommit, TransferredAs;
      ghost var before := Snapshot();
      TransferTerms(world, before, tradeId, moved, txHash);
      TransferKeepsInv(world, before, tradeId, moved, txHash);
      queue := queue[TransferJob(tradeId) := Finished];
      if tradeId !in trades || trades[tradeId].status != PAID { return false; }
      var trade := trades[tradeId];
      if trade.listingId !in listings || listings[trade.listingId].studioId !in world.studioHasApi { return false; }
      var listing := listings[trade.listingId];
      if !moved {
        AddJob(RefundJob(tradeId));
        return false;
      }
      var asset := AssetOf(trade.currency, world.env);
      var sellerAddress := Wallet(world, trade.sellerId);
      if sellerAddress == "" { return false; }

      var memo := Memo.TruncateTextMemo("p2p-payout:" + tradeId);
      sent := sent + [Transfer(PAYOUT, tradeId, sellerAddress, asset, trade.net, memo)];
      queue := queue[TransferJob(tradeId) := Sent(txHash)];
      assert Snapshot() == TransferSend(world, TransferBegin(world, before, tradeId, moved), tradeId, txHash);
      Complete(tradeId, txHash);
      completed := true;
    }

    /** The closing transaction, after which the job is done. */
    method Complete(tradeId: string, txHash: string)
      requires tradeId in trades && trades[tradeId].listingId in listings
      modifies this`trades, this`listings, this`ownership, this`ledger, this`queue
      ensures Snapshot() == TransferCommit(world, old(Snapshot()), tradeId, txHash)
    {
      var trade := trades[tradeId];
      var listing := listings[trade.listingId];
      ledger := ledger + [Entry(PAYOUT, tradeId, txHash, world.env.receivingAccount, Wallet(world, trade.sellerId),
                                trade.net, AssetOf(trade.currency, world.env))];
      trades := trades[tradeId := trade.(status := COMPLETED, payoutTxHash := Some(txHash))];
      listings := listings[trade.listingId := listing.(status := SOLD)];
      MoveItem(trade, listing);
      queue := queue[TransferJob(tradeId) := Finished];
      AddJob(WebhookJob(tradeId));
    }

    /** One unit from the seller's locked row to the buyer's row. */
    method MoveItem(trade: Trade, listing: Listing)
      modifies this`ownership
      ensures UnitMoves(old(ownership), ownership, Slot(trade.sellerId, listing.itemId), Slot(trade.buyerId, listing.itemId),
                        trade.listingId, listing.studioId)
      ensures ownership == MoveUnit(old(ownership), trade, listing)
    {
      var seller, buyer := Slot(trade.sellerId, listing.itemId), Slot(trade.buyerId, listing.itemId);
      if seller in ownership && ownership[seller].lockedFor == Some(trade.listingId) {
        ownership := ownership[seller := ownership[seller].(quantity := ownership[seller].quantity - 1, lockedFor := None)];
      }
      if buyer in ownership {
        ownership := ownership[buyer := ownership[buyer].(quantity := ownership[buyer].quantity + 1)];
      } else {
        ownership := ownership[buyer := Ownership(1, listing.studioId, None)];
      }
    }

    /** A whole refund job without interruption; false where it throws before paying. */
    method RefundTrade(tradeId: string, txHash: string) returns (refunded: bool)
      requires Valid() && InState(Snapshot(), RefundJob(tradeId), Waiting)
      modifies this`trades, this`ledger, this`queue, this`sent
      ensures Snapshot() == RefundRun(world, old(Snapshot()), tradeId, txHash)
      ensures RefundedAs(world, old(Snapshot()), Snapshot(), tradeId, txHash, refunded)
      ensures Valid()
    {
      hide TradeInv, LedgerInv, JobInv, BalanceInv, Memo.Truncated, RefundedAs;
      ghost var before := Snapshot();
      RefundTerms(world, before, tradeId, txHash);
      RefundRunKeepsInv(world, before, tradeId, txHash);
      queue := queue[RefundJob(tradeId) := Finished];
      if tradeId !in trades { return false; }
      var trade := trades[tradeId];
      var buyerAddress := Wallet(world, trade.buyerId);
      if buyerAddress == "" { return false; }
      var asset := AssetOf(trade.currency, world.env);
      var memo := Memo.TruncateTextMemo("refund:" + tradeId);
      sent := sent + [Transfer(REFUND, tradeId, buyerAddress, asset, trade.price, memo)];
      ledger := ledger + [Entry(REFUND, tradeId, txHash, world.env.receivingAccount, buyerAddress, trade.price, asset)];
      trades := trades[tradeId := trade.(status := REFUNDED)];
      refunded := true;
    }

    // Each stretch of a job keeps the invariants.
    lemma TransferKeepsInv(w: World, s: Store, id: string, moved: bool, txHash: string)
      requires WorldOk(w) && Inv(w, s) && InState(s, TransferJob(id), Waiting)
      ensures var began := TransferBegin(w, s, id, moved);
        && Inv(w, began)
        && (began.queue[TransferJob(id)] == Paying ==>
              id in s.trades && s.trades[id].listingId in s.listings &&
              Inv(w, TransferCommit(w, TransferSend(w, began, id, txHash), id, txHash)))
    {
      hide TradeInv, LedgerInv, JobInv, BalanceInv, Verify, CreateListing, CreateTradeQuote, TransferCommit, Memo.Truncated;
      BeginKeepsJobs(w, s, id, moved);
      var began := TransferBegin(w, s, id, moved);
      if began.queue[TransferJob(id)] == Paying {
        SendStepKeepsInv(w, began, TransferSent(id, txHash));
        CommitKeepsInv(w, TransferSend(w, began, id, txHash), id, txHash);
      }
    }

    lemma RefundRunKeepsInv(w: World, s: Store, id: string, txHash: string)
      requires WorldOk(w) && Inv(w, s) && InState(s, RefundJob(id), Waiting)
      ensures var began := RefundBegin(w, s, id);
        && Inv(w, began)
        && (began.queue[RefundJob(id)] == Paying ==>
              id in s.trades && Inv(w, RefundCommit(w, RefundSend(w, began, id, txHash), id, txHash)))
    {
      hide TradeInv, LedgerInv, JobInv, BalanceInv, Verify, CreateListing, CreateTradeQuote, TransferCommit, RefundCommit, Memo.Truncated;
      RefundBeginKeepsJobs(w, s, id);
      var began := RefundBegin(w, s, id);
      if began.queue[RefundJob(id)] == Paying {
        SendStepKeepsInv(w, began, RefundSent(id, txHash));
        RefundKeepsInv(w, RefundSend(w, began, id, txHash), id, txHash);
      }
    }
  }
}
