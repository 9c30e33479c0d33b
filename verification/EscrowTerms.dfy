/** What the steps of a trade read and write in plain terms: conditions, columns, amounts and payments, without the
    functions that define the steps. */
module EscrowTerms {
  import opened Wrappers
  import opened Stellar
  import opened Escrow
  import opened EscrowInvariants
  import opened EscrowTheorems
  import Memo
  import Money

  predicate HasWallet(w: World, playerId: string) { playerId in w.wallets && w.wallets[playerId] != "" }

  predicate InCurrency(asset: Asset, currency: Currency, env: Env)
  {
    asset == if currency == XLM then Native else Issued(env.usdCode, env.usdIssuer)
  }

  /** No job but these changed. */
  ghost predicate OtherJobsStay(a: map<Job, JobState>, b: map<Job, JobState>, jobs: set<Job>)
  {
    forall job :: job !in jobs ==> (job in a <==> job in b) && (job in a ==> b[job] == a[job])
  }

  // ---------------------------------------------------------------- listing

  ghost predicate ListedAs(w: World, s: Store, t: Store, out: ListOutcome, sellerId: string, itemId: string,
                           price: int, currency: Currency, game: Option<nat>, newId: string)
  {
    var slot := Slot(sellerId, itemId);
    var known := itemId in w.itemStudio && w.itemStudio[itemId] in w.studioHasApi && game.Some?;
    && (out == ItemNotFound <==> itemId !in w.itemStudio)
    && (out == OwnershipUnknown <==> itemId in w.itemStudio && !known)
    && (out == NotOwned <==> known && game.value == 0)
    && (out.Listed? ==> out.listingId == newId)
    && t == s.(listings := t.listings, ownership := t.ownership)
    && (!known ==> t == s)
    && (known ==>
          && slot in t.ownership && t.ownership - {slot} == s.ownership - {slot}
          && t.ownership[slot].quantity == game.value && t.ownership[slot].studioId == w.itemStudio[itemId]
          && t.ownership[slot].lockedFor ==
             (if out.Listed? then Some(newId) else if slot in s.ownership then s.ownership[slot].lockedFor else None)
          && t.listings == if out.Listed?
                           then s.listings[newId := Listing(w.itemStudio[itemId], itemId, sellerId, price, currency, ACTIVE)]
                           else s.listings)
  }

  lemma ListTerms(w: World, s: Store, sellerId: string, itemId: string, price: int, currency: Currency,
                  game: Option<nat>, newId: string)
    ensures var (t, out) := CreateListing(w, s, sellerId, itemId, price, currency, game, newId);
      ListedAs(w, s, t, out, sellerId, itemId, price, currency, game, newId)
  {}

  // ---------------------------------------------------------------- quoting

  /** The new trade: the listing's terms for this buyer, its price split into fee and net, nothing paid yet. */
  predicate IsTradeFor(w: World, l: Listing, listingId: string, buyerId: string, t: Trade)
  {
    && t.listingId == listingId && t.buyerId == buyerId && t.sellerId == l.sellerId
    && t.price == l.price && t.currency == l.currency
    && t.fee * 10_000 <= l.price * w.feeBps < (t.fee + 1) * 10_000 && t.net == l.price - t.fee
    && t.status == ESCROW_PENDING && t.escrowTxHash.None? && t.payoutTxHash.None?
  }

  ghost predicate QuotedAs(w: World, s: Store, t: Store, out: QuoteOutcome, buyerId: string, listingId: string,
                           newId: string, built: bool)
  {
    && (out == QuoteRefused("listing not found") <==> listingId !in s.listings)
    && (out == QuoteRefused("listing not available") <==> listingId in s.listings && s.listings[listingId].status != ACTIVE)
    && (out == QuoteRefused("cannot buy your own listing") <==>
          listingId in s.listings && s.listings[listingId].status == ACTIVE && s.listings[listingId].sellerId == buyerId)
    && t == s.(listings := t.listings, ownership := t.ownership, trades := t.trades)
    && if listingId !in s.listings || s.listings[listingId].status != ACTIVE || s.listings[listingId].sellerId == buyerId
       then out.QuoteRefused? && t == s
       else
         var l := s.listings[listingId]; var seller := Slot(l.sellerId, l.itemId);
         && t.listings == s.listings[listingId := l.(status := LOCKED)]
         && t.ownership.Keys == s.ownership.Keys && t.ownership - {seller} == s.ownership - {seller}
         && (seller in s.ownership ==> t.ownership[seller] == s.ownership[seller].(lockedFor := Some(listingId)))
         && newId in t.trades && t.trades - {newId} == s.trades - {newId}
         && IsTradeFor(w, l, listingId, buyerId, t.trades[newId])
         && if built
            then out.Quoted? && out.tradeId == newId
                 && Asks(out.payment, w.env.receivingAccount, l.currency, w.env, l.price, newId)
            else out == QuoteLost(newId)
  }

  lemma QuoteTerms(w: World, s: Store, buyerId: string, listingId: string, newId: string, built: bool)
    ensures var (t, out) := CreateTradeQuote(w, s, buyerId, listingId, newId, built);
      QuotedAs(w, s, t, out, buyerId, listingId, newId, built)
  {
    hide Asks, PaymentOf, Money.FeeStroops, Money.NetStroops;
    if listingId in s.listings {
      var l := s.listings[listingId];
      Money.FeeBounds(l.price, w.feeBps);
      OfferAsks(w.env.receivingAccount, l.currency, w.env, l.price, newId);
    }
  }

  // ---------------------------------------------------------------- escrow

  /** The deposit is taken exactly if the trade waits for it, the transaction pays the price to the platform in the
      trade's currency under the trade's memo, and no other trade has used it. */
  ghost predicate DepositedAs(w: World, s: Store, t: Store, out: VerifyOutcome, tradeId: string, txHash: string)
  {
    && (out == VerifyThrew <== tradeId !in s.trades)
    && (out == Already <==> tradeId in s.trades && s.trades[tradeId].status != ESCROW_PENDING)
    && (out == Escrowed <==>
          && tradeId in s.trades && s.trades[tradeId].status == ESCROW_PENDING
          && Pays(w.horizon, txHash, tradeId, w.env.receivingAccount, s.trades[tradeId].currency, w.env, s.trades[tradeId].price)
          && forall u :: u in s.trades && s.trades[u].escrowTxHash == Some(txHash) ==> u == tradeId)
    && (out != Escrowed ==> t == s)
    && (out == Escrowed ==>
          var r := s.trades[tradeId];
          && t == s.(trades := t.trades, ledger := t.ledger, queue := t.queue)
          && t.trades == s.trades[tradeId := r.(status := PAID, escrowTxHash := Some(txHash))]
          && |t.ledger| == |s.ledger| + 1 && t.ledger[..|s.ledger|] == s.ledger
          && var e := t.ledger[|s.ledger|];
          && e.kind == ESCROW_IN && e.tradeId == tradeId && e.txHash == txHash && e.source == ""
          && e.dest == w.env.receivingAccount && e.amount == r.price && InCurrency(e.asset, r.currency, w.env)
          && TransferJob(tradeId) in t.queue
          && (TransferJob(tradeId) !in s.queue ==> t.queue[TransferJob(tradeId)] == Waiting)
          && (TransferJob(tradeId) in s.queue ==> t.queue == s.queue)
          && OtherJobsStay(s.queue, t.queue, {TransferJob(tradeId)}))
  }

  lemma DepositTerms(w: World, s: Store, tradeId: string, txHash: string)
    ensures var (t, out) := Verify(w, s, tradeId, txHash); DepositedAs(w, s, t, out, tradeId, txHash)
  {
    hide VerifyPayment, Pays;
    if tradeId in s.trades {
      var r := s.trades[tradeId];
      AcceptedPays(w.horizon, txHash, tradeId, w.env.receivingAccount, r.currency, w.env, r.price);
      NotUsed(s.trades, tradeId, txHash);
    }
  }

  lemma NotUsed(trades: map<string, Trade>, tradeId: string, txHash: string)
    ensures UsersOf(trades, txHash) - {tradeId} == {}
      <==> forall u :: u in trades && trades[u].escrowTxHash == Some(txHash) ==> u == tradeId
  {
    if UsersOf(trades, txHash) - {tradeId} == {} {
      forall u | u in trades && trades[u].escrowTxHash == Some(txHash) ensures u == tradeId {
        assert u in UsersOf(trades, txHash) && u !in UsersOf(trades, txHash) - {tradeId};
      }
    }
  }

  // ---------------------------------------------------------------- transfer and refund

  /** One payment from the platform's account is sent and recorded. */
  predicate PaidOut(w: World, s: Store, t: Store, kind: EntryType, r: Trade, tradeId: string, player: string,
                    amount: int, memo: string, txHash: string)
  {
    && |t.sent| == |s.sent| + 1 && t.sent[..|s.sent|] == s.sent
    && |t.ledger| == |s.ledger| + 1 && t.ledger[..|s.ledger|] == s.ledger
    && player in w.wallets
    && var x := t.sent[|s.sent|];
    && x.kind == kind && x.tradeId == tradeId && x.dest == w.wallets[player] && x.amount == amount
    && InCurrency(x.asset, r.currency, w.env) && x.memo == Memo.Truncated(memo)
    && var e := t.ledger[|s.ledger|];
    && e.kind == kind && e.tradeId == tradeId && e.txHash == txHash && e.source == w.env.receivingAccount
    && e.dest == w.wallets[player] && e.amount == amount && InCurrency(e.asset, r.currency, w.env)
  }

  /** One unit goes from the seller's row, if it is still locked for the listing, to the buyer's; the lock is released. */
  predicate UnitMoves(a: map<Slot, Ownership>, b: map<Slot, Ownership>, seller: Slot, buyer: Slot, listingId: string,
                      studioId: string)
  {
    && b - {seller, buyer} == a - {seller, buyer} && buyer in b
    && (seller != buyer ==>
          && b[buyer] == (if buyer in a then a[buyer].(quantity := a[buyer].quantity + 1) else Ownership(1, studioId, None))
          && (seller in b <==> seller in a)
          && (seller in a ==>
                b[seller] == if a[seller].lockedFor == Some(listingId)
                             then a[seller].(quantity := a[seller].quantity - 1, lockedFor := None) else a[seller]))
  }

  /** The transfer job: it pays and completes exactly if the trade is paid, its listing's studio has an API, the game
      moved the item and the seller has a wallet; where only the game refused, it hands over to a refund. */
  ghost predicate TransferredAs(w: World, s: Store, t: Store, tradeId: string, moved: bool, txHash: string, completed: bool)
  {
    var job := TransferJob(tradeId);
    var ready := tradeId in s.trades && s.trades[tradeId].status == PAID && s.trades[tradeId].listingId in s.listings
                 && s.listings[s.trades[tradeId].listingId].studioId in w.studioHasApi;
    && (completed <==> ready && moved && HasWallet(w, s.trades[tradeId].sellerId))
    && job in t.queue && t.queue[job] == Finished
    && (!completed ==>
          && t == s.(queue := t.queue)
          && OtherJobsStay(s.queue, t.queue, {job, RefundJob(tradeId)})
          && (RefundJob(tradeId) in t.queue <==> RefundJob(tradeId) in s.queue || (ready && !moved))
          && (RefundJob(tradeId) in t.queue ==>
                t.queue[RefundJob(tradeId)] == if RefundJob(tradeId) in s.queue then s.queue[RefundJob(tradeId)] else Waiting))
    && (completed ==>
          var r := s.trades[tradeId]; var l := s.listings[r.listingId];
          && t.trades == s.trades[tradeId := r.(status := COMPLETED, payoutTxHash := Some(txHash))]
          && t.listings == s.listings[r.listingId := l.(status := SOLD)]
          && UnitMoves(s.ownership, t.ownership, Slot(r.sellerId, l.itemId), Slot(r.buyerId, l.itemId), r.listingId, l.studioId)
          && PaidOut(w, s, t, PAYOUT, r, tradeId, r.sellerId, r.net, "p2p-payout:" + tradeId, txHash)
          && WebhookJob(tradeId) in t.queue && OtherJobsStay(s.queue, t.queue, {job, WebhookJob(tradeId)}))
  }

  /** A whole transfer job without interruption. */
  function TransferRun(w: World, s: Store, tradeId: string, moved: bool, txHash: string): Store
    requires InState(s, TransferJob(tradeId), Waiting)
  {
    var began := TransferBegin(w, s, tradeId, moved);
    if began.queue[TransferJob(tradeId)] != Paying then began
    else TransferCommit(w, TransferSend(w, began, tradeId, txHash), tradeId, txHash)
  }

  lemma TransferTerms(w: World, s: Store, tradeId: string, moved: bool, txHash: string)
    requires InState(s, TransferJob(tradeId), Waiting)
    ensures var began := TransferBegin(w, s, tradeId, moved);
      TransferredAs(w, s, TransferRun(w, s, tradeId, moved, txHash), tradeId, moved, txHash, began.queue[TransferJob(tradeId)] == Paying)
  {
    hide Memo.Truncated, MoveUnit, UnitMoves;
    if tradeId in s.trades && s.trades[tradeId].listingId in s.listings {
      UnitTerms(s.ownership, s.trades[tradeId], s.listings[s.trades[tradeId].listingId]);
    }
  }

  lemma UnitTerms(a: map<Slot, Ownership>, r: Trade, l: Listing)
    ensures UnitMoves(a, MoveUnit(a, r, l), Slot(r.sellerId, l.itemId), Slot(r.buyerId, l.itemId), r.listingId, l.studioId)
  {}

  /** The refund job: it returns the price exactly if the trade exists and the buyer has a wallet. */
  ghost predicate RefundedAs(w: World, s: Store, t: Store, tradeId: string, txHash: string, refunded: bool)
  {
    var job := RefundJob(tradeId);
    && (refunded <==> tradeId in s.trades && HasWallet(w, s.trades[tradeId].buyerId))
    && t.queue == s.queue[job := Finished]
    && (!refunded ==> t == s.(queue := t.queue))
    && (refunded ==>
          var r := s.trades[tradeId];
          && t == s.(trades := t.trades, sent := t.sent, ledger := t.ledger, queue := t.queue)
          && t.trades == s.trades[tradeId := r.(status := REFUNDED)]
          && PaidOut(w, s, t, REFUND, r, tradeId, r.buyerId, r.price, "refund:" + tradeId, txHash))
  }

  function RefundRun(w: World, s: Store, tradeId: string, txHash: string): Store
    requires InState(s, RefundJob(tradeId), Waiting)
  {
    var began := RefundBegin(w, s, tradeId);
    if began.queue[RefundJob(tradeId)] != Paying then began
    else RefundCommit(w, RefundSend(w, began, tradeId, txHash), tradeId, txHash)
  }

  lemma RefundTerms(w: World, s: Store, tradeId: string, txHash: string)
    requires InState(s, RefundJob(tradeId), Waiting)
    ensures var began := RefundBegin(w, s, tradeId);
      RefundedAs(w, s, RefundRun(w, s, tradeId, txHash), tradeId, txHash, began.queue[RefundJob(tradeId)] == Paying)
  {
    hide Memo.Truncated;
  }

  // ---------------------------------------------------------------- over every run

  predicate IsSplit(t: Trade, bps: int)
  {
    t.fee * 10_000 <= t.price * bps < (t.fee + 1) * 10_000 && t.net == t.price - t.fee
  }

  ghost predicate AllSplit(w: World, trades: map<string, Trade>)
  {
    forall id :: id in trades ==> IsSplit(trades[id], w.feeBps)
  }

  lemma SplitStays(w: World, a: map<string, Trade>, b: map<string, Trade>)
    requires AllSplit(w, a) && TradesForward(a, b) && b.Keys <= a.Keys
    ensures AllSplit(w, b)
  {
    forall id | id in b ensures IsSplit(b[id], w.feeBps) {
      assert Forward(a[id], b[id]);
    }
  }

  lemma QuoteSplits(w: World, s: Store, buyerId: string, listingId: string, newId: string, built: bool)
    requires AllSplit(w, s.trades) && newId !in s.trades
    ensures AllSplit(w, CreateTradeQuote(w, s, buyerId, listingId, newId, built).0.trades)
  {
    hide CreateTradeQuote, Asks;
    QuoteTerms(w, s, buyerId, listingId, newId, built);
    var t := CreateTradeQuote(w, s, buyerId, listingId, newId, built).0;
    forall id | id in t.trades ensures IsSplit(t.trades[id], w.feeBps) {
      if id != newId && t != s {
        assert id in t.trades - {newId} && (t.trades - {newId})[id] == t.trades[id];
      }
    }
  }

  lemma StepSplits(w: World, s: Store, e: Event)
    requires Inv(w, s) && AllSplit(w, s.trades)
    ensures AllSplit(w, Step(w, s, e).trades)
  {
    hide Inv, AllSplit, TradesForward, Verify, CreateListing, CreateTradeQuote, TransferBegin, Send, TransferCommit, RefundCommit;
    if Enabled(w, s, e) && e.Quoting? {
      QuoteSplits(w, s, e.buyerId, e.listingId, e.newId, e.built);
    } else {
      StepMovesForward(w, s, e);
      NoNewTrades(w, s, e);
      SplitStays(w, s.trades, Step(w, s, e).trades);
    }
  }

  lemma NoNewTrades(w: World, s: Store, e: Event)
    requires !(Enabled(w, s, e) && e.Quoting?)
    ensures Step(w, s, e).trades.Keys <= s.trades.Keys
  {
    hide VerifyPayment, CreateListing, CreateTradeQuote, TransferBegin, RefundBegin, Memo.Truncated, MoveUnit, Add;
    if Enabled(w, s, e) && !e.Verifying? && !e.TransferCommitted? && !e.RefundCommitted? {
      OtherStepsLeaveTrades(w, s, e);
    }
  }

  lemma {:induction false} RunSplits(w: World, s: Store, events: seq<Event>)
    requires WorldOk(w) && Inv(w, s) && AllSplit(w, s.trades)
    ensures AllSplit(w, Run(w, s, events).trades)
  {
    hide Inv, Step, WorldOk, AllSplit;
    if events != [] {
      var before := events[..|events| - 1];
      RunSplits(w, s, before);
      RunKeepsInv(w, s, before);
      StepSplits(w, Run(w, s, before), events[|events| - 1]);
    }
  }

  /** In every reachable state a trade's fee is the platform's share of its price in basis points, cut to whole
      stroops, and the seller's part is the rest. */
  lemma FeesInEveryRun(w: World, s: Store, events: seq<Event>, id: string)
    requires WorldOk(w) && Init(s) && id in Run(w, s, events).trades
    ensures var t := Run(w, s, events).trades[id];
      t.fee * 10_000 <= t.price * w.feeBps < (t.fee + 1) * 10_000 && t.net == t.price - t.fee
  {
    hide Run;
    InitHasInv(w, s);
    RunSplits(w, s, events);
  }

  /** So whatever leaves the account for a trade is, to the seller's wallet, the price less the platform's share, or,
      to the buyer's wallet, the price itself, in the currency of the trade. */
  lemma PaymentsInEveryRun(w: World, s: Store, events: seq<Event>, x: Transfer)
    requires WorldOk(w) && Init(s) && x in Run(w, s, events).sent
    ensures var trades := Run(w, s, events).trades;
      && x.tradeId in trades
      && var t := trades[x.tradeId];
      && InCurrency(x.asset, t.currency, w.env)
      && (x.kind == PAYOUT || x.kind == REFUND)
      && (x.kind == PAYOUT ==>
            && (t.price - x.amount) * 10_000 <= t.price * w.feeBps < (t.price - x.amount + 1) * 10_000
            && (t.sellerId in w.wallets ==> x.dest == w.wallets[t.sellerId]))
      && (x.kind == REFUND ==> x.amount == t.price && (t.buyerId in w.wallets ==> x.dest == w.wallets[t.buyerId]))
  {
    hide Run, Init, BalanceInv, LedgerInv, TradeInv, JobsOk;
    InitHasInv(w, s);
    RunKeepsInv(w, s, events);
    var t := Run(w, s, events);
    assert TransferOk(w, t.trades, t.queue, x);
    FeesInEveryRun(w, s, events, x.tradeId);
  }

  /** And every trade past its quote has a deposit of its own that paid its price to the platform. */
  lemma DepositsInEveryRun(w: World, s: Store, events: seq<Event>, id: string)
    requires WorldOk(w) && Init(s) && id in Run(w, s, events).trades
    ensures var trades := Run(w, s, events).trades; var t := trades[id];
      t.status != ESCROW_PENDING ==>
        && t.escrowTxHash.Some?
        && Pays(w.horizon, t.escrowTxHash.value, id, w.env.receivingAccount, t.currency, w.env, t.price)
        && forall u :: u in trades && trades[u].escrowTxHash == t.escrowTxHash ==> u == id
  {
    hide Run, Init, BalanceInv, LedgerInv, JobInv, VerifyPayment, Pays;
    InitHasInv(w, s);
    RunKeepsInv(w, s, events);
    var trades := Run(w, s, events).trades;
    var t := trades[id];
    TermsHold(w, Run(w, s, events).listings, trades, id);
    if t.status != ESCROW_PENDING {
      AcceptedPays(w.horizon, t.escrowTxHash.value, id, w.env.receivingAccount, t.currency, w.env, t.price);
      forall u | u in trades && trades[u].escrowTxHash == t.escrowTxHash ensures u == id {
        assert SameDeposit(trades[u], trades[id]);
      }
    }
  }

  // ---------------------------------------------------------------- jobs are runs

  lemma RunThree(w: World, s: Store, d: Event, e: Event, f: Event)
    ensures Run(w, s, [d, e, f]) == Step(w, Step(w, Step(w, s, d), e), f)
  {
    hide Step;
    assert [d, e, f][..2] == [d, e] && [d, e][..1] == [d] && [d][..0] == [];
    assert Run(w, s, [d]) == Step(w, s, d);
    assert Run(w, s, [d, e]) == Step(w, Run(w, s, [d]), e);
  }

  lemma TransferEvents(w: World, s: Store, tradeId: string, moved: bool, txHash: string)
    ensures InState(s, TransferJob(tradeId), Waiting) ==>
      Step(w, s, TransferStarted(tradeId, moved)) == TransferBegin(w, s, tradeId, moved)
    ensures Step(w, s, TransferSent(tradeId, txHash)) ==
      if InState(s, TransferJob(tradeId), Paying) && tradeId in s.trades then TransferSend(w, s, tradeId, txHash) else s
    ensures Step(w, s, TransferCommitted(tradeId)) ==
      if TransferJob(tradeId) in s.queue && s.queue[TransferJob(tradeId)].Sent? && tradeId in s.trades
         && s.trades[tradeId].listingId in s.listings
      then TransferCommit(w, s, tradeId, s.queue[TransferJob(tradeId)].txHash) else s
  {
    hide TransferBegin, TransferSend, TransferCommit, Verify, CreateListing, CreateTradeQuote, RefundCommit, RefundSend;
  }

  /** An uninterrupted job is three events of the state machine, or fewer where it stops before it pays. */
  lemma TransferIsRun(w: World, s: Store, tradeId: string, moved: bool, txHash: string)
    requires InState(s, TransferJob(tradeId), Waiting)
    ensures TransferRun(w, s, tradeId, moved, txHash)
         == Run(w, s, [TransferStarted(tradeId, moved), TransferSent(tradeId, txHash), TransferCommitted(tradeId)])
  {
    hide Run, Step, TransferCommit, Memo.Truncated, AssetOf;
    RunThree(w, s, TransferStarted(tradeId, moved), TransferSent(tradeId, txHash), TransferCommitted(tradeId));
    TransferEvents(w, s, tradeId, moved, txHash);
    var began := TransferBegin(w, s, tradeId, moved);
    TransferEvents(w, began, tradeId, moved, txHash);
    if began.queue[TransferJob(tradeId)] == Paying {
      TransferEvents(w, TransferSend(w, began, tradeId, txHash), tradeId, moved, txHash);
    }
  }

  lemma RefundIsRun(w: World, s: Store, tradeId: string, txHash: string)
    requires InState(s, RefundJob(tradeId), Waiting)
    ensures RefundRun(w, s, tradeId, txHash)
         == Run(w, s, [RefundStarted(tradeId), RefundSent(tradeId, txHash), RefundCommitted(tradeId)])
  {
    hide Run, Memo.Truncated, TransferCommit, Verify, CreateListing, CreateTradeQuote, RefundCommit, AssetOf;
    RunThree(w, s, RefundStarted(tradeId), RefundSent(tradeId, txHash), RefundCommitted(tradeId));
  }

  /** A call that is one transaction is one event. */
  lemma CallIsRun(w: World, s: Store, player: string, itemId: string, price: nat, currency: Currency, game: Option<nat>,
                  listingId: string, newId: string, built: bool, txHash: string)
    ensures newId !in s.listings ==>
      Run(w, s, [Offering(player, itemId, price, currency, game, newId)])
      == CreateListing(w, s, player, itemId, price, currency, game, newId).0
    ensures newId !in s.trades ==>
      Run(w, s, [Quoting(player, listingId, newId, built)]) == CreateTradeQuote(w, s, player, listingId, newId, built).0
    ensures Run(w, s, [Verifying(newId, txHash)]) == Verify(w, s, newId, txHash).0
  {
    hide Run, CreateListing, CreateTradeQuote, Verify, TransferCommit, RefundCommit;
    RunOne(w, s, Offering(player, itemId, price, currency, game, newId));
    RunOne(w, s, Quoting(player, listingId, newId, built));
    RunOne(w, s, Verifying(newId, txHash));
  }

  lemma RunOne(w: World, s: Store, e: Event)
    ensures Run(w, s, [e]) == Step(w, s, e)
  {
    hide Step;
    assert [e][..0] == [];
  }
}
