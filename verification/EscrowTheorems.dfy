/** The promises of the escrow protocol, over every interleaving of its steps. */
module EscrowTheorems {
  import opened Wrappers
  import opened Stellar
  import opened Escrow
  import opened EscrowInvariants
  import opened EscrowJobs
  import opened MapSums
  import Memo
  import Money

  // ---------------------------------------------------------------- conservation

  /** In every reachable state and currency, the deposits less the payouts and refunds on the ledger are
      the prices of the paid trades plus the fees of the completed ones, hence never negative. */
  lemma EscrowIsConserved(w: World, s: Store, events: seq<Event>, c: Currency)
    requires WorldOk(w) && Init(s)
    ensures var t := Run(w, s, events);
      && Balance(t.ledger, AssetOf(c, w.env)) == Sum(Holdings(t.trades, c))
      && 0 <= Balance(t.ledger, AssetOf(c, w.env))
  {
    hide Run, Init, LedgerInv, JobInv;
    InitHasInv(w, s);
    RunKeepsInv(w, s, events);
    var t := Run(w, s, events);
    forall id | id in t.trades
      ensures 0 <= Held(t.trades[id], c)
    {
      TermsHold(w, t.listings, t.trades, id);
    }
    SumNotNegative(Holdings(t.trades, c));
  }

  // ---------------------------------------------------------------- status, records and jobs

  /** A trade's status fixes which entries and jobs it has: none is both paid out and refunded, none has a job before
      its deposit or a live one after it is closed, and a PAID trade has a live transfer or a live refund, never
      both, exactly if no event of the run stranded it. */
  lemma StatusFixesRecords(w: World, s: Store, events: seq<Event>, id: string)
    requires WorldOk(w) && Init(s) && id in Run(w, s, events).trades
    ensures var t := Run(w, s, events); var status := t.trades[id].status;
      && status in {ESCROW_PENDING, PAID, COMPLETED, REFUNDED}
      && EntryCount(t.ledger, ESCROW_IN, id) == (if status == ESCROW_PENDING then 0 else 1)
      && EntryCount(t.ledger, PAYOUT, id) == (if status == COMPLETED then 1 else 0)
      && EntryCount(t.ledger, REFUND, id) == (if status == REFUNDED then 1 else 0)
      && (forall e :: e in t.ledger && e.tradeId == id ==> EntryOk(w, t.trades, e))
      && (status == ESCROW_PENDING ==> TransferJob(id) !in t.queue && RefundJob(id) !in t.queue)
      && (Closing(t, id) <==> status == PAID && !Stranded(w, s, events, id))
      && !(Live(t.queue, TransferJob(id)) && Live(t.queue, RefundJob(id)))
  {
    hide Run, Init, BalanceInv;
    InitHasInv(w, s);
    RunKeepsInv(w, s, events);
    var t := Run(w, s, events);
    TermsHold(w, t.listings, t.trades, id);
    AbsentJob(w, t.trades, t.queue, t.sent, id);
    StrandedIsStuck(w, s, events, id);
    hide JobInv, Stranded;
    assert Recorded(t.trades, ESCROW_IN, id) <==> t.trades[id].status != ESCROW_PENDING;
    assert Recorded(t.trades, PAYOUT, id) <==> t.trades[id].status == COMPLETED;
    assert Recorded(t.trades, REFUND, id) <==> t.trades[id].status == REFUNDED;
  }

  /** Nothing is recorded for a trade that does not exist. */
  lemma NoRecordsWithoutTrade(w: World, s: Store, events: seq<Event>, e: Entry)
    requires WorldOk(w) && Init(s) && e in Run(w, s, events).ledger
    ensures e.tradeId in Run(w, s, events).trades
  {
    hide Run, Init, BalanceInv, TradeInv, JobInv;
    InitHasInv(w, s);
    RunKeepsInv(w, s, events);
    assert EntryOk(w, Run(w, s, events).trades, e);
  }

  ghost predicate TradedAs(trades: map<string, Trade>, listingId: string, completed: bool)
  {
    exists t :: t in trades && trades[t].listingId == listingId && (trades[t].status == COMPLETED <==> completed)
  }

  /** A listing is ACTIVE while it has no trade, LOCKED while its one trade is not completed, and SOLD once
      it is. */
  lemma ListingFollowsTrade(w: World, s: Store, events: seq<Event>, l: string)
    requires WorldOk(w) && Init(s) && l in Run(w, s, events).listings
    ensures var t := Run(w, s, events); var status := t.listings[l].status;
      && (status == ACTIVE <==> !HasTrade(t.trades, l))
      && (status == LOCKED <==> TradedAs(t.trades, l, false))
      && (status == SOLD <==> TradedAs(t.trades, l, true))
      && (forall a, b :: a in t.trades && b in t.trades && t.trades[a].listingId == l && t.trades[b].listingId == l ==> a == b)
  {
    hide Run, Init, BalanceInv, LedgerInv, JobInv, VerifyPayment;
    InitHasInv(w, s);
    RunKeepsInv(w, s, events);
    var t := Run(w, s, events);
    if HasTrade(t.trades, l) {
      var id :| id in t.trades && t.trades[id].listingId == l;
      TermsHold(w, t.listings, t.trades, id);
      if b :| b in t.trades && t.trades[b].listingId == l { assert b == id; }
      assert TradedAs(t.trades, l, t.trades[id].status == COMPLETED);
    }
  }

  // ---------------------------------------------------------------- progress of a trade

  /** How a trade's row may change: the terms never, the status forward only. */
  predicate Forward(a: Trade, b: Trade)
  {
    && SameTerms(a, b) && a.listingId == b.listingId && a.fee == b.fee
    && (a.escrowTxHash.Some? ==> b.escrowTxHash == a.escrowTxHash)
    && (a.status == b.status
        || (a.status == ESCROW_PENDING && b.status in {PAID, COMPLETED, REFUNDED})
        || (a.status == PAID && b.status in {COMPLETED, REFUNDED}))
  }

  ghost predicate TradesForward(a: map<string, Trade>, b: map<string, Trade>)
  {
    forall t :: t in a ==> t in b && Forward(a[t], b[t])
  }

  lemma RowMovesForward(a: map<string, Trade>, id: string, row: Trade)
    requires id in a ==> Forward(a[id], row)
    ensures TradesForward(a, a[id := row])
  {}

  lemma VerifyMovesForward(w: World, s: Store, id: string, txHash: string)
    requires TradeInv(w, s.listings, s.trades)
    ensures TradesForward(s.trades, Verify(w, s, id, txHash).0.trades)
  {
    hide TradeInv, TradesForward, VerifyPayment;
    NothingMovesForward(s.trades);
    var (t, out) := Verify(w, s, id, txHash);
    if out == Escrowed {
      TermsHold(w, s.listings, s.trades, id);
      RowMovesForward(s.trades, id, t.trades[id]);
    }
  }

  lemma NothingMovesForward(a: map<string, Trade>)
    ensures TradesForward(a, a)
  {}

  lemma ClosingMovesForward(w: World, s: Store, e: Event)
    requires Inv(w, s) && Enabled(w, s, e) && (e.TransferCommitted? || e.RefundCommitted?)
    ensures TradesForward(s.trades, Step(w, s, e).trades)
  {
    hide TradeInv, LedgerInv, JobInv, BalanceInv, TradesForward, Verify, CreateListing, CreateTradeQuote, TransferBegin, Send, MoveUnit;
    AbsentJob(w, s.trades, s.queue, s.sent, e.tradeId);
    RowMovesForward(s.trades, e.tradeId, Step(w, s, e).trades[e.tradeId]);
  }

  lemma StepMovesForward(w: World, s: Store, e: Event)
    requires Inv(w, s)
    ensures TradesForward(s.trades, Step(w, s, e).trades)
  {
    hide Inv, TradesForward, Verify, CreateListing, OpenTrade, TransferBegin, Send, TransferCommit, RefundCommit;
    NothingMovesForward(s.trades);
    if Enabled(w, s, e) {
      match e
      case Quoting(buyer, listing, newId, built) => QuoteMovesForward(w, s, buyer, listing, newId, built);
      case Verifying(t, txHash) => TradesAreSound(w, s); VerifyMovesForward(w, s, t, txHash);
      case TransferCommitted(_) => ClosingMovesForward(w, s, e);
      case RefundCommitted(_) => ClosingMovesForward(w, s, e);
      case _ => OtherStepsLeaveTrades(w, s, e);
    }
  }

  lemma TradesAreSound(w: World, s: Store)
    requires Inv(w, s)
    ensures TradeInv(w, s.listings, s.trades)
  {}

  lemma QuoteMovesForward(w: World, s: Store, buyerId: string, listingId: string, newId: string, built: bool)
    requires newId !in s.trades
    ensures TradesForward(s.trades, CreateTradeQuote(w, s, buyerId, listingId, newId, built).0.trades)
  {
    hide OfferFor;
  }

  lemma OtherStepsLeaveTrades(w: World, s: Store, e: Event)
    requires Enabled(w, s, e) && !e.Quoting? && !e.Verifying? && !e.TransferCommitted? && !e.RefundCommitted?
    ensures Step(w, s, e).trades == s.trades
  {
    hide Verify, CreateTradeQuote, TransferCommit, RefundCommit, Memo.Truncated;
  }

  /** Over every run a trade goes from escrow pending to paid to either completed or refunded, and keeps
      its terms and its deposit. */
  lemma {:induction false} TradesOnlyMoveForward(w: World, s: Store, events: seq<Event>)
    requires WorldOk(w) && Inv(w, s)
    ensures TradesForward(s.trades, Run(w, s, events).trades)
  {
    hide Inv, Step, WorldOk;
    if events != [] {
      var before := events[..|events| - 1];
      TradesOnlyMoveForward(w, s, before);
      RunKeepsInv(w, s, before);
      StepMovesForward(w, Run(w, s, before), events[|events| - 1]);
    }
  }

  /** A refund does not free the listing: it is locked then and in every later state, so the item cannot be
      sold through it again. */
  lemma RefundedListingStaysLocked(w: World, s: Store, id: string, events: seq<Event>)
    requires WorldOk(w) && Inv(w, s) && id in s.trades && s.trades[id].status == REFUNDED
    ensures var t := Run(w, s, events);
      var l := s.trades[id].listingId;
      && l in t.listings && t.listings[l].status == LOCKED
      && id in t.trades && t.trades[id].status == REFUNDED
      && forall buyer, newId, built ::
           CreateTradeQuote(w, t, buyer, l, newId, built) == (t, QuoteRefused("listing not available"))
  {
    hide Run, LedgerInv, JobInv, BalanceInv, VerifyPayment, OpenTrade, OfferFor, WorldOk;
    RunKeepsInv(w, s, events);
    TradesOnlyMoveForward(w, s, events);
    var t := Run(w, s, events);
    TermsHold(w, t.listings, t.trades, id);
  }

  /** The payment is built after the trade is stored. So a call that returns no payment leaves the store as it is
      exactly when it is refused before that: the listing is missing, not active, or the buyer's own. Otherwise the
      buyer gets an error and the store is that of a successful quote, the listing locked by a trade nobody was
      told how to pay. */
  lemma LostQuoteLocksListing(w: World, s: Store, buyerId: string, listingId: string, newId: string, built: bool)
    ensures var (t, out) := CreateTradeQuote(w, s, buyerId, listingId, newId, built);
      && (out.QuoteRefused? <==>
            listingId !in s.listings || s.listings[listingId].status != ACTIVE || s.listings[listingId].sellerId == buyerId)
      && (t == s <==> out.QuoteRefused?)
      && (out.QuoteLost? <==> !out.QuoteRefused? && !built)
      && (out.QuoteLost? ==>
            && t == CreateTradeQuote(w, s, buyerId, listingId, newId, true).0
            && newId in t.trades && t.trades[newId].status == ESCROW_PENDING && t.listings[listingId].status == LOCKED)
  {
    hide OfferFor;
    var (t, out) := CreateTradeQuote(w, s, buyerId, listingId, newId, built);
    if !out.QuoteRefused? {
      assert t.listings[listingId].status != s.listings[listingId].status;
    }
  }

  // ---------------------------------------------------------------- deposits

  /** A deposit, once taken, stays with its trade: every later call for the trade answers ALREADY and changes
      nothing, and no other trade uses the transaction. */
  lemma EscrowedForGood(w: World, s: Store, id: string, txHash: string, events: seq<Event>, other: string)
    requires WorldOk(w) && Inv(w, s) && Verify(w, s, id, txHash).1 == Escrowed
    ensures var later := Run(w, Verify(w, s, id, txHash).0, events);
      && id in later.trades && later.trades[id].escrowTxHash == Some(txHash)
      && VerifyPayment(w.horizon, txHash, Demand(w, id, later.trades[id])).Verified?
      && UsersOf(later.trades, txHash) == {id}
      && Verify(w, later, id, other) == (later, Already)
      && EntryCount(later.ledger, ESCROW_IN, id) == 1
  {
    hide Run, TradeInv, LedgerInv, JobInv, BalanceInv, VerifyPayment, WorldOk;
    var t := Verify(w, s, id, txHash).0;
    VerifyKeepsInv(w, s, id, txHash);
    RunKeepsInv(w, t, events);
    TradesOnlyMoveForward(w, t, events);
    var later := Run(w, t, events);
    assert Forward(t.trades[id], later.trades[id]);
    DepositStands(w, later, id, txHash, other);
  }

  lemma DepositStands(w: World, s: Store, id: string, txHash: string, other: string)
    requires Inv(w, s) && id in s.trades && s.trades[id].status != ESCROW_PENDING && s.trades[id].escrowTxHash == Some(txHash)
    ensures VerifyPayment(w.horizon, txHash, Demand(w, id, s.trades[id])).Verified?
    ensures UsersOf(s.trades, txHash) == {id}
    ensures Verify(w, s, id, other) == (s, Already)
    ensures EntryCount(s.ledger, ESCROW_IN, id) == 1
  {
    hide JobInv, BalanceInv, VerifyPayment;
    TermsHold(w, s.listings, s.trades, id);
    assert Recorded(s.trades, ESCROW_IN, id);
    forall u | u in UsersOf(s.trades, txHash)
      ensures u == id
    {
      assert SameDeposit(s.trades[u], s.trades[id]);
    }
  }

  /** A successful transaction carrying, anywhere, the payment a trade quote offered is taken as its deposit exactly
      when the page of operations that is read accepts it and no other trade has used it. The page does if the
      payment lies on it with no smaller one of its kind before it. */
  lemma OfferEscrows(w: World, s: Store, id: string, txHash: string, at: nat)
    requires id in s.trades && s.trades[id].status == ESCROW_PENDING
    requires txHash != "" && txHash in w.horizon
    requires Carries(w.horizon[txHash], OfferFor(w, id, s.trades[id]), at)
    ensures var (t, out) := Verify(w, s, id, txHash);
      var ops, asset, min := w.horizon[txHash].operations, AssetOf(s.trades[id].currency, w.env), Money.Amount(s.trades[id].price);
      var unused := UsersOf(s.trades, txHash) - {id} == {};
      var fits := PageAccepts(ops, w.env.receivingAccount, asset, min);
      && (out == Escrowed <==> fits && unused)
      && (fits && !unused ==> out == Rejected("escrow txHash already used"))
      && (if out == Escrowed then t == Deposit(w, s, id, txHash) && TransferJob(id) in t.queue else t == s)
      && (at < OPERATIONS_PAGE && NoneShortBefore(ops, at, w.env.receivingAccount, asset, min) ==> fits)
  {
    hide VerifyPayment, PageAccepts, Memo.Truncated, Carries, NoneShortBefore;
    var t := s.trades[id];
    BuiltIsAccepted(w.horizon, txHash, at, w.env.receivingAccount, AssetOf(t.currency, w.env), t.price, id);
  }

  // ---------------------------------------------------------------- what leaves the account

  function SentFor(sent: seq<Transfer>, id: string): int
  {
    if sent == [] then 0
    else SentFor(sent[..|sent| - 1], id) + if sent[|sent| - 1].tradeId == id then sent[|sent| - 1].amount else 0
  }

  function SentTotal(sent: seq<Transfer>, asset: Asset): int
  {
    if sent == [] then 0
    else SentTotal(sent[..|sent| - 1], asset) + if sent[|sent| - 1].asset == asset then sent[|sent| - 1].amount else 0
  }

  ghost function SentByTrade(trades: map<string, Trade>, sent: seq<Transfer>, c: Currency): map<string, int>
  {
    map t | t in trades :: if trades[t].currency == c then SentFor(sent, t) else 0
  }

  lemma SentForAppend(before: seq<Transfer>, x: Transfer)
    ensures forall id :: SentFor(before + [x], id) == SentFor(before, id) + if x.tradeId == id then x.amount else 0
  {
    assert (before + [x])[..|before|] == before;
  }

  lemma SentByOneMore(trades: map<string, Trade>, before: seq<Transfer>, x: Transfer, c: Currency)
    requires x.tradeId in trades
    ensures Sum(SentByTrade(trades, before + [x], c))
         == Sum(SentByTrade(trades, before, c)) + if trades[x.tradeId].currency == c then x.amount else 0
  {
    SentForAppend(before, x);
    hide SentFor;
    var was := SentByTrade(trades, before, c);
    if trades[x.tradeId].currency == c {
      SumUpdate(was, x.tradeId, was[x.tradeId] + x.amount);
      assert SentByTrade(trades, before + [x], c) == was[x.tradeId := was[x.tradeId] + x.amount];
    } else {
      assert SentByTrade(trades, before + [x], c) == was;
    }
  }

  lemma {:induction false} SentAddsUp(w: World, trades: map<string, Trade>, sent: seq<Transfer>, c: Currency)
    requires forall x :: x in sent ==> x.tradeId in trades && x.asset == AssetOf(trades[x.tradeId].currency, w.env)
    ensures SentTotal(sent, AssetOf(c, w.env)) == Sum(SentByTrade(trades, sent, c))
  {
    if sent == [] {
      SumOfZeros(SentByTrade(trades, sent, c));
    } else {
      var before, x := sent[..|sent| - 1], sent[|sent| - 1];
      assert sent == before + [x] && x in sent;
      SentAddsUp(w, trades, before, c);
      SentByOneMore(trades, before, x, c);
      hide SentByTrade;
    }
  }

  // A trade that sent once sent one of its transfers.
  lemma {:induction false} SentOnce(sent: seq<Transfer>, id: string)
    requires SendCount(sent, id) <= 1
    ensures SendCount(sent, id) == 0 ==> SentFor(sent, id) == 0
    ensures SendCount(sent, id) == 1 ==> exists x :: x in sent && x.tradeId == id && x.amount == SentFor(sent, id)
  {
    if sent != [] {
      var before, x := sent[..|sent| - 1], sent[|sent| - 1];
      assert sent == before + [x];
      SentOnce(before, id);
      if x.tradeId == id {
        assert x in sent && x.amount == SentFor(sent, id);
      } else if SendCount(before, id) == 1 {
        var y :| y in before && y.tradeId == id && y.amount == SentFor(before, id);
        assert y in sent;
      }
    }
  }

  /** At most one payment ever leaves the account for a trade, either the seller's share to the seller or the
      full price to the buyer, even if jobs are lost midway. */
  lemma OnePaymentPerTrade(w: World, s: Store, events: seq<Event>, id: string)
    requires WorldOk(w) && Init(s) && id in Run(w, s, events).trades
    ensures var t := Run(w, s, events); var trade := t.trades[id];
      && SendCount(t.sent, id) <= 1
      && (forall x :: x in t.sent && x.tradeId == id ==>
            if trade.status == COMPLETED then x.kind == PAYOUT
            else if trade.status == REFUNDED then x.kind == REFUND
            else trade.status == PAID)
      && (forall x :: x in t.sent && x.tradeId == id ==>
            if x.kind == PAYOUT then x.amount == trade.net && x.dest == Wallet(w, trade.sellerId)
            else x.amount == trade.price && x.dest == Wallet(w, trade.buyerId))
      && 0 <= SentFor(t.sent, id)
      && SentFor(t.sent, id) + (if trade.status == COMPLETED then trade.fee else 0) <= trade.price
      && (trade.status == ESCROW_PENDING ==> SentFor(t.sent, id) == 0)
  {
    hide Run, Init, BalanceInv, LedgerInv, VerifyPayment;
    InitHasInv(w, s);
    RunKeepsInv(w, s, events);
    var t := Run(w, s, events);
    TermsHold(w, t.listings, t.trades, id);
    AbsentJob(w, t.trades, t.queue, t.sent, id);
    SentOnce(t.sent, id);
    forall x | x in t.sent && x.tradeId == id
      ensures TransferOk(w, t.trades, t.queue, x) && t.trades[id].status != ESCROW_PENDING
    {
      SentIsCounted(t.sent, x);
    }
  }

  /** What the verified deposit of a trade brought in, in stroops. */
  function ReceivedFor(w: World, id: string, t: Trade): int
  {
    if t.escrowTxHash.None? then 0
    else
      match VerifyPayment(w.horizon, t.escrowTxHash.value, Demand(w, id, t))
      case Verified(_, amount, _, _) => (amount * 10_000_000.0).Floor
      case _ => 0
  }

  ghost function Received(w: World, trades: map<string, Trade>, c: Currency): map<string, int>
  {
    map t | t in trades :: if trades[t].currency == c then ReceivedFor(w, t, trades[t]) else 0
  }

  ghost function FeesEarned(trades: map<string, Trade>, c: Currency): map<string, int>
  {
    map t | t in trades :: if trades[t].currency == c && trades[t].status == COMPLETED then trades[t].fee else 0
  }

  lemma DepositCovers(w: World, listings: map<string, Listing>, id: string, t: Trade)
    requires TradeOk(w, listings, id, t) && t.status != ESCROW_PENDING
    ensures t.price <= ReceivedFor(w, id, t)
  {
    var amount := VerifyPayment(w.horizon, t.escrowTxHash.value, Demand(w, id, t)).amount;
    Money.FloorMonotone(Money.Amount(t.price) * 10_000_000.0, amount * 10_000_000.0);
    assert Money.Amount(t.price) * 10_000_000.0 == t.price as real;
  }

  /** The deposit of a trade covers what was sent for it and its fee. */
  predicate Covered(w: World, sent: seq<Transfer>, id: string, t: Trade)
  {
    SentFor(sent, id) + (if t.status == COMPLETED then t.fee else 0) <= ReceivedFor(w, id, t)
  }

  lemma CoveredTradesAddUp(w: World, trades: map<string, Trade>, sent: seq<Transfer>, c: Currency)
    requires forall id :: id in trades ==> Covered(w, sent, id, trades[id])
    ensures Sum(FeesEarned(trades, c)) + Sum(SentByTrade(trades, sent, c)) <= Sum(Received(w, trades, c))
  {
    hide ReceivedFor, SentFor;
    var fees, out := FeesEarned(trades, c), SentByTrade(trades, sent, c);
    var spent := map id | id in trades :: fees[id] + out[id];
    SumAdd(fees, out, spent);
    SumAtMost(spent, Received(w, trades, c));
  }

  /** On the chain itself, in every reachable state and currency, the verified deposits less everything sent
      to sellers and buyers still hold the fees of all completed trades. */
  lemma DepositsCoverTransfers(w: World, s: Store, events: seq<Event>, c: Currency)
    requires WorldOk(w) && Init(s)
    ensures var t := Run(w, s, events);
      Sum(Received(w, t.trades, c)) - SentTotal(t.sent, AssetOf(c, w.env)) >= Sum(FeesEarned(t.trades, c))
  {
    hide Run, Init, BalanceInv, LedgerInv, TradeInv, ReceivedFor, Covered;
    InitHasInv(w, s);
    RunKeepsInv(w, s, events);
    var t := Run(w, s, events);
    forall x | x in t.sent
      ensures TransferOk(w, t.trades, t.queue, x)
    {}
    SentAddsUp(w, t.trades, t.sent, c);
    forall id | id in t.trades
      ensures Covered(w, t.sent, id, t.trades[id])
    {
      TradeCovered(w, s, events, id);
    }
    CoveredTradesAddUp(w, t.trades, t.sent, c);
  }

  lemma TradeCovered(w: World, s: Store, events: seq<Event>, id: string)
    requires WorldOk(w) && Init(s) && id in Run(w, s, events).trades
    ensures var t := Run(w, s, events); Covered(w, t.sent, id, t.trades[id])
  {
    hide Run, Init, BalanceInv, LedgerInv, JobInv, VerifyPayment, ReceivedFor;
    InitHasInv(w, s);
    RunKeepsInv(w, s, events);
    OnePaymentPerTrade(w, s, events, id);
    var t := Run(w, s, events);
    TermsHold(w, t.listings, t.trades, id);
    if t.trades[id].status != ESCROW_PENDING {
      DepositCovers(w, t.listings, id, t.trades[id]);
    } else {
      NoDepositYet(w, id, t.trades[id]);
    }
  }

  lemma NoDepositYet(w: World, id: string, t: Trade)
    ensures t.escrowTxHash.None? ==> ReceivedFor(w, id, t) == 0
  {}

  // ---------------------------------------------------------------- items

  /** The units of an item over all players. */
  ghost function ItemTotal(ownership: map<Slot, Ownership>, itemId: string): int
  {
    Sum(Units(ownership, itemId))
  }

  ghost function Units(ownership: map<Slot, Ownership>, itemId: string): map<Slot, int>
  {
    map slot | slot in ownership && slot.itemId == itemId :: ownership[slot].quantity
  }

  lemma UnitsUpdate(ownership: map<Slot, Ownership>, slot: Slot, row: Ownership)
    ensures ItemTotal(ownership[slot := row], slot.itemId)
         == ItemTotal(ownership, slot.itemId) + row.quantity - if slot in ownership then ownership[slot].quantity else 0
  {
    SumUpdate(Units(ownership, slot.itemId), slot, row.quantity);
    assert Units(ownership[slot := row], slot.itemId) == Units(ownership, slot.itemId)[slot := row.quantity];
  }

  predicate HoldsLock(ownership: map<Slot, Ownership>, slot: Slot, listingId: string)
  {
    slot in ownership && ownership[slot].lockedFor == Some(listingId)
  }

  /** Completing a trade keeps the number of units of the item exactly when the seller's row is still locked
      for this very listing; otherwise the buyer's unit comes from nowhere. */
  lemma CompletionTotal(w: World, s: Store, id: string, txHash: string)
    requires id in s.trades && s.trades[id].listingId in s.listings
    ensures var t := s.trades[id]; var item := s.listings[t.listingId].itemId;
      ItemTotal(TransferCommit(w, s, id, txHash).ownership, item)
      == ItemTotal(s.ownership, item) + if HoldsLock(s.ownership, Slot(t.sellerId, item), t.listingId) then 0 else 1
  {
    var t := s.trades[id];
    var l := s.listings[t.listingId];
    var seller, buyer := Slot(t.sellerId, l.itemId), Slot(t.buyerId, l.itemId);
    var taken := TakeUnit(s.ownership, seller, t.listingId);
    if HoldsLock(s.ownership, seller, t.listingId) {
      UnitsUpdate(s.ownership, seller, taken[seller]);
    }
    UnitsUpdate(taken, buyer, GiveUnit(taken, buyer, l.studioId)[buyer]);
  }

  /** A listing that can still complete. */
  ghost predicate Open(listings: map<string, Listing>, trades: map<string, Trade>, l: string)
    requires l in listings
  {
    listings[l].status == ACTIVE
    || exists t :: t in trades && trades[t].listingId == l && (trades[t].status == ESCROW_PENDING || trades[t].status == PAID)
  }

  function SlotOf(l: Listing): Slot { Slot(l.sellerId, l.itemId) }

  ghost predicate LockInv(listings: map<string, Listing>, trades: map<string, Trade>, ownership: map<Slot, Ownership>)
  {
    forall l :: l in listings && Open(listings, trades, l) ==> HoldsLock(ownership, SlotOf(listings[l]), l)
  }

  /** The seller does not offer an item again while an open listing of it exists. */
  ghost predicate Careful(s: Store, e: Event)
  {
    e.Offering? ==>
      forall l :: l in s.listings && Open(s.listings, s.trades, l) ==> SlotOf(s.listings[l]) != Slot(e.sellerId, e.itemId)
  }

  ghost predicate CarefulRun(w: World, s: Store, events: seq<Event>)
  {
    events == [] ||
    (CarefulRun(w, s, events[..|events| - 1]) && Careful(Run(w, s, events[..|events| - 1]), events[|events| - 1]))
  }

  // Open listings stay open or close; the rows they need keep their locks.
  lemma LocksKept(listings: map<string, Listing>, trades: map<string, Trade>, ownership: map<Slot, Ownership>,
                  listings': map<string, Listing>, trades': map<string, Trade>, ownership': map<Slot, Ownership>)
    requires LockInv(listings, trades, ownership)
    requires forall l :: l in listings' && Open(listings', trades', l) ==>
      (l in listings && Open(listings, trades, l) && SlotOf(listings[l]) == SlotOf(listings'[l])
       && (HoldsLock(ownership, SlotOf(listings[l]), l) ==> HoldsLock(ownership', SlotOf(listings[l]), l)))
      || HoldsLock(ownership', SlotOf(listings'[l]), l)
    ensures LockInv(listings', trades', ownership')
  {}

  lemma OfferKeepsLocks(w: World, s: Store, e: Event)
    requires LockInv(s.listings, s.trades, s.ownership) && TradeInv(w, s.listings, s.trades)
    requires e.Offering? && Enabled(w, s, e) && Careful(s, e)
    ensures var t := CreateListing(w, s, e.sellerId, e.itemId, e.price, e.currency, e.game, e.newId).0;
      LockInv(t.listings, t.trades, t.ownership)
  {
    hide TradeInv;
    var t := CreateListing(w, s, e.sellerId, e.itemId, e.price, e.currency, e.game, e.newId).0;
    forall l | l in t.listings && l != e.newId && Open(t.listings, t.trades, l)
      ensures Open(s.listings, s.trades, l)
    {}
    LocksKept(s.listings, s.trades, s.ownership, t.listings, t.trades, t.ownership);
  }

  lemma OpenKeepsLocks(w: World, s: Store, buyerId: string, listingId: string, newId: string)
    requires LockInv(s.listings, s.trades, s.ownership) && newId !in s.trades
    requires listingId in s.listings && s.listings[listingId].status == ACTIVE
    ensures var t := OpenTrade(w, s, buyerId, listingId, newId); LockInv(t.listings, t.trades, t.ownership)
  {
    hide Money.FeeStroops, Money.NetStroops;
    var t := OpenTrade(w, s, buyerId, listingId, newId);
    assert Open(s.listings, s.trades, listingId);
    forall l | l in t.listings && l != listingId && Open(t.listings, t.trades, l)
      ensures Open(s.listings, s.trades, l)
    {
      if l in s.listings && s.listings[l].status != ACTIVE {
        var u :| u in t.trades && t.trades[u].listingId == l && (t.trades[u].status == ESCROW_PENDING || t.trades[u].status == PAID);
        assert u in s.trades && s.trades[u].listingId == l;
      }
    }
    LocksKept(s.listings, s.trades, s.ownership, t.listings, t.trades, t.ownership);
  }

  // A trade's row moves on; open listings other than its own are not affected.
  lemma OpenAfterMove(listings: map<string, Listing>, trades: map<string, Trade>, id: string, row: Trade,
                      listings': map<string, Listing>, l: string)
    requires id in trades && row.listingId == trades[id].listingId && l in listings && l in listings'
    requires listings'[l].status == listings[l].status || (l == row.listingId && listings'[l].status != ACTIVE)
    requires row.status == ESCROW_PENDING || row.status == PAID ==> trades[id].status == ESCROW_PENDING || trades[id].status == PAID
    ensures Open(listings', trades[id := row], l) ==> Open(listings, trades, l)
  {
    var trades' := trades[id := row];
    if Open(listings', trades', l) && listings'[l].status != ACTIVE {
      var u :| u in trades' && trades'[u].listingId == l && (trades'[u].status == ESCROW_PENDING || trades'[u].status == PAID);
      assert u in trades && trades[u].listingId == l && (trades[u].status == ESCROW_PENDING || trades[u].status == PAID);
    }
  }

  lemma MoveKeepsOtherLocks(ownership: map<Slot, Ownership>, t: Trade, l: Listing, slot: Slot, key: string)
    requires HoldsLock(ownership, slot, key) && key != t.listingId
    ensures HoldsLock(MoveUnit(ownership, t, l), slot, key)
  {}

  lemma OtherListingsOpen(w: World, s: Store, id: string, txHash: string, l: string)
    requires TradeInv(w, s.listings, s.trades) && id in s.trades && s.trades[id].status == PAID
    requires s.trades[id].listingId in s.listings
    requires var t := TransferCommit(w, s, id, txHash); l in t.listings && Open(t.listings, t.trades, l)
    ensures l != s.trades[id].listingId && l in s.listings && Open(s.listings, s.trades, l)
  {
    hide TradeOk;
    var t := TransferCommit(w, s, id, txHash);
    var own := s.trades[id].listingId;
    OpenAfterMove(s.listings, s.trades, id, t.trades[id], t.listings, l);
    forall u | u in t.trades && t.trades[u].listingId == own
      ensures u == id
    {
      assert u in s.trades && s.trades[u].listingId == own;
    }
  }

  lemma CommitKeepsLocks(w: World, s: Store, id: string, txHash: string)
    requires LockInv(s.listings, s.trades, s.ownership) && TradeInv(w, s.listings, s.trades)
    requires id in s.trades && s.trades[id].status == PAID && s.trades[id].listingId in s.listings
    ensures var t := TransferCommit(w, s, id, txHash); LockInv(t.listings, t.trades, t.ownership)
    ensures HoldsLock(s.ownership, SlotOf(s.listings[s.trades[id].listingId]), s.trades[id].listingId)
  {
    hide TradeInv, MoveUnit, HoldsLock;
    var t := TransferCommit(w, s, id, txHash);
    var own := s.trades[id].listingId;
    assert Open(s.listings, s.trades, own);
    forall l | l in t.listings && Open(t.listings, t.trades, l)
      ensures HoldsLock(t.ownership, SlotOf(t.listings[l]), l)
    {
      OtherListingsOpen(w, s, id, txHash, l);
      MoveKeepsOtherLocks(s.ownership, s.trades[id], s.listings[own], SlotOf(s.listings[l]), l);
    }
  }

  lemma StepKeepsLocks(w: World, s: Store, e: Event)
    requires Inv(w, s) && LockInv(s.listings, s.trades, s.ownership) && Careful(s, e)
    ensures var t := Step(w, s, e); LockInv(t.listings, t.trades, t.ownership)
  {
    hide TradeInv, LedgerInv, JobInv, BalanceInv, Verify, CreateListing, TransferCommit, RefundCommit, Send, OpenTrade, OfferFor, LockInv;
    if Enabled(w, s, e) {
      match e
      case Refreshed(slot, studioId, quantity) => RefreshKeepsLocks(s, slot, studioId, quantity);
      case Offering(_, _, _, _, _, _) => OfferKeepsLocks(w, s, e);
      case Quoting(buyer, listing, newId, _) =>
        if listing in s.listings && s.listings[listing].status == ACTIVE { OpenKeepsLocks(w, s, buyer, listing, newId); }
      case Verifying(t, txHash) => VerifyKeepsLocks(w, s, t, txHash);
      case TransferCommitted(t) =>
        AbsentJob(w, s.trades, s.queue, s.sent, t);
        CommitKeepsLocks(w, s, t, s.queue[TransferJob(t)].txHash);
      case RefundCommitted(t) => RefundKeepsLocks(w, s, t, s.queue[RefundJob(t)].txHash);
      case TransferSent(_, _) => SendKeepsTables(w, s, e);
      case RefundSent(_, _) => SendKeepsTables(w, s, e);
      case _ =>
    }
  }

  lemma SendKeepsTables(w: World, s: Store, e: Event)
    requires e.TransferSent? || e.RefundSent?
    ensures var t := Step(w, s, e); t.listings == s.listings && t.trades == s.trades && t.ownership == s.ownership
  {
    hide Verify, CreateListing, CreateTradeQuote, TransferCommit, RefundCommit, TransferBegin, Memo.Truncated;
  }

  lemma RefreshKeepsLocks(s: Store, slot: Slot, studioId: string, quantity: nat)
    requires LockInv(s.listings, s.trades, s.ownership)
    ensures LockInv(s.listings, s.trades, Refresh(s, slot, studioId, quantity).ownership)
  {}

  lemma VerifyKeepsLocks(w: World, s: Store, id: string, txHash: string)
    requires LockInv(s.listings, s.trades, s.ownership)
    ensures var t := Verify(w, s, id, txHash).0; LockInv(t.listings, t.trades, t.ownership)
  {
    hide VerifyPayment;
    var (t, out) := Verify(w, s, id, txHash);
    if out == Escrowed {
      forall l | l in s.listings
        ensures Open(t.listings, t.trades, l) ==> Open(s.listings, s.trades, l)
      {
        OpenAfterMove(s.listings, s.trades, id, t.trades[id], t.listings, l);
      }
    }
  }

  lemma RefundKeepsLocks(w: World, s: Store, id: string, txHash: string)
    requires LockInv(s.listings, s.trades, s.ownership) && id in s.trades
    ensures var t := RefundCommit(w, s, id, txHash); LockInv(t.listings, t.trades, t.ownership)
  {
    var t := RefundCommit(w, s, id, txHash);
    forall l | l in s.listings
      ensures Open(t.listings, t.trades, l) ==> Open(s.listings, s.trades, l)
    {
      OpenAfterMove(s.listings, s.trades, id, t.trades[id], t.listings, l);
    }
  }

  lemma {:induction false} CarefulRunKeepsLocks(w: World, s: Store, events: seq<Event>)
    requires WorldOk(w) && Init(s) && CarefulRun(w, s, events)
    ensures var t := Run(w, s, events); Inv(w, t) && LockInv(t.listings, t.trades, t.ownership)
  {
    hide Inv, Step, LockInv, WorldOk;
    InitHasInv(w, s);
    RunKeepsInv(w, s, events);
    if events == [] {
      NoListingsNoLocks(s);
    } else {
      var before := events[..|events| - 1];
      CarefulRunKeepsLocks(w, s, before);
      StepKeepsLocks(w, Run(w, s, before), events[|events| - 1]);
    }
  }

  lemma NoListingsNoLocks(s: Store)
    requires Init(s)
    ensures LockInv(s.listings, s.trades, s.ownership)
  {}

  /** In a run where no seller offers an item twice at a time, whatever refreshes happen, completing a trade
      moves exactly one unit from the seller to a different player and keeps the item's total. */
  lemma CompletionMovesOneUnit(w: World, s: Store, events: seq<Event>, id: string)
    requires WorldOk(w) && Init(s) && CarefulRun(w, s, events)
    requires Enabled(w, Run(w, s, events), TransferCommitted(id))
    ensures var b := Run(w, s, events); var a := Step(w, b, TransferCommitted(id));
      var t := b.trades[id]; var item := b.listings[t.listingId].itemId;
      var seller, buyer := Slot(t.sellerId, item), Slot(t.buyerId, item);
      && seller != buyer && seller in b.ownership && seller in a.ownership && buyer in a.ownership
      && a.ownership[seller].quantity == b.ownership[seller].quantity - 1
      && a.ownership[buyer].quantity == 1 + (if buyer in b.ownership then b.ownership[buyer].quantity else 0)
      && (forall slot :: slot != seller && slot != buyer ==>
            (slot in a.ownership <==> slot in b.ownership) && (slot in b.ownership ==> a.ownership[slot] == b.ownership[slot]))
      && ItemTotal(a.ownership, item) == ItemTotal(b.ownership, item)
  {
    hide Run, LedgerInv, JobInv, BalanceInv, TradeInv, LockInv, Verify, CreateListing, CreateTradeQuote, RefundCommit, Send, CarefulRun;
    CarefulRunKeepsLocks(w, s, events);
    var b := Run(w, s, events);
    var txHash := b.queue[TransferJob(id)].txHash;
    AbsentJob(w, b.trades, b.queue, b.sent, id);
    TermsHold(w, b.listings, b.trades, id);
    CommitKeepsLocks(w, b, id, txHash);
    CompletionTotal(w, b, id, txHash);
  }
}
