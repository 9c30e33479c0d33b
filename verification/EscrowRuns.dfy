/** Runs of the escrow protocol in pieces, and a sale that runs without disturbance up to its deposit. */
module EscrowRuns {
  import opened Wrappers
  import opened Stellar
  import opened Escrow
  import opened EscrowInvariants
  import opened EscrowJobs
  import opened EscrowTheorems
  import Money

  lemma {:induction false} RunConcat(w: World, s: Store, a: seq<Event>, b: seq<Event>)
    ensures Run(w, s, a + b) == Run(w, Run(w, s, a), b)
  {
    hide Step;
    if b == [] {
      assert a + b == a;
    } else {
      assert (a + b)[..|a + b| - 1] == a + b[..|b| - 1];
      RunConcat(w, s, a, b[..|b| - 1]);
    }
  }

  lemma RunNext(w: World, s: Store, events: seq<Event>, e: Event)
    ensures Run(w, s, events + [e]) == Step(w, Run(w, s, events), e)
  {
    hide Step;
    assert (events + [e])[..|events + [e]| - 1] == events;
  }

  lemma RunThree(w: World, s: Store, events: seq<Event>)
    requires |events| == 3
    ensures Run(w, s, events) == Step(w, Step(w, Step(w, s, events[0]), events[1]), events[2])
  {
    hide Step;
    assert events[..2][..1] == events[..1] && events[..1][..0] == [];
    assert Run(w, s, events[..1]) == Step(w, s, events[0]);
    assert Run(w, s, events[..2]) == Step(w, Run(w, s, events[..1]), events[1]);
  }

  /** A seller offers an item, a buyer takes it and deposits the price. */
  datatype Sale = Sale(
    sellerId: string, buyerId: string, itemId: string, listingId: string, tradeId: string,
    price: int, currency: Currency, quantity: nat, deposit: string)
  {
    function Events(): seq<Event>
    {
      [Offering(sellerId, itemId, price, currency, Some(quantity), listingId), Quoting(buyerId, listingId, tradeId, true),
       Verifying(tradeId, deposit)]
    }

    function SellerSlot(): Slot { Slot(sellerId, itemId) }

    function TheListing(studioId: string): Listing { Listing(studioId, itemId, sellerId, price, currency, ACTIVE) }
  }

  /** Checked before the first call: two players, a unit in the game, a studio with an API, a wallet, and a transaction
      on the chain that pays the price with the trade's memo as its only operation. */
  ghost predicate CanHappen(w: World, d: Sale)
  {
    && d.buyerId != d.sellerId && 0 <= d.price && 1 <= d.quantity
    && d.itemId in w.itemStudio && w.itemStudio[d.itemId] in w.studioHasApi && Wallet(w, d.sellerId) != ""
    && d.deposit != "" && d.deposit in w.horizon && |w.horizon[d.deposit].operations| == 1
    && Carries(w.horizon[d.deposit],
               PaymentOf(w.env.receivingAccount, AssetOf(d.currency, w.env), d.price, d.tradeId), 0)
  }

  /** The state after the deposit: one locked listing, one PAID trade, its transfer job waiting. */
  ghost predicate Deposited(w: World, t: Store, d: Sale)
  {
    && d.listingId in t.listings && t.listings[d.listingId].studioId in w.studioHasApi && t.listings[d.listingId].itemId == d.itemId
    && d.tradeId in t.trades && t.trades[d.tradeId].status == PAID && t.trades[d.tradeId].listingId == d.listingId
    && t.trades[d.tradeId].sellerId == d.sellerId && t.trades[d.tradeId].buyerId == d.buyerId
    && InState(t, TransferJob(d.tradeId), Waiting)
    && HoldsLock(t.ownership, d.SellerSlot(), d.listingId) && t.ownership[d.SellerSlot()].quantity == d.quantity
  }

  lemma SaleQuoted(w: World, s: Store, d: Sale) returns (t: Store)
    requires WorldOk(w) && Init(s) && CanHappen(w, d)
    ensures t == Step(w, Step(w, s, d.Events()[0]), d.Events()[1])
    ensures var l := d.TheListing(w.itemStudio[d.itemId]);
      && t.trades == map[d.tradeId := NewTrade(w, d.listingId, l, d.buyerId)]
      && t.listings == map[d.listingId := l.(status := LOCKED)] && t.queue == map[]
    ensures HoldsLock(t.ownership, d.SellerSlot(), d.listingId) && t.ownership[d.SellerSlot()].quantity == d.quantity
  {
    hide Verify, TransferCommit, RefundCommit, TransferBegin, Send, OfferFor, Money.FeeStroops, Carries;
    var a := Step(w, s, d.Events()[0]);
    assert a.listings == map[d.listingId := d.TheListing(w.itemStudio[d.itemId])] && a.trades == map[] && d.SellerSlot() in a.ownership;
    t := Step(w, a, d.Events()[1]);
  }

  lemma SaleIsDeposited(w: World, s: Store, d: Sale)
    requires WorldOk(w) && Init(s) && CanHappen(w, d)
    ensures Deposited(w, Run(w, s, d.Events()), d)
  {
    hide Run, Step, VerifyPayment, OpenTrade, Money.FeeStroops, Carries, PageAccepts, Init, WorldOk;
    var t := SaleQuoted(w, s, d);
    OfferEscrows(w, t, d.tradeId, d.deposit, 0);
    RunThree(w, s, d.Events());
    VerifyStep(w, t, d.tradeId, d.deposit);
  }

  lemma VerifyStep(w: World, s: Store, id: string, txHash: string)
    ensures Step(w, s, Verifying(id, txHash)) == Verify(w, s, id, txHash).0
  {
    hide Verify;
  }

  // ---------------------------------------------------------------- a stranded trade

  /** A run that strands a trade: the game hands the item over, the payout to the seller fails, and from then on
      the deposit is kept, the listing locked and nobody paid. */
  lemma FailedPayoutStrands(w: World, s: Store, d: Sale)
    requires WorldOk(w) && Init(s) && CanHappen(w, d)
    ensures var events := d.Events() + [TransferStarted(d.tradeId, true)] + [JobGivenUp(TransferJob(d.tradeId))];
      var t := Run(w, s, events);
      && Stranded(w, s, events, d.tradeId)
      && d.tradeId in t.trades && t.trades[d.tradeId].status == PAID && !Closing(t, d.tradeId)
  {
    hide Run, Step, Init, WorldOk, CanHappen, Closing, Deposited, Strands;
    SaleIsDeposited(w, s, d);
    var b := Run(w, s, d.Events());
    var started := d.Events() + [TransferStarted(d.tradeId, true)];
    RunNext(w, s, d.Events(), TransferStarted(d.tradeId, true));
    var c := Step(w, b, TransferStarted(d.tradeId, true));
    StartsPaying(w, b, d);
    GivingUpStrands(w, c, d.tradeId);
    assert (started + [JobGivenUp(TransferJob(d.tradeId))])[..|started|] == started;
    StrandedIsStuck(w, s, started + [JobGivenUp(TransferJob(d.tradeId))], d.tradeId);
  }

  lemma StartsPaying(w: World, s: Store, d: Sale)
    requires Deposited(w, s, d) && CanHappen(w, d)
    ensures InState(Step(w, s, TransferStarted(d.tradeId, true)), TransferJob(d.tradeId), Paying)
    ensures Step(w, s, TransferStarted(d.tradeId, true)) == s.(queue := Step(w, s, TransferStarted(d.tradeId, true)).queue)
  {
    hide Carries, Verify, CreateListing, CreateTradeQuote, TransferCommit, RefundCommit, Send;
  }

  lemma GivingUpStrands(w: World, s: Store, id: string)
    requires InState(s, TransferJob(id), Paying)
    ensures Strands(w, s, JobGivenUp(TransferJob(id)), id)
  {}
}
