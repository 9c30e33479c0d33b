/** Item quantities under the escrow protocol: when they stay non-negative, and how offering an item twice creates a
    unit. */
module EscrowItems {
  import opened Wrappers
  import opened Stellar
  import opened Escrow
  import opened EscrowInvariants
  import opened EscrowTheorems
  import opened EscrowRuns
  import Memo
  import Money

  // ---------------------------------------------------------------- quantities

  /** Completing a trade leaves the seller's row non-negative exactly when it has a unit to give, or, not being
      locked for this listing, gives none. */
  lemma SellerStaysNonNegative(w: World, s: Store, id: string, txHash: string)
    requires id in s.trades && s.trades[id].listingId in s.listings && s.trades[id].buyerId != s.trades[id].sellerId
    requires Slot(s.trades[id].sellerId, s.listings[s.trades[id].listingId].itemId) in s.ownership
    ensures var t := s.trades[id]; var slot := Slot(t.sellerId, s.listings[t.listingId].itemId);
      var after := TransferCommit(w, s, id, txHash).ownership;
      && slot in after
      && (0 <= after[slot].quantity <==>
            if HoldsLock(s.ownership, slot, t.listingId) then 1 <= s.ownership[slot].quantity else 0 <= s.ownership[slot].quantity)
  {}

  /** No quantity is negative, and the row of an open listing has a unit to give. */
  ghost predicate StockInv(listings: map<string, Listing>, trades: map<string, Trade>, ownership: map<Slot, Ownership>)
  {
    && (forall slot :: slot in ownership ==> 0 <= ownership[slot].quantity)
    && (forall l :: l in listings && Open(listings, trades, l) && SlotOf(listings[l]) in ownership ==>
          1 <= ownership[SlotOf(listings[l])].quantity)
  }

  /** The game does not report an item as gone while an open listing offers it. */
  ghost predicate Truthful(s: Store, e: Event)
  {
    e.Refreshed? && e.quantity == 0 ==>
      forall l :: l in s.listings && Open(s.listings, s.trades, l) ==> SlotOf(s.listings[l]) != e.slot
  }

  ghost predicate TruthfulRun(w: World, s: Store, events: seq<Event>)
  {
    events == [] ||
    (TruthfulRun(w, s, events[..|events| - 1]) && Truthful(Run(w, s, events[..|events| - 1]), events[|events| - 1]))
  }

  // Open listings were open before, and rows keep at least their quantity.
  lemma StockKept(listings: map<string, Listing>, trades: map<string, Trade>, ownership: map<Slot, Ownership>,
                  listings': map<string, Listing>, trades': map<string, Trade>, ownership': map<Slot, Ownership>)
    requires StockInv(listings, trades, ownership)
    requires forall slot :: slot in ownership' ==> slot in ownership && ownership[slot].quantity <= ownership'[slot].quantity
    requires forall l :: l in listings' && Open(listings', trades', l) ==>
      l in listings && Open(listings, trades, l) && SlotOf(listings[l]) == SlotOf(listings'[l])
    ensures StockInv(listings', trades', ownership')
  {
    hide Open;
  }

  lemma RefreshKeepsStock(s: Store, slot: Slot, studioId: string, quantity: nat)
    requires StockInv(s.listings, s.trades, s.ownership) && Truthful(s, Refreshed(slot, studioId, quantity))
    ensures StockInv(s.listings, s.trades, Refresh(s, slot, studioId, quantity).ownership)
  {
    hide Open;
  }

  lemma OfferKeepsStock(w: World, s: Store, e: Event)
    requires StockInv(s.listings, s.trades, s.ownership) && TradeInv(w, s.listings, s.trades)
    requires e.Offering? && Enabled(w, s, e) && Careful(s, e)
    ensures var t := CreateListing(w, s, e.sellerId, e.itemId, e.price, e.currency, e.game, e.newId).0;
      StockInv(t.listings, t.trades, t.ownership)
  {
    hide TradeInv, StockInv;
    var t := CreateListing(w, s, e.sellerId, e.itemId, e.price, e.currency, e.game, e.newId).0;
    forall l | l in t.listings && l != e.newId && Open(t.listings, t.trades, l)
      ensures l in s.listings && Open(s.listings, s.trades, l)
    {}
    hide Open;
    if t != s { OfferedStock(s, t, Slot(e.sellerId, e.itemId), e.newId); }
  }

  // The offered row has a unit, or nothing open needs it; all other rows stay.
  lemma OfferedStock(s: Store, t: Store, slot: Slot, newId: string)
    requires StockInv(s.listings, s.trades, s.ownership)
    requires forall l :: l in t.listings && l != newId && Open(t.listings, t.trades, l) ==>
      l in s.listings && Open(s.listings, s.trades, l) && t.listings[l] == s.listings[l] && SlotOf(s.listings[l]) != slot
    requires forall other :: other != slot && other in t.ownership ==> other in s.ownership && t.ownership[other] == s.ownership[other]
    requires slot in t.ownership ==> 0 <= t.ownership[slot].quantity
    requires newId in t.listings && Open(t.listings, t.trades, newId) ==>
      SlotOf(t.listings[newId]) == slot && slot in t.ownership && 1 <= t.ownership[slot].quantity
    ensures StockInv(t.listings, t.trades, t.ownership)
  {
    hide Open;
  }

  lemma OpenKeepsStock(w: World, s: Store, buyerId: string, listingId: string, newId: string)
    requires StockInv(s.listings, s.trades, s.ownership) && newId !in s.trades
    requires listingId in s.listings && s.listings[listingId].status == ACTIVE
    ensures var t := OpenTrade(w, s, buyerId, listingId, newId); StockInv(t.listings, t.trades, t.ownership)
  {
    hide Money.FeeStroops, Money.NetStroops;
    var t := OpenTrade(w, s, buyerId, listingId, newId);
    forall l | l in t.listings && Open(t.listings, t.trades, l)
      ensures Open(s.listings, s.trades, l)
    {
      if l != listingId && s.listings[l].status != ACTIVE {
        var u :| u in t.trades && t.trades[u].listingId == l && (t.trades[u].status == ESCROW_PENDING || t.trades[u].status == PAID);
        assert u in s.trades && s.trades[u].listingId == l;
      }
    }
    hide Open;
    StockKept(s.listings, s.trades, s.ownership, t.listings, t.trades, t.ownership);
  }

  lemma VerifyKeepsStock(w: World, s: Store, id: string, txHash: string)
    requires StockInv(s.listings, s.trades, s.ownership)
    ensures var t := Verify(w, s, id, txHash).0; StockInv(t.listings, t.trades, t.ownership)
  {
    hide VerifyPayment, StockInv, Open;
    var (t, out) := Verify(w, s, id, txHash);
    if out == Escrowed {
      forall l | l in s.listings
        ensures Open(t.listings, t.trades, l) ==> Open(s.listings, s.trades, l)
      {
        OpenAfterMove(s.listings, s.trades, id, t.trades[id], t.listings, l);
      }
      StockKept(s.listings, s.trades, s.ownership, t.listings, t.trades, t.ownership);
    }
  }

  lemma RefundKeepsStock(w: World, s: Store, id: string, txHash: string)
    requires StockInv(s.listings, s.trades, s.ownership) && id in s.trades
    ensures var t := RefundCommit(w, s, id, txHash); StockInv(t.listings, t.trades, t.ownership)
  {
    hide StockInv, Open;
    var t := RefundCommit(w, s, id, txHash);
    forall l | l in s.listings
      ensures Open(t.listings, t.trades, l) ==> Open(s.listings, s.trades, l)
    {
      OpenAfterMove(s.listings, s.trades, id, t.trades[id], t.listings, l);
    }
    StockKept(s.listings, s.trades, s.ownership, t.listings, t.trades, t.ownership);
  }

  lemma CommitKeepsStock(w: World, s: Store, id: string, txHash: string)
    requires StockInv(s.listings, s.trades, s.ownership) && LockInv(s.listings, s.trades, s.ownership)
    requires TradeInv(w, s.listings, s.trades) && id in s.trades && s.trades[id].status == PAID
    requires s.trades[id].listingId in s.listings
    ensures var t := TransferCommit(w, s, id, txHash); StockInv(t.listings, t.trades, t.ownership)
  {
    hide TradeOk;
    var t := TransferCommit(w, s, id, txHash);
    var own := s.trades[id].listingId;
    assert Open(s.listings, s.trades, own);
    TermsHold(w, s.listings, s.trades, id);
    SellerIsListed(w, s, id);
    forall l | l in t.listings && Open(t.listings, t.trades, l)
      ensures l in s.listings && l != own && Open(s.listings, s.trades, l) && SlotOf(s.listings[l]) != SlotOf(s.listings[own])
    {
      OtherListingsOpen(w, s, id, txHash, l);
    }
    hide Open, TradeInv, LockInv;
  }

  lemma SellerIsListed(w: World, s: Store, id: string)
    requires id in s.trades && s.trades[id].listingId in s.listings && TradeOk(w, s.listings, id, s.trades[id])
    ensures SlotOf(s.listings[s.trades[id].listingId]) == Slot(s.trades[id].sellerId, s.listings[s.trades[id].listingId].itemId)
  {
    hide VerifyPayment;
  }

  lemma StepKeepsStock(w: World, s: Store, e: Event)
    requires Inv(w, s) && LockInv(s.listings, s.trades, s.ownership) && StockInv(s.listings, s.trades, s.ownership)
    requires Careful(s, e) && Truthful(s, e)
    ensures var t := Step(w, s, e); StockInv(t.listings, t.trades, t.ownership)
  {
    hide TradeInv, LedgerInv, JobInv, BalanceInv, Verify, CreateListing, TransferCommit, RefundCommit, Send, OpenTrade, OfferFor, LockInv, StockInv;
    if Enabled(w, s, e) {
      match e
      case Refreshed(slot, studioId, quantity) => RefreshKeepsStock(s, slot, studioId, quantity);
      case Offering(_, _, _, _, _, _) => OfferKeepsStock(w, s, e);
      case Quoting(buyer, listing, newId, _) =>
        if listing in s.listings && s.listings[listing].status == ACTIVE { OpenKeepsStock(w, s, buyer, listing, newId); }
      case Verifying(t, txHash) => VerifyKeepsStock(w, s, t, txHash);
      case TransferCommitted(t) =>
        AbsentJob(w, s.trades, s.queue, s.sent, t);
        CommitKeepsStock(w, s, t, s.queue[TransferJob(t)].txHash);
      case RefundCommitted(t) => RefundKeepsStock(w, s, t, s.queue[RefundJob(t)].txHash);
      case TransferSent(_, _) => SendKeepsTables(w, s, e);
      case RefundSent(_, _) => SendKeepsTables(w, s, e);
      case _ =>
    }
  }

  /** Where no seller offers an item twice at a time and the game never reports an offered item as gone, no player's
      quantity is ever negative. */
  lemma {:induction false} QuantitiesStayNonNegative(w: World, s: Store, events: seq<Event>)
    requires WorldOk(w) && Init(s) && CarefulRun(w, s, events) && TruthfulRun(w, s, events)
    requires forall slot :: slot in s.ownership ==> 0 <= s.ownership[slot].quantity
    ensures var t := Run(w, s, events);
      && StockInv(t.listings, t.trades, t.ownership)
      && forall slot :: slot in t.ownership ==> 0 <= t.ownership[slot].quantity
  {
    hide Step, Inv, LockInv, Careful, Truthful, WorldOk, Open;
    if events != [] {
      var before := events[..|events| - 1];
      QuantitiesStayNonNegative(w, s, before);
      CarefulRunKeepsLocks(w, s, before);
      StepKeepsStock(w, Run(w, s, before), events[|events| - 1]);
    }
  }

  // ---------------------------------------------------------------- a unit out of nothing

  /** A seller offers an item twice, and the first offer is bought, paid and handed over. */
  datatype DoubleOffer = DoubleOffer(sale: Sale, second: string, payout: string)
  {
    function Offers(): seq<Event>
    {
      [sale.Events()[0], sale.Events()[1],
       Offering(sale.sellerId, sale.itemId, sale.price, sale.currency, Some(sale.quantity), second)]
    }

    function HandOver(): seq<Event>
    {
      [sale.Events()[2], TransferStarted(sale.tradeId, true), TransferSent(sale.tradeId, payout)]
    }
  }

  lemma OffersMade(w: World, s: Store, d: DoubleOffer) returns (t: Store)
    requires WorldOk(w) && Init(s) && CanHappen(w, d.sale) && d.second != d.sale.listingId
    ensures t == Step(w, Step(w, Step(w, s, d.Offers()[0]), d.Offers()[1]), d.Offers()[2])
    ensures var l := d.sale.TheListing(w.itemStudio[d.sale.itemId]);
      && t.trades == map[d.sale.tradeId := NewTrade(w, d.sale.listingId, l, d.sale.buyerId)]
      && d.sale.listingId in t.listings && t.listings[d.sale.listingId] == l.(status := LOCKED) && t.queue == map[]
    ensures HoldsLock(t.ownership, d.sale.SellerSlot(), d.second)
  {
    hide Verify, TransferCommit, RefundCommit, TransferBegin, Send, OpenTrade, OfferFor, Money.FeeStroops, Carries;
    var b := SaleQuoted(w, s, d.sale);
    t := Step(w, b, d.Offers()[2]);
  }

  lemma HandedOver(w: World, s: Store, d: DoubleOffer) returns (t: Store)
    requires CanHappen(w, d.sale) && s.queue == map[] && d.sale.listingId in s.listings
    requires var l := d.sale.TheListing(w.itemStudio[d.sale.itemId]);
      && s.trades == map[d.sale.tradeId := NewTrade(w, d.sale.listingId, l, d.sale.buyerId)]
      && s.listings[d.sale.listingId] == l.(status := LOCKED)
    ensures t == Step(w, Step(w, Step(w, s, d.HandOver()[0]), d.HandOver()[1]), d.HandOver()[2])
    ensures t.ownership == s.ownership && t.listings == s.listings && d.sale.tradeId in t.trades
    ensures t.trades[d.sale.tradeId].listingId == d.sale.listingId && t.trades[d.sale.tradeId].sellerId == d.sale.sellerId
    ensures TransferJob(d.sale.tradeId) in t.queue && t.queue[TransferJob(d.sale.tradeId)] == Sent(d.payout)
  {
    hide VerifyPayment, CreateListing, OpenTrade, TransferCommit, RefundCommit, Money.FeeStroops, Carries, PageAccepts, Memo.Truncated;
    var id := d.sale.tradeId;
    OfferEscrows(w, s, id, d.sale.deposit, 0);
    var a := Step(w, s, d.HandOver()[0]);
    assert a == Deposit(w, s, id, d.sale.deposit);
    var b := Step(w, a, d.HandOver()[1]);
    assert b == a.(queue := b.queue) && InState(b, TransferJob(id), Paying);
    t := Step(w, b, d.HandOver()[2]);
  }

  /** A run that creates a unit: offering the item again moves the lock to the second listing, so completing the
      trade on the first gives the buyer a unit that nobody loses. */
  lemma DoubleOfferCreatesUnit(w: World, s: Store, d: DoubleOffer)
    requires WorldOk(w) && Init(s) && CanHappen(w, d.sale) && d.second != d.sale.listingId
    ensures var b := Run(w, s, d.Offers() + d.HandOver());
      && Enabled(w, b, TransferCommitted(d.sale.tradeId))
      && ItemTotal(Run(w, s, d.Offers() + d.HandOver() + [TransferCommitted(d.sale.tradeId)]).ownership, d.sale.itemId)
         == ItemTotal(b.ownership, d.sale.itemId) + 1
  {
    hide Run, Step, WorldOk, CanHappen, Init, ItemTotal, TransferCommit;
    var t := OffersMade(w, s, d);
    var u := HandedOver(w, t, d);
    RunConcat(w, s, d.Offers(), d.HandOver());
    RunThree(w, s, d.Offers());
    RunThree(w, t, d.HandOver());
    assert u == Run(w, s, d.Offers() + d.HandOver());
    RunNext(w, s, d.Offers() + d.HandOver(), TransferCommitted(d.sale.tradeId));
    CommitIs(w, u, d.sale.tradeId);
    CompletionTotal(w, u, d.sale.tradeId, d.payout);
  }

  lemma CommitIs(w: World, s: Store, id: string)
    requires Enabled(w, s, TransferCommitted(id))
    ensures Step(w, s, TransferCommitted(id)) == TransferCommit(w, s, id, s.queue[TransferJob(id)].txHash)
  {
    hide TransferCommit;
  }

  // ---------------------------------------------------------------- a negative quantity

  ghost predicate NonNegative(s: Store)
  {
    forall slot :: slot in s.ownership ==> 0 <= s.ownership[slot].quantity
  }

  /** A completion takes a unit from a row that has none. */
  predicate Overdraws(w: World, s: Store, e: Event)
  {
    && e.TransferCommitted? && Enabled(w, s, e)
    && var t := s.trades[e.tradeId]; var slot := Slot(t.sellerId, s.listings[t.listingId].itemId);
    HoldsLock(s.ownership, slot, t.listingId) && s.ownership[slot].quantity < 1
  }

  lemma CommitDraws(w: World, s: Store, e: Event)
    requires Inv(w, s) && NonNegative(s) && e.TransferCommitted? && Enabled(w, s, e)
    ensures NonNegative(Step(w, s, e)) <==> !Overdraws(w, s, e)
  {
    hide TradeInv, LedgerInv, JobInv, BalanceInv, MoveUnit, Verify, CreateListing, CreateTradeQuote;
    TermsHold(w, s.listings, s.trades, e.tradeId);
    var t := s.trades[e.tradeId];
    var l := s.listings[t.listingId];
    MoveDraws(s.ownership, t, l);
  }

  lemma MoveDraws(ownership: map<Slot, Ownership>, t: Trade, l: Listing)
    requires t.buyerId != t.sellerId && forall slot :: slot in ownership ==> 0 <= ownership[slot].quantity
    ensures (forall slot :: slot in MoveUnit(ownership, t, l) ==> 0 <= MoveUnit(ownership, t, l)[slot].quantity)
      <==> !(HoldsLock(ownership, Slot(t.sellerId, l.itemId), t.listingId) && ownership[Slot(t.sellerId, l.itemId)].quantity < 1)
  {
    var seller := Slot(t.sellerId, l.itemId);
    if HoldsLock(ownership, seller, t.listingId) {
      assert MoveUnit(ownership, t, l)[seller].quantity == ownership[seller].quantity - 1;
    }
  }

  lemma OthersDoNotDraw(w: World, s: Store, e: Event)
    requires NonNegative(s) && !(e.TransferCommitted? && Enabled(w, s, e))
    ensures NonNegative(Step(w, s, e))
  {
    hide VerifyPayment, TransferCommit, OfferFor, NewTrade;
  }

  ghost predicate NeverNegative(w: World, s: Store, events: seq<Event>)
  {
    NonNegative(Run(w, s, events)) && (events == [] || NeverNegative(w, s, events[..|events| - 1]))
  }

  predicate Overdrawn(w: World, s: Store, events: seq<Event>)
  {
    events != [] &&
    var before := events[..|events| - 1];
    Overdrawn(w, s, before) || Overdraws(w, Run(w, s, before), events[|events| - 1])
  }

  /** From non-negative quantities, no quantity is ever negative in a run exactly if no completion of it takes a unit
      from a row that has none. */
  lemma {:induction false} NegativeIffOverdrawn(w: World, s: Store, events: seq<Event>)
    requires WorldOk(w) && Init(s) && NonNegative(s)
    ensures NeverNegative(w, s, events) <==> !Overdrawn(w, s, events)
  {
    hide Step, Inv, NonNegative, Overdraws, Init, WorldOk, Enabled;
    if events != [] {
      var before, e := events[..|events| - 1], events[|events| - 1];
      NegativeIffOverdrawn(w, s, before);
      InitHasInv(w, s);
      RunKeepsInv(w, s, before);
      var t := Run(w, s, before);
      if NeverNegative(w, s, before) {
        assert NonNegative(t);
        if e.TransferCommitted? && Enabled(w, t, e) {
          CommitDraws(w, t, e);
        } else {
          OthersDoNotDraw(w, t, e);
          DrawsOnlyOnCommit(w, t, e);
        }
      }
    }
  }

  lemma DrawsOnlyOnCommit(w: World, s: Store, e: Event)
    ensures Overdraws(w, s, e) ==> e.TransferCommitted? && Enabled(w, s, e)
  {}

  /** Where sellers do not offer an item twice at a time, completing a trade leaves the seller's row non-negative
      exactly if it has a unit. */
  lemma CompletionStaysNonNegative(w: World, s: Store, events: seq<Event>, id: string)
    requires WorldOk(w) && Init(s) && CarefulRun(w, s, events)
    requires Enabled(w, Run(w, s, events), TransferCommitted(id))
    ensures var b := Run(w, s, events); var a := Step(w, b, TransferCommitted(id));
      var slot := Slot(b.trades[id].sellerId, b.listings[b.trades[id].listingId].itemId);
      && slot in b.ownership && slot in a.ownership
      && (0 <= a.ownership[slot].quantity <==> 1 <= b.ownership[slot].quantity)
  {
    hide Run, Step, CarefulRun, Init, ItemTotal, Inv;
    CompletionMovesOneUnit(w, s, events, id);
  }

  /** A run that ends at minus one: while the item is on offer the game reports it gone, and the trade completes. */
  lemma RefreshedToZeroOverdraws(w: World, s: Store, d: Sale, studioId: string, payout: string)
    requires WorldOk(w) && Init(s) && CanHappen(w, d)
    ensures var t := Run(w, s, d.Events() + [Refreshed(d.SellerSlot(), studioId, 0), TransferStarted(d.tradeId, true),
                                             TransferSent(d.tradeId, payout)] + [TransferCommitted(d.tradeId)]);
      d.SellerSlot() in t.ownership && t.ownership[d.SellerSlot()].quantity == -1
  {
    hide Run, Step, Init, WorldOk, CanHappen;
    SaleIsDeposited(w, s, d);
    var rest := [Refreshed(d.SellerSlot(), studioId, 0), TransferStarted(d.tradeId, true), TransferSent(d.tradeId, payout)];
    var a := Run(w, s, d.Events());
    RunConcat(w, s, d.Events(), rest);
    RunThree(w, a, rest);
    var b := EmptiedAndSent(w, a, d, studioId, payout);
    RunNext(w, s, d.Events() + rest, TransferCommitted(d.tradeId));
    CommitTakesOne(w, b, d);
  }

  lemma EmptiedAndSent(w: World, s: Store, d: Sale, studioId: string, payout: string) returns (t: Store)
    requires CanHappen(w, d) && Deposited(w, s, d)
    ensures t == Step(w, Step(w, Step(w, s, Refreshed(d.SellerSlot(), studioId, 0)), TransferStarted(d.tradeId, true)),
                      TransferSent(d.tradeId, payout))
    ensures t.trades == s.trades && t.listings == s.listings && d.buyerId != d.sellerId
    ensures TransferJob(d.tradeId) in t.queue && t.queue[TransferJob(d.tradeId)] == Sent(payout)
    ensures HoldsLock(t.ownership, d.SellerSlot(), d.listingId) && t.ownership[d.SellerSlot()].quantity == 0
  {
    hide Carries, Verify, CreateListing, CreateTradeQuote, TransferCommit, RefundCommit, Memo.Truncated;
    var a := Step(w, s, Refreshed(d.SellerSlot(), studioId, 0));
    var b := Step(w, a, TransferStarted(d.tradeId, true));
    assert b == a.(queue := b.queue) && InState(b, TransferJob(d.tradeId), Paying);
    t := Step(w, b, TransferSent(d.tradeId, payout));
  }

  lemma CommitTakesOne(w: World, s: Store, d: Sale)
    requires d.listingId in s.listings && d.tradeId in s.trades && d.buyerId != d.sellerId
    requires s.listings[d.listingId].itemId == d.itemId && s.trades[d.tradeId].listingId == d.listingId
    requires s.trades[d.tradeId].sellerId == d.sellerId && s.trades[d.tradeId].buyerId == d.buyerId
    requires TransferJob(d.tradeId) in s.queue && s.queue[TransferJob(d.tradeId)].Sent?
    requires HoldsLock(s.ownership, d.SellerSlot(), d.listingId)
    ensures var t := Step(w, s, TransferCommitted(d.tradeId));
      d.SellerSlot() in t.ownership && t.ownership[d.SellerSlot()].quantity == s.ownership[d.SellerSlot()].quantity - 1
  {
    hide Verify, CreateListing, CreateTradeQuote;
  }
}
