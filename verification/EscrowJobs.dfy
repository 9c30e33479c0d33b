/** Which closing job a trade still has: a PAID trade waits for its transfer or its refund, or is stranded. */
module EscrowJobs {
  import opened Wrappers
  import opened Stellar
  import opened Escrow
  import opened EscrowInvariants

  /** A job that can still close the trade. */
  predicate Closing(s: Store, id: string)
  {
    Live(s.queue, TransferJob(id)) || Live(s.queue, RefundJob(id))
  }

  /** The event ends the trade's live job without closing the trade or handing it over: the job is given up, the
      transfer job throws before it pays, or the refund job finds no wallet. */
  predicate Strands(w: World, s: Store, e: Event, id: string)
  {
    && Enabled(w, s, e)
    && match e
       case JobGivenUp(job) => (job == TransferJob(id) || job == RefundJob(id)) && Live(s.queue, job)
       case TransferStarted(t, moved) =>
         t == id && (TransferThrows(w, s, id) || (moved && Wallet(w, s.trades[id].sellerId) == ""))
       case RefundStarted(t) => t == id && (id !in s.trades || Wallet(w, s.trades[id].buyerId) == "")
       case _ => false
  }

  predicate Stranded(w: World, s: Store, events: seq<Event>, id: string)
  {
    events != [] &&
    var before := events[..|events| - 1];
    Stranded(w, s, before, id) || Strands(w, Run(w, s, before), events[|events| - 1], id)
  }

  // ---------------------------------------------------------------- single steps

  /** Nothing of the trade moves. */
  predicate SameTrade(s: Store, t: Store, id: string)
  {
    && (id in t.trades <==> id in s.trades) && (id in s.trades ==> t.trades[id] == s.trades[id])
    && SameJob(s.queue, t.queue, TransferJob(id)) && SameJob(s.queue, t.queue, RefundJob(id))
    && SendCount(t.sent, id) == SendCount(s.sent, id)
  }

  /** The trade an event is about, if any. */
  predicate About(e: Event, id: string)
  {
    match e
    case Quoting(_, _, newId, _) => newId == id
    case Verifying(t, _) => t == id
    case TransferStarted(t, _) => t == id
    case TransferSent(t, _) => t == id
    case TransferCommitted(t) => t == id
    case RefundStarted(t) => t == id
    case RefundSent(t, _) => t == id
    case RefundCommitted(t) => t == id
    case JobGivenUp(job) => job.tradeId == id
    case JobRemoved(job) => job.tradeId == id
    case _ => false
  }

  lemma OtherTradesStay(w: World, s: Store, e: Event, id: string)
    requires !About(e, id)
    ensures SameTrade(s, Step(w, s, e), id)
  {
    hide Verify, CreateListing, CreateTradeQuote, TransferBegin, TransferSend, TransferCommit, RefundBegin, RefundSend, RefundCommit;
    hide SendCount, Refresh;
    if Enabled(w, s, e) {
      match e
      case Offering(_, _, _, _, _, _) => ListingLeaves(w, s, e);
      case Refreshed(slot, studioId, quantity) => RefreshLeaves(s, slot, studioId, quantity);
      case Quoting(buyer, listing, newId, built) => QuoteStays(w, s, buyer, listing, newId, built, id);
      case Verifying(t, txHash) => VerifyStays(w, s, t, txHash, id);
      case TransferStarted(t, moved) => BeginStays(w, s, t, moved, id);
      case TransferCommitted(t) => CommitStays(w, s, t, s.queue[TransferJob(t)].txHash, id);
      case RefundStarted(t) => RefundBeginStays(w, s, t, id);
      case RefundCommitted(t) => RefundStays(w, s, t, s.queue[RefundJob(t)].txHash, id);
      case TransferSent(t, txHash) => SendStays(w, s, t, txHash, id);
      case RefundSent(t, txHash) => SendStays(w, s, t, txHash, id);
      case _ =>
    }
  }

  lemma RefreshLeaves(s: Store, slot: Slot, studioId: string, quantity: nat)
    ensures Refresh(s, slot, studioId, quantity) == s.(ownership := Refresh(s, slot, studioId, quantity).ownership)
  {}

  lemma QuoteStays(w: World, s: Store, buyerId: string, listingId: string, newId: string, built: bool, id: string)
    requires newId != id
    ensures SameTrade(s, CreateTradeQuote(w, s, buyerId, listingId, newId, built).0, id)
  {
    hide OfferFor, NewTrade, SendCount;
  }

  lemma VerifyStays(w: World, s: Store, t: string, txHash: string, id: string)
    requires t != id
    ensures SameTrade(s, Verify(w, s, t, txHash).0, id)
  {
    hide VerifyPayment, AssetOf, SendCount;
  }

  lemma BeginStays(w: World, s: Store, t: string, moved: bool, id: string)
    requires t != id
    ensures SameTrade(s, TransferBegin(w, s, t, moved), id)
  {
    hide SendCount;
  }

  lemma CommitStays(w: World, s: Store, t: string, txHash: string, id: string)
    requires t != id && t in s.trades && s.trades[t].listingId in s.listings
    ensures SameTrade(s, TransferCommit(w, s, t, txHash), id)
  {
    hide MoveUnit, AssetOf, SendCount;
  }

  lemma RefundBeginStays(w: World, s: Store, t: string, id: string)
    requires t != id
    ensures SameTrade(s, RefundBegin(w, s, t), id)
  {
    hide SendCount;
  }

  lemma RefundStays(w: World, s: Store, t: string, txHash: string, id: string)
    requires t != id && t in s.trades
    ensures SameTrade(s, RefundCommit(w, s, t, txHash), id)
  {
    hide AssetOf, SendCount;
  }

  lemma SendStays(w: World, s: Store, t: string, txHash: string, id: string)
    requires t != id && t in s.trades
    ensures SameTrade(s, TransferSend(w, s, t, txHash), id) && SameTrade(s, RefundSend(w, s, t, txHash), id)
  {
    hide AssetOf, SendCount;
    SendAppend(s.sent, TransferSend(w, s, t, txHash).sent[|s.sent|]);
    SendAppend(s.sent, RefundSend(w, s, t, txHash).sent[|s.sent|]);
  }

  lemma ListingLeaves(w: World, s: Store, e: Event)
    requires e.Offering?
    ensures var t := Step(w, s, e); t.trades == s.trades && t.queue == s.queue && t.sent == s.sent
  {
    hide Verify, CreateTradeQuote, TransferCommit, RefundCommit, TransferBegin;
  }

  /** A PAID trade without a live job stays so: no step moves it, gives it a live job or sends for it. */
  lemma StrandedStep(w: World, s: Store, e: Event, id: string)
    requires id in s.trades && s.trades[id].status == PAID && !Closing(s, id)
    ensures var t := Step(w, s, e);
      id in t.trades && t.trades[id] == s.trades[id] && !Closing(t, id) && SendCount(t.sent, id) == SendCount(s.sent, id)
  {
    hide VerifyPayment, CreateListing, TransferCommit, RefundCommit, TransferBegin, Send, OpenTrade, OfferFor, SendCount;
    if !About(e, id) {
      OtherTradesStay(w, s, e, id);
    }
  }

  /** A PAID trade keeps a live job unless the event strands it, and a deposit gives it one. */
  lemma ClosingStep(w: World, s: Store, e: Event, id: string)
    requires JobInv(w, s.trades, s.queue, s.sent)
    requires id in s.trades && s.trades[id].status == PAID ==> Closing(s, id)
    requires !Strands(w, s, e, id)
    ensures var t := Step(w, s, e); id in t.trades && t.trades[id].status == PAID ==> Closing(t, id)
  {
    hide VerifyPayment, CreateListing, MoveUnit, OfferFor, SendCount, AssetOf;
    AbsentJob(w, s.trades, s.queue, s.sent, id);
    hide JobInv;
    if !About(e, id) {
      OtherTradesStay(w, s, e, id);
    }
  }

  lemma StrandingStep(w: World, s: Store, e: Event, id: string)
    requires JobInv(w, s.trades, s.queue, s.sent) && Strands(w, s, e, id)
    ensures var t := Step(w, s, e); id in t.trades && t.trades[id].status == PAID && !Closing(t, id)
  {
    hide VerifyPayment, CreateListing, TransferCommit, RefundCommit, Send, OpenTrade, OfferFor, SendCount;
    AbsentJob(w, s.trades, s.queue, s.sent, id);
    hide JobInv;
  }

  // ---------------------------------------------------------------- runs

  /** A stranded trade is PAID with no live job, and every other PAID trade has one. */
  lemma {:induction false} StrandedIsStuck(w: World, s: Store, events: seq<Event>, id: string)
    requires WorldOk(w) && Init(s)
    ensures var t := Run(w, s, events);
      && (Stranded(w, s, events, id) ==> id in t.trades && t.trades[id].status == PAID && !Closing(t, id))
      && (!Stranded(w, s, events, id) && id in t.trades && t.trades[id].status == PAID ==> Closing(t, id))
  {
    hide Step, Strands, Closing, TradeInv, LedgerInv, JobInv, BalanceInv, WorldOk;
    InitHasInv(w, s);
    if events != [] {
      var before, e := events[..|events| - 1], events[|events| - 1];
      StrandedIsStuck(w, s, before, id);
      RunKeepsInv(w, s, before);
      var t := Run(w, s, before);
      if Stranded(w, s, before, id) {
        StrandedStep(w, t, e, id);
      } else if Strands(w, t, e, id) {
        StrandingStep(w, t, e, id);
      } else {
        ClosingStep(w, t, e, id);
      }
    }
  }

  /** From a state where a PAID trade has no live job every later run leaves its row as it is, gives it no live job
      and sends nothing for it: neither the seller nor the buyer is ever paid, and submitting the payment again
      only answers ALREADY. */
  lemma {:induction false} StrandedForGood(w: World, s: Store, events: seq<Event>, id: string, txHash: string)
    requires id in s.trades && s.trades[id].status == PAID && !Closing(s, id)
    ensures var t := Run(w, s, events);
      && id in t.trades && t.trades[id] == s.trades[id] && !Closing(t, id)
      && SendCount(t.sent, id) == SendCount(s.sent, id)
      && Verify(w, t, id, txHash) == (t, Already)
  {
    hide Step, Closing, SendCount;
    if events != [] {
      var before := events[..|events| - 1];
      StrandedForGood(w, s, before, id, txHash);
      StrandedStep(w, Run(w, s, before), events[|events| - 1], id);
    }
  }
}
