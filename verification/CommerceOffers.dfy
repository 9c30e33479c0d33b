/** An offered payment over a run: when it still settles its order, and when it is stranded. */
module CommerceOffers {
  import opened Wrappers
  import opened Stellar
  import opened Commerce
  import opened CommerceInvariants
  import opened CommerceTheorems
  import Memo
  import P = Promotions

  // ---------------------------------------------------------------- how a quote drops an order

  /** A stored order is deleted by a quote exactly if the quote succeeds for the order's own purchase and, with a
      code, the order is its newest pending one, or, without a code, is not. */
  lemma DropsExactly(w: World, s: Store, input: QuoteInput, now: Surroundings, id: string)
    requires s.usage.Keys == w.promotions.Keys && ValidQuote(w, s, input, now) && id in s.orders
    ensures var (t, out) := Quote(w, s, input, now);
      id !in t.orders <==>
        && out.Quoted? && Precheck(w, input, now).None? && id in PendingIds(s.orders, KeyFor(w, input, now))
        && (P.Supplied(input.promotionCode) <==> id == Newest(s.orders, KeyFor(w, input, now)))
  {
    hide Quote, Precheck;
    QuoteEffect(w, s, input, now);
    QuoteKeepsRows(w, s, input, now);
    var (t, out) := Quote(w, s, input, now);
    if out.Quoted? {
      var key := KeyFor(w, input, now);
      var pending := PendingIds(s.orders, key);
      assert id != now.newId;
      if id in pending {
        var newest := Newest(s.orders, key);
        assert id in t.orders <==> id in PendingIds(t.orders, key);
        assert PendingIds(t.orders, key) == PendingAfter(pending, newest, now.newId, P.Supplied(input.promotionCode));
      }
    }
  }

  lemma FreshKeepsRows(w: World, before: Store, s: Store, input: QuoteInput, now: Surroundings)
    requires Precheck(w, input, now).None? && s.usage.Keys == w.promotions.Keys
    requires (forall p :: p in now.candidates ==> p in w.promotions) && now.newId !in before.orders
    requires forall j :: j in s.orders ==> j in before.orders && s.orders[j] == before.orders[j]
    ensures var t := QuoteFresh(w, before, s, input, now).0;
      forall j :: j in t.orders ==>
        (j in before.orders && t.orders[j] == before.orders[j]) || (j == now.newId && t.orders[j].txHash.None?)
  {
    hide BestFor, OfferFor, Precheck;
  }

  /** A quote never changes a row it keeps, and the one it adds has no payment. */
  lemma QuoteKeepsRows(w: World, s: Store, input: QuoteInput, now: Surroundings)
    requires s.usage.Keys == w.promotions.Keys && ValidQuote(w, s, input, now)
    ensures var t := Quote(w, s, input, now).0;
      forall j :: j in t.orders ==>
        (j in s.orders && t.orders[j] == s.orders[j]) || (j == now.newId && t.orders[j].txHash.None?)
  {
    hide QuoteFresh, OfferFor;
    if Precheck(w, input, now).None? {
      var pending := PendingIds(s.orders, KeyFor(w, input, now));
      if pending == {} {
        FreshKeepsRows(w, s, s, input, now);
      } else if P.Supplied(input.promotionCode) {
        FreshKeepsRows(w, s, Drop(s, {Newest(s.orders, KeyFor(w, input, now))}), input, now);
      }
    }
  }

  // ---------------------------------------------------------------- an offer step by step

  /** No other order looks like this one on the chain. */
  ghost predicate Alone(orders: map<string, Order>, id: string)
  {
    forall other :: other in orders && other != id ==> Memo.Truncated(other) != Memo.Truncated(id)
  }

  ghost predicate StaysAlone(events: seq<Event>, id: string)
  {
    forall e :: e in events && e.Quoting? ==> Memo.Truncated(e.now.newId) != Memo.Truncated(id)
  }

  ghost predicate Drops(w: World, s: Store, e: Event, id: string)
  {
    e.Quoting? && Enabled(w, s, e) && id in s.orders && id !in Step(w, s, e).orders
  }

  ghost predicate Dropped(w: World, s: Store, events: seq<Event>, id: string)
  {
    events != [] &&
    var before := events[..|events| - 1];
    Dropped(w, s, before, id) || Drops(w, Run(w, s, before), events[|events| - 1], id)
  }

  lemma AcceptedMemo(w: World, id: string, o: Order, other: string, p: Order, txHash: string, at: nat)
    requires CarriesOffer(w, id, o, txHash, at) && VerifyPayment(w.horizon, txHash, Demand(w, other, p)).Verified?
    ensures Memo.Truncated(other) == Memo.Truncated(id)
  {
    hide Memo.Truncated, NoneShortBefore;
  }

  /** Nobody else can use the payment, and new orders look different. */
  ghost predicate Reserved(s: Store, id: string, txHash: string)
  {
    Alone(s.orders, id) && UsersOf(s.orders, txHash) - {id} == {}
  }

  lemma QuoteReserves(w: World, s: Store, input: QuoteInput, now: Surroundings, id: string, txHash: string)
    requires s.usage.Keys == w.promotions.Keys && ValidQuote(w, s, input, now)
    requires Reserved(s, id, txHash) && Memo.Truncated(now.newId) != Memo.Truncated(id)
    ensures var t := Quote(w, s, input, now).0;
      Reserved(t, id, txHash) && (id in t.orders ==> id in s.orders && t.orders[id] == s.orders[id])
  {
    hide Quote, Memo.Truncated;
    QuoteKeepsRows(w, s, input, now);
    var t := Quote(w, s, input, now).0;
    forall u | u in UsersOf(t.orders, txHash)
      ensures u == id
    {
      assert u in UsersOf(s.orders, txHash) && u !in UsersOf(s.orders, txHash) - {id};
    }
  }

  lemma SettleOrders(w: World, s: Store, orderId: string, txHash: string)
    ensures var (t, out) := Settle(w, s, orderId, txHash);
      if out.Settled? then orderId in s.orders && t.orders == s.orders[orderId := s.orders[orderId].(status := PAID, txHash := Some(txHash))]
      else t.orders == s.orders
  {
    hide VerifyPayment, QualifyingReferral;
  }

  lemma SettleReserves(w: World, s: Store, orderId: string, h: string, id: string, o: Order, txHash: string, at: nat)
    requires CarriesOffer(w, id, o, txHash, at) && Reserved(s, id, txHash)
    ensures var t := Settle(w, s, orderId, h).0;
      && Reserved(t, id, txHash) && t.orders.Keys == s.orders.Keys
      && (id in s.orders ==> t.orders[id] == s.orders[id] || t.orders[id].status == PAID)
  {
    hide VerifyPayment, QualifyingReferral, CarriesOffer, Settle, Memo.Truncated;
    SettleOrders(w, s, orderId, h);
    SettlesExactly(w, s, orderId, h);
    var (t, out) := Settle(w, s, orderId, h);
    if out.Settled? {
      if h == txHash {
        AcceptedMemo(w, id, o, orderId, s.orders[orderId], txHash, at);
        assert orderId == id;
      }
      forall u | u in UsersOf(t.orders, txHash)
        ensures u == id
      {
        assert u !in UsersOf(s.orders, txHash) - {id};
        assert u == orderId || u in UsersOf(s.orders, txHash);
      }
    }
  }

  lemma StepReserves(w: World, s: Store, e: Event, id: string, o: Order, txHash: string, at: nat)
    requires CarriesOffer(w, id, o, txHash, at) && Reserved(s, id, txHash)
    requires e.Quoting? ==> Memo.Truncated(e.now.newId) != Memo.Truncated(id)
    ensures var t := Step(w, s, e);
      && Reserved(t, id, txHash) && (id in t.orders ==> id in s.orders)
      && (id in s.orders && id in t.orders ==> t.orders[id] == s.orders[id] || t.orders[id].status == PAID)
      && (id in s.orders && id !in t.orders ==> Drops(w, s, e, id))
  {
    hide Quote, Settle, Bind, Invite, Join, RewardCommit, RewardBegin, RewardSend, Enqueue, PayoutRecord, PayoutSend, PayoutBegin;
    hide CarriesOffer, Memo.Truncated, Reserved;
    if Enabled(w, s, e) {
      match e
      case Quoting(input, now) => QuoteReserves(w, s, input, now, id, txHash);
      case Settling(orderId, h) => SettleReserves(w, s, orderId, h, id, o, txHash, at);
      case RewardCommitted(worker) => CommitGrows(w, s, worker); SameOrdersReserve(s, Step(w, s, e), id, txHash);
      case _ => OtherStepsGrow(w, s, e); SameOrdersReserve(s, Step(w, s, e), id, txHash);
    }
  }

  lemma SameOrdersReserve(s: Store, t: Store, id: string, txHash: string)
    requires Reserved(s, id, txHash) && t.orders == s.orders
    ensures Reserved(t, id, txHash)
  {}

  // ---------------------------------------------------------------- an offer over a run

  /** Over any run in which no new order takes on the same memo: the order stays, pending on its terms or paid,
      unless a quote drops it. */
  lemma {:induction false} OfferStays(w: World, s: Store, events: seq<Event>, id: string, txHash: string, at: nat)
    requires id in s.orders && s.orders[id].status == PENDING && CarriesOffer(w, id, s.orders[id], txHash, at)
    requires Reserved(s, id, txHash) && StaysAlone(events, id)
    ensures var t := Run(w, s, events);
      && Reserved(t, id, txHash)
      && (id in t.orders <==> !Dropped(w, s, events, id))
      && (id in t.orders ==> t.orders[id] == s.orders[id] || t.orders[id].status == PAID)
      && (id in t.orders && Settling(id, txHash) in events ==> t.orders[id].status == PAID)
  {
    hide Step, CarriesOffer, Reserved, Drops;
    if events != [] {
      var before, e := events[..|events| - 1], events[|events| - 1];
      assert events == before + [e] && e in events;
      OfferStays(w, s, before, id, txHash, at);
      var t := Run(w, s, before);
      StepReserves(w, t, e, id, s.orders[id], txHash, at);
      DropsMeans(w, t, e, id);
      if id in t.orders && t.orders[id].status == PAID {
        StepGrows(w, t, e, id);
      } else if id in t.orders && e == Settling(id, txHash) {
        OwnPaymentSettles(w, t, id, txHash, at);
      }
    }
  }

  lemma DropsMeans(w: World, s: Store, e: Event, id: string)
    ensures Drops(w, s, e, id) ==> id in s.orders && id !in Step(w, s, e).orders
  {}

  lemma OwnPaymentSettles(w: World, s: Store, id: string, txHash: string, at: nat)
    requires id in s.orders && s.orders[id].status == PENDING && CarriesOffer(w, id, s.orders[id], txHash, at)
    requires Reserved(s, id, txHash)
    ensures var t := Step(w, s, Settling(id, txHash));
      id in t.orders && t.orders[id].status == PAID && t == Settle(w, s, id, txHash).0 && Settle(w, s, id, txHash).1.Settled?
  {
    hide VerifyPayment, PageAccepts, NoneShortBefore, Carries, QualifyingReferral, Memo.Truncated, Quote;
    OfferSettles(w, s, id, txHash, at);
  }

  /** What becomes of an offered payment that is on the chain: until a quote drops the order a call with it settles the
      order or finds it paid; once dropped, the call throws, and no order ever takes the payment. */
  lemma OfferOverRun(w: World, s: Store, events: seq<Event>, id: string, txHash: string, at: nat)
    requires id in s.orders && s.orders[id].status == PENDING && CarriesOffer(w, id, s.orders[id], txHash, at)
    requires Alone(s.orders, id) && UsersOf(s.orders, txHash) - {id} == {} && StaysAlone(events, id)
    ensures var t := Run(w, s, events); var out := Settle(w, t, id, txHash).1;
      && (!Dropped(w, s, events, id) <==> out.Settled? || out.Already?)
      && (Dropped(w, s, events, id) <==> out == SettleThrew)
      && (Dropped(w, s, events, id) ==> UsersOf(t.orders, txHash) == {} && Settle(w, t, id, txHash).0 == t)
      && (!Dropped(w, s, events, id) && Settling(id, txHash) in events ==> id in t.orders && t.orders[id].status == PAID)
  {
    hide Run, CarriesOffer, Dropped, Memo.Truncated;
    OfferStays(w, s, events, id, txHash, at);
    var t := Run(w, s, events);
    if id !in t.orders {
      MissingThrows(w, t, id, txHash);
      assert id !in UsersOf(t.orders, txHash);
    } else if t.orders[id].status == PAID {
      PaidIsAlready(w, t, id, txHash);
    } else {
      OwnPaymentSettles(w, t, id, txHash, at);
    }
  }

  lemma MissingThrows(w: World, s: Store, id: string, txHash: string)
    requires id !in s.orders
    ensures Settle(w, s, id, txHash) == (s, SettleThrew)
  {}

  lemma PaidIsAlready(w: World, s: Store, id: string, txHash: string)
    requires id in s.orders && s.orders[id].status == PAID
    ensures Settle(w, s, id, txHash) == (s, Already(id))
  {}
}
