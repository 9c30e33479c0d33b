/** The promises of checkout, settlement, payout and referral rewards, over every run. */
module CommerceTheorems {
  import opened Wrappers
  import opened Stellar
  import opened Commerce
  import opened CommerceInvariants
  import opened MapSums
  import Memo
  import Money
  import P = Promotions

  // ---------------------------------------------------------------- what one quote does

  /** The pending orders of the quoted key afterwards: a call with a code replaces the newest, a call
      without one keeps only the newest, and where there was none one is created. */
  function PendingAfter(pending: set<string>, newest: string, newId: string, withCode: bool): set<string>
  {
    if pending == {} then {newId} else if withCode then pending - {newest} + {newId} else {newest}
  }

  /** What a successful quote does to the orders. */
  ghost predicate OnlyTouches(before: map<string, Order>, after: map<string, Order>, pending: set<string>, id: string)
  {
    && (forall j :: j in before && j !in pending ==> j in after && after[j] == before[j])
    && (forall j :: j in after ==> j == id || (j in before && after[j] == before[j]))
  }

  /** The order returned is stored, pending and of the quoted key, and the payment offered is its own. */
  ghost predicate Offered(w: World, t: Store, key: QuoteKey, id: string, order: Order, payment: Payment)
  {
    && id in t.orders && t.orders[id] == order && order.status == PENDING && KeyOf(order) == key
    && payment == OfferFor(w, id, order)
  }

  /** `t` is `s` with one new order offered under `newId`, or `before` after a failure. */
  ghost predicate Inserted(w: World, before: Store, s: Store, t: Store, out: QuoteOutcome, key: QuoteKey, newId: string)
  {
    if out.QuoteFailed? then t == before
    else
      && Offered(w, t, key, out.orderId, out.order, out.payment) && out.orderId == newId
      && t.orders == s.orders[newId := out.order]
      && PendingIds(t.orders, key) == PendingIds(s.orders, key) + {newId}
  }

  lemma InsertEffect(w: World, before: Store, s: Store, input: QuoteInput, now: Surroundings, best: P.Discount)
    requires Precheck(w, input, now).None? && now.newId !in s.orders
    ensures var (t, out) := QuoteWith(w, before, s, input, now, best);
      Inserted(w, before, s, t, out, KeyFor(w, input, now), now.newId)
  {}

  lemma FreshEffect(w: World, before: Store, s: Store, input: QuoteInput, now: Surroundings)
    requires Precheck(w, input, now).None? && now.newId !in s.orders
    requires s.usage.Keys == w.promotions.Keys && forall p :: p in now.candidates ==> p in w.promotions
    ensures var (t, out) := QuoteFresh(w, before, s, input, now);
      Inserted(w, before, s, t, out, KeyFor(w, input, now), now.newId)
  {
    InsertEffect(w, before, s, input, now, BestFor(w, s, input, now));
  }

  ghost predicate QuoteResult(w: World, s: Store, t: Store, out: QuoteOutcome, input: QuoteInput, now: Surroundings)
  {
    if out.QuoteFailed? then t == s
    else
      && Precheck(w, input, now).None?
      && var key := KeyFor(w, input, now); var pending := PendingIds(s.orders, key);
      && Offered(w, t, key, out.orderId, out.order, out.payment)
      && out.orderId in PendingIds(t.orders, key)
      && PendingIds(t.orders, key)
         == PendingAfter(pending, if pending == {} then "" else Newest(s.orders, key), now.newId, P.Supplied(input.promotionCode))
      && OnlyTouches(s.orders, t.orders, pending, out.orderId)
  }

  lemma InsertedResult(w: World, s: Store, gone: set<string>, t: Store, out: QuoteOutcome, input: QuoteInput, now: Surroundings)
    requires Precheck(w, input, now).None? && now.newId !in s.orders
    requires var pending := PendingIds(s.orders, KeyFor(w, input, now));
      gone == if pending == {} then {} else {Newest(s.orders, KeyFor(w, input, now))}
    requires P.Supplied(input.promotionCode) || gone == {}
    requires Inserted(w, s, Drop(s, gone), t, out, KeyFor(w, input, now), now.newId)
    ensures QuoteResult(w, s, t, out, input, now)
  {
    hide Newest, UsageWithout, OfferFor, Precheck;
    assert PendingIds(Drop(s, gone).orders, KeyFor(w, input, now)) == PendingIds(s.orders, KeyFor(w, input, now)) - gone;
  }

  lemma ReusedResult(w: World, s: Store, input: QuoteInput, now: Surroundings)
    requires s.usage.Keys == w.promotions.Keys && ValidQuote(w, s, input, now)
    requires Precheck(w, input, now).None? && !P.Supplied(input.promotionCode) && PendingIds(s.orders, KeyFor(w, input, now)) != {}
    ensures var (t, out) := Quote(w, s, input, now); QuoteResult(w, s, t, out, input, now)
  {
    var key := KeyFor(w, input, now);
    var pending := PendingIds(s.orders, key);
    var newest := Newest(s.orders, key);
    assert PendingIds(Drop(s, pending - {newest}).orders, key) == {newest};
  }

  lemma NewResult(w: World, s: Store, input: QuoteInput, now: Surroundings)
    requires s.usage.Keys == w.promotions.Keys && ValidQuote(w, s, input, now)
    requires Precheck(w, input, now).None? && PendingIds(s.orders, KeyFor(w, input, now)) == {}
    ensures QuoteResult(w, s, QuoteFresh(w, s, s, input, now).0, QuoteFresh(w, s, s, input, now).1, input, now)
  {
    var (t, out) := QuoteFresh(w, s, s, input, now);
    assert Drop(s, {}).orders == s.orders;
    FreshEffect(w, s, s, input, now);
    InsertedResult(w, s, {}, t, out, input, now);
  }

  lemma ReplacedResult(w: World, s: Store, gone: set<string>, input: QuoteInput, now: Surroundings)
    requires s.usage.Keys == w.promotions.Keys && ValidQuote(w, s, input, now)
    requires Precheck(w, input, now).None? && P.Supplied(input.promotionCode) && PendingIds(s.orders, KeyFor(w, input, now)) != {}
    requires gone == {Newest(s.orders, KeyFor(w, input, now))}
    ensures var made := QuoteFresh(w, s, Drop(s, gone), input, now); QuoteResult(w, s, made.0, made.1, input, now)
  {
    var (t, out) := QuoteFresh(w, s, Drop(s, gone), input, now);
    FreshEffect(w, s, Drop(s, gone), input, now);
    InsertedResult(w, s, gone, t, out, input, now);
  }

  /** A failed quote changes nothing. A successful one touches only pending orders of its own key,
      returns one of them, and offers the payment that settlement will ask for. */
  lemma QuoteEffect(w: World, s: Store, input: QuoteInput, now: Surroundings)
    requires s.usage.Keys == w.promotions.Keys && ValidQuote(w, s, input, now)
    ensures QuoteResult(w, s, Quote(w, s, input, now).0, Quote(w, s, input, now).1, input, now)
  {
    if Precheck(w, input, now).Some? {
    } else if PendingIds(s.orders, KeyFor(w, input, now)) == {} {
      NewResult(w, s, input, now);
    } else if P.Supplied(input.promotionCode) {
      ReplacedResult(w, s, {Newest(s.orders, KeyFor(w, input, now))}, input, now);
    } else {
      ReusedResult(w, s, input, now);
    }
  }

  predicate SamePurchase(a: Order, b: Order)
  {
    a.status == PENDING && b.status == PENDING && KeyOf(a) == KeyOf(b)
  }

  ghost predicate OnePendingPerKey(orders: map<string, Order>)
  {
    forall a, b :: a in orders && b in orders && SamePurchase(orders[a], orders[b]) ==> a == b
  }

  lemma TouchKeepsOnePending(before: map<string, Order>, after: map<string, Order>, key: QuoteKey, id: string)
    requires OnePendingPerKey(before)
    requires OnlyTouches(before, after, PendingIds(before, key), id) && PendingIds(after, key) == {id}
    ensures OnePendingPerKey(after)
  {
    forall a, b | a in after && b in after && SamePurchase(after[a], after[b])
      ensures a == b
    {
      if KeyOf(after[a]) == key {
        assert a in PendingIds(after, key) && b in PendingIds(after, key);
      } else {
        assert a in before && b in before && SamePurchase(before[a], before[b]);
      }
    }
  }

  /** From at most one pending order per purchase, every successful quote ends with exactly one for its
      own and keeps the others as they are. */
  lemma QuoteKeepsOnePending(w: World, s: Store, input: QuoteInput, now: Surroundings)
    requires s.usage.Keys == w.promotions.Keys && ValidQuote(w, s, input, now) && OnePendingPerKey(s.orders)
    ensures OnePendingPerKey(Quote(w, s, input, now).0.orders)
    ensures var (t, out) := Quote(w, s, input, now);
      out.Quoted? ==> Precheck(w, input, now).None? && PendingIds(t.orders, KeyFor(w, input, now)) == {out.orderId}
  {
    hide Quote;
    QuoteEffect(w, s, input, now);
    var (t, out) := Quote(w, s, input, now);
    if out.Quoted? {
      var key := KeyFor(w, input, now);
      var pending := PendingIds(s.orders, key);
      if pending != {} {
        var newest := Newest(s.orders, key);
        forall a | a in pending
          ensures a == newest
        {
          assert SamePurchase(s.orders[a], s.orders[newest]);
        }
        assert pending - {newest} == {};
      }
      assert PendingIds(t.orders, key) == {out.orderId};
      TouchKeepsOnePending(s.orders, t.orders, key, out.orderId);
    }
  }

  lemma StepKeepsOnePending(w: World, s: Store, e: Event)
    requires OnePendingPerKey(s.orders)
    ensures OnePendingPerKey(Step(w, s, e).orders)
  {
    hide Quote;
    if Enabled(w, s, e) && e.Quoting? {
      QuoteKeepsOnePending(w, s, e.input, e.now);
    }
  }

  /** No run leaves a buyer with two pending orders for the same purchase. */
  lemma {:induction false} OnePendingInEveryRun(w: World, s: Store, events: seq<Event>)
    requires Init(w, s)
    ensures OnePendingPerKey(Run(w, s, events).orders)
  {
    hide Step;
    if events != [] {
      OnePendingInEveryRun(w, s, events[..|events| - 1]);
      StepKeepsOnePending(w, Run(w, s, events[..|events| - 1]), events[|events| - 1]);
    }
  }

  // ---------------------------------------------------------------- counters and amounts

  /** A promotion's counter is the number of stored orders naming it and never passes its limit. */
  lemma UsageInEveryRun(w: World, s: Store, events: seq<Event>, p: string)
    requires WorldOk(w) && Init(w, s) && p in w.promotions
    ensures var t := Run(w, s, events);
      && p in t.usage && t.usage[p] == |Named(t.orders, p)|
      && (w.promotions[p].usageLimit.Some? ==> t.usage[p] <= w.promotions[p].usageLimit.value)
  {
    hide Run, Init, OrderInv, SaleInv, PayoutInv, ReferralInv;
    InitHasInv(w, s);
    RunKeepsInv(w, s, events);
  }

  /** Every stored order splits its price into discount, platform fee and studio share. */
  lemma AmountsInEveryRun(w: World, s: Store, events: seq<Event>, id: string)
    requires WorldOk(w) && Init(w, s) && id in Run(w, s, events).orders
    ensures var o := Run(w, s, events).orders[id];
      && o.gross == o.discount + o.fee + o.net
      && 0 <= o.discount && 0 <= o.fee && 0 <= o.net
      && (o.discount > 0 <==> o.promotionId.Some?)
  {
    hide Run, Init, UsageInv, SaleInv, PayoutInv, ReferralInv;
    InitHasInv(w, s);
    RunKeepsInv(w, s, events);
  }

  // ---------------------------------------------------------------- paid orders

  /** An order is paid exactly when the ledger has one sale for it, never more than one; its payment
      verifies against its own terms and belongs to no other order. */
  lemma PaidIffSold(w: World, s: Store, events: seq<Event>, id: string)
    requires WorldOk(w) && Init(w, s)
    ensures var t := Run(w, s, events);
      && EntryCount(t.ledger, SALE_IN, id) == (if id in t.orders && t.orders[id].status == PAID then 1 else 0)
      && (forall e :: e in t.ledger && e.kind == SALE_IN && e.subject == id ==>
            && id in t.orders && t.orders[id].txHash == Some(e.txHash)
            && VerifyPayment(w.horizon, e.txHash, Demand(w, id, t.orders[id])).Verified?
            && UsersOf(t.orders, e.txHash) == {id})
  {
    hide Step, VerifyPayment, UsageInv, PayoutInv, ReferralInv, Run, Init;
    InitHasInv(w, s);
    RunKeepsInv(w, s, events);
    var t := Run(w, s, events);
    assert id in PaidRows(t.orders) <==> id in t.orders && t.orders[id].status == PAID;
    forall e | e in t.ledger && e.kind == SALE_IN && e.subject == id
      ensures && id in t.orders && t.orders[id].txHash == Some(e.txHash)
              && VerifyPayment(w.horizon, e.txHash, Demand(w, id, t.orders[id])).Verified?
              && UsersOf(t.orders, e.txHash) == {id}
    {
      assert e.subject in PaidRows(t.orders);
      assert PaymentOk(w, id, t.orders[id]);
    }
  }

  lemma QuoteGrows(w: World, s: Store, input: QuoteInput, now: Surroundings, id: string)
    requires s.usage.Keys == w.promotions.Keys && ValidQuote(w, s, input, now)
    requires id in s.orders && s.orders[id].status == PAID
    ensures var t := Quote(w, s, input, now).0; id in t.orders && t.orders[id] == s.orders[id] && t.ledger == s.ledger
  {
    hide Quote, Precheck, AnswersCandidateQuery;
    QuoteEffect(w, s, input, now);
    QuoteLeavesRest(w, s, input, now);
  }

  lemma SettleGrows(w: World, s: Store, orderId: string, txHash: string, id: string)
    requires id in s.orders && s.orders[id].status == PAID
    ensures var t := Settle(w, s, orderId, txHash).0; id in t.orders && t.orders[id] == s.orders[id] && s.ledger <= t.ledger
  {
    hide VerifyPayment, QualifyingReferral;
  }

  lemma OtherStepsGrow(w: World, s: Store, e: Event)
    requires Enabled(w, s, e) && !e.Quoting? && !e.Settling? && !e.RewardCommitted?
    ensures Step(w, s, e).orders == s.orders && s.ledger <= Step(w, s, e).ledger
  {
    hide Quote, Settle, RewardPlan, RewardCommit, PayoutWallet, PayoutEntry, PayoutTransfer, CodeTaken, AssetOf;
  }

  lemma CommitGrows(w: World, s: Store, worker: nat)
    requires worker in s.workers && !s.workers[worker].Paying? && s.workers[worker].referralId in s.referrals
    ensures RewardCommit(w, s, worker).orders == s.orders && s.ledger <= RewardCommit(w, s, worker).ledger
  {}

  lemma StepGrows(w: World, s: Store, e: Event, id: string)
    requires id in s.orders && s.orders[id].status == PAID
    ensures id in Step(w, s, e).orders && Step(w, s, e).orders[id] == s.orders[id]
    ensures s.ledger <= Step(w, s, e).ledger
  {
    hide Quote, Settle, Bind, Invite, RewardCommit, RewardBegin, RewardSend, Enqueue, PayoutRecord, PayoutSend, PayoutBegin;
    if Enabled(w, s, e) {
      match e
      case Quoting(input, now) => QuoteGrows(w, s, input, now, id);
      case Settling(orderId, txHash) => SettleGrows(w, s, orderId, txHash, id);
      case RewardCommitted(worker) => CommitGrows(w, s, worker);
      case _ => OtherStepsGrow(w, s, e);
    }
  }

  lemma {:induction false} RunGrows(w: World, s: Store, events: seq<Event>, id: string)
    requires id in s.orders && s.orders[id].status == PAID
    ensures id in Run(w, s, events).orders && Run(w, s, events).orders[id] == s.orders[id]
    ensures s.ledger <= Run(w, s, events).ledger
  {
    hide Step;
    if events != [] {
      RunGrows(w, s, events[..|events| - 1], id);
      StepGrows(w, Run(w, s, events[..|events| - 1]), events[|events| - 1], id);
    }
  }

  /** Once settled, an order's row never changes again, whatever runs in between: every later or
      competing call answers ALREADY and changes no row, and there stays one sale. */
  lemma SettledForGood(w: World, s: Store, orderId: string, txHash: string, events: seq<Event>, other: string)
    requires WorldOk(w) && Inv(w, s) && Settle(w, s, orderId, txHash).1.Settled?
    ensures var t := Settle(w, s, orderId, txHash).0;
      var later := Run(w, t, events);
      && orderId in later.orders && later.orders[orderId] == t.orders[orderId]
      && t.ledger <= later.ledger
      && EntryCount(later.ledger, SALE_IN, orderId) == 1
      && Settle(w, later, orderId, other) == (later, Already(orderId))
  {
    hide Step, VerifyPayment, UsageInv, OrderInv, PayoutInv, ReferralInv;
    var t := Settle(w, s, orderId, txHash).0;
    SettleKeepsInv(w, s, orderId, txHash);
    RunGrows(w, t, events, orderId);
    RunKeepsInv(w, t, events);
    assert orderId in PaidRows(Run(w, t, events).orders);
  }

  /** The transaction carries the payment offered for the order, on the page of operations that is read, with no
      smaller payment of its kind before it. */
  predicate CarriesOffer(w: World, id: string, o: Order, txHash: string, at: nat)
  {
    && txHash != "" && txHash in w.horizon && at < OPERATIONS_PAGE
    && Carries(w.horizon[txHash], OfferFor(w, id, o), at)
    && NoneShortBefore(w.horizon[txHash].operations, at, w.env.receivingAccount, AssetOf(o.currency, w.env),
                       Money.Amount(o.Due()))
  }

  /** A successful transaction carrying, anywhere, the payment a quote offered settles that order exactly when the
      page that is read accepts it and no other order has used it. The page does if it carries the offer first. */
  lemma OfferSettles(w: World, s: Store, orderId: string, txHash: string, at: nat)
    requires orderId in s.orders && s.orders[orderId].status == PENDING
    requires txHash != "" && txHash in w.horizon
    requires Carries(w.horizon[txHash], OfferFor(w, orderId, s.orders[orderId]), at)
    ensures var (t, out) := Settle(w, s, orderId, txHash); var o := s.orders[orderId];
      var unused := UsersOf(s.orders, txHash) - {orderId} == {};
      var fits := PageAccepts(w.horizon[txHash].operations, w.env.receivingAccount, AssetOf(o.currency, w.env), Money.Amount(o.Due()));
      && (out.Settled? <==> fits && unused)
      && (fits && !unused ==> out == Rejected("txHash already used"))
      && (if out.Settled? then t.orders[orderId].status == PAID && t.orders[orderId].txHash == Some(txHash) else t == s)
      && (CarriesOffer(w, orderId, o, txHash, at) ==> fits)
  {
    hide VerifyPayment, PageAccepts, NoneShortBefore, Carries, QualifyingReferral, Memo.Truncated;
    var o := s.orders[orderId];
    BuiltIsAccepted(w.horizon, txHash, at, w.env.receivingAccount, AssetOf(o.currency, w.env), o.Due(), orderId);
    assert OfferFor(w, orderId, o) == PaymentOf(w.env.receivingAccount, AssetOf(o.currency, w.env), o.Due(), orderId);
  }

  // ---------------------------------------------------------------- payouts

  /** The job can still run; a finished job that is kept under its id blocks a new one. */
  predicate IsLive(queue: map<Job, JobState>, job: Job) { job in queue && queue[job] != Finished }

  predicate IsKept(queue: map<Job, JobState>, job: Job) { job in queue && queue[job] == Finished }

  /** After every PAID or ALREADY return the payout is recorded or its job will still run, exactly when it was
      recorded before or no finished payout job is kept under the order's id; likewise the delivery, and a
      referral that just qualified. No job in the queue is disturbed. */
  lemma ReturnLeavesWork(w: World, s: Store, orderId: string, txHash: string)
    requires Advance(w, s, orderId, txHash).1.Settled? || Advance(w, s, orderId, txHash).1.Already?
    ensures var (t, out) := Advance(w, s, orderId, txHash);
      && orderId in t.orders && t.orders[orderId].status == PAID
      && (EntryCount(t.ledger, PAYOUT_OUT, orderId) > 0 || IsLive(t.queue, PayoutJob(orderId))
          <==> EntryCount(s.ledger, PAYOUT_OUT, orderId) > 0 || !IsKept(s.queue, PayoutJob(orderId)))
      && (orderId in t.deliveries || IsLive(t.queue, WebhookJob(orderId))
          <==> orderId in s.deliveries || !IsKept(s.queue, WebhookJob(orderId)))
      && (out.Settled? && out.referralId.Some? ==>
            (IsLive(t.queue, RewardJob(out.referralId.value)) <==> !IsKept(s.queue, RewardJob(out.referralId.value))))
      && (forall job :: job in s.queue ==> job in t.queue && t.queue[job] == s.queue[job])
  {
    hide VerifyPayment, QualifyingReferral, Add, Enqueue, EntryCount, IsLive, IsKept;
    var (u, out) := Settle(w, s, orderId, txHash);
    SettleKeepsPayoutCount(w, s, orderId, txHash, orderId);
    EnqueueLeavesWork(u, orderId, if out.Settled? then out.referralId else None);
  }

  lemma SettleKeepsPayoutCount(w: World, s: Store, orderId: string, txHash: string, id: string)
    ensures var t := Settle(w, s, orderId, txHash).0;
      EntryCount(t.ledger, PAYOUT_OUT, id) == EntryCount(s.ledger, PAYOUT_OUT, id) && t.queue == s.queue && t.deliveries == s.deliveries
  {
    hide VerifyPayment, QualifyingReferral;
    var t := Settle(w, s, orderId, txHash).0;
    if t != s { CountAppend(s.ledger, t.ledger[|s.ledger|]); }
  }

  lemma EnqueueLeavesWork(s: Store, orderId: string, referralId: Option<string>)
    ensures var t := Enqueue(s, orderId, referralId);
      && t == s.(queue := t.queue)
      && (EntryCount(s.ledger, PAYOUT_OUT, orderId) > 0 || IsLive(t.queue, PayoutJob(orderId))
          <==> EntryCount(s.ledger, PAYOUT_OUT, orderId) > 0 || !IsKept(s.queue, PayoutJob(orderId)))
      && (orderId in s.deliveries || IsLive(t.queue, WebhookJob(orderId))
          <==> orderId in s.deliveries || !IsKept(s.queue, WebhookJob(orderId)))
      && (referralId.Some? ==>
            (IsLive(t.queue, RewardJob(referralId.value)) <==> !IsKept(s.queue, RewardJob(referralId.value))))
      && (forall job :: job in s.queue ==> job in t.queue && t.queue[job] == s.queue[job])
  {}

  /** A later ALREADY never adds a reward job: if the job of a qualified referral was lost, no call brings it back. */
  lemma AlreadyAddsNoReward(w: World, s: Store, orderId: string, txHash: string, r: string)
    requires Advance(w, s, orderId, txHash).1.Already?
    ensures var t := Advance(w, s, orderId, txHash).0;
      && (RewardJob(r) in t.queue <==> RewardJob(r) in s.queue)
      && (RewardJob(r) in s.queue ==> t.queue[RewardJob(r)] == s.queue[RewardJob(r)])
      && t.referrals == s.referrals
  {
    hide VerifyPayment, QualifyingReferral;
  }

  /** While a finished payout job without an entry stays under its id, the order is never paid out: no call
      adds the job again and no run records a payout. */
  lemma {:induction false} KeptJobBlocksPayout(w: World, s: Store, events: seq<Event>, orderId: string)
    requires IsKept(s.queue, PayoutJob(orderId)) && JobRemoved(PayoutJob(orderId)) !in events
    ensures var t := Run(w, s, events);
      && IsKept(t.queue, PayoutJob(orderId))
      && EntryCount(t.ledger, PAYOUT_OUT, orderId) == EntryCount(s.ledger, PAYOUT_OUT, orderId)
  {
    hide Step, EntryCount;
    if events != [] {
      var before, e := events[..|events| - 1], events[|events| - 1];
      KeptJobBlocksPayout(w, s, before, orderId);
      assert e in events;
      KeptJobStays(w, Run(w, s, before), e, orderId);
    }
  }

  lemma KeptJobStays(w: World, s: Store, e: Event, orderId: string)
    requires IsKept(s.queue, PayoutJob(orderId)) && e != JobRemoved(PayoutJob(orderId))
    ensures var t := Step(w, s, e);
      && IsKept(t.queue, PayoutJob(orderId))
      && EntryCount(t.ledger, PAYOUT_OUT, orderId) == EntryCount(s.ledger, PAYOUT_OUT, orderId)
  {
    hide Quote, Settle, Bind, Invite, RewardCommit, RewardBegin, RewardSend, Enqueue, PayoutWallet, AssetOf, EntryCount;
    if Enabled(w, s, e) {
      match e
      case Quoting(input, now) => QuoteLeavesRest(w, s, input, now);
      case Settling(id, txHash) => SettleKeepsPayoutCount(w, s, id, txHash, orderId);
      case RewardCommitted(worker) => CommitKeepsPayoutCount(w, s, worker, orderId);
      case PayoutRecorded(id) =>
        CountAppend(s.ledger, Step(w, s, e).ledger[|s.ledger|]);
      case Inviting(player, code, newId) => InviteLeavesRest(s, player, code, newId);
      case Binding(player, code, root, newId) => BindLeavesRest(s, player, code, root, newId);
      case RewardStarted(worker, r) => BeginLeavesRest(w, s, worker, r);
      case RewardSent(worker, txHash) => SendLeavesRest(w, s, worker, txHash);
      case Enqueuing(id, referralId) => EnqueueLeavesWork(s, id, referralId);
      case _ =>
    }
  }

  lemma InviteLeavesRest(s: Store, playerId: string, code: string, newId: string)
    ensures Invite(s, playerId, code, newId) == s.(referrals := Invite(s, playerId, code, newId).referrals)
  {}

  lemma BindLeavesRest(s: Store, playerId: string, code: string, root: Option<string>, newId: string)
    requires root.Some? ==> root.value in s.referrals
    ensures var t := Bind(s, playerId, code, root, newId).0; t == s.(referrals := t.referrals, players := t.players)
  {}

  lemma BeginLeavesRest(w: World, s: Store, worker: nat, r: string)
    ensures RewardBegin(w, s, worker, r) == s.(workers := RewardBegin(w, s, worker, r).workers)
  {
    hide RewardPlan;
  }

  lemma SendLeavesRest(w: World, s: Store, worker: nat, txHash: string)
    requires worker in s.workers && s.workers[worker].Paying?
    ensures var t := RewardSend(w, s, worker, txHash); t == s.(workers := t.workers, sent := t.sent)
  {}

  lemma CommitKeepsPayoutCount(w: World, s: Store, worker: nat, id: string)
    requires worker in s.workers && !s.workers[worker].Paying? && s.workers[worker].referralId in s.referrals
    ensures var t := RewardCommit(w, s, worker);
      EntryCount(t.ledger, PAYOUT_OUT, id) == EntryCount(s.ledger, PAYOUT_OUT, id) && t.queue == s.queue
  {
    var t := RewardCommit(w, s, worker);
    if t.ledger != s.ledger { CountAppend(s.ledger, t.ledger[|s.ledger|]); }
  }

  /** An order is paid out at most once, only after its own payment, and to the amount it earned. */
  lemma PayoutAtMostOnce(w: World, s: Store, events: seq<Event>, id: string)
    requires WorldOk(w) && Init(w, s)
    ensures var t := Run(w, s, events);
      && EntryCount(t.ledger, PAYOUT_OUT, id) <= 1
      && (forall e :: e in t.ledger && e.kind == PAYOUT_OUT && e.subject == id ==>
            && id in t.orders && t.orders[id].status == PAID && e.amount == t.orders[id].net
            && EntryCount(t.ledger, SALE_IN, id) == 1 && t.orders[id].txHash.Some?
            && VerifyPayment(w.horizon, t.orders[id].txHash.value, Demand(w, id, t.orders[id])).Verified?)
      && (EntryCount(t.ledger, PAYOUT_OUT, id) == 1 ==> !PayoutLive(t.queue, id))
  {
    hide VerifyPayment, Run, Init, UsageInv, ReferralInv;
    InitHasInv(w, s);
    RunKeepsInv(w, s, events);
    var t := Run(w, s, events);
    forall e | e in t.ledger && e.kind == PAYOUT_OUT && e.subject == id
      ensures && id in t.orders && t.orders[id].status == PAID && e.amount == t.orders[id].net
              && EntryCount(t.ledger, SALE_IN, id) == 1 && t.orders[id].txHash.Some?
              && VerifyPayment(w.horizon, t.orders[id].txHash.value, Demand(w, id, t.orders[id])).Verified?
    {
      assert e.subject in PaidRows(t.orders);
      assert PaymentOk(w, id, t.orders[id]);
    }
  }

  // ---------------------------------------------------------------- the account covers its payouts

  /** What the verified payment of a paid order brought in, in stroops. */
  function ReceivedFor(w: World, id: string, o: Order): int
    requires o.status == PAID && PaymentOk(w, id, o)
  {
    (VerifyPayment(w.horizon, o.txHash.value, Demand(w, id, o)).amount * 10_000_000.0).Floor
  }

  predicate PaidIn(orders: map<string, Order>, id: string, c: Currency)
  {
    id in orders && orders[id].status == PAID && orders[id].currency == c
  }

  ghost function Received(w: World, orders: map<string, Order>, c: Currency): map<string, int>
    requires forall id :: id in orders ==> PaymentOk(w, id, orders[id])
  {
    map id | id in orders && PaidIn(orders, id, c) :: ReceivedFor(w, id, orders[id])
  }

  ghost function Fees(orders: map<string, Order>, c: Currency): map<string, int>
  {
    map id | id in orders && PaidIn(orders, id, c) :: orders[id].fee
  }

  ghost function Nets(orders: map<string, Order>, c: Currency): map<string, int>
  {
    map id | id in orders && PaidIn(orders, id, c) :: orders[id].net
  }

  ghost function PaidOut(orders: map<string, Order>, ledger: seq<Entry>, c: Currency): map<string, int>
  {
    map id | id in orders && PaidIn(orders, id, c) :: if EntryCount(ledger, PAYOUT_OUT, id) > 0 then orders[id].net else 0
  }

  /** The total of a kind of entry in one asset. */
  ghost function LedgerTotal(ledger: seq<Entry>, kind: EntryType, asset: Asset): int
  {
    if ledger == [] then 0
    else
      LedgerTotal(ledger[..|ledger| - 1], kind, asset) +
      (if ledger[|ledger| - 1].kind == kind && ledger[|ledger| - 1].asset == asset then ledger[|ledger| - 1].amount else 0)
  }

  lemma PaidOutAfter(w: World, orders: map<string, Order>, before: seq<Entry>, e: Entry, c: Currency)
    requires EntryCount(before + [e], PAYOUT_OUT, e.subject) <= 1
    requires e.kind == PAYOUT_OUT ==> e.subject in PaidRows(orders) && e.amount == orders[e.subject].net
                                      && e.asset == AssetOf(orders[e.subject].currency, w.env)
    ensures Sum(PaidOut(orders, before + [e], c))
         == Sum(PaidOut(orders, before, c)) + if e.kind == PAYOUT_OUT && e.asset == AssetOf(c, w.env) then e.amount else 0
  {
    CountAppend(before, e);
    if e.kind == PAYOUT_OUT && PaidIn(orders, e.subject, c) {
      SumUpdate(PaidOut(orders, before, c), e.subject, e.amount);
      assert PaidOut(orders, before + [e], c) == PaidOut(orders, before, c)[e.subject := e.amount];
    } else {
      assert PaidOut(orders, before + [e], c) == PaidOut(orders, before, c);
    }
  }

  // The payout entries add up to the shares of the orders paid out.
  lemma {:induction false} PayoutsAddUp(w: World, orders: map<string, Order>, ledger: seq<Entry>, c: Currency)
    requires forall id :: EntryCount(ledger, PAYOUT_OUT, id) <= 1
    requires forall e :: e in ledger && e.kind == PAYOUT_OUT ==>
      && e.subject in PaidRows(orders) && e.amount == orders[e.subject].net
      && e.asset == AssetOf(orders[e.subject].currency, w.env)
    ensures LedgerTotal(ledger, PAYOUT_OUT, AssetOf(c, w.env)) == Sum(PaidOut(orders, ledger, c))
  {
    if ledger == [] {
      SumOfZeros(PaidOut(orders, ledger, c));
    } else {
      var before, e := ledger[..|ledger| - 1], ledger[|ledger| - 1];
      assert ledger == before + [e];
      CountAppend(before, e);
      forall id
        ensures EntryCount(before, PAYOUT_OUT, id) <= 1
      {
        assert EntryCount(before + [e], PAYOUT_OUT, id) <= 1;
      }
      assert e in ledger && forall x :: x in before ==> x in ledger;
      PayoutsAddUp(w, orders, before, c);
      PaidOutAfter(w, orders, before, e, c);
    }
  }

  lemma ReceivedCovers(w: World, id: string, o: Order)
    requires o.status == PAID && PaymentOk(w, id, o) && AmountsOk(o)
    ensures o.fee + o.net <= ReceivedFor(w, id, o)
  {
    var amount := VerifyPayment(w.horizon, o.txHash.value, Demand(w, id, o)).amount;
    assert Money.Amount(o.Due()) <= amount;
    Money.FloorMonotone(Money.Amount(o.Due()) * 10_000_000.0, amount * 10_000_000.0);
    assert Money.Amount(o.Due()) * 10_000_000.0 == o.Due() as real;
  }

  /** In every run and currency, the verified payments less everything paid out to studios still
      hold at least the fees of all paid orders. */
  lemma PaymentsCoverPayouts(w: World, s: Store, events: seq<Event>, c: Currency)
    requires WorldOk(w) && Init(w, s)
    ensures var t := Run(w, s, events);
      && (forall id :: id in t.orders ==> PaymentOk(w, id, t.orders[id]))
      && Sum(Received(w, t.orders, c)) - LedgerTotal(t.ledger, PAYOUT_OUT, AssetOf(c, w.env)) >= Sum(Fees(t.orders, c))
  {
    hide VerifyPayment, Run, Init, UsageInv, SaleInv, ReferralInv;
    InitHasInv(w, s);
    RunKeepsInv(w, s, events);
    var t := Run(w, s, events);
    forall e | e in t.ledger && e.kind == PAYOUT_OUT
      ensures e.subject in PaidRows(t.orders)
    {}
    PayoutsAddUp(w, t.orders, t.ledger, c);
    var due := map id | id in t.orders && PaidIn(t.orders, id, c) :: t.orders[id].fee + t.orders[id].net;
    forall id | id in due
      ensures due[id] <= Received(w, t.orders, c)[id]
      ensures PaidOut(t.orders, t.ledger, c)[id] <= Nets(t.orders, c)[id]
    {
      assert AmountsOk(t.orders[id]);
      ReceivedCovers(w, id, t.orders[id]);
    }
    SumAtMost(PaidOut(t.orders, t.ledger, c), Nets(t.orders, c));
    SumAdd(Fees(t.orders, c), Nets(t.orders, c), due);
    SumAtMost(due, Received(w, t.orders, c));
  }

  // ---------------------------------------------------------------- referrals

  function Stage(status: ReferralStatus): int
  {
    match status
    case INVITED => 0
    case QUALIFIED => 1
    case REWARDED => 2
    case EXPIRED => 3
  }

  /** How a referral row may change: forward only, for the same people, with its order and its reward
      payment fixed once set. */
  ghost predicate MovesTo(r: Referral, r': Referral)
  {
    && Stage(r.status) <= Stage(r'.status) <= 2
    && r'.code == r.code && r'.referrerId == r.referrerId && r'.refereeId == r.refereeId
    && (r.qualifyingOrderId.Some? ==> r'.qualifyingOrderId == r.qualifyingOrderId)
    && (r.rewardTxHash.Some? ==> r'.rewardTxHash == r.rewardTxHash && r'.rewardAmount == r.rewardAmount)
    && (r'.status == REWARDED && r.status == INVITED ==> r'.qualifyingOrderId.Some?)
  }

  ghost predicate ReferralsMove(a: map<string, Referral>, b: map<string, Referral>)
  {
    forall r :: r in a ==> r in b && MovesTo(a[r], b[r])
  }

  /** `b` has every referral of `a`, moved by at most one stage. */
  ghost predicate ReferralsStep(a: map<string, Referral>, b: map<string, Referral>)
  {
    forall r :: r in a ==> r in b && MovesTo(a[r], b[r]) && Stage(b[r].status) <= Stage(a[r].status) + 1
  }

  ghost predicate Live(referrals: map<string, Referral>)
  {
    forall r :: r in referrals ==>
      Stage(referrals[r].status) <= 2 && (referrals[r].status == INVITED ==> referrals[r].qualifyingOrderId.None?)
  }

  lemma InvIsLive(w: World, s: Store)
    requires Inv(w, s)
    ensures Live(s.referrals)
  {
    forall r | r in s.referrals
      ensures ReferralOk(w, PaidRows(s.orders), s.players, s.referrals[r])
    {}
  }

  lemma RowMoves(a: map<string, Referral>, r: string, row: Referral)
    requires Live(a) && (r in a ==> MovesTo(a[r], row) && Stage(row.status) <= Stage(a[r].status) + 1)
    ensures ReferralsStep(a, a[r := row])
  {}

  lemma SettleMovesReferrals(w: World, s: Store, orderId: string, txHash: string)
    requires Live(s.referrals)
    ensures ReferralsStep(s.referrals, Settle(w, s, orderId, txHash).0.referrals)
  {
    hide VerifyPayment;
    var (t, out) := Settle(w, s, orderId, txHash);
    if out.Settled? && out.referralId.Some? {
      var r := out.referralId.value;
      RowMoves(s.referrals, r, Qualified(s.referrals[r], orderId, s.orders[orderId].studioId));
    }
  }

  lemma BindMovesReferrals(s: Store, playerId: string, code: string, root: Option<string>, newId: string)
    requires Live(s.referrals) && AnswersRootQuery(s, code, root) && newId !in s.referrals
    ensures ReferralsStep(s.referrals, Bind(s, playerId, code, root, newId).0.referrals)
  {
    var (t, out) := Bind(s, playerId, code, root, newId);
    if out == Bound {
      RowMoves(s.referrals, newId, t.referrals[newId]);
    }
  }

  lemma InviteMovesReferrals(s: Store, playerId: string, code: string, newId: string)
    requires Live(s.referrals) && newId !in s.referrals
    ensures ReferralsStep(s.referrals, Invite(s, playerId, code, newId).referrals)
  {
    hide CodeTaken;
  }

  lemma RewardMovesReferrals(w: World, s: Store, worker: nat)
    requires Inv(w, s) && worker in s.workers && !s.workers[worker].Paying? && s.workers[worker].referralId in s.referrals
    ensures ReferralsStep(s.referrals, RewardCommit(w, s, worker).referrals)
  {
    hide UsageInv, OrderInv, SaleInv, PayoutInv, RewardDisabled, ReferralsStep;
    var r := s.workers[worker].referralId;
    InvIsLive(w, s);
    ClosingMoves(w, s, worker);
    hide ReferralInv;
    if RewardCommit(w, s, worker).referrals == s.referrals {
      NothingMoves(s.referrals);
    } else {
      RowMoves(s.referrals, r, RewardCommit(w, s, worker).referrals[r]);
    }
  }

  lemma ClosingMoves(w: World, s: Store, worker: nat)
    requires Inv(w, s) && worker in s.workers && !s.workers[worker].Paying? && s.workers[worker].referralId in s.referrals
    ensures var r := s.workers[worker].referralId;
      var row := RewardCommit(w, s, worker).referrals[r];
      MovesTo(s.referrals[r], row) && Stage(row.status) <= Stage(s.referrals[r].status) + 1
  {
    hide UsageInv, OrderInv, SaleInv, PayoutInv;
    assert WorkerOk(w, s.referrals, s.workers[worker]);
    assert ReferralOk(w, PaidRows(s.orders), s.players, s.referrals[s.workers[worker].referralId]);
    hide ReferralInv, RewardDisabled;
  }

  lemma NothingMoves(a: map<string, Referral>)
    requires Live(a)
    ensures ReferralsStep(a, a)
  {}

  lemma OtherStepsLeaveReferrals(w: World, s: Store, e: Event)
    requires Enabled(w, s, e) && !e.Quoting? && !e.Settling? && !e.Inviting? && !e.Binding? && !e.RewardCommitted?
    ensures Step(w, s, e).referrals == s.referrals
  {
    hide Quote, Settle, Bind, RewardCommit;
  }

  lemma StepMovesReferrals(w: World, s: Store, e: Event)
    requires Inv(w, s)
    ensures ReferralsStep(s.referrals, Step(w, s, e).referrals)
  {
    hide Quote, Settle, Bind, Invite, RewardCommit, RewardBegin, RewardSend, Enqueue, PayoutRecord, PayoutSend, PayoutBegin;
    hide Inv, WorldOk, Live, ReferralsStep;
    InvIsLive(w, s);
    NothingMoves(s.referrals);
    if Enabled(w, s, e) {
      match e
      case Quoting(input, now) => QuoteLeavesRest(w, s, input, now);
      case Settling(orderId, txHash) => SettleMovesReferrals(w, s, orderId, txHash);
      case Inviting(playerId, code, newId) => InviteMovesReferrals(s, playerId, code, newId);
      case Binding(playerId, code, root, newId) => BindMovesReferrals(s, playerId, code, root, newId);
      case RewardCommitted(worker) => RewardMovesReferrals(w, s, worker);
      case _ => OtherStepsLeaveReferrals(w, s, e);
    }
  }

  /** Over every run a referral only moves from pending through qualified to rewarded. */
  lemma {:induction false} ReferralsOnlyMoveForward(w: World, s: Store, events: seq<Event>)
    requires WorldOk(w) && Inv(w, s)
    ensures ReferralsMove(s.referrals, Run(w, s, events).referrals)
  {
    hide Step, UsageInv, OrderInv, SaleInv, PayoutInv;
    if events == [] {
      assert forall r :: r in s.referrals ==> ReferralOk(w, PaidRows(s.orders), s.players, s.referrals[r]);
    } else {
      var before := events[..|events| - 1];
      ReferralsOnlyMoveForward(w, s, before);
      RunKeepsInv(w, s, before);
      StepMovesReferrals(w, Run(w, s, before), events[|events| - 1]);
      var mid, last := Run(w, s, before).referrals, Run(w, s, events).referrals;
      forall r | r in s.referrals
        ensures r in last && MovesTo(s.referrals[r], last[r])
      {
        assert MovesTo(s.referrals[r], mid[r]) && MovesTo(mid[r], last[r]);
        RunKeepsInv(w, s, events);
        assert ReferralOk(w, PaidRows(Run(w, s, events).orders), Run(w, s, events).players, last[r]);
      }
    }
  }

  /** A referee has at most one referral. One that has left the pending state names a paid order of that
      very referee, and it carries a reward payment exactly when one ledger entry, with the same
      transaction and amount, records it, however many reward jobs overlapped. */
  lemma ReferralInEveryRun(w: World, s: Store, events: seq<Event>, r: string)
    requires WorldOk(w) && Init(w, s) && r in Run(w, s, events).referrals
    ensures var t := Run(w, s, events);
      var row := t.referrals[r];
      && (forall q :: q in t.referrals && SameReferee(t.referrals[q], row) ==> q == r)
      && (row.status != INVITED ==>
            && row.qualifyingOrderId.Some? && row.qualifyingOrderId.value in t.orders
            && t.orders[row.qualifyingOrderId.value].status == PAID
            && row.refereeId == Some(t.orders[row.qualifyingOrderId.value].playerId))
      && EntryCount(t.ledger, REFERRAL_REWARD, r) == (if row.rewardTxHash.Some? then 1 else 0)
      && (forall e :: e in t.ledger && e.kind == REFERRAL_REWARD && e.subject == r ==>
            row.rewardTxHash == Some(e.txHash) && row.rewardAmount == Some(e.amount) && row.status == REWARDED)
  {
    hide Run, Init, UsageInv, OrderInv, SaleInv, PayoutInv;
    InitHasInv(w, s);
    RunKeepsInv(w, s, events);
    var t := Run(w, s, events);
    assert ReferralOk(w, PaidRows(t.orders), t.players, t.referrals[r]);
  }

  /** A settlement qualifies a referral exactly when the buyer had no paid order before and has a
      pending referral, and then only one of the buyer's own. */
  lemma SettlementQualifies(w: World, s: Store, orderId: string, txHash: string)
    requires Settle(w, s, orderId, txHash).1.Settled?
    ensures var (t, out) := Settle(w, s, orderId, txHash);
      var playerId := s.orders[orderId].playerId;
      && (out.referralId.Some? <==>
            OpenReferrals(s.referrals, playerId) != {} &&
            forall id :: id in s.orders && s.orders[id].playerId == playerId && s.orders[id].status == PAID ==> id == orderId)
      && (out.referralId.Some? ==>
            && out.referralId.value in OpenReferrals(s.referrals, playerId)
            && t.referrals[out.referralId.value].qualifyingOrderId == Some(orderId)
            && t.referrals[out.referralId.value].status == QUALIFIED)
      && (forall r :: r in s.referrals && out.referralId != Some(r) ==> t.referrals[r] == s.referrals[r])
  {
    assert s.orders[orderId].status != PAID;
  }

  // ---------------------------------------------------------------- where the guarantees end

  /** A call settles an order exactly when the order exists and is not PAID, the payment verifies against the
      order's own terms, and no other order has used it. That it was settled and refunded before is no obstacle. */
  lemma SettlesExactly(w: World, s: Store, orderId: string, txHash: string)
    ensures Settle(w, s, orderId, txHash).1.Settled? <==>
      && orderId in s.orders && s.orders[orderId].status != PAID
      && VerifyPayment(w.horizon, txHash, Demand(w, orderId, s.orders[orderId])).Verified?
      && UsersOf(s.orders, txHash) - {orderId} == {}
    ensures !Settle(w, s, orderId, txHash).1.Settled? ==> Settle(w, s, orderId, txHash).0 == s
  {
    hide VerifyPayment, QualifyingReferral;
  }

  /** What an order refund leaves in the order's row (apps/worker/src/jobs/refund.ts:44). */
  function MarkRefunded(s: Store, orderId: string): Store
  {
    if orderId !in s.orders then s else s.(orders := s.orders[orderId := s.orders[orderId].(status := REFUNDED)])
  }

  /** Only PAID is final: an order that was settled and then refunded is settled again by its own old payment, with a
      second sale entry. */
  lemma RefundedSettlesAgain(w: World, s: Store, orderId: string, txHash: string)
    requires Inv(w, s) && Settle(w, s, orderId, txHash).1.Settled?
    ensures var refunded := MarkRefunded(Settle(w, s, orderId, txHash).0, orderId);
      var (t, out) := Settle(w, refunded, orderId, txHash);
      && out.Settled? && orderId in t.orders && t.orders[orderId].status == PAID
      && EntryCount(t.ledger, SALE_IN, orderId) == 2
  {
    hide VerifyPayment, QualifyingReferral, UsageInv, OrderInv, PayoutInv, ReferralInv, WorldOk;
    SettlesExactly(w, s, orderId, txHash);
    var once := Settle(w, s, orderId, txHash).0;
    var refunded := MarkRefunded(once, orderId);
    assert orderId !in PaidRows(s.orders);
    CountAppend(s.ledger, once.ledger[|s.ledger|]);
    assert Demand(w, orderId, refunded.orders[orderId]) == Demand(w, orderId, s.orders[orderId]);
    assert UsersOf(refunded.orders, txHash) - {orderId} == UsersOf(s.orders, txHash) - {orderId};
    SettlesExactly(w, refunded, orderId, txHash);
    var t := Settle(w, refunded, orderId, txHash).0;
    CountAppend(refunded.ledger, t.ledger[|refunded.ledger|]);
  }
}
