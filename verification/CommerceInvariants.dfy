/** What every sequence of commerce steps keeps. */
module CommerceInvariants {
  import opened Wrappers
  import opened Stellar
  import opened Commerce
  import Money
  import P = Promotions

  /** Fee rates lie between 0 and 10000 (packages/shared/src/zod/admin.ts:51) and usage limits are positive
      (packages/shared/src/zod/promotion.ts:26). */
  ghost predicate WorldOk(w: World)
  {
    && (forall st :: st in w.studios ==> 0 <= w.studios[st].feeBps <= Money.BPS_DENOMINATOR)
    && (forall p :: p in w.promotions ==> w.promotions[p].id == p)
    && (forall p :: p in w.promotions && w.promotions[p].usageLimit.Some? ==> 0 < w.promotions[p].usageLimit.value)
  }

  // ---------------------------------------------------------------- invariants

  /** Each use counted is held by one stored order, and no limit is exceeded. */
  ghost predicate UsageInv(w: World, orders: map<string, Order>, usage: map<string, int>)
  {
    && usage.Keys == w.promotions.Keys
    && (forall p :: p in usage ==> usage[p] == |Named(orders, p)|)
    && (forall p :: p in usage && w.promotions[p].usageLimit.Some? ==> usage[p] <= w.promotions[p].usageLimit.value)
    && (forall id :: id in orders && orders[id].promotionId.Some? ==> orders[id].promotionId.value in usage)
  }

  predicate AmountsOk(o: Order)
  {
    && 0 <= o.discount && 0 <= o.fee && 0 <= o.net
    && o.gross == o.discount + o.fee + o.net
    && (o.promotionId.Some? <==> o.discount > 0)
  }

  /** A pending order has no payment; a paid one has a payment that verifies against its own terms. */
  predicate PaymentOk(w: World, id: string, o: Order)
  {
    match o.status
    case PENDING => o.txHash.None?
    case PAID => o.txHash.Some? && VerifyPayment(w.horizon, o.txHash.value, Demand(w, id, o)).Verified?
    case _ => false
  }

  ghost predicate OrderInv(w: World, orders: map<string, Order>, clock: int)
  {
    && (forall id :: id in orders ==> AmountsOk(orders[id]) && PaymentOk(w, id, orders[id]) && orders[id].createdAt < clock)
    && (forall a, b :: a in orders && b in orders && orders[a].createdAt == orders[b].createdAt ==> a == b)
    && (forall a, b :: a in orders && b in orders && orders[a].txHash == orders[b].txHash && orders[a].txHash.Some? ==> a == b)
  }

  function PaidRows(orders: map<string, Order>): map<string, Order>
  {
    map id | id in orders && orders[id].status == PAID :: orders[id]
  }

  /** Every paid order has exactly one SALE_IN entry, with its gross amount and its transaction. */
  ghost predicate SaleInv(w: World, paid: map<string, Order>, ledger: seq<Entry>)
  {
    && (forall id :: EntryCount(ledger, SALE_IN, id) == if id in paid then 1 else 0)
    && (forall e :: e in ledger && e.kind == SALE_IN ==>
          && e.subject in paid
          && Some(e.txHash) == paid[e.subject].txHash
          && e.amount == paid[e.subject].gross
          && e.dest == w.env.receivingAccount
          && e.asset == AssetOf(paid[e.subject].currency, w.env))
  }

  /** The payout job of the order can still run. */
  predicate PayoutLive(queue: map<Job, JobState>, orderId: string)
  {
    PayoutJob(orderId) in queue && queue[PayoutJob(orderId)] != Finished
  }

  ghost predicate PayoutInv(w: World, paid: map<string, Order>, ledger: seq<Entry>, queue: map<Job, JobState>)
  {
    && (forall id :: EntryCount(ledger, PAYOUT_OUT, id) <= if id in paid && !PayoutLive(queue, id) then 1 else 0)
    && (forall e :: e in ledger && e.kind == PAYOUT_OUT ==>
          && e.subject in paid
          && e.amount == paid[e.subject].net
          && e.source == w.env.receivingAccount
          && e.asset == AssetOf(paid[e.subject].currency, w.env))
    && (forall id :: PayoutLive(queue, id) ==> id in paid)
  }

  ghost predicate ReferralOk(w: World, paid: map<string, Order>, players: map<string, Player>, r: Referral)
  {
    && (r.refereeId.None? ==> r.status == INVITED)
    && (r.refereeId.Some? ==> r.refereeId.value in players && players[r.refereeId.value].referredBy == Some(r.referrerId))
    && (r.status == INVITED ==> r.qualifyingOrderId.None?)
    && (r.status == QUALIFIED || r.status == REWARDED ==>
          && r.qualifyingOrderId.Some? && r.qualifyingOrderId.value in paid
          && r.refereeId == Some(paid[r.qualifyingOrderId.value].playerId)
          && r.studioId == Some(paid[r.qualifyingOrderId.value].studioId))
    && r.status != EXPIRED
    && (r.rewardTxHash.Some? ==> r.status == REWARDED && r.rewardAmount.Some? && !RewardDisabled(w, r))
  }

  predicate SameReferee(a: Referral, b: Referral) { a.refereeId == b.refereeId && a.refereeId.Some? }

  ghost predicate WorkerOk(w: World, referrals: map<string, Referral>, work: Rewarding)
  {
    && work.referralId in referrals
    && (referrals[work.referralId].status == QUALIFIED || referrals[work.referralId].status == REWARDED)
    && (work.Waiving? <==> RewardDisabled(w, referrals[work.referralId]))
  }

  predicate Rewarded(referrals: map<string, Referral>, r: string)
  {
    r in referrals && referrals[r].rewardTxHash.Some?
  }

  ghost predicate ReferralInv(w: World, paid: map<string, Order>, players: map<string, Player>,
                              referrals: map<string, Referral>, ledger: seq<Entry>, workers: map<nat, Rewarding>)
  {
    && (forall r :: r in referrals ==> ReferralOk(w, paid, players, referrals[r]))
    && (forall a, b :: a in referrals && b in referrals && SameReferee(referrals[a], referrals[b]) ==> a == b)
    && (forall r :: EntryCount(ledger, REFERRAL_REWARD, r) == if Rewarded(referrals, r) then 1 else 0)
    && (forall e :: e in ledger && e.kind == REFERRAL_REWARD ==>
          && e.subject in referrals
          && Some(e.txHash) == referrals[e.subject].rewardTxHash
          && Some(e.amount) == referrals[e.subject].rewardAmount)
    && (forall k :: k in workers ==> WorkerOk(w, referrals, workers[k]))
  }

  ghost predicate Inv(w: World, s: Store)
  {
    && UsageInv(w, s.orders, s.usage)
    && OrderInv(w, s.orders, s.clock)
    && SaleInv(w, PaidRows(s.orders), s.ledger)
    && PayoutInv(w, PaidRows(s.orders), s.ledger, s.queue)
    && ReferralInv(w, PaidRows(s.orders), s.players, s.referrals, s.ledger, s.workers)
  }

  /** Before the first order: players and referral codes may exist, nobody is bound yet. */
  ghost predicate Init(w: World, s: Store)
  {
    && s.orders == map[] && s.ledger == [] && s.queue == map[] && s.workers == map[] && s.sent == []
    && s.usage == (map p | p in w.promotions :: 0)
    && (forall p :: p in s.players ==> s.players[p].referredBy.None?)
    && (forall r :: r in s.referrals ==>
          && s.referrals[r].refereeId.None? && s.referrals[r].status == INVITED
          && s.referrals[r].qualifyingOrderId.None? && s.referrals[r].rewardTxHash.None?)
  }

  lemma InitHasInv(w: World, s: Store)
    requires WorldOk(w) && Init(w, s)
    ensures Inv(w, s)
  {
    forall p | p in s.usage
      ensures s.usage[p] == |Named(s.orders, p)|
    {
      assert Named(s.orders, p) == {};
    }
    assert PaidRows(s.orders) == map[];
  }

  // ---------------------------------------------------------------- quoting

  lemma UnionCard<T>(a: set<T>, b: set<T>)
    ensures |a - b| == |a| - |a * b|
  {
    assert a == (a - b) + (a * b);
  }

  lemma UsageWithoutNone(orders: map<string, Order>, usage: map<string, int>)
    ensures UsageWithout(orders, usage, {}) == usage
  {
    forall p | p in usage
      ensures |Named(orders, p) * {}| == 0
    {
      assert Named(orders, p) * {} == {};
    }
  }

  lemma NamedHits(orders: map<string, Order>, id: string, p: string)
    requires id in orders
    ensures |Named(orders, p) * {id}| == if orders[id].promotionId == Some(p) then 1 else 0
  {
    if orders[id].promotionId == Some(p) {
      assert Named(orders, p) * {id} == {id};
    } else {
      assert Named(orders, p) * {id} == {};
    }
  }

  // Deleting one order gives back one use.
  lemma UsageWithoutOne(orders: map<string, Order>, usage: map<string, int>, id: string)
    requires id in orders
    ensures UsageWithout(orders, usage, {id}) ==
      var p := orders[id].promotionId;
      if p.Some? && p.value in usage then usage[p.value := usage[p.value] - 1] else usage
  {
    hide Named;
    forall p | p in usage
      ensures |Named(orders, p) * {id}| == if orders[id].promotionId == Some(p) then 1 else 0
    {
      NamedHits(orders, id, p);
    }
  }

  lemma DropOneMore(orders: map<string, Order>, done: set<string>, id: string, p: string)
    requires id !in done
    ensures |Named(orders, p) * done| + |Named(orders - done, p) * {id}| == |Named(orders, p) * (done + {id})|
  {
    assert Named(orders - done, p) == Named(orders, p) - done;
    var a, b := Named(orders, p) * done, (Named(orders, p) - done) * {id};
    assert Named(orders, p) * (done + {id}) == a + b;
    assert a !! b;
  }

  lemma UsageWithoutMore(orders: map<string, Order>, usage: map<string, int>, done: set<string>, id: string)
    requires id !in done
    ensures UsageWithout(orders - done, UsageWithout(orders, usage, done), {id}) == UsageWithout(orders, usage, done + {id})
  {
    hide Named;
    var once := UsageWithout(orders, usage, done);
    var twice, both := UsageWithout(orders - done, once, {id}), UsageWithout(orders, usage, done + {id});
    assert twice.Keys == usage.Keys == both.Keys;
    forall p | p in usage
      ensures twice[p] == both[p]
    {
      DropOneMore(orders, done, id, p);
      assert once[p] == usage[p] - |Named(orders, p) * done|;
    }
  }

  lemma DropKeepsUsage(w: World, s: Store, ids: set<string>)
    requires UsageInv(w, s.orders, s.usage)
    ensures UsageInv(w, Drop(s, ids).orders, Drop(s, ids).usage)
  {
    hide Named;
    var t := Drop(s, ids);
    forall p | p in t.usage
      ensures t.usage[p] == |Named(t.orders, p)| <= s.usage[p]
    {
      NamedAfterDrop(s.orders, ids, p);
      UnionCard(Named(s.orders, p), ids);
    }
  }

  lemma NamedAfterDrop(orders: map<string, Order>, ids: set<string>, p: string)
    ensures Named(orders - ids, p) == Named(orders, p) - ids
  {}

  // A row that is chosen belongs to a promotion of the table with a use left.
  lemma ChosenRow(w: World, usage: map<string, int>, ids: seq<string>, row: P.Promotion)
    requires WorldOk(w) && usage.Keys == w.promotions.Keys
    requires forall p :: p in ids ==> p in w.promotions
    requires row in Rows(w, usage, ids) && (row.usageLimit.Some? ==> row.usageCount < row.usageLimit.value)
    ensures row.id in usage
    ensures w.promotions[row.id].usageLimit.Some? ==> usage[row.id] < w.promotions[row.id].usageLimit.value
  {
    var rows := Rows(w, usage, ids);
    var i :| 0 <= i < |rows| && rows[i] == row;
    assert ids[i] in ids;
  }

  predicate HasRoom(w: World, usage: map<string, int>, promotionId: Option<string>)
    requires usage.Keys <= w.promotions.Keys
  {
    promotionId.Some? ==>
      promotionId.value in usage &&
      (w.promotions[promotionId.value].usageLimit.Some? ==>
         usage[promotionId.value] < w.promotions[promotionId.value].usageLimit.value)
  }

  lemma ChosenHasRoom(w: World, s: Store, input: QuoteInput, now: Surroundings)
    requires WorldOk(w) && Precheck(w, input, now).None? && 0 <= now.item.value.price && s.usage.Keys == w.promotions.Keys && input.Quantity() > 0
    requires forall p :: p in now.candidates ==> p in w.promotions
    ensures 0 <= BestFor(w, s, input, now).amount <= now.item.value.price * input.Quantity()
    ensures BestFor(w, s, input, now).promotionId.Some? <==> BestFor(w, s, input, now).amount > 0
    ensures HasRoom(w, s.usage, BestFor(w, s, input, now).promotionId)
  {
    var rows := Rows(w, s.usage, now.candidates);
    var purchase := PurchaseOf(input, now.item.value, s.orders, now.now);
    GrossNotNegative(now.item.value.price, input.Quantity());
    BestHasRoom(w, s.usage, now.candidates, rows, purchase, P.Best(rows, purchase));
  }

  lemma GrossNotNegative(price: int, quantity: int)
    requires 0 <= price && 0 <= quantity
    ensures 0 <= price * quantity
  {}

  lemma BestHasRoom(w: World, usage: map<string, int>, ids: seq<string>, rows: seq<P.Promotion>,
                    purchase: P.Purchase, best: P.Discount)
    requires WorldOk(w) && usage.Keys == w.promotions.Keys
    requires (forall p :: p in ids ==> p in w.promotions) && rows == Rows(w, usage, ids)
    requires best == P.Best(rows, purchase) && 0 <= purchase.Gross()
    ensures 0 <= best.amount <= purchase.Gross() && (best.promotionId.Some? <==> best.amount > 0)
    ensures HasRoom(w, usage, best.promotionId)
  {
    P.BestRange(rows, purchase);
    if best.promotionId.Some? {
      var row :| row in rows && row.id == best.promotionId.value
                 && (row.usageLimit.Some? ==> row.usageCount < row.usageLimit.value);
      ChosenRow(w, usage, ids, row);
    }
  }

  lemma NamedAfterAdd(orders: map<string, Order>, newId: string, o: Order, p: string)
    requires newId !in orders
    ensures |Named(orders[newId := o], p)| == |Named(orders, p)| + if o.promotionId == Some(p) then 1 else 0
  {
    if o.promotionId == Some(p) {
      assert Named(orders[newId := o], p) == Named(orders, p) + {newId};
    } else {
      assert Named(orders[newId := o], p) == Named(orders, p);
    }
  }

  lemma AddKeepsUsage(w: World, orders: map<string, Order>, usage: map<string, int>,
                      newId: string, o: Order, usage': map<string, int>)
    requires UsageInv(w, orders, usage) && newId !in orders && HasRoom(w, usage, o.promotionId)
    requires usage' == if o.promotionId.Some? then usage[o.promotionId.value := usage[o.promotionId.value] + 1] else usage
    ensures UsageInv(w, orders[newId := o], usage')
  {
    forall p | p in usage'
      ensures usage'[p] == |Named(orders[newId := o], p)|
    {
      NamedAfterAdd(orders, newId, o, p);
    }
  }

  lemma AddKeepsOrders(w: World, orders: map<string, Order>, clock: int, newId: string, o: Order)
    requires OrderInv(w, orders, clock) && newId !in orders
    requires AmountsOk(o) && o.status == PENDING && o.txHash.None? && o.createdAt == clock
    ensures OrderInv(w, orders[newId := o], clock + 1)
    ensures PaidRows(orders[newId := o]) == PaidRows(orders)
  {
    hide AmountsOk, VerifyPayment;
  }

  lemma NewOrderOk(w: World, input: QuoteInput, item: Item, discount: P.Discount, clock: int)
    requires WorldOk(w) && item.studioId in w.studios
    requires 0 <= discount.amount <= item.price * input.Quantity()
    requires discount.promotionId.Some? <==> discount.amount > 0
    ensures AmountsOk(NewOrder(w, input, item, discount, clock))
  {
    Money.FeeWithinGross(item.price * input.Quantity() - discount.amount, w.studios[item.studioId].feeBps);
  }

  ghost predicate QuoteReady(w: World, s: Store, input: QuoteInput, now: Surroundings)
  {
    && UsageInv(w, s.orders, s.usage) && OrderInv(w, s.orders, s.clock)
    && input.Quantity() > 0 && now.newId !in s.orders && Precheck(w, input, now).None?
    && 0 <= now.item.value.price && AnswersCandidateQuery(w, now.candidates, now.item.value, input.itemId)
  }

  lemma InsertKeepsInv(w: World, s: Store, newId: string, o: Order)
    requires UsageInv(w, s.orders, s.usage) && OrderInv(w, s.orders, s.clock) && newId !in s.orders
    requires AmountsOk(o) && HasRoom(w, s.usage, o.promotionId)
    requires o.status == PENDING && o.txHash.None? && o.createdAt == s.clock
    ensures var t := Insert(s, newId, o);
      UsageInv(w, t.orders, t.usage) && OrderInv(w, t.orders, t.clock) && PaidRows(t.orders) == PaidRows(s.orders)
  {
    AddKeepsUsage(w, s.orders, s.usage, newId, o, Used(s.usage, o.promotionId));
    AddKeepsOrders(w, s.orders, s.clock, newId, o);
  }

  lemma QuoteWithKeepsInv(w: World, before: Store, s: Store, input: QuoteInput, now: Surroundings, best: P.Discount)
    requires WorldOk(w) && QuoteReady(w, s, input, now)
    requires 0 <= best.amount <= now.item.value.price * input.Quantity()
    requires (best.promotionId.Some? <==> best.amount > 0) && HasRoom(w, s.usage, best.promotionId)
    ensures var (t, out) := QuoteWith(w, before, s, input, now, best);
      out.Quoted? ==>
        UsageInv(w, t.orders, t.usage) && OrderInv(w, t.orders, t.clock) && PaidRows(t.orders) == PaidRows(s.orders)
  {
    var item := now.item.value;
    NewOrderOk(w, input, item, best, s.clock);
    InsertKeepsInv(w, s, now.newId, NewOrder(w, input, item, best, s.clock));
  }

  lemma FreshKeepsInv(w: World, before: Store, s: Store, input: QuoteInput, now: Surroundings)
    requires WorldOk(w) && QuoteReady(w, s, input, now)
    ensures var (t, out) := QuoteFresh(w, before, s, input, now);
      if out.QuoteFailed? then t == before
      else UsageInv(w, t.orders, t.usage) && OrderInv(w, t.orders, t.clock) && PaidRows(t.orders) == PaidRows(s.orders)
  {
    ChosenHasRoom(w, s, input, now);
    QuoteWithKeepsInv(w, before, s, input, now, BestFor(w, s, input, now));
  }

  lemma DropKeepsOrders(w: World, s: Store, ids: set<string>)
    requires OrderInv(w, s.orders, s.clock)
    requires forall id :: id in ids && id in s.orders ==> s.orders[id].status == PENDING
    ensures OrderInv(w, Drop(s, ids).orders, s.clock)
    ensures PaidRows(Drop(s, ids).orders) == PaidRows(s.orders)
  {}

  /** Nothing but orders, counters and the clock differs. */
  ghost predicate SameRest(s: Store, t: Store)
  {
    t == s.(orders := t.orders, usage := t.usage, clock := t.clock)
  }

  lemma FreshLeavesRest(w: World, before: Store, s: Store, input: QuoteInput, now: Surroundings)
    requires Precheck(w, input, now).None? && SameRest(before, s)
    requires s.usage.Keys == w.promotions.Keys && forall p :: p in now.candidates ==> p in w.promotions
    ensures SameRest(before, QuoteFresh(w, before, s, input, now).0)
  {
    hide BestFor, NewOrder, OfferFor, Precheck;
  }

  // A failed insertion differs from a successful one only in the tables it leaves behind.
  lemma FreshRollsBack(w: World, before: Store, s: Store, input: QuoteInput, now: Surroundings)
    requires Precheck(w, input, now).None?
    requires s.usage.Keys == w.promotions.Keys && forall p :: p in now.candidates ==> p in w.promotions
    ensures var (t, out) := QuoteFresh(w, s, s, input, now);
      && QuoteFresh(w, before, s, input, now) == (if out.QuoteFailed? then before else t, out)
      && (out.QuoteFailed? ==> t == s)
  {
    hide BestFor, NewOrder, OfferFor, Precheck;
  }

  lemma QuoteLeavesRest(w: World, s: Store, input: QuoteInput, now: Surroundings)
    requires s.usage.Keys == w.promotions.Keys && ValidQuote(w, s, input, now)
    ensures SameRest(s, Quote(w, s, input, now).0)
  {
    hide QuoteFresh, OfferFor;
    if Precheck(w, input, now).None? {
      var pending := PendingIds(s.orders, KeyFor(w, input, now));
      if pending == {} {
        FreshLeavesRest(w, s, s, input, now);
      } else if P.Supplied(input.promotionCode) {
        FreshLeavesRest(w, s, Drop(s, {Newest(s.orders, KeyFor(w, input, now))}), input, now);
      }
    }
  }

  lemma QuoteKeepsInv(w: World, s: Store, input: QuoteInput, now: Surroundings)
    requires WorldOk(w) && Inv(w, s) && ValidQuote(w, s, input, now)
    ensures Inv(w, Quote(w, s, input, now).0)
    ensures PaidRows(Quote(w, s, input, now).0.orders) == PaidRows(s.orders)
  {
    hide QuoteFresh, OfferFor, SaleInv, PayoutInv, ReferralInv;
    QuoteLeavesRest(w, s, input, now);
    if Precheck(w, input, now).None? {
      var pending := PendingIds(s.orders, KeyFor(w, input, now));
      if pending == {} {
        FreshKeepsInv(w, s, s, input, now);
      } else {
        var newest := Newest(s.orders, KeyFor(w, input, now));
        var ids := if P.Supplied(input.promotionCode) then {newest} else pending - {newest};
        DropKeepsUsage(w, s, ids);
        DropKeepsOrders(w, s, ids);
        if P.Supplied(input.promotionCode) {
          FreshKeepsInv(w, s, Drop(s, ids), input, now);
        }
      }
    }
  }

  // ---------------------------------------------------------------- settling

  // Appending an entry changes one count by one.
  lemma CountAppend(ledger: seq<Entry>, e: Entry)
    ensures forall kind, subject {:trigger EntryCount(ledger + [e], kind, subject)} ::
      EntryCount(ledger + [e], kind, subject) ==
      EntryCount(ledger, kind, subject) + if e.kind == kind && e.subject == subject then 1 else 0
  {
    assert (ledger + [e])[..|ledger|] == ledger;
  }

  lemma OtherEntryKeepsSales(w: World, paid: map<string, Order>, ledger: seq<Entry>, e: Entry)
    requires SaleInv(w, paid, ledger) && e.kind != SALE_IN
    ensures SaleInv(w, paid, ledger + [e])
  {
    CountAppend(ledger, e);
  }

  lemma OtherEntryKeepsPayouts(w: World, paid: map<string, Order>, ledger: seq<Entry>, queue: map<Job, JobState>, e: Entry)
    requires PayoutInv(w, paid, ledger, queue) && e.kind != PAYOUT_OUT
    ensures PayoutInv(w, paid, ledger + [e], queue)
  {
    CountAppend(ledger, e);
  }

  lemma OtherEntryKeepsReferrals(w: World, paid: map<string, Order>, players: map<string, Player>,
                                 referrals: map<string, Referral>, ledger: seq<Entry>, workers: map<nat, Rewarding>, e: Entry)
    requires ReferralInv(w, paid, players, referrals, ledger, workers) && e.kind != REFERRAL_REWARD
    ensures ReferralInv(w, paid, players, referrals, ledger + [e], workers)
  {
    CountAppend(ledger, e);
  }

  lemma SaleAdded(w: World, paid: map<string, Order>, ledger: seq<Entry>, id: string, o: Order, e: Entry)
    requires SaleInv(w, paid, ledger) && id !in paid
    requires e.kind == SALE_IN && e.subject == id && Some(e.txHash) == o.txHash && e.amount == o.gross
    requires e.dest == w.env.receivingAccount && e.asset == AssetOf(o.currency, w.env)
    ensures SaleInv(w, paid[id := o], ledger + [e])
  {
    CountAppend(ledger, e);
  }

  lemma MorePaidKeepsPayouts(w: World, paid: map<string, Order>, ledger: seq<Entry>, queue: map<Job, JobState>, id: string, o: Order)
    requires PayoutInv(w, paid, ledger, queue) && id !in paid
    ensures PayoutInv(w, paid[id := o], ledger, queue)
  {}

  lemma MorePaidKeepsReferrals(w: World, paid: map<string, Order>, players: map<string, Player>,
                               referrals: map<string, Referral>, ledger: seq<Entry>, workers: map<nat, Rewarding>, id: string, o: Order)
    requires ReferralInv(w, paid, players, referrals, ledger, workers) && id !in paid
    ensures ReferralInv(w, paid[id := o], players, referrals, ledger, workers)
  {
    forall r | r in referrals
      ensures ReferralOk(w, paid[id := o], players, referrals[r])
    {
      assert ReferralOk(w, paid, players, referrals[r]);
    }
  }

  lemma QualifyingKeepsReferrals(w: World, paid: map<string, Order>, players: map<string, Player>,
                                 referrals: map<string, Referral>, ledger: seq<Entry>, workers: map<nat, Rewarding>,
                                 r: string, orderId: string)
    requires ReferralInv(w, paid, players, referrals, ledger, workers) && orderId in paid
    requires r in OpenReferrals(referrals, paid[orderId].playerId)
    ensures ReferralInv(w, paid, players, referrals[r := Qualified(referrals[r], orderId, paid[orderId].studioId)], ledger, workers)
  {
    hide RewardDisabled, WorkerOk;
    var referrals' := referrals[r := Qualified(referrals[r], orderId, paid[orderId].studioId)];
    assert ReferralOk(w, paid, players, referrals[r]);
    assert ReferralOk(w, paid, players, referrals'[r]);
    UntouchedWorkers(w, referrals, workers, r, referrals'[r]);
    hide ReferralOk;
    assert forall q :: q in referrals' && q != r ==> referrals'[q] == referrals[q];
    assert forall q :: Rewarded(referrals', q) == Rewarded(referrals, q);
  }

  // Reward runs are never at work on a referral that has not qualified.
  lemma UntouchedWorkers(w: World, referrals: map<string, Referral>, workers: map<nat, Rewarding>, r: string, row: Referral)
    requires forall k :: k in workers ==> WorkerOk(w, referrals, workers[k])
    requires r in referrals && referrals[r].status == INVITED
    ensures forall k :: k in workers ==> WorkerOk(w, referrals[r := row], workers[k])
  {
    hide RewardDisabled;
    forall k | k in workers
      ensures WorkerOk(w, referrals[r := row], workers[k])
    {
      assert WorkerOk(w, referrals, workers[k]);
    }
  }

  lemma SettledKeepsUsage(w: World, orders: map<string, Order>, usage: map<string, int>, id: string, o: Order)
    requires UsageInv(w, orders, usage) && id in orders && o.promotionId == orders[id].promotionId
    ensures UsageInv(w, orders[id := o], usage)
  {
    forall p | p in usage
      ensures Named(orders[id := o], p) == Named(orders, p)
    {}
  }

  lemma KeepsAmounts(a: Order, b: Order)
    requires AmountsOk(a) && b == a.(status := b.status, txHash := b.txHash)
    ensures AmountsOk(b)
  {}

  lemma SettledKeepsOrders(w: World, s: Store, orderId: string, txHash: string)
    requires OrderInv(w, s.orders, s.clock) && Settle(w, s, orderId, txHash).1.Settled?
    ensures OrderInv(w, Settle(w, s, orderId, txHash).0.orders, s.clock)
  {
    hide VerifyPayment, Money.Amount, QualifyingReferral, AmountsOk;
    var o := s.orders[orderId].(status := PAID, txHash := Some(txHash));
    assert AmountsOk(o) by { KeepsAmounts(s.orders[orderId], o); }
    assert Demand(w, orderId, o) == Demand(w, orderId, s.orders[orderId]);
    assert forall id :: id in s.orders && s.orders[id].txHash == Some(txHash) && id != orderId ==>
        id in UsersOf(s.orders, txHash) - {orderId};
  }

  lemma SettledKeepsLedgers(w: World, s: Store, orderId: string, txHash: string)
    requires SaleInv(w, PaidRows(s.orders), s.ledger)
    requires PayoutInv(w, PaidRows(s.orders), s.ledger, s.queue)
    requires Settle(w, s, orderId, txHash).1.Settled?
    ensures var t := Settle(w, s, orderId, txHash).0;
      && PaidRows(t.orders) == PaidRows(s.orders)[orderId := t.orders[orderId]]
      && orderId !in PaidRows(s.orders)
      && SaleInv(w, PaidRows(t.orders), t.ledger)
      && PayoutInv(w, PaidRows(t.orders), t.ledger, t.queue)
  {
    hide VerifyPayment, SaleInv, PayoutInv;
    var t := Settle(w, s, orderId, txHash).0;
    var paid, o, e := PaidRows(s.orders), t.orders[orderId], t.ledger[|s.ledger|];
    assert PaidRows(t.orders) == paid[orderId := o];
    SaleAdded(w, paid, s.ledger, orderId, o, e);
    MorePaidKeepsPayouts(w, paid, s.ledger, s.queue, orderId, o);
    OtherEntryKeepsPayouts(w, paid[orderId := o], s.ledger, s.queue, e);
  }

  lemma SettledKeepsReferrals(w: World, s: Store, orderId: string, txHash: string)
    requires ReferralInv(w, PaidRows(s.orders), s.players, s.referrals, s.ledger, s.workers)
    requires Settle(w, s, orderId, txHash).1.Settled?
    ensures var t := Settle(w, s, orderId, txHash).0;
      ReferralInv(w, PaidRows(t.orders), t.players, t.referrals, t.ledger, t.workers)
  {
    hide VerifyPayment, ReferralInv;
    var (t, out) := Settle(w, s, orderId, txHash);
    var paid, o, e := PaidRows(s.orders), t.orders[orderId], t.ledger[|s.ledger|];
    assert PaidRows(t.orders) == paid[orderId := o] && orderId !in paid;
    MorePaidKeepsReferrals(w, paid, s.players, s.referrals, s.ledger, s.workers, orderId, o);
    OtherEntryKeepsReferrals(w, paid[orderId := o], s.players, s.referrals, s.ledger, s.workers, e);
    if out.referralId.Some? {
      QualifyingKeepsReferrals(w, paid[orderId := o], s.players, s.referrals, t.ledger, s.workers, out.referralId.value, orderId);
    }
  }

  lemma SettleKeepsInv(w: World, s: Store, orderId: string, txHash: string)
    requires WorldOk(w) && Inv(w, s)
    ensures Inv(w, Settle(w, s, orderId, txHash).0)
  {
    hide VerifyPayment, OrderInv, SaleInv, PayoutInv, ReferralInv;
    var (t, out) := Settle(w, s, orderId, txHash);
    if out.Settled? {
      SettledKeepsUsage(w, s.orders, s.usage, orderId, t.orders[orderId]);
      SettledKeepsOrders(w, s, orderId, txHash);
      SettledKeepsLedgers(w, s, orderId, txHash);
      SettledKeepsReferrals(w, s, orderId, txHash);
    }
  }

  // ---------------------------------------------------------------- jobs and referrals

  lemma EnqueueKeepsInv(w: World, s: Store, orderId: string, referralId: Option<string>)
    requires Inv(w, s) && orderId in s.orders && s.orders[orderId].status == PAID
    ensures Inv(w, Enqueue(s, orderId, referralId))
  {
    hide UsageInv, OrderInv, SaleInv, ReferralInv;
    var t := Enqueue(s, orderId, referralId);
    assert orderId in PaidRows(s.orders);
    forall id
      ensures PayoutLive(t.queue, id) ==> PayoutLive(s.queue, id) || (id == orderId && EntryCount(s.ledger, PAYOUT_OUT, orderId) == 0)
    {}
  }

  lemma PayoutAdded(w: World, paid: map<string, Order>, ledger: seq<Entry>, queue: map<Job, JobState>, e: Entry)
    requires PayoutInv(w, paid, ledger, queue) && PayoutLive(queue, e.subject) && e.kind == PAYOUT_OUT
    requires e.subject in paid ==> e.amount == paid[e.subject].net && e.source == w.env.receivingAccount
                                   && e.asset == AssetOf(paid[e.subject].currency, w.env)
    ensures PayoutInv(w, paid, ledger + [e], queue[PayoutJob(e.subject) := Finished])
  {
    CountAppend(ledger, e);
  }

  lemma PayoutKeepsInv(w: World, s: Store, orderId: string, txHash: string)
    requires Inv(w, s) && PayoutLive(s.queue, orderId) && PayoutWallet(w, s, orderId).Some?
    ensures Inv(w, PayoutRecord(w, s, orderId, txHash))
  {
    var paid := PaidRows(s.orders);
    var e := PayoutEntry(w, orderId, s.orders[orderId], PayoutWallet(w, s, orderId).value, txHash);
    PayoutAdded(w, paid, s.ledger, s.queue, e);
    OtherEntryKeepsSales(w, paid, s.ledger, e);
    OtherEntryKeepsReferrals(w, paid, s.players, s.referrals, s.ledger, s.workers, e);
  }

  lemma QueueKeepsInv(w: World, s: Store, queue: map<Job, JobState>)
    requires Inv(w, s)
    requires forall id :: PayoutLive(queue, id) ==> PayoutLive(s.queue, id)
    ensures PayoutInv(w, PaidRows(s.orders), s.ledger, queue)
  {}

  lemma BoundKeepsReferrals(w: World, paid: map<string, Order>, players: map<string, Player>,
                            referrals: map<string, Referral>, ledger: seq<Entry>, workers: map<nat, Rewarding>,
                            playerId: string, newId: string, r: Referral)
    requires ReferralInv(w, paid, players, referrals, ledger, workers)
    requires playerId in players && players[playerId].referredBy.None? && newId !in referrals
    requires r.refereeId == Some(playerId) && r.status == INVITED && r.qualifyingOrderId.None? && r.rewardTxHash.None?
    ensures ReferralInv(w, paid, players[playerId := players[playerId].(referredBy := Some(r.referrerId))],
                        referrals[newId := r], ledger, workers)
  {
    var players' := players[playerId := players[playerId].(referredBy := Some(r.referrerId))];
    var referrals' := referrals[newId := r];
    forall q | q in referrals'
      ensures ReferralOk(w, paid, players', referrals'[q])
      ensures q != newId ==> !SameReferee(referrals'[q], r)
    {
      if q != newId { assert ReferralOk(w, paid, players, referrals[q]); }
    }
    assert forall q :: Rewarded(referrals', q) == Rewarded(referrals, q);
    forall k | k in workers
      ensures WorkerOk(w, referrals', workers[k])
    {
      assert WorkerOk(w, referrals, workers[k]);
    }
  }

  lemma BindKeepsInv(w: World, s: Store, playerId: string, code: string, root: Option<string>, newId: string)
    requires Inv(w, s) && AnswersRootQuery(s, code, root) && newId !in s.referrals
    ensures Inv(w, Bind(s, playerId, code, root, newId).0)
  {
    var (t, out) := Bind(s, playerId, code, root, newId);
    if out == Bound {
      BoundKeepsReferrals(w, PaidRows(s.orders), s.players, s.referrals, s.ledger, s.workers,
                          playerId, newId, t.referrals[newId]);
    }
  }

  lemma JoinKeepsInv(w: World, s: Store, playerId: string, wallet: string)
    requires Inv(w, s) && playerId !in s.players
    ensures Inv(w, Join(s, playerId, wallet))
  {
    hide UsageInv, OrderInv, SaleInv, PayoutInv, WorkerOk, RewardDisabled;
    var t := Join(s, playerId, wallet);
    forall r | r in t.referrals
      ensures ReferralOk(w, PaidRows(t.orders), t.players, t.referrals[r])
    {
      assert ReferralOk(w, PaidRows(s.orders), s.players, s.referrals[r]);
    }
  }

  lemma InvitedKeepsReferrals(w: World, paid: map<string, Order>, players: map<string, Player>,
                              referrals: map<string, Referral>, ledger: seq<Entry>, workers: map<nat, Rewarding>,
                              newId: string, r: Referral)
    requires ReferralInv(w, paid, players, referrals, ledger, workers) && newId !in referrals
    requires r.refereeId.None? && r.status == INVITED && r.qualifyingOrderId.None? && r.rewardTxHash.None?
    ensures ReferralInv(w, paid, players, referrals[newId := r], ledger, workers)
  {
    hide RewardDisabled;
    var referrals' := referrals[newId := r];
    forall q | q in referrals'
      ensures ReferralOk(w, paid, players, referrals'[q])
    {
      if q != newId { assert ReferralOk(w, paid, players, referrals[q]); }
    }
    assert forall q :: Rewarded(referrals', q) == Rewarded(referrals, q);
    forall k | k in workers
      ensures WorkerOk(w, referrals', workers[k])
    {
      assert WorkerOk(w, referrals, workers[k]);
    }
  }

  lemma InviteKeepsInv(w: World, s: Store, playerId: string, code: string, newId: string)
    requires Inv(w, s) && newId !in s.referrals
    ensures Inv(w, Invite(s, playerId, code, newId))
  {
    hide UsageInv, OrderInv, SaleInv, PayoutInv, ReferralInv, CodeTaken;
    var t := Invite(s, playerId, code, newId);
    if t != s {
      InvitedKeepsReferrals(w, PaidRows(s.orders), s.players, s.referrals, s.ledger, s.workers, newId, t.referrals[newId]);
    }
  }

  // Closing a referral: the row changes to `row'` and stays with the same referee and order.
  lemma ClosingKeepsReferrals(w: World, paid: map<string, Order>, players: map<string, Player>,
                              referrals: map<string, Referral>, ledger: seq<Entry>, workers: map<nat, Rewarding>,
                              r: string, row: Referral)
    requires ReferralInv(w, paid, players, referrals, ledger, workers)
    requires r in referrals && referrals[r].status in {QUALIFIED, REWARDED}
    requires row == referrals[r].(status := REWARDED, rewardAmount := row.rewardAmount,
                                  rewardCurrency := row.rewardCurrency, rewardTxHash := row.rewardTxHash)
    requires row.rewardTxHash == referrals[r].rewardTxHash && (row.rewardTxHash.Some? ==> row.rewardAmount == referrals[r].rewardAmount)
    ensures ReferralInv(w, paid, players, referrals[r := row], ledger, workers)
  {
    var referrals' := referrals[r := row];
    assert ReferralOk(w, paid, players, referrals[r]);
    assert ReferralOk(w, paid, players, row);
    assert forall q :: Rewarded(referrals', q) == Rewarded(referrals, q);
    forall q | q in referrals'
      ensures ReferralOk(w, paid, players, referrals'[q])
    {
      if q != r { assert ReferralOk(w, paid, players, referrals[q]); }
    }
    forall k | k in workers
      ensures WorkerOk(w, referrals', workers[k])
    {
      assert WorkerOk(w, referrals, workers[k]);
    }
  }

  lemma RewardAdded(w: World, paid: map<string, Order>, players: map<string, Player>,
                    referrals: map<string, Referral>, ledger: seq<Entry>, workers: map<nat, Rewarding>,
                    r: string, row: Referral, e: Entry)
    requires ReferralInv(w, paid, players, referrals, ledger, workers)
    requires r in referrals && referrals[r].status == QUALIFIED && !RewardDisabled(w, referrals[r])
    requires row == referrals[r].(status := REWARDED, rewardAmount := Some(e.amount),
                                  rewardCurrency := row.rewardCurrency, rewardTxHash := Some(e.txHash))
    requires e.kind == REFERRAL_REWARD && e.subject == r
    ensures ReferralInv(w, paid, players, referrals[r := row], ledger + [e], workers)
  {
    var referrals' := referrals[r := row];
    CountAppend(ledger, e);
    assert ReferralOk(w, paid, players, referrals[r]);
    assert forall q :: Rewarded(referrals', q) == (Rewarded(referrals, q) || q == r);
    forall q | q in referrals'
      ensures ReferralOk(w, paid, players, referrals'[q])
    {
      if q != r { assert ReferralOk(w, paid, players, referrals[q]); }
    }
    NoRewardYet(ledger, r);
    forall k | k in workers
      ensures WorkerOk(w, referrals', workers[k])
    {
      assert WorkerOk(w, referrals, workers[k]);
    }
  }

  lemma {:induction false} NoRewardYet(ledger: seq<Entry>, r: string)
    ensures EntryCount(ledger, REFERRAL_REWARD, r) == 0 ==> forall e :: e in ledger && e.kind == REFERRAL_REWARD ==> e.subject != r
  {
    if ledger != [] {
      NoRewardYet(ledger[..|ledger| - 1], r);
      assert ledger == ledger[..|ledger| - 1] + [ledger[|ledger| - 1]];
    }
  }

  lemma RewardKeepsInv(w: World, s: Store, worker: nat)
    requires Inv(w, s) && worker in s.workers && !s.workers[worker].Paying?
    ensures s.workers[worker].referralId in s.referrals
    ensures Inv(w, RewardCommit(w, s, worker))
  {
    var work := s.workers[worker];
    var r, paid, rest := work.referralId, PaidRows(s.orders), s.workers - {worker};
    assert WorkerOk(w, s.referrals, work);
    assert ReferralOk(w, paid, s.players, s.referrals[r]);
    assert ReferralInv(w, paid, s.players, s.referrals, s.ledger, rest);
    var t := RewardCommit(w, s, worker);
    if work.Waiving? {
      ClosingKeepsReferrals(w, paid, s.players, s.referrals, s.ledger, rest, r, t.referrals[r]);
    } else if s.referrals[r].status == QUALIFIED {
      var e := t.ledger[|s.ledger|];
      OtherEntryKeepsSales(w, paid, s.ledger, e);
      OtherEntryKeepsPayouts(w, paid, s.ledger, s.queue, e);
      RewardAdded(w, paid, s.players, s.referrals, s.ledger, rest, r, t.referrals[r], e);
    }
  }

  lemma WorkersKeepInv(w: World, s: Store, workers: map<nat, Rewarding>)
    requires Inv(w, s)
    requires forall k :: k in workers ==> WorkerOk(w, s.referrals, workers[k])
    ensures ReferralInv(w, PaidRows(s.orders), s.players, s.referrals, s.ledger, workers)
  {}

  lemma StartKeepsInv(w: World, s: Store, worker: nat, referralId: string)
    requires Inv(w, s)
    ensures Inv(w, RewardBegin(w, s, worker, referralId))
  {
    hide RewardDisabled, UsageInv, OrderInv, SaleInv, PayoutInv;
    if RewardPlan(w, s, referralId).Some? {
      assert ReferralOk(w, PaidRows(s.orders), s.players, s.referrals[referralId]);
      WorkersKeepInv(w, s, RewardBegin(w, s, worker, referralId).workers);
    }
  }

  lemma WorkerStepKeepsInv(w: World, s: Store, e: Event)
    requires Inv(w, s) && Enabled(w, s, e) && (e.RewardSent? || e.RewardLost?)
    ensures Inv(w, Step(w, s, e))
  {
    hide Quote, Settle, Enqueue, Bind, RewardBegin, RewardCommit, RewardDisabled, UsageInv, OrderInv, SaleInv, PayoutInv;
    var t := Step(w, s, e);
    assert WorkerOk(w, s.referrals, s.workers[e.worker]);
    WorkersKeepInv(w, s, t.workers);
  }

  lemma QueueStepKeepsInv(w: World, s: Store, e: Event)
    requires Inv(w, s) && Enabled(w, s, e)
    requires e.PayingOut? || e.PayoutSent? || e.JobGivenUp? || e.JobRemoved? || e.WebhookRun?
    ensures Inv(w, Step(w, s, e))
  {
    hide Quote, Settle, Enqueue, Bind, RewardCommit, RewardBegin, UsageInv, OrderInv, SaleInv, ReferralInv;
    QueueKeepsInv(w, s, Step(w, s, e).queue);
  }

  lemma StepKeepsInv(w: World, s: Store, e: Event)
    requires WorldOk(w) && Inv(w, s)
    ensures Inv(w, Step(w, s, e))
  {
    hide Quote, Settle, Enqueue, Bind, Join, Invite, RewardCommit, PayoutRecord, WorldOk, UsageInv, OrderInv, SaleInv;
    if Enabled(w, s, e) {
      match e
      case Quoting(input, now) => QuoteKeepsInv(w, s, input, now);
      case Settling(orderId, txHash) => SettleKeepsInv(w, s, orderId, txHash);
      case Enqueuing(orderId, referralId) => EnqueueKeepsInv(w, s, orderId, referralId);
      case PayoutRecorded(orderId) => PayoutKeepsInv(w, s, orderId, s.queue[PayoutJob(orderId)].txHash);
      case Joining(playerId, wallet) => JoinKeepsInv(w, s, playerId, wallet);
      case Inviting(playerId, code, newId) => InviteKeepsInv(w, s, playerId, code, newId);
      case Binding(playerId, code, root, newId) => BindKeepsInv(w, s, playerId, code, root, newId);
      case RewardCommitted(worker) => RewardKeepsInv(w, s, worker);
      case RewardStarted(worker, referralId) => StartKeepsInv(w, s, worker, referralId);
      case RewardSent(_, _) => WorkerStepKeepsInv(w, s, e);
      case RewardLost(_) => WorkerStepKeepsInv(w, s, e);
      case _ => QueueStepKeepsInv(w, s, e);
    }
  }

  lemma {:induction false} RunKeepsInv(w: World, s: Store, events: seq<Event>)
    requires WorldOk(w) && Inv(w, s)
    ensures Inv(w, Run(w, s, events))
  {
    hide Step, Inv, WorldOk;
    if events != [] {
      RunKeepsInv(w, s, events[..|events| - 1]);
      StepKeepsInv(w, Run(w, s, events[..|events| - 1]), events[|events| - 1]);
    }
  }
}
