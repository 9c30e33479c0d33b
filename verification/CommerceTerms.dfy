/** What the steps of checkout, settlement, payout and referrals read and write in plain terms: conditions, columns,
    amounts and payments, without the functions that define the steps. */
module CommerceTerms {
  import opened Wrappers
  import opened Stellar
  import opened Commerce
  import opened CommerceInvariants
  import opened CommerceTheorems
  import Memo
  import Money
  import P = Promotions

  predicate InCurrency(asset: Asset, currency: Currency, env: Env)
  {
    asset == if currency == XLM then Native else Issued(env.usdCode, env.usdIssuer)
  }

  // ---------------------------------------------------------------- quoting

  function Units(input: QuoteInput): int { if input.quantity == None then 1 else input.quantity.value }

  predicate Coded(input: QuoteInput) { input.promotionCode != None && input.promotionCode != Some("") }

  /** The order is for what is asked: buyer, item, quantity and currency, the item's own unless another is given. */
  predicate IsFor(o: Order, input: QuoteInput, item: Item)
  {
    && o.playerId == input.playerId && o.itemId == input.itemId && o.quantity == Units(input)
    && o.currency == match input.currency { case Some(c) => c case None => item.currency }
  }

  /** An unpaid order for what is asked. */
  predicate IsWaiting(orders: map<string, Order>, id: string, input: QuoteInput, item: Item)
  {
    id in orders && orders[id].status == PENDING && IsFor(orders[id], input, item)
  }

  ghost predicate NoneWaiting(s: Store, input: QuoteInput, item: Item)
  {
    forall id :: id in s.orders ==> !IsWaiting(s.orders, id, input, item)
  }

  /** The last order of those waiting. */
  ghost predicate IsLatest(s: Store, id: string, input: QuoteInput, item: Item)
  {
    && IsWaiting(s.orders, id, input, item)
    && forall j :: j in s.orders && IsWaiting(s.orders, j, input, item) ==> s.orders[j].createdAt <= s.orders[id].createdAt
  }

  /** The counter of a promotion without the use that the order `gone` holds. */
  function Uses(s: Store, gone: Option<string>, p: string): int
    requires p in s.usage && (gone.Some? ==> gone.value in s.orders)
  {
    s.usage[p] - if gone.Some? && s.orders[gone.value].promotionId == Some(p) then 1 else 0
  }

  ghost predicate AreRows(w: World, s: Store, gone: Option<string>, ids: seq<string>, rows: seq<P.Promotion>)
    requires gone.Some? ==> gone.value in s.orders
  {
    && |rows| == |ids|
    && forall i :: 0 <= i < |ids| ==>
         ids[i] in w.promotions && ids[i] in s.usage
         && rows[i] == w.promotions[ids[i]].(usageCount := Uses(s, gone, ids[i]))
  }

  ghost predicate IsPurchase(s: Store, input: QuoteInput, item: Item, now: int, on: P.Purchase)
  {
    && on.itemId == input.itemId && on.quantity == Units(input) && on.unitPrice == item.price && on.now == now
    && on.promotionCode == input.promotionCode
    && (on.playerHasPaidOrder <==> exists id :: id in s.orders && s.orders[id].playerId == input.playerId && s.orders[id].status == PAID)
  }

  /** The new order: the price of the item, the best discount of the candidates, and the rest split between platform
      and studio. */
  ghost predicate IsPriced(w: World, input: QuoteInput, item: Item, rows: seq<P.Promotion>, on: P.Purchase, o: Order)
    requires item.studioId in w.studios
  {
    && IsFor(o, input, item) && o.studioId == item.studioId
    && o.gross == item.price * Units(input)
    && P.IsBest(rows, on, P.Discount(o.discount, o.promotionId))
    && o.fee * 10_000 <= (o.gross - o.discount) * w.studios[item.studioId].feeBps < (o.fee + 1) * 10_000
    && o.net == o.gross - o.discount - o.fee
    && o.referralCodeUsed == input.referralCode && o.status == PENDING && o.txHash.None?
  }

  /** A quote that prices anew, in place of the waiting order `gone` if there is one. */
  ghost predicate PricedAnew(w: World, s: Store, t: Store, out: QuoteOutcome, input: QuoteInput, now: Surroundings,
                             gone: Option<string>, rows: seq<P.Promotion>, on: P.Purchase)
    requires now.item.Some? && now.item.value.studioId in w.studios && (gone.Some? ==> gone.value in s.orders)
  {
    var item := now.item.value;
    var noDiscount := forall i :: 0 <= i < |rows| ==> P.ApplyPromotion(rows[i], on).amount == 0;
    && (if gone.Some? then IsLatest(s, gone.value, input, item) else NoneWaiting(s, input, item))
    && AreRows(w, s, gone, now.candidates, rows) && IsPurchase(s, input, item, now.now, on)
    && (out == QuoteFailed(InvalidPromotionCode) <==> Coded(input) && noDiscount)
    && (out == QuoteFailed(PaymentNotBuilt) <==> !now.built && !(Coded(input) && noDiscount))
    && (now.built && !(Coded(input) && noDiscount) ==>
          && out.Quoted? && out.orderId == now.newId
          && IsPriced(w, input, item, rows, on, out.order) && out.order.createdAt == s.clock
          && t == s.(orders := t.orders, usage := t.usage, clock := s.clock + 1)
          && now.newId in t.orders && t.orders[now.newId] == out.order
          && t.orders - {now.newId} == s.orders - (if gone.Some? then {gone.value} else {}) - {now.newId}
          && t.usage.Keys == s.usage.Keys
          && (forall p :: p in s.usage ==>
                t.usage[p] == Uses(s, gone, p) + if out.order.promotionId == Some(p) then 1 else 0)
          && Asks(out.payment, w.env.receivingAccount, out.order.currency, w.env, out.order.gross - out.order.discount, now.newId))
  }

  /** A quote that offers the latest waiting order again and deletes the others, whose promotion uses return. */
  ghost predicate OfferedAgain(w: World, s: Store, t: Store, out: QuoteOutcome, input: QuoteInput, now: Surroundings)
    requires now.item.Some?
  {
    var item := now.item.value;
    && (out == QuoteFailed(PaymentNotBuilt) <==> !now.built)
    && (now.built ==>
          && out.Quoted? && IsLatest(s, out.orderId, input, item) && out.order == s.orders[out.orderId]
          && t == s.(orders := t.orders, usage := t.usage)
          && (forall j :: j in t.orders <==> j in s.orders && (j == out.orderId || !IsWaiting(s.orders, j, input, item)))
          && (forall j :: j in t.orders ==> t.orders[j] == s.orders[j])
          && t.usage.Keys == s.usage.Keys
          && (forall p :: p in s.usage ==>
                t.usage[p] == s.usage[p] - |set j | j in s.orders && j !in t.orders && s.orders[j].promotionId == Some(p)|)
          && Asks(out.payment, w.env.receivingAccount, out.order.currency, w.env, out.order.gross - out.order.discount, out.orderId))
  }

  predicate Sellable(w: World, input: QuoteInput, item: Item)
  {
    && item.studioId in w.studios && w.studios[item.studioId].isActive && item.isActive && item.isListed
    && (item.stock.Some? ==> Units(input) <= item.stock.value)
  }

  ghost predicate QuotedAs(w: World, s: Store, t: Store, out: QuoteOutcome, input: QuoteInput, now: Surroundings)
  {
    && (out == QuoteFailed(ItemNotFound) <==> now.item.None?)
    && (now.item.Some? ==>
          var item := now.item.value;
          && (out == QuoteFailed(StudioNotFound) <==> item.studioId !in w.studios)
          && (item.studioId in w.studios ==>
                && (out == QuoteFailed(StudioInactive) <==> !w.studios[item.studioId].isActive)
                && (w.studios[item.studioId].isActive ==>
                      && (out == QuoteFailed(ItemUnavailable) <==> !(item.isActive && item.isListed))
                      && (item.isActive && item.isListed ==>
                            (out == QuoteFailed(InsufficientStock) <==> !Sellable(w, input, item)))))
          && (Sellable(w, input, item) ==>
                if !Coded(input) && !NoneWaiting(s, input, item) then OfferedAgain(w, s, t, out, input, now)
                else exists gone: Option<string>, rows, on ::
                  (gone.Some? ==> gone.value in s.orders) && PricedAnew(w, s, t, out, input, now, gone, rows, on)))
    && (out.QuoteFailed? ==> t == s)
  }

  lemma PrecheckTerms(w: World, input: QuoteInput, now: Surroundings)
    ensures Precheck(w, input, now).None? <==> now.item.Some? && Sellable(w, input, now.item.value)
    ensures Precheck(w, input, now).None? ==>
      forall o: Order :: KeyOf(o) == KeyFor(w, input, now) <==> IsFor(o, input, now.item.value)
  {}

  lemma WaitingArePending(w: World, s: Store, input: QuoteInput, now: Surroundings)
    requires Precheck(w, input, now).None?
    ensures var pending := PendingIds(s.orders, KeyFor(w, input, now));
      && (forall id :: id in pending <==> IsWaiting(s.orders, id, input, now.item.value))
      && (pending == {} <==> NoneWaiting(s, input, now.item.value))
      && (pending != {} ==> IsLatest(s, Newest(s.orders, KeyFor(w, input, now)), input, now.item.value))
  {
    PrecheckTerms(w, input, now);
    var pending := PendingIds(s.orders, KeyFor(w, input, now));
    forall id ensures id in pending <==> IsWaiting(s.orders, id, input, now.item.value) {}
    if pending != {} {
      var id :| id in pending;
      assert IsWaiting(s.orders, id, input, now.item.value);
    }
  }

  /** The store the new order is priced on. */
  ghost function Without(s: Store, gone: Option<string>): Store
  {
    if gone.Some? then Drop(s, {gone.value}) else s
  }

  lemma WithoutTerms(s: Store, gone: Option<string>)
    requires gone.Some? ==> gone.value in s.orders
    ensures var t := Without(s, gone);
      && t == s.(orders := t.orders, usage := t.usage)
      && t.orders == s.orders - (if gone.Some? then {gone.value} else {})
      && t.usage.Keys == s.usage.Keys
      && forall p :: p in s.usage ==> t.usage[p] == Uses(s, gone, p)
  {
    if gone.Some? {
      UsageWithoutOne(s.orders, s.usage, gone.value);
    } else {
      assert s.orders - {} == s.orders;
    }
  }

  // The pricing of a quote: its rows, its purchase and its choice.
  lemma PricingTerms(w: World, s: Store, input: QuoteInput, now: Surroundings, gone: Option<string>)
    returns (rows: seq<P.Promotion>, on: P.Purchase)
    requires Precheck(w, input, now).None? && s.usage.Keys == w.promotions.Keys
    requires forall p :: p in now.candidates ==> p in w.promotions
    requires gone.Some? ==> gone.value in s.orders && s.orders[gone.value].status == PENDING
    ensures AreRows(w, s, gone, now.candidates, rows) && IsPurchase(s, input, now.item.value, now.now, on)
    ensures P.IsBest(rows, on, BestFor(w, Without(s, gone), input, now))
    ensures Without(s, gone).usage.Keys == s.usage.Keys
  {
    hide P.Best, P.IsBest, P.ApplyPromotion, UsageWithout;
    var t := Without(s, gone);
    WithoutTerms(s, gone);
    rows := Rows(w, t.usage, now.candidates);
    on := PurchaseOf(input, now.item.value, t.orders, now.now);
    P.BestIsBest(rows, on);
    forall i | 0 <= i < |now.candidates|
      ensures rows[i] == w.promotions[now.candidates[i]].(usageCount := Uses(s, gone, now.candidates[i]))
    {
      assert now.candidates[i] in now.candidates;
    }
    if id :| id in s.orders && s.orders[id].playerId == input.playerId && s.orders[id].status == PAID {
      assert id in t.orders && t.orders[id] == s.orders[id];
    }
  }

  lemma NamedIffDiscount(rows: seq<P.Promotion>, on: P.Purchase, best: P.Discount)
    requires P.IsBest(rows, on, best)
    ensures best.promotionId.None? <==> forall i :: 0 <= i < |rows| ==> P.ApplyPromotion(rows[i], on).amount == 0
  {
    hide P.ApplyPromotion;
    forall i | 0 <= i < |rows|
      ensures var d := P.ApplyPromotion(rows[i], on); 0 <= d.amount && (d.promotionId.Some? <==> d.amount > 0)
    {
      P.NamedIffPositive(rows[i], on);
    }
    if best.amount != 0 {
      var i :| 0 <= i < |rows| && best == P.ApplyPromotion(rows[i], on);
    }
  }

  lemma NewOrderTerms(w: World, input: QuoteInput, item: Item, rows: seq<P.Promotion>, on: P.Purchase, best: P.Discount, clock: int)
    requires item.studioId in w.studios && P.IsBest(rows, on, best)
    ensures var o := NewOrder(w, input, item, best, clock);
      && IsPriced(w, input, item, rows, on, o) && o.createdAt == clock
      && o.promotionId == best.promotionId
  {
    hide P.IsBest, Money.FeeStroops, Money.NetStroops;
    var gross := item.price * input.Quantity();
    Money.FeeBounds(gross - best.amount, w.studios[item.studioId].feeBps);
  }

  // The insertion itself, on a store that differs from `s` by the order `gone`.
  lemma InsertTerms(w: World, s: Store, u: Store, newId: string, o: Order, gone: Option<string>)
    requires gone.Some? ==> gone.value in s.orders
    requires u == s.(orders := u.orders, usage := u.usage)
    requires u.orders == s.orders - (if gone.Some? then {gone.value} else {})
    requires u.usage.Keys == s.usage.Keys && forall p :: p in s.usage ==> u.usage[p] == Uses(s, gone, p)
    ensures var t := Insert(u, newId, o);
      && t == s.(orders := t.orders, usage := t.usage, clock := s.clock + 1)
      && newId in t.orders && t.orders[newId] == o
      && t.orders - {newId} == s.orders - (if gone.Some? then {gone.value} else {}) - {newId}
      && t.usage.Keys == s.usage.Keys
      && (forall p :: p in s.usage ==> t.usage[p] == Uses(s, gone, p) + if o.promotionId == Some(p) then 1 else 0)
  {}

  lemma FreshTerms(w: World, s: Store, input: QuoteInput, now: Surroundings, gone: Option<string>)
    requires s.usage.Keys == w.promotions.Keys && Precheck(w, input, now).None? && now.newId !in s.orders
    requires forall p :: p in now.candidates ==> p in w.promotions
    requires if gone.Some? then IsLatest(s, gone.value, input, now.item.value) else NoneWaiting(s, input, now.item.value)
    ensures Without(s, gone).usage.Keys == s.usage.Keys
    ensures gone.Some? ==> gone.value in s.orders
    ensures var (t, out) := QuoteFresh(w, s, Without(s, gone), input, now);
      && (out.QuoteFailed? ==> t == s && (out.error == InvalidPromotionCode || out.error == PaymentNotBuilt))
      && exists rows, on :: PricedAnew(w, s, t, out, input, now, gone, rows, on)
  {
    hide P.Best, P.IsBest, P.ApplyPromotion, Asks, Drop, IsPriced, IsPurchase, AreRows, BestFor, NewOrder, Without;
    hide PaymentOf, AssetOf, IsLatest, NoneWaiting, Insert, IsWaiting, Uses;
    PrecheckTerms(w, input, now);
    hide Precheck;
    LatestWaits(s, gone, input, now.item.value);
    var rows, on := PricingTerms(w, s, input, now, gone);
    WithoutTerms(s, gone);
    var u := Without(s, gone);
    var best := BestFor(w, u, input, now);
    NamedIffDiscount(rows, on, best);
    NewOrderTerms(w, input, now.item.value, rows, on, best, s.clock);
    var o := NewOrder(w, input, now.item.value, best, s.clock);
    OfferAsks(w.env.receivingAccount, o.currency, w.env, o.gross - o.discount, now.newId);
    InsertTerms(w, s, u, now.newId, o, gone);
    var (t, out) := QuoteFresh(w, s, u, input, now);
    assert PricedAnew(w, s, t, out, input, now, gone, rows, on);
  }

  /** A new order on a store from which a replaced one is already gone. */
  ghost predicate InsertedAs(w: World, s: Store, t: Store, out: QuoteOutcome, input: QuoteInput, now: Surroundings)
    requires now.item.Some? && now.item.value.studioId in w.studios
  {
    && (out.QuoteFailed? ==> t == s && (out.error == InvalidPromotionCode || out.error == PaymentNotBuilt))
    && exists rows, on ::
         && AreRows(w, s, None, now.candidates, rows) && IsPurchase(s, input, now.item.value, now.now, on)
         && (out == QuoteFailed(InvalidPromotionCode) <==>
               Coded(input) && forall i :: 0 <= i < |rows| ==> P.ApplyPromotion(rows[i], on).amount == 0)
         && (out == QuoteFailed(PaymentNotBuilt) ==> !now.built)
         && (out.Quoted? ==>
               && now.built && out.orderId == now.newId && IsPriced(w, input, now.item.value, rows, on, out.order)
               && t.orders == s.orders[now.newId := out.order] && t.usage.Keys == s.usage.Keys
               && (forall p :: p in s.usage ==> t.usage[p] == s.usage[p] + if out.order.promotionId == Some(p) then 1 else 0)
               && Asks(out.payment, w.env.receivingAccount, out.order.currency, w.env,
                       out.order.gross - out.order.discount, now.newId))
  }

  lemma InsertOrderTerms(w: World, s: Store, input: QuoteInput, now: Surroundings)
    requires s.usage.Keys == w.promotions.Keys && Precheck(w, input, now).None?
    requires forall p :: p in now.candidates ==> p in w.promotions
    ensures var (t, out) := QuoteFresh(w, s, s, input, now); InsertedAs(w, s, t, out, input, now)
  {
    hide P.Best, P.IsBest, P.ApplyPromotion, Asks, IsPriced, IsPurchase, AreRows, BestFor, NewOrder, PaymentOf, AssetOf;
    var rows, on := PricingTerms(w, s, input, now, None);
    var best := BestFor(w, s, input, now);
    NamedIffDiscount(rows, on, best);
    NewOrderTerms(w, input, now.item.value, rows, on, best, s.clock);
    var o := NewOrder(w, input, now.item.value, best, s.clock);
    OfferAsks(w.env.receivingAccount, o.currency, w.env, o.gross - o.discount, now.newId);
    assert AreRows(w, s, None, now.candidates, rows) && IsPurchase(s, input, now.item.value, now.now, on);
  }

  lemma LatestWaits(s: Store, gone: Option<string>, input: QuoteInput, item: Item)
    requires gone.Some? ==> IsLatest(s, gone.value, input, item)
    ensures gone.Some? ==> gone.value in s.orders && s.orders[gone.value].status == PENDING
  {}

  lemma AgainTerms(w: World, s: Store, input: QuoteInput, now: Surroundings)
    requires s.usage.Keys == w.promotions.Keys && ValidQuote(w, s, input, now)
    requires Precheck(w, input, now).None? && !Coded(input) && !NoneWaiting(s, input, now.item.value)
    ensures var (t, out) := Quote(w, s, input, now);
      && (out.QuoteFailed? ==> t == s && out.error == PaymentNotBuilt)
      && OfferedAgain(w, s, t, out, input, now)
  {
    hide Asks, PaymentOf, AssetOf, QuoteFresh, NoneWaiting, IsLatest, IsWaiting, AnswersCandidateQuery, Precheck, UsageWithout;
    WaitingArePending(w, s, input, now);
    var pending := PendingIds(s.orders, KeyFor(w, input, now));
    var newest := Newest(s.orders, KeyFor(w, input, now));
    var o := s.orders[newest];
    OfferAsks(w.env.receivingAccount, o.currency, w.env, o.gross - o.discount, newest);
    var (t, out) := Quote(w, s, input, now);
    if now.built {
      DropTerms(s, pending - {newest});
    }
  }

  lemma DropTerms(s: Store, ids: set<string>)
    ensures var t := Drop(s, ids);
      && t == s.(orders := t.orders, usage := t.usage) && t.usage.Keys == s.usage.Keys
      && (forall j :: j in t.orders <==> j in s.orders && j !in ids)
      && (forall j :: j in t.orders ==> t.orders[j] == s.orders[j])
      && forall p :: p in s.usage ==>
           t.usage[p] == s.usage[p] - |set j | j in s.orders && j !in t.orders && s.orders[j].promotionId == Some(p)|
  {
    var t := Drop(s, ids);
    forall p | p in s.usage
      ensures t.usage[p] == s.usage[p] - |set j | j in s.orders && j !in t.orders && s.orders[j].promotionId == Some(p)|
    {
      assert Named(s.orders, p) * ids == set j | j in s.orders && j !in t.orders && s.orders[j].promotionId == Some(p);
    }
  }

  /** What every quote does, whatever is stored and asked. */
  lemma QuoteTerms(w: World, s: Store, input: QuoteInput, now: Surroundings)
    requires s.usage.Keys == w.promotions.Keys && ValidQuote(w, s, input, now)
    ensures QuotedAs(w, s, Quote(w, s, input, now).0, Quote(w, s, input, now).1, input, now)
  {
    hide QuoteFresh, PricedAnew, OfferedAgain, IsLatest, NoneWaiting, IsWaiting, UsageWithout, Newest;
    PrecheckTerms(w, input, now);
    if Precheck(w, input, now).None? {
      WaitingArePending(w, s, input, now);
      if PendingIds(s.orders, KeyFor(w, input, now)) == {} {
        FreshTerms(w, s, input, now, None);
      } else if Coded(input) {
        LatestWaits(s, Some(Newest(s.orders, KeyFor(w, input, now))), input, now.item.value);
        FreshTerms(w, s, input, now, Some(Newest(s.orders, KeyFor(w, input, now))));
      } else {
        AgainTerms(w, s, input, now);
      }
    }
  }

  /** A fresh quote takes off the most that any promotion of the item's studio gives, whether the candidate query listed
      it or not, and names one of that studio's. */
  lemma BestOfStudio(w: World, s: Store, t: Store, out: QuoteOutcome, input: QuoteInput, now: Surroundings,
                     gone: Option<string>, rows: seq<P.Promotion>, on: P.Purchase, p: string)
    requires WorldOk(w) && s.usage.Keys == w.promotions.Keys && ValidQuote(w, s, input, now)
    requires now.item.Some? && Sellable(w, input, now.item.value)
    requires (gone.Some? ==> gone.value in s.orders) && PricedAnew(w, s, t, out, input, now, gone, rows, on) && out.Quoted?
    requires p in w.promotions
    ensures w.promotions[p].studioId == now.item.value.studioId ==>
      P.ApplyPromotion(w.promotions[p].(usageCount := Uses(s, gone, p)), on).amount <= out.order.discount
    ensures out.order.promotionId == Some(p) ==>
      w.promotions[p].studioId == now.item.value.studioId
      && out.order.discount == P.ApplyPromotion(w.promotions[p].(usageCount := Uses(s, gone, p)), on).amount
  {
    hide P.ApplyPromotion, Asks, P.IsOpen, P.TermsAllow;
    PrecheckTerms(w, input, now);
    var item, row := now.item.value, w.promotions[p].(usageCount := Uses(s, gone, p));
    if IsCandidate(w.promotions[p], item, input.itemId) {
      assert p in now.candidates;
      var i :| 0 <= i < |now.candidates| && now.candidates[i] == p;
      assert rows[i] == row;
    } else if w.promotions[p].studioId == item.studioId {
      ClosedGivesNothing(row, on);
    }
    if out.order.promotionId == Some(p) {
      var best := P.Discount(out.order.discount, out.order.promotionId);
      var i :| 0 <= i < |rows| && best == P.ApplyPromotion(rows[i], on);
      P.DiscountMeaning(rows[i], on, 0);
      assert now.candidates[i] in now.candidates;
    }
  }

  lemma ClosedGivesNothing(row: P.Promotion, on: P.Purchase)
    requires !row.isActive || !(row.appliesToItemIds == [] || on.itemId in row.appliesToItemIds)
    ensures P.ApplyPromotion(row, on).amount == 0
  {
    P.DiscountMeaning(row, on, 0);
  }

  // ---------------------------------------------------------------- settling

  ghost predicate HasPaid(s: Store, playerId: string)
  {
    exists id :: id in s.orders && s.orders[id].playerId == playerId && s.orders[id].status == PAID
  }

  predicate IsInvited(s: Store, r: string, playerId: string)
  {
    r in s.referrals && s.referrals[r].refereeId == Some(playerId) && s.referrals[r].status == INVITED
  }

  /** The ledger has one more entry. */
  predicate Records(a: seq<Entry>, b: seq<Entry>, kind: EntryType, subject: string, txHash: string, source: string,
                    dest: string, amount: int)
  {
    && |b| == |a| + 1 && b[..|a|] == a
    && var e := b[|a|];
    && e.kind == kind && e.subject == subject && e.txHash == txHash
    && e.source == source && e.dest == dest && e.amount == amount
  }

  /** A call settles an order exactly if it is stored and not paid, the transaction pays what is due to the platform in
      the order's currency under its memo, and no other order has used it. It then records the sale at its gross amount
      and qualifies the buyer's invitation on the buyer's first paid order. */
  ghost predicate SettledAs(w: World, s: Store, t: Store, out: Settlement, orderId: string, txHash: string)
  {
    && (orderId !in s.orders ==> out == SettleThrew)
    && (out.Already? <==> orderId in s.orders && s.orders[orderId].status == PAID)
    && (out.Settled? <==>
          && orderId in s.orders && s.orders[orderId].status != PAID
          && Pays(w.horizon, txHash, orderId, w.env.receivingAccount, s.orders[orderId].currency, w.env,
                  s.orders[orderId].gross - s.orders[orderId].discount)
          && forall u :: u in s.orders && s.orders[u].txHash == Some(txHash) ==> u == orderId)
    && (!out.Settled? ==> t == s)
    && (out.Settled? ==>
          var o := s.orders[orderId];
          && out.orderId == orderId
          && t == s.(orders := t.orders, ledger := t.ledger, referrals := t.referrals)
          && t.orders == s.orders[orderId := o.(status := PAID, txHash := Some(txHash))]
          && Records(s.ledger, t.ledger, SALE_IN, orderId, txHash, "", w.env.receivingAccount, o.gross)
          && InCurrency(t.ledger[|s.ledger|].asset, o.currency, w.env)
          && (out.referralId.Some? <==> !HasPaid(s, o.playerId) && exists r :: r in s.referrals && IsInvited(s, r, o.playerId))
          && match out.referralId
             case None => t.referrals == s.referrals
             case Some(r) =>
               && IsInvited(s, r, o.playerId)
               && t.referrals == s.referrals[r := s.referrals[r].(
                    status := QUALIFIED, qualifyingOrderId := Some(orderId), studioId := Some(o.studioId))])
  }

  lemma UsersTerms(orders: map<string, Order>, orderId: string, txHash: string)
    ensures UsersOf(orders, txHash) - {orderId} == {}
      <==> forall u :: u in orders && orders[u].txHash == Some(txHash) ==> u == orderId
  {
    if UsersOf(orders, txHash) - {orderId} == {} {
      forall u | u in orders && orders[u].txHash == Some(txHash) ensures u == orderId {
        assert u in UsersOf(orders, txHash) && u !in UsersOf(orders, txHash) - {orderId};
      }
    }
  }

  lemma QualifyingTerms(s: Store, orderId: string)
    requires orderId in s.orders && s.orders[orderId].status != PAID
    ensures var player := s.orders[orderId].playerId;
      match QualifyingReferral(s, orderId)
      case None => HasPaid(s, player) || !exists r :: r in s.referrals && IsInvited(s, r, player)
      case Some(r) => !HasPaid(s, player) && IsInvited(s, r, player)
  {
    var player := s.orders[orderId].playerId;
    if r :| r in s.referrals && IsInvited(s, r, player) { assert r in OpenReferrals(s.referrals, player); }
  }

  lemma SettleTerms(w: World, s: Store, orderId: string, txHash: string)
    ensures var (t, out) := Settle(w, s, orderId, txHash); SettledAs(w, s, t, out, orderId, txHash)
  {
    hide VerifyPayment, Pays, QualifyingReferral, HasPaid, IsInvited;
    if orderId in s.orders && s.orders[orderId].status != PAID {
      var o := s.orders[orderId];
      AcceptedPays(w.horizon, txHash, orderId, w.env.receivingAccount, o.currency, w.env, o.gross - o.discount);
      VerifiedAsset(w.horizon, txHash, Demand(w, orderId, o));
      UsersTerms(s.orders, orderId, txHash);
      QualifyingTerms(s, orderId);
    }
  }

  lemma VerifiedAsset(horizon: Horizon, txHash: string, want: Expectation)
    ensures var r := VerifyPayment(horizon, txHash, want); r.Verified? ==> r.asset == want.asset
  {}

  /** After a settlement, or when the order was paid before: a payout job unless a payout is recorded, a delivery job
      unless one was delivered, a reward job for the referral that just qualified, and each only if its id is free. */
  ghost predicate JobsAdded(s: Store, t: Store, orderId: string, qualified: Option<string>)
  {
    && t == s.(queue := t.queue)
    && (forall job :: job in s.queue ==> job in t.queue && t.queue[job] == s.queue[job])
    && (forall job :: job in t.queue && job !in s.queue ==>
          && t.queue[job] == Waiting
          && (job == PayoutJob(orderId) || job == WebhookJob(orderId) || (qualified.Some? && job == RewardJob(qualified.value))))
    && (PayoutJob(orderId) in t.queue <==>
          PayoutJob(orderId) in s.queue || forall e :: e in s.ledger ==> !(e.kind == PAYOUT_OUT && e.subject == orderId))
    && (WebhookJob(orderId) in t.queue <==> WebhookJob(orderId) in s.queue || orderId !in s.deliveries)
    && (qualified.Some? ==> RewardJob(qualified.value) in t.queue)
  }

  lemma {:induction false} CountTerms(ledger: seq<Entry>, kind: EntryType, subject: string)
    ensures EntryCount(ledger, kind, subject) > 0 <==> exists e :: e in ledger && e.kind == kind && e.subject == subject
  {
    if ledger != [] {
      var before, last := ledger[..|ledger| - 1], ledger[|ledger| - 1];
      assert ledger == before + [last];
      CountTerms(before, kind, subject);
    }
  }

  lemma EnqueueTerms(s: Store, orderId: string, qualified: Option<string>)
    ensures JobsAdded(s, Enqueue(s, orderId, qualified), orderId, qualified)
  {
    CountTerms(s.ledger, PAYOUT_OUT, orderId);
    hide EntryCount;
  }

  /** One call of `verifyAndAdvanceOrder`. */
  ghost predicate AdvancedAs(w: World, s: Store, t: Store, out: Settlement, orderId: string, txHash: string)
  {
    var u := t.(queue := s.queue);
    && SettledAs(w, s, u, out, orderId, txHash)
    && (out.Settled? ==> JobsAdded(u, t, orderId, out.referralId))
    && (out.Already? ==> JobsAdded(s, t, orderId, None))
    && (!out.Settled? && !out.Already? ==> t == s)
  }

  lemma AdvanceTerms(w: World, s: Store, orderId: string, txHash: string)
    ensures var (t, out) := Advance(w, s, orderId, txHash); AdvancedAs(w, s, t, out, orderId, txHash)
  {
    hide SettledAs, JobsAdded, Enqueue, Settle;
    SettleTerms(w, s, orderId, txHash);
    var (u, out) := Settle(w, s, orderId, txHash);
    SettledKeepsQueue(w, s, u, out, orderId, txHash);
    EnqueueTerms(u, orderId, if out.Settled? then out.referralId else None);
    EnqueueOnly(u, orderId, if out.Settled? then out.referralId else None);
  }

  lemma SettledKeepsQueue(w: World, s: Store, t: Store, out: Settlement, orderId: string, txHash: string)
    requires SettledAs(w, s, t, out, orderId, txHash)
    ensures t.queue == s.queue && (!out.Settled? ==> t == s)
  {}

  lemma EnqueueOnly(s: Store, orderId: string, qualified: Option<string>)
    ensures Enqueue(s, orderId, qualified) == s.(queue := Enqueue(s, orderId, qualified).queue)
  {
    hide EntryCount;
  }

  // ---------------------------------------------------------------- payout

  /** A payment left the account. */
  predicate Sends(a: seq<Transfer>, b: seq<Transfer>, kind: EntryType, subject: string, dest: string, amount: int, memo: string)
  {
    && |b| == |a| + 1 && b[..|a|] == a
    && var x := b[|a|];
    && x.kind == kind && x.subject == subject && x.dest == dest && x.amount == amount && x.memo == Memo.Truncated(memo)
  }

  /** The payout job pays and records the studio's share exactly if the order is paid and its studio has a wallet. */
  ghost predicate PaidOutAs(w: World, s: Store, t: Store, paid: Option<string>, orderId: string, txHash: string)
  {
    var due := orderId in s.orders && s.orders[orderId].status == PAID && s.orders[orderId].studioId in w.studios
               && w.studios[s.orders[orderId].studioId].payoutWallet != None
               && w.studios[s.orders[orderId].studioId].payoutWallet != Some("");
    && paid == (if due then Some(txHash) else None)
    && t == s.(queue := s.queue[PayoutJob(orderId) := Finished], sent := t.sent, ledger := t.ledger)
    && (!due ==> t.sent == s.sent && t.ledger == s.ledger)
    && (due ==>
          var o := s.orders[orderId]; var wallet := w.studios[o.studioId].payoutWallet.value;
          && Sends(s.sent, t.sent, PAYOUT_OUT, orderId, wallet, o.net, "payout:" + orderId)
          && InCurrency(t.sent[|s.sent|].asset, o.currency, w.env)
          && Records(s.ledger, t.ledger, PAYOUT_OUT, orderId, txHash, w.env.receivingAccount, wallet, o.net)
          && InCurrency(t.ledger[|s.ledger|].asset, o.currency, w.env))
  }

  /** A whole payout job without interruption. */
  function PayoutRun(w: World, s: Store, orderId: string, txHash: string): Store
  {
    var began := PayoutBegin(w, s, orderId);
    if PayoutWallet(w, s, orderId).None? then began
    else PayoutRecord(w, PayoutSend(w, began, orderId, txHash), orderId, txHash)
  }

  lemma PayoutTerms(w: World, s: Store, orderId: string, txHash: string)
    ensures PaidOutAs(w, s, PayoutRun(w, s, orderId, txHash),
                      if PayoutWallet(w, s, orderId).None? then None else Some(txHash), orderId, txHash)
  {
    hide Memo.Truncated;
  }

  // ---------------------------------------------------------------- referrals

  /** A player is bound to the owner of an invite code, once, and never to themselves. */
  ghost predicate BoundAs(s: Store, t: Store, out: BindOutcome, playerId: string, code: string, root: Option<string>, newId: string)
  {
    && (out == InvalidCode <==> !exists r :: r in s.referrals && s.referrals[r].code == code && s.referrals[r].refereeId.None?)
    && (out != Bound ==> t == s)
    && (out != InvalidCode ==>
          && root.Some? && root.value in s.referrals
          && var row := s.referrals[root.value];
          var bound := playerId in s.players && s.players[playerId].referredBy.Some?;
          var given := code + "-" + if |playerId| <= 8 then playerId else playerId[..8];
          && row.code == code && row.refereeId.None?
          && (out == SelfReferral <==> row.referrerId == playerId)
          && (out == AlreadyBound <==> row.referrerId != playerId && bound)
          && (out == Bound <==>
                && row.referrerId != playerId && !bound && playerId in s.players
                && forall r :: r in s.referrals ==> s.referrals[r].code != given)
          && (out == Bound ==>
                && t == s.(players := t.players, referrals := t.referrals)
                && t.players == s.players[playerId := s.players[playerId].(referredBy := Some(row.referrerId))]
                && t.referrals == s.referrals[newId :=
                     Referral(given, row.referrerId, Some(playerId), INVITED, None, None, None, None, None)]))
  }

  lemma BindTerms(s: Store, playerId: string, code: string, root: Option<string>, newId: string)
    requires AnswersRootQuery(s, code, root)
    ensures var (t, out) := Bind(s, playerId, code, root, newId); BoundAs(s, t, out, playerId, code, root, newId)
  {
    if r :| r in s.referrals && s.referrals[r].code == code && s.referrals[r].refereeId.None? {
      assert r in RootReferrals(s.referrals, code);
    }
  }

  /** What a referral earns: the amount of the studio where it qualified if that studio set one, else the platform's. */
  predicate Earns(w: World, r: Referral, amount: int)
  {
    if r.studioId.Some? && r.studioId.value in w.studios && w.studios[r.studioId.value].rewardAmount.Some?
    then w.studios[r.studioId.value].rewardAmount == Some(amount)
    else amount == w.defaultReward
  }

  /** In which currency: the studio's, else the platform's, else that of the qualifying order, else lumens. */
  predicate EarnsIn(w: World, orders: map<string, Order>, r: Referral, currency: Currency)
  {
    var studioId, orderId := r.studioId, r.qualifyingOrderId;
    if studioId.Some? && studioId.value in w.studios && w.studios[studioId.value].rewardCurrency.Some?
    then w.studios[studioId.value].rewardCurrency == Some(currency)
    else if w.defaultRewardCurrency.Some? then w.defaultRewardCurrency == Some(currency)
    else if orderId.Some? && orderId.value in orders then orders[orderId.value].currency == currency
    else currency == XLM
  }

  /** The reward job skips a referral that is not qualified or whose referrer is unknown, closes it without a payment if
      its studio set the reward to zero, and otherwise pays the referrer and records the payment. */
  ghost predicate RewardedAs(w: World, s: Store, t: Store, paid: Option<string>, referralId: string, txHash: string)
  {
    var due := referralId in s.referrals && s.referrals[referralId].status == QUALIFIED
               && s.referrals[referralId].referrerId in s.players;
    var disabled := due && s.referrals[referralId].studioId.Some? && s.referrals[referralId].studioId.value in w.studios
                    && w.studios[s.referrals[referralId].studioId.value].rewardAmount == Some(0);
    && paid == (if due && !disabled then Some(txHash) else None)
    && t == s.(referrals := t.referrals, sent := t.sent, ledger := t.ledger)
    && (paid.None? ==> t.sent == s.sent && t.ledger == s.ledger)
    && (!due ==> t.referrals == s.referrals)
    && (disabled ==> t.referrals == s.referrals[referralId :=
          s.referrals[referralId].(status := REWARDED, rewardAmount := Some(0))])
    && (paid.Some? ==>
          var r := s.referrals[referralId]; var dest := s.players[r.referrerId].wallet;
          exists amount, currency ::
            && Earns(w, r, amount) && EarnsIn(w, s.orders, r, currency)
            && t.referrals == s.referrals[referralId := r.(
                 status := REWARDED, rewardAmount := Some(amount), rewardCurrency := Some(currency), rewardTxHash := Some(txHash))]
            && Sends(s.sent, t.sent, REFERRAL_REWARD, referralId, dest, amount,
                     "ref:" + if |referralId| <= 20 then referralId else referralId[..20])
            && InCurrency(t.sent[|s.sent|].asset, currency, w.env)
            && Records(s.ledger, t.ledger, REFERRAL_REWARD, referralId, txHash, w.env.receivingAccount, dest, amount)
            && t.ledger[|s.ledger|].asset == if currency == XLM then Native else Issued("USDT", w.env.usdIssuer))
  }

  /** A whole reward job without interruption. */
  function RewardRun(w: World, s: Store, worker: nat, referralId: string, txHash: string): Store
    requires worker !in s.workers
  {
    var plan, began := RewardPlan(w, s, referralId), RewardBegin(w, s, worker, referralId);
    if plan.None? then s
    else if plan.value.Waiving? then RewardCommit(w, began, worker)
    else RewardCommit(w, RewardSend(w, began, worker, txHash), worker)
  }

  lemma RewardTerms(w: World, s: Store, worker: nat, referralId: string, txHash: string)
    requires worker !in s.workers
    ensures var plan := RewardPlan(w, s, referralId);
      RewardedAs(w, s, RewardRun(w, s, worker, referralId, txHash),
                 if plan.Some? && plan.value.Paying? then Some(txHash) else None, referralId, txHash)
  {
    hide RewardSend, RewardCommit, RewardAmount, RewardCurrency, Earns, EarnsIn, Sends, Records;
    var plan := RewardPlan(w, s, referralId);
    if plan.Some? && plan.value.Paying? {
      EarningTerms(w, s.orders, s.referrals[referralId]);
      PaidRewardTerms(w, s, worker, referralId, plan.value.amount, plan.value.currency, plan.value.dest, txHash);
    } else if plan.Some? {
      WaivedTerms(w, s, worker, referralId);
    }
  }

  lemma WaivedTerms(w: World, s: Store, worker: nat, r: string)
    requires worker !in s.workers && r in s.referrals
    ensures RewardCommit(w, s.(workers := s.workers[worker := Waiving(r)]), worker)
         == s.(referrals := s.referrals[r := s.referrals[r].(status := REWARDED, rewardAmount := Some(0))])
  {
    assert s.workers[worker := Waiving(r)] - {worker} == s.workers;
  }

  lemma PaidRewardTerms(w: World, s: Store, worker: nat, r: string, amount: int, currency: Currency, dest: string, txHash: string)
    requires worker !in s.workers && r in s.referrals && s.referrals[r].status == QUALIFIED
    ensures var began := s.(workers := s.workers[worker := Rewarding.Paying(r, amount, currency, dest)]);
      var t := RewardCommit(w, RewardSend(w, began, worker, txHash), worker);
      && t == s.(referrals := t.referrals, sent := t.sent, ledger := t.ledger)
      && t.referrals == s.referrals[r := s.referrals[r].(
           status := REWARDED, rewardAmount := Some(amount), rewardCurrency := Some(currency), rewardTxHash := Some(txHash))]
      && Sends(s.sent, t.sent, REFERRAL_REWARD, r, dest, amount, "ref:" + if |r| <= 20 then r else r[..20])
      && InCurrency(t.sent[|s.sent|].asset, currency, w.env)
      && Records(s.ledger, t.ledger, REFERRAL_REWARD, r, txHash, w.env.receivingAccount, dest, amount)
      && t.ledger[|s.ledger|].asset == if currency == XLM then Native else Issued("USDT", w.env.usdIssuer)
  {
    hide Memo.Truncated;
    var began := s.(workers := s.workers[worker := Rewarding.Paying(r, amount, currency, dest)]);
    var sent := RewardSend(w, began, worker, txHash);
    assert sent.workers - {worker} == s.workers;
  }

  lemma EarningTerms(w: World, orders: map<string, Order>, r: Referral)
    ensures Earns(w, r, RewardAmount(w, r)) && EarnsIn(w, orders, r, RewardCurrency(w, orders, r))
  {}

  // ---------------------------------------------------------------- over every run

  /** In every reachable state a paid order has a transaction of its own that paid what was due to the platform. */
  lemma PaidInEveryRun(w: World, s: Store, events: seq<Event>, id: string)
    requires WorldOk(w) && Init(w, s) && id in Run(w, s, events).orders && Run(w, s, events).orders[id].status == PAID
    ensures var orders := Run(w, s, events).orders; var o := orders[id];
      && o.txHash.Some?
      && Pays(w.horizon, o.txHash.value, id, w.env.receivingAccount, o.currency, w.env, o.gross - o.discount)
      && forall u :: u in orders && orders[u].txHash == o.txHash ==> u == id
  {
    hide Run, Init, VerifyPayment, Pays, UsageInv, SaleInv, PayoutInv, ReferralInv;
    InitHasInv(w, s);
    RunKeepsInv(w, s, events);
    var o := Run(w, s, events).orders[id];
    assert PaymentOk(w, id, o);
    AcceptedPays(w.horizon, o.txHash.value, id, w.env.receivingAccount, o.currency, w.env, o.gross - o.discount);
  }

  /** The order's amounts: what is due is split by its studio's rate. */
  predicate IsShared(w: World, o: Order)
  {
    && o.studioId in w.studios
    && o.fee * 10_000 <= (o.gross - o.discount) * w.studios[o.studioId].feeBps < (o.fee + 1) * 10_000
    && o.net == o.gross - o.discount - o.fee
  }

  ghost predicate AllShared(w: World, orders: map<string, Order>) { forall id :: id in orders ==> IsShared(w, orders[id]) }

  lemma QuoteShares(w: World, s: Store, input: QuoteInput, now: Surroundings)
    requires s.usage.Keys == w.promotions.Keys && ValidQuote(w, s, input, now) && AllShared(w, s.orders)
    ensures AllShared(w, Quote(w, s, input, now).0.orders)
  {
    hide Quote, Asks, P.IsBest, P.ApplyPromotion, AreRows, IsPurchase, IsLatest, NoneWaiting, IsFor, ValidQuote;
    QuoteTerms(w, s, input, now);
    QuoteMeets(w, s, input, now);
    var (t, out) := Quote(w, s, input, now);
    if out.Quoted? && (Coded(input) || NoneWaiting(s, input, now.item.value)) {
      var gone: Option<string>, rows, on :|
        (gone.Some? ==> gone.value in s.orders) && PricedAnew(w, s, t, out, input, now, gone, rows, on);
      NewRowOnly(w, s, t, out, input, now, gone, rows, on);
    }
  }

  // Only sellable items are quoted.
  lemma QuoteMeets(w: World, s: Store, input: QuoteInput, now: Surroundings)
    requires s.usage.Keys == w.promotions.Keys && ValidQuote(w, s, input, now)
    ensures Quote(w, s, input, now).1.Quoted? ==> now.item.Some? && Sellable(w, input, now.item.value)
  {
    hide QuoteFresh, Newest, Drop;
    PrecheckTerms(w, input, now);
  }

  lemma NewRowOnly(w: World, s: Store, t: Store, out: QuoteOutcome, input: QuoteInput, now: Surroundings,
                   gone: Option<string>, rows: seq<P.Promotion>, on: P.Purchase)
    requires AllShared(w, s.orders) && now.item.Some? && now.item.value.studioId in w.studios
    requires (gone.Some? ==> gone.value in s.orders) && PricedAnew(w, s, t, out, input, now, gone, rows, on) && out.Quoted?
    ensures AllShared(w, t.orders)
  {
    hide Asks, P.IsBest, P.ApplyPromotion, AreRows, IsPurchase, IsLatest, NoneWaiting, IsFor, Uses;
    forall id | id in t.orders ensures IsShared(w, t.orders[id]) {
      if id != now.newId {
        assert id in t.orders - {now.newId} && (t.orders - {now.newId})[id] == t.orders[id];
      }
    }
  }

  lemma SettleShares(w: World, s: Store, orderId: string, txHash: string)
    requires AllShared(w, s.orders)
    ensures AllShared(w, Settle(w, s, orderId, txHash).0.orders)
  {
    hide Settle, Pays, HasPaid, IsInvited, Records;
    SettleTerms(w, s, orderId, txHash);
  }

  lemma {:induction false} RunShares(w: World, s: Store, events: seq<Event>)
    requires AllShared(w, s.orders)
    ensures AllShared(w, Run(w, s, events).orders)
  {
    hide AllShared, Quote, Settle, RewardCommit, Enqueue, Bind, Invite, RewardBegin, RewardSend, PayoutBegin, PayoutSend, PayoutRecord;
    if events != [] {
      var t, e := Run(w, s, events[..|events| - 1]), events[|events| - 1];
      RunShares(w, s, events[..|events| - 1]);
      if Enabled(w, t, e) {
        match e
        case Quoting(input, now) => QuoteShares(w, t, input, now);
        case Settling(orderId, txHash) => SettleShares(w, t, orderId, txHash);
        case RewardCommitted(worker) => CommitGrows(w, t, worker);
        case _ => OtherStepsGrow(w, t, e);
      }
    }
  }

  /** In every reachable state the platform's fee on an order is its share, in basis points of the order's studio, of
      the price less the discount, cut to whole stroops, and the studio's part is the rest. */
  lemma SharesInEveryRun(w: World, s: Store, events: seq<Event>, id: string)
    requires WorldOk(w) && Init(w, s) && id in Run(w, s, events).orders
    ensures var o := Run(w, s, events).orders[id];
      && o.studioId in w.studios
      && o.fee * 10_000 <= (o.gross - o.discount) * w.studios[o.studioId].feeBps < (o.fee + 1) * 10_000
      && o.net == o.gross - o.discount - o.fee
  {
    hide Run;
    RunShares(w, s, events);
  }

  /** Wallets never change, and who referred a player is fixed once it is set. */
  ghost predicate PlayersKept(a: map<string, Player>, b: map<string, Player>)
  {
    forall p :: p in a ==>
      p in b && b[p].wallet == a[p].wallet && (a[p].referredBy.Some? ==> b[p].referredBy == a[p].referredBy)
  }

  predicate IsReferred(players: map<string, Player>, p: string) { p in players && players[p].referredBy.Some? }

  lemma OtherStepsLeavePlayers(w: World, s: Store, e: Event)
    requires Enabled(w, s, e) && !e.Joining? && !e.Binding? && !e.Quoting? && !e.Settling? && !e.RewardCommitted?
    ensures Step(w, s, e).players == s.players
  {
    hide RewardPlan, PayoutWallet, Bind, Quote, Settle, RewardCommit, EntryCount, PayoutEntry, PayoutTransfer, RewardTransfer, AssetOf;
  }

  lemma SettleLeavesPlayers(w: World, s: Store, orderId: string, txHash: string)
    ensures Settle(w, s, orderId, txHash).0.players == s.players
  {
    hide VerifyPayment, QualifyingReferral;
  }

  lemma CommitLeavesPlayers(w: World, s: Store, worker: nat)
    requires worker in s.workers && !s.workers[worker].Paying? && s.workers[worker].referralId in s.referrals
    ensures RewardCommit(w, s, worker).players == s.players
  {}

  lemma BindKeepsPlayers(s: Store, playerId: string, code: string, root: Option<string>, newId: string)
    requires AnswersRootQuery(s, code, root)
    ensures var t := Bind(s, playerId, code, root, newId).0; PlayersKept(s.players, t.players) && t.players.Keys == s.players.Keys
    ensures forall p :: p != playerId && p in s.players ==> Bind(s, playerId, code, root, newId).0.players[p] == s.players[p]
  {}

  lemma StepKeepsPlayers(w: World, s: Store, e: Event)
    ensures var t := Step(w, s, e);
      && PlayersKept(s.players, t.players)
      && (forall p :: p in t.players && p !in s.players ==> e == Joining(p, t.players[p].wallet))
      && forall p :: IsReferred(t.players, p) && !IsReferred(s.players, p) ==> e.Binding? && e.playerId == p
  {
    hide Quote, Settle, Bind, RewardCommit, Enqueue, Invite, RewardBegin, RewardSend, PayoutBegin, PayoutSend, PayoutRecord;
    if Enabled(w, s, e) {
      match e
      case Joining(_, _) =>
      case Binding(playerId, code, root, newId) => BindKeepsPlayers(s, playerId, code, root, newId);
      case Quoting(input, now) => QuoteLeavesRest(w, s, input, now);
      case Settling(orderId, txHash) => SettleLeavesPlayers(w, s, orderId, txHash);
      case RewardCommitted(worker) => CommitLeavesPlayers(w, s, worker);
      case _ => OtherStepsLeavePlayers(w, s, e);
    }
  }

  /** Over every run: a player keeps the wallet they joined with and the referrer they were bound to, and nobody is
      bound but by a bind request of their own. */
  lemma {:induction false} PlayersInEveryRun(w: World, s: Store, events: seq<Event>)
    ensures var t := Run(w, s, events);
      && PlayersKept(s.players, t.players)
      && (forall p :: p in t.players && p !in s.players ==> Joining(p, t.players[p].wallet) in events)
      && forall p :: IsReferred(t.players, p) && !IsReferred(s.players, p) ==> exists e :: e in events && e.Binding? && e.playerId == p
  {
    hide Step;
    if events != [] {
      var before, e := events[..|events| - 1], events[|events| - 1];
      assert events == before + [e] && e in events;
      PlayersInEveryRun(w, s, before);
      var t := Run(w, s, before);
      StepKeepsPlayers(w, t, e);
      forall p | IsReferred(Run(w, s, events).players, p) && !IsReferred(s.players, p)
        ensures exists e :: e in events && e.Binding? && e.playerId == p
      {
        if IsReferred(t.players, p) {
          var b :| b in before && b.Binding? && b.playerId == p;
          assert b in events;
        }
      }
    }
  }

  // ---------------------------------------------------------------- handlers are runs

  lemma RunOne(w: World, s: Store, e: Event)
    ensures Run(w, s, [e]) == Step(w, s, e)
  {
    hide Step;
    assert [e][..0] == [];
  }

  lemma RunTwo(w: World, s: Store, d: Event, e: Event)
    ensures Run(w, s, [d, e]) == Step(w, Step(w, s, d), e)
  {
    hide Step;
    assert [d, e][..1] == [d];
    RunOne(w, s, d);
  }

  lemma RunThree(w: World, s: Store, d: Event, e: Event, f: Event)
    ensures Run(w, s, [d, e, f]) == Step(w, Step(w, Step(w, s, d), e), f)
  {
    hide Step;
    assert [d, e, f][..2] == [d, e];
    RunTwo(w, s, d, e);
  }

  /** An uninterrupted call of a handler is a run of the state machine, so what holds over every run holds for it and in
      between: a settlement and the jobs after it are two events, a job that pays is three, one that throws or skips
      is cut short. */
  lemma AdvanceIsRun(w: World, s: Store, orderId: string, txHash: string)
    ensures var (t, out) := Advance(w, s, orderId, txHash);
      t == Run(w, s, if out.Settled? then [Settling(orderId, txHash), Enqueuing(orderId, out.referralId)]
                     else if out.Already? then [Settling(orderId, txHash), Enqueuing(orderId, None)]
                     else [Settling(orderId, txHash)])
  {
    hide Run, Settle, Enqueue, Pays, Records, HasPaid, IsInvited, Quote;
    SettleTerms(w, s, orderId, txHash);
    var (t, out) := Settle(w, s, orderId, txHash);
    RunOne(w, s, Settling(orderId, txHash));
    RunTwo(w, s, Settling(orderId, txHash), Enqueuing(orderId, if out.Settled? then out.referralId else None));
  }

  lemma PayoutEvents(w: World, s: Store, orderId: string, txHash: string)
    ensures InState(s, PayoutJob(orderId), Waiting) ==> Step(w, s, PayingOut(orderId)) == PayoutBegin(w, s, orderId)
    ensures Step(w, s, PayoutSent(orderId, txHash)) ==
      if InState(s, PayoutJob(orderId), Sending) && PayoutWallet(w, s, orderId).Some? then PayoutSend(w, s, orderId, txHash) else s
    ensures Step(w, s, PayoutRecorded(orderId)) ==
      if PayoutJob(orderId) in s.queue && s.queue[PayoutJob(orderId)].Sent? && PayoutWallet(w, s, orderId).Some?
      then PayoutRecord(w, s, orderId, s.queue[PayoutJob(orderId)].txHash) else s
  {
    hide PayoutBegin, PayoutSend, PayoutRecord, PayoutWallet, Quote;
  }

  lemma PayoutIsRun(w: World, s: Store, orderId: string, txHash: string)
    requires InState(s, PayoutJob(orderId), Waiting)
    ensures PayoutRun(w, s, orderId, txHash)
         == Run(w, s, [PayingOut(orderId), PayoutSent(orderId, txHash), PayoutRecorded(orderId)])
  {
    hide Run, Step, PayoutTransfer, PayoutRecord;
    RunThree(w, s, PayingOut(orderId), PayoutSent(orderId, txHash), PayoutRecorded(orderId));
    PayoutEvents(w, s, orderId, txHash);
    var began := PayoutBegin(w, s, orderId);
    PayoutEvents(w, began, orderId, txHash);
    if PayoutWallet(w, s, orderId).Some? {
      PayoutEvents(w, PayoutSend(w, began, orderId, txHash), orderId, txHash);
    }
  }

  lemma RewardEvents(w: World, s: Store, worker: nat, referralId: string, txHash: string)
    ensures worker !in s.workers ==> Step(w, s, RewardStarted(worker, referralId)) == RewardBegin(w, s, worker, referralId)
    ensures Step(w, s, RewardSent(worker, txHash)) ==
      if worker in s.workers && s.workers[worker].Paying? then RewardSend(w, s, worker, txHash) else s
    ensures Step(w, s, RewardCommitted(worker)) ==
      if worker in s.workers && !s.workers[worker].Paying? && s.workers[worker].referralId in s.referrals
      then RewardCommit(w, s, worker) else s
  {
    hide RewardBegin, RewardSend, RewardCommit, Quote;
  }

  lemma RewardIsRun(w: World, s: Store, worker: nat, referralId: string, txHash: string)
    requires worker !in s.workers
    ensures RewardRun(w, s, worker, referralId, txHash)
         == Run(w, s, [RewardStarted(worker, referralId), RewardSent(worker, txHash), RewardCommitted(worker)])
  {
    hide Run, Step, RewardCommit, RewardAmount, RewardCurrency, RewardDisabled, RewardTransfer;
    RunThree(w, s, RewardStarted(worker, referralId), RewardSent(worker, txHash), RewardCommitted(worker));
    RewardEvents(w, s, worker, referralId, txHash);
    var began := RewardBegin(w, s, worker, referralId);
    RewardEvents(w, began, worker, referralId, txHash);
    if worker in began.workers && began.workers[worker].Paying? {
      RewardEvents(w, RewardSend(w, began, worker, txHash), worker, referralId, txHash);
    }
  }

  /** A call that is one transaction is one event: a quote whose candidates answer its query, a bind request whose root
      answers its own, a first sign-in, a new invite code. */
  lemma CallIsRun(w: World, s: Store, input: QuoteInput, now: Surroundings, playerId: string, code: string,
                  root: Option<string>, newId: string, wallet: string)
    ensures s.usage.Keys == w.promotions.Keys && ValidQuote(w, s, input, now) ==>
      Run(w, s, [Quoting(input, now)]) == Quote(w, s, input, now).0
    ensures AnswersRootQuery(s, code, root) && newId !in s.referrals ==>
      Run(w, s, [Binding(playerId, code, root, newId)]) == Bind(s, playerId, code, root, newId).0
    ensures newId !in s.referrals ==> Run(w, s, [Inviting(playerId, code, newId)]) == Invite(s, playerId, code, newId)
    ensures playerId !in s.players ==>
      Run(w, s, [Joining(playerId, wallet)]) == s.(players := s.players[playerId := Player(wallet, None)])
  {
    hide Run, Quote, Bind, Invite, ValidQuote, AnswersRootQuery;
    RunOne(w, s, Quoting(input, now));
    RunOne(w, s, Binding(playerId, code, root, newId));
    RunOne(w, s, Inviting(playerId, code, newId));
    RunOne(w, s, Joining(playerId, wallet));
  }
}
