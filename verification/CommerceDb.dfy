/** The handlers of checkout, settlement, payout and referrals, working step by step on the tables.

    A thrown error inside a transaction restores the tables as they were. */
module CommerceDb {
  import opened Wrappers
  import opened Stellar
  import opened Commerce
  import opened CommerceInvariants
  import opened CommerceTerms
  import Memo
  import Money
  import P = Promotions

  class Database {
    const world: World
    var orders: map<string, Order>
    var usage: map<string, int>
    var clock: int
    var players: map<string, Player>
    var referrals: map<string, Referral>
    var ledger: seq<Entry>
    var queue: map<Job, JobState>
    var deliveries: set<string>
    var workers: map<nat, Rewarding>
    var sent: seq<Transfer>

    ghost function Snapshot(): Store
      reads this
    {
      Store(orders, usage, clock, players, referrals, ledger, queue, deliveries, workers, sent)
    }

    ghost predicate Valid()
      reads this
    {
      WorldOk(world) && Inv(world, Snapshot())
    }

    constructor (world: World, s: Store)
      requires WorldOk(world) && Inv(world, s)
      ensures this.world == world && Snapshot() == s && Valid()
    {
      this.world := world;
      orders, usage, clock, players, referrals := s.orders, s.usage, s.clock, s.players, s.referrals;
      ledger, queue, deliveries, workers, sent := s.ledger, s.queue, s.deliveries, s.workers, s.sent;
    }

    // -------------------------------------------------------------- createOrderQuote

    /** No two orders were created at the same instant. */
    ghost predicate CreatedInOrder()
      reads this
    {
      forall a, b :: a in orders && b in orders && orders[a].createdAt == orders[b].createdAt ==> a == b
    }

    /** Every promotion an order names has a counter. */
    ghost predicate PromotionsKnown()
      reads this
    {
      forall id :: id in orders && orders[id].promotionId.Some? ==> orders[id].promotionId.value in usage
    }

    /** `findFirst` of the pending orders of a key, newest first. */
    method FindNewest(key: QuoteKey) returns (id: Option<string>)
      requires CreatedInOrder()
      ensures id == if PendingIds(orders, key) == {} then None else Some(Newest(orders, key))
    {
      var rest := PendingIds(orders, key);
      id := None;
      while rest != {}
        invariant rest <= PendingIds(orders, key)
        invariant id.None? <==> rest == PendingIds(orders, key)
        invariant id.Some? ==> id.value in PendingIds(orders, key) - rest
        invariant id.Some? ==>
          forall j :: j in PendingIds(orders, key) - rest ==> orders[j].createdAt <= orders[id.value].createdAt
        decreases |rest|
      {
        var j :| j in rest;
        if id.None? || orders[id.value].createdAt < orders[j].createdAt {
          id := Some(j);
        }
        rest := rest - {j};
      }
      if id.Some? {
        assert IsNewest(orders, key, id.value);
        assert IsNewest(orders, key, Newest(orders, key));
      }
    }

    /** Delete one order and give back the promotion use it held. */
    method DeleteOrder(id: string)
      requires id in orders && PromotionsKnown()
      modifies this`orders, this`usage
      ensures orders == old(orders) - {id} && usage == UsageWithout(old(orders), old(usage), {id})
    {
      UsageWithoutOne(orders, usage, id);
      var promotion := orders[id].promotionId;
      if promotion.Some? {
        usage := usage[promotion.value := usage[promotion.value] - 1];
      }
      orders := orders - {id};
    }

    /** The loop that removes older duplicates of a pending order. */
    method DeleteDuplicates(duplicates: set<string>)
      requires duplicates <= orders.Keys && PromotionsKnown()
      modifies this`orders, this`usage
      ensures orders == old(orders) - duplicates && usage == UsageWithout(old(orders), old(usage), duplicates)
    {
      hide Named;
      ghost var orders0, usage0 := orders, usage;
      var rest := duplicates;
      ghost var done: set<string> := {};
      UsageWithoutNone(orders, usage);
      while rest != {}
        invariant rest <= duplicates && done == duplicates - rest
        invariant orders == orders0 - done && usage == UsageWithout(orders0, usage0, done)
        decreases |rest|
      {
        var id :| id in rest;
        UsageWithoutMore(orders0, usage0, done, id);
        DeleteOrder(id);
        rest := rest - {id};
        done := done + {id};
      }
      assert done == duplicates;
    }

    /** The body of the transaction; a thrown error has already restored the tables. */
    method QuoteTransaction(input: QuoteInput, now: Surroundings) returns (out: QuoteOutcome)
      requires usage.Keys == world.promotions.Keys && ValidQuote(world, Snapshot(), input, now)
      requires CreatedInOrder() && PromotionsKnown()
      modifies this`orders, this`usage, this`clock
      ensures Snapshot() == Quote(world, old(Snapshot()), input, now).0
      ensures out == Quote(world, old(Snapshot()), input, now).1
    {
      hide QuoteFresh, OfferFor;
      if now.item.None? { return QuoteFailed(ItemNotFound); }
      var item := now.item.value;
      if item.studioId !in world.studios { return QuoteFailed(StudioNotFound); }
      if !world.studios[item.studioId].isActive { return QuoteFailed(StudioInactive); }
      if !item.isActive || !item.isListed { return QuoteFailed(ItemUnavailable); }
      if item.stock.Some? && input.Quantity() > item.stock.value { return QuoteFailed(InsufficientStock); }

      var key := QuoteKey(input.playerId, input.itemId, input.Quantity(), CurrencyOf(input, item));
      ghost var before := Snapshot();
      var existing := FindNewest(key);
      if existing.Some? && !P.Supplied(input.promotionCode) {
        out := ReuseOrder(key, existing.value, now);
        return;
      }
      var savedOrders, savedUsage := orders, usage;
      if existing.Some? {
        DeleteOrder(existing.value);
        assert Snapshot() == Drop(before, {existing.value});
      }
      FreshRollsBack(world, before, Snapshot(), input, now);
      out := InsertOrder(input, now);
      if out.QuoteFailed? {
        orders, usage := savedOrders, savedUsage;
      }
    }

    /** Keep the newest pending order and offer its payment again. */
    method ReuseOrder(key: QuoteKey, newest: string, now: Surroundings) returns (out: QuoteOutcome)
      requires newest in PendingIds(orders, key) && PromotionsKnown()
      modifies this`orders, this`usage
      ensures !now.built ==> Snapshot() == old(Snapshot()) && out == QuoteFailed(PaymentNotBuilt)
      ensures now.built ==>
        && Snapshot() == Drop(old(Snapshot()), PendingIds(old(orders), key) - {newest})
        && out == Quoted(newest, old(orders)[newest], OfferFor(world, newest, old(orders)[newest]))
    {
      hide Memo.Truncated, Money.ToStellarAmount;
      var savedOrders, savedUsage := orders, usage;
      DeleteDuplicates(PendingIds(orders, key) - {newest});
      if !now.built {
        orders, usage := savedOrders, savedUsage;
        return QuoteFailed(PaymentNotBuilt);
      }
      var order := orders[newest];
      var payment := BuildPayment(world.env.receivingAccount, AssetOf(order.currency, world.env),
                                  Money.ToStellarAmount(Money.Amount(order.gross - order.discount)), newest);
      out := Quoted(newest, order, payment);
    }

    /** Price the purchase afresh and insert the order; on failure the tables are left as found. */
    method InsertOrder(input: QuoteInput, now: Surroundings) returns (out: QuoteOutcome)
      requires usage.Keys == world.promotions.Keys && Precheck(world, input, now).None?
      requires forall p :: p in now.candidates ==> p in world.promotions
      modifies this`orders, this`usage, this`clock
      ensures Snapshot() == QuoteFresh(world, old(Snapshot()), old(Snapshot()), input, now).0
      ensures out == QuoteFresh(world, old(Snapshot()), old(Snapshot()), input, now).1
      ensures InsertedAs(world, old(Snapshot()), Snapshot(), out, input, now)
    {
      hide QuoteWith, InsertedAs;
      InsertOrderTerms(world, Snapshot(), input, now);
      var item := now.item.value;
      var best := P.BestPromotion(Rows(world, usage, now.candidates), PurchaseOf(input, item, orders, now.now));
      assert best == BestFor(world, Snapshot(), input, now);
      out := InsertPriced(input, now, best);
    }

    method InsertPriced(input: QuoteInput, now: Surroundings, best: P.Discount) returns (out: QuoteOutcome)
      requires Precheck(world, input, now).None?
      modifies this`orders, this`usage, this`clock
      ensures Snapshot() == QuoteWith(world, old(Snapshot()), old(Snapshot()), input, now, best).0
      ensures out == QuoteWith(world, old(Snapshot()), old(Snapshot()), input, now, best).1
    {
      hide Memo.Truncated, Money.ToStellarAmount, Money.FeeStroops, Money.NetStroops;
      if P.Supplied(input.promotionCode) && best.promotionId.None? {
        return QuoteFailed(InvalidPromotionCode);
      }
      var item := now.item.value;
      var gross := item.price * input.Quantity();
      var bps := world.studios[item.studioId].feeBps;
      var discounted := gross - best.amount;
      var order := Order(item.studioId, input.itemId, input.playerId, input.Quantity(), CurrencyOf(input, item),
                         gross, best.amount, Money.FeeStroops(discounted, bps), Money.NetStroops(discounted, bps),
                         best.promotionId, input.referralCode, None, PENDING, clock);
      if !now.built {
        return QuoteFailed(PaymentNotBuilt);
      }
      orders := orders[now.newId := order];
      clock := clock + 1;
      if best.promotionId.Some? && best.promotionId.value in usage {
        usage := usage[best.promotionId.value := usage[best.promotionId.value] + 1];
      }
      var payment := BuildPayment(world.env.receivingAccount, AssetOf(order.currency, world.env),
                                  Money.ToStellarAmount(Money.Amount(discounted)), now.newId);
      out := Quoted(now.newId, order, payment);
    }

    method CreateOrderQuote(input: QuoteInput, now: Surroundings) returns (out: QuoteOutcome)
      requires Valid() && ValidQuote(world, Snapshot(), input, now)
      modifies this`orders, this`usage, this`clock
      ensures Snapshot() == Quote(world, old(Snapshot()), input, now).0
      ensures out == Quote(world, old(Snapshot()), input, now).1
      ensures QuotedAs(world, old(Snapshot()), Snapshot(), out, input, now)
      ensures Valid()
    {
      hide QuoteFresh, OfferFor, SaleInv, PayoutInv, ReferralInv, QuotedAs;
      QuoteTerms(world, Snapshot(), input, now);
      QuoteKeepsInv(world, Snapshot(), input, now);
      out := QuoteTransaction(input, now);
    }

    // -------------------------------------------------------------- verifyAndAdvanceOrder

    /** Nobody has two open referrals. */
    ghost predicate OneOpenReferral()
      reads this
    {
      forall a, b :: a in referrals && b in referrals && SameReferee(referrals[a], referrals[b]) ==> a == b
    }

    method SettleTransaction(orderId: string, txHash: string) returns (out: Settlement)
      requires OneOpenReferral()
      modifies this`orders, this`ledger, this`referrals
      ensures Snapshot() == Settle(world, old(Snapshot()), orderId, txHash).0
      ensures out == Settle(world, old(Snapshot()), orderId, txHash).1
      ensures SettledAs(world, old(Snapshot()), Snapshot(), out, orderId, txHash)
    {
      hide VerifyPayment, QualifyingReferral, SettledAs;
      ghost var before := Snapshot();
      SettleTerms(world, before, orderId, txHash);
      if orderId !in orders { return SettleThrew; }
      var order := orders[orderId];
      if order.status == PAID { return Already(orderId); }

      var asset := AssetOf(order.currency, world.env);
      var verify := VerifyPayment(world.horizon, txHash,
        Expectation(world.env.receivingAccount, asset, Money.Amount(order.gross - order.discount), orderId));
      if verify.Threw? { return SettleThrew; }
      if verify.Refused? { return Rejected(verify.reason); }
      var existing := set id | id in orders && orders[id].txHash == Some(txHash) && id != orderId;
      assert existing == UsersOf(orders, txHash) - {orderId};
      if existing != {} {
        return Rejected("txHash already used");
      }

      var referralId := RecordSale(orderId, txHash, asset);
      out := Settled(orderId, referralId);
    }

    /** Mark the order paid, record the sale and qualify the buyer's referral. */
    method RecordSale(orderId: string, txHash: string, asset: Asset) returns (referralId: Option<string>)
      requires OneOpenReferral() && orderId in orders
      modifies this`orders, this`ledger, this`referrals
      ensures referralId == QualifyingReferral(old(Snapshot()), orderId)
      ensures Snapshot() == MarkPaid(world, old(Snapshot()), orderId, txHash, asset, referralId)
    {
      hide QualifyingReferral;
      ghost var before := Snapshot();
      var order := orders[orderId];
      orders := orders[orderId := order.(status := PAID, txHash := Some(txHash))];
      ledger := ledger + [Entry(SALE_IN, orderId, txHash, "", world.env.receivingAccount, order.gross, asset)];
      QualifyingIs(before, orderId, orders[orderId]);
      referralId := QualifyReferral(orderId);
    }

    /** Other orders of a player that are paid. */
    function PaidBefore(table: map<string, Order>, orderId: string, playerId: string): set<string>
    {
      set id | id in table && id != orderId && table[id].playerId == playerId && table[id].status == PAID
    }

    lemma QualifyingIs(s: Store, orderId: string, o: Order)
      requires orderId in s.orders && o.playerId == s.orders[orderId].playerId
      ensures var later := PaidBefore(s.orders[orderId := o], orderId, o.playerId);
        var open := OpenReferrals(s.referrals, o.playerId);
        match QualifyingReferral(s, orderId)
        case None => later != {} || open == {}
        case Some(r) => later == {} && r in open
    {
      var before := PaidBefore(s.orders, orderId, o.playerId);
      assert PaidBefore(s.orders[orderId := o], orderId, o.playerId) == before;
      if id :| id in s.orders && id != orderId && s.orders[id].playerId == o.playerId && s.orders[id].status == PAID {
        assert id in before;
      }
    }

    /** Qualify the buyer's pending referral on the first paid order. */
    method QualifyReferral(orderId: string) returns (referralId: Option<string>)
      requires OneOpenReferral() && orderId in orders
      modifies this`referrals
      ensures var playerId := orders[orderId].playerId;
        if PaidBefore(orders, orderId, playerId) != {} || OpenReferrals(old(referrals), playerId) == {}
        then referralId.None? && referrals == old(referrals)
        else
          && referralId.Some? && OpenReferrals(old(referrals), playerId) == {referralId.value}
          && referrals == old(referrals)[referralId.value :=
               Qualified(old(referrals)[referralId.value], orderId, orders[orderId].studioId)]
    {
      var order := orders[orderId];
      referralId := None;
      if PaidBefore(orders, orderId, order.playerId) == {} {
        var pending := OpenReferrals(referrals, order.playerId);
        if pending != {} {
          var r :| r in pending;
          assert forall q :: q in pending ==> SameReferee(referrals[q], referrals[r]);
          referrals := referrals[r := Qualified(referrals[r], orderId, order.studioId)];
          referralId := Some(r);
        }
      }
    }

    method EnqueueMissing(orderId: string, referralId: Option<string>)
      modifies this`queue
      ensures Snapshot() == Enqueue(old(Snapshot()), orderId, referralId)
      ensures JobsAdded(old(Snapshot()), Snapshot(), orderId, referralId)
    {
      hide JobsAdded;
      EnqueueTerms(Snapshot(), orderId, referralId);
      var payouts := CountEntries(PAYOUT_OUT, orderId);
      if payouts == 0 {
        AddJob(PayoutJob(orderId));
      }
      if orderId !in deliveries {
        AddJob(WebhookJob(orderId));
      }
      if referralId.Some? {
        AddJob(RewardJob(referralId.value));
      }
    }

    method CountEntries(kind: EntryType, subject: string) returns (n: nat)
      ensures n == EntryCount(ledger, kind, subject)
    {
      n := 0;
      for i := 0 to |ledger|
        invariant n == EntryCount(ledger[..i], kind, subject)
      {
        assert ledger[..i + 1][..i] == ledger[..i];
        if ledger[i].kind == kind && ledger[i].subject == subject {
          n := n + 1;
        }
      }
      assert ledger[..|ledger|] == ledger;
    }

    method AddJob(job: Job)
      modifies this`queue
      ensures queue == Add(old(queue), job)
    {
      if job !in queue {
        queue := queue[job := Waiting];
      }
    }

    method VerifyAndAdvanceOrder(orderId: string, txHash: string) returns (out: Settlement)
      requires Valid()
      modifies this`orders, this`ledger, this`referrals, this`queue
      ensures Snapshot() == Advance(world, old(Snapshot()), orderId, txHash).0
      ensures out == Advance(world, old(Snapshot()), orderId, txHash).1
      ensures AdvancedAs(world, old(Snapshot()), Snapshot(), out, orderId, txHash)
      ensures Valid()
    {
      hide VerifyPayment, QualifyingReferral, Enqueue, UsageInv, SaleInv, PayoutInv, OrderInv;
      hide AdvancedAs, SettledAs, JobsAdded;
      AdvanceTerms(world, Snapshot(), orderId, txHash);
      SettleKeepsInv(world, Snapshot(), orderId, txHash);
      out := SettleTransaction(orderId, txHash);
      if out.Settled? {
        EnqueueKeepsInv(world, Snapshot(), orderId, out.referralId);
        EnqueueMissing(orderId, out.referralId);
      } else if out.Already? {
        EnqueueKeepsInv(world, Snapshot(), orderId, None);
        EnqueueMissing(orderId, None);
      }
    }

    // -------------------------------------------------------------- the jobs

    /** A whole payout job without interruption; None where it throws before paying. */
    method Payout(orderId: string, txHash: string) returns (paid: Option<string>)
      requires Valid() && InState(Snapshot(), PayoutJob(orderId), Waiting)
      modifies this`queue, this`sent, this`ledger
      ensures Snapshot() == PayoutRun(world, old(Snapshot()), orderId, txHash)
      ensures PaidOutAs(world, old(Snapshot()), Snapshot(), paid, orderId, txHash)
      ensures Valid()
    {
      hide PaidOutAs;
      PayoutTerms(world, Snapshot(), orderId, txHash);
      hide UsageInv, OrderInv, SaleInv, PayoutInv, ReferralInv, WorldOk, Memo.Truncated, Money.ToStellarAmount;
      ghost var before := Snapshot();
      ghost var began := PayoutBegin(world, before, orderId);
      PayoutStarts(world, before, orderId);
      queue := queue[PayoutJob(orderId) := Sending];
      if orderId !in orders || orders[orderId].status != PAID || orders[orderId].studioId !in world.studios
         || world.studios[orders[orderId].studioId].payoutWallet in {None, Some("")} {
        queue := queue[PayoutJob(orderId) := Finished];
        return None;
      }
      PayoutRuns(world, began, orderId, txHash);
      var order := orders[orderId];
      var wallet := world.studios[order.studioId].payoutWallet.value;
      var asset := AssetOf(order.currency, world.env);
      var memo := Memo.TruncateTextMemo("payout:" + orderId);
      sent := sent + [Transfer(PAYOUT_OUT, orderId, wallet, asset, order.net, memo)];
      queue := queue[PayoutJob(orderId) := Sent(txHash)];
      ledger := ledger + [Entry(PAYOUT_OUT, orderId, txHash, world.env.receivingAccount, wallet, order.net, asset)];
      queue := queue[PayoutJob(orderId) := Finished];
      paid := Some(txHash);
    }

    /** The invite code of a player: the one they have, or the first of five random ones that is not taken. */
    method InviteCode(playerId: string, codes: seq<string>, newId: string) returns (code: Option<string>)
      requires Valid() && newId !in referrals && |codes| == 5
      modifies this`referrals
      ensures code.Some? ==>
        exists r :: r in referrals && referrals[r].code == code.value && referrals[r].referrerId == playerId && referrals[r].refereeId.None?
      ensures code.None? ==> referrals == old(referrals) && forall i :: 0 <= i < 5 ==> CodeTaken(referrals, codes[i])
      ensures referrals == old(referrals)
              || (code.Some? && code.value in codes && !CodeTaken(old(referrals), code.value)
                  && Snapshot() == Invite(old(Snapshot()), playerId, code.value, newId)
                  && referrals == old(referrals)[newId :=
                       Referral(code.value, playerId, None, INVITED, None, None, None, None, None)])
      ensures (exists r :: r in old(referrals) && old(referrals)[r].referrerId == playerId && old(referrals)[r].refereeId.None?)
              ==> referrals == old(referrals)
      ensures Valid()
    {
      hide UsageInv, OrderInv, SaleInv, PayoutInv, ReferralInv, WorldOk;
      var own := set r | r in referrals && referrals[r].referrerId == playerId && referrals[r].refereeId.None?;
      if own != {} {
        var r :| r in own;
        return Some(referrals[r].code);
      }
      for attempt := 0 to 5
        invariant referrals == old(referrals) && Valid()
        invariant forall i :: 0 <= i < attempt ==> CodeTaken(referrals, codes[i])
      {
        if !CodeTaken(referrals, codes[attempt]) {
          InviteKeepsInv(world, Snapshot(), playerId, codes[attempt], newId);
          assert forall r :: r in referrals && referrals[r].referrerId == playerId && referrals[r].refereeId.None? ==> r in own;
          referrals := referrals[newId :=
            Referral(codes[attempt], playerId, None, INVITED, None, None, None, None, None)];
          assert referrals[newId].code == codes[attempt];
          return Some(codes[attempt]);
        }
      }
      code := None;
    }

    method BindReferral(playerId: string, code: string, root: Option<string>, newId: string) returns (out: BindOutcome)
      requires Valid() && AnswersRootQuery(Snapshot(), code, root) && newId !in referrals
      modifies this`players, this`referrals
      ensures (Snapshot(), out) == Bind(old(Snapshot()), playerId, code, root, newId)
      ensures BoundAs(old(Snapshot()), Snapshot(), out, playerId, code, root, newId)
      ensures Valid()
    {
      hide UsageInv, OrderInv, SaleInv, PayoutInv, ReferralInv, Bind, BoundAs;
      BindTerms(Snapshot(), playerId, code, root, newId);
      BindKeepsInv(world, Snapshot(), playerId, code, root, newId);
      out := BindTransaction(playerId, code, root, newId);
    }

    method BindTransaction(playerId: string, ghost code: string, root: Option<string>, newId: string) returns (out: BindOutcome)
      requires root.Some? ==> root.value in referrals
      modifies this`players, this`referrals
      ensures (Snapshot(), out) == Bind(old(Snapshot()), playerId, code, root, newId)
    {
      if root.None? { return InvalidCode; }
      var referrer := referrals[root.value];
      if referrer.referrerId == playerId { return SelfReferral; }
      if playerId in players && players[playerId].referredBy.Some? { return AlreadyBound; }
      if playerId !in players { return BindThrew; }
      var saved := players;
      players := players[playerId := players[playerId].(referredBy := Some(referrer.referrerId))];
      var newCode := referrer.code + "-" + First8(playerId);
      if CodeTaken(referrals, newCode) {
        players := saved;
        return BindThrew;
      }
      referrals := referrals[newId :=
        Referral(newCode, referrer.referrerId, Some(playerId), INVITED, None, None, None, None, None)];
      out := Bound;
    }

    /** A whole reward job without interruption; the transaction hash when it paid. */
    method RewardReferral(worker: nat, referralId: string, txHash: string) returns (paid: Option<string>)
      requires Valid() && worker !in workers
      modifies this`workers, this`sent, this`referrals, this`ledger
      ensures Snapshot() == RewardRun(world, old(Snapshot()), worker, referralId, txHash)
      ensures RewardedAs(world, old(Snapshot()), Snapshot(), paid, referralId, txHash)
      ensures Valid()
    {
      hide UsageInv, OrderInv, SaleInv, PayoutInv, ReferralInv, WorldOk, RewardedAs, RewardPlan, RewardCommit, RewardSend;
      RewardTerms(world, Snapshot(), worker, referralId, txHash);
      RewardRuns(world, Snapshot(), worker, referralId, txHash);
      var plan := PlanReward(referralId);
      paid := PerformReward(worker, plan, referralId, txHash);
    }

    /** What the job does after its reads. */
    method PerformReward(worker: nat, plan: Option<Rewarding>, referralId: string, txHash: string) returns (paid: Option<string>)
      requires worker !in workers && plan == RewardPlan(world, Snapshot(), referralId)
      modifies this`workers, this`sent, this`referrals, this`ledger
      ensures Snapshot() == RewardRun(world, old(Snapshot()), worker, referralId, txHash)
      ensures paid == if plan.Some? && plan.value.Paying? then Some(txHash) else None
    {
      PlanTerms(world, Snapshot(), referralId);
      hide Memo.Truncated, RewardPlan, RewardCommit, AssetOf, First20;
      if plan.None? { return None; }
      ghost var before := Snapshot();
      workers := workers[worker := plan.value];
      if plan.value.Waiving? {
        WaiveReward(worker);
        return None;
      }
      var Paying(_, amount, currency, dest) := plan.value;
      var memo := Memo.TruncateTextMemo("ref:" + First20(referralId));
      sent := sent + [Transfer(REFERRAL_REWARD, referralId, dest, AssetOf(currency, world.env), amount, memo)];
      workers := workers[worker := Paid(referralId, amount, currency, dest, txHash)];
      assert Snapshot() == RewardSend(world, RewardBegin(world, before, worker, referralId), worker, txHash);
      CloseReward(worker);
      paid := Some(txHash);
    }

    lemma PlanTerms(w: World, s: Store, referralId: string)
      ensures var plan := RewardPlan(w, s, referralId);
        plan.Some? ==> plan.value.referralId == referralId && referralId in s.referrals && !plan.value.Paid?
    {}

    /** The reads of the job: whether to skip, to waive, or what to pay to whom. */
    method PlanReward(referralId: string) returns (plan: Option<Rewarding>)
      ensures plan == RewardPlan(world, Snapshot(), referralId)
    {
      if referralId !in referrals || referrals[referralId].status != QUALIFIED { return None; }
      var referral := referrals[referralId];
      if referral.referrerId !in players { return None; }
      if RewardDisabled(world, referral) { return Some(Waiving(referralId)); }
      var amount := RewardAmount(world, referral);
      var currency := RewardCurrency(world, orders, referral);
      return Some(Paying(referralId, amount, currency, players[referral.referrerId].wallet));
    }

    /** The studio disabled rewards: the referral is closed whatever its status is by now. */
    method WaiveReward(worker: nat)
      requires worker in workers && workers[worker].Waiving? && workers[worker].referralId in referrals
      modifies this`workers, this`referrals
      ensures Snapshot() == RewardCommit(world, old(Snapshot()), worker)
    {
      var r := workers[worker].referralId;
      referrals := referrals[r := referrals[r].(status := REWARDED, rewardAmount := Some(0))];
      workers := workers - {worker};
    }

    /** The closing transaction: flip the referral if it is still qualified, and only then record the reward. */
    method CloseReward(worker: nat)
      requires worker in workers && workers[worker].Paid? && workers[worker].referralId in referrals
      modifies this`workers, this`referrals, this`ledger
      ensures Snapshot() == RewardCommit(world, old(Snapshot()), worker)
    {
      var Paid(referralId, amount, currency, dest, txHash) := workers[worker];
      var referral := referrals[referralId];
      if referral.status == QUALIFIED {
        referrals := referrals[referralId := referral.(status := REWARDED, rewardAmount := Some(amount),
                                                       rewardCurrency := Some(currency), rewardTxHash := Some(txHash))];
        ledger := ledger + [Entry(REFERRAL_REWARD, referralId, txHash, world.env.receivingAccount, dest, amount,
                                  RewardAsset(world, currency))];
      }
      workers := workers - {worker};
    }

    // Each stretch of a job keeps the invariants.
    lemma PayoutStarts(w: World, s: Store, orderId: string)
      requires Inv(w, s) && InState(s, PayoutJob(orderId), Waiting)
      ensures Inv(w, PayoutBegin(w, s, orderId))
    {
      hide Inv, Quote, Settle;
      QueueStepKeepsInv(w, s, PayingOut(orderId));
    }

    lemma PayoutRuns(w: World, s: Store, orderId: string, txHash: string)
      requires Inv(w, s) && InState(s, PayoutJob(orderId), Sending) && PayoutWallet(w, s, orderId).Some?
      ensures Inv(w, PayoutRecord(w, PayoutSend(w, s, orderId, txHash), orderId, txHash))
    {
      hide Inv, Quote, Settle, Memo.Truncated, Money.ToStellarAmount;
      QueueStepKeepsInv(w, s, PayoutSent(orderId, txHash));
      PayoutKeepsInv(w, PayoutSend(w, s, orderId, txHash), orderId, txHash);
    }

    lemma RewardRuns(w: World, s: Store, worker: nat, referralId: string, txHash: string)
      requires Inv(w, s) && worker !in s.workers
      ensures var plan := RewardPlan(w, s, referralId);
        var began := RewardBegin(w, s, worker, referralId);
        plan.Some? ==>
          if plan.value.Waiving? then Inv(w, RewardCommit(w, began, worker))
          else Inv(w, RewardCommit(w, RewardSend(w, began, worker, txHash), worker))
    {
      hide Inv, Quote, Settle, RewardCommit, Memo.Truncated, Money.ToStellarAmount;
      StartKeepsInv(w, s, worker, referralId);
      var began := RewardBegin(w, s, worker, referralId);
      if RewardPlan(w, s, referralId).Some? {
        if began.workers[worker].Waiving? {
          RewardKeepsInv(w, began, worker);
        } else {
          WorkerStepKeepsInv(w, began, RewardSent(worker, txHash));
          RewardKeepsInv(w, RewardSend(w, began, worker, txHash), worker);
        }
      }
    }
  }
}
