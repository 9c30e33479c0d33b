/** Payouts that really leave the platform account, over every run, jobs lost midway included. */
module CommercePayments {
  import opened Wrappers
  import opened Stellar
  import opened Commerce
  import opened CommerceInvariants
  import opened CommerceTheorems
  import opened MapSums
  import Memo

  // ---------------------------------------------------------------- runs in pieces

  lemma {:induction false} RunConcat(w: World, s: Store, a: seq<Event>, b: seq<Event>)
    ensures Run(w, s, a + b) == Run(w, Run(w, s, a), b)
  {
    hide Step;
    if b == [] {
      assert a + b == a;
    } else {
      assert (a + b)[..|a + b| - 1] == a + b[..|b| - 1];
      RunConcat(w, s, a, b[..|b| - 1]);
    }
  }

  lemma RunFirst(w: World, s: Store, e: Event, rest: seq<Event>)
    ensures Run(w, s, [e] + rest) == Run(w, Step(w, s, e), rest)
  {
    hide Step;
    RunConcat(w, s, [e], rest);
    assert [e][..0] == [];
    assert Run(w, s, [e]) == Step(w, Run(w, s, []), e);
  }

  // ---------------------------------------------------------------- counting payments

  /** Payments of a kind that left the account for an order or a referral. */
  function SentCount(sent: seq<Transfer>, kind: EntryType, subject: string): nat
  {
    if sent == [] then 0
    else
      SentCount(sent[..|sent| - 1], kind, subject) +
      (if sent[|sent| - 1].kind == kind && sent[|sent| - 1].subject == subject then 1 else 0)
  }

  lemma SentAppend(sent: seq<Transfer>, x: Transfer)
    ensures forall kind, subject ::
      SentCount(sent + [x], kind, subject) ==
      SentCount(sent, kind, subject) + if x.kind == kind && x.subject == subject then 1 else 0
  {
    assert (sent + [x])[..|sent|] == sent;
  }

  /** The payout was sent and is not recorded yet. */
  function Unrecorded(queue: map<Job, JobState>, id: string): nat
  {
    if PayoutJob(id) in queue && queue[PayoutJob(id)].Sent? then 1 else 0
  }

  /** The payout job of the order stops between sending and recording. */
  predicate LosesPayout(s: Store, e: Event, id: string)
  {
    e == JobGivenUp(PayoutJob(id)) && Unrecorded(s.queue, id) == 1
  }

  /** How often that happens in a run. */
  ghost function PayoutsLost(w: World, s: Store, events: seq<Event>, id: string): nat
  {
    if events == [] then 0
    else
      var before := events[..|events| - 1];
      PayoutsLost(w, s, before, id) + if LosesPayout(Run(w, s, before), events[|events| - 1], id) then 1 else 0
  }

  function PayoutBalance(s: Store, id: string): int
  {
    SentCount(s.sent, PAYOUT_OUT, id) - EntryCount(s.ledger, PAYOUT_OUT, id) - Unrecorded(s.queue, id)
  }

  lemma QueueStepBalances(w: World, s: Store, e: Event, id: string)
    requires Enabled(w, s, e)
    requires e.Enqueuing? || e.PayingOut? || e.PayoutSent? || e.PayoutRecorded? || e.JobGivenUp? || e.JobRemoved? || e.WebhookRun?
    ensures PayoutBalance(Step(w, s, e), id) == PayoutBalance(s, id) + if LosesPayout(s, e, id) then 1 else 0
  {
    hide Quote, Settle, Bind, Invite, RewardCommit, RewardBegin, RewardSend, EntryCount, SentCount, PayoutWallet;
    var t := Step(w, s, e);
    match e
    case PayoutSent(_, _) => SentAppend(s.sent, t.sent[|s.sent|]);
    case PayoutRecorded(_) => CountAppend(s.ledger, t.ledger[|s.ledger|]);
    case _ =>
  }

  lemma RewardSentBalances(w: World, s: Store, worker: nat, txHash: string, id: string)
    requires worker in s.workers && s.workers[worker].Paying?
    ensures PayoutBalance(RewardSend(w, s, worker, txHash), id) == PayoutBalance(s, id)
  {
    var t := RewardSend(w, s, worker, txHash);
    SentAppend(s.sent, t.sent[|s.sent|]);
  }

  lemma CommitBalances(w: World, s: Store, worker: nat, id: string)
    requires worker in s.workers && !s.workers[worker].Paying? && s.workers[worker].referralId in s.referrals
    ensures PayoutBalance(RewardCommit(w, s, worker), id) == PayoutBalance(s, id)
  {
    CommitKeepsPayoutCount(w, s, worker, id);
  }

  lemma SettleBalances(w: World, s: Store, orderId: string, txHash: string, id: string)
    ensures PayoutBalance(Settle(w, s, orderId, txHash).0, id) == PayoutBalance(s, id)
  {
    hide VerifyPayment, QualifyingReferral, EntryCount;
    SettleKeepsPayoutCount(w, s, orderId, txHash, id);
  }

  lemma StepBalances(w: World, s: Store, e: Event, id: string)
    ensures PayoutBalance(Step(w, s, e), id) == PayoutBalance(s, id) + if LosesPayout(s, e, id) then 1 else 0
  {
    hide Quote, Settle, Bind, Invite, Join, RewardCommit, RewardBegin, RewardSend, Enqueue, PayoutRecord, PayoutSend, PayoutBegin;
    hide EntryCount, SentCount;
    if Enabled(w, s, e) {
      match e
      case Quoting(input, now) => QuoteLeavesRest(w, s, input, now);
      case Settling(orderId, txHash) => SettleBalances(w, s, orderId, txHash, id);
      case Joining(player, wallet) => JoinLeavesRest(s, player, wallet);
      case Inviting(player, code, newId) => InviteLeavesRest(s, player, code, newId);
      case Binding(player, code, root, newId) => BindLeavesRest(s, player, code, root, newId);
      case RewardStarted(worker, r) => BeginLeavesRest(w, s, worker, r);
      case RewardSent(worker, txHash) => RewardSentBalances(w, s, worker, txHash, id);
      case RewardCommitted(worker) => CommitBalances(w, s, worker, id);
      case RewardLost(_) =>
      case _ => QueueStepBalances(w, s, e, id);
    }
  }

  lemma JoinLeavesRest(s: Store, playerId: string, wallet: string)
    ensures Join(s, playerId, wallet) == s.(players := Join(s, playerId, wallet).players)
  {}

  /** In every run the payouts sent for an order are those recorded, the one sent and about to be recorded, and
      those whose job was lost in between. */
  lemma {:induction false} PayoutsSentInEveryRun(w: World, s: Store, events: seq<Event>, id: string)
    requires Init(w, s)
    ensures var t := Run(w, s, events);
      SentCount(t.sent, PAYOUT_OUT, id)
      == EntryCount(t.ledger, PAYOUT_OUT, id) + Unrecorded(t.queue, id) + PayoutsLost(w, s, events, id)
  {
    hide Step, EntryCount, SentCount;
    if events == [] {
      NothingSentYet(s, id);
    } else {
      var before := events[..|events| - 1];
      PayoutsSentInEveryRun(w, s, before, id);
      StepBalances(w, Run(w, s, before), events[|events| - 1], id);
    }
  }

  lemma NothingSentYet(s: Store, id: string)
    requires s.sent == [] && s.ledger == [] && s.queue == map[]
    ensures SentCount(s.sent, PAYOUT_OUT, id) == EntryCount(s.ledger, PAYOUT_OUT, id) == Unrecorded(s.queue, id) == 0
  {}

  // ---------------------------------------------------------------- what is sent

  /** Every payout sent is the studio's share of a paid order, to the studio's wallet. */
  ghost predicate PayoutsRight(w: World, orders: map<string, Order>, sent: seq<Transfer>)
  {
    forall x :: x in sent && x.kind == PAYOUT_OUT ==>
      && x.subject in orders && orders[x.subject].status == PAID
      && orders[x.subject].studioId in w.studios
      && w.studios[orders[x.subject].studioId].payoutWallet.Some?
      && x == PayoutTransfer(w, x.subject, orders[x.subject], w.studios[orders[x.subject].studioId].payoutWallet.value)
  }

  ghost predicate PaidRowsStay(a: map<string, Order>, b: map<string, Order>)
  {
    forall id :: id in a && a[id].status == PAID ==> id in b && b[id] == a[id]
  }

  lemma StepKeepsPaidRows(w: World, s: Store, e: Event)
    ensures PaidRowsStay(s.orders, Step(w, s, e).orders)
  {
    hide Step;
    forall id | id in s.orders && s.orders[id].status == PAID
      ensures id in Step(w, s, e).orders && Step(w, s, e).orders[id] == s.orders[id]
    {
      StepGrows(w, s, e, id);
    }
  }

  lemma MoreSentRight(w: World, a: map<string, Order>, b: map<string, Order>, sent: seq<Transfer>, x: Transfer)
    requires PayoutsRight(w, a, sent) && PaidRowsStay(a, b)
    ensures PayoutsRight(w, b, sent)
    ensures x.kind != PAYOUT_OUT ==> PayoutsRight(w, b, sent + [x])
  {
    hide PayoutTransfer;
  }

  lemma PayoutSendRight(w: World, s: Store, id: string, txHash: string)
    requires PayoutsRight(w, s.orders, s.sent) && PayoutWallet(w, s, id).Some?
    ensures PayoutsRight(w, s.orders, PayoutSend(w, s, id, txHash).sent)
  {}

  /** Only two steps send, and each sends one payment. */
  lemma StepSends(w: World, s: Store, e: Event)
    ensures var t := Step(w, s, e);
      t.sent == s.sent
      || (e.PayoutSent? && Enabled(w, s, e) && t == PayoutSend(w, s, e.orderId, e.txHash))
      || (|t.sent| == |s.sent| + 1 && t.sent == s.sent + [t.sent[|s.sent|]] && t.sent[|s.sent|].kind == REFERRAL_REWARD)
  {
    hide Quote, Settle, Bind, Invite, RewardCommit, RewardBegin, PayoutWallet, AssetOf;
    if Enabled(w, s, e) {
      match e
      case Quoting(input, now) => QuoteLeavesRest(w, s, input, now);
      case Settling(orderId, txHash) => SettleKeepsSent(w, s, orderId, txHash);
      case Inviting(player, code, newId) => InviteLeavesRest(s, player, code, newId);
      case Binding(player, code, root, newId) => BindLeavesRest(s, player, code, root, newId);
      case RewardStarted(worker, r) => BeginLeavesRest(w, s, worker, r);
      case RewardCommitted(worker) => CommitKeepsSent(w, s, worker);
      case _ =>
    }
  }

  lemma SettleKeepsSent(w: World, s: Store, orderId: string, txHash: string)
    ensures Settle(w, s, orderId, txHash).0.sent == s.sent
  {
    hide VerifyPayment, QualifyingReferral;
  }

  lemma CommitKeepsSent(w: World, s: Store, worker: nat)
    requires worker in s.workers && !s.workers[worker].Paying? && s.workers[worker].referralId in s.referrals
    ensures RewardCommit(w, s, worker).sent == s.sent
  {}

  lemma {:induction false} PayoutsRightInEveryRun(w: World, s: Store, events: seq<Event>)
    requires Init(w, s)
    ensures PayoutsRight(w, Run(w, s, events).orders, Run(w, s, events).sent)
  {
    hide Step, PayoutsRight, PaidRowsStay, PayoutSend;
    if events == [] {
      NothingIsRight(w, s);
    } else {
      var before, e := events[..|events| - 1], events[|events| - 1];
      PayoutsRightInEveryRun(w, s, before);
      var t := Run(w, s, before);
      var u := Step(w, t, e);
      StepKeepsPaidRows(w, t, e);
      StepSends(w, t, e);
      if u.sent == t.sent {
        MoreSentRight(w, t.orders, u.orders, t.sent, Transfer(SALE_IN, "", "", Native, 0, ""));
      } else if e.PayoutSent? && Enabled(w, t, e) && u == PayoutSend(w, t, e.orderId, e.txHash) {
        PayoutSendRight(w, t, e.orderId, e.txHash);
        PayoutSendKeepsOrders(w, t, e.orderId, e.txHash);
      } else {
        MoreSentRight(w, t.orders, u.orders, t.sent, u.sent[|t.sent|]);
      }
    }
  }

  lemma PayoutSendKeepsOrders(w: World, s: Store, id: string, txHash: string)
    requires PayoutWallet(w, s, id).Some?
    ensures PayoutSend(w, s, id, txHash).orders == s.orders
  {}

  lemma NothingIsRight(w: World, s: Store)
    requires s.sent == []
    ensures PayoutsRight(w, s.orders, s.sent)
  {}

  // ---------------------------------------------------------------- at most one payout

  /** A payout about to be sent is the order's first exactly when no earlier one was lost before it was recorded. */
  lemma NextPayoutIsFirst(w: World, s: Store, events: seq<Event>, id: string, txHash: string)
    requires WorldOk(w) && Init(w, s) && Enabled(w, Run(w, s, events), PayoutSent(id, txHash))
    ensures var t := Step(w, Run(w, s, events), PayoutSent(id, txHash));
      && SentCount(t.sent, PAYOUT_OUT, id) == PayoutsLost(w, s, events, id) + 1
      && (SentCount(t.sent, PAYOUT_OUT, id) == 1 <==> PayoutsLost(w, s, events, id) == 0)
  {
    hide Run, Init, UsageInv, OrderInv, SaleInv, ReferralInv, EntryCount, SentCount, PayoutWallet;
    InitHasInv(w, s);
    RunKeepsInv(w, s, events);
    PayoutsSentInEveryRun(w, s, events, id);
    var b := Run(w, s, events);
    QueueStepBalances(w, b, PayoutSent(id, txHash), id);
  }

  /** If no payout job of the order is given up between sending and recording, at most one payout is ever sent
      for it: the order's share, to the studio's wallet. In general at most one was sent exactly when no job was
      lost so, or one was and none was sent since. */
  lemma OnePayoutPerOrder(w: World, s: Store, events: seq<Event>, id: string)
    requires WorldOk(w) && Init(w, s)
    ensures var t := Run(w, s, events); var lost := PayoutsLost(w, s, events, id);
      && (lost == 0 ==> SentCount(t.sent, PAYOUT_OUT, id) <= 1)
      && (SentCount(t.sent, PAYOUT_OUT, id) <= 1 <==>
            lost == 0 || (lost == 1 && EntryCount(t.ledger, PAYOUT_OUT, id) == 0 && Unrecorded(t.queue, id) == 0))
      && (forall x :: x in t.sent && x.kind == PAYOUT_OUT && x.subject == id ==>
            && id in t.orders && t.orders[id].status == PAID && x.amount == t.orders[id].net
            && t.orders[id].studioId in w.studios && Some(x.dest) == w.studios[t.orders[id].studioId].payoutWallet
            && x.asset == AssetOf(t.orders[id].currency, w.env))
  {
    hide Run, Init, UsageInv, OrderInv, SaleInv, ReferralInv, EntryCount, SentCount;
    InitHasInv(w, s);
    RunKeepsInv(w, s, events);
    PayoutsSentInEveryRun(w, s, events, id);
    PayoutsRightInEveryRun(w, s, events);
    var t := Run(w, s, events);
    assert EntryCount(t.ledger, PAYOUT_OUT, id) <= if id in PaidRows(t.orders) && !PayoutLive(t.queue, id) then 1 else 0;
  }

  // ---------------------------------------------------------------- the account covers what is sent

  /** All payouts sent in one asset. */
  function SentTotal(sent: seq<Transfer>, asset: Asset): int
  {
    if sent == [] then 0
    else
      SentTotal(sent[..|sent| - 1], asset) +
      (if sent[|sent| - 1].kind == PAYOUT_OUT && sent[|sent| - 1].asset == asset then sent[|sent| - 1].amount else 0)
  }

  function SentFor(sent: seq<Transfer>, id: string): int
  {
    if sent == [] then 0
    else
      SentFor(sent[..|sent| - 1], id) +
      (if sent[|sent| - 1].kind == PAYOUT_OUT && sent[|sent| - 1].subject == id then sent[|sent| - 1].amount else 0)
  }

  ghost function SentByOrder(orders: map<string, Order>, sent: seq<Transfer>, c: Currency): map<string, int>
  {
    map id | id in orders && PaidIn(orders, id, c) :: SentFor(sent, id)
  }

  lemma {:induction false} SentForCounts(w: World, orders: map<string, Order>, sent: seq<Transfer>, id: string)
    requires PayoutsRight(w, orders, sent) && id in orders
    ensures SentFor(sent, id) == SentCount(sent, PAYOUT_OUT, id) * orders[id].net
  {
    if sent != [] {
      var before, x := sent[..|sent| - 1], sent[|sent| - 1];
      assert sent == before + [x] && x in sent;
      assert forall y :: y in before ==> y in sent;
      SentForCounts(w, orders, before, id);
      hide PayoutsRight, PayoutTransfer;
      OneMore(SentCount(before, PAYOUT_OUT, id), orders[id].net);
    }
  }

  lemma OneMore(n: int, net: int)
    ensures (n + 1) * net == n * net + net
  {}

  lemma SentForAppend(before: seq<Transfer>, x: Transfer)
    ensures forall id :: SentFor(before + [x], id)
                      == SentFor(before, id) + if x.kind == PAYOUT_OUT && x.subject == id then x.amount else 0
  {
    assert (before + [x])[..|before|] == before;
  }

  lemma SentByOneMore(w: World, orders: map<string, Order>, before: seq<Transfer>, x: Transfer, c: Currency)
    requires x.kind == PAYOUT_OUT ==> x.subject in PaidRows(orders) && x.asset == AssetOf(orders[x.subject].currency, w.env)
    ensures Sum(SentByOrder(orders, before + [x], c))
         == Sum(SentByOrder(orders, before, c)) + if x.kind == PAYOUT_OUT && x.asset == AssetOf(c, w.env) then x.amount else 0
  {
    SentForAppend(before, x);
    hide SentFor;
    var was := SentByOrder(orders, before, c);
    if x.kind == PAYOUT_OUT && PaidIn(orders, x.subject, c) {
      SumUpdate(was, x.subject, was[x.subject] + x.amount);
      assert SentByOrder(orders, before + [x], c) == was[x.subject := was[x.subject] + x.amount];
    } else {
      assert SentByOrder(orders, before + [x], c) == was;
    }
  }

  lemma {:induction false} SentAddsUp(w: World, orders: map<string, Order>, sent: seq<Transfer>, c: Currency)
    requires PayoutsRight(w, orders, sent)
    ensures SentTotal(sent, AssetOf(c, w.env)) == Sum(SentByOrder(orders, sent, c))
  {
    if sent == [] {
      SumOfZeros(SentByOrder(orders, sent, c));
    } else {
      var before, x := sent[..|sent| - 1], sent[|sent| - 1];
      assert sent == before + [x] && x in sent;
      assert forall y :: y in before ==> y in sent;
      SentAddsUp(w, orders, before, c);
      SentByOneMore(w, orders, before, x, c);
    }
  }

  /** What the lost payouts of each order were worth. */
  ghost function LostValue(w: World, s: Store, events: seq<Event>, c: Currency): map<string, int>
  {
    var orders := Run(w, s, events).orders;
    map id | id in orders && PaidIn(orders, id, c) :: PayoutsLost(w, s, events, id) * orders[id].net
  }

  lemma AtMostShare(sent: int, lost: int, net: int)
    requires 0 <= net && sent <= 1 + lost
    ensures sent * net <= net + lost * net
  {
    ScaledBy(1 + lost - sent, net);
    assert (1 + lost - sent) * net == net + lost * net - sent * net;
  }

  lemma ScaledBy(k: int, net: int)
    requires 0 <= k && 0 <= net
    ensures 0 <= k * net
  {}

  lemma OrderCovered(w: World, s: Store, events: seq<Event>, id: string)
    requires WorldOk(w) && Init(w, s) && id in Run(w, s, events).orders && Run(w, s, events).orders[id].status == PAID
    ensures var t := Run(w, s, events); var o := t.orders[id];
      && PaymentOk(w, id, o)
      && o.fee + SentFor(t.sent, id) <= ReceivedFor(w, id, o) + PayoutsLost(w, s, events, id) * o.net
  {
    hide Run, Init, UsageInv, SaleInv, ReferralInv, EntryCount, SentCount, SentFor, PayoutsRight, VerifyPayment, ReceivedFor;
    InitHasInv(w, s);
    RunKeepsInv(w, s, events);
    var t := Run(w, s, events);
    var o := t.orders[id];
    PayoutsSentInEveryRun(w, s, events, id);
    PayoutsRightInEveryRun(w, s, events);
    SentForCounts(w, t.orders, t.sent, id);
    assert EntryCount(t.ledger, PAYOUT_OUT, id) <= if id in PaidRows(t.orders) && !PayoutLive(t.queue, id) then 1 else 0;
    assert AmountsOk(o);
    ReceivedCovers(w, id, o);
    AtMostShare(SentCount(t.sent, PAYOUT_OUT, id), PayoutsLost(w, s, events, id), o.net);
  }

  lemma {:induction false} OrdersCovered(w: World, s: Store, events: seq<Event>)
    requires WorldOk(w) && Init(w, s)
    ensures var t := Run(w, s, events);
      && (forall id :: id in t.orders ==> PaymentOk(w, id, t.orders[id]))
      && (forall id :: id in t.orders && t.orders[id].status == PAID ==>
            t.orders[id].fee + SentFor(t.sent, id)
            <= ReceivedFor(w, id, t.orders[id]) + PayoutsLost(w, s, events, id) * t.orders[id].net)
  {
    hide Run, Init, PayoutsLost, SentFor, ReceivedFor, VerifyPayment, UsageInv, SaleInv, PayoutInv, ReferralInv;
    InitHasInv(w, s);
    RunKeepsInv(w, s, events);
    var t := Run(w, s, events);
    forall id | id in t.orders && t.orders[id].status == PAID
      ensures t.orders[id].fee + SentFor(t.sent, id)
           <= ReceivedFor(w, id, t.orders[id]) + PayoutsLost(w, s, events, id) * t.orders[id].net
    {
      OrderCovered(w, s, events, id);
    }
  }

  /** On the chain itself, in every run and currency: verified payments less all payouts sent hold the fees of the
      paid orders, but for the payouts whose job was lost before recording them. Without such a loss they hold
      them in full. */
  lemma PaymentsCoverPayoutsSent(w: World, s: Store, events: seq<Event>, c: Currency)
    requires WorldOk(w) && Init(w, s)
    ensures var t := Run(w, s, events);
      && (forall id :: id in t.orders ==> PaymentOk(w, id, t.orders[id]))
      && Sum(Received(w, t.orders, c)) + Sum(LostValue(w, s, events, c)) - SentTotal(t.sent, AssetOf(c, w.env))
         >= Sum(Fees(t.orders, c))
      && ((forall id :: PayoutsLost(w, s, events, id) == 0) ==>
            Sum(Received(w, t.orders, c)) - SentTotal(t.sent, AssetOf(c, w.env)) >= Sum(Fees(t.orders, c)))
  {
    hide Run, Init, PayoutsLost, SentFor, SentTotal, ReceivedFor, PayoutsRight, PaymentOk;
    OrdersCovered(w, s, events);
    PayoutsRightInEveryRun(w, s, events);
    var t := Run(w, s, events);
    SentAddsUp(w, t.orders, t.sent, c);
    var fees, out, inn, lost := Fees(t.orders, c), SentByOrder(t.orders, t.sent, c), Received(w, t.orders, c), LostValue(w, s, events, c);
    var spent := map id | id in fees :: fees[id] + out[id];
    var funds := map id | id in fees :: inn[id] + lost[id];
    SumAdd(fees, out, spent);
    SumAdd(inn, lost, funds);
    SumAtMost(spent, funds);
    if forall id :: PayoutsLost(w, s, events, id) == 0 {
      SumOfZeros(lost);
    }
  }

  // ---------------------------------------------------------------- where that ends

  predicate HasWallet(w: World, o: Order)
  {
    o.studioId in w.studios && w.studios[o.studioId].payoutWallet.Some? && w.studios[o.studioId].payoutWallet.value != ""
  }

  /** Sent, given up, freed, and added again by a later ALREADY. */
  function LostAndRepeated(id: string, h1: string, h2: string): seq<Event>
  {
    [Enqueuing(id, None), PayingOut(id), PayoutSent(id, h1), JobGivenUp(PayoutJob(id)), JobRemoved(PayoutJob(id)),
     Enqueuing(id, None), PayingOut(id), PayoutSent(id, h2)]
  }

  // Adding, taking and sending a payout that is not recorded.
  lemma SendOnce(w: World, s: Store, id: string, h: string) returns (t: Store)
    requires id in s.orders && s.orders[id].status == PAID && HasWallet(w, s.orders[id])
    requires EntryCount(s.ledger, PAYOUT_OUT, id) == 0 && PayoutJob(id) !in s.queue
    ensures t == Step(w, Step(w, Step(w, s, Enqueuing(id, None)), PayingOut(id)), PayoutSent(id, h))
    ensures t.orders == s.orders && t.ledger == s.ledger && InState(t, PayoutJob(id), Sent(h))
    ensures t.sent == s.sent + [PayoutTransfer(w, id, s.orders[id], w.studios[s.orders[id].studioId].payoutWallet.value)]
  {
    hide Quote, Settle, Bind, Invite, RewardCommit, RewardBegin, RewardSend, EntryCount, PayoutTransfer;
    var a := Step(w, s, Enqueuing(id, None));
    assert a == s.(queue := a.queue) && InState(a, PayoutJob(id), Waiting);
    var b := Step(w, a, PayingOut(id));
    assert b == s.(queue := b.queue) && InState(b, PayoutJob(id), Sending);
    t := Step(w, b, PayoutSent(id, h));
  }

  lemma LoseJob(w: World, s: Store, id: string) returns (t: Store)
    requires PayoutJob(id) in s.queue
    ensures t == Step(w, Step(w, s, JobGivenUp(PayoutJob(id))), JobRemoved(PayoutJob(id)))
    ensures t == s.(queue := t.queue) && PayoutJob(id) !in t.queue
  {
    hide Quote, Settle, Bind, Invite, RewardCommit, RewardBegin, RewardSend;
    t := Step(w, Step(w, s, JobGivenUp(PayoutJob(id))), JobRemoved(PayoutJob(id)));
  }

  lemma RunThree(w: World, s: Store, a: Event, b: Event, c: Event, rest: seq<Event>)
    ensures Run(w, s, [a, b, c] + rest) == Run(w, Step(w, Step(w, Step(w, s, a), b), c), rest)
  {
    hide Run, Step;
    RunFirst(w, s, a, [b, c] + rest);
    assert [a] + ([b, c] + rest) == [a, b, c] + rest;
    RunFirst(w, Step(w, s, a), b, [c] + rest);
    assert [b] + ([c] + rest) == [b, c] + rest;
    RunFirst(w, Step(w, Step(w, s, a), b), c, rest);
  }

  lemma RepeatedIsSentTwice(w: World, s: Store, id: string, h1: string, h2: string)
    requires id in s.orders && s.orders[id].status == PAID && HasWallet(w, s.orders[id])
    requires EntryCount(s.ledger, PAYOUT_OUT, id) == 0 && PayoutJob(id) !in s.queue
    ensures var x := PayoutTransfer(w, id, s.orders[id], w.studios[s.orders[id].studioId].payoutWallet.value);
      Run(w, s, LostAndRepeated(id, h1, h2)).sent == s.sent + [x, x]
  {
    hide Run, Step, EntryCount, PayoutTransfer;
    var a := SendOnce(w, s, id, h1);
    var b := LoseJob(w, a, id);
    var c := SendOnce(w, b, id, h2);
    var again := [Enqueuing(id, None), PayingOut(id), PayoutSent(id, h2)];
    var lose := [JobGivenUp(PayoutJob(id)), JobRemoved(PayoutJob(id))];
    RunThree(w, s, Enqueuing(id, None), PayingOut(id), PayoutSent(id, h1), lose + again);
    assert [Enqueuing(id, None), PayingOut(id), PayoutSent(id, h1)] + (lose + again) == LostAndRepeated(id, h1, h2);
    RunFirst(w, a, lose[0], lose[1..] + again);
    assert [lose[0]] + (lose[1..] + again) == lose + again;
    RunFirst(w, Step(w, a, lose[0]), lose[1], again);
    assert [lose[1]] + again == lose[1..] + again;
    RunThree(w, b, Enqueuing(id, None), PayingOut(id), PayoutSent(id, h2), []);
    assert again + [] == again;
    RunNothing(w, c);
  }

  lemma RunNothing(w: World, s: Store)
    ensures Run(w, s, []) == s
  {}

  /** A run that pays a studio twice for one order: any pending order whose offered payment arrives is settled,
      its payout is sent, the job is lost before recording it, and a later ALREADY adds the job again. */
  lemma LostPayoutPaysTwice(w: World, s: Store, events: seq<Event>, id: string, txHash: string, at: nat, h1: string, h2: string)
    requires WorldOk(w) && Init(w, s)
    requires var t := Run(w, s, events);
      && id in t.orders && t.orders[id].status == PENDING && PayoutJob(id) !in t.queue && HasWallet(w, t.orders[id])
      && CarriesOffer(w, id, t.orders[id], txHash, at) && UsersOf(t.orders, txHash) - {id} == {}
    ensures var o := Run(w, s, events).orders[id];
      var u := Run(w, s, events + [Settling(id, txHash)] + LostAndRepeated(id, h1, h2));
      var x := PayoutTransfer(w, id, o, w.studios[o.studioId].payoutWallet.value);
      && u.sent == Run(w, s, events).sent + [x, x]
      && SentCount(u.sent, PAYOUT_OUT, id) == 2
      && PayoutsLost(w, s, events + [Settling(id, txHash)] + LostAndRepeated(id, h1, h2), id) >= 1
  {
    hide Run, Init, PayoutsLost, CarriesOffer, LostAndRepeated, PayoutTransfer, SentCount, EntryCount, Step, Inv;
    InitHasInv(w, s);
    RunKeepsInv(w, s, events);
    var t := Run(w, s, events);
    var u := SettledAndRepeated(w, t, id, txHash, at, h1, h2);
    var lost := LostAndRepeated(id, h1, h2);
    RunConcat(w, s, events, [Settling(id, txHash)] + lost);
    assert events + ([Settling(id, txHash)] + lost) == events + [Settling(id, txHash)] + lost;
    NonePaidYet(w, s, events, id);
    SentAppend(t.sent, u.sent[|t.sent|]);
    SentAppend(t.sent + [u.sent[|t.sent|]], u.sent[|t.sent|]);
    assert u.sent == t.sent + [u.sent[|t.sent|]] + [u.sent[|t.sent|]];
    OnePayoutPerOrder(w, s, events + [Settling(id, txHash)] + lost, id);
  }

  lemma {:induction false} NoneOfThem(sent: seq<Transfer>, id: string)
    requires forall x :: x in sent && x.kind == PAYOUT_OUT ==> x.subject != id
    ensures SentCount(sent, PAYOUT_OUT, id) == 0
  {
    if sent != [] {
      assert sent[|sent| - 1] in sent;
      NoneOfThem(sent[..|sent| - 1], id);
    }
  }

  lemma NonePaidYet(w: World, s: Store, events: seq<Event>, id: string)
    requires Init(w, s) && id in Run(w, s, events).orders && Run(w, s, events).orders[id].status != PAID
    ensures SentCount(Run(w, s, events).sent, PAYOUT_OUT, id) == 0
  {
    hide Run, Init, SentCount;
    PayoutsRightInEveryRun(w, s, events);
    NoneOfThem(Run(w, s, events).sent, id);
  }

  lemma StepSettles(w: World, s: Store, id: string, txHash: string)
    ensures Step(w, s, Settling(id, txHash)) == Settle(w, s, id, txHash).0
  {
    hide Settle, Quote;
  }

  lemma SettledAndRepeated(w: World, t: Store, id: string, txHash: string, at: nat, h1: string, h2: string) returns (u: Store)
    requires Inv(w, t) && id in t.orders && t.orders[id].status == PENDING
    requires PayoutJob(id) !in t.queue && HasWallet(w, t.orders[id])
    requires CarriesOffer(w, id, t.orders[id], txHash, at) && UsersOf(t.orders, txHash) - {id} == {}
    ensures u == Run(w, t, [Settling(id, txHash)] + LostAndRepeated(id, h1, h2))
    ensures var o := t.orders[id];
      var x := PayoutTransfer(w, id, o, w.studios[o.studioId].payoutWallet.value);
      u.sent == t.sent + [x, x] && x.kind == PAYOUT_OUT && x.subject == id
  {
    hide Run, UsageInv, OrderInv, SaleInv, ReferralInv, EntryCount, LostAndRepeated, VerifyPayment, QualifyingReferral, Memo.Truncated;
    hide NoneShortBefore, Carries, PageAccepts, Step, RewardTransfer;
    OfferSettles(w, t, id, txHash, at);
    var settled := Settle(w, t, id, txHash).0;
    StepSettles(w, t, id, txHash);
    SettleKeepsPayoutCount(w, t, id, txHash, id);
    SettleKeepsSent(w, t, id, txHash);
    assert id !in PaidRows(t.orders);
    RepeatedIsSentTwice(w, settled, id, h1, h2);
    RunFirst(w, t, Settling(id, txHash), LostAndRepeated(id, h1, h2));
    u := Run(w, settled, LostAndRepeated(id, h1, h2));
  }

  /** A run that ends with a paid order nobody will pay out: its payout job fails before sending and is kept. */
  lemma KeptJobIsReachable(w: World, s: Store, events: seq<Event>, id: string, txHash: string, at: nat)
    requires WorldOk(w) && Init(w, s)
    requires var t := Run(w, s, events);
      && id in t.orders && t.orders[id].status == PENDING && PayoutJob(id) !in t.queue
      && CarriesOffer(w, id, t.orders[id], txHash, at) && UsersOf(t.orders, txHash) - {id} == {}
    ensures var u := Run(w, s, events + [Settling(id, txHash)] + [Enqueuing(id, None)] + [JobGivenUp(PayoutJob(id))]);
      && id in u.orders && u.orders[id].status == PAID
      && EntryCount(u.ledger, PAYOUT_OUT, id) == 0 && IsKept(u.queue, PayoutJob(id))
  {
    hide Run, Step, Init, CarriesOffer, EntryCount, Inv, IsKept;
    InitHasInv(w, s);
    RunKeepsInv(w, s, events);
    var t := Run(w, s, events);
    NoEntryBefore(w, t, id);
    OfferIsSettled(w, t, id, txHash, at);
    var settled := Settle(w, t, id, txHash).0;
    StepSettles(w, t, id, txHash);
    SettleKeepsPayoutCount(w, t, id, txHash, id);
    RunConcat(w, s, events, [Settling(id, txHash)]);
    RunFirst(w, t, Settling(id, txHash), []);
    assert [Settling(id, txHash)] + [] == [Settling(id, txHash)];
    RunNothing(w, settled);
    var a := Step(w, settled, Enqueuing(id, None));
    RunConcat(w, s, events + [Settling(id, txHash)], [Enqueuing(id, None)]);
    RunFirst(w, settled, Enqueuing(id, None), []);
    assert [Enqueuing(id, None)] + [] == [Enqueuing(id, None)];
    RunNothing(w, a);
    var b := Step(w, a, JobGivenUp(PayoutJob(id)));
    RunConcat(w, s, events + [Settling(id, txHash)] + [Enqueuing(id, None)], [JobGivenUp(PayoutJob(id))]);
    RunFirst(w, a, JobGivenUp(PayoutJob(id)), []);
    assert [JobGivenUp(PayoutJob(id))] + [] == [JobGivenUp(PayoutJob(id))];
    RunNothing(w, b);
    GivenUpIsKept(w, settled, id);
  }

  lemma NoEntryBefore(w: World, s: Store, id: string)
    requires Inv(w, s) && id in s.orders && s.orders[id].status != PAID
    ensures EntryCount(s.ledger, PAYOUT_OUT, id) == 0
  {
    hide UsageInv, OrderInv, SaleInv, ReferralInv, EntryCount;
    assert id !in PaidRows(s.orders);
  }

  lemma OfferIsSettled(w: World, s: Store, id: string, txHash: string, at: nat)
    requires id in s.orders && s.orders[id].status == PENDING && CarriesOffer(w, id, s.orders[id], txHash, at)
    requires UsersOf(s.orders, txHash) - {id} == {}
    ensures var t := Settle(w, s, id, txHash).0; id in t.orders && t.orders[id].status == PAID && t.queue == s.queue
  {
    hide VerifyPayment, PageAccepts, NoneShortBefore, Carries, QualifyingReferral, Memo.Truncated;
    OfferSettles(w, s, id, txHash, at);
  }

  lemma GivenUpIsKept(w: World, s: Store, id: string)
    requires id in s.orders && s.orders[id].status == PAID && PayoutJob(id) !in s.queue && EntryCount(s.ledger, PAYOUT_OUT, id) == 0
    ensures var t := Step(w, Step(w, s, Enqueuing(id, None)), JobGivenUp(PayoutJob(id)));
      && t == s.(queue := t.queue) && IsKept(t.queue, PayoutJob(id))
  {
    hide Quote, Settle, Bind, Invite, RewardCommit, RewardBegin, RewardSend, EntryCount;
  }
}
