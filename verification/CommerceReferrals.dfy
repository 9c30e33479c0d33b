/** Referrals over every run: which sale qualifies them, and which rewards really leave the platform account. */
module CommerceReferrals {
  import opened Wrappers
  import opened Stellar
  import opened Commerce
  import opened CommerceInvariants
  import opened CommerceTheorems
  import opened CommercePayments

  // ---------------------------------------------------------------- the first sale

  /** The sale of `id` is the first one the ledger records for the player. */
  ghost predicate IsFirstSale(orders: map<string, Order>, ledger: seq<Entry>, playerId: string, id: string)
  {
    && id in orders && orders[id].playerId == playerId && orders[id].status == PAID
    && exists i :: 0 <= i < |ledger| && OpensWith(orders, ledger, playerId, id, i)
  }

  ghost predicate OpensWith(orders: map<string, Order>, ledger: seq<Entry>, playerId: string, id: string, i: nat)
    requires i < |ledger|
  {
    && ledger[i].kind == SALE_IN && ledger[i].subject == id
    && forall j :: 0 <= j < i ==> !IsSaleOf(orders, ledger[j], playerId)
  }

  predicate IsSaleOf(orders: map<string, Order>, e: Entry, playerId: string)
  {
    e.kind == SALE_IN && e.subject in orders && orders[e.subject].status == PAID && orders[e.subject].playerId == playerId
  }

  ghost predicate QualifiedByFirst(s: Store)
  {
    forall r :: r in s.referrals && s.referrals[r].status != INVITED ==>
      && s.referrals[r].refereeId.Some? && s.referrals[r].qualifyingOrderId.Some?
      && IsFirstSale(s.orders, s.ledger, s.referrals[r].refereeId.value, s.referrals[r].qualifyingOrderId.value)
  }

  /** Sales on the ledger are of paid orders, and orders on it stay paid. */
  lemma FirstSaleStays(orders: map<string, Order>, ledger: seq<Entry>, orders': map<string, Order>, ledger': seq<Entry>,
                       playerId: string, id: string)
    requires IsFirstSale(orders, ledger, playerId, id)
    requires ledger <= ledger' && PaidRowsStay(orders, orders')
    requires forall e :: e in ledger && e.kind == SALE_IN ==> e.subject in orders && orders[e.subject].status == PAID
    ensures IsFirstSale(orders', ledger', playerId, id)
  {
    var i :| 0 <= i < |ledger| && OpensWith(orders, ledger, playerId, id, i);
    forall j | 0 <= j < i
      ensures !IsSaleOf(orders', ledger'[j], playerId)
    {
      assert ledger[j] in ledger && ledger'[j] == ledger[j] && !IsSaleOf(orders, ledger[j], playerId);
    }
    assert OpensWith(orders', ledger', playerId, id, i);
  }

  lemma SalesArePaid(w: World, s: Store)
    requires Inv(w, s)
    ensures forall e :: e in s.ledger && e.kind == SALE_IN ==> e.subject in s.orders && s.orders[e.subject].status == PAID
  {
    hide UsageInv, OrderInv, PayoutInv, ReferralInv;
    forall e | e in s.ledger && e.kind == SALE_IN
      ensures e.subject in s.orders && s.orders[e.subject].status == PAID
    {
      assert e.subject in PaidRows(s.orders);
    }
  }

  // A settlement that qualifies a referral appends the buyer's first sale.
  lemma QualifyingSaleIsFirst(w: World, s: Store, orderId: string, txHash: string)
    requires Inv(w, s) && Settle(w, s, orderId, txHash).1.Settled? && Settle(w, s, orderId, txHash).1.referralId.Some?
    ensures var t := Settle(w, s, orderId, txHash).0; IsFirstSale(t.orders, t.ledger, s.orders[orderId].playerId, orderId)
  {
    hide VerifyPayment, Inv;
    SettlementQualifies(w, s, orderId, txHash);
    SalesArePaid(w, s);
    hide QualifyingReferral;
    var t := Settle(w, s, orderId, txHash).0;
    var playerId := s.orders[orderId].playerId;
    forall j | 0 <= j < |s.ledger|
      ensures !IsSaleOf(t.orders, t.ledger[j], playerId)
    {
      assert t.ledger[j] == s.ledger[j] && s.ledger[j] in s.ledger;
    }
    assert OpensWith(t.orders, t.ledger, playerId, orderId, |s.ledger|);
  }

  lemma SettleKeepsFirst(w: World, s: Store, orderId: string, txHash: string)
    requires Inv(w, s) && QualifiedByFirst(s)
    ensures QualifiedByFirst(Settle(w, s, orderId, txHash).0)
  {
    hide VerifyPayment, Inv, IsFirstSale, PaidRowsStay;
    SettlesExactly(w, s, orderId, txHash);
    var (t, out) := Settle(w, s, orderId, txHash);
    if out.Settled? {
      SettlementQualifies(w, s, orderId, txHash);
      hide QualifyingReferral;
      if out.referralId.Some? {
        QualifyingSaleIsFirst(w, s, orderId, txHash);
      }
      SalesArePaid(w, s);
      SettleKeepsPaidRows(w, s, orderId, txHash);
      forall r | r in t.referrals && t.referrals[r].status != INVITED && out.referralId != Some(r)
        ensures && t.referrals[r].refereeId.Some? && t.referrals[r].qualifyingOrderId.Some?
                && IsFirstSale(t.orders, t.ledger, t.referrals[r].refereeId.value, t.referrals[r].qualifyingOrderId.value)
      {
        FirstSaleStays(s.orders, s.ledger, t.orders, t.ledger,
                       s.referrals[r].refereeId.value, s.referrals[r].qualifyingOrderId.value);
      }
    }
  }

  lemma SettleKeepsPaidRows(w: World, s: Store, orderId: string, txHash: string)
    ensures PaidRowsStay(s.orders, Settle(w, s, orderId, txHash).0.orders)
    ensures s.ledger <= Settle(w, s, orderId, txHash).0.ledger
  {
    hide VerifyPayment, QualifyingReferral;
  }

  // Any step that moves no referral out of INVITED.
  lemma OthersKeepFirst(w: World, s: Store, t: Store)
    requires Inv(w, s) && QualifiedByFirst(s) && s.ledger <= t.ledger && PaidRowsStay(s.orders, t.orders)
    requires forall r :: r in t.referrals && t.referrals[r].status != INVITED ==>
      && r in s.referrals && s.referrals[r].status != INVITED
      && t.referrals[r].refereeId == s.referrals[r].refereeId
      && t.referrals[r].qualifyingOrderId == s.referrals[r].qualifyingOrderId
    ensures QualifiedByFirst(t)
  {
    hide Inv, IsFirstSale, PaidRowsStay;
    SalesArePaid(w, s);
    forall r | r in t.referrals && t.referrals[r].status != INVITED
      ensures IsFirstSale(t.orders, t.ledger, t.referrals[r].refereeId.value, t.referrals[r].qualifyingOrderId.value)
    {
      FirstSaleStays(s.orders, s.ledger, t.orders, t.ledger,
                     s.referrals[r].refereeId.value, s.referrals[r].qualifyingOrderId.value);
    }
  }

  /** Only settlements move a referral out of the pending state. */
  lemma OnlySettlingQualifies(w: World, s: Store, e: Event, r: string)
    requires Inv(w, s) && !(e.Settling? && Enabled(w, s, e))
    requires r in Step(w, s, e).referrals && Step(w, s, e).referrals[r].status != INVITED
    ensures var t := Step(w, s, e);
      && r in s.referrals && s.referrals[r].status != INVITED
      && t.referrals[r].refereeId == s.referrals[r].refereeId
      && t.referrals[r].qualifyingOrderId == s.referrals[r].qualifyingOrderId
  {
    hide Quote, Settle, Bind, Invite, Join, RewardCommit, RewardBegin, RewardSend, Enqueue, PayoutRecord, PayoutSend, PayoutBegin;
    hide UsageInv, OrderInv, SaleInv, PayoutInv, ReferralInv;
    if Enabled(w, s, e) {
      match e
      case Quoting(input, now) => QuoteLeavesRest(w, s, input, now);
      case Inviting(player, code, newId) => InviteAddsInvited(s, player, code, newId);
      case Binding(player, code, root, newId) => BindAddsInvited(s, player, code, root, newId);
      case RewardCommitted(worker) => CommitClosesQualified(w, s, worker);
      case _ => OtherStepsLeaveReferrals(w, s, e);
    }
  }

  lemma InviteAddsInvited(s: Store, playerId: string, code: string, newId: string)
    ensures var t := Invite(s, playerId, code, newId);
      forall r :: r in t.referrals && t.referrals[r].status != INVITED ==> r in s.referrals && t.referrals[r] == s.referrals[r]
  {
    hide CodeTaken;
  }

  lemma BindAddsInvited(s: Store, playerId: string, code: string, root: Option<string>, newId: string)
    requires root.Some? ==> root.value in s.referrals
    ensures var t := Bind(s, playerId, code, root, newId).0;
      forall r :: r in t.referrals && t.referrals[r].status != INVITED ==> r in s.referrals && t.referrals[r] == s.referrals[r]
  {
    hide CodeTaken;
  }

  lemma CommitClosesQualified(w: World, s: Store, worker: nat)
    requires Inv(w, s) && worker in s.workers && !s.workers[worker].Paying? && s.workers[worker].referralId in s.referrals
    ensures var t := RewardCommit(w, s, worker);
      forall r :: r in t.referrals && t.referrals[r].status != INVITED ==>
        && r in s.referrals && s.referrals[r].status != INVITED
        && t.referrals[r].refereeId == s.referrals[r].refereeId
        && t.referrals[r].qualifyingOrderId == s.referrals[r].qualifyingOrderId
  {
    hide UsageInv, OrderInv, SaleInv, PayoutInv, RewardDisabled;
    assert WorkerOk(w, s.referrals, s.workers[worker]);
    hide ReferralInv;
  }

  lemma StepKeepsLedger(w: World, s: Store, e: Event)
    ensures s.ledger <= Step(w, s, e).ledger
  {
    hide Quote, Settle, Bind, Invite, Join, RewardCommit, RewardBegin, RewardSend, Enqueue, PayoutRecord, PayoutSend, PayoutBegin;
    if Enabled(w, s, e) {
      match e
      case Quoting(input, now) => QuoteLeavesRest(w, s, input, now);
      case Settling(orderId, txHash) => SettleKeepsPaidRows(w, s, orderId, txHash);
      case RewardCommitted(worker) => CommitGrows(w, s, worker);
      case _ => OtherStepsGrow(w, s, e);
    }
  }

  lemma StepKeepsFirst(w: World, s: Store, e: Event)
    requires Inv(w, s) && QualifiedByFirst(s)
    ensures QualifiedByFirst(Step(w, s, e))
  {
    hide Step, Inv, QualifiedByFirst, PaidRowsStay, Enabled;
    if e.Settling? && Enabled(w, s, e) {
      SettleKeepsFirst(w, s, e.orderId, e.txHash);
      StepSettles(w, s, e.orderId, e.txHash);
    } else {
      var t := Step(w, s, e);
      StepKeepsLedger(w, s, e);
      StepKeepsPaidRows(w, s, e);
      forall r | r in t.referrals && t.referrals[r].status != INVITED
        ensures && r in s.referrals && s.referrals[r].status != INVITED
                && t.referrals[r].refereeId == s.referrals[r].refereeId
                && t.referrals[r].qualifyingOrderId == s.referrals[r].qualifyingOrderId
      {
        OnlySettlingQualifies(w, s, e, r);
      }
      OthersKeepFirst(w, s, t);
    }
  }

  /** In every run a referral that has left the pending state was qualified by the first sale the ledger records
      for its referee. */
  lemma {:induction false} FirstSaleQualifies(w: World, s: Store, events: seq<Event>)
    requires WorldOk(w) && Init(w, s)
    ensures QualifiedByFirst(Run(w, s, events))
  {
    hide Step, Inv, WorldOk, IsFirstSale;
    InitHasInv(w, s);
    if events != [] {
      var before := events[..|events| - 1];
      FirstSaleQualifies(w, s, before);
      RunKeepsInv(w, s, before);
      hide QualifiedByFirst, Init;
      StepKeepsFirst(w, Run(w, s, before), events[|events| - 1]);
    }
  }

  /** Bound too late: a referral that is still pending when its referee has a paid order stays pending for good. */
  lemma {:induction false} TooLateStaysPending(w: World, s: Store, events: seq<Event>, r: string, id: string)
    requires WorldOk(w) && Inv(w, s) && r in s.referrals && s.referrals[r].status == INVITED
    requires id in s.orders && s.orders[id].status == PAID && s.referrals[r].refereeId == Some(s.orders[id].playerId)
    ensures var t := Run(w, s, events);
      && r in t.referrals && t.referrals[r].status == INVITED
      && t.referrals[r].refereeId == s.referrals[r].refereeId
  {
    hide Step, Inv, WorldOk, MovesTo;
    if events != [] {
      var before, e := events[..|events| - 1], events[|events| - 1];
      TooLateStaysPending(w, s, before, r, id);
      RunKeepsInv(w, s, before);
      RunGrows(w, s, before, id);
      StepStaysPending(w, Run(w, s, before), e, r, id);
    }
  }

  lemma StepStaysPending(w: World, s: Store, e: Event, r: string, id: string)
    requires Inv(w, s) && r in s.referrals && s.referrals[r].status == INVITED
    requires id in s.orders && s.orders[id].status == PAID && s.referrals[r].refereeId == Some(s.orders[id].playerId)
    ensures var t := Step(w, s, e);
      r in t.referrals && t.referrals[r].status == INVITED && t.referrals[r].refereeId == s.referrals[r].refereeId
  {
    hide Step, Inv, Enabled;
    StepMovesReferrals(w, s, e);
    if e.Settling? && Enabled(w, s, e) {
      StepSettles(w, s, e.orderId, e.txHash);
      SettlesExactly(w, s, e.orderId, e.txHash);
      if Settle(w, s, e.orderId, e.txHash).1.Settled? {
        SettlementQualifies(w, s, e.orderId, e.txHash);
      }
    } else if Step(w, s, e).referrals[r].status != INVITED {
      OnlySettlingQualifies(w, s, e, r);
    }
  }

  // ---------------------------------------------------------------- rewards sent

  function OpenRuns(workers: map<nat, Rewarding>, r: string): set<nat>
  {
    set k | k in workers && workers[k].referralId == r
  }

  /** Runs of the reward job that have paid for the referral and not closed it yet. */
  function PaidRuns(workers: map<nat, Rewarding>, r: string): set<nat>
  {
    set k | k in workers && workers[k].Paid? && workers[k].referralId == r
  }

  /** A run that has paid is lost, or finds the referral closed already. */
  predicate WastesReward(s: Store, e: Event, r: string)
  {
    && (e.RewardLost? || e.RewardCommitted?) && e.worker in PaidRuns(s.workers, r)
    && (e.RewardLost? || (r in s.referrals && s.referrals[r].status != QUALIFIED))
  }

  ghost function RewardsWasted(w: World, s: Store, events: seq<Event>, r: string): nat
  {
    if events == [] then 0
    else
      var before := events[..|events| - 1];
      RewardsWasted(w, s, before, r) + if WastesReward(Run(w, s, before), events[|events| - 1], r) then 1 else 0
  }

  function RewardBalance(s: Store, r: string): int
  {
    SentCount(s.sent, REFERRAL_REWARD, r) - EntryCount(s.ledger, REFERRAL_REWARD, r) - |PaidRuns(s.workers, r)|
  }

  lemma OneMoreRun(workers: map<nat, Rewarding>, k: nat, work: Rewarding, r: string)
    requires k in workers ==> !workers[k].Paid?
    ensures |PaidRuns(workers[k := work], r)| == |PaidRuns(workers, r)| + if work.Paid? && work.referralId == r then 1 else 0
  {
    if work.Paid? && work.referralId == r {
      assert PaidRuns(workers[k := work], r) == PaidRuns(workers, r) + {k};
    } else {
      assert PaidRuns(workers[k := work], r) == PaidRuns(workers, r);
    }
  }

  lemma OneRunLess(workers: map<nat, Rewarding>, k: nat, r: string)
    requires k in workers
    ensures |PaidRuns(workers - {k}, r)| == |PaidRuns(workers, r)| - if k in PaidRuns(workers, r) then 1 else 0
  {
    if k in PaidRuns(workers, r) {
      assert PaidRuns(workers, r) == PaidRuns(workers - {k}, r) + {k};
    } else {
      assert PaidRuns(workers - {k}, r) == PaidRuns(workers, r);
    }
  }

  lemma BeginBalances(w: World, s: Store, worker: nat, referralId: string, r: string)
    requires worker !in s.workers
    ensures RewardBalance(RewardBegin(w, s, worker, referralId), r) == RewardBalance(s, r)
  {
    hide PaidRuns, SentCount, EntryCount, RewardDisabled;
    if RewardPlan(w, s, referralId).Some? {
      OneMoreRun(s.workers, worker, RewardPlan(w, s, referralId).value, r);
    }
  }

  lemma SendBalances(w: World, s: Store, worker: nat, txHash: string, r: string)
    requires worker in s.workers && s.workers[worker].Paying?
    ensures RewardBalance(RewardSend(w, s, worker, txHash), r) == RewardBalance(s, r)
  {
    hide PaidRuns, SentCount, EntryCount;
    var t := RewardSend(w, s, worker, txHash);
    SentAppend(s.sent, t.sent[|s.sent|]);
    OneMoreRun(s.workers, worker, t.workers[worker], r);
  }

  lemma CloseBalances(w: World, s: Store, worker: nat, r: string)
    requires worker in s.workers && !s.workers[worker].Paying? && s.workers[worker].referralId in s.referrals
    ensures RewardBalance(RewardCommit(w, s, worker), r)
         == RewardBalance(s, r) + if WastesReward(s, RewardCommitted(worker), r) then 1 else 0
  {
    hide SentCount, EntryCount;
    var t := RewardCommit(w, s, worker);
    OneRunLess(s.workers, worker, r);
    if t.ledger != s.ledger {
      CountAppend(s.ledger, t.ledger[|s.ledger|]);
    }
  }

  lemma OtherStepsBalance(w: World, s: Store, e: Event, r: string)
    requires Enabled(w, s, e) && !e.Quoting? && !e.Settling? && !e.Inviting? && !e.Binding?
    requires !e.RewardStarted? && !e.RewardSent? && !e.RewardCommitted? && !e.RewardLost?
    ensures RewardBalance(Step(w, s, e), r) == RewardBalance(s, r) && Step(w, s, e).workers == s.workers
  {
    hide Quote, Settle, Bind, Invite, RewardCommit, RewardBegin, RewardSend, EntryCount, SentCount, PaidRuns, PayoutWallet;
    var t := Step(w, s, e);
    match e
    case PayoutSent(_, _) => SentAppend(s.sent, t.sent[|s.sent|]);
    case PayoutRecorded(_) => CountAppend(s.ledger, t.ledger[|s.ledger|]);
    case _ =>
  }

  lemma SettleKeepsRewards(w: World, s: Store, orderId: string, txHash: string, r: string)
    ensures RewardBalance(Settle(w, s, orderId, txHash).0, r) == RewardBalance(s, r)
    ensures Settle(w, s, orderId, txHash).0.workers == s.workers
  {
    hide VerifyPayment, QualifyingReferral, SentCount, EntryCount, PaidRuns;
    var t := Settle(w, s, orderId, txHash).0;
    if t != s { CountAppend(s.ledger, t.ledger[|s.ledger|]); }
  }

  lemma StepBalancesRewards(w: World, s: Store, e: Event, r: string)
    ensures RewardBalance(Step(w, s, e), r)
         == RewardBalance(s, r) + if Enabled(w, s, e) && WastesReward(s, e, r) then 1 else 0
  {
    hide Quote, Settle, Bind, Invite, Join, RewardCommit, RewardBegin, RewardSend, Enqueue, PayoutRecord, PayoutSend, PayoutBegin;
    hide EntryCount, SentCount, PaidRuns;
    if Enabled(w, s, e) {
      match e
      case Quoting(input, now) => QuoteLeavesRest(w, s, input, now);
      case Settling(orderId, txHash) => SettleKeepsRewards(w, s, orderId, txHash, r);
      case Inviting(player, code, newId) => InviteLeavesRest(s, player, code, newId);
      case Binding(player, code, root, newId) => BindLeavesRest(s, player, code, root, newId);
      case RewardStarted(worker, q) => BeginBalances(w, s, worker, q, r);
      case RewardSent(worker, txHash) => SendBalances(w, s, worker, txHash, r);
      case RewardCommitted(worker) => CloseBalances(w, s, worker, r);
      case RewardLost(worker) => OneRunLess(s.workers, worker, r);
      case _ => OtherStepsBalance(w, s, e, r);
    }
  }

  lemma WastingIsEnabled(w: World, s: Store, e: Event, r: string)
    requires WastesReward(s, e, r) && r in s.referrals
    ensures Enabled(w, s, e)
  {
    hide Quote, ValidQuote;
  }

  // A reward run is always for a stored referral.
  lemma RunsHaveReferrals(w: World, s: Store, r: string)
    requires Inv(w, s) && PaidRuns(s.workers, r) != {}
    ensures r in s.referrals
  {
    hide UsageInv, OrderInv, SaleInv, PayoutInv;
    var k :| k in PaidRuns(s.workers, r);
    assert WorkerOk(w, s.referrals, s.workers[k]);
  }

  /** In every run the rewards sent for a referral are the one recorded, those sent and not closed yet, and those
      of runs that were lost after sending or came second. */
  lemma {:induction false} RewardsSentInEveryRun(w: World, s: Store, events: seq<Event>, r: string)
    requires WorldOk(w) && Init(w, s)
    ensures var t := Run(w, s, events);
      SentCount(t.sent, REFERRAL_REWARD, r)
      == EntryCount(t.ledger, REFERRAL_REWARD, r) + |PaidRuns(t.workers, r)| + RewardsWasted(w, s, events, r)
  {
    hide Step, Enabled, EntryCount, SentCount, PaidRuns, WorldOk, Inv, WastesReward;
    InitHasInv(w, s);
    if events == [] {
      NoRewardSentYet(s, r);
    } else {
      var before, e := events[..|events| - 1], events[|events| - 1];
      RewardsSentInEveryRun(w, s, before, r);
      RunKeepsInv(w, s, before);
      var t := Run(w, s, before);
      StepBalancesRewards(w, t, e, r);
      if WastesReward(t, e, r) {
        WastesPaid(t, e, r);
        RunsHaveReferrals(w, t, r);
        WastingIsEnabled(w, t, e, r);
      }
    }
  }

  lemma WastesPaid(s: Store, e: Event, r: string)
    requires WastesReward(s, e, r)
    ensures PaidRuns(s.workers, r) != {}
  {}

  lemma NoRewardSentYet(s: Store, r: string)
    requires s.sent == [] && s.ledger == [] && s.workers == map[]
    ensures SentCount(s.sent, REFERRAL_REWARD, r) == EntryCount(s.ledger, REFERRAL_REWARD, r) == |PaidRuns(s.workers, r)| == 0
  {
    assert PaidRuns(s.workers, r) == {};
  }

  /** A reward about to be sent is the referral's first exactly when none is recorded, no other run has paid, and
      none was wasted before. */
  lemma NextRewardIsFirst(w: World, s: Store, events: seq<Event>, worker: nat, txHash: string)
    requires WorldOk(w) && Init(w, s) && Enabled(w, Run(w, s, events), RewardSent(worker, txHash))
    ensures var b := Run(w, s, events); var r := b.workers[worker].referralId;
      SentCount(Step(w, b, RewardSent(worker, txHash)).sent, REFERRAL_REWARD, r) == 1
      <==> !Rewarded(b.referrals, r) && PaidRuns(b.workers, r) == {} && RewardsWasted(w, s, events, r) == 0
  {
    hide Run, Init, UsageInv, OrderInv, SaleInv, PayoutInv, EntryCount, SentCount;
    InitHasInv(w, s);
    RunKeepsInv(w, s, events);
    var b := Run(w, s, events);
    var r := b.workers[worker].referralId;
    assert WorkerOk(w, b.referrals, b.workers[worker]);
    RewardsSentInEveryRun(w, s, events, r);
    assert EntryCount(b.ledger, REFERRAL_REWARD, r) == if Rewarded(b.referrals, r) then 1 else 0;
    var t := RewardSend(w, b, worker, txHash);
    SentAppend(b.sent, t.sent[|b.sent|]);
  }

  // ---------------------------------------------------------------- one reward at a time

  /** No run for the referral starts while another is open, and none is lost after sending. */
  ghost predicate OneAtATime(w: World, s: Store, events: seq<Event>, r: string)
  {
    events == [] ||
    var before, e := events[..|events| - 1], events[|events| - 1];
    var t := Run(w, s, before);
    && OneAtATime(w, s, before, r)
    && (e.RewardStarted? && e.referralId == r ==> OpenRuns(t.workers, r) == {})
    && (e.RewardLost? ==> e.worker !in PaidRuns(t.workers, r))
  }

  /** The one open run, if any, still finds the referral qualified. */
  ghost predicate Alone(s: Store, r: string)
  {
    && (forall j, k :: j in OpenRuns(s.workers, r) && k in OpenRuns(s.workers, r) ==> j == k)
    && (OpenRuns(s.workers, r) != {} ==> r in s.referrals && s.referrals[r].status == QUALIFIED)
  }

  lemma BeginStaysAlone(w: World, s: Store, worker: nat, referralId: string, r: string)
    requires Alone(s, r) && worker !in s.workers && (referralId == r ==> OpenRuns(s.workers, r) == {})
    ensures Alone(RewardBegin(w, s, worker, referralId), r)
  {
    hide RewardDisabled;
    var t := RewardBegin(w, s, worker, referralId);
    if referralId == r {
      assert forall k :: k in OpenRuns(t.workers, r) ==> k == worker || k in OpenRuns(s.workers, r);
    } else {
      assert OpenRuns(t.workers, r) == OpenRuns(s.workers, r);
    }
  }

  lemma SendStaysAlone(w: World, s: Store, worker: nat, txHash: string, r: string)
    requires Alone(s, r) && worker in s.workers && s.workers[worker].Paying?
    ensures Alone(RewardSend(w, s, worker, txHash), r)
  {
    assert OpenRuns(RewardSend(w, s, worker, txHash).workers, r) == OpenRuns(s.workers, r);
  }

  lemma CloseStaysAlone(w: World, s: Store, worker: nat, r: string)
    requires Alone(s, r) && worker in s.workers && !s.workers[worker].Paying? && s.workers[worker].referralId in s.referrals
    ensures Alone(RewardCommit(w, s, worker), r)
    ensures !WastesReward(s, RewardCommitted(worker), r)
  {
    var t := RewardCommit(w, s, worker);
    assert OpenRuns(t.workers, r) == OpenRuns(s.workers, r) - {worker};
    if s.workers[worker].referralId == r {
      assert worker in OpenRuns(s.workers, r);
      assert OpenRuns(t.workers, r) == {};
    }
  }

  lemma SettleStaysAlone(w: World, s: Store, orderId: string, txHash: string, r: string)
    requires Alone(s, r)
    ensures Alone(Settle(w, s, orderId, txHash).0, r)
  {
    hide VerifyPayment, OpenRuns;
    SettlesExactly(w, s, orderId, txHash);
    var (t, out) := Settle(w, s, orderId, txHash);
    if out.Settled? {
      SettlementQualifies(w, s, orderId, txHash);
      SettleKeepsRewards(w, s, orderId, txHash, r);
    }
  }

  lemma OthersStayAlone(s: Store, t: Store, r: string)
    requires Alone(s, r) && t.workers == s.workers && forall q :: q in s.referrals ==> q in t.referrals && t.referrals[q] == s.referrals[q]
    ensures Alone(t, r)
  {
    hide OpenRuns;
  }

  lemma StepStaysAlone(w: World, s: Store, e: Event, r: string)
    requires Inv(w, s) && Alone(s, r) && Enabled(w, s, e)
    requires e.RewardStarted? && e.referralId == r ==> OpenRuns(s.workers, r) == {}
    requires e.RewardLost? ==> e.worker !in PaidRuns(s.workers, r)
    ensures Alone(Step(w, s, e), r) && !WastesReward(s, e, r)
  {
    hide Quote, Settle, Bind, Invite, Join, RewardCommit, RewardBegin, RewardSend, Enqueue, PayoutRecord, PayoutSend, PayoutBegin;
    hide Inv, Alone, PaidRuns, OpenRuns;
    match e
    case Quoting(input, now) => QuoteLeavesRest(w, s, input, now); OthersStayAlone(s, Step(w, s, e), r);
    case Settling(orderId, txHash) => SettleStaysAlone(w, s, orderId, txHash, r);
    case Inviting(player, code, newId) =>
      InviteKeepsOthers(s, player, code, newId);
      OthersStayAlone(s, Step(w, s, e), r);
    case Binding(player, code, root, newId) =>
      BindKeepsOthers(s, player, code, root, newId);
      OthersStayAlone(s, Step(w, s, e), r);
    case RewardStarted(worker, q) => BeginStaysAlone(w, s, worker, q, r);
    case RewardSent(worker, txHash) => SendStaysAlone(w, s, worker, txHash, r);
    case RewardCommitted(worker) => CloseStaysAlone(w, s, worker, r);
    case RewardLost(worker) => LossStaysAlone(s, worker, r);
    case _ =>
      OtherStepsBalance(w, s, e, r);
      OtherStepsLeaveReferrals(w, s, e);
      OthersStayAlone(s, Step(w, s, e), r);
  }

  lemma LossStaysAlone(s: Store, worker: nat, r: string)
    requires Alone(s, r)
    ensures Alone(s.(workers := s.workers - {worker}), r)
  {
    assert forall k :: k in OpenRuns(s.workers - {worker}, r) ==> k in OpenRuns(s.workers, r);
  }

  lemma InviteKeepsOthers(s: Store, playerId: string, code: string, newId: string)
    requires newId !in s.referrals
    ensures var t := Invite(s, playerId, code, newId);
      t.workers == s.workers && forall q :: q in s.referrals ==> q in t.referrals && t.referrals[q] == s.referrals[q]
  {
    hide CodeTaken;
  }

  lemma BindKeepsOthers(s: Store, playerId: string, code: string, root: Option<string>, newId: string)
    requires (root.Some? ==> root.value in s.referrals) && newId !in s.referrals
    ensures var t := Bind(s, playerId, code, root, newId).0;
      t.workers == s.workers && forall q :: q in s.referrals ==> q in t.referrals && t.referrals[q] == s.referrals[q]
  {
    hide CodeTaken;
  }

  lemma {:induction false} NothingWasted(w: World, s: Store, events: seq<Event>, r: string)
    requires WorldOk(w) && Init(w, s) && OneAtATime(w, s, events, r)
    ensures Alone(Run(w, s, events), r) && RewardsWasted(w, s, events, r) == 0
  {
    hide Step, Enabled, PaidRuns, WorldOk, Inv, WastesReward, Alone, OpenRuns;
    InitHasInv(w, s);
    if events == [] {
      NobodyOpen(s, r);
    } else {
      var before, e := events[..|events| - 1], events[|events| - 1];
      NothingWasted(w, s, before, r);
      RunKeepsInv(w, s, before);
      var t := Run(w, s, before);
      if Enabled(w, t, e) {
        StepStaysAlone(w, t, e, r);
      } else {
        DisabledStep(w, t, e);
        if WastesReward(t, e, r) {
          WastesPaid(t, e, r);
          RunsHaveReferrals(w, t, r);
          WastingIsEnabled(w, t, e, r);
        }
      }
    }
  }

  lemma DisabledStep(w: World, s: Store, e: Event)
    requires !Enabled(w, s, e)
    ensures Step(w, s, e) == s
  {}

  lemma NobodyOpen(s: Store, r: string)
    requires s.workers == map[]
    ensures Alone(s, r)
  {}

  /** If no run of the reward job starts while another for the referral is open, and none is lost after sending,
      at most one reward is ever sent for it, and the ledger or the one open run accounts for it. */
  lemma OneRewardPerReferral(w: World, s: Store, events: seq<Event>, r: string)
    requires WorldOk(w) && Init(w, s) && OneAtATime(w, s, events, r)
    ensures var t := Run(w, s, events);
      && SentCount(t.sent, REFERRAL_REWARD, r) <= 1
      && (SentCount(t.sent, REFERRAL_REWARD, r) == 1 <==>
            EntryCount(t.ledger, REFERRAL_REWARD, r) == 1 || PaidRuns(t.workers, r) != {})
  {
    hide Run, Init, OneAtATime, UsageInv, OrderInv, SaleInv, PayoutInv, EntryCount, SentCount;
    InitHasInv(w, s);
    RunKeepsInv(w, s, events);
    RewardsSentInEveryRun(w, s, events, r);
    NothingWasted(w, s, events, r);
    var t := Run(w, s, events);
    assert EntryCount(t.ledger, REFERRAL_REWARD, r) == if Rewarded(t.referrals, r) then 1 else 0;
    if PaidRuns(t.workers, r) != {} {
      var k :| k in PaidRuns(t.workers, r);
      assert k in OpenRuns(t.workers, r);
      assert ReferralOk(w, PaidRows(t.orders), t.players, t.referrals[r]);
      forall j | j in PaidRuns(t.workers, r)
        ensures j == k
      {
        assert j in OpenRuns(t.workers, r);
      }
      assert PaidRuns(t.workers, r) == {k};
    }
  }

  // ---------------------------------------------------------------- what a reward is

  predicate RewardKnown(s: Store, r: string)
  {
    && r in s.referrals && s.referrals[r].referrerId in s.players
    && (s.referrals[r].status == QUALIFIED || s.referrals[r].status == REWARDED)
  }

  /** The reward a qualified referral earns. */
  function RewardOf(w: World, s: Store, r: string): Transfer
    requires RewardKnown(s, r)
  {
    var row := s.referrals[r];
    RewardTransfer(w, r, RewardAmount(w, row), RewardCurrency(w, s.orders, row), s.players[row.referrerId].wallet)
  }

  ghost predicate WorkRight(w: World, s: Store, work: Rewarding)
  {
    work.Waiving? ||
    (RewardKnown(s, work.referralId)
     && RewardTransfer(w, work.referralId, work.amount, work.currency, work.dest) == RewardOf(w, s, work.referralId))
  }

  ghost predicate RewardsRight(w: World, s: Store)
  {
    && (forall x :: x in s.sent && x.kind == REFERRAL_REWARD ==> RewardKnown(s, x.subject) && x == RewardOf(w, s, x.subject))
    && (forall k :: k in s.workers ==> WorkRight(w, s, s.workers[k]))
  }

  ghost predicate PlayersStay(a: map<string, Player>, b: map<string, Player>)
  {
    forall p :: p in a ==> p in b && b[p].wallet == a[p].wallet
  }

  lemma StepKeepsPlayers(w: World, s: Store, e: Event)
    ensures PlayersStay(s.players, Step(w, s, e).players)
  {
    hide Quote, Settle, Bind, Invite, RewardCommit, RewardBegin, RewardSend, Enqueue, PayoutRecord, PayoutSend, PayoutBegin;
    if Enabled(w, s, e) {
      match e
      case Quoting(input, now) => QuoteLeavesRest(w, s, input, now);
      case Settling(orderId, txHash) => SettleKeepsPlayers(w, s, orderId, txHash);
      case Inviting(player, code, newId) => InviteLeavesRest(s, player, code, newId);
      case Binding(player, code, root, newId) => BindKeepsPlayers(s, player, code, root, newId);
      case RewardStarted(worker, r) => BeginLeavesRest(w, s, worker, r);
      case RewardSent(worker, txHash) => SendLeavesRest(w, s, worker, txHash);
      case RewardCommitted(worker) => CommitKeepsPlayers(w, s, worker);
      case _ => OtherStepsKeepPlayers(w, s, e);
    }
  }

  lemma OtherStepsKeepPlayers(w: World, s: Store, e: Event)
    requires Enabled(w, s, e) && !e.Quoting? && !e.Settling? && !e.Inviting? && !e.Binding?
    requires !e.RewardStarted? && !e.RewardSent? && !e.RewardCommitted?
    ensures PlayersStay(s.players, Step(w, s, e).players)
  {
    hide Quote, Settle, Bind, Invite, RewardCommit, RewardBegin, RewardSend;
  }

  lemma SettleKeepsPlayers(w: World, s: Store, orderId: string, txHash: string)
    ensures Settle(w, s, orderId, txHash).0.players == s.players
  {
    hide VerifyPayment, QualifyingReferral;
  }

  lemma BindKeepsPlayers(s: Store, playerId: string, code: string, root: Option<string>, newId: string)
    requires root.Some? ==> root.value in s.referrals
    ensures PlayersStay(s.players, Bind(s, playerId, code, root, newId).0.players)
  {
    hide CodeTaken;
  }

  lemma CommitKeepsPlayers(w: World, s: Store, worker: nat)
    requires worker in s.workers && !s.workers[worker].Paying? && s.workers[worker].referralId in s.referrals
    ensures RewardCommit(w, s, worker).players == s.players
  {}

  /** What a referral earns is fixed once it is qualified. */
  lemma RewardStays(w: World, s: Store, e: Event, r: string)
    requires WorldOk(w) && Inv(w, s) && RewardKnown(s, r)
    ensures var t := Step(w, s, e); RewardKnown(t, r) && RewardOf(w, t, r) == RewardOf(w, s, r)
  {
    hide Step, Inv, WorldOk, RewardTransfer, PaidRowsStay, PlayersStay, ReferralsStep;
    var t := Step(w, s, e);
    StepKeepsInv(w, s, e);
    StepMovesReferrals(w, s, e);
    StepKeepsPlayers(w, s, e);
    StepKeepsPaidRows(w, s, e);
    SameReward(w, s, t, r);
  }

  lemma SameReward(w: World, s: Store, t: Store, r: string)
    requires Inv(w, s) && Inv(w, t) && RewardKnown(s, r)
    requires ReferralsStep(s.referrals, t.referrals) && PlayersStay(s.players, t.players) && PaidRowsStay(s.orders, t.orders)
    ensures RewardKnown(t, r) && RewardOf(w, t, r) == RewardOf(w, s, r)
  {
    hide UsageInv, OrderInv, SaleInv, PayoutInv, RewardDisabled, RewardTransfer;
    assert MovesTo(s.referrals[r], t.referrals[r]);
    assert ReferralOk(w, PaidRows(s.orders), s.players, s.referrals[r]);
    assert ReferralOk(w, PaidRows(t.orders), t.players, t.referrals[r]);
    hide ReferralInv;
    var id := s.referrals[r].qualifyingOrderId.value;
    assert id in PaidRows(s.orders);
    assert t.orders[id] == s.orders[id];
  }

  lemma PlanIsRight(w: World, s: Store, r: string)
    requires RewardPlan(w, s, r).Some?
    ensures RewardPlan(w, s, r).value.referralId == r && WorkRight(w, s, RewardPlan(w, s, r).value)
  {}

  lemma StepWorkers(w: World, s: Store, e: Event, k: nat)
    requires k in Step(w, s, e).workers
    ensures var t := Step(w, s, e);
      || (k in s.workers && t.workers[k] == s.workers[k])
      || (e.RewardStarted? && RewardPlan(w, s, e.referralId) == Some(t.workers[k]))
      || (e.RewardSent? && k in s.workers && s.workers[k].Paying? && t.workers[k].Paid?
          && t.workers[k].referralId == s.workers[k].referralId && t.workers[k].amount == s.workers[k].amount
          && t.workers[k].currency == s.workers[k].currency && t.workers[k].dest == s.workers[k].dest)
  {
    hide Quote, Settle, Bind, Invite, Join, RewardCommit, RewardPlan, Enqueue, PayoutRecord, PayoutSend, PayoutBegin;
    if Enabled(w, s, e) {
      match e
      case Quoting(input, now) => QuoteLeavesRest(w, s, input, now);
      case Settling(orderId, txHash) => SettleKeepsWorkers(w, s, orderId, txHash);
      case Inviting(player, code, newId) => InviteLeavesRest(s, player, code, newId);
      case Binding(player, code, root, newId) => BindLeavesRest(s, player, code, root, newId);
      case RewardStarted(_, _) =>
      case RewardSent(_, _) =>
      case RewardCommitted(worker) => CommitDropsWorker(w, s, worker);
      case RewardLost(_) =>
      case _ => OtherStepsKeepWorkers(w, s, e);
    }
  }

  lemma SettleKeepsWorkers(w: World, s: Store, orderId: string, txHash: string)
    ensures Settle(w, s, orderId, txHash).0.workers == s.workers
  {
    hide VerifyPayment, QualifyingReferral;
  }

  lemma CommitDropsWorker(w: World, s: Store, worker: nat)
    requires worker in s.workers && !s.workers[worker].Paying? && s.workers[worker].referralId in s.referrals
    ensures RewardCommit(w, s, worker).workers == s.workers - {worker}
  {}

  lemma OtherStepsKeepWorkers(w: World, s: Store, e: Event)
    requires Enabled(w, s, e) && !e.Quoting? && !e.Settling? && !e.Inviting? && !e.Binding?
    requires !e.RewardStarted? && !e.RewardSent? && !e.RewardCommitted? && !e.RewardLost?
    ensures Step(w, s, e).workers == s.workers
  {
    hide Quote, Settle, Bind, Invite, RewardCommit, RewardBegin, RewardSend;
  }

  lemma WorkersStayRight(w: World, s: Store, e: Event)
    requires WorldOk(w) && Inv(w, s) && RewardsRight(w, s)
    ensures forall k :: k in Step(w, s, e).workers ==> WorkRight(w, Step(w, s, e), Step(w, s, e).workers[k])
  {
    hide Step, Inv, WorldOk, RewardKnown, RewardOf, RewardPlan, RewardTransfer;
    var t := Step(w, s, e);
    forall k | k in t.workers
      ensures WorkRight(w, t, t.workers[k])
    {
      StepWorkers(w, s, e, k);
      if e.RewardStarted? && RewardPlan(w, s, e.referralId) == Some(t.workers[k]) {
        PlanIsRight(w, s, e.referralId);
      } else {
        assert WorkRight(w, s, s.workers[k]);
      }
      if !t.workers[k].Waiving? {
        RewardStays(w, s, e, t.workers[k].referralId);
      }
    }
  }

  lemma RewardSendIs(w: World, s: Store, e: Event)
    requires RewardsRight(w, s)
    ensures var t := Step(w, s, e);
      || (forall x :: x in t.sent && x.kind == REFERRAL_REWARD ==> x in s.sent)
      || (e.RewardSent? && e.worker in s.workers && s.workers[e.worker].Paying?
          && RewardKnown(s, s.workers[e.worker].referralId)
          && t.sent == s.sent + [RewardOf(w, s, s.workers[e.worker].referralId)])
  {
    hide Quote, Settle, Bind, Invite, Join, RewardCommit, RewardBegin, Enqueue, PayoutRecord, PayoutBegin, RewardTransfer, RewardOf, RewardKnown;
    if e.RewardSent? && Enabled(w, s, e) {
      assert WorkRight(w, s, s.workers[e.worker]);
    } else {
      StepSends(w, s, e);
      NoOtherSendsRewards(w, s, e);
    }
  }

  lemma NoOtherSendsRewards(w: World, s: Store, e: Event)
    requires !(e.RewardSent? && Enabled(w, s, e))
    ensures forall x :: x in Step(w, s, e).sent && x.kind == REFERRAL_REWARD ==> x in s.sent
  {
    hide Quote, Settle, Bind, Invite, RewardCommit, RewardBegin, RewardSend, PayoutWallet;
    if Enabled(w, s, e) {
      match e
      case Quoting(input, now) => QuoteLeavesRest(w, s, input, now);
      case Settling(orderId, txHash) => SettleKeepsSent(w, s, orderId, txHash);
      case Inviting(player, code, newId) => InviteLeavesRest(s, player, code, newId);
      case Binding(player, code, root, newId) => BindLeavesRest(s, player, code, root, newId);
      case RewardStarted(worker, r) => BeginLeavesRest(w, s, worker, r);
      case RewardCommitted(worker) => CommitKeepsSent(w, s, worker);
      case _ =>
    }
  }

  /** In every run each reward sent is what its referral earned: the amount and currency of the studio or the
      platform, to the referrer's wallet. */
  lemma {:induction false} RewardsRightInEveryRun(w: World, s: Store, events: seq<Event>)
    requires WorldOk(w) && Init(w, s)
    ensures RewardsRight(w, Run(w, s, events))
  {
    hide Step, Inv, WorldOk, RewardOf, RewardTransfer, RewardKnown, WorkRight;
    InitHasInv(w, s);
    if events != [] {
      var before, e := events[..|events| - 1], events[|events| - 1];
      RewardsRightInEveryRun(w, s, before);
      RunKeepsInv(w, s, before);
      var t := Run(w, s, before);
      var u := Step(w, t, e);
      WorkersStayRight(w, t, e);
      RewardSendIs(w, t, e);
      forall x | x in u.sent && x.kind == REFERRAL_REWARD
        ensures RewardKnown(u, x.subject) && x == RewardOf(w, u, x.subject)
      {
        RewardNamesReferral(w, t, e, x);
        RewardStays(w, t, e, x.subject);
      }
    }
  }

  lemma RewardNamesReferral(w: World, s: Store, e: Event, x: Transfer)
    requires RewardsRight(w, s) && x in Step(w, s, e).sent && x.kind == REFERRAL_REWARD
    ensures RewardKnown(s, x.subject) && x == RewardOf(w, s, x.subject)
  {
    hide Step, RewardKnown, WorkRight;
    RewardSendIs(w, s, e);
  }

  // ---------------------------------------------------------------- where that ends

  /** Two runs of the job for one referral, each sending before the other closes. */
  function Overlap(r: string, h1: string, h2: string): seq<Event>
  {
    [RewardStarted(0, r), RewardStarted(1, r), RewardSent(0, h1), RewardSent(1, h2), RewardCommitted(0), RewardCommitted(1)]
  }

  lemma BothStarted(w: World, s: Store, r: string) returns (a: Store)
    requires s.workers == map[] && RewardPlan(w, s, r).Some?
    ensures a == Step(w, Step(w, s, RewardStarted(0, r)), RewardStarted(1, r))
    ensures a == s.(workers := map[0 := RewardPlan(w, s, r).value, 1 := RewardPlan(w, s, r).value])
  {
    hide Quote, Settle;
    var s1 := Step(w, s, RewardStarted(0, r));
    assert RewardPlan(w, s1, r) == RewardPlan(w, s, r);
    a := Step(w, s1, RewardStarted(1, r));
  }

  lemma BothSent(w: World, s: Store, a: Store, r: string, h1: string, h2: string) returns (b: Store)
    requires RewardPlan(w, s, r).Some? && RewardPlan(w, s, r).value.Paying?
    requires a == s.(workers := map[0 := RewardPlan(w, s, r).value, 1 := RewardPlan(w, s, r).value])
    ensures b == Step(w, Step(w, a, RewardSent(0, h1)), RewardSent(1, h2))
    ensures RewardKnown(s, r) && b.sent == s.sent + [RewardOf(w, s, r), RewardOf(w, s, r)]
    ensures b.ledger == s.ledger && b.referrals == s.referrals
    ensures b.referrals[r].status == QUALIFIED && b.workers.Keys == {0, 1}
    ensures b.workers[0].Paid? && b.workers[0].referralId == r && b.workers[0].txHash == h1
    ensures b.workers[1].Paid? && b.workers[1].referralId == r && b.workers[1].txHash == h2
  {
    hide Quote, Settle, Enqueue, Bind, RewardBegin, RewardCommit, RewardTransfer;
    b := Step(w, Step(w, a, RewardSent(0, h1)), RewardSent(1, h2));
  }

  lemma BothCommitted(w: World, b: Store, r: string, h1: string, h2: string) returns (c: Store)
    requires r in b.referrals && b.referrals[r].status == QUALIFIED && b.workers.Keys == {0, 1}
    requires b.workers[0].Paid? && b.workers[0].referralId == r && b.workers[0].txHash == h1
    requires b.workers[1].Paid? && b.workers[1].referralId == r && b.workers[1].txHash == h2
    ensures c == Step(w, Step(w, b, RewardCommitted(0)), RewardCommitted(1))
    ensures c.sent == b.sent && |c.ledger| == |b.ledger| + 1
    ensures r in c.referrals && c.referrals[r].rewardTxHash == Some(h1)
  {
    hide Quote, Settle, Enqueue, Bind, RewardBegin, RewardSend;
    c := Step(w, Step(w, b, RewardCommitted(0)), RewardCommitted(1));
  }

  /** In any state where a referral is due its reward and no run is open, two runs that overlap both send it, while
      the ledger records the first. */
  lemma OverlappingRewardsPayTwice(w: World, s: Store, r: string, h1: string, h2: string)
    requires s.workers == map[] && RewardPlan(w, s, r).Some? && RewardPlan(w, s, r).value.Paying?
    ensures RewardKnown(s, r)
    ensures var t := Run(w, s, Overlap(r, h1, h2)); var x := RewardOf(w, s, r);
      && t.sent == s.sent + [x, x]
      && SentCount(t.sent, REFERRAL_REWARD, r) == SentCount(s.sent, REFERRAL_REWARD, r) + 2
      && |t.ledger| == |s.ledger| + 1 && r in t.referrals && t.referrals[r].rewardTxHash == Some(h1)
  {
    hide Step, Run, RewardPlan, SentCount;
    var a := BothStarted(w, s, r);
    var b := BothSent(w, s, a, r, h1, h2);
    var c := BothCommitted(w, b, r, h1, h2);
    var rest := [RewardSent(1, h2), RewardCommitted(0), RewardCommitted(1)];
    RunThree(w, s, RewardStarted(0, r), RewardStarted(1, r), RewardSent(0, h1), rest);
    assert [RewardStarted(0, r), RewardStarted(1, r), RewardSent(0, h1)] + rest == Overlap(r, h1, h2);
    RunThree(w, Step(w, a, RewardSent(0, h1)), RewardSent(1, h2), RewardCommitted(0), RewardCommitted(1), []);
    assert rest + [] == rest;
    RunNothing(w, c);
    var x := RewardOf(w, s, r);
    SentAppend(s.sent, x);
    SentAppend(s.sent + [x], x);
    assert s.sent + [x, x] == s.sent + [x] + [x];
  }
}
